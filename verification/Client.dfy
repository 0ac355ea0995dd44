/** The client's flag machine: `handle_rx_msg_lib` (client/lib_src/client_lib.c)
    and `process_send_msg` (client/lib_src/user_iterectaions.c). */
module Client {
  import opened Common
  import opened CString
  import opened Commands
  import opened LineText
  import opened LineBuffer

  /** conn_request_rx, busy_in_chat and connected_client_name. */
  datatype Flags = Flags(req: bool, busy: bool, peer: string)

  const START := Flags(false, false, UNDEF_NAME)

  /** What one received message does to the flags. */
  function Rx(c: Flags, m: Msg): Flags {
    match m.kind
    case ConnectionReqRx => c.(req := true)
    case AcceptAck => Flags(false, true, m.text)
    case ChatReady => c.(busy := true, peer := m.text)
    case NoMoreFree => Flags(false, false, UNDEF_NAME)
    case Termination => Flags(false, false, UNDEF_NAME)
    case Disconnected => Flags(false, false, UNDEF_NAME)
    case _ => c
  }

  /** The flags once a whole inbox has been read. */
  function Replay(c: Flags, inbox: seq<Msg>): Flags
    decreases |inbox|
  {
    if inbox == [] then c else Replay(Rx(c, inbox[0]), inbox[1..])
  }

  lemma {:induction false} ReplayAppend(c: Flags, inbox: seq<Msg>, m: Msg)
    ensures Replay(c, inbox + [m]) == Rx(Replay(c, inbox), m)
    decreases |inbox|
  {
    if inbox == [] {
      assert inbox + [m] == [m];
    } else {
      assert (inbox + [m])[1..] == inbox[1..] + [m];
      ReplayAppend(Rx(c, inbox[0]), inbox[1..], m);
    }
  }

  /** A line typed while in a chat goes to the peer; "disconnect" also ends
      the chat on this side at once. */
  function ChatLine(c: Flags, line: string): Flags {
    if line == DISCONNECT_CMD then c.(busy := false, peer := UNDEF_NAME) else c
  }

  /** What one line does to the flags, and the request it sends. */
  function ProcessSend(c: Flags, line: string): (Flags, Option<Request>) {
    if c.busy then (ChatLine(c, line), Some(Tx(line)))
    else if c.req && line == "yes" then (c.(req := false), Some(Accept))
    else if c.req && line == "no" then (c.(req := false), Some(Decline))
    else if c.req then (c, None)
    else (c, CommandRequest(line))
  }

  /** One read from the terminal; a bare newline is skipped. */
  function Typed(c: Flags, raw: string): (Flags, Option<Request>) {
    if raw == "\n" then (c, None) else ProcessSend(c, Normalised(raw))
  }

  // ---- said of the characters typed and the messages read ----

  /** What a line of text does, by the state of the client. */
  ghost predicate LineDoes(c: Flags, text: string, d: Flags, r: Option<Request>) {
    if c.busy then
      && r == Some(Tx(text))
      && d == (if text == "disconnect" then Flags(c.req, false, "NAME_NOT_DEFINED") else c)
    else if c.req then
      if text == "yes" then r == Some(Accept) && d == Flags(false, false, c.peer)
      else if text == "no" then r == Some(Decline) && d == Flags(false, false, c.peer)
      else r == None && d == c
    else d == c && IdleSends(text, r)
  }

  lemma SendExactly(c: Flags, text: string)
    ensures LineDoes(c, text, ProcessSend(c, text).0, ProcessSend(c, text).1)
  {
    if !c.busy && !c.req {
      IdleExactly(text, CommandRequest(text));
    }
  }

  /** The terminal, completely: a bare newline does nothing; any other line does
      what its text says, and nothing else. */
  lemma TypedExactly(c: Flags, raw: string, d: Flags, r: Option<Request>)
    ensures Typed(c, raw) == (d, r) <==>
            if raw == "\n" then d == c && r == None
            else exists text :: TextOfLine(raw, text) && LineDoes(c, text, d, r)
  {
    var text := Normalised(raw);
    TextExactly(raw, text);
    if !c.busy && !c.req {
      IdleExactly(text, r);
    }
    if raw != "\n" && exists other :: TextOfLine(raw, other) && LineDoes(c, other, d, r) {
      var other :| TextOfLine(raw, other) && LineDoes(c, other, d, r);
      TextExactly(raw, other);
    }
  }

  /** Asking for the list: spaces and tabs in front do not matter. */
  lemma GetListIsTyped(c: Flags, blanks: string)
    requires !c.busy && !c.req && forall b :: b in blanks ==> b == ' ' || b == '\t'
    ensures Typed(c, blanks + "get_list" + "\n") == (c, Some(GetList))
  {
    BlanksAndNewlineGo(blanks, "get_list");
    IdleExactly("get_list", Some(GetList));
    assert |blanks + "get_list" + "\n"| > 1;
  }

  /** In a chat every line but the bare newline goes to the peer. */
  lemma ChatIsTyped(c: Flags, raw: string, text: string)
    requires c.busy && TextOfLine(raw, text)
    ensures Typed(c, raw).1 == if raw == "\n" then None else Some(Tx(text))
    ensures raw == "\n" || text != "disconnect" ==> Typed(c, raw).0 == c
  {
    TextExactly(raw, text);
  }

  // ---- messages ----

  /** What each kind of message does to the flags: a request to answer, the
      beginning of a chat with the client named, the end of everything, or
      nothing. */
  lemma RxExactly(c: Flags, m: Msg)
    ensures Rx(c, m) ==
            if m.kind == ConnectionReqRx then Flags(true, c.busy, c.peer)
            else if m.kind == AcceptAck then Flags(false, true, m.text)
            else if m.kind == ChatReady then Flags(c.req, true, m.text)
            else if m.kind in {NoMoreFree, Termination, Disconnected} then Flags(false, false, "NAME_NOT_DEFINED")
            else c
  {
  }

  class ChatClient {
    var connRequestRx: bool
    var busyInChat: bool
    var connectedClientName: string
    var sent: seq<Request>

    function State(): Flags
      reads this
    {
      Flags(connRequestRx, busyInChat, connectedClientName)
    }

    constructor ()
      ensures State() == START && sent == []
    {
      connRequestRx, busyInChat, connectedClientName, sent := false, false, UNDEF_NAME, [];
    }

    /** The state and the sent requests after handling a line. */
    twostate predicate Did(o: (Flags, Option<Request>))
      reads this
    {
      && State() == o.0
      && sent == old(sent) + match o.1 case None => [] case Some(r) => [r]
    }

    /** The new state and what has been sent are those of a line with this text. */
    twostate predicate DidLine(text: string)
      reads this
    {
      exists r ::
        && LineDoes(old(State()), text, State(), r)
        && sent == old(sent) + match r case None => [] case Some(q) => [q]
    }

    method Send(r: Request)
      modifies this`sent
      ensures sent == old(sent) + [r]
    {
      sent := sent + [r];
    }

    /** handle_rx_msg_lib */
    method HandleRx(m: Msg)
      modifies this
      ensures State() == Rx(old(State()), m) && sent == old(sent)
    {
      match m.kind {
        case ConnectionReqRx =>
          connRequestRx := true;
        case AcceptAck =>
          connRequestRx := false;
          busyInChat := true;
          connectedClientName := m.text;
        case ChatReady =>
          connectedClientName := m.text;
          busyInChat := true;
        case NoMoreFree | Termination | Disconnected =>
          connRequestRx := false;
          busyInChat := false;
          connectedClientName := UNDEF_NAME;
        case _ =>
      }
    }

    /** handle_send_msg_to_client */
    method SendToPeer(line: string)
      modifies this
      ensures Did((ChatLine(old(State()), line), Some(Tx(line))))
    {
      Send(Tx(line));
      if line == DISCONNECT_CMD {
        busyInChat := false;
        connectedClientName := UNDEF_NAME;
      }
    }

    /** The name behind `connect` or `set_name`: two calls of `strtok`. */
    method NameArgument(buf: array<char>) returns (name: Option<string>)
      requires NUL in buf[..]
      modifies buf
      ensures name == SecondWord(old(CStr(buf[..])))
    {
      assert buf[0..] == buf[..];
      name := None;
      var cmdStr, save := StrTok(buf, 0);
      if cmdStr == -1 {
        return;
      }
      var tok, _ := StrTok(buf, save);
      if tok != -1 {
        name := Some(CStr(buf[tok..]));
      }
    }

    /** process_send_msg */
    method ProcessSendMsg(buf: array<char>)
      requires NUL in buf[..]
      modifies this, buf
      ensures Did(ProcessSend(old(State()), old(CStr(buf[..])))) && DidLine(old(CStr(buf[..])))
    {
      var line := CStr(buf[..]);
      SendExactly(State(), line);
      if busyInChat {
        SendToPeer(line);
        return;
      }
      if connRequestRx && line == "yes" {
        connRequestRx := false;
        Send(Accept);
        return;
      } else if connRequestRx && line == "no" {
        connRequestRx := false;
        Send(Decline);
        return;
      } else if connRequestRx {
        return;
      }
      var cmd := GetCmdId(line);
      match cmd {
        case GetListCmd =>
          Send(GetList);
        case ConnectCmd =>
          var name := NameArgument(buf);
          if name.Some? {
            Send(Connect(name.value));
          }
        case SetNameCmd =>
          var name := NameArgument(buf);
          if name.Some? {
            Send(SetName(name.value));
          }
        case DisconnectCmd | HelpCmd | ClearCmd | NoCmd =>
      }
    }

    /** The terminal branch of `io_thread`, after `bytes` characters were read. */
    method OnLine(buf: array<char>, bytes: nat)
      requires buf.Length == MAX_MSG_LEN && 0 < bytes < buf.Length
      modifies this, buf
      ensures Did(Typed(old(State()), old(buf[..bytes])))
      ensures old(buf[..bytes]) == "\n" ==> State() == old(State()) && sent == old(sent)
      ensures old(buf[..bytes]) != "\n" ==> forall text :: TextOfLine(old(buf[..bytes]), text) ==> DidLine(text)
    {
      if bytes == 1 && buf[0] == '\n' {
        assert buf[..bytes] == "\n";
        return;
      }
      ghost var raw := buf[..bytes];
      assert raw != "\n";
      NormaliseInPlace(buf, bytes);
      ghost var line := CStr(buf[..]);
      ProcessSendMsg(buf);
      forall text | TextOfLine(raw, text) ensures text == line {
        TextExactly(raw, text);
      }
    }
  }
}

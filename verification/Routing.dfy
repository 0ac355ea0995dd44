/** Where the lines of a chat session go. */
module Routing {
  import opened Common
  import opened Table
  import opened Commands
  import opened LineText
  import opened Client
  import opened Handlers
  import opened Changes
  import opened Composed
  import opened Reachable
  import opened Pairing
  import opened Sessions

  /** The chat line the characters are, typed in a chat: the text of the line,
      unless it is a bare newline or "disconnect". */
  function ChatText(raw: string): seq<string> {
    if raw == "\n" || Normalised(raw) == "disconnect" then [] else [Normalised(raw)]
  }

  /** The chat line a step types for `x`, read off its characters and whether
      `x` believes itself in a chat. */
  function ChatLineOf(s: Sys, ev: Event, x: Fd): seq<string> {
    if ev.Type? && ev.fd == x && x in s.cl && s.cl[x].flags.busy then ChatText(ev.raw) else []
  }

  /** The chat lines `x` types in a run, in order. */
  function ChatLines(s: Sys, evs: seq<Event>, x: Fd): seq<string>
    requires IsRun(s, evs)
    decreases |evs|
  {
    if evs == [] then [] else ChatLineOf(s, evs[0], x) + ChatLines(Apply(s, evs[0]), evs[1..], x)
  }

  /** The text of a chat line, and nothing for any other message. */
  function TextOf(m: Msg): seq<string> {
    if m.kind == ClientRx then [m.text] else []
  }

  /** The texts of the chat lines among some messages. */
  function Texts(ms: seq<Msg>): seq<string> {
    if ms == [] then [] else TextOf(ms[0]) + Texts(ms[1..])
  }

  /** The chat lines among some envelopes, with their destinations. */
  function Chats(sends: seq<Envelope>): seq<(Fd, string)> {
    if sends == [] then []
    else (if sends[0].msg.kind == ClientRx then [(sends[0].dst, sends[0].msg.text)] else []) + Chats(sends[1..])
  }

  /** Every chat line the server forwards for `x` in a run, with destination. */
  function Forwarded(s: Sys, evs: seq<Event>, x: Fd): seq<(Fd, string)>
    requires IsRun(s, evs)
    decreases |evs|
  {
    if evs == [] then []
    else (if evs[0].fd == x then Chats(Sends(s, evs[0])) else []) + Forwarded(Apply(s, evs[0]), evs[1..], x)
  }

  function Addressed(y: Fd, lines: seq<string>): seq<(Fd, string)> {
    if lines == [] then [] else [(y, lines[0])] + Addressed(y, lines[1..])
  }

  lemma {:induction false} TextsAppend(a: seq<Msg>, b: seq<Msg>)
    ensures Texts(a + b) == Texts(a) + Texts(b)
  {
    if a == [] {
      assert a + b == b;
    } else {
      assert (a + b)[0] == a[0] && (a + b)[1..] == a[1..] + b;
      calc {
        Texts(a + b);
        TextOf(a[0]) + Texts(a[1..] + b);
        { TextsAppend(a[1..], b); }
        TextOf(a[0]) + (Texts(a[1..]) + Texts(b));
        (TextOf(a[0]) + Texts(a[1..])) + Texts(b);
        Texts(a) + Texts(b);
      }
    }
  }

  /** Messages that are not chat lines contribute none. */
  lemma {:induction false} QuietSends(sends: seq<Envelope>, y: Fd)
    requires forall e :: e in sends ==> e.msg.kind != ClientRx
    ensures Chats(sends) == [] && Texts(To(sends, y)) == []
  {
    if sends != [] {
      QuietSends(sends[1..], y);
      if sends[0].dst == y {
        assert To(sends, y)[1..] == To(sends[1..], y);
      } else {
        assert To(sends, y) == To(sends[1..], y);
      }
    }
  }

  lemma OneChat(d: Envelope, y: Fd)
    requires d.msg.kind == ClientRx
    ensures Chats([d]) == [(d.dst, d.msg.text)]
    ensures Texts(To([d], y)) == if d.dst == y then [d.msg.text] else []
  {
    assert [d][1..] == [];
    assert [d.msg][1..] == [];
    assert To([d], y) == if d.dst == y then [d.msg] else [];
  }

  predicate IsChat(t: Table, fd: Fd, r: Request) {
    r.Tx? && r.line != DISCONNECT_CMD && IsBusy(t, fd)
  }

  lemma NoChatLines(t: Table, fd: Fd, r: Request)
    requires Wf(t) && Linked(t) && !IsChat(t, fd, r)
    ensures forall e :: e in Handle(t, fd, r).sends ==> e.msg.kind != ClientRx
  {
    if r.Accept? {
      AcceptSends(t, fd);
    }
  }

  /** Only a chat line is forwarded as one, to the sender's link; nothing else
      the server sends looks like one. */
  lemma SendsOfRequest(t: Table, fd: Fd, r: Request, y: Fd)
    requires Wf(t) && Linked(t)
    ensures var sends := Handle(t, fd, r).sends;
            && Chats(sends) == (if IsChat(t, fd, r) then [(ConnFd(t, fd), r.line)] else [])
            && Texts(To(sends, y)) == (if IsChat(t, fd, r) && ConnFd(t, fd) == y then [r.line] else [])
  {
    var sends := Handle(t, fd, r).sends;
    if IsChat(t, fd, r) {
      var e := Env(ConnFd(t, fd), Msg(ClientRx, r.line));
      assert sends == [e];
      OneChat(e, y);
    } else {
      NoChatLines(t, fd, r);
      QuietSends(sends, y);
    }
  }

  lemma SendsOfClose(t: Table, fd: Fd, y: Fd)
    requires Wf(t) && fd in t.at
    ensures Chats(HandleClose(t, fd).sends) == [] && Texts(To(HandleClose(t, fd).sends, y)) == []
  {
    CloseShape(t, fd);
    QuietSends(HandleClose(t, fd).sends, y);
  }

  /** Another busy client types a chat line that goes to the link of `x`. */
  predicate Intrudes(s: Sys, ev: Event, x: Fd)
    requires Enabled(s, ev)
  {
    ev.fd != x && ChatLineOf(s, ev, ev.fd) != [] && IsBusy(s.t, ev.fd) && ConnFd(s.t, ev.fd) == ConnFd(s.t, x)
  }

  lemma ChatIsRequested(c: Flags, raw: string)
    ensures var r := Typed(c, raw).1;
            (if c.busy then ChatText(raw) else []) ==
            if r.Some? && r.value.Tx? && r.value.line != DISCONNECT_CMD then [r.value.line] else []
  {
    TextIsNormalised(raw);
    if c.busy {
      ChatIsTyped(c, raw, Normalised(raw));
    }
  }

  lemma TypeRoutes(s: Sys, fd: Fd, raw: string, x: Fd)
    requires Sound(Abs(s)) && Enabled(s, Type(fd, raw)) && IsBusy(s.t, x)
    ensures var ev, y := Type(fd, raw), s.t.at[x].toFd;
            && (fd == x ==> Chats(Sends(s, ev)) == Addressed(y, ChatLineOf(s, ev, x)))
            && (if Intrudes(s, ev, x) then |Texts(To(Sends(s, ev), y))| == 1 && ChatLineOf(s, ev, x) == []
                else Texts(To(Sends(s, ev), y)) == ChatLineOf(s, ev, x))
  {
    var r := Typed(s.cl[fd].flags, raw).1;
    ChatIsRequested(s.cl[fd].flags, raw);
    if r.Some? {
      SendsOfRequest(s.t, fd, r.value, s.t.at[x].toFd);
      if fd == x && ChatLineOf(s, Type(fd, raw), x) != [] {
        OneAddressed(s.t.at[x].toFd, r.value.line);
      }
    }
  }

  lemma OneAddressed(y: Fd, line: string)
    ensures Addressed(y, [line]) == [(y, line)]
  {
    assert [line][1..] == [];
  }

  lemma OnlyPartnerWrites(t: Table, fd: Fd, x: Fd)
    requires Paired(t) && IsBusy(t, x)
    ensures IsBusy(t, fd) && t.at[fd].toFd == t.at[x].toFd ==> fd == x
  {
    assert HasPartner(t, x);
    if IsBusy(t, fd) {
      assert HasPartner(t, fd);
    }
  }

  /** One step: what `x` types as a chat line is forwarded to its link; and what
      is queued there is exactly what `x` types, unless another busy client is
      linked there too and types: then it is that client's line. */
  lemma StepRoutes(s: Sys, ev: Event, x: Fd)
    requires Sound(Abs(s)) && Enabled(s, ev) && IsBusy(s.t, x)
    ensures var y := s.t.at[x].toFd;
            && (ev.fd == x ==> Chats(Sends(s, ev)) == Addressed(y, ChatLineOf(s, ev, x)))
            && (ev.fd != x ==> ChatLineOf(s, ev, x) == [])
            && (if Intrudes(s, ev, x) then |Texts(To(Sends(s, ev), y))| == 1 && ChatLineOf(s, ev, x) == []
                else Texts(To(Sends(s, ev), y)) == ChatLineOf(s, ev, x))
  {
    match ev {
      case Close(fd) =>
        assert Abs(s).v.Keys == s.cl.Keys;
        SendsOfClose(s.t, fd, s.t.at[x].toFd);
      case Type(fd, raw) => TypeRoutes(s, fd, raw, x);
      case _ =>
    }
  }

  /** In some step of the run another client's line goes to the link of `x`. */
  predicate IntrudedIn(s: Sys, evs: seq<Event>, x: Fd)
    requires IsRun(s, evs)
    decreases |evs|
  {
    evs != [] && (Intrudes(s, evs[0], x) || IntrudedIn(Apply(s, evs[0]), evs[1..], x))
  }

  lemma {:induction false} AddressedAppend(y: Fd, a: seq<string>, b: seq<string>)
    ensures Addressed(y, a + b) == Addressed(y, a) + Addressed(y, b)
  {
    if a == [] {
      assert a + b == b;
    } else {
      assert (a + b)[0] == a[0] && (a + b)[1..] == a[1..] + b;
      calc {
        Addressed(y, a + b);
        [(y, a[0])] + Addressed(y, a[1..] + b);
        { AddressedAppend(y, a[1..], b); }
        [(y, a[0])] + (Addressed(y, a[1..]) + Addressed(y, b));
        ([(y, a[0])] + Addressed(y, a[1..])) + Addressed(y, b);
        Addressed(y, a) + Addressed(y, b);
      }
    }
  }

  /** Session stability and routing, in every run: while a client stays busy
      its link never moves, and the chat lines it types, and only those, are
      forwarded for it to that one descriptor, complete and in order. */
  lemma {:induction false} SessionRouting(s: Sys, evs: seq<Event>, x: Fd)
    requires Sound(Abs(s)) && IsRun(s, evs) && BusyRun(s, evs, x)
    ensures IsBusy(After(s, evs).t, x) && After(s, evs).t.at[x].toFd == s.t.at[x].toFd
    ensures Forwarded(s, evs, x) == Addressed(s.t.at[x].toFd, ChatLines(s, evs, x))
    decreases |evs|
  {
    if evs != [] {
      SoundStep(s, evs[0]);
      LinkFrozen(s, evs[0], x);
      StepRoutes(s, evs[0], x);
      SessionRouting(Apply(s, evs[0]), evs[1..], x);
      AddressedAppend(s.t.at[x].toFd, ChatLineOf(s, evs[0], x), ChatLines(Apply(s, evs[0]), evs[1..], x));
    }
  }

  /** Every intrusion adds a line. */
  lemma {:induction false} LinesQueued(s: Sys, evs: seq<Event>, x: Fd)
    requires Sound(Abs(s)) && IsRun(s, evs) && BusyRun(s, evs, x)
    ensures var texts, lines := Texts(QueuedTo(s, evs, s.t.at[x].toFd)), ChatLines(s, evs, x);
            if IntrudedIn(s, evs, x) then |texts| > |lines| else texts == lines
    decreases |evs|
  {
    if evs != [] {
      var y := s.t.at[x].toFd;
      SoundStep(s, evs[0]);
      LinkFrozen(s, evs[0], x);
      StepRoutes(s, evs[0], x);
      LinesQueued(Apply(s, evs[0]), evs[1..], x);
      TextsAppend(To(Sends(s, evs[0]), y), QueuedTo(Apply(s, evs[0]), evs[1..], y));
    }
  }

  /** Where the busy clients are in pairs nobody else is linked there. */
  lemma {:induction false} PairsKeepOut(s: Sys, evs: seq<Event>, x: Fd)
    requires Sound(Abs(s)) && Paired(s.t)
    requires IsRun(s, evs) && CalmRun(s, evs) && BusyRun(s, evs, x)
    ensures !IntrudedIn(s, evs, x)
    decreases |evs|
  {
    if evs != [] {
      SoundStep(s, evs[0]);
      ComposedPairing(s, evs[0]);
      OnlyPartnerWrites(s.t, evs[0].fd, x);
      PairsKeepOut(Apply(s, evs[0]), evs[1..], x);
    }
  }

  /** The chat lines queued to the peer in a session are exactly the ones typed,
      if and only if no other busy client linked to the peer types one; in a
      paired run none does. */
  lemma SessionIsPrivate(s: Sys, evs: seq<Event>, x: Fd)
    requires Sound(Abs(s)) && IsRun(s, evs) && BusyRun(s, evs, x)
    ensures Texts(QueuedTo(s, evs, s.t.at[x].toFd)) == ChatLines(s, evs, x) <==> !IntrudedIn(s, evs, x)
    ensures Paired(s.t) && CalmRun(s, evs) ==> !IntrudedIn(s, evs, x)
  {
    LinesQueued(s, evs, x);
    if Paired(s.t) && CalmRun(s, evs) {
      PairsKeepOut(s, evs, x);
    }
  }

  /** The close of its partner frees a busy client. */
  lemma CloseFrees(s: Sys, x: Fd)
    requires Sound(Abs(s)) && Paired(s.t) && IsBusy(s.t, x) && Enabled(s, Close(s.t.at[x].toFd))
    ensures !IsBusy(Apply(s, Close(s.t.at[x].toFd)).t, x)
  {
    assert HasPartner(s.t, x);
    CloseShape(s.t, s.t.at[x].toFd);
  }

  lemma {:induction false} PeerStays(s: Sys, evs: seq<Event>, x: Fd)
    requires Sound(Abs(s)) && Paired(s.t)
    requires IsRun(s, evs) && CalmRun(s, evs) && BusyRun(s, evs, x)
    ensures Stays(evs, s.t.at[x].toFd)
    decreases |evs|
  {
    if evs != [] {
      var y := s.t.at[x].toFd;
      SoundStep(s, evs[0]);
      ComposedPairing(s, evs[0]);
      LinkFrozen(s, evs[0], x);
      if evs[0] == Close(y) {
        CloseFrees(s, x);
      }
      PeerStays(Apply(s, evs[0]), evs[1..], x);
    }
  }

  lemma SamePrefix<T>(p: seq<T>, a: seq<T>, b: seq<T>)
    ensures p + a == p + b <==> a == b
  {
    if p + a == p + b {
      assert a == (p + a)[|p|..] && b == (p + b)[|p|..];
    }
  }

  /** End to end: while its peer stays, the chat lines the peer has read,
      followed by those still waiting in its inbox, are the ones that waited at
      the start followed by every line typed since, if and only if nobody else
      writes to it; and in a paired run it stays and nobody does. */
  lemma EndToEnd(s: Sys, evs: seq<Event>, x: Fd)
    requires Sound(Abs(s)) && IsRun(s, evs) && BusyRun(s, evs, x)
    ensures var y := s.t.at[x].toFd;
            && (y in s.cl && Stays(evs, y) ==>
                  && y in After(s, evs).cl
                  && var got := Texts(ReadBy(s, evs, y)) + Texts(After(s, evs).cl[y].inbox);
                     got == Texts(s.cl[y].inbox) + ChatLines(s, evs, x) <==> !IntrudedIn(s, evs, x))
            && (Paired(s.t) && CalmRun(s, evs) ==> y in s.cl && Stays(evs, y) && !IntrudedIn(s, evs, x))
  {
    var y := s.t.at[x].toFd;
    assert Abs(s).v.Keys == s.cl.Keys;
    if Paired(s.t) && CalmRun(s, evs) {
      assert HasPartner(s.t, x);
      PeerStays(s, evs, x);
      PairsKeepOut(s, evs, x);
    }
    if y in s.cl && Stays(evs, y) {
      InboxIsFifo(s, evs, y);
      SessionIsPrivate(s, evs, x);
      TextsAppend(ReadBy(s, evs, y), After(s, evs).cl[y].inbox);
      TextsAppend(s.cl[y].inbox, QueuedTo(s, evs, y));
      SamePrefix(Texts(s.cl[y].inbox), Texts(QueuedTo(s, evs, y)), ChatLines(s, evs, x));
    }
  }
}

/** When the clients' flags and the server's statuses agree: once a client has
    read its inbox it is in a chat exactly when the server says BUSY, and has a
    request to answer exactly when the server says REQ_PENDING. */
module ViewAgreement {
  import opened Common
  import opened Table
  import opened Client
  import opened Handlers
  import opened Changes
  import opened Composed

  predicate AgreesAt(c: Flags, s: Status) {
    (c.busy <==> s == Busy) && (c.req <==> s == ReqPending)
  }

  ghost predicate Agrees(t: Table, v: map<Fd, Flags>) {
    v.Keys == t.at.Keys && forall f :: f in t.at ==> AgreesAt(v[f], t.at[f].status)
  }

  ghost predicate Core(a: View) {
    && Wf(a.t) && Linked(a.t) && !a.locked
    && Agrees(a.t, a.v)
  }

  // ---- what a typed line leaves of the unread messages ----

  /** A typed line changes the flags `c` to `d`: it can answer the request, or
      end the chat, or nothing. */
  predicate Fits(c: Flags, d: Flags, r: Option<Request>) {
    || d == c
    || ((r == Some(Accept) || r == Some(Decline)) && d == c.(req := false))
    || (r == Some(Tx(DISCONNECT_CMD)) && d == c.(busy := false, peer := UNDEF_NAME))
  }

  /** Whatever waits unread, reading it leaves no other difference. */
  lemma {:induction false} ReplayFits(c: Flags, d: Flags, inbox: seq<Msg>, r: Option<Request>)
    requires Fits(c, d, r)
    ensures Fits(Replay(c, inbox), Replay(d, inbox), r)
    decreases |inbox|
  {
    if inbox != [] {
      ReplayFits(Rx(c, inbox[0]), Rx(d, inbox[0]), inbox[1..], r);
    }
  }

  ghost predicate MoveFits(a: View, mv: Move) {
    mv.Types? && mv.fd in a.v ==> Fits(a.v[mv.fd], mv.e, mv.r)
  }

  lemma StepFits(s: Sys, ev: Event)
    requires Enabled(s, ev)
    ensures MoveFits(Abs(s), MoveOf(s, ev))
  {
    if ev.Type? {
      var p := s.cl[ev.fd];
      var (c, r) := Typed(p.flags, ev.raw);
      ReplayFits(p.flags, c, p.inbox, r);
    }
  }

  // ---- what the replies do to the flags ----

  /** What becomes of the flags `c` of `f` when the change of `fd` is told. */
  function NewFlags(t: Table, c: Flags, f: Fd, fd: Fd, ch: Change): Flags {
    match ch
    case Asked(p) => if f == p then c.(req := true) else c
    case Coupled(p, told) =>
      if told && f == fd then c.(busy := true, peer := NameByFd(t, p))
      else if told && f == p then Flags(false, true, NameByFd(t, fd))
      else c
    case Parted(p) => if f == p then START else c
    case Refused => if f == fd then START else c
    case Misled => if f == fd then Flags(false, true, WRONG_ACK) else c
    case _ => c
  }

  ghost predicate Told(t: Table, v: map<Fd, Flags>, v': map<Fd, Flags>, fd: Fd, ch: Change) {
    && v'.Keys == v.Keys
    && (forall f :: f in v ==> v'[f] == NewFlags(t, v[f], f, fd, ch))
  }

  function Hears(c: Flags, f: Fd, e: Envelope): Flags {
    if f == e.dst then Rx(c, e.msg) else c
  }

  lemma ReadOne(v: map<Fd, Flags>, e: Envelope)
    ensures Read(v, [e]).Keys == v.Keys
    ensures forall f :: f in v ==> Read(v, [e])[f] == Hears(v[f], f, e)
  {
    assert [e][1..] == [];
  }

  lemma ReadTwo(v: map<Fd, Flags>, d: Envelope, e: Envelope)
    ensures Read(v, [d, e]).Keys == v.Keys
    ensures forall f :: f in v ==> Read(v, [d, e])[f] == Hears(Hears(v[f], f, d), f, e)
  {
    var w := if d.dst in v then v[d.dst := Rx(v[d.dst], d.msg)] else v;
    assert [d, e][1..] == [e];
    ReadOne(w, e);
  }

  /** A message that changes no flag. */
  predicate Quiet(m: Msg) {
    && !m.kind.ConnectionReqRx? && !m.kind.AcceptAck? && !m.kind.ChatReady?
    && !m.kind.NoMoreFree? && !m.kind.Termination? && !m.kind.Disconnected?
  }

  lemma QuietTold(t: Table, sends: seq<Envelope>, fd: Fd, v: map<Fd, Flags>, ch: Change)
    requires |sends| <= 1 && forall e :: e in sends ==> Quiet(e.msg)
    requires ch.Still? || ch.Stuck? || ch.Renamed? || ch.Declined? || ch.Forgot? || (ch.Coupled? && !ch.told)
    ensures Told(t, v, Read(v, sends), fd, ch)
  {
    if sends != [] {
      ReadOne(v, sends[0]);
      assert sends == [sends[0]];
    }
  }

  lemma AskedTold(t: Table, fd: Fd, p: Fd, m: Msg, q: Msg, v: map<Fd, Flags>)
    requires m.kind.ConnectionReqRx? && Quiet(q)
    ensures Told(t, v, Read(v, [Env(p, m), Env(fd, q)]), fd, Asked(p))
  {
    ReadTwo(v, Env(p, m), Env(fd, q));
  }

  lemma CoupledTold(t: Table, fd: Fd, p: Fd, v: map<Fd, Flags>)
    requires p != fd
    ensures Told(t, v, Read(v, AcceptReplies(t, fd, Coupled(p, true))), fd, Coupled(p, true))
  {
    ReadTwo(v, Env(fd, Msg(ChatReady, NameByFd(t, p))), Env(p, Msg(AcceptAck, NameByFd(t, fd))));
  }

  lemma AcceptTold(t: Table, fd: Fd, ch: Change, v: map<Fd, Flags>)
    requires ch.Refused? || ch.Misled?
    ensures Told(t, v, Read(v, AcceptReplies(t, fd, ch)), fd, ch)
  {
    ReadOne(v, AcceptReplies(t, fd, ch)[0]);
  }

  lemma ConnectHandleTold(t: Table, fd: Fd, name: string, v: map<Fd, Flags>)
    requires Wf(t)
    ensures Told(t, v, Read(v, HandleConnect(t, fd, name).sends), fd, ChangeOf(t, fd, Connect(name)))
  {
    var ch := ChangeOf(t, fd, Connect(name));
    if ch.Asked? {
      AskedTold(t, fd, ch.peer, Msg(ConnectionReqRx, NameByFd(t, fd)), Reply(ClientFree, name), v);
    } else {
      QuietTold(t, HandleConnect(t, fd, name).sends, fd, v, ch);
    }
  }

  lemma AcceptHandleTold(t: Table, fd: Fd, v: map<Fd, Flags>)
    requires Wf(t) && Linked(t)
    ensures Told(t, v, Read(v, HandleAccept(t, fd).sends), fd, ChangeOf(t, fd, Accept))
  {
    var ch := ChangeOf(t, fd, Accept);
    AcceptSends(t, fd);
    HandleChanges(t, fd, Accept);
    if ch.Coupled? && ch.told {
      CoupledTold(t, fd, ch.peer, v);
    } else if ch.Refused? || ch.Misled? {
      AcceptTold(t, fd, ch, v);
    } else {
      QuietTold(t, AcceptReplies(t, fd, ch), fd, v, ch);
    }
  }

  lemma TxHandleTold(t: Table, fd: Fd, line: string, v: map<Fd, Flags>)
    ensures Told(t, v, Read(v, HandleTx(t, fd, line).sends), fd, ChangeOf(t, fd, Tx(line)))
  {
    var ch := ChangeOf(t, fd, Tx(line));
    if ch.Parted? {
      ReadOne(v, Env(ch.peer, Msg(Disconnected, NameByFd(t, fd))));
    } else {
      QuietTold(t, HandleTx(t, fd, line).sends, fd, v, ch);
    }
  }

  /** Reading the replies of a handler does to the flags what its change says. */
  lemma HandleTold(t: Table, fd: Fd, r: Request, v: map<Fd, Flags>)
    requires Wf(t) && Linked(t)
    ensures Told(t, v, Read(v, Handle(t, fd, r).sends), fd, ChangeOf(t, fd, r))
  {
    match r {
      case Connect(name) => ConnectHandleTold(t, fd, name, v);
      case Accept => AcceptHandleTold(t, fd, v);
      case Tx(line) => TxHandleTold(t, fd, line, v);
      case _ => QuietTold(t, Handle(t, fd, r).sends, fd, v, ChangeOf(t, fd, r));
    }
  }

  // ---- which lines cross a message ----

  /** An accept whose two clients are linked and marked busy, and are then not
      told, because the accepting client is called NAME_NOT_DEFINED. */
  predicate MuteAccept(t: Table, fd: Fd) {
    var conn := ConnFd(t, fd);
    && NameByFd(t, fd) == UNDEF_NAME
    && StatusByFd(t, fd) == ReqPending
    && NameByFd(t, conn) != UNDEF_NAME
    && StatusByFd(t, conn) != Busy
  }

  /** The client acts on flags that unread messages, or the lack of a name,
      make wrong: it accepts without a link; it answers a request while another
      one waits unread; it accepts what is no longer asked, so that it is told
      it is in a chat, or freed while it is in one; or it ends a chat while the
      message that begins the next one waits unread. */
  predicate Crosses(a: View, mv: Move) {
    && mv.Types? && mv.r.Some?
    && var conn := ConnFd(a.t, mv.fd);
       var s := StatusByFd(a.t, mv.fd);
       var gone := NameByFd(a.t, conn) == UNDEF_NAME;
       var taken := !gone && StatusByFd(a.t, conn) == Busy;
       match mv.r.value
       case Accept =>
         || conn == INVALID_FD
         || (s == ReqPending && (MuteAccept(a.t, mv.fd) || (mv.e.req && !taken)))
         || (s == Free && !gone && !taken)
         || (s == Busy && gone)
       case Decline => s == ReqPending && mv.e.req
       case Tx(line) => line == DISCONNECT_CMD && s == Busy && mv.e.busy
       case _ => false
  }

  /** The same by the branch the handler takes. */
  predicate CrossesBy(ch: Change, s: Status, e: Flags) {
    match ch
    case Stuck => true
    case Misled => s == Free
    case Forgot => s == Busy || (s == ReqPending && e.req)
    case Coupled(_, told) => !told || e.req
    case Declined => e.req
    case Parted(_) => e.busy
    case _ => false
  }

  lemma CrossesByBranch(a: View, mv: Move)
    requires Wf(a.t) && Linked(a.t) && mv.Types? && mv.r.Some? && mv.fd in a.t.at
    ensures Crosses(a, mv) <==> CrossesBy(ChangeOf(a.t, mv.fd, mv.r.value), a.t.at[mv.fd].status, mv.e)
  {
    assert INVALID_FD !in a.t.at;
  }

  // ---- one step ----

  /** Everybody but the client that typed keeps in agreement, unless it is
      coupled without being told. */
  lemma OthersAgree(t: Table, t': Table, fd: Fd, ch: Change, f: Fd, c: Flags)
    requires Changed(t, t', fd, ch) && Guarded(t, fd, ch)
    requires f in t.at && f != fd && AgreesAt(c, t.at[f].status) && !(ch.Coupled? && !ch.told)
    ensures AgreesAt(NewFlags(t, c, f, fd, ch), t'.at[f].status)
  {
  }

  lemma TyperAgrees(t: Table, t': Table, fd: Fd, ch: Change, c: Flags, e: Flags, r: Request)
    requires Changed(t, t', fd, ch) && Guarded(t, fd, ch) && ch == ChangeOf(t, fd, r) && !ch.Stuck?
    requires Wf(t) && Linked(t) && fd in t.at && AgreesAt(c, t.at[fd].status) && Fits(c, e, Some(r))
    ensures AgreesAt(NewFlags(t, e, fd, fd, ch), t'.at[fd].status) <==> !CrossesBy(ch, t.at[fd].status, e)
  {
  }

  lemma AllAgree(a: View, t': Table, fd: Fd, e: Flags, ch: Change, v: map<Fd, Flags>)
    requires Core(a) && fd in a.v && Changed(a.t, t', fd, ch) && Guarded(a.t, fd, ch)
    requires Told(a.t, a.v[fd := e], v, fd, ch) && (ch.Coupled? && !ch.told ==> !e.busy)
    ensures Agrees(t', v) <==> AgreesAt(NewFlags(a.t, e, fd, fd, ch), t'.at[fd].status)
  {
    assert v[fd] == NewFlags(a.t, e, fd, fd, ch);
    assert v.Keys == t'.at.Keys;
    if !(ch.Coupled? && !ch.told) {
      forall f | f in t'.at && f != fd ensures AgreesAt(v[f], t'.at[f].status) {
        assert f in a.t.at.Keys;
        OthersAgree(a.t, t', fd, ch, f, a.v[f]);
      }
    }
  }

  lemma RequestAgrees(a: View, fd: Fd, e: Flags, r: Request)
    requires Core(a) && fd in a.v && Fits(a.v[fd], e, Some(r))
    ensures var o := Handle(a.t, fd, r);
            !o.leak && Agrees(o.t, Read(a.v[fd := e], o.sends)) <==> !Crosses(a, Types(fd, e, Some(r)))
    ensures Handle(a.t, fd, r).leak <==> r == Accept && ConnFd(a.t, fd) == INVALID_FD
  {
    var o, ch, v0 := Handle(a.t, fd, r), ChangeOf(a.t, fd, r), a.v[fd := e];
    var v := Read(v0, o.sends);
    CrossesByBranch(a, Types(fd, e, Some(r)));
    HandleChanges(a.t, fd, r);
    HandleTold(a.t, fd, r, v0);
    assert v.Keys == a.v.Keys;
    if !ch.Stuck? {
      TyperAgrees(a.t, o.t, fd, ch, a.v[fd], e, r);
      AllAgree(a, o.t, fd, e, ch, v);
    }
  }

  /** The freed peer resets its flags, and nobody else's change. */
  ghost predicate ToldOfClose(t: Table, v: map<Fd, Flags>, v': map<Fd, Flags>, fd: Fd) {
    && v'.Keys == v.Keys
    && (forall f :: f in v ==> v'[f] == if Frees(t, fd) && f == ConnFd(t, fd) then START else v[f])
  }

  lemma CloseTold(t: Table, fd: Fd, v: map<Fd, Flags>)
    ensures ToldOfClose(t, v, Read(v, HandleClose(t, fd).sends), fd)
  {
    if Frees(t, fd) {
      ReadOne(v, Env(ConnFd(t, fd), Msg(Termination, NameByFd(t, fd))));
    }
  }

  lemma ClosedAgree(t: Table, t': Table, fd: Fd, v: map<Fd, Flags>, v': map<Fd, Flags>)
    requires Agrees(t, v) && fd in t.at && Closed(t, t', fd) && ToldOfClose(t, v - {fd}, v', fd)
    ensures Agrees(t', v')
  {
    assert v'.Keys == t'.at.Keys;
    forall f | f in t'.at ensures AgreesAt(v'[f], t'.at[f].status) {
      assert f in t.at.Keys - {fd};
    }
  }

  lemma CloseAgrees(a: View, fd: Fd)
    requires Core(a) && fd in a.v
    ensures var o := HandleClose(a.t, fd);
            !o.leak && Agrees(o.t, Read(a.v - {fd}, o.sends))
  {
    CloseShape(a.t, fd);
    CloseTold(a.t, fd, a.v - {fd});
    ClosedAgree(a.t, HandleClose(a.t, fd).t, fd, a.v, Read(a.v - {fd}, HandleClose(a.t, fd).sends));
  }

  /** The exact condition.  From an agreeing state any move leads to an agreeing
      state if and only if it crosses no message; and the mutex is lost if and
      only if the move is an accept by a client without a link. */
  lemma CoreMove(a: View, mv: Move)
    requires Core(a) && CanMove(a, mv) && MoveFits(a, mv)
    ensures Core(Advance(a, mv)) <==> !Crosses(a, mv)
    ensures Advance(a, mv).locked <==> mv.Types? && mv.r == Some(Accept) && ConnFd(a.t, mv.fd) == INVALID_FD
  {
    match mv {
      case Joins(fd) => RegisterKeepsLinks(a.t, fd);
      case Reads(_) =>
      case Closes(fd) =>
        CloseAgrees(a, fd);
        CloseKeepsLinks(a.t, fd);
      case Types(fd, e, r) =>
        if r.Some? {
          RequestAgrees(a, fd, e, r.value);
          HandleKeepsLinks(a.t, fd, r.value);
        } else {
          assert a.v[fd := e] == a.v;
        }
    }
  }

  // ---- the composed system ----

  predicate CrossStep(s: Sys, ev: Event)
    requires Enabled(s, ev)
  {
    Crosses(Abs(s), MoveOf(s, ev))
  }

  /** View agreement, step by step and on any inbox: from an agreeing state a
      step leads to an agreeing state if and only if no typed line crosses an
      unread message. */
  lemma CoreStep(s: Sys, ev: Event)
    requires Core(Abs(s)) && Enabled(s, ev)
    ensures Core(Abs(Apply(s, ev))) <==> !CrossStep(s, ev)
  {
    StepFits(s, ev);
    StepRefines(s, ev);
    CoreMove(Abs(s), MoveOf(s, ev));
  }

  /** What a client sends when it has read everything: in a chat only lines to
      its peer, with a request only an answer, and otherwise only commands. */
  lemma SendsByStatus(s: Sys, fd: Fd, raw: string)
    requires Core(Abs(s)) && Enabled(s, Type(fd, raw)) && Drained(s, Type(fd, raw))
    ensures fd in s.t.at
    ensures var r := Typed(s.cl[fd].flags, raw).1;
            && (r == Some(Accept) || r == Some(Decline) ==> s.t.at[fd].status == ReqPending)
            && (r.Some? && r.value.Tx? ==> s.t.at[fd].status == Busy)
            && (r.Some? && (r.value.Connect? || r.value.SetName? || r.value.GetList?) ==>
                  s.t.at[fd].status == Free)
  {
    assert Abs(s).v[fd] == s.cl[fd].flags;
  }

  /** On a drained inbox only the accept by a client called NAME_NOT_DEFINED
      is left. */
  lemma DrainedCrosses(s: Sys, ev: Event)
    requires Core(Abs(s)) && Enabled(s, ev) && Drained(s, ev)
    ensures CrossStep(s, ev) <==>
            ev.Type? && Typed(s.cl[ev.fd].flags, ev.raw).1 == Some(Accept) && MuteAccept(s.t, ev.fd)
  {
    if ev.Type? {
      SendsByStatus(s, ev.fd, ev.raw);
    }
  }
}

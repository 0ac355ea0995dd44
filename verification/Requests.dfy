/** A client is never asked twice at a time, and whom its answer reaches. */
module Requests {
  import opened Common
  import opened Table
  import opened Client
  import opened Handlers
  import opened Changes
  import opened Composed
  import opened ViewAgreement
  import opened Reachable
  import opened Sessions

  /** A connection request is queued to `y`. */
  ghost predicate Asks(s: Sys, ev: Event, y: Fd)
    requires Enabled(s, ev)
  {
    y in s.cl && exists m :: Env(y, m) in Sends(s, ev) && m.kind == ConnectionReqRx
  }

  /** `y` answers, leaves, or is told that the chat began or is off. */
  ghost predicate Settles(s: Sys, ev: Event, y: Fd)
    requires Enabled(s, ev)
  {
    || ev == Close(y)
    || (ev.Type? && ev.fd == y &&
        (Typed(s.cl[y].flags, ev.raw).1 == Some(Accept) || Typed(s.cl[y].flags, ev.raw).1 == Some(Decline)))
    || exists m :: Env(y, m) in Sends(s, ev) &&
         (m.kind == AcceptAck || m.kind == Termination || m.kind == Disconnected)
  }

  predicate IsPending(t: Table, y: Fd) {
    StatusByFd(t, y) == ReqPending
  }

  /** A client linked to `y` accepts, and nobody is told. */
  predicate Mutes(s: Sys, ev: Event, y: Fd) {
    && ev.Type? && ev.fd in s.cl && ConnFd(s.t, ev.fd) == y
    && Typed(s.cl[ev.fd].flags, ev.raw).1 == Some(Accept) && MuteAccept(s.t, ev.fd)
  }

  /** `y` itself ends a chat. */
  predicate HangsUp(s: Sys, ev: Event, y: Fd) {
    ev.Type? && ev.fd == y && y in s.cl && Typed(s.cl[y].flags, ev.raw).1 == Some(Tx(DISCONNECT_CMD))
  }

  // ---- asking ----

  lemma OnlyConnectAsks(t: Table, fd: Fd, r: Request, y: Fd, m: Msg)
    requires Wf(t) && Linked(t) && Env(y, m) in Handle(t, fd, r).sends && m.kind == ConnectionReqRx
    ensures ChangeOf(t, fd, r) == Asked(y)
  {
    if r.Accept? {
      AcceptSends(t, fd);
    }
  }

  /** Only a connect request asks, and it asks a free client, which is then
      pending and linked to whoever asked. */
  lemma AskingMarks(s: Sys, ev: Event, y: Fd)
    requires Sound(Abs(s)) && Enabled(s, ev)
    ensures Asks(s, ev, y) ==>
              && StatusByFd(s.t, y) == Free && IsPending(Apply(s, ev).t, y)
              && ConnFd(Apply(s, ev).t, y) == ev.fd && ev.fd in Apply(s, ev).t.at
  {
    if Asks(s, ev, y) {
      var m :| Env(y, m) in Sends(s, ev) && m.kind == ConnectionReqRx;
      if ev.Type? {
        var r := Typed(s.cl[ev.fd].flags, ev.raw).1.value;
        OnlyConnectAsks(s.t, ev.fd, r, y, m);
        HandleChanges(s.t, ev.fd, r);
        AskedIsPending(s.t, Handle(s.t, ev.fd, r).t, ev.fd, y);
        assert ev.fd in Abs(s).v && ev.fd in Handle(s.t, ev.fd, r).t.at.Keys;
      }
    }
  }

  lemma AskedIsPending(t: Table, t': Table, fd: Fd, y: Fd)
    requires Changed(t, t', fd, Asked(y)) && Guarded(t, fd, Asked(y))
    ensures StatusByFd(t, y) == Free && IsPending(t', y) && ConnFd(t', y) == fd
  {
  }

  // ---- settling ----

  /** Which messages of a handler concern the request of `y`. */
  ghost predicate SettlesBy(t: Table, fd: Fd, r: Request, y: Fd) {
    || (y == fd && (r == Accept || r == Decline))
    || exists m :: Env(y, m) in Handle(t, fd, r).sends &&
         (m.kind == AcceptAck || m.kind == Termination || m.kind == Disconnected)
  }

  /** The same by the branch the handler takes. */
  predicate SettledBy(ch: Change, fd: Fd, y: Fd) {
    match ch
    case Coupled(p, told) => y == fd || (told && y == p)
    case Parted(p) => y == p
    case Declined => y == fd
    case Refused => y == fd
    case Forgot => y == fd
    case _ => false
  }

  lemma AcceptSettles(t: Table, fd: Fd, y: Fd)
    requires Wf(t) && Linked(t) && y in t.at && t.at[y].status == ReqPending
    ensures SettlesBy(t, fd, Accept, y) <==> SettledBy(ChangeOf(t, fd, Accept), fd, y)
  {
    AcceptSends(t, fd);
    AcceptChanges(t, fd);
    RepliesSettle(t, fd, ChangeOf(t, fd, Accept), y);
  }

  lemma RepliesSettle(t: Table, fd: Fd, ch: Change, y: Fd)
    requires Guarded(t, fd, ch) && IsPending(t, y)
    requires ch.Stuck? || ch.Forgot? || ch.Refused? || ch.Misled? || ch.Coupled?
    ensures (exists m :: Env(y, m) in AcceptReplies(t, fd, ch) &&
               (m.kind == AcceptAck || m.kind == Termination || m.kind == Disconnected))
            <==> ch.Coupled? && ch.told && y == ch.peer
  {
    if ch.Coupled? && ch.told {
      assert AcceptReplies(t, fd, ch)[1] == Env(ch.peer, Msg(AcceptAck, NameByFd(t, fd)));
    }
  }

  lemma TxSettles(t: Table, fd: Fd, line: string, y: Fd)
    ensures SettlesBy(t, fd, Tx(line), y) <==> SettledBy(ChangeOf(t, fd, Tx(line)), fd, y)
  {
    var ch := ChangeOf(t, fd, Tx(line));
    if ch.Parted? {
      assert HandleTx(t, fd, line).sends[0] == Env(ch.peer, Msg(Disconnected, NameByFd(t, fd)));
    }
  }

  lemma SettledByBranch(t: Table, fd: Fd, r: Request, y: Fd)
    requires Wf(t) && Linked(t) && y in t.at && t.at[y].status == ReqPending
    ensures SettlesBy(t, fd, r, y) <==> SettledBy(ChangeOf(t, fd, r), fd, y)
  {
    match r {
      case Accept => AcceptSettles(t, fd, y);
      case Tx(line) => TxSettles(t, fd, line, y);
      case Decline => assert INVALID_FD !in t.at;
      case _ =>
    }
  }

  /** Which changes take a pending client out of that state, and which make one
      free that is not. */
  lemma ChangeUnpends(t: Table, t': Table, fd: Fd, ch: Change, y: Fd)
    requires Changed(t, t', fd, ch) && Guarded(t, fd, ch) && y in t.at
    ensures IsPending(t, y) ==>
              (IsPending(t', y) <==> !SettledBy(ch, fd, y) && !(ch.Coupled? && !ch.told && y == ch.peer))
    ensures StatusByFd(t, y) != Free && StatusByFd(t', y) == Free ==>
              SettledBy(ch, fd, y) || (ch.Parted? && y == fd)
  {
    assert y in t'.at.Keys;
  }

  lemma RequestSettles(t: Table, fd: Fd, r: Request, y: Fd)
    requires Wf(t) && Linked(t) && IsPending(t, y)
    ensures IsPending(Handle(t, fd, r).t, y) <==>
            !SettlesBy(t, fd, r, y) && !(r == Accept && ConnFd(t, fd) == y && MuteAccept(t, fd))
  {
    var ch := ChangeOf(t, fd, r);
    HandleChanges(t, fd, r);
    SettledByBranch(t, fd, r, y);
    ChangeUnpends(t, Handle(t, fd, r).t, fd, ch, y);
  }

  lemma CloseSettles(t: Table, fd: Fd, y: Fd)
    requires Wf(t) && fd in t.at && StatusByFd(t, y) != Free && y in t.at
    ensures var told := fd != y && exists m :: Env(y, m) in HandleClose(t, fd).sends && m.kind == Termination;
            && (forall e :: e in HandleClose(t, fd).sends ==> e.msg.kind == Termination)
            && (IsPending(t, y) ==> (IsPending(HandleClose(t, fd).t, y) <==> fd != y && !told))
            && (StatusByFd(HandleClose(t, fd).t, y) == Free ==> told)
  {
    CloseShape(t, fd);
    if y == t.at[fd].toFd {
      assert HandleClose(t, fd).sends[0] == Env(y, Msg(Termination, t.at[fd].name));
    }
    assert y in HandleClose(t, fd).t.at <==> y in t.at.Keys - {fd};
  }

  /** A pending client stays pending exactly until its request is settled, or a
      client linked to it accepts and nobody is told. */
  lemma PendingUntilSettled(s: Sys, ev: Event, y: Fd)
    requires Sound(Abs(s)) && Enabled(s, ev) && IsPending(s.t, y)
    ensures IsPending(Apply(s, ev).t, y) <==> !Settles(s, ev, y) && !Mutes(s, ev, y)
  {
    assert Abs(s).v.Keys == s.cl.Keys;
    match ev {
      case Join(_) =>
      case Deliver(_) =>
      case Close(fd) => CloseSettles(s.t, fd, y);
      case Type(fd, raw) => TypingSettles(s, fd, raw, y);
    }
  }

  lemma TypingSettles(s: Sys, fd: Fd, raw: string, y: Fd)
    requires Wf(s.t) && Linked(s.t) && Enabled(s, Type(fd, raw)) && IsPending(s.t, y)
    ensures IsPending(Apply(s, Type(fd, raw)).t, y) <==> !Settles(s, Type(fd, raw), y) && !Mutes(s, Type(fd, raw), y)
  {
    var r := Typed(s.cl[fd].flags, raw).1;
    if r.Some? {
      RequestSettles(s.t, fd, r.value, y);
    }
  }

  /** Who is not free becomes so only when its request is settled, or by itself
      ending a chat. */
  lemma FreedBySettling(s: Sys, ev: Event, y: Fd)
    requires Sound(Abs(s)) && Enabled(s, ev) && y in s.t.at && s.t.at[y].status != Free
    requires !Settles(s, ev, y) && !HangsUp(s, ev, y)
    ensures y in Apply(s, ev).t.at && Apply(s, ev).t.at[y].status != Free
  {
    assert Abs(s).v.Keys == s.cl.Keys;
    match ev {
      case Join(_) =>
      case Deliver(_) =>
      case Close(fd) =>
        CloseShape(s.t, fd);
        CloseSettles(s.t, fd, y);
      case Type(fd, raw) =>
        var r := Typed(s.cl[fd].flags, raw).1;
        if r.Some? {
          RequestFrees(s.t, fd, r.value, y);
        }
    }
  }

  lemma RequestFrees(t: Table, fd: Fd, r: Request, y: Fd)
    requires Wf(t) && Linked(t) && y in t.at && t.at[y].status != Free
    ensures y in Handle(t, fd, r).t.at
    ensures Handle(t, fd, r).t.at[y].status == Free ==> SettlesBy(t, fd, r, y) || (y == fd && r == Tx(DISCONNECT_CMD))
  {
    var ch := ChangeOf(t, fd, r);
    HandleChanges(t, fd, r);
    ChangeUnpends(t, Handle(t, fd, r).t, fd, ch, y);
    assert y in Handle(t, fd, r).t.at.Keys;
    if ch.Parted? && y == ch.peer {
      assert Handle(t, fd, r).sends[0] == Env(ch.peer, Msg(Disconnected, NameByFd(t, fd)));
    }
    if ch.Coupled? {
      assert Handle(t, fd, r).t.at[y] == NewRec(t.at[y], y, fd, ch);
    }
  }

  /** Some step of the run settles the request of `y`. */
  ghost predicate SettledIn(s: Sys, evs: seq<Event>, y: Fd)
    requires IsRun(s, evs)
    decreases |evs|
  {
    evs != [] && (Settles(s, evs[0], y) || SettledIn(Apply(s, evs[0]), evs[1..], y))
  }

  /** In some step of the run a client linked to `y` accepts unheard. */
  predicate MutedIn(s: Sys, evs: seq<Event>, y: Fd)
    requires IsRun(s, evs)
    decreases |evs|
  {
    evs != [] && (Mutes(s, evs[0], y) || MutedIn(Apply(s, evs[0]), evs[1..], y))
  }

  /** In some step of the run `y` itself ends a chat. */
  predicate HangsUpIn(s: Sys, evs: seq<Event>, y: Fd)
    requires IsRun(s, evs)
    decreases |evs|
  {
    evs != [] && (HangsUp(s, evs[0], y) || HangsUpIn(Apply(s, evs[0]), evs[1..], y))
  }

  /** In some step of the run `y` itself asks somebody it is not linked to. */
  predicate WandersIn(s: Sys, evs: seq<Event>, y: Fd)
    requires IsRun(s, evs)
    decreases |evs|
  {
    evs != [] && (Wanders(s, evs[0], y) || WandersIn(Apply(s, evs[0]), evs[1..], y))
  }

  /** Whom `y` asked last in the run, if not the one it was linked to before. */
  function LinkAlong(s: Sys, evs: seq<Event>, y: Fd, link: Fd): Fd
    requires IsRun(s, evs)
    decreases |evs|
  {
    if evs == [] then link else LinkAlong(Apply(s, evs[0]), evs[1..], y, LinkNext(s, evs[0], y, link))
  }

  lemma {:induction false} NoWandering(s: Sys, evs: seq<Event>, y: Fd, link: Fd)
    requires IsRun(s, evs) && !WandersIn(s, evs, y)
    ensures LinkAlong(s, evs, y, link) == link
    decreases |evs|
  {
    if evs != [] {
      NoWandering(Apply(s, evs[0]), evs[1..], y, link);
    }
  }

  lemma {:induction false} PendingAlong(s: Sys, evs: seq<Event>, y: Fd)
    requires Sound(Abs(s)) && IsPending(s.t, y)
    requires IsRun(s, evs) && !SettledIn(s, evs, y) && !MutedIn(s, evs, y)
    ensures IsPending(After(s, evs).t, y)
    ensures ConnFd(After(s, evs).t, y) == LinkAlong(s, evs, y, ConnFd(s.t, y))
    decreases |evs|
  {
    if evs != [] {
      SoundStep(s, evs[0]);
      PendingUntilSettled(s, evs[0], y);
      LinkFrozen(s, evs[0], y);
      PendingAlong(Apply(s, evs[0]), evs[1..], y);
    }
  }

  lemma {:induction false} NotFreeAlong(s: Sys, evs: seq<Event>, y: Fd)
    requires Sound(Abs(s)) && y in s.t.at && s.t.at[y].status != Free
    requires IsRun(s, evs) && !SettledIn(s, evs, y) && !HangsUpIn(s, evs, y)
    ensures y in After(s, evs).t.at && After(s, evs).t.at[y].status != Free
    decreases |evs|
  {
    if evs != [] {
      SoundStep(s, evs[0]);
      FreedBySettling(s, evs[0], y);
      NotFreeAlong(Apply(s, evs[0]), evs[1..], y);
    }
  }

  /** No accept goes unheard if nobody is called NAME_NOT_DEFINED. */
  lemma {:induction false} NamedIsHeard(s: Sys, evs: seq<Event>, y: Fd)
    requires Sound(Abs(s)) && NamesOk(s.t) && IsRun(s, evs) && NamedRun(s, evs)
    ensures !MutedIn(s, evs, y)
    decreases |evs|
  {
    if evs != [] {
      SoundStep(s, evs[0]);
      NamesOkStep(s, evs[0]);
      assert evs[0].Type? ==> evs[0].fd in Abs(s).v && evs[0].fd in s.t.at;
      NamedIsHeard(Apply(s, evs[0]), evs[1..], y);
    }
  }

  // ---- two requests ----

  /** From `s`, the step `first` queues a request to `y`, and then the run
      `between` happens. */
  ghost predicate AskedThen(s: Sys, first: Event, between: seq<Event>, y: Fd) {
    Enabled(s, first) && Asks(s, first, y) && IsRun(Apply(s, first), between)
  }

  lemma AskedStaysAsked(s: Sys, first: Event, between: seq<Event>, y: Fd)
    requires Sound(Abs(s))
    ensures AskedThen(s, first, between, y) ==>
              var s1 := Apply(s, first);
              var s' := After(s1, between);
              && Sound(Abs(s'))
              && (!SettledIn(s1, between, y) && !MutedIn(s1, between, y) ==>
                    IsPending(s'.t, y) && ConnFd(s'.t, y) == LinkAlong(s1, between, y, first.fd))
              && (!SettledIn(s1, between, y) && !HangsUpIn(s1, between, y) ==> StatusByFd(s'.t, y) != Free)
  {
    if AskedThen(s, first, between, y) {
      var s1 := Apply(s, first);
      AskingMarks(s, first, y);
      SoundStep(s, first);
      SoundAfter(s1, between);
      if !SettledIn(s1, between, y) {
        if !MutedIn(s1, between, y) {
          PendingAlong(s1, between, y);
        }
        if !HangsUpIn(s1, between, y) {
          NotFreeAlong(s1, between, y);
        }
      }
    }
  }

  /** No overlapping requests.  In any state a run can reach, and whatever the
      users type and call themselves, if a step queues a request to `y`, and
      after some more steps another request is queued to `y`, then some step in
      between settled the first one; or a client linked to `y` accepted unheard
      and `y` itself ended the chat it was never told of. */
  lemma RequestsDoNotOverlap(s: Sys, first: Event, between: seq<Event>, second: Event, y: Fd)
    requires Sound(Abs(s))
    ensures AskedThen(s, first, between, y)
            && Enabled(After(Apply(s, first), between), second)
            && Asks(After(Apply(s, first), between), second, y)
            ==> SettledIn(Apply(s, first), between, y)
                || (MutedIn(Apply(s, first), between, y) && HangsUpIn(Apply(s, first), between, y))
  {
    if AskedThen(s, first, between, y) {
      AskedStaysAsked(s, first, between, y);
      var s' := After(Apply(s, first), between);
      if Enabled(s', second) && Asks(s', second, y) {
        AskingMarks(s', second, y);
      }
    }
  }

  // ---- whom the answer reaches ----

  /** The answers of a pending client: its "no", and when its "yes" succeeds
      and what follows then. */
  lemma AnswerShape(t: Table, y: Fd)
    requires Wf(t) && Linked(t) && IsPending(t, y)
    ensures Answers(t, y, ConnFd(t, y))
  {
    AcceptSends(t, y);
    HandleChanges(t, y, Accept);
  }

  predicate Answers(t: Table, y: Fd, x: Fd) {
    var o := HandleAccept(t, y);
    && HandleDecline(t, y).sends == [Env(x, Msg(DeclineAck, NameByFd(t, y)))]
    && (StatusByFd(o.t, y) == Busy <==> NameByFd(t, x) != UNDEF_NAME && StatusByFd(t, x) != Busy)
    && (StatusByFd(o.t, y) == Busy ==>
          && ConnFd(o.t, y) == x && ConnFd(o.t, x) == y && StatusByFd(o.t, x) == Busy
          && o.sends == if NameByFd(t, y) == UNDEF_NAME then []
                        else [Env(y, Msg(ChatReady, NameByFd(t, x))), Env(x, Msg(AcceptAck, NameByFd(t, y)))])
  }

  lemma {:induction false} StillThere(s: Sys, evs: seq<Event>, x: Fd)
    requires Sound(Abs(s)) && IsRun(s, evs) && x in s.t.at && Stays(evs, x)
    ensures x in After(s, evs).t.at
    decreases |evs|
  {
    if evs != [] {
      SoundStep(s, evs[0]);
      if evs[0].Type? && Typed(s.cl[evs[0].fd].flags, evs[0].raw).1.Some? {
        HandleKeepsLinks(s.t, evs[0].fd, Typed(s.cl[evs[0].fd].flags, evs[0].raw).1.value);
      } else if evs[0].Close? {
        assert Abs(s).v.Keys == s.cl.Keys;
        CloseShape(s.t, evs[0].fd);
      }
      StillThere(Apply(s, evs[0]), evs[1..], x);
    }
  }

  /** Whom the answer of `y` reaches, after `first` asked it and as long as
      nothing settles that and no accept goes unheard: `link`, which is the
      asker's descriptor until `y` itself asks somebody else, and then the one
      `y` asked last.  Its "no" is sent to `link` and nobody else, and its "yes",
      which succeeds if `link` is there and not busy, makes exactly these two a
      pair and tells both.  The asker's descriptor is the asker's as long as the
      asker does not close. */
  lemma AnswersGoToTheAsker(s: Sys, first: Event, between: seq<Event>, y: Fd)
    requires Sound(Abs(s))
    ensures AskedThen(s, first, between, y)
            && !SettledIn(Apply(s, first), between, y) && !MutedIn(Apply(s, first), between, y) ==>
              var link := LinkAlong(Apply(s, first), between, y, first.fd);
              var t := After(Apply(s, first), between).t;
              && ConnFd(t, y) == link && Answers(t, y, link)
              && (!WandersIn(Apply(s, first), between, y) ==> link == first.fd)
              && (Stays(between, first.fd) ==> first.fd in t.at)
  {
    var asked := AskedThen(s, first, between, y);
    if asked && !SettledIn(Apply(s, first), between, y) && !MutedIn(Apply(s, first), between, y) {
      AskedStaysAsked(s, first, between, y);
      AnswerShape(After(Apply(s, first), between).t, y);
      if !WandersIn(Apply(s, first), between, y) {
        NoWandering(Apply(s, first), between, y, first.fd);
      }
      if Stays(between, first.fd) {
        SoundStep(s, first);
        AskingMarks(s, first, y);
        StillThere(Apply(s, first), between, first.fd);
      }
    }
  }

  /** When the asker leaves without a word.  The close of `x` leaves behind a
      pending client still linked to the descriptor of `x` if and only if that
      client was pending and linked to `x` while `x` was linked elsewhere,
      because it asked somebody else since.  Whoever gets the descriptor next
      gets the answer. */
  lemma CloseStrands(t: Table, x: Fd, y: Fd)
    requires Wf(t) && Linked(t) && x in t.at && x != y
    ensures IsPending(HandleClose(t, x).t, y) && ConnFd(HandleClose(t, x).t, y) == x <==>
            IsPending(t, y) && ConnFd(t, y) == x && ConnFd(t, x) != y
  {
    CloseShape(t, x);
  }
}

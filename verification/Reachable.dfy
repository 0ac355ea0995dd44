/** What holds in every state a composed run can reach, and exactly which runs
    keep the clients in agreement with the server. */
module Reachable {
  import opened Common
  import opened Names
  import opened Table
  import opened Commands
  import opened Client
  import opened Handlers
  import opened Changes
  import opened Composed
  import opened ViewAgreement

  // ---- what no step can break ----

  /** A client is in a chat exactly when it knows its peer's name. */
  ghost predicate PeerKnown(v: map<Fd, Flags>) {
    forall f :: f in v ==> (v[f].busy <==> v[f].peer != UNDEF_NAME)
  }

  ghost predicate PrintableNames(t: Table) {
    forall f :: f in t.at ==> Printable(t.at[f].name)
  }

  ghost predicate Sound(a: View) {
    && Wf(a.t) && Linked(a.t) && PrintableNames(a.t)
    && a.v.Keys == a.t.at.Keys && PeerKnown(a.v)
  }

  lemma ClipWord(name: string)
    requires IsWord(name)
    ensures Printable(Clip(name, MAX_CLIENT_NAME_LEN - 1))
    ensures Clip(name, MAX_CLIENT_NAME_LEN - 1) == UNDEF_NAME ==> name == UNDEF_NAME
  {
    var n := Clip(name, MAX_CLIENT_NAME_LEN - 1);
    assert forall c :: c in n ==> c in name;
    assert |UNDEF_NAME| == 16;
  }

  lemma ChangeKeepsPrintable(t: Table, t': Table, fd: Fd, ch: Change)
    requires PrintableNames(t) && Changed(t, t', fd, ch) && (ch.Renamed? ==> Printable(ch.name))
    ensures PrintableNames(t')
  {
    if !ch.Renamed? {
      ChangeKeepsNames(t, t', fd, ch);
    }
  }

  /** Every message that names a new chat partner names a real one. */
  lemma ToldKeepsPeers(t: Table, v: map<Fd, Flags>, v': map<Fd, Flags>, fd: Fd, ch: Change)
    requires PeerKnown(v) && Told(t, v, v', fd, ch) && Guarded(t, fd, ch)
    ensures PeerKnown(v')
  {
  }

  lemma ChangeKeepsSound(a: View, fd: Fd, e: Flags, ch: Change, b: View)
    requires Sound(a) && fd in a.v && PeerKnown(a.v[fd := e])
    requires Guarded(a.t, fd, ch) && (ch.Renamed? ==> Printable(ch.name))
    requires Changed(a.t, b.t, fd, ch) && Told(a.t, a.v[fd := e], b.v, fd, ch)
    ensures Sound(b)
  {
    ChangeKeepsLinks(a.t, b.t, fd, ch);
    ChangeKeepsPrintable(a.t, b.t, fd, ch);
    ToldKeepsPeers(a.t, a.v[fd := e], b.v, fd, ch);
  }

  lemma FitsKeepsPeers(v: map<Fd, Flags>, fd: Fd, e: Flags, r: Option<Request>)
    requires PeerKnown(v) && fd in v && Fits(v[fd], e, r)
    ensures PeerKnown(v[fd := e])
  {
  }

  lemma RenamesToPrintable(t: Table, fd: Fd, r: Request)
    requires r.SetName? ==> IsWord(r.name)
    ensures ChangeOf(t, fd, r).Renamed? ==> Printable(ChangeOf(t, fd, r).name)
  {
    if r.SetName? {
      ClipWord(r.name);
    }
  }

  lemma RequestKeepsSound(a: View, fd: Fd, e: Flags, r: Request)
    requires Sound(a) && fd in a.v && Fits(a.v[fd], e, Some(r))
    requires r.SetName? ==> IsWord(r.name)
    ensures var o := Handle(a.t, fd, r);
            Sound(View(o.t, Read(a.v[fd := e], o.sends), a.locked || o.leak))
  {
    var o := Handle(a.t, fd, r);
    HandleChanges(a.t, fd, r);
    HandleTold(a.t, fd, r, a.v[fd := e]);
    RenamesToPrintable(a.t, fd, r);
    FitsKeepsPeers(a.v, fd, e, Some(r));
    ChangeKeepsSound(a, fd, e, ChangeOf(a.t, fd, r), View(o.t, Read(a.v[fd := e], o.sends), a.locked || o.leak));
  }

  lemma CloseKeepsSound(a: View, fd: Fd)
    requires Sound(a) && fd in a.v
    ensures var o := HandleClose(a.t, fd);
            Sound(View(o.t, Read(a.v - {fd}, o.sends), o.leak))
  {
    CloseShape(a.t, fd);
    CloseKeepsLinks(a.t, fd);
    CloseTold(a.t, fd, a.v - {fd});
  }

  lemma SoundMove(a: View, mv: Move)
    requires Sound(a) && CanMove(a, mv) && MoveFits(a, mv)
    requires mv.Types? && mv.r.Some? && mv.r.value.SetName? ==> IsWord(mv.r.value.name)
    ensures Sound(Advance(a, mv))
  {
    match mv {
      case Joins(fd) =>
        RegisterKeepsLinks(a.t, fd);
        TempNameFits(fd);
      case Reads(_) =>
      case Closes(fd) => CloseKeepsSound(a, fd);
      case Types(fd, e, r) =>
        if r.Some? {
          RequestKeepsSound(a, fd, e, r.value);
        }
    }
  }

  /** Whoever types whatever and whenever: the registry stays well formed and
      linked, with a printable name for everybody, and a client is in a chat
      exactly when it knows the name of its peer. */
  lemma SoundStep(s: Sys, ev: Event)
    requires Sound(Abs(s)) && Enabled(s, ev)
    ensures Sound(Abs(Apply(s, ev)))
  {
    StepRefines(s, ev);
    StepFits(s, ev);
    if ev.Type? {
      TypedNameIsWord(ev.raw);
    }
    SoundMove(Abs(s), MoveOf(s, ev));
  }

  lemma InitSound()
    ensures Sound(Abs(INIT)) && Core(Abs(INIT)) && NamesOk(INIT.t)
  {
  }

  lemma {:induction false} SoundAfter(s: Sys, evs: seq<Event>)
    requires Sound(Abs(s)) && IsRun(s, evs)
    ensures Sound(Abs(After(s, evs)))
    decreases |evs|
  {
    if evs != [] {
      SoundStep(s, evs[0]);
      SoundAfter(Apply(s, evs[0]), evs[1..]);
    }
  }

  // ---- the name NAME_NOT_DEFINED ----

  /** Nobody is called what the server uses for "no such client". */
  ghost predicate NamesOk(t: Table) {
    forall f :: f in t.at ==> t.at[f].name != UNDEF_NAME
  }

  predicate TakesUndef(mv: Move) {
    mv.Types? && mv.r == Some(SetName(UNDEF_NAME))
  }

  /** A run in which nobody asks to be called that. */
  predicate NamedRun(s: Sys, evs: seq<Event>)
    requires IsRun(s, evs)
    decreases |evs|
  {
    evs == [] || (!TakesUndef(MoveOf(s, evs[0])) && NamedRun(Apply(s, evs[0]), evs[1..]))
  }

  lemma ChangeKeepsNamesOk(t: Table, t': Table, fd: Fd, ch: Change)
    requires NamesOk(t) && Changed(t, t', fd, ch) && (ch.Renamed? ==> ch.name != UNDEF_NAME)
    ensures NamesOk(t')
  {
    if !ch.Renamed? {
      ChangeKeepsNames(t, t', fd, ch);
    }
  }

  lemma RequestKeepsNamesOk(t: Table, fd: Fd, r: Request)
    requires Wf(t) && Linked(t) && NamesOk(t)
    requires r.SetName? ==> IsWord(r.name) && r.name != UNDEF_NAME
    ensures NamesOk(Handle(t, fd, r).t)
  {
    if r.SetName? {
      ClipWord(r.name);
    }
    HandleChanges(t, fd, r);
    ChangeKeepsNamesOk(t, Handle(t, fd, r).t, fd, ChangeOf(t, fd, r));
  }

  lemma NamesOkStep(s: Sys, ev: Event)
    requires Sound(Abs(s)) && Enabled(s, ev) && NamesOk(s.t) && !TakesUndef(MoveOf(s, ev))
    ensures NamesOk(Apply(s, ev).t)
  {
    match ev {
      case Join(fd) => TempNameFits(fd);
      case Deliver(_) =>
      case Close(fd) => CloseShape(s.t, fd);
      case Type(fd, raw) =>
        var r := Typed(s.cl[fd].flags, raw).1;
        TypedNameIsWord(raw);
        if r.Some? {
          RequestKeepsNamesOk(s.t, fd, r.value);
        }
    }
  }

  lemma {:induction false} NamesOkAfter(s: Sys, evs: seq<Event>)
    requires Sound(Abs(s)) && NamesOk(s.t) && IsRun(s, evs) && NamedRun(s, evs)
    ensures NamesOk(After(s, evs).t)
    decreases |evs|
  {
    if evs != [] {
      NamesOkStep(s, evs[0]);
      SoundStep(s, evs[0]);
      NamesOkAfter(Apply(s, evs[0]), evs[1..]);
    }
  }

  // ---- view agreement over runs ----

  /** A run in which no typed line crosses an unread message. */
  predicate TunedRun(s: Sys, evs: seq<Event>)
    requires IsRun(s, evs)
    decreases |evs|
  {
    evs == [] || (!CrossStep(s, evs[0]) && TunedRun(Apply(s, evs[0]), evs[1..]))
  }

  /** Every state of the run is an agreeing one, with the mutex free. */
  ghost predicate AgreesThroughout(s: Sys, evs: seq<Event>)
    requires IsRun(s, evs)
    decreases |evs|
  {
    Core(Abs(s)) && (evs == [] || AgreesThroughout(Apply(s, evs[0]), evs[1..]))
  }

  lemma {:induction false} AgreeAlong(s: Sys, evs: seq<Event>)
    requires Core(Abs(s)) && IsRun(s, evs)
    ensures AgreesThroughout(s, evs) <==> TunedRun(s, evs)
    ensures TunedRun(s, evs) ==> Core(Abs(After(s, evs)))
    decreases |evs|
  {
    if evs != [] {
      CoreStep(s, evs[0]);
      if !CrossStep(s, evs[0]) {
        AgreeAlong(Apply(s, evs[0]), evs[1..]);
      }
    }
  }

  /** A run in which the user types only when everything has been read. */
  predicate PromptRun(s: Sys, evs: seq<Event>)
    requires IsRun(s, evs)
    decreases |evs|
  {
    evs == [] || (Drained(s, evs[0]) && PromptRun(Apply(s, evs[0]), evs[1..]))
  }

  lemma {:induction false} PromptIsTuned(s: Sys, evs: seq<Event>)
    requires Core(Abs(s)) && Sound(Abs(s)) && NamesOk(s.t)
    requires IsRun(s, evs) && PromptRun(s, evs) && NamedRun(s, evs)
    ensures TunedRun(s, evs)
    decreases |evs|
  {
    if evs != [] {
      DrainedCrosses(s, evs[0]);
      CoreStep(s, evs[0]);
      SoundStep(s, evs[0]);
      NamesOkStep(s, evs[0]);
      PromptIsTuned(Apply(s, evs[0]), evs[1..]);
    }
  }

  /** View agreement.  A run keeps clients and server in agreement in all its
      states, with the mutex free, if and only if no typed line crosses an
      unread message; and then, whatever links are stale and whatever
      descriptors were reused, replaying its inbox from its current flags
      leaves a client in a chat exactly when the server has it BUSY, with a
      request exactly when the server has it REQ_PENDING, and with a known peer
      exactly when it is in a chat. */
  lemma ViewsAgreeInEveryRun(evs: seq<Event>, f: Fd)
    requires IsRun(INIT, evs)
    ensures AgreesThroughout(INIT, evs) <==> TunedRun(INIT, evs)
    ensures TunedRun(INIT, evs) ==>
              var s := After(INIT, evs);
              && !s.locked && s.cl.Keys == s.t.at.Keys
              && (f in s.cl ==>
                    var seen := Replay(s.cl[f].flags, s.cl[f].inbox);
                    && (seen.busy <==> s.t.at[f].status == Busy)
                    && (seen.req <==> s.t.at[f].status == ReqPending)
                    && (seen.peer != UNDEF_NAME <==> s.t.at[f].status == Busy))
  {
    InitSound();
    AgreeAlong(INIT, evs);
    SoundAfter(INIT, evs);
    var s := After(INIT, evs);
    assert Abs(s).v.Keys == s.cl.Keys;
    if f in s.cl {
      assert Abs(s).v[f] == Replay(s.cl[f].flags, s.cl[f].inbox);
    }
  }

  /** As long as users type on drained inboxes, and nobody is called
      NAME_NOT_DEFINED, nothing crosses. */
  lemma PromptRunsAreTuned(evs: seq<Event>)
    requires IsRun(INIT, evs) && PromptRun(INIT, evs) && NamedRun(INIT, evs)
    ensures TunedRun(INIT, evs)
  {
    InitSound();
    PromptIsTuned(INIT, evs);
  }

  // ---- the mutex ----

  /** An accept by a client without a link. */
  predicate LosesLock(s: Sys, ev: Event) {
    && ev.Type? && ev.fd in s.cl
    && Typed(s.cl[ev.fd].flags, ev.raw).1 == Some(Accept)
    && ConnFd(s.t, ev.fd) == INVALID_FD
  }

  predicate LosesLockIn(s: Sys, evs: seq<Event>)
    requires IsRun(s, evs)
    decreases |evs|
  {
    evs != [] && (LosesLock(s, evs[0]) || LosesLockIn(Apply(s, evs[0]), evs[1..]))
  }

  lemma LockStep(s: Sys, ev: Event)
    requires Sound(Abs(s)) && Enabled(s, ev)
    ensures Apply(s, ev).locked <==> s.locked || LosesLock(s, ev)
  {
    if ev.Type? {
      var r := Typed(s.cl[ev.fd].flags, ev.raw).1;
      if r.Some? {
        HandleChanges(s.t, ev.fd, r.value);
      }
    }
  }

  lemma {:induction false} LockAlong(s: Sys, evs: seq<Event>)
    requires Sound(Abs(s)) && IsRun(s, evs)
    ensures After(s, evs).locked <==> s.locked || LosesLockIn(s, evs)
    decreases |evs|
  {
    if evs != [] {
      LockStep(s, evs[0]);
      SoundStep(s, evs[0]);
      LockAlong(Apply(s, evs[0]), evs[1..]);
    }
  }

  /** Lock balance: a corollary, over runs, of the branch in which a handler
      keeps the mutex.  After any run at all it is held if and only if some step
      was an accept by a client without a link. */
  lemma LockBalance(evs: seq<Event>)
    requires IsRun(INIT, evs)
    ensures After(INIT, evs).locked <==> LosesLockIn(INIT, evs)
  {
    InitSound();
    LockAlong(INIT, evs);
  }

  // ---- branches that only a crossing line reaches ----

  /** The branches of the handlers for requests that do not suit their client:
      an accept that keeps the mutex, finds nothing pending or tells nobody; a
      decline with nothing pending or nobody to tell; a line from a client that
      is not busy or has no peer; a connect or rename that loses its own
      client. */
  predicate DeadBranch(t: Table, fd: Fd, r: Request) {
    var conn := ConnFd(t, fd);
    match r
    case Accept =>
      || conn == INVALID_FD
      || (StatusByFd(t, fd) != ReqPending && NameByFd(t, conn) != UNDEF_NAME && StatusByFd(t, conn) != Busy)
      || MuteAccept(t, fd)
    case Decline => StatusByFd(t, fd) != ReqPending || conn == INVALID_FD
    case Tx(_) => StatusByFd(t, fd) != Busy || conn == INVALID_FD
    case Connect(name) => NameCheck(t, name) == NameExists && StatusByName(t, name) == NotFound
    case SetName(name) => fd !in t.at || NameCheck(t, name) == NameFindErr
    case GetList => fd == INVALID_FD
  }

  /** The unread messages take back what the client acts on. */
  predicate Overtaken(p: Peer, r: Request) {
    match r
    case Accept => !Pending(p).req
    case Decline => !Pending(p).req
    case Tx(_) => !Pending(p).busy
    case _ => false
  }

  /** And, for an accept, its link is invalid or leads to a named client that is
      not busy; or nobody is told of the accept. */
  predicate Misfires(s: Sys, fd: Fd, r: Request)
    requires fd in s.cl
  {
    || (r.Accept? && MuteAccept(s.t, fd))
    || (Overtaken(s.cl[fd], r)
        && (r.Accept? ==>
              var conn := ConnFd(s.t, fd);
              conn == INVALID_FD || (NameByFd(s.t, conn) != UNDEF_NAME && StatusByFd(s.t, conn) != Busy)))
  }

  lemma DeadBranchExactly(s: Sys, fd: Fd, r: Request)
    requires Core(Abs(s)) && fd in s.cl
    ensures DeadBranch(s.t, fd, r) <==> Misfires(s, fd, r)
    ensures !DeadBranch(s.t, fd, r) ==> Handle(s.t, fd, r).sends != []
  {
    assert Abs(s).v[fd] == Pending(s.cl[fd]);
    assert fd in s.t.at && fd in s.t.order;
    if r.Connect? {
      ConnectTarget(s.t, r.target);
    }
    if r.Accept? {
      AcceptSends(s.t, fd);
    }
  }

  lemma DrainedIsNotOvertaken(s: Sys, fd: Fd, raw: string)
    requires Enabled(s, Type(fd, raw)) && Drained(s, Type(fd, raw))
    ensures var r := Typed(s.cl[fd].flags, raw).1;
            r.Some? ==> !Overtaken(s.cl[fd], r.value)
  {
  }

  /** Dead branches.  After a run in which nothing crossed, the next typed line
      takes one of these branches if and only if unread messages take back what
      it acts on and, for an accept, its link leads where it must not; or it is
      an accept nobody is told of.  On a drained inbox only the last is left,
      and not even that if nobody took the name NAME_NOT_DEFINED. */
  lemma DeadBranchesInRuns(evs: seq<Event>, fd: Fd, raw: string)
    requires IsRun(INIT, evs) && TunedRun(INIT, evs)
    ensures var s := After(INIT, evs);
            Enabled(s, Type(fd, raw)) && Typed(s.cl[fd].flags, raw).1.Some? ==>
              var r := Typed(s.cl[fd].flags, raw).1.value;
              && (DeadBranch(s.t, fd, r) <==> Misfires(s, fd, r))
              && (!DeadBranch(s.t, fd, r) ==> Handle(s.t, fd, r).sends != [])
              && (Drained(s, Type(fd, raw)) ==> (DeadBranch(s.t, fd, r) <==> r == Accept && MuteAccept(s.t, fd)))
              && (Drained(s, Type(fd, raw)) && NamedRun(INIT, evs) ==> !DeadBranch(s.t, fd, r))
  {
    InitSound();
    AgreeAlong(INIT, evs);
    var s := After(INIT, evs);
    if Enabled(s, Type(fd, raw)) && Typed(s.cl[fd].flags, raw).1.Some? {
      var r := Typed(s.cl[fd].flags, raw).1.value;
      DeadBranchExactly(s, fd, r);
      if Drained(s, Type(fd, raw)) {
        DrainedIsNotOvertaken(s, fd, raw);
      }
      if NamedRun(INIT, evs) {
        NamesOkAfter(INIT, evs);
      }
    }
  }
}

/** The server at the granularity of its critical sections: an acceptor and one
    thread per client, any of which may run between two sections of another. */
module Interleaved {
  import opened Common
  import opened Names
  import opened Table
  import opened Handlers
  import opened Changes
  import opened Pairing
  import opened UniqueNames
  import opened Sections

  /** The accept loop: waiting, holding a new connection, or holding it with
      the number of clients it read. */
  datatype Acceptor = Idle | Got(fd: Fd) | Counted(fd: Fd, n: nat)

  datatype Net = Net(
    t: Table,
    count: nat,              // total_available_clients, a uint8_t
    stuck: bool,             // a thread returned holding the mutex
    pc: map<Fd, Pc>,         // registered clients' threads
    spawned: set<Fd>,        // threads that have not registered yet
    open: set<Fd>,           // descriptors the kernel will not hand out
    acceptor: Acceptor)

  const INIT := Net(EMPTY, 0, false, map[], {}, {}, Idle)

  datatype Action =
    | Accepted(fd: Fd)
    | ReadCount
    | Decide
    | Enter(fd: Fd)                  // a spawned thread registers, or is refused
    | Begin(fd: Fd, r: Request)      // first section of a handler
    | Resume(fd: Fd)                 // next section of a handler
    | Hangup(fd: Fd)                 // close branch

  predicate May(n: Net, act: Action) {
    match act
    case Accepted(fd) => n.acceptor.Idle? && ValidFd(fd) && fd !in n.open
    case ReadCount => n.acceptor.Got? && !n.stuck
    case Decide => n.acceptor.Counted?
    case Enter(fd) => fd in n.spawned && !n.stuck
    case Begin(fd, r) => fd in n.pc && n.pc[fd] == Ready && (!n.stuck || r.GetList?)
    case Resume(fd) => fd in n.pc && n.pc[fd] != Ready && !n.stuck
    case Hangup(fd) => fd in n.pc && n.pc[fd] == Ready && !n.stuck
  }

  function Do(n: Net, act: Action): Net
    requires May(n, act)
  {
    match act
    case Accepted(fd) => n.(open := n.open + {fd}, acceptor := Got(fd))
    case ReadCount => n.(acceptor := Counted(n.acceptor.fd, n.count))
    case Decide =>
      // a refused connection is told so, and its descriptor stays open
      n.(spawned := if n.acceptor.n < MAX_CLIENT then n.spawned + {n.acceptor.fd} else n.spawned,
         acceptor := Idle)
    case Enter(fd) =>
      if n.count >= MAX_CLIENT then n.(spawned := n.spawned - {fd})
      else n.(t := Register(n.t, fd), count := Wrap8(n.count + 1),
              pc := n.pc[fd := Ready], spawned := n.spawned - {fd})
    case Begin(fd, r) =>
      var x := First(n.t, fd, r);
      n.(t := x.t, pc := n.pc[fd := x.pc], stuck := n.stuck || x.leak)
    case Resume(fd) =>
      var x := Next(n.t, fd, n.pc[fd]);
      n.(t := x.t, pc := n.pc[fd := x.pc], stuck := n.stuck || x.leak)
    case Hangup(fd) =>
      n.(t := HandleClose(n.t, fd).t, count := Wrap8(n.count - 1), pc := n.pc - {fd}, open := n.open - {fd})
  }

  // ---- what holds at every moment ----

  /** Some thread has marked `f` pending and not linked it yet. */
  ghost predicate MidLink(pc: map<Fd, Pc>, f: Fd) {
    exists g :: g in pc && pc[g].Link? && pc[g].target == f
  }

  /** Nobody is linked to itself, and whoever is not free is linked, unless a
      thread is between marking it pending and linking it. */
  ghost predicate LinksSafe(t: Table, pc: map<Fd, Pc>) {
    forall f :: f in t.at ==>
      && t.at[f].toFd != f
      && (t.at[f].status != Free && t.at[f].toFd == INVALID_FD ==> MidLink(pc, f))
  }

  /** What the threads remember never leads them to link a client to itself. */
  ghost predicate LocalsSafe(t: Table, pc: map<Fd, Pc>) {
    forall f :: f in pc && f in t.at ==> LocalSafe(t, f, pc[f])
  }

  /** Descriptors: every client has a thread, every thread's descriptor is
      open, and no descriptor is in two roles. */
  ghost predicate FdsSafe(n: Net) {
    && n.pc.Keys == n.t.at.Keys
    && n.t.at.Keys <= n.open && n.spawned <= n.open
    && n.t.at.Keys !! n.spawned
    && (forall f :: f in n.open ==> ValidFd(f))
    && (!n.acceptor.Idle? ==>
          n.acceptor.fd in n.open && n.acceptor.fd !in n.t.at && n.acceptor.fd !in n.spawned)
  }

  /** The counter is the length of the list, which never exceeds the limit. */
  ghost predicate CountSafe(n: Net) {
    n.count == |n.t.order| <= MAX_CLIENT
  }

  ghost predicate Safe(n: Net) {
    Wf(n.t) && FdsSafe(n) && CountSafe(n) && LinksSafe(n.t, n.pc) && LocalsSafe(n.t, n.pc)
  }

  // ---- one section at a time ----

  /** What the thread of `f` remembers about the registry is sound. */
  predicate LocalSafe(t: Table, f: Fd, p: Pc)
    requires f in t.at
  {
    match p
    case Mark(name, _) => t.at[f].name != name
    case Link(target, _, _) => target != f && target != INVALID_FD
    case Commit(conn) => conn != f && conn != INVALID_FD
    case Cut(conn) => conn != f && conn != INVALID_FD
    case _ => true
  }

  /** A change that the thread of `fd` may cause between two places. */
  predicate Suits(fd: Fd, was: Pc, ch: Change, p: Pc) {
    match ch
    case Asked(_) => false
    case Marked(x) => !was.Link? && ((p.Link? && p.target == x) || x == INVALID_FD)
    case Tied(x) => was.Link? && was.target == x && x != fd && x != INVALID_FD
    case Coupled(x, _) => !was.Link? && x != fd && x != INVALID_FD
    case Parted(x) => !was.Link? && x != fd && x != INVALID_FD
    case _ => !was.Link?
  }

  lemma MidLinkKept(pc: map<Fd, Pc>, fd: Fd, p: Pc, f: Fd)
    requires MidLink(pc, f) && (fd in pc ==> !pc[fd].Link? || pc[fd].target != f)
    ensures MidLink(pc[fd := p], f)
  {
    var g :| g in pc && pc[g].Link? && pc[g].target == f;
    assert g in pc[fd := p] && pc[fd := p][g] == pc[g];
  }

  lemma LinkStaysSafe(t: Table, t': Table, pc: map<Fd, Pc>, fd: Fd, ch: Change, p: Pc, f: Fd)
    requires Wf(t) && LinksSafe(t, pc) && fd in pc && fd in t.at
    requires Changed(t, t', fd, ch) && Suits(fd, pc[fd], ch, p) && f in t.at
    ensures t'.at[f].toFd != f
    ensures t'.at[f].status != Free && t'.at[f].toFd == INVALID_FD ==> MidLink(pc[fd := p], f)
  {
    assert INVALID_FD !in t.at;
    if t'.at[f].status != Free && t'.at[f].toFd == INVALID_FD {
      if ch.Marked? && f == ch.peer {
        assert pc[fd := p][fd] == p;
      } else {
        MidLinkKept(pc, fd, p, f);
      }
    }
  }

  /** A section keeps the list, the links and what the threads remember. */
  lemma ChangeSafe(t: Table, t': Table, pc: map<Fd, Pc>, fd: Fd, ch: Change, p: Pc)
    requires Wf(t) && pc.Keys == t.at.Keys && LinksSafe(t, pc) && LocalsSafe(t, pc)
    requires fd in pc && Changed(t, t', fd, ch) && Suits(fd, pc[fd], ch, p) && LocalSafe(t', fd, p)
    ensures Wf(t') && t'.order == t.order && LinksSafe(t', pc[fd := p]) && LocalsSafe(t', pc[fd := p])
  {
    forall f | f in t'.at
      ensures f in t'.order && t'.at[f].toFd != f && t'.at[f].status != NotFound && ValidFd(f)
      ensures t'.at[f].status != Free && t'.at[f].toFd == INVALID_FD ==> MidLink(pc[fd := p], f)
    {
      assert f in t.at.Keys;
      LinkStaysSafe(t, t', pc, fd, ch, p, f);
    }
    forall f | f in t'.order ensures f in t'.at {
      assert f in t.at.Keys;
    }
    forall f | f in pc[fd := p] && f in t'.at ensures LocalSafe(t', f, pc[fd := p][f]) {
      assert f in t.at.Keys;
      if f != fd {
        assert LocalSafe(t, f, pc[f]);
      }
    }
  }

  lemma FirstSuits(t: Table, pc: map<Fd, Pc>, fd: Fd, r: Request)
    requires Wf(t) && LinksSafe(t, pc) && fd in pc && fd in t.at && pc[fd] == Ready
    ensures var x := First(t, fd, r);
            Suits(fd, Ready, FirstChange(t, fd, r), x.pc) && (fd in x.t.at ==> LocalSafe(x.t, fd, x.pc))
  {
  }

  /** Only one first section keeps the mutex, and no later section does. */
  lemma OnlyAcceptLeaks(t: Table, fd: Fd, r: Request, pc: Pc)
    ensures First(t, fd, r).leak <==> r.Accept? && ConnFd(t, fd) == INVALID_FD
    ensures !Next(t, fd, pc).leak
  {
  }

  lemma NextSuits(t: Table, pc: map<Fd, Pc>, fd: Fd)
    requires Wf(t) && LocalsSafe(t, pc) && fd in pc && fd in t.at
    ensures var x := Next(t, fd, pc[fd]);
            Suits(fd, pc[fd], NextChange(t, pc[fd]), x.pc) && (fd in x.t.at ==> LocalSafe(x.t, fd, x.pc))
  {
    assert INVALID_FD !in t.at;
    if pc[fd].Mark? {
      FdByNameNone(t, pc[fd].name);
    }
  }

  lemma HangupSafe(t: Table, pc: map<Fd, Pc>, fd: Fd)
    requires Wf(t) && pc.Keys == t.at.Keys && LinksSafe(t, pc) && LocalsSafe(t, pc)
    requires fd in pc && pc[fd] == Ready
    ensures var t' := HandleClose(t, fd).t;
            && Wf(t') && t'.at.Keys == t.at.Keys - {fd} && |t'.order| == |t.order| - 1
            && LinksSafe(t', pc - {fd}) && LocalsSafe(t', pc - {fd})
  {
    CloseShape(t, fd);
    ClosedSafe(t, HandleClose(t, fd).t, pc, fd);
  }

  lemma ClosedSafe(t: Table, t': Table, pc: map<Fd, Pc>, fd: Fd)
    requires Wf(t) && pc.Keys == t.at.Keys && LinksSafe(t, pc) && LocalsSafe(t, pc)
    requires fd in pc && pc[fd] == Ready && Closed(t, t', fd)
    ensures LinksSafe(t', pc - {fd}) && LocalsSafe(t', pc - {fd})
  {
    var pc' := pc - {fd};
    forall f | MidLink(pc, f) ensures MidLink(pc', f) {
      var g :| g in pc && pc[g].Link? && pc[g].target == f;
      assert g in pc' && pc'[g] == pc[g];
    }
    forall f | f in t'.at ensures f in t.at && f != fd {
      assert f in t.at.Keys - {fd};
    }
  }

  lemma SectionStep(n: Net, fd: Fd, x: Section, ch: Change, n': Net)
    requires Safe(n) && fd in n.pc && Changed(n.t, x.t, fd, ch) && Suits(fd, n.pc[fd], ch, x.pc)
    requires fd in x.t.at && LocalSafe(x.t, fd, x.pc)
    requires n' == n.(t := x.t, pc := n.pc[fd := x.pc], stuck := n'.stuck)
    ensures Safe(n')
  {
    ChangeSafe(n.t, x.t, n.pc, fd, ch, x.pc);
  }

  lemma EnterSafe(n: Net, fd: Fd)
    requires Safe(n) && May(n, Enter(fd))
    ensures Safe(Do(n, Enter(fd)))
  {
    if n.count < MAX_CLIENT {
      RegisterWf(n.t, fd);
      forall f | MidLink(n.pc, f) ensures MidLink(n.pc[fd := Ready], f) {
        MidLinkKept(n.pc, fd, Ready, f);
      }
    }
  }

  lemma BeginSafe(n: Net, fd: Fd, r: Request)
    requires Safe(n) && May(n, Begin(fd, r))
    ensures Safe(Do(n, Begin(fd, r)))
  {
    FirstSuits(n.t, n.pc, fd, r);
    FirstChanges(n.t, fd, r);
    SectionStep(n, fd, First(n.t, fd, r), FirstChange(n.t, fd, r), Do(n, Begin(fd, r)));
  }

  lemma ResumeSafe(n: Net, fd: Fd)
    requires Safe(n) && May(n, Resume(fd))
    ensures Safe(Do(n, Resume(fd)))
  {
    assert LocalSafe(n.t, fd, n.pc[fd]);
    NextSuits(n.t, n.pc, fd);
    NextChanges(n.t, fd, n.pc[fd]);
    SectionStep(n, fd, Next(n.t, fd, n.pc[fd]), NextChange(n.t, n.pc[fd]), Do(n, Resume(fd)));
  }

  lemma StuckStep(n: Net, act: Action)
    requires May(n, act)
    ensures Do(n, act).stuck <==> n.stuck || (act.Begin? && act.r.Accept? && ConnFd(n.t, act.fd) == INVALID_FD)
  {
    match act {
      case Begin(fd, r) => OnlyAcceptLeaks(n.t, fd, r, Ready);
      case Resume(fd) => OnlyAcceptLeaks(n.t, fd, Accept, n.pc[fd]);
      case _ =>
    }
  }

  lemma LinklessIsFree(n: Net, f: Fd)
    requires Safe(n) && f in n.pc && ConnFd(n.t, f) == INVALID_FD
    ensures n.t.at[f].status == Free || MidLink(n.pc, f)
  {
  }

  /** Interleaved link safety, and capacity: every step of every thread, in
      every order, keeps the invariant.  The mutex is lost exactly when a client
      without a link accepts, and that client is free, or has just been marked
      pending and not been linked yet. */
  lemma SafeStep(n: Net, act: Action)
    requires Safe(n) && May(n, act)
    ensures Safe(Do(n, act))
    ensures Do(n, act).stuck <==> n.stuck || (act.Begin? && act.r.Accept? && ConnFd(n.t, act.fd) == INVALID_FD)
    ensures Do(n, act).stuck && !n.stuck ==> n.t.at[act.fd].status == Free || MidLink(n.pc, act.fd)
  {
    SafeKept(n, act);
    StuckStep(n, act);
    if act.Begin? && ConnFd(n.t, act.fd) == INVALID_FD {
      LinklessIsFree(n, act.fd);
    }
  }

  lemma SafeKept(n: Net, act: Action)
    requires Safe(n) && May(n, act)
    ensures Safe(Do(n, act))
  {
    match act {
      case Enter(fd) => EnterSafe(n, fd);
      case Begin(fd, r) => BeginSafe(n, fd, r);
      case Resume(fd) => ResumeSafe(n, fd);
      case Hangup(fd) => HangupKept(n, fd);
      case _ =>
    }
  }

  lemma HangupKept(n: Net, fd: Fd)
    requires Safe(n) && May(n, Hangup(fd))
    ensures Safe(Do(n, Hangup(fd)))
  {
    HangupSafe(n.t, n.pc, fd);
  }

  // ---- pairs ----

  predicate FirstBreaks(t: Table, fd: Fd, r: Request) {
    r.Accept? && IsBusy(t, fd) && ConnFd(t, fd) != INVALID_FD && NameByFd(t, ConnFd(t, fd)) == UNDEF_NAME
  }

  predicate NextBreaks(t: Table, fd: Fd, p: Pc) {
    match p
    case Ready => false
    case Mark(name, _) => IsBusy(t, FdByName(t, name))
    case Link(target, _, _) => Taken(t, fd, target) || Taken(t, target, fd)
    case Yield(_) => IsBusy(t, fd)
    case Commit(conn) => Taken(t, fd, conn) || Taken(t, conn, fd) || conn !in t.at
    case Drop => IsBusy(t, fd)
    case Cut(conn) => Taken(t, fd, conn) || Taken(t, conn, fd)
  }

  /** The sections that separate a busy client from its partner, or make a
      client busy that gets none: what a thread remembers may be out of date. */
  predicate SectionBreaks(n: Net, act: Action) {
    match act
    case Begin(fd, r) => FirstBreaks(n.t, fd, r)
    case Resume(fd) => fd in n.pc && NextBreaks(n.t, fd, n.pc[fd])
    case Hangup(fd) => Breaks(n.t, Gone(fd))
    case _ => false
  }

  lemma ArrivalPairing(t: Table, fd: Fd)
    requires Paired(t) && fd !in t.at
    ensures Paired(Register(t, fd))
  {
    forall f | f in t.at && t.at[f].status == Busy ensures HasPartner(Register(t, fd), f) {
      assert HasPartner(t, f);
    }
  }

  lemma FirstPairing(t: Table, pc: map<Fd, Pc>, fd: Fd, r: Request)
    requires Wf(t) && LinksSafe(t, pc) && Paired(t)
    ensures Paired(First(t, fd, r).t) <==> !FirstBreaks(t, fd, r)
  {
    FirstChanges(t, fd, r);
    ChangePairing(t, First(t, fd, r).t, fd, FirstChange(t, fd, r));
  }

  lemma NextPairing(t: Table, pc: map<Fd, Pc>, fd: Fd)
    requires Wf(t) && LinksSafe(t, pc) && LocalsSafe(t, pc) && Paired(t) && fd in pc && fd in t.at
    ensures Paired(Next(t, fd, pc[fd]).t) <==> !NextBreaks(t, fd, pc[fd])
  {
    assert LocalSafe(t, fd, pc[fd]);
    NextChanges(t, fd, pc[fd]);
    ChangePairing(t, Next(t, fd, pc[fd]).t, fd, NextChange(t, pc[fd]));
  }

  lemma HangupPairing(t: Table, pc: map<Fd, Pc>, fd: Fd)
    requires Wf(t) && LinksSafe(t, pc) && Paired(t) && fd in t.at
    ensures Paired(HandleClose(t, fd).t) <==> !Breaks(t, Gone(fd))
  {
    CloseShape(t, fd);
    ClosedPairing(t, HandleClose(t, fd).t, fd);
  }

  /** The exact pairing theorem at the granularity of sections: from a paired
      state, and whatever the threads remember, a section leaves the busy
      clients unpaired if and only if it is one of those. */
  lemma SectionPairing(n: Net, act: Action)
    requires Safe(n) && Paired(n.t) && May(n, act)
    ensures Paired(Do(n, act).t) <==> !SectionBreaks(n, act)
  {
    match act {
      case Enter(fd) => ArrivalPairing(n.t, fd);
      case Begin(fd, r) => FirstPairing(n.t, n.pc, fd, r);
      case Resume(fd) => NextPairing(n.t, n.pc, fd);
      case Hangup(fd) => HangupPairing(n.t, n.pc, fd);
      case _ =>
    }
  }

  // ---- runs ----

  predicate IsRun(n: Net, acts: seq<Action>)
    decreases |acts|
  {
    acts == [] || (May(n, acts[0]) && IsRun(Do(n, acts[0]), acts[1..]))
  }

  function After(n: Net, acts: seq<Action>): Net
    requires IsRun(n, acts)
    decreases |acts|
  {
    if acts == [] then n else After(Do(n, acts[0]), acts[1..])
  }

  lemma {:induction false} SafeAfter(n: Net, acts: seq<Action>)
    requires Safe(n) && IsRun(n, acts)
    ensures Safe(After(n, acts))
    decreases |acts|
  {
    if acts != [] {
      SafeStep(n, acts[0]);
      SafeAfter(Do(n, acts[0]), acts[1..]);
    }
  }

  /** A run without such a section. */
  predicate CalmRun(n: Net, acts: seq<Action>)
    requires IsRun(n, acts)
    decreases |acts|
  {
    acts == [] || (!SectionBreaks(n, acts[0]) && CalmRun(Do(n, acts[0]), acts[1..]))
  }

  ghost predicate PairedThroughout(n: Net, acts: seq<Action>)
    requires IsRun(n, acts)
    decreases |acts|
  {
    Paired(n.t) && (acts == [] || PairedThroughout(Do(n, acts[0]), acts[1..]))
  }

  lemma {:induction false} PairedAlong(n: Net, acts: seq<Action>)
    requires Safe(n) && Paired(n.t) && IsRun(n, acts)
    ensures PairedThroughout(n, acts) <==> CalmRun(n, acts)
    decreases |acts|
  {
    if acts != [] {
      SafeStep(n, acts[0]);
      SectionPairing(n, acts[0]);
      if !SectionBreaks(n, acts[0]) {
        PairedAlong(Do(n, acts[0]), acts[1..]);
      }
    }
  }

  /** In every interleaving the busy clients are in pairs at every moment if and
      only if no section of it breaks a pair. */
  lemma InterleavedPairs(acts: seq<Action>)
    requires IsRun(INIT, acts)
    ensures PairedThroughout(INIT, acts) <==> CalmRun(INIT, acts)
  {
    PairedAlong(INIT, acts);
  }

  /** Interleaved link safety for whole runs: after any interleaving of any
      requests, no client is linked to itself, and a client that is not free
      has a link unless some thread has just marked it and not yet linked it. */
  lemma LinksSafeInEveryRun(acts: seq<Action>, f: Fd)
    requires IsRun(INIT, acts)
    ensures var n := After(INIT, acts);
            f in n.t.at ==>
              && n.t.at[f].toFd != f
              && (n.t.at[f].status != Free && n.t.at[f].toFd == INVALID_FD ==>
                    exists g :: g in n.pc && n.pc[g].Link? && n.pc[g].target == f && g != f)
  {
    SafeAfter(INIT, acts);
    var n := After(INIT, acts);
    if f in n.t.at && n.t.at[f].status != Free && n.t.at[f].toFd == INVALID_FD {
      var g :| g in n.pc && n.pc[g].Link? && n.pc[g].target == f;
      assert g in n.t.at;
    }
  }

  /** Capacity under racing admission: whatever count the acceptor saw, the
      counter is the number of clients in the list, at most 20, and the 8-bit
      arithmetic never wraps. */
  lemma CapacityInEveryRun(acts: seq<Action>, act: Action)
    requires IsRun(INIT, acts) && May(After(INIT, acts), act)
    ensures var n := After(INIT, acts);
            && n.count == |n.t.order| <= 20
            && (act.Hangup? ==> Do(n, act).count == n.count - 1)
            && (act.Enter? && n.count < 20 ==> Do(n, act).count == n.count + 1)
  {
    SafeAfter(INIT, acts);
    SafeStep(After(INIT, acts), act);
    if act.Hangup? {
      HangupSafe(After(INIT, acts).t, After(INIT, acts).pc, act.fd);
    }
  }

  /** A client was put at the end of the list, free, without a link, and under a
      name that says its descriptor. */
  predicate Joined(t: Table, t': Table, fd: Fd) {
    && t'.order == t.order + [fd] && t'.at.Keys == t.at.Keys + {fd}
    && (forall f :: f in t.at ==> t'.at[f] == t.at[f])
    && t'.at[fd] == Rec(Free, -1, t'.at[fd].name) && NamedAfter(t'.at[fd].name, fd)
  }

  /** What admission does in every run: the accept loop reads the length of the
      list, and starts a thread exactly if it read less than 20; the thread is
      registered exactly if there are less than 20 clients by then, and else it
      is over; and a descriptor that was hung up can come again. */
  lemma AdmissionInEveryRun(acts: seq<Action>, act: Action)
    requires IsRun(INIT, acts) && May(After(INIT, acts), act)
    ensures var n := After(INIT, acts);
            var m := Do(n, act);
            match act
            case Accepted(fd) => m.t == n.t && m.acceptor == Got(fd) && fd !in n.open
            case ReadCount => m.t == n.t && m.acceptor == Counted(n.acceptor.fd, |n.t.order|)
            case Decide =>
              && m.t == n.t && m.acceptor == Idle
              && (forall f :: f in m.spawned <==> f in n.spawned || (f == n.acceptor.fd && n.acceptor.n < 20))
            case Enter(fd) =>
              && fd !in n.t.at && m.spawned == n.spawned - {fd}
              && if |n.t.order| < 20 then Joined(n.t, m.t, fd) && m.pc == n.pc[fd := Ready]
                 else m.t == n.t && m.pc == n.pc
            case Hangup(fd) => fd !in m.t.at && fd !in m.pc && fd !in m.open
            case _ => m.spawned == n.spawned && m.open == n.open && m.acceptor == n.acceptor
  {
    SafeAfter(INIT, acts);
    var n := After(INIT, acts);
    match act {
      case Enter(fd) => TempNameIsOwn(fd);
      case Hangup(fd) => HangupSafe(n.t, n.pc, fd);
      case _ =>
    }
  }

  predicate LosesMutex(n: Net, act: Action) {
    act.Begin? && act.r.Accept? && ConnFd(n.t, act.fd) == INVALID_FD
  }

  predicate LosesMutexIn(n: Net, acts: seq<Action>)
    requires IsRun(n, acts)
    decreases |acts|
  {
    acts != [] && (LosesMutex(n, acts[0]) || LosesMutexIn(Do(n, acts[0]), acts[1..]))
  }

  /** The registry at the first such accept. */
  function TableWhenLost(n: Net, acts: seq<Action>): Table
    requires IsRun(n, acts) && LosesMutexIn(n, acts)
    decreases |acts|
  {
    if LosesMutex(n, acts[0]) then n.t else TableWhenLost(Do(n, acts[0]), acts[1..])
  }

  /** Once a thread has returned with the mutex, no thread touches the registry
      again. */
  lemma {:induction false} StuckForever(n: Net, acts: seq<Action>)
    requires n.stuck && IsRun(n, acts)
    ensures After(n, acts).stuck && After(n, acts).t == n.t
    decreases |acts|
  {
    if acts != [] {
      StuckForever(Do(n, acts[0]), acts[1..]);
    }
  }

  lemma {:induction false} LostAlong(n: Net, acts: seq<Action>)
    requires Safe(n) && !n.stuck && IsRun(n, acts)
    ensures After(n, acts).stuck <==> LosesMutexIn(n, acts)
    ensures LosesMutexIn(n, acts) ==> After(n, acts).t == TableWhenLost(n, acts)
    decreases |acts|
  {
    if acts != [] {
      SafeStep(n, acts[0]);
      if LosesMutex(n, acts[0]) {
        StuckForever(Do(n, acts[0]), acts[1..]);
      } else {
        LostAlong(Do(n, acts[0]), acts[1..]);
      }
    }
  }

  /** The mutex in whole runs, a corollary: in any interleaving it is held at the
      end if and only if some client without a link began an accept; and the
      registry is then for good what it was at the first such accept. */
  lemma LossIsFinal(acts: seq<Action>)
    requires IsRun(INIT, acts)
    ensures After(INIT, acts).stuck <==> LosesMutexIn(INIT, acts)
    ensures LosesMutexIn(INIT, acts) ==> After(INIT, acts).t == TableWhenLost(INIT, acts)
  {
    LostAlong(INIT, acts);
  }

  // ---- the acceptor's check alone does not bound the threads ----

  /** A run in which `k` connections are admitted before any of them registers. */
  function Flood(k: nat): seq<Action> {
    if k == 0 then [] else Flood(k - 1) + [Accepted(k - 1), ReadCount, Decide]
  }

  lemma {:induction false} RunsCompose(n: Net, a: seq<Action>, b: seq<Action>)
    requires IsRun(n, a) && IsRun(After(n, a), b)
    ensures IsRun(n, a + b) && After(n, a + b) == After(After(n, a), b)
    decreases |a|
  {
    if a == [] {
      assert a + b == b;
    } else {
      assert (a + b)[0] == a[0] && (a + b)[1..] == a[1..] + b;
      var n1 := Do(n, a[0]);
      assert IsRun(n1, a[1..]) && After(n, a) == After(n1, a[1..]);
      RunsCompose(n1, a[1..], b);
    }
  }

  lemma OneAdmission(n: Net, fd: Fd)
    requires n == Net(EMPTY, 0, false, map[], n.spawned, n.spawned, Idle)
    requires ValidFd(fd) && fd !in n.spawned
    ensures var turn := [Accepted(fd), ReadCount, Decide];
            && IsRun(n, turn)
            && After(n, turn) == n.(spawned := n.spawned + {fd}, open := n.spawned + {fd})
  {
    var turn := [Accepted(fd), ReadCount, Decide];
    var n1 := Do(n, Accepted(fd));
    var n2 := Do(n1, ReadCount);
    assert turn[1..] == [ReadCount, Decide];
    assert turn[1..][1..] == [Decide];
    assert turn[1..][1..][1..] == [];
    assert IsRun(n2, [Decide]) && After(n2, [Decide]) == Do(n2, Decide);
    assert IsRun(n1, turn[1..]) && After(n1, turn[1..]) == Do(n2, Decide);
  }

  ghost predicate Flooded(n: Net, k: nat) {
    && n == Net(EMPTY, 0, false, map[], n.spawned, n.spawned, Idle)
    && (forall f :: f in n.spawned <==> 0 <= f < k) && |n.spawned| == k
  }

  lemma FloodStep(n: Net, k: nat)
    requires Flooded(n, k) && k < FD_LIMIT
    ensures var turn := [Accepted(k), ReadCount, Decide]; IsRun(n, turn) && Flooded(After(n, turn), k + 1)
  {
    OneAdmission(n, k);
    assert |n.spawned + {k}| == |n.spawned| + 1;
  }

  /** Any number of connections can pass the stale check of the accept loop
      while it keeps reading zero; it is the check made under the mutex at
      registration that keeps the list within its limit. */
  lemma {:induction false} StaleCheckOverbooks(k: nat)
    requires k <= 0x8000_0000
    ensures IsRun(INIT, Flood(k))
    ensures var n := After(INIT, Flood(k));
            && n == Net(EMPTY, 0, false, map[], n.spawned, n.spawned, Idle)
            && (forall f :: f in n.spawned <==> 0 <= f < k) && |n.spawned| == k
    decreases k
  {
    assert Flooded(INIT, 0);
    if k > 0 {
      StaleCheckOverbooks(k - 1);
      assert Flooded(After(INIT, Flood(k - 1)), k - 1);
      FloodStep(After(INIT, Flood(k - 1)), k - 1);
      RunsCompose(INIT, Flood(k - 1), [Accepted(k - 1), ReadCount, Decide]);
      assert Flooded(After(INIT, Flood(k)), k);
    }
  }

  // ---- names ----

  /** Every name asked for in the run fits its field and is not of the form
      made for registration. */
  predicate FairRun(acts: seq<Action>) {
    forall i :: 0 <= i < |acts| && acts[i].Begin? && acts[i].r.SetName? ==> FairName(acts[i].r.name)
  }

  lemma SectionsKeepNames(t: Table, fd: Fd, r: Request)
    requires Wf(t)
    ensures !r.SetName? ==> SameNames(t, First(t, fd, r).t)
  {
    FirstChanges(t, fd, r);
    if !r.SetName? {
      ChangeKeepsNames(t, First(t, fd, r).t, fd, FirstChange(t, fd, r));
    }
  }

  lemma LaterSectionsKeepNames(t: Table, pc: map<Fd, Pc>, fd: Fd)
    requires Wf(t) && LocalsSafe(t, pc) && fd in pc && fd in t.at
    ensures SameNames(t, Next(t, fd, pc[fd]).t)
  {
    assert LocalSafe(t, fd, pc[fd]);
    NextChanges(t, fd, pc[fd]);
    ChangeKeepsNames(t, Next(t, fd, pc[fd]).t, fd, NextChange(t, pc[fd]));
  }

  /** Clients that keep their names keep them distinct. */
  lemma NamesKept(t: Table, t': Table)
    requires NamesDistinct(t) && TempNamesOwned(t)
    requires forall f :: f in t'.at ==> f in t.at && t'.at[f].name == t.at[f].name
    ensures NamesDistinct(t') && TempNamesOwned(t')
  {
  }

  lemma HangupKeepsNames(t: Table, fd: Fd)
    requires Wf(t) && fd in t.at
    ensures forall f :: f in HandleClose(t, fd).t.at ==> f in t.at && HandleClose(t, fd).t.at[f].name == t.at[f].name
  {
    CloseShape(t, fd);
    forall f | f in HandleClose(t, fd).t.at
      ensures f in t.at && HandleClose(t, fd).t.at[f].name == t.at[f].name
    {
      assert f in t.at.Keys - {fd};
    }
  }

  lemma UniqueStep(n: Net, act: Action)
    requires Safe(n) && May(n, act)
    requires NamesDistinct(n.t) && TempNamesOwned(n.t)
    requires act.Begin? && act.r.SetName? ==> FairName(act.r.name)
    ensures NamesDistinct(Do(n, act).t) && TempNamesOwned(Do(n, act).t)
  {
    match act {
      case Enter(fd) => FairRegister(n.t, fd);
      case Begin(fd, r) =>
        if r.SetName? {
          FairSetName(n.t, fd, r.name);
        } else {
          SectionsKeepNames(n.t, fd, r);
          NamesKept(n.t, First(n.t, fd, r).t);
        }
      case Resume(fd) =>
        LaterSectionsKeepNames(n.t, n.pc, fd);
        NamesKept(n.t, Next(n.t, fd, n.pc[fd]).t);
      case Hangup(fd) =>
        HangupKeepsNames(n.t, fd);
        NamesKept(n.t, HandleClose(n.t, fd).t);
      case _ =>
    }
  }

  lemma {:induction false} UniqueAfter(n: Net, acts: seq<Action>)
    requires Safe(n) && NamesDistinct(n.t) && TempNamesOwned(n.t)
    requires IsRun(n, acts) && FairRun(acts)
    ensures Safe(After(n, acts)) && NamesDistinct(After(n, acts).t)
    decreases |acts|
  {
    if acts != [] {
      SafeStep(n, acts[0]);
      UniqueStep(n, acts[0]);
      assert forall i :: 0 <= i < |acts[1..]| ==> acts[1..][i] == acts[i + 1];
      UniqueAfter(Do(n, acts[0]), acts[1..]);
    }
  }

  /** Name uniqueness, in every interleaving: if all names asked for are fair,
      the clients' names stay pairwise distinct, and looking up a client by
      name and naming a client by descriptor undo each other. */
  lemma NamesIdentifyInEveryRun(acts: seq<Action>, fd: Fd, name: string)
    requires IsRun(INIT, acts) && FairRun(acts)
    ensures var t := After(INIT, acts).t;
            && NamesDistinct(t)
            && (fd in t.at ==> FdByName(t, NameByFd(t, fd)) == fd)
            && (FdByName(t, name) != INVALID_FD ==> NameByFd(t, FdByName(t, name)) == name)
  {
    UniqueAfter(INIT, acts);
    LookupsInverse(After(INIT, acts).t, fd, name);
  }
}

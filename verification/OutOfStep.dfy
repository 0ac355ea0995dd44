/** Users who have read everything, and threads that overtake each other: a
    course after which a client's flags do not agree with its status. */
module OutOfStep {
  import opened Common
  import opened Names
  import opened Table
  import opened Client
  import opened Handlers
  import opened Changes
  import opened Composed
  import opened ViewAgreement
  import opened UniqueNames
  import opened Sections
  import opened Interleaved
  import opened Midway
  import opened Overtaken
  import Scenarios

  /** A course in which users type on drained inboxes and nothing falls out of
      step, and where it leads. */
  ghost predicate Comes(ds: seq<Deed>, s: Crowd) {
    && IsCourse(NOBODY, ds) && PromptCourse(NOBODY, ds) && SmoothCourse(NOBODY, ds)
    && Outcome(NOBODY, ds) == s
  }

  lemma {:induction false} CoursesCompose(s: Crowd, ds: seq<Deed>, d: Deed)
    requires IsCourse(s, ds) && Can(Outcome(s, ds), d)
    ensures IsCourse(s, ds + [d]) && Outcome(s, ds + [d]) == Does(Outcome(s, ds), d)
    ensures PromptCourse(s, ds + [d]) <==> PromptCourse(s, ds) && Prompt(Outcome(s, ds), d)
    ensures SmoothCourse(s, ds + [d]) <==> SmoothCourse(s, ds) && !FallsOut(Outcome(s, ds), d)
    decreases |ds|
  {
    if ds == [] {
      assert ds + [d] == [d] && [d][1..] == [];
    } else {
      assert (ds + [d])[0] == ds[0] && (ds + [d])[1..] == ds[1..] + [d];
      CoursesCompose(Does(s, ds[0]), ds[1..], d);
    }
  }

  lemma ComesInStep(ds: seq<Deed>, s: Crowd)
    requires Comes(ds, s)
    ensures InStep(s)
  {
    InStepAlong(NOBODY, ds);
  }

  /** What a course keeps of the registry, the threads and the clients. */
  lemma Keys(ds: seq<Deed>, s: Crowd)
    requires Comes(ds, s)
    ensures Wf(s.n.t) && s.cl.Keys == s.n.t.at.Keys && s.n.pc.Keys == s.n.t.at.Keys && !s.n.stuck
  {
    ComesInStep(ds, s);
    assert AbsClients(s.cl).Keys == s.cl.Keys;
  }

  lemma Then(ds: seq<Deed>, s: Crowd, d: Deed)
    requires Comes(ds, s) && Can(s, d) && Prompt(s, d) && !FallsOut(s, d)
    ensures Comes(ds + [d], Does(s, d))
  {
    CoursesCompose(NOBODY, ds, d);
  }

  /** A client reads its whole inbox. */
  lemma {:induction false} ThenHears(ds: seq<Deed>, s: Crowd, fd: Fd) returns (ds': seq<Deed>, s': Crowd)
    requires Comes(ds, s) && fd in s.cl
    ensures Comes(ds', s') && s'.n == s.n && s'.cl == s.cl[fd := Peer(Pending(s.cl[fd]), [])]
    decreases |s.cl[fd].inbox|
  {
    ds', s' := ds, s;
    if s.cl[fd].inbox != [] {
      Then(ds, s, Hear(fd));
      ds', s' := ThenHears(ds + [Hear(fd)], Does(s, Hear(fd)), fd);
    }
  }

  // ---- registration ----

  /** Everybody has just joined. */
  predicate JustJoined(cl: map<Fd, Peer>) {
    forall f :: f in cl ==> cl[f] == Peer(START, [])
  }

  lemma {:induction false} AfterAdmission(acts: seq<Action>) returns (ds: seq<Deed>, s: Crowd)
    requires Interleaved.IsRun(Interleaved.INIT, acts) && forall act :: act in acts ==> Admits(act)
    ensures Comes(ds, s) && s.n == Interleaved.After(Interleaved.INIT, acts) && JustJoined(s.cl)
    decreases |acts|
  {
    if acts == [] {
      ds, s := [], NOBODY;
    } else {
      var k := |acts| - 1;
      var act := acts[k];
      assert act in acts && acts == acts[..k] + [act];
      RunSplits(Interleaved.INIT, acts[..k], act);
      ds, s := AfterAdmission(acts[..k]);
      Then(ds, s, Turn(act));
      ds, s := ds + [Turn(act)], Does(s, Turn(act));
    }
  }

  lemma {:induction false} RunSplits(n: Net, acts: seq<Action>, act: Action)
    requires Interleaved.IsRun(n, acts + [act])
    ensures Interleaved.IsRun(n, acts) && May(Interleaved.After(n, acts), act)
    ensures Interleaved.After(n, acts + [act]) == Do(Interleaved.After(n, acts), act)
    decreases |acts|
  {
    if acts == [] {
      assert acts + [act] == [act] && [act][1..] == [];
    } else {
      assert (acts + [act])[0] == acts[0] && (acts + [act])[1..] == acts[1..] + [act];
      RunSplits(Do(n, acts[0]), acts[1..], act);
    }
  }

  // ---- the course ----

  lemma ThenTypes(ds: seq<Deed>, s: Crowd, fd: Fd, raw: string, c: Flags, r: Request)
    returns (ds': seq<Deed>, s': Crowd)
    requires Comes(ds, s) && fd in s.cl && s.cl[fd].inbox == [] && 0 < |raw| < MAX_MSG_LEN
    requires Typed(s.cl[fd].flags, raw) == (c, Some(r)) && May(s.n, Begin(fd, r)) && !FirstCrosses(s.n.t, fd, r, c)
    ensures Comes(ds', s') && s'.n == Do(s.n, Begin(fd, r))
    ensures s'.cl == Post(s.cl[fd := Peer(c, [])], First(s.n.t, fd, r).sends)
  {
    var d := Line(fd, raw);
    assert Replay(c, []) == c;
    Then(ds, s, d);
    ds', s' := ds + [d], Does(s, d);
    assert s.cl[fd].(flags := c) == Peer(c, []);
  }

  lemma ThenResumes(ds: seq<Deed>, s: Crowd, fd: Fd) returns (ds': seq<Deed>, s': Crowd)
    requires Comes(ds, s) && May(s.n, Resume(fd)) && !NextCrosses(s.n.t, s.n.pc, fd)
    ensures Comes(ds', s') && s'.n == Do(s.n, Resume(fd))
  {
    Then(ds, s, Turn(Resume(fd)));
    ds', s' := ds + [Turn(Resume(fd))], Does(s, Turn(Resume(fd)));
  }

  // ---- sections that keep in step ----

  lemma MarksFree(t: Table, pc: map<Fd, Pc>, a: Fd, b: Fd, me: string)
    requires Wf(t) && FirstNames(t) && b in t.at && t.at[b].status == Free
    requires a in pc && pc[a] == Mark(TempName(b), me)
    ensures !NextCrosses(t, pc, a)
  {
    FindTemp(t, b);
  }

  lemma AcceptInStep(t: Table, b: Fd, a: Fd, c: Flags)
    requires Wf(t) && FirstNames(t) && a in t.at && b in t.at && t.at[b].status == ReqPending && t.at[b].toFd == a
    requires t.at[a].status == Free && !c.req
    ensures !FirstCrosses(t, b, Accept, c)
  {
    TempNameFits(a);
    assert a != INVALID_FD;
  }

  lemma CommitIsTold(t: Table, pc: map<Fd, Pc>, b: Fd, a: Fd)
    requires Wf(t) && FirstNames(t) && a in t.at && b in t.at
    requires b in pc && pc[b] == Commit(a) && a in pc && pc[a] == Ready
    ensures !NextCrosses(t, pc, b)
  {
    TempNameFits(a);
    TempNameFits(b);
  }

  lemma AsksFor(b: Fd) returns (raw: string)
    requires ValidFd(b)
    ensures 0 < |raw| < MAX_MSG_LEN && Typed(START, raw) == (START, Some(Connect(TempName(b))))
  {
    raw := Scenarios.ConnectLine(TempName(b));
    Scenarios.TempIsWord(b);
    Scenarios.IdleTypes(START, TempName(b));
  }

  // ---- the course ----

  /** The second and third section of a request have run. */
  ghost predicate AskedFully(n: Net, m: Net, a: Fd, b: Fd) {
    && m.pc == n.pc[a := Ready]
    && exists t :: Changed(n.t, t, a, Marked(b)) && Changed(t, m.t, a, Tied(b))
  }

  lemma ToldSits(n: Net, m: Net, a: Fd, b: Fd, p: Pc)
    requires Sits(n, a, p, Free, INVALID_FD) && Sits(n, b, Ready, Free, INVALID_FD) && a != b
    requires AskedFully(n, m, a, b)
    ensures Sits(m, a, Ready, Free, b) && Sits(m, b, Ready, ReqPending, a) && Others(n, m, a, b)
  {
    var t :| Changed(n.t, t, a, Marked(b)) && Changed(t, m.t, a, Tied(b));
    AskedSits(n, t, m, a, b, p, INVALID_FD);
  }

  /** An idle client begins to ask `b`. */
  lemma ThenBegins(ds: seq<Deed>, s: Crowd, c: Fd, b: Fd) returns (ds': seq<Deed>, s': Crowd)
    requires Comes(ds, s) && FirstNames(s.n.t) && c in s.cl && s.cl[c] == Peer(START, []) && c != b
    requires Sits(s.n, c, Ready, Free, INVALID_FD) && Sits(s.n, b, Ready, Free, INVALID_FD)
    ensures Comes(ds', s') && s'.cl == s.cl
    ensures s'.n == s.n.(pc := s.n.pc[c := Mark(TempName(b), TempName(c))])
  {
    Keys(ds, s);
    var raw := AsksFor(b);
    ConnectMarks(s.n.t, c, b);
    ds', s' := ThenTypes(ds, s, c, raw, START, Connect(TempName(b)));
    assert s.cl[c := Peer(START, [])] == s.cl;
  }

  lemma ThenMarks(ds: seq<Deed>, s: Crowd, a: Fd, b: Fd) returns (ds': seq<Deed>, s': Crowd)
    requires Comes(ds, s) && FirstNames(s.n.t) && a in s.n.pc && s.n.pc[a] == Mark(TempName(b), TempName(a))
    requires b in s.n.t.at && s.n.t.at[b].status == Free
    ensures Comes(ds', s') && FirstNames(s'.n.t)
    ensures s'.n.pc == s.n.pc[a := Link(b, TempName(a), TempName(b))] && Changed(s.n.t, s'.n.t, a, Marked(b))
  {
    Keys(ds, s);
    MarkMarks(s.n.t, a, b, TempName(a));
    MarksFree(s.n.t, s.n.pc, a, b, TempName(a));
    ds', s' := ThenResumes(ds, s, a);
  }

  lemma ThenLinks(ds: seq<Deed>, s: Crowd, a: Fd, b: Fd) returns (ds': seq<Deed>, s': Crowd)
    requires Comes(ds, s) && FirstNames(s.n.t) && a != b && a in s.n.pc && b in s.n.t.at && b in s.n.pc
    requires s.n.pc[a] == Link(b, TempName(a), TempName(b)) && s.n.pc[b] == Ready && s.n.t.at[b].status == ReqPending
    ensures Comes(ds', s') && FirstNames(s'.n.t)
    ensures s'.n.pc == s.n.pc[a := Ready] && Changed(s.n.t, s'.n.t, a, Tied(b))
  {
    Keys(ds, s);
    LinkLinks(s.n.t, a, b, TempName(a), TempName(b));
    ds', s' := ThenResumes(ds, s, a);
  }

  /** And goes on to the end: `b` is pending and told. */
  lemma ThenTells(ds: seq<Deed>, s: Crowd, a: Fd, b: Fd) returns (ds': seq<Deed>, s': Crowd)
    requires Comes(ds, s) && FirstNames(s.n.t) && a != b
    requires a in s.n.pc && s.n.pc[a] == Mark(TempName(b), TempName(a))
    requires b in s.n.t.at && s.n.t.at[b].status == Free && b in s.n.pc && s.n.pc[b] == Ready
    ensures Comes(ds', s') && FirstNames(s'.n.t) && AskedFully(s.n, s'.n, a, b)
  {
    var d1, s1 := ThenMarks(ds, s, a, b);
    assert b in s1.n.t.at.Keys && s1.n.pc[b] == Ready;
    ds', s' := ThenLinks(d1, s1, a, b);
    assert s'.n.pc == s.n.pc[a := Ready];
  }

  predicate NoLinks(n: Net) {
    forall f :: f in n.pc ==> !n.pc[f].Link?
  }

  lemma NowReady(n: Net, n': Net, a: Fd)
    requires NoLinks(n) && n'.pc == n.pc[a := Ready]
    ensures NoLinks(n')
  {
  }

  lemma NobodyMarks(s: Crowd, b: Fd, to: Fd)
    requires InStep(s) && Sits(s.n, b, Ready, ReqPending, to) && NoLinks(s.n)
    ensures b in s.cl && Pending(s.cl[b]).req && !Pending(s.cl[b]).busy
  {
    assert b in AbsClients(s.cl) && OwedAt(s.n.t, s.n.pc, AbsClients(s.cl), b);
  }

  /** `b` reads the request and says yes. */
  lemma ThenAccepts(ds: seq<Deed>, s: Crowd, a: Fd, b: Fd) returns (ds': seq<Deed>, s': Crowd)
    requires Comes(ds, s) && FirstNames(s.n.t) && NoLinks(s.n)
    requires Sits(s.n, a, Ready, Free, b) && Sits(s.n, b, Ready, ReqPending, a)
    ensures Comes(ds', s') && s'.n == s.n.(pc := s.n.pc[b := Commit(a)])
  {
    Keys(ds, s);
    ComesInStep(ds, s);
    NobodyMarks(s, b, a);
    var d0, s0 := ThenHears(ds, s, b);
    var c := s0.cl[b].flags;
    Scenarios.AskedTypes(c);
    AcceptCommits(s.n.t, b, a);
    AcceptInStep(s.n.t, b, a, c.(req := false));
    ds', s' := ThenTypes(d0, s0, b, "yes\n", c.(req := false), Accept);
  }

  lemma ThenCouples(ds: seq<Deed>, s: Crowd, a: Fd, b: Fd) returns (ds': seq<Deed>, s': Crowd)
    requires Comes(ds, s) && FirstNames(s.n.t) && NoLinks(s.n) && a != b
    requires Sits(s.n, a, Ready, Free, b) && Sits(s.n, b, Ready, ReqPending, a)
    ensures Comes(ds', s') && FirstNames(s'.n.t)
    ensures s'.n.pc == s.n.pc && Changed(s.n.t, s'.n.t, b, Coupled(a, true))
  {
    var d1, s1 := ThenAccepts(ds, s, a, b);
    Keys(d1, s1);
    CommitCouples(s1.n.t, b, a);
    CommitIsTold(s1.n.t, s1.n.pc, b, a);
    ds', s' := ThenResumes(d1, s1, b);
    assert s'.n.pc == s.n.pc;
  }

  /** C begins to ask B, and so does A. */
  lemma TwoBegin(a: Fd, b: Fd, c: Fd) returns (ds: seq<Deed>, s: Crowd)
    requires Three(a, b, c)
    ensures Comes(ds, s) && FirstNames(s.n.t) && NoLinks(s.n) && Sits(s.n, b, Ready, Free, INVALID_FD)
    ensures Sits(s.n, a, Mark(TempName(b), TempName(a)), Free, INVALID_FD)
    ensures Sits(s.n, c, Mark(TempName(b), TempName(c)), Free, INVALID_FD)
  {
    var d0, s0 := AllJoin(a, b, c);
    var d1, s1 := ThenBegins(d0, s0, c, b);
    ds, s := ThenBegins(d1, s1, a, b);
  }

  lemma AllJoin(a: Fd, b: Fd, c: Fd) returns (ds: seq<Deed>, s: Crowd)
    requires Three(a, b, c)
    ensures Comes(ds, s) && FirstNames(s.n.t) && NoLinks(s.n) && s.cl.Keys == {a, b, c} && JustJoined(s.cl)
    ensures Sits(s.n, a, Ready, Free, INVALID_FD) && Sits(s.n, b, Ready, Free, INVALID_FD)
    ensures Sits(s.n, c, Ready, Free, INVALID_FD)
  {
    var acts, n := ThreeEnter(a, b, c);
    ds, s := AfterAdmission(acts);
    Keys(ds, s);
    forall f | f in s.n.pc ensures s.n.pc[f] == Ready {
      assert f in {a, b, c};
    }
  }

  /** A goes on, and B reads its request and accepts. */
  lemma MarkWaits(a: Fd, b: Fd, c: Fd) returns (ds: seq<Deed>, s: Crowd)
    requires Three(a, b, c)
    ensures Comes(ds, s) && FirstNames(s.n.t)
    ensures Sits(s.n, a, Ready, Busy, b) && Sits(s.n, b, Ready, Busy, a)
    ensures Sits(s.n, c, Mark(TempName(b), TempName(c)), Free, INVALID_FD)
  {
    var d2, s2 := TwoBegin(a, b, c);
    var d3, s3 := ThenTells(d2, s2, a, b);
    ToldSits(s2.n, s3.n, a, b, Mark(TempName(b), TempName(a)));
    NowReady(s2.n, s3.n, a);
    ds, s := ThenCouples(d3, s3, a, b);
    CoupledSits(s3.n, s.n, b, a);
  }

  /** Threads alone put flags and statuses out of step.  All users type on
      drained inboxes and nothing falls out of step until C, who began to ask B
      when B was free, goes on while B is in a chat with A: the section marks B
      pending, and B, once it has read everything, still believes itself in the
      chat and knows of no request. */
  lemma OvertakenAsk(a: Fd, b: Fd, c: Fd) returns (ds: seq<Deed>)
    requires Three(a, b, c)
    ensures var d := Turn(Resume(c));
            && IsCourse(NOBODY, ds) && PromptCourse(NOBODY, ds) && SmoothCourse(NOBODY, ds)
            && Can(Outcome(NOBODY, ds), d) && FallsOut(Outcome(NOBODY, ds), d)
            && IsCourse(NOBODY, ds + [d])
            && var s := Outcome(NOBODY, ds + [d]);
               && !InStep(s) && StatusByFd(s.n.t, b) == ReqPending && b in s.cl
               && Pending(s.cl[b]).busy && !Pending(s.cl[b]).req
  {
    var s;
    ds, s := MarkWaits(a, b, c);
    Keys(ds, s);
    MarkMarks(s.n.t, c, b, TempName(c));
    FindTemp(s.n.t, b);
    ComesInStep(ds, s);
    CoursesCompose(NOBODY, ds, Turn(Resume(c)));
    StepInStep(s, Turn(Resume(c)));
    StaysBusyThere(s, b);
    assert b in Next(s.n.t, c, s.n.pc[c]).t.at.Keys;
  }

  lemma StaysBusyThere(s: Crowd, b: Fd)
    requires InStep(s) && b in s.n.t.at && Sits(s.n, b, Ready, Busy, s.n.t.at[b].toFd)
    ensures b in s.cl && Pending(s.cl[b]).busy && !Pending(s.cl[b]).req
  {
    assert b in AbsClients(s.cl) && OwedAt(s.n.t, s.n.pc, AbsClients(s.cl), b);
  }
}

/** Runs of critical sections in which a thread is overtaken between two of its
    own, with results that no order of whole handlers has. */
module Overtaken {
  import opened Common
  import opened Names
  import opened Table
  import opened Handlers
  import opened Changes
  import opened Pairing
  import opened Sections
  import opened Interleaved
  import opened UniqueNames

  /** Every client goes by the name made at its registration. */
  ghost predicate FirstNames(t: Table) {
    forall f :: f in t.at ==> t.at[f].name == TempName(f)
  }

  ghost predicate Live(n: Net) {
    !n.stuck && FirstNames(n.t)
  }

  /** A thread waits for a request, or is at the given place; its client stands so. */
  predicate Sits(n: Net, f: Fd, p: Pc, s: Status, to: Fd) {
    f in n.pc && n.pc[f] == p && f in n.t.at && n.t.at[f].status == s && n.t.at[f].toFd == to
  }

  /** The threads and clients other than `f` and `g` are as they were. */
  ghost predicate Others(n: Net, m: Net, f: Fd, g: Fd) {
    forall h, p, s, to :: Sits(n, h, p, s, to) && h != f && h != g ==> Sits(m, h, p, s, to)
  }

  ghost predicate Path(acts: seq<Action>, n: Net) {
    IsRun(INIT, acts) && After(INIT, acts) == n
  }

  lemma Onward(acts: seq<Action>, n: Net, act: Action)
    requires Path(acts, n) && May(n, act)
    ensures Path(acts + [act], Do(n, act))
  {
    assert [act][1..] == [];
    RunsCompose(INIT, acts, [act]);
  }

  lemma PathHolds(acts: seq<Action>, n: Net)
    requires Path(acts, n)
    ensures Wf(n.t) && n.pc.Keys == n.t.at.Keys
  {
    SafeAfter(INIT, acts);
  }

  // ---- admission ----

  /** The accept loop waits, and every thread has registered. */
  ghost predicate Settled(n: Net) {
    Live(n) && Safe(n) && n.acceptor.Idle? && n.spawned == {} && n.open == n.t.at.Keys && |n.t.order| < 4
  }

  predicate Admits(act: Action) {
    act.Accepted? || act.ReadCount? || act.Decide? || act.Enter?
  }

  lemma ThenAccepted(acts: seq<Action>, n: Net, fd: Fd) returns (acts': seq<Action>, m: Net)
    requires Path(acts, n) && Settled(n) && ValidFd(fd) && fd !in n.t.at
    ensures Path(acts', m) && m == n.(spawned := {fd}, open := n.open + {fd})
    ensures forall act :: act in acts' ==> act in acts || Admits(act)
  {
    var n1 := n.(open := n.open + {fd}, acceptor := Got(fd));
    Onward(acts, n, Accepted(fd));
    Onward(acts + [Accepted(fd)], n1, ReadCount);
    var n2 := n1.(acceptor := Counted(fd, n.count));
    Onward(acts + [Accepted(fd)] + [ReadCount], n2, Decide);
    acts', m := acts + [Accepted(fd)] + [ReadCount] + [Decide], Do(n2, Decide);
  }

  lemma ThenEnters(acts: seq<Action>, n: Net, fd: Fd) returns (acts': seq<Action>, m: Net)
    requires Path(acts, n) && Settled(n) && |n.t.order| < 3 && ValidFd(fd) && fd !in n.t.at
    ensures Path(acts', m) && Settled(m) && m.t.at.Keys == n.t.at.Keys + {fd} && |m.t.order| == |n.t.order| + 1
    ensures Sits(m, fd, Ready, Free, INVALID_FD) && Others(n, m, fd, fd)
    ensures forall act :: act in acts' ==> act in acts || Admits(act)
  {
    var a1, n1 := ThenAccepted(acts, n, fd);
    Onward(a1, n1, Enter(fd));
    acts', m := a1 + [Enter(fd)], Do(n1, Enter(fd));
    SafeAfter(INIT, acts');
  }

  // ---- sections and what they leave ----

  lemma NamesStay(t: Table, t': Table, fd: Fd, ch: Change)
    requires FirstNames(t) && Changed(t, t', fd, ch) && !ch.Renamed?
    ensures FirstNames(t') && t'.at.Keys == t.at.Keys
  {
    ChangeKeepsNames(t, t', fd, ch);
  }

  lemma ConnectMarks(t: Table, c: Fd, b: Fd)
    requires Wf(t) && FirstNames(t) && c in t.at && b in t.at && c != b && t.at[b].status == Free
    ensures First(t, c, Connect(TempName(b))) == Section(t, Mark(TempName(b), TempName(c)), [], false)
  {
    FindTemp(t, b);
    ConnectTarget(t, TempName(b));
    assert c in t.order && INVALID_FD !in t.at;
  }

  lemma MarkMarks(t: Table, a: Fd, b: Fd, me: string)
    requires Wf(t) && FirstNames(t) && b in t.at
    ensures var x := Next(t, a, Mark(TempName(b), me));
            x.pc == Link(b, me, TempName(b)) && Changed(t, x.t, a, Marked(b)) && FirstNames(x.t) && x.sends == []
  {
    FindTemp(t, b);
    assert INVALID_FD !in t.at;
    NextChanges(t, a, Mark(TempName(b), me));
    NamesStay(t, Next(t, a, Mark(TempName(b), me)).t, a, Marked(b));
  }

  lemma LinkLinks(t: Table, a: Fd, b: Fd, me: string, name: string)
    requires Wf(t) && FirstNames(t) && a != b
    ensures var x := Next(t, a, Link(b, me, name));
            x.pc == Ready && Changed(t, x.t, a, Tied(b)) && FirstNames(x.t)
  {
    NextChanges(t, a, Link(b, me, name));
    NamesStay(t, Next(t, a, Link(b, me, name)).t, a, Tied(b));
  }

  lemma AcceptCommits(t: Table, b: Fd, a: Fd)
    requires Wf(t) && FirstNames(t) && a in t.at && b in t.at && t.at[b].status == ReqPending && t.at[b].toFd == a
    requires t.at[a].status == Free
    ensures First(t, b, Accept) == Section(t, Commit(a), [], false)
  {
    TempNameFits(a);
    assert a != INVALID_FD;
  }

  lemma CommitCouples(t: Table, b: Fd, a: Fd)
    requires Wf(t) && FirstNames(t) && a != b
    ensures var x := Next(t, b, Commit(a)); x.pc == Ready && Changed(t, x.t, b, Coupled(a, true)) && FirstNames(x.t)
  {
    NextChanges(t, b, Commit(a));
    NamesStay(t, Next(t, b, Commit(a)).t, b, Coupled(a, true));
  }

  lemma CutParts(t: Table, b: Fd, a: Fd)
    requires Wf(t) && FirstNames(t) && a != b
    ensures var x := Next(t, b, Cut(a)); x.pc == Ready && Changed(t, x.t, b, Parted(a)) && FirstNames(x.t)
  {
    NextChanges(t, b, Cut(a));
    NamesStay(t, Next(t, b, Cut(a)).t, b, Parted(a));
  }

  // ---- sections as steps of a run ----

  lemma AskBegins(acts: seq<Action>, n: Net, c: Fd, b: Fd) returns (acts': seq<Action>, m: Net)
    requires Path(acts, n) && Live(n) && c in n.t.at && c in n.pc && n.pc[c] == Ready && c != b
    requires b in n.t.at && n.t.at[b].status == Free
    ensures Path(acts', m) && Live(m) && m == n.(pc := n.pc[c := Mark(TempName(b), TempName(c))])
  {
    PathHolds(acts, n);
    var act := Begin(c, Connect(TempName(b)));
    ConnectMarks(n.t, c, b);
    Onward(acts, n, act);
    acts', m := acts + [act], Do(n, act);
  }

  lemma MarkRuns(acts: seq<Action>, n: Net, c: Fd, b: Fd, me: string) returns (acts': seq<Action>, m: Net)
    requires Path(acts, n) && Live(n) && c in n.pc && n.pc[c] == Mark(TempName(b), me) && b in n.t.at
    ensures acts' == acts + [Resume(c)] && Path(acts', m) && Live(m)
    ensures m.pc == n.pc[c := Link(b, me, TempName(b))] && Changed(n.t, m.t, c, Marked(b))
  {
    PathHolds(acts, n);
    MarkMarks(n.t, c, b, me);
    Onward(acts, n, Resume(c));
    acts', m := acts + [Resume(c)], Do(n, Resume(c));
  }

  lemma LinkRuns(acts: seq<Action>, n: Net, c: Fd, b: Fd, me: string) returns (acts': seq<Action>, m: Net)
    requires Path(acts, n) && Live(n) && c in n.pc && n.pc[c] == Link(b, me, TempName(b)) && c != b
    ensures Path(acts', m) && Live(m) && m.pc == n.pc[c := Ready] && Changed(n.t, m.t, c, Tied(b))
  {
    PathHolds(acts, n);
    LinkLinks(n.t, c, b, me, TempName(b));
    Onward(acts, n, Resume(c));
    acts', m := acts + [Resume(c)], Do(n, Resume(c));
  }

  lemma AskedSits(n: Net, t1: Table, m: Net, c: Fd, b: Fd, p: Pc, to: Fd)
    requires Sits(n, c, p, Free, to) && b in n.pc && n.pc[b] == Ready && b in n.t.at && c != b
    requires Changed(n.t, t1, c, Marked(b)) && Changed(t1, m.t, c, Tied(b)) && m.pc == n.pc[c := Ready]
    ensures Sits(m, c, Ready, Free, b) && Sits(m, b, Ready, ReqPending, c) && Others(n, m, c, b)
  {
    forall f | f in n.t.at ensures f in t1.at && f in m.t.at {
      assert f in t1.at.Keys && f in m.t.at.Keys;
    }
  }

  lemma AskMarks(acts: seq<Action>, n: Net, c: Fd, b: Fd) returns (acts': seq<Action>, m: Net)
    requires Path(acts, n) && Live(n) && c in n.t.at && c in n.pc && n.pc[c] == Ready && c != b
    requires b in n.t.at && n.t.at[b].status == Free
    ensures Path(acts', m) && Live(m) && Changed(n.t, m.t, c, Marked(b))
    ensures m.pc == n.pc[c := Link(b, TempName(c), TempName(b))]
  {
    var a1, n1 := AskBegins(acts, n, c, b);
    acts', m := MarkRuns(a1, n1, c, b, TempName(c));
    assert m.pc == n.pc[c := Link(b, TempName(c), TempName(b))];
  }

  /** `c` asks `b`, in three sections. */
  lemma ThenAsks(acts: seq<Action>, n: Net, c: Fd, b: Fd, to: Fd) returns (acts': seq<Action>, m: Net)
    requires Path(acts, n) && Live(n) && Sits(n, c, Ready, Free, to) && Sits(n, b, Ready, Free, INVALID_FD) && c != b
    ensures Path(acts', m) && Live(m) && m.t.at.Keys == n.t.at.Keys
    ensures Sits(m, c, Ready, Free, b) && Sits(m, b, Ready, ReqPending, c) && Others(n, m, c, b)
  {
    var a1, n1 := AskMarks(acts, n, c, b);
    acts', m := LinkRuns(a1, n1, c, b, TempName(c));
    assert m.pc == n.pc;
    AskedSits(n, n1.t, m, c, b, Ready, to);
  }

  lemma AcceptBegins(acts: seq<Action>, n: Net, b: Fd, a: Fd, to: Fd) returns (acts': seq<Action>, m: Net)
    requires Path(acts, n) && Live(n) && Sits(n, b, Ready, ReqPending, a) && Sits(n, a, Ready, Free, to)
    ensures Path(acts', m) && Live(m) && m == n.(pc := n.pc[b := Commit(a)])
  {
    PathHolds(acts, n);
    AcceptCommits(n.t, b, a);
    Onward(acts, n, Begin(b, Accept));
    acts', m := acts + [Begin(b, Accept)], Do(n, Begin(b, Accept));
  }

  lemma CommitRuns(acts: seq<Action>, n: Net, b: Fd, a: Fd) returns (acts': seq<Action>, m: Net)
    requires Path(acts, n) && Live(n) && b in n.pc && n.pc[b] == Commit(a) && b != a
    ensures Path(acts', m) && Live(m) && m.pc == n.pc[b := Ready] && Changed(n.t, m.t, b, Coupled(a, true))
  {
    PathHolds(acts, n);
    CommitCouples(n.t, b, a);
    Onward(acts, n, Resume(b));
    acts', m := acts + [Resume(b)], Do(n, Resume(b));
  }

  lemma CoupledSits(n: Net, m: Net, b: Fd, a: Fd)
    requires a in n.pc && n.pc[a] == Ready && b in n.pc && n.pc[b] == Ready && a in n.t.at && b in n.t.at && a != b
    requires Changed(n.t, m.t, b, Coupled(a, true)) && m.pc == n.pc
    ensures Sits(m, a, Ready, Busy, b) && Sits(m, b, Ready, Busy, a) && Others(n, m, a, b)
  {
    forall f | f in n.t.at ensures f in m.t.at {
      assert f in m.t.at.Keys;
    }
    assert a in n.t.at.Keys && b in n.t.at.Keys;
  }

  /** `b` says yes to `a`, in two sections. */
  lemma ThenSaysYes(acts: seq<Action>, n: Net, b: Fd, a: Fd, to: Fd) returns (acts': seq<Action>, m: Net)
    requires Path(acts, n) && Live(n) && Sits(n, b, Ready, ReqPending, a) && Sits(n, a, Ready, Free, to) && a != b
    ensures Path(acts', m) && Live(m) && m.t.at.Keys == n.t.at.Keys
    ensures Sits(m, a, Ready, Busy, b) && Sits(m, b, Ready, Busy, a) && Others(n, m, a, b)
  {
    var a1, n1 := AcceptBegins(acts, n, b, a, to);
    acts', m := CommitRuns(a1, n1, b, a);
    assert m.pc == n.pc;
    CoupledSits(n, m, b, a);
  }

  lemma HangUpBegins(acts: seq<Action>, n: Net, a: Fd, b: Fd) returns (acts': seq<Action>, m: Net)
    requires Path(acts, n) && Live(n) && Sits(n, a, Ready, Busy, b) && b in n.t.at
    ensures Path(acts', m) && Live(m) && m == n.(pc := n.pc[a := Cut(b)])
  {
    PathHolds(acts, n);
    var act := Begin(a, Tx(DISCONNECT_CMD));
    assert b != INVALID_FD;
    Onward(acts, n, act);
    acts', m := acts + [act], Do(n, act);
  }

  lemma CutRuns(acts: seq<Action>, n: Net, b: Fd, a: Fd) returns (acts': seq<Action>, m: Net)
    requires Path(acts, n) && Live(n) && b in n.pc && n.pc[b] == Cut(a) && a != b
    ensures Path(acts', m) && Live(m) && m.pc == n.pc[b := Ready] && Changed(n.t, m.t, b, Parted(a))
    ensures acts' == acts + [Resume(b)]
  {
    PathHolds(acts, n);
    CutParts(n.t, b, a);
    Onward(acts, n, Resume(b));
    acts', m := acts + [Resume(b)], Do(n, Resume(b));
  }

  lemma PartedSits(n: Net, m: Net, a: Fd, b: Fd)
    requires a in n.pc && b in n.pc && a in n.t.at && b in n.t.at && a != b
    requires Changed(n.t, m.t, b, Parted(a)) && m.pc == n.pc[a := Cut(b)][b := Ready]
    ensures Sits(m, a, Cut(b), Free, INVALID_FD) && Sits(m, b, Ready, Free, INVALID_FD) && Others(n, m, a, b)
  {
    forall f | f in n.t.at ensures f in m.t.at {
      assert f in m.t.at.Keys;
    }
    assert a in n.t.at.Keys && b in n.t.at.Keys;
  }

  /** Two partners hang up at the same time; the section of `b` runs, that of
      `a` does not yet. */
  lemma ThenBothHangUp(acts: seq<Action>, n: Net, a: Fd, b: Fd) returns (acts': seq<Action>, m: Net)
    requires Path(acts, n) && Live(n) && Sits(n, a, Ready, Busy, b) && Sits(n, b, Ready, Busy, a) && a != b
    ensures Path(acts', m) && Live(m)
    ensures Sits(m, a, Cut(b), Free, INVALID_FD) && Sits(m, b, Ready, Free, INVALID_FD) && Others(n, m, a, b)
  {
    var a1, n1 := HangUpBegins(acts, n, a, b);
    var a2, n2 := HangUpBegins(a1, n1, b, a);
    acts', m := CutRuns(a2, n2, b, a);
    assert m.pc == n.pc[a := Cut(b)][b := Ready];
    PartedSits(n, m, a, b);
  }

  /** A client without a link accepts. */
  lemma LinklessAccept(acts: seq<Action>, n: Net, b: Fd)
    requires Path(acts, n) && Live(n) && b in n.pc && n.pc[b] == Ready && ConnFd(n.t, b) == INVALID_FD
    ensures IsRun(INIT, acts + [Begin(b, Accept)]) && After(INIT, acts + [Begin(b, Accept)]).stuck
  {
    PathHolds(acts, n);
    Onward(acts, n, Begin(b, Accept));
    StuckStep(n, Begin(b, Accept));
  }

  // ---- the runs ----

  lemma ThreeEnter(a: Fd, b: Fd, c: Fd) returns (acts: seq<Action>, n: Net)
    requires Three(a, b, c)
    ensures Path(acts, n) && Live(n) && n.t.at.Keys == {a, b, c}
    ensures Sits(n, a, Ready, Free, INVALID_FD) && Sits(n, b, Ready, Free, INVALID_FD)
    ensures Sits(n, c, Ready, Free, INVALID_FD) && forall act :: act in acts ==> Admits(act)
  {
    var a1, n1 := ThenEnters([], INIT, a);
    assert n1.t.at.Keys == {a};
    var a2, n2 := ThenEnters(a1, n1, b);
    assert n2.t.at.Keys == {a, b};
    acts, n := ThenEnters(a2, n2, c);
  }

  /** A and B are partners, and both hang up; C asks B. */
  lemma AskedMeanwhile(a: Fd, b: Fd, c: Fd) returns (acts: seq<Action>, n: Net)
    requires Three(a, b, c)
    ensures Path(acts, n) && Live(n) && Sits(n, a, Cut(b), Free, INVALID_FD) && Sits(n, b, Ready, ReqPending, c)
  {
    var a0, n0 := ThreeEnter(a, b, c);
    var a1, n1 := ThenAsks(a0, n0, a, b, INVALID_FD);
    var a2, n2 := ThenSaysYes(a1, n1, b, a, b);
    var a3, n3 := ThenBothHangUp(a2, n2, a, b);
    acts, n := ThenAsks(a3, n3, c, b, INVALID_FD);
  }

  /** The mutex can be lost although the client that accepts was asked, is
      pending and linked to the one that asked, and has not answered.  A and B
      are partners and type "disconnect" at the same time; B's section runs; C
      asks B; A's section runs, which clears the link of B; and B's "yes" finds
      no link. */
  lemma OvertakenAnswer(a: Fd, b: Fd, c: Fd) returns (asked: seq<Action>)
    requires Three(a, b, c)
    ensures IsRun(INIT, asked) && Sits(After(INIT, asked), b, Ready, ReqPending, c)
    ensures IsRun(INIT, asked + [Resume(a)] + [Begin(b, Accept)])
    ensures After(INIT, asked + [Resume(a)] + [Begin(b, Accept)]).stuck
  {
    var n;
    asked, n := AskedMeanwhile(a, b, c);
    var acts, m := CutRuns(asked, n, a, b);
    assert b in m.t.at.Keys;
    LinklessAccept(acts, m, b);
  }

  lemma PairAmongThree(t: Table, a: Fd, b: Fd, c: Fd)
    requires t.at.Keys == {a, b, c} && a != b
    requires t.at[a].status == Busy && t.at[a].toFd == b && t.at[b].status == Busy && t.at[b].toFd == a
    requires t.at[c].status == Free
    ensures Paired(t)
  {
    forall f | f in t.at && t.at[f].status == Busy ensures HasPartner(t, f) {
      assert f in t.at.Keys;
    }
  }

  /** C begins to ask B, who is free; before it marks B, A asks B and B accepts. */
  lemma CoupledMeanwhile(a: Fd, b: Fd, c: Fd) returns (acts: seq<Action>, n: Net)
    requires Three(a, b, c)
    ensures Path(acts, n) && Live(n) && n.t.at.Keys == {a, b, c} && Paired(n.t)
    ensures Sits(n, a, Ready, Busy, b) && Sits(n, b, Ready, Busy, a)
    ensures Sits(n, c, Mark(TempName(b), TempName(c)), Free, INVALID_FD)
  {
    var a0, n0 := ThreeEnter(a, b, c);
    var a1, n1 := AskBegins(a0, n0, c, b);
    assert Sits(n1, c, Mark(TempName(b), TempName(c)), Free, INVALID_FD);
    var a2, n2 := ThenAsks(a1, n1, a, b, INVALID_FD);
    acts, n := ThenSaysYes(a2, n2, b, a, b);
    PairAmongThree(n.t, a, b, c);
  }

  /** A busy client is marked pending.  C begins to ask B, who is free then;
      before its next section A asks B and B accepts; and C's section marks B,
      which is now in a chat with A.  Of C, which is free, no request handled as
      a whole could break that pair. */
  lemma BusyIsMarked(a: Fd, b: Fd, c: Fd) returns (acts: seq<Action>)
    requires Three(a, b, c)
    ensures IsRun(INIT, acts) && IsRun(INIT, acts + [Resume(c)])
    ensures var n := After(INIT, acts);
            && Paired(n.t) && Sits(n, a, Ready, Busy, b) && Sits(n, b, Ready, Busy, a)
            && forall r :: !Breaks(n.t, Receive(c, r))
    ensures var n := After(INIT, acts + [Resume(c)]);
            && Sits(n, a, Ready, Busy, b) && Sits(n, b, Ready, ReqPending, a) && !Paired(n.t)
  {
    var n;
    acts, n := CoupledMeanwhile(a, b, c);
    var a1, m := MarkRuns(acts, n, c, b, TempName(c));
    MarkBreaks(n, m, a, b, c);
  }

  lemma MarkBreaks(n: Net, m: Net, a: Fd, b: Fd, c: Fd)
    requires Sits(n, a, Ready, Busy, b) && Sits(n, b, Ready, Busy, a) && a != b && c != a && c != b
    requires Changed(n.t, m.t, c, Marked(b)) && c in m.pc && m.pc == n.pc[c := m.pc[c]]
    ensures Sits(m, a, Ready, Busy, b) && Sits(m, b, Ready, ReqPending, a) && !Paired(m.t)
  {
    assert a in m.t.at.Keys && b in m.t.at.Keys;
    assert !HasPartner(m.t, a);
  }

  lemma AskerHangsUp(acts: seq<Action>, n: Net, a: Fd, b: Fd) returns (acts': seq<Action>, m: Net)
    requires Path(acts, n) && Live(n) && Sits(n, a, Ready, Free, b) && Sits(n, b, Commit(a), ReqPending, a) && a != b
    ensures acts' == acts + [Hangup(a)] && Path(acts', m) && Live(m)
    ensures Sits(m, b, Commit(a), Free, a) && m.t.at.Keys == n.t.at.Keys - {a} && Others(n, m, a, b)
  {
    PathHolds(acts, n);
    Onward(acts, n, Hangup(a));
    acts', m := acts + [Hangup(a)], Do(n, Hangup(a));
    CloseShape(n.t, a);
    assert b in m.t.at.Keys;
    forall h, p, s, to | Sits(n, h, p, s, to) && h != a && h != b ensures Sits(m, h, p, s, to) {
      assert h in m.t.at.Keys;
    }
    forall f | f in m.t.at ensures m.t.at[f].name == TempName(f) {
      assert f in n.t.at.Keys - {a};
    }
  }

  lemma CommitsToNobody(t: Table, b: Fd, a: Fd)
    requires Wf(t) && b in t.at && a !in t.at
    ensures var x := Next(t, b, Commit(a));
            x.sends == [] && x.t.at.Keys == t.at.Keys && IsBusy(x.t, b) && ConnFd(x.t, b) == a && !Paired(x.t)
  {
    NextChanges(t, b, Commit(a));
    var x := Next(t, b, Commit(a));
    assert b in x.t.at.Keys && a !in x.t.at.Keys;
    assert !HasPartner(x.t, b);
  }

  /** A client is in a chat with nobody.  A asks B, who says yes; before the
      section that links them A closes, which frees B; and that section makes B
      busy with the descriptor A had, and tells nobody.  No request of B handled
      as a whole could do that. */
  lemma BusyWithNobody(a: Fd, b: Fd, c: Fd) returns (acts: seq<Action>)
    requires Three(a, b, c)
    ensures IsRun(INIT, acts) && IsRun(INIT, acts + [Resume(b)])
    ensures var n := After(INIT, acts);
            && Sits(n, b, Commit(a), Free, a) && a !in n.t.at && Paired(n.t)
            && Next(n.t, b, Commit(a)).sends == [] && forall r :: !Breaks(n.t, Receive(b, r))
    ensures var n := After(INIT, acts + [Resume(b)]);
            Sits(n, b, Ready, Busy, a) && a !in n.t.at && !Paired(n.t)
  {
    var a0, n0 := ThreeEnter(a, b, c);
    var a1, n1 := ThenAsks(a0, n0, a, b, INVALID_FD);
    var a2, n2 := AcceptBegins(a1, n1, b, a, b);
    assert Sits(n2, c, Ready, Free, INVALID_FD);
    var n;
    acts, n := AskerHangsUp(a2, n2, a, b);
    NobodyIsBusy(n.t, b, c);
    Onward(acts, n, Resume(b));
    PathHolds(acts, n);
    CommitsToNobody(n.t, b, a);
  }

  lemma NobodyIsBusy(t: Table, b: Fd, c: Fd)
    requires t.at.Keys == {b, c} && t.at[b].status == Free && t.at[c].status == Free
    ensures Paired(t)
  {
    forall f | f in t.at ensures t.at[f].status != Busy {
      assert f in t.at.Keys;
    }
  }
}

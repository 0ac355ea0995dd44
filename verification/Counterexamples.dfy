/** Runs that show why the theorems carry the conditions they do. */
module Counterexamples {
  import opened Common
  import opened Names
  import opened Table
  import opened Commands
  import opened Client
  import opened Handlers
  import opened Changes
  import opened Composed
  import opened ViewAgreement
  import opened Reachable
  import opened Pairing
  import opened Sessions
  import opened Routing
  import opened PeerNames
  import opened Requests
  import opened Realise
  import opened UniqueNames
  import opened Scenarios

  // ---- a broken pair ----

  lemma TwoJoin(a: Fd, b: Fd) returns (evs: seq<Event>, s: View)
    requires ValidFd(a) && ValidFd(b) && a != b
    ensures Reached(evs, s) && Fresh(s) && s.t.at.Keys == {a, b} && |s.t.order| == 2
    ensures Stands(s, a, Free, INVALID_FD) && Stands(s, b, Free, INVALID_FD)
    ensures forall e :: e in evs ==> e.Join?
  {
    var e1, s1 := ThenJoins([], Abs(INIT), a);
    assert s1.t.at.Keys == {a};
    evs, s := ThenJoins(e1, s1, b);
  }

  lemma ThreeJoin(a: Fd, b: Fd, c: Fd) returns (evs: seq<Event>, s: View)
    requires Three(a, b, c)
    ensures Reached(evs, s) && Fresh(s) && s.t.at.Keys == {a, b, c} && |s.t.order| == 3
    ensures Stands(s, a, Free, INVALID_FD) && Stands(s, b, Free, INVALID_FD) && Stands(s, c, Free, INVALID_FD)
    ensures forall e :: e in evs ==> e.Join?
  {
    var e2, s2 := TwoJoin(a, b);
    evs, s := ThenJoins(e2, s2, c);
  }

  /** A asks B and B declines; C asks B and B accepts. */
  lemma AskedTwice(a: Fd, b: Fd, c: Fd) returns (evs: seq<Event>, s: View)
    requires Three(a, b, c)
    ensures Reached(evs, s) && Fresh(s) && s.t.at.Keys == {a, b, c} && |s.t.order| == 3
    ensures Stands(s, a, Free, b) && Stands(s, b, Busy, c) && Stands(s, c, Busy, b)
  {
    var e0, s0 := ThreeJoin(a, b, c);
    var e1, s1 := ThenAsks(e0, s0, a, b);
    var e2, s2 := ThenSaysNo(e1, s1, b, a);
    var e3, s3 := ThenAsks(e2, s2, c, b);
    evs, s := ThenSaysYes(e3, s3, b, c);
  }

  /** Then A closes.  The close finds A's old link to B and frees B, and C is
      left busy with nobody. */
  lemma BrokenPair(a: Fd, b: Fd, c: Fd) returns (evs: seq<Event>, s: View)
    requires Three(a, b, c)
    ensures Reached(evs, s) && Fresh(s) && s.t.at.Keys == {b, c} && |s.t.order| == 2
    ensures Stands(s, b, Free, c) && Stands(s, c, Busy, b)
  {
    var e0, s0 := AskedTwice(a, b, c);
    evs, s := ThenLeaves(e0, s0, a, b, Busy, c);
  }

  lemma PairsCanBreak(a: Fd, b: Fd, c: Fd) returns (evs: seq<Event>)
    requires Three(a, b, c)
    ensures IsRun(INIT, evs) && PromptRun(INIT, evs) && NamedRun(INIT, evs)
    ensures var t := After(INIT, evs).t;
            && !Paired(t)
            && t.at.Keys == {b, c}
            && t.at[b].status == Free
            && t.at[c].status == Busy && t.at[c].toFd == b
  {
    var es, s := BrokenPair(a, b, c);
    assert !HasPartner(s.t, c);
    evs := RunsAreRealised(INIT, es);
  }

  /** After that a newcomer on the descriptor of A asks B, who says yes. */
  lemma SessionWithIntruder(a: Fd, b: Fd, c: Fd) returns (evs: seq<Event>, s: View)
    requires Three(a, b, c)
    ensures Reached(evs, s) && Fresh(s)
    ensures Stands(s, a, Busy, b) && Stands(s, b, Busy, a) && Stands(s, c, Busy, b)
  {
    var e0, s0 := BrokenPair(a, b, c);
    var e1, s1 := ThenJoins(e0, s0, a);
    var e2, s2 := ThenAsks(e1, s1, a, b);
    evs, s := ThenSaysYes(e2, s2, b, a);
  }

  lemma ChatIsSent(s: Sys, c: Fd, b: Fd, line: string)
    requires Up(Abs(s)) && Stands(Abs(s), c, Busy, b) && c in s.cl && s.cl[c].flags.busy
    requires OneWord(line) && line[0] != '\t' && line != "disconnect" && |line| + 1 < MAX_MSG_LEN
    ensures var ev := Type(c, line + "\n");
            && Enabled(s, ev) && ChatLineOf(s, ev, c) == [line]
            && Sends(s, ev) == [Env(b, Msg(ClientRx, line))]
  {
    WordTyped(line);
    assert b != INVALID_FD;
  }

  /** A session is not private.  A and B are in a chat, and everybody has read
      everything; C, left over from a pair that was broken, types a line, and it
      goes to B. */
  lemma IntruderIsHeard(a: Fd, b: Fd, c: Fd, line: string) returns (evs: seq<Event>)
    requires Three(a, b, c)
    requires OneWord(line) && line[0] != '\t' && line != "disconnect" && |line| + 1 < MAX_MSG_LEN
    ensures IsRun(INIT, evs) && PromptRun(INIT, evs) && NamedRun(INIT, evs)
    ensures var s, ev := After(INIT, evs), Type(c, line + "\n");
            && IsBusy(s.t, a) && ConnFd(s.t, a) == b && IsBusy(s.t, b) && ConnFd(s.t, b) == a
            && Enabled(s, ev) && Drained(s, ev) && !CrossStep(s, ev)
            && Intrudes(s, ev, a) && Sends(s, ev) == [Env(b, Msg(ClientRx, line))]
  {
    var es, v := SessionWithIntruder(a, b, c);
    evs := RunsAreRealised(INIT, es);
    var s := After(INIT, evs);
    assert Abs(s).v.Keys == s.cl.Keys;
    var drained := Drain(s, c);
    RunsCompose(INIT, evs, drained);
    evs := evs + drained;
    ChatIsSent(After(INIT, evs), c, b, line);
  }

  // ---- an answer that reaches a stranger ----

  /** X asks Y, then asks Z, and closes, which tells Y nothing. */
  lemma AskerLeaves(x: Fd, y: Fd, z: Fd) returns (evs: seq<Event>, s: View)
    requires Three(x, y, z)
    ensures Reached(evs, s) && Fresh(s) && s.t.at.Keys == {y, z} && |s.t.order| == 2
    ensures Stands(s, y, ReqPending, x)
  {
    var e0, s0 := ThreeJoin(x, y, z);
    var e1, s1 := ThenAsks(e0, s0, x, y);
    var e2, s2 := ThenAsks(e1, s1, x, z);
    evs, s := ThenLeaves(e2, s2, x, z, ReqPending, x);
  }

  lemma YesStands(a: View, x: Fd, y: Fd)
    requires Up(a) && Stands(a, y, ReqPending, x) && Stands(a, x, Free, INVALID_FD)
    requires a.t.at[x].name != UNDEF_NAME && a.t.at[y].name != UNDEF_NAME
    ensures CanStep(a, Type(y, "yes\n"))
    ensures var b := Step(a, Type(y, "yes\n")); Stands(b, x, Busy, y) && Stands(b, y, Busy, x)
  {
    SaysYes(a, y);
    CoupledStands(a, Step(a, Type(y, "yes\n")), y, x);
  }

  /** A newcomer gets the descriptor, and the pending client says yes. */
  lemma StrangerTurn(a: View, x: Fd, y: Fd) returns (b: View)
    requires Fresh(a) && ValidFd(x) && x !in a.t.at && Stands(a, y, ReqPending, x)
    ensures var turn := [Join(x), Type(y, "yes\n")]; AbsRun(a, turn) && AbsAfter(a, turn) == b
    ensures Stands(b, x, Busy, y) && Stands(b, y, Busy, x)
  {
    var ev := Type(y, "yes\n");
    TempIsWord(x);
    TempIsWord(y);
    Arrives(a, x);
    var a1 := Step(a, Join(x));
    YesStands(a1, x, y);
    b := Step(a1, ev);
    assert [ev][1..] == [];
    AbsRunCons(a, Join(x), [ev]);
    assert [Join(x)] + [ev] == [Join(x), ev];
  }

  /** Then a new client gets the descriptor of X and types nothing, and Y types
      its "yes": it makes Y and the newcomer busy partners. */
  lemma StrangerIsAnswered(x: Fd, y: Fd, z: Fd) returns (asked: seq<Event>, rest: seq<Event>)
    requires Three(x, y, z)
    ensures IsRun(INIT, asked) && PromptRun(INIT, asked) && x !in After(INIT, asked).t.at
    ensures IsRun(After(INIT, asked), rest) && PromptRun(After(INIT, asked), rest)
    ensures forall e :: e in rest && e.fd == x ==> !e.Type?
    ensures var s := After(After(INIT, asked), rest);
            && StatusByFd(s.t, x) == Busy && ConnFd(s.t, x) == y
            && StatusByFd(s.t, y) == Busy && ConnFd(s.t, y) == x
            && x in s.cl && Replay(s.cl[x].flags, s.cl[x].inbox).busy
  {
    var es, a := AskerLeaves(x, y, z);
    var b := StrangerTurn(a, x, y);
    asked := RunsAreRealised(INIT, es);
    rest := RunsAreRealised(After(INIT, asked), [Join(x), Type(y, "yes\n")]);
    var s := After(After(INIT, asked), rest);
    assert Abs(s) == b && Abs(s).v[x] == Replay(s.cl[x].flags, s.cl[x].inbox);
  }

  // ---- lines that cross a message ----

  /** A free client whose user answers a request that is gone, while somebody
      who is not busy sits behind its link, is told that its chat began. */
  lemma AnswersTooLate(s: Sys, b: Fd, conn: Fd)
    requires Fresh(Abs(s)) && Stands(Abs(s), b, Free, conn) && b in s.cl
    requires conn in s.t.at && s.t.at[conn].status != Busy
    requires s.cl[b].flags.req && !s.cl[b].flags.busy
    ensures Enabled(s, Type(b, "yes\n"))
    ensures var s' := Apply(s, Type(b, "yes\n"));
            && !s'.locked && b in s'.t.at && s'.t.at[b].status == Free
            && b in s'.cl && Replay(s'.cl[b].flags, s'.cl[b].inbox).busy
  {
    TempIsWord(conn);
    AskedTypes(s.cl[b].flags);
    assert ChangeOf(s.t, b, Accept) == Misled;
    RequestAt(s, b, "yes\n", s.cl[b].flags.(req := false), Accept);
    var s' := Apply(s, Type(b, "yes\n"));
    assert Abs(s').v[b] == Replay(s'.cl[b].flags, s'.cl[b].inbox);
  }

  /** A asks B, and B reads it. */
  lemma AskedAndRead(a: Fd, b: Fd) returns (evs: seq<Event>)
    requires ValidFd(a) && ValidFd(b) && a != b
    ensures IsRun(INIT, evs) && NamedRun(INIT, evs)
    ensures var s := After(INIT, evs);
            && Fresh(Abs(s)) && s.t.at.Keys == {a, b} && |s.t.order| == 2
            && Stands(Abs(s), a, Free, b) && Stands(Abs(s), b, ReqPending, a)
            && b in s.cl && s.cl[b].inbox == [] && s.cl[b].flags == Abs(s).v[b]
  {
    var e0, s0 := TwoJoin(a, b);
    var e1, s1 := ThenAsks(e0, s0, a, b);
    evs := RunsAreRealised(INIT, e1);
    var drained := Drain(After(INIT, evs), b);
    RunsCompose(INIT, evs, drained);
    evs := evs + drained;
  }

  lemma JoinsAt(s: Sys, x: Fd, y: Fd)
    requires Fresh(Abs(s)) && ValidFd(x) && x !in s.t.at && |s.t.order| < 4 && y in s.cl && x != y
    ensures Enabled(s, Join(x))
    ensures var s' := Apply(s, Join(x));
            && Fresh(Abs(s')) && |s'.t.order| == |s.t.order| + 1
            && Stands(Abs(s'), x, Free, INVALID_FD) && Others(Abs(s), Abs(s'), x, x)
            && x in s'.cl && s'.cl[x] == Peer(START, []) && y in s'.cl && s'.cl[y] == s.cl[y]
  {
    Arrives(Abs(s), x);
    DrainedIsInstant(s, Join(x));
  }

  lemma ClosesAt(s: Sys, x: Fd, y: Fd, to: Fd)
    requires Fresh(Abs(s)) && x in s.t.at && s.t.at[x].toFd == y && x != y && y in s.cl
    requires Stands(Abs(s), y, ReqPending, to)
    ensures Enabled(s, Close(x))
    ensures var s' := Apply(s, Close(x));
            && Fresh(Abs(s')) && |s'.t.order| == |s.t.order| - 1 && x !in s'.t.at
            && Stands(Abs(s'), y, Free, to) && y in s'.cl && s'.cl[y].flags == s.cl[y].flags
  {
    Leaves(Abs(s), x);
    DrainedIsInstant(s, Close(x));
    ClosedStands(Abs(s), Abs(Apply(s, Close(x))), x, y, ReqPending, to);
    FlagsStay(s, Close(x), y);
    forall f | f in Apply(s, Close(x)).t.at ensures Apply(s, Close(x)).t.at[f].name == TempName(f) {
      assert f in s.t.at.Keys - {x};
    }
  }

  /** View agreement fails.  A asks B, B reads it, and A closes; a newcomer
      connects on A's descriptor.  B, who has not read that A left, types "yes",
      and believes itself in a chat while the server has it FREE. */
  lemma LateYesMisleads(a: Fd, b: Fd) returns (evs: seq<Event>)
    requires ValidFd(a) && ValidFd(b) && a != b
    ensures IsRun(INIT, evs)
    ensures var s := After(INIT, evs);
            && !s.locked && b in s.t.at && s.t.at[b].status == Free
            && b in s.cl && Replay(s.cl[b].flags, s.cl[b].inbox).busy
  {
    evs := AskedAndRead(a, b);
    ClosesAt(After(INIT, evs), a, b, a);
    RunThen(INIT, evs, Close(a));
    evs := evs + [Close(a)];
    JoinsAt(After(INIT, evs), a, b);
    RunThen(INIT, evs, Join(a));
    evs := evs + [Join(a)];
    AnswersTooLate(After(INIT, evs), b, a);
    RunThen(INIT, evs, Type(b, "yes\n"));
    evs := evs + [Type(b, "yes\n")];
  }

  // ---- the lost mutex ----

  /** B, free, is linked to C, which is busy and linked to B; both have read
      everything. */
  lemma BrokenAndRead(a: Fd, b: Fd, c: Fd) returns (evs: seq<Event>)
    requires Three(a, b, c)
    ensures IsRun(INIT, evs) && NamedRun(INIT, evs)
    ensures var s := After(INIT, evs);
            && Fresh(Abs(s)) && s.t.at.Keys == {b, c} && |s.t.order| == 2
            && Stands(Abs(s), b, Free, c) && Stands(Abs(s), c, Busy, b) && b in s.cl && c in s.cl
            && s.cl[b] == Peer(Abs(s).v[b], []) && s.cl[c] == Peer(Abs(s).v[c], [])
  {
    var es, v := BrokenPair(a, b, c);
    evs := RunsAreRealised(INIT, es);
    assert Abs(After(INIT, evs)).v.Keys == After(INIT, evs).cl.Keys;
    var drained := Drain(After(INIT, evs), b);
    RunsCompose(INIT, evs, drained);
    evs := evs + drained;
    drained := Drain(After(INIT, evs), c);
    RunsCompose(INIT, evs, drained);
    evs := evs + drained;
  }

  /** To one who is not the sender, a step leaves flags and inbox alone but for
      what is sent to it. */
  lemma Bystander(s: Sys, ev: Event, y: Fd)
    requires Up(Abs(s)) && Enabled(s, ev) && y in s.cl && ev.fd != y
    ensures y in Apply(s, ev).cl
    ensures Apply(s, ev).cl[y] == s.cl[y].(inbox := s.cl[y].inbox + To(Sends(s, ev), y))
  {
    assert Abs(s).v.Keys == s.cl.Keys;
    FlagsStay(s, ev, y);
    StepQueues(s, ev, y);
  }

  lemma ToTwo(d: Envelope, e: Envelope, y: Fd)
    ensures To([d, e], y) == (if d.dst == y then [d.msg] else []) + (if e.dst == y then [e.msg] else [])
  {
    assert [d, e][1..] == [e];
    assert [e][1..] == [];
    assert To([e], y) == if e.dst == y then [e.msg] else [];
  }

  lemma AskSends(t: Table, f: Fd, p: Fd, name: string)
    requires ChangeOf(t, f, Connect(name)) == Asked(p)
    ensures Handle(t, f, Connect(name)).sends ==
            [Env(p, Msg(ConnectionReqRx, NameByFd(t, f))), Env(f, Reply(ClientFree, name))]
  {
  }

  /** A client that has read everything asks another. */
  lemma AsksAt(s: Sys, f: Fd, p: Fd)
    requires Fresh(Abs(s)) && f in s.cl && s.cl[f] == Peer(START, []) && p in s.t.at && f in s.t.at && f != p
    requires Stands(Abs(s), f, Free, s.t.at[f].toFd) && Stands(Abs(s), p, Free, s.t.at[p].toFd)
    ensures var ev := Type(f, ConnectLine(TempName(p)));
            && Enabled(s, ev)
            && Sends(s, ev) == [Env(p, Msg(ConnectionReqRx, TempName(f))), Env(f, Reply(ClientFree, TempName(p)))]
            && var s' := Apply(s, ev);
               Fresh(Abs(s')) && Stands(Abs(s'), p, ReqPending, f) && Others(Abs(s), Abs(s'), f, p)
  {
    var ev := Type(f, ConnectLine(TempName(p)));
    FindTemp(s.t, p);
    TempIsWord(p);
    IdleTypes(START, TempName(p));
    assert Abs(s).v[f] == START;
    AsksByName(Abs(s), f, p, TempName(p));
    DrainedIsInstant(s, ev);
    FreshKept(Abs(s), Abs(Apply(s, ev)), f, START, Asked(p));
    AskedStands(Abs(s), Abs(Apply(s, ev)), f, p);
    AsksChange(s.t, f, p, TempName(p));
    AskSends(s.t, f, p, TempName(p));
  }

  /** The newcomer asks B, and C notices nothing. */
  lemma NewcomerAsks(s: Sys, a: Fd, b: Fd, c: Fd)
    requires Three(a, b, c) && Fresh(Abs(s)) && a in s.cl && s.cl[a] == Peer(START, []) && b in s.cl && c in s.cl
    requires Stands(Abs(s), a, Free, INVALID_FD) && Stands(Abs(s), b, Free, c) && Stands(Abs(s), c, Busy, b)
    requires s.cl[b].inbox == [] && s.cl[c].inbox == []
    ensures var ev := Type(a, ConnectLine(TempName(b)));
            && Enabled(s, ev)
            && var s' := Apply(s, ev);
               && Fresh(Abs(s')) && Stands(Abs(s'), c, Busy, b) && Stands(Abs(s'), b, ReqPending, a)
               && b in s'.cl && |s'.cl[b].inbox| == 1 && s'.cl[b].inbox[0].kind == ConnectionReqRx
               && s'.cl[b].flags == s.cl[b].flags
               && c in s'.cl && s'.cl[c] == s.cl[c]
  {
    var ev := Type(a, ConnectLine(TempName(b)));
    AsksAt(s, a, b);
    Bystander(s, ev, b);
    Bystander(s, ev, c);
    var d, e := Env(b, Msg(ConnectionReqRx, TempName(a))), Env(a, Reply(ClientFree, TempName(b)));
    ToTwo(d, e, b);
    ToTwo(d, e, c);
  }

  lemma PartsWith(t: Table, c: Fd, b: Fd)
    requires Wf(t) && b in t.at && c in t.at && t.at[c].status == Busy && t.at[c].toFd == b
    ensures ChangeOf(t, c, Tx(DISCONNECT_CMD)) == Parted(b)
  {
    assert b != INVALID_FD;
  }

  lemma PartedLink(t: Table, t': Table, c: Fd, b: Fd)
    requires Changed(t, t', c, Parted(b)) && b in t.at
    ensures b in t'.at && t'.at[b].toFd == INVALID_FD
  {
    assert b in t'.at.Keys;
  }

  /** A busy client linked to a pending one hangs up. */
  lemma HangsUpAt(s: Sys, c: Fd, b: Fd)
    requires Up(Abs(s)) && b in s.cl && c in s.cl && b != c && Stands(Abs(s), c, Busy, b) && b in s.t.at
    requires s.cl[c].flags.busy
    ensures Enabled(s, Type(c, HANG_UP))
    ensures var s' := Apply(s, Type(c, HANG_UP));
            && Up(Abs(s')) && b in s'.t.at && s'.t.at[b].toFd == INVALID_FD
            && b in s'.cl && s'.cl[b].flags == s.cl[b].flags
  {
    BusyTypes(s.cl[c].flags);
    PartsWith(s.t, c, b);
    RequestAt(s, c, HANG_UP, s.cl[c].flags.(busy := false, peer := UNDEF_NAME), Tx(DISCONNECT_CMD));
    PartedLink(s.t, Apply(s, Type(c, HANG_UP)).t, c, b);
    FlagsStay(s, Type(c, HANG_UP), b);
  }

  /** A yes without a link keeps the mutex. */
  lemma YesKeepsMutex(s: Sys, b: Fd)
    requires Up(Abs(s)) && b in s.cl && b in s.t.at && s.t.at[b].toFd == INVALID_FD
    requires s.cl[b].flags.req && !s.cl[b].flags.busy
    ensures Enabled(s, Type(b, "yes\n")) && Apply(s, Type(b, "yes\n")).locked
  {
    AskedTypes(s.cl[b].flags);
    RequestAt(s, b, "yes\n", s.cl[b].flags.(req := false), Accept);
  }

  /** An idle client reads the one message that waits for it, a request. */
  lemma ReadsAsk(s: Sys, b: Fd)
    requires Up(Abs(s)) && b in s.cl && |s.cl[b].inbox| == 1 && s.cl[b].inbox[0].kind == ConnectionReqRx
    ensures Enabled(s, Deliver(b)) && Abs(Apply(s, Deliver(b))) == Abs(s)
    ensures Apply(s, Deliver(b)).cl == s.cl[b := Peer(s.cl[b].flags.(req := true), [])]
  {
    StepRefines(s, Deliver(b));
  }

  lemma NewcomerJoins(a: Fd, b: Fd, c: Fd) returns (evs: seq<Event>)
    requires Three(a, b, c)
    ensures IsRun(INIT, evs)
    ensures var s := After(INIT, evs);
            && Fresh(Abs(s)) && a in s.cl && s.cl[a] == Peer(START, []) && b in s.cl && c in s.cl
            && Stands(Abs(s), a, Free, INVALID_FD) && Stands(Abs(s), b, Free, c) && Stands(Abs(s), c, Busy, b)
            && s.cl[b] == Peer(Abs(s).v[b], []) && s.cl[c] == Peer(Abs(s).v[c], [])
  {
    evs := BrokenAndRead(a, b, c);
    JoinsAt(After(INIT, evs), a, b);
    JoinsAt(After(INIT, evs), a, c);
    RunThen(INIT, evs, Join(a));
    evs := evs + [Join(a)];
    var s := After(INIT, evs);
    assert Abs(s).v[b] == Pending(s.cl[b]) && Abs(s).v[c] == Pending(s.cl[c]);
  }

  /** After the run that leaves B free and C busy with B, a newcomer asks B, and
      B reads it. */
  lemma NewcomerIsRead(a: Fd, b: Fd, c: Fd) returns (evs: seq<Event>)
    requires Three(a, b, c)
    ensures IsRun(INIT, evs)
    ensures var s := After(INIT, evs);
            && Fresh(Abs(s)) && b in s.t.at && Stands(Abs(s), c, Busy, b) && b in s.cl && c in s.cl
            && s.cl[c].flags.busy && s.cl[b].flags.req && !s.cl[b].flags.busy
  {
    evs := NewcomerJoins(a, b, c);
    NewcomerAsks(After(INIT, evs), a, b, c);
    RunThen(INIT, evs, Type(a, ConnectLine(TempName(b))));
    evs := evs + [Type(a, ConnectLine(TempName(b)))];
    ReadsAsk(After(INIT, evs), b);
    RunThen(INIT, evs, Deliver(b));
    evs := evs + [Deliver(b)];
  }

  /** The mutex is lost.  Then C types "disconnect", which clears the link of B;
      and B, who has not read that, types "yes". */
  lemma LateYesKeepsMutex(a: Fd, b: Fd, c: Fd) returns (evs: seq<Event>)
    requires Three(a, b, c)
    ensures IsRun(INIT, evs) && After(INIT, evs).locked
  {
    evs := NewcomerIsRead(a, b, c);
    HangsUpAt(After(INIT, evs), c, b);
    RunThen(INIT, evs, Type(c, HANG_UP));
    evs := evs + [Type(c, HANG_UP)];
    YesKeepsMutex(After(INIT, evs), b);
    RunThen(INIT, evs, Type(b, "yes\n"));
    evs := evs + [Type(b, "yes\n")];
  }

  // ---- a client called NAME_NOT_DEFINED ----

  predicate OddName(name: string) {
    OneWord(name) && |name| < MAX_CLIENT_NAME_LEN && !(TEMP_PREFIX <= name)
  }

  lemma UndefIsOdd()
    ensures OddName(UNDEF_NAME)
  {
    assert UNDEF_NAME[0] == 'N' && TEMP_PREFIX[0] == 't';
  }

  /** B takes a name. */
  lemma NameIsTaken(a: Fd, b: Fd, name: string) returns (evs: seq<Event>, s: View)
    requires ValidFd(a) && ValidFd(b) && a != b && OddName(name)
    ensures Arrived(evs, s) && Up(s) && s.t.at.Keys == {a, b} && s.v.Keys == {a, b} && Idle(s, a) && Idle(s, b)
    ensures s.t.at[a] == Rec(Free, INVALID_FD, TempName(a)) && s.t.at[b] == Rec(Free, INVALID_FD, name)
  {
    var e0, s0 := TwoJoin(a, b);
    assert TEMP_PREFIX <= TempName(a) && TEMP_PREFIX <= TempName(b);
    evs, s := ThenTakesName(e0, s0, b, name);
  }

  /** Then A asks B by it. */
  lemma NamedIsAsked(a: Fd, b: Fd, name: string) returns (evs: seq<Event>, s: View)
    requires ValidFd(a) && ValidFd(b) && a != b && OddName(name)
    ensures Arrived(evs, s) && Up(s) && s.t.at.Keys == {a, b} && MayAnswer(s, b) && Idle(s, a)
    ensures s.t.at[b].name == name && s.t.at[b].toFd == a
    ensures s.t.at[a].name == TempName(a) && s.t.at[a].status == Free
  {
    var e0, s0 := NameIsTaken(a, b, name);
    var ev := Type(a, ConnectLine(name));
    assert TEMP_PREFIX <= TempName(a);
    FdByNameNone(s0.t, name);
    AsksByName(s0, a, b, name);
    AbsRunThen(Abs(INIT), e0, ev);
    evs, s := e0 + [ev], Step(s0, ev);
    AskedRecs(s0, s, a, b);
  }

  lemma AskedRecs(a: View, b: View, f: Fd, p: Fd)
    requires Up(a) && Idle(a, f) && Idle(a, p) && f in a.t.at && p in a.t.at && f != p
    requires Leads(a, b, f, a.v[f], Asked(p))
    ensures SameFds(a, b) && MayAnswer(b, p) && Idle(b, f)
    ensures b.t.at[p] == Rec(ReqPending, f, a.t.at[p].name) && b.t.at[f] == a.t.at[f].(toFd := p)
  {
  }

  lemma CoupledMute(a: View, b: View, y: Fd, x: Fd)
    requires Up(a) && MayAnswer(a, y) && Idle(a, x) && x in a.t.at && x != y
    requires Leads(a, b, y, a.v[y].(req := false), Coupled(x, false))
    ensures SameFds(a, b) && b.v.Keys == a.v.Keys
    ensures b.t.at[x].status == Busy && b.t.at[y].status == Busy && !b.v[x].busy && !b.v[y].busy
  {
  }

  /** B says yes. */
  lemma UndefSaysYes(a: Fd, b: Fd) returns (evs: seq<Event>, s: View)
    requires ValidFd(a) && ValidFd(b) && a != b
    ensures Arrived(evs, s) && s.t.at.Keys == {a, b} && s.v.Keys == {a, b}
    ensures s.t.at[a].status == Busy && s.t.at[b].status == Busy && !s.v[a].busy && !s.v[b].busy
  {
    var ev := Type(b, "yes\n");
    UndefIsOdd();
    TempIsWord(a);
    var e0, s0 := NamedIsAsked(a, b, UNDEF_NAME);
    SaysYes(s0, b);
    AbsRunThen(Abs(INIT), e0, ev);
    evs, s := e0 + [ev], Step(s0, ev);
    CoupledMute(s0, s, b, a);
  }

  /** If a client may call itself NAME_NOT_DEFINED, it can accept a request so
      that the server has both clients BUSY and neither client is ever told. */
  lemma UndefNameBreaksViews(a: Fd, b: Fd) returns (evs: seq<Event>)
    requires ValidFd(a) && ValidFd(b) && a != b
    ensures IsRun(INIT, evs) && PromptRun(INIT, evs)
    ensures var s := After(INIT, evs);
            && s.t.at.Keys == {a, b} && s.cl.Keys == {a, b}
            && s.t.at[a].status == Busy && s.t.at[b].status == Busy
            && !Replay(s.cl[a].flags, s.cl[a].inbox).busy && !Replay(s.cl[b].flags, s.cl[b].inbox).busy
  {
    var es, v := UndefSaysYes(a, b);
    evs := RunsAreRealised(INIT, es);
    var s := After(INIT, evs);
    assert Abs(s).v.Keys == s.cl.Keys;
    assert forall f :: f in s.cl ==> Abs(s).v[f] == Replay(s.cl[f].flags, s.cl[f].inbox);
  }

  // ---- two clients of one name ----

  lemma LongIsNamed(n: string)
    requires OneWord(n) && |n| == MAX_CLIENT_NAME_LEN - 1
    ensures n != UNDEF_NAME && n + "b" != UNDEF_NAME && OneWord(n + "b")
  {
    assert |UNDEF_NAME| == 16;
  }

  /** A takes a long name. */
  lemma LongRun(a: Fd, b: Fd, n: string) returns (evs: seq<Event>, s: View)
    requires ValidFd(a) && ValidFd(b) && a != b && OneWord(n) && |n| == MAX_CLIENT_NAME_LEN - 1
    ensures Reached(evs, s) && Up(s) && s.t.at.Keys == {a, b} && Idle(s, b)
    ensures s.t.at[a].name == n && |s.t.at[b].name| <= 27
  {
    var e0, s0 := TwoJoin(a, b);
    TempIsWord(a);
    TempIsWord(b);
    LongIsNamed(n);
    evs, s := ThenTakesName(e0, s0, a, n);
  }

  /** B takes the same and one more character. */
  lemma TwinRun(a: Fd, b: Fd, n: string) returns (evs: seq<Event>, s: View)
    requires ValidFd(a) && ValidFd(b) && a != b && OneWord(n) && |n| == MAX_CLIENT_NAME_LEN - 1
    ensures Reached(evs, s) && a in s.t.at && b in s.t.at && s.t.at[a].name == n && s.t.at[b].name == n
  {
    var e0, s0 := LongRun(a, b, n);
    var long := n + "b";
    LongIsNamed(n);
    assert Clip(long, MAX_CLIENT_NAME_LEN - 1) == n;
    evs, s := ThenTakesName(e0, s0, b, long);
  }

  /** Names do not stay distinct.  A takes any name of 63 characters, and B takes
      the same name with one more character, which its field cuts off. */
  lemma LongNamesCollide(a: Fd, b: Fd, n: string) returns (evs: seq<Event>)
    requires ValidFd(a) && ValidFd(b) && a != b && OneWord(n) && |n| == MAX_CLIENT_NAME_LEN - 1
    ensures IsRun(INIT, evs) && PromptRun(INIT, evs) && NamedRun(INIT, evs)
    ensures var t := After(INIT, evs).t;
            && a in t.at && b in t.at && t.at[a].name == n && t.at[b].name == n
            && !NamesDistinct(t)
  {
    var es, s := TwinRun(a, b, n);
    evs := RunsAreRealised(INIT, es);
  }

  lemma NameIsTakenFirst(a: Fd, k: Fd) returns (evs: seq<Event>, s: View)
    requires ValidFd(a) && ValidFd(k) && a != k
    ensures Reached(evs, s) && Up(s) && s.t.at.Keys == {a} && |s.t.order| == 1 && s.t.at[a].name == TempName(k)
  {
    var e0, s0 := ThenJoins([], Abs(INIT), a);
    assert s0.t.at.Keys == {a};
    TempIsWord(k);
    TempsDiffer(a, k);
    evs, s := ThenTakesName(e0, s0, a, TempName(k));
  }

  /** A takes the name that will be made for the next client on descriptor K,
      and K connects. */
  lemma MadeNamesCollide(a: Fd, k: Fd) returns (evs: seq<Event>)
    requires ValidFd(a) && ValidFd(k) && a != k
    ensures IsRun(INIT, evs) && PromptRun(INIT, evs) && NamedRun(INIT, evs)
    ensures var t := After(INIT, evs).t;
            && a in t.at && k in t.at && t.at[a].name == TempName(k) && t.at[k].name == TempName(k)
            && !NamesDistinct(t)
  {
    var es, s := NameIsTakenFirst(a, k);
    Arrives(s, k);
    Extend(es, s, Join(k));
    evs := RunsAreRealised(INIT, es + [Join(k)]);
  }

  // ---- what unread messages make a client do ----

  lemma ThreeRegister(a: Fd, b: Fd, c: Fd) returns (evs: seq<Event>, s: Sys)
    requires Three(a, b, c)
    ensures Queued(evs, s) && Fresh(Abs(s)) && s.t.at.Keys == {a, b, c}
    ensures Stands(Abs(s), a, Free, INVALID_FD) && Stands(Abs(s), b, Free, INVALID_FD)
    ensures Stands(Abs(s), c, Free, INVALID_FD) && forall e :: e in evs ==> !e.Type?
  {
    var e0, v := ThreeJoin(a, b, c);
    evs := RunsAreRealised(INIT, e0);
    s := After(INIT, evs);
  }

  lemma Clients(s: Sys, f: Fd)
    requires Up(Abs(s)) && f in s.t.at
    ensures f in s.cl && Abs(s).v[f] == Pending(s.cl[f])
  {
    assert f in Abs(s).v.Keys;
  }

  /** A, B and C have joined, and A has read everything. */
  lemma ThreeArrive(a: Fd, b: Fd, c: Fd) returns (evs: seq<Event>, s: Sys)
    requires Three(a, b, c)
    ensures Queued(evs, s) && Fresh(Abs(s)) && s.t.at.Keys == {a, b, c}
    ensures Stands(Abs(s), a, Free, INVALID_FD) && Stands(Abs(s), b, Free, INVALID_FD)
    ensures Stands(Abs(s), c, Free, INVALID_FD) && forall e :: e in evs ==> !e.Type? || e.fd == a
    ensures a in s.cl && s.cl[a] == Peer(Abs(s).v[a], [])
  {
    var e0, s0 := ThreeRegister(a, b, c);
    Clients(s0, a);
    evs, s := ReadsAll(e0, s0, a);
  }

  lemma AskWaits(a: Fd, b: Fd, c: Fd) returns (evs: seq<Event>, s: Sys)
    requires Three(a, b, c)
    ensures Queued(evs, s) && Fresh(Abs(s)) && s.t.at.Keys == {a, b, c}
    ensures Stands(Abs(s), a, Free, b) && Stands(Abs(s), b, ReqPending, a) && Stands(Abs(s), c, Free, INVALID_FD)
    ensures a in s.cl && !s.cl[a].flags.busy && !s.cl[a].flags.req && b in s.cl
  {
    var e0, s0 := ThreeArrive(a, b, c);
    evs, s := ThenAsksAnyway(e0, s0, a, b);
    AskedStands(Abs(s0), Abs(s), a, b);
    Clients(s, b);
  }

  /** A asks B, who reads that. */
  lemma AskIsRead(a: Fd, b: Fd, c: Fd) returns (evs: seq<Event>, s: Sys)
    requires Three(a, b, c)
    ensures Queued(evs, s) && Fresh(Abs(s)) && s.t.at.Keys == {a, b, c}
    ensures Stands(Abs(s), a, Free, b) && Stands(Abs(s), b, ReqPending, a) && Stands(Abs(s), c, Free, INVALID_FD)
    ensures a in s.cl && !s.cl[a].flags.busy && !s.cl[a].flags.req
    ensures b in s.cl && s.cl[b] == Peer(Abs(s).v[b], [])
  {
    var e0, s0 := AskWaits(a, b, c);
    evs, s := ReadsAll(e0, s0, b);
  }

  /** B says yes, and A has not read that. */
  lemma AckWaits(a: Fd, b: Fd, c: Fd) returns (evs: seq<Event>, s: Sys)
    requires Three(a, b, c)
    ensures Queued(evs, s) && Fresh(Abs(s)) && s.t.at.Keys == {a, b, c}
    ensures Stands(Abs(s), a, Busy, b) && Stands(Abs(s), b, Busy, a) && Stands(Abs(s), c, Free, INVALID_FD)
    ensures a in s.cl && !s.cl[a].flags.busy && !s.cl[a].flags.req
    ensures Abs(s).v[a].peer == TempName(b) && Abs(s).v[b].peer == TempName(a)
  {
    var e0, s0 := AskIsRead(a, b, c);
    evs, s := ThenYes(e0, s0, b, a);
  }

  /** Three clients that agree with the server, in pairs. */
  lemma ThreeAgree(s: Sys, a: Fd, b: Fd, c: Fd, sc: Status, toC: Fd)
    requires Fresh(Abs(s)) && a != b && sc != Busy && forall f :: f in s.t.at ==> f == a || f == b || f == c
    requires Stands(Abs(s), a, Busy, b) && Stands(Abs(s), b, Busy, a) && Stands(Abs(s), c, sc, toC)
    ensures Core(Abs(s)) && Paired(s.t)
  {
  }

  lemma OnlyThree(t: Table, a: Fd, b: Fd, c: Fd)
    requires t.at.Keys == {a, b, c}
    ensures forall f :: f in t.at ==> f == a || f == b || f == c
  {
    forall f | f in t.at ensures f == a || f == b || f == c {
      assert f in t.at.Keys;
    }
  }

  lemma ConnectCrossesNothing(s: Sys, f: Fd, raw: string, r: Request)
    requires Enabled(s, Type(f, raw)) && Typed(s.cl[f].flags, raw).1 == Some(r) && (r.Connect? || r.SetName?)
    ensures !CrossStep(s, Type(f, raw))
  {
  }

  lemma BusyAskBreaks(t: Table, a: Fd, c: Fd)
    requires Wf(t) && a in t.at && c in t.at && a != c && t.at[a].status == Busy && t.at[c].status == Free
    requires forall f :: f in t.at ==> t.at[f].name == TempName(f)
    ensures Breaks(t, Receive(a, Connect(TempName(c))))
  {
    FindTemp(t, c);
  }

  lemma WandersOff(s: Sys, a: Fd, b: Fd, c: Fd)
    requires Three(a, b, c) && Fresh(Abs(s)) && a in s.cl && !s.cl[a].flags.busy && !s.cl[a].flags.req
    requires Stands(Abs(s), a, Busy, b) && c in s.t.at && s.t.at[c].status == Free
    ensures var ev := Type(a, ConnectLine(TempName(c)));
            Enabled(s, ev) && Wanders(s, ev, a) && StepBreaks(s, ev) && !CrossStep(s, ev)
  {
    AsksAnyway(s, a, c);
    AskWanders(s, a, c);
    BusyAskBreaks(s.t, a, c);
    ConnectCrossesNothing(s, a, ConnectLine(TempName(c)), Connect(TempName(c)));
  }

  lemma AskedTable(t: Table, t': Table, a: Fd, b: Fd, c: Fd)
    requires Three(a, b, c) && Changed(t, t', a, Asked(c)) && a in t.at && b in t.at && c in t.at
    ensures a in t'.at && t'.at[a] == t.at[a].(toFd := c) && b in t'.at && t'.at[b] == t.at[b] && IsPending(t', c)
  {
    assert a in t'.at.Keys && b in t'.at.Keys && c in t'.at.Keys;
  }

  /** A link moves and a pair breaks without anybody leaving.  A asks B, who says
      yes; A, who has not read that, types "connect" for C.  The server takes it
      from a busy client: A is now linked to C, and B is left busy with A.  The
      line crosses nothing: flags and statuses agree before and after it. */
  lemma BusyClientWanders(a: Fd, b: Fd, c: Fd) returns (evs: seq<Event>, ev: Event)
    requires Three(a, b, c)
    ensures IsRun(INIT, evs) && NamedRun(INIT, evs) && Enabled(After(INIT, evs), ev)
    ensures var s := After(INIT, evs);
            && Core(Abs(s)) && Paired(s.t) && IsBusy(s.t, a) && ConnFd(s.t, a) == b
            && Wanders(s, ev, a) && StepBreaks(s, ev) && !CrossStep(s, ev)
    ensures var t := Apply(After(INIT, evs), ev).t;
            && IsBusy(t, a) && ConnFd(t, a) == c && IsPending(t, c)
            && IsBusy(t, b) && ConnFd(t, b) == a && !Paired(t)
  {
    var s;
    evs, s := AckWaits(a, b, c);
    ev := Type(a, ConnectLine(TempName(c)));
    OnlyThree(s.t, a, b, c);
    ThreeAgree(s, a, b, c, Free, INVALID_FD);
    WandersOff(s, a, b, c);
    AsksAnyway(s, a, c);
    AskedTable(s.t, Apply(s, ev).t, a, b, c);
    assert !HasPartner(Apply(s, ev).t, b);
  }

  lemma RenamesAnyway(s: Sys, a: Fd, name: string)
    requires Fresh(Abs(s)) && a in s.cl && !s.cl[a].flags.busy && !s.cl[a].flags.req && a in s.t.at && OddName(name)
    ensures var ev := Type(a, SetNameLine(name));
            && Enabled(s, ev) && NameCheck(s.t, name) == NameNotExist
            && Typed(s.cl[a].flags, SetNameLine(name)) == (s.cl[a].flags, Some(SetName(name)))
            && Leads(Abs(s), Abs(Apply(s, ev)), a, Abs(s).v[a], Renamed(name))
  {
    IdleTypes(s.cl[a].flags, name);
    assert Clip(name, MAX_CLIENT_NAME_LEN - 1) == name;
    forall g | g in s.t.at ensures s.t.at[g].name != name {
      assert TEMP_PREFIX <= TempName(g);
    }
    ConnectTarget(s.t, name);
    FdByNameNone(s.t, name);
    assert a in s.t.order;
    RequestAt(s, a, SetNameLine(name), s.cl[a].flags, SetName(name));
    assert Abs(s).v[a] == Replay(s.cl[a].flags, s.cl[a].inbox);
  }

  /** A shown name goes stale.  A asks B, who says yes; A, who has not read that,
      takes any name.  B, with everything read, goes on showing the old one. */
  lemma BusyClientRenames(a: Fd, b: Fd, c: Fd, name: string) returns (evs: seq<Event>, ev: Event)
    requires Three(a, b, c) && OddName(name)
    ensures IsRun(INIT, evs) && NamedRun(INIT, evs) && Enabled(After(INIT, evs), ev)
    ensures var s := After(INIT, evs);
            Core(Abs(s)) && Paired(s.t) && Renames(s, ev) && !CrossStep(s, ev) && !StepBreaks(s, ev)
    ensures var s := Apply(After(INIT, evs), ev);
            && StatusByFd(s.t, b) == Busy && ConnFd(s.t, b) == a && NameByFd(s.t, a) == name
            && b in s.cl && Replay(s.cl[b].flags, s.cl[b].inbox).peer == TempName(a) != name
  {
    var s;
    evs, s := AckWaits(a, b, c);
    ev := Type(a, SetNameLine(name));
    OnlyThree(s.t, a, b, c);
    ThreeAgree(s, a, b, c, Free, INVALID_FD);
    RenamesAnyway(s, a, name);
    assert TEMP_PREFIX <= TempName(a);
    RenamedView(Abs(s), Abs(Apply(s, ev)), a, name);
    Clients(Apply(s, ev), b);
  }

  // ---- a yes that reaches somebody who did not ask ----

  lemma {:induction false} DeliveriesSettleNothing(s: Sys, evs: seq<Event>, y: Fd)
    requires IsRun(s, evs) && forall e :: e in evs ==> e.Deliver?
    ensures !SettledIn(s, evs, y)
    decreases |evs|
  {
    if evs != [] {
      DeliveriesSettleNothing(Apply(s, evs[0]), evs[1..], y);
    }
  }

  /** X, Y and Z have joined, and X and Y have read everything. */
  lemma TwoHaveRead(x: Fd, y: Fd, z: Fd) returns (evs: seq<Event>, s: Sys)
    requires Three(x, y, z)
    ensures Queued(evs, s) && Fresh(Abs(s)) && s.t.at.Keys == {x, y, z}
    ensures Stands(Abs(s), x, Free, INVALID_FD) && Stands(Abs(s), y, Free, INVALID_FD)
    ensures Stands(Abs(s), z, Free, INVALID_FD) && forall e :: e in evs && e.fd == z ==> !e.Type?
    ensures x in s.cl && !s.cl[x].flags.busy && !s.cl[x].flags.req
    ensures y in s.cl && !s.cl[y].flags.busy && !s.cl[y].flags.req
  {
    var e0, s0 := ThreeArrive(x, y, z);
    Clients(s0, y);
    evs, s := ReadsAll(e0, s0, y);
  }

  /** What an ask makes the server send. */
  function AskEnvelopes(s: Sys, f: Fd, p: Fd): seq<Envelope> {
    [Env(p, Msg(ConnectionReqRx, NameByFd(s.t, f))), Env(f, Reply(ClientFree, TempName(p)))]
  }

  lemma AskSendsAt(s: Sys, f: Fd, p: Fd)
    requires Fresh(Abs(s)) && f in s.cl && !s.cl[f].flags.busy && !s.cl[f].flags.req
    requires f in s.t.at && p in s.t.at && f != p && s.t.at[p].status == Free
    ensures var ev := Type(f, ConnectLine(TempName(p)));
            Enabled(s, ev) && Sends(s, ev) == AskEnvelopes(s, f, p)
  {
    AsksAnyway(s, f, p);
    AskSends(s.t, f, p, TempName(p));
  }

  lemma AskIsQueued(s: Sys, ev: Event, p: Fd, m: Msg)
    requires Enabled(s, ev) && p in s.cl && Env(p, m) in Sends(s, ev) && m.kind == ConnectionReqRx
    ensures Requests.Asks(s, ev, p)
  {
  }

  /** A typed connect that has the server send its user no more than a report
      settles nothing. */
  lemma SettlesNothing(s: Sys, y: Fd, raw: string, name: string)
    requires Enabled(s, Type(y, raw))
    ensures Typed(s.cl[y].flags, raw).1 == Some(Connect(name))
            && (forall m :: Env(y, m) in Sends(s, Type(y, raw)) ==> m.kind == ClientFree) ==>
              !Settles(s, Type(y, raw), y)
  {
  }

  lemma AskIsNoAnswer(s: Sys, y: Fd, z: Fd)
    requires Fresh(Abs(s)) && y in s.cl && !s.cl[y].flags.busy && !s.cl[y].flags.req
    requires y in s.t.at && z in s.t.at && y != z && s.t.at[z].status == Free
    ensures var ev := Type(y, ConnectLine(TempName(z))); Enabled(s, ev) && !Settles(s, ev, y)
  {
    AsksAnyway(s, y, z);
    AskSendsAt(s, y, z);
    forall m | Env(y, m) in AskEnvelopes(s, y, z) ensures m.kind == ClientFree {
    }
    SettlesNothing(s, y, ConnectLine(TempName(z)), TempName(z));
  }

  lemma AskWanders(s: Sys, f: Fd, p: Fd)
    requires Fresh(Abs(s)) && f in s.cl && !s.cl[f].flags.busy && !s.cl[f].flags.req
    requires f in s.t.at && p in s.t.at && f != p && s.t.at[p].status == Free && s.t.at[f].toFd != p
    ensures Wanders(s, Type(f, ConnectLine(TempName(p))), f)
  {
    AsksAnyway(s, f, p);
    FindTemp(s.t, p);
  }

  /** X asks Y, who has not read that, asks Z, and only then reads everything. */
  lemma AskedElsewhere(x: Fd, y: Fd, z: Fd)
    returns (evs: seq<Event>, s: Sys, first: Event, between: seq<Event>, s': Sys)
    requires Three(x, y, z)
    ensures Queued(evs, s) && forall e :: e in evs && e.fd == z ==> !e.Type?
    ensures AskedThen(s, first, between, y) && After(Apply(s, first), between) == s'
    ensures !TakesUndef(MoveOf(s, first)) && NamedRun(Apply(s, first), between)
    ensures first.fd == x && forall e :: e in between ==> e.Deliver? || (e.Type? && e.fd == y)
    ensures !SettledIn(Apply(s, first), between, y) && WandersIn(Apply(s, first), between, y)
    ensures Fresh(Abs(s')) && y in s'.cl && s'.cl[y] == Peer(Abs(s').v[y], [])
    ensures Stands(Abs(s'), x, Free, y) && Stands(Abs(s'), y, ReqPending, z) && Stands(Abs(s'), z, ReqPending, y)
  {
    evs, s := TwoHaveRead(x, y, z);
    first := Type(x, ConnectLine(TempName(y)));
    AsksAnyway(s, x, y);
    AskSendsAt(s, x, y);
    AskIsQueued(s, first, y, Msg(ConnectionReqRx, NameByFd(s.t, x)));
    AskedStands(Abs(s), Abs(Apply(s, first)), x, y);
    AskKeepsFlags(s, x, ConnectLine(TempName(y)), Connect(TempName(y)), y);
    between, s' := ThenElsewhere(Apply(s, first), x, y, z);
  }

  lemma GoesElsewhere(s: Sys, x: Fd, y: Fd, z: Fd)
    requires Three(x, y, z) && Fresh(Abs(s)) && y in s.cl && !s.cl[y].flags.busy && !s.cl[y].flags.req
    requires Stands(Abs(s), x, Free, y) && Stands(Abs(s), y, ReqPending, x) && Stands(Abs(s), z, Free, INVALID_FD)
    ensures var ev := Type(y, ConnectLine(TempName(z)));
            && Enabled(s, ev) && !TakesUndef(MoveOf(s, ev)) && !Settles(s, ev, y) && Wanders(s, ev, y)
            && var s1 := Apply(s, ev);
               && Fresh(Abs(s1)) && y in s1.cl && Stands(Abs(s1), x, Free, y)
               && Stands(Abs(s1), y, ReqPending, z) && Stands(Abs(s1), z, ReqPending, y)
  {
    var ev := Type(y, ConnectLine(TempName(z)));
    AskIsNoAnswer(s, y, z);
    AsksAnyway(s, y, z);
    AskWanders(s, y, z);
    AskedStandsAs(Abs(s), Abs(Apply(s, ev)), y, z, ReqPending, x);
    Clients(Apply(s, ev), y);
  }

  lemma ThenElsewhere(s: Sys, x: Fd, y: Fd, z: Fd) returns (evs: seq<Event>, s': Sys)
    requires Three(x, y, z) && Fresh(Abs(s)) && y in s.cl && !s.cl[y].flags.busy && !s.cl[y].flags.req
    requires Stands(Abs(s), x, Free, y) && Stands(Abs(s), y, ReqPending, x) && Stands(Abs(s), z, Free, INVALID_FD)
    ensures IsRun(s, evs) && NamedRun(s, evs) && After(s, evs) == s'
    ensures forall e :: e in evs ==> e.Deliver? || (e.Type? && e.fd == y)
    ensures !SettledIn(s, evs, y) && WandersIn(s, evs, y)
    ensures Fresh(Abs(s')) && y in s'.cl && s'.cl[y] == Peer(Abs(s').v[y], [])
    ensures Stands(Abs(s'), x, Free, y) && Stands(Abs(s'), y, ReqPending, z) && Stands(Abs(s'), z, ReqPending, y)
  {
    var ev := Type(y, ConnectLine(TempName(z)));
    GoesElsewhere(s, x, y, z);
    var s1 := Apply(s, ev);
    var drained := Drain(s1, y);
    RunCons(s, ev, drained);
    DeliveriesSettleNothing(s1, drained, y);
    evs, s' := [ev] + drained, After(s1, drained);
    assert evs[0] == ev && evs[1..] == drained;
  }

  /** An answer meant for one client pairs two others.  X asks Y; Y, who has not
      read that, asks Z; then Y reads the request of X and types "yes".  The
      server makes Y and Z busy partners, though Z typed nothing, and X, who is
      still there, gets nothing. */
  lemma YesGoesElsewhere(x: Fd, y: Fd, z: Fd) returns (evs: seq<Event>, first: Event, between: seq<Event>)
    requires Three(x, y, z)
    ensures IsRun(INIT, evs) && NamedRun(INIT, evs) && AskedThen(After(INIT, evs), first, between, y)
    ensures first.fd == x && Stays(between, x)
    ensures forall e :: e in evs && e.fd == z ==> !e.Type?
    ensures forall e :: e in between ==> e.Deliver? || (e.Type? && e.fd == y)
    ensures var s := Apply(After(INIT, evs), first);
            !SettledIn(s, between, y) && !MutedIn(s, between, y) && WandersIn(s, between, y)
    ensures var s := After(Apply(After(INIT, evs), first), between);
            var yes := Type(y, "yes\n");
            && Enabled(s, yes) && !CrossStep(s, yes) && To(Sends(s, yes), x) == []
            && var t := Apply(s, yes).t;
               IsBusy(t, y) && ConnFd(t, y) == z && IsBusy(t, z) && ConnFd(t, z) == y && StatusByFd(t, x) == Free
  {
    var s, s';
    evs, s, first, between, s' := AskedElsewhere(x, y, z);
    InitSound();
    SoundAfter(INIT, evs);
    NamesOkAfter(INIT, evs);
    SoundStep(s, first);
    NamesOkStep(s, first);
    NamedIsHeard(Apply(s, first), between, y);
    ElseUncrossed(s', x, y, z);
    ElsePaired(s', x, y, z);
  }

  lemma ElsePaired(s: Sys, x: Fd, y: Fd, z: Fd)
    requires Three(x, y, z) && Fresh(Abs(s)) && y in s.cl && s.cl[y] == Peer(Abs(s).v[y], [])
    requires Stands(Abs(s), y, ReqPending, z) && Stands(Abs(s), z, ReqPending, y) && Stands(Abs(s), x, Free, y)
    requires Enabled(s, Type(y, "yes\n"))
    ensures var t := Apply(s, Type(y, "yes\n")).t;
            IsBusy(t, y) && ConnFd(t, y) == z && IsBusy(t, z) && ConnFd(t, z) == y && StatusByFd(t, x) == Free
  {
    var s' := Apply(s, Type(y, "yes\n"));
    SaysYesAt(s, y, z);
    CoupledStands(Abs(s), Abs(s'), y, z);
    assert Stands(Abs(s'), x, Free, y);
  }

  lemma ElseUncrossed(s: Sys, x: Fd, y: Fd, z: Fd)
    requires Three(x, y, z) && Fresh(Abs(s)) && y in s.cl && s.cl[y] == Peer(Abs(s).v[y], [])
    requires Stands(Abs(s), y, ReqPending, z) && Stands(Abs(s), z, ReqPending, y)
    ensures var yes := Type(y, "yes\n"); Enabled(s, yes) && !CrossStep(s, yes) && To(Sends(s, yes), x) == []
  {
    SaysYesAt(s, y, z);
    AskedTypes(s.cl[y].flags);
    TempIsWord(y);
    TempIsWord(z);
    AcceptSends(s.t, y);
    ToTwo(Env(y, Msg(ChatReady, TempName(z))), Env(z, Msg(AcceptAck, TempName(y))), x);
  }

  // ---- a busy client that says yes to somebody else ----

  /** Y asks Z; X asks Y; Y and Z read everything. */
  lemma AskedBothWays(x: Fd, y: Fd, z: Fd) returns (evs: seq<Event>, s: Sys)
    requires Three(x, y, z)
    ensures Queued(evs, s) && Fresh(Abs(s)) && s.t.at.Keys == {x, y, z}
    ensures Stands(Abs(s), x, Free, y) && Stands(Abs(s), y, ReqPending, x) && Stands(Abs(s), z, ReqPending, y)
    ensures y in s.cl && s.cl[y] == Peer(Abs(s).v[y], []) && z in s.cl && s.cl[z] == Peer(Abs(s).v[z], [])
  {
    var e0, s0 := TwoHaveRead(x, y, z);
    var e1, s1 := ThenAsksAnyway(e0, s0, y, z);
    AskedStands(Abs(s0), Abs(s1), y, z);
    var e2, s2 := ThenAsksAnyway(e1, s1, x, y);
    AskedStands(Abs(s1), Abs(s2), x, y);
    Clients(s2, y);
    Clients(s2, z);
    var e3, s3 := ReadsAll(e2, s2, y);
    evs, s := ReadsAll(e3, s3, z);
  }

  lemma LeftAlone(t: Table, z: Fd)
    requires IsBusy(t, z) && !IsBusy(t, ConnFd(t, z))
    ensures !Paired(t)
  {
    assert !HasPartner(t, z);
  }

  lemma SecondYes(s: Sys, y: Fd, z: Fd)
    requires Fresh(Abs(s)) && y in s.cl && y != z && s.cl[y].flags.req && !s.cl[y].flags.busy
    requires Stands(Abs(s), y, Busy, z) && Stands(Abs(s), z, Busy, y)
    ensures var yes := Type(y, "yes\n");
            && Enabled(s, yes) && StepBreaks(s, yes) && !CrossStep(s, yes)
            && var t := Apply(s, yes).t;
               StatusByFd(t, y) == Free && IsBusy(t, z) && ConnFd(t, z) == y
  {
    TempIsWord(z);
    AskedTypes(s.cl[y].flags);
    assert ChangeOf(s.t, y, Accept) == Refused;
    RequestAt(s, y, "yes\n", s.cl[y].flags.(req := false), Accept);
    assert z in Apply(s, Type(y, "yes\n")).t.at.Keys;
  }

  /** Z says yes, and Y has not read that. */
  lemma BothCoupled(x: Fd, y: Fd, z: Fd) returns (evs: seq<Event>, s: Sys)
    requires Three(x, y, z)
    ensures Queued(evs, s) && Fresh(Abs(s)) && Core(Abs(s)) && Paired(s.t)
    ensures Stands(Abs(s), y, Busy, z) && Stands(Abs(s), z, Busy, y)
    ensures y in s.cl && s.cl[y].flags.req && !s.cl[y].flags.busy
  {
    var e0, s0 := AskedBothWays(x, y, z);
    evs, s := ThenYes(e0, s0, z, y);
    assert Stands(Abs(s), x, Free, y);
    OnlyThree(s.t, x, y, z);
    ThreeAgree(s, y, z, x, Free, y);
  }

  /** A busy client accepts.  Y asks Z and is itself asked by X; Z says yes, and
      Y, who has not read that, says yes as well.  Y is freed, because the client
      it is linked to is busy, and Z is left busy with nobody. */
  lemma BusyClientAccepts(x: Fd, y: Fd, z: Fd) returns (evs: seq<Event>, ev: Event)
    requires Three(x, y, z)
    ensures IsRun(INIT, evs) && NamedRun(INIT, evs) && Enabled(After(INIT, evs), ev)
    ensures var s := After(INIT, evs);
            && Core(Abs(s)) && Paired(s.t) && IsBusy(s.t, y) && ev == Type(y, "yes\n")
            && StepBreaks(s, ev) && !CrossStep(s, ev)
    ensures var t := Apply(After(INIT, evs), ev).t;
            StatusByFd(t, y) == Free && IsBusy(t, z) && ConnFd(t, z) == y && !Paired(t)
  {
    var s;
    evs, s := BothCoupled(x, y, z);
    ev := Type(y, "yes\n");
    SecondYes(s, y, z);
    LeftAlone(Apply(s, ev).t, z);
  }
}

/** How to build a run: the lines users type, what each step does to the clients
    it concerns, and runs of the instant-reading system extended step by step. */
module Scenarios {
  import opened Common
  import opened Names
  import opened Table
  import opened CString
  import opened Commands
  import opened Client
  import opened Handlers
  import opened Changes
  import opened Composed
  import opened ViewAgreement
  import opened Reachable
  import opened Realise
  import opened UniqueNames

  // ---- what the users type ----

  function ConnectLine(name: string): string {
    "" + (CMDS[1] + " " + name) + "\n"
  }

  function SetNameLine(name: string): string {
    "" + (CMDS[3] + " " + name) + "\n"
  }

  lemma IdleTypes(c: Flags, name: string)
    requires !c.busy && !c.req && OneWord(name)
    ensures Typed(c, ConnectLine(name)) == (c, Some(Connect(name)))
    ensures Typed(c, SetNameLine(name)) == (c, Some(SetName(name)))
  {
    CommandRoundTrip("", CMDS[1], " ", name);
    CommandRoundTrip("", CMDS[3], " ", name);
    assert |ConnectLine(name)| > 1 && |SetNameLine(name)| > 1;
  }

  lemma AskedTypes(c: Flags)
    requires !c.busy && c.req
    ensures Typed(c, "yes\n") == (c.(req := false), Some(Accept))
    ensures Typed(c, "no\n") == (c.(req := false), Some(Decline))
  {
    assert Chomp("yes\n") == "yes" && Chomp("no\n") == "no";
    CStrIs("yes", 3);
    CStrIs("no", 2);
  }

  lemma WordTyped(w: string)
    requires OneWord(w) && w[0] != '\t'
    ensures Normalised(w + "\n") == w && w + "\n" != "\n"
  {
    assert w[0] in w;
    assert Chomp(w + "\n") == w;
    assert w[..|w|] == w;
    CStrIs(w, |w|);
  }

  const HANG_UP := DISCONNECT_CMD + "\n"

  lemma BusyTypes(c: Flags)
    requires c.busy
    ensures Typed(c, HANG_UP) == (c.(busy := false, peer := UNDEF_NAME), Some(Tx(DISCONNECT_CMD)))
    ensures |HANG_UP| == 11
  {
    WordTyped(DISCONNECT_CMD);
  }

  lemma TempIsWord(fd: Fd)
    requires ValidFd(fd)
    ensures OneWord(TempName(fd)) && |TempName(fd)| <= 27 && TempName(fd) != UNDEF_NAME
  {
    TempNameFits(fd);
    DecimalShape(fd, 10);
    assert Pow10(10) == 10_000_000_000 by {
      assert Pow10(5) == 100_000;
    }
    forall c | c in TempName(fd) ensures c != '\n' {
      assert c in TEMP_PREFIX || c in Decimal(fd);
    }
  }

  // ---- steps ----

  ghost predicate Up(a: View) {
    Wf(a.t) && Linked(a.t) && a.v.Keys == a.t.at.Keys && !a.locked
  }

  /** `b` is what `a` becomes when `fd`, whose flags are then `c`, causes `ch`. */
  ghost predicate Leads(a: View, b: View, fd: Fd, c: Flags, ch: Change) {
    Up(b) && Changed(a.t, b.t, fd, ch) && Told(a.t, a.v[fd := c], b.v, fd, ch)
  }

  lemma RequestStep(a: View, fd: Fd, raw: string, c: Flags, r: Request)
    requires Up(a) && fd in a.v && 0 < |raw| < MAX_MSG_LEN && Typed(a.v[fd], raw) == (c, Some(r))
    requires !ChangeOf(a.t, fd, r).Stuck?
    ensures CanStep(a, Type(fd, raw)) && Instant(a, Type(fd, raw)) == Types(fd, c, Some(r))
    ensures Leads(a, Step(a, Type(fd, raw)), fd, c, ChangeOf(a.t, fd, r))
  {
    HandleChanges(a.t, fd, r);
    HandleTold(a.t, fd, r, a.v[fd := c]);
    HandleKeepsLinks(a.t, fd, r);
  }

  predicate Idle(a: View, f: Fd) {
    f in a.v && !a.v[f].busy && !a.v[f].req
  }

  lemma AsksChange(t: Table, f: Fd, b: Fd, name: string)
    requires Wf(t) && f in t.at && b in t.at && t.at[b].status == Free
    requires FdByName(t, name) == b && t.at[f].name != name
    ensures ChangeOf(t, f, Connect(name)) == Asked(b)
  {
    ConnectTarget(t, name);
    assert f in t.order && INVALID_FD !in t.at;
  }

  /** An idle client asks for a free one by the name the list finds it under. */
  lemma AsksByName(a: View, f: Fd, b: Fd, name: string)
    requires Up(a) && Idle(a, f) && b in a.t.at && a.t.at[b].status == Free
    requires OneWord(name) && |name| < MAX_CLIENT_NAME_LEN && FdByName(a.t, name) == b && a.t.at[f].name != name
    ensures var ev := Type(f, ConnectLine(name));
            CanStep(a, ev) && !TakesUndef(Instant(a, ev)) && Leads(a, Step(a, ev), f, a.v[f], Asked(b))
  {
    IdleTypes(a.v[f], name);
    AsksChange(a.t, f, b, name);
    RequestStep(a, f, ConnectLine(name), a.v[f], Connect(name));
  }

  /** An idle client takes a name nobody bears. */
  lemma TakesName(a: View, f: Fd, name: string)
    requires Up(a) && Idle(a, f) && OneWord(name) && |name| <= MAX_CLIENT_NAME_LEN
    requires forall g :: g in a.t.at ==> a.t.at[g].name != name
    ensures var ev := Type(f, SetNameLine(name));
            && CanStep(a, ev) && (TakesUndef(Instant(a, ev)) <==> name == UNDEF_NAME)
            && Leads(a, Step(a, ev), f, a.v[f], Renamed(Clip(name, MAX_CLIENT_NAME_LEN - 1)))
  {
    IdleTypes(a.v[f], name);
    ConnectTarget(a.t, name);
    assert f in a.t.order;
    RequestStep(a, f, SetNameLine(name), a.v[f], SetName(name));
  }

  predicate MayAnswer(a: View, y: Fd) {
    y in a.v && a.v[y].req && !a.v[y].busy && y in a.t.at && a.t.at[y].status == ReqPending
  }

  lemma SaysNo(a: View, y: Fd)
    requires Up(a) && MayAnswer(a, y)
    ensures var ev := Type(y, "no\n");
            CanStep(a, ev) && !TakesUndef(Instant(a, ev))
            && Leads(a, Step(a, ev), y, a.v[y].(req := false), Declined)
  {
    AskedTypes(a.v[y]);
    RequestStep(a, y, "no\n", a.v[y].(req := false), Decline);
  }

  /** The yes of a client that is asked by one that is not busy. */
  lemma SaysYes(a: View, y: Fd)
    requires Up(a) && MayAnswer(a, y)
    requires var x := a.t.at[y].toFd; x in a.t.at && a.t.at[x].status != Busy && a.t.at[x].name != UNDEF_NAME
    ensures var ev := Type(y, "yes\n");
            CanStep(a, ev) && !TakesUndef(Instant(a, ev))
            && Leads(a, Step(a, ev), y, a.v[y].(req := false),
                     Coupled(a.t.at[y].toFd, a.t.at[y].name != UNDEF_NAME))
  {
    AskedTypes(a.v[y]);
    RequestStep(a, y, "yes\n", a.v[y].(req := false), Accept);
  }

  lemma Leaves(a: View, x: Fd)
    requires Up(a) && x in a.v
    ensures CanStep(a, Close(x)) && Up(Step(a, Close(x)))
    ensures Closed(a.t, Step(a, Close(x)).t, x) && |Step(a, Close(x)).t.order| == |a.t.order| - 1
    ensures ToldOfClose(a.t, a.v - {x}, Step(a, Close(x)).v, x)
  {
    CloseShape(a.t, x);
    CloseKeepsLinks(a.t, x);
    CloseTold(a.t, x, a.v - {x});
  }

  lemma Arrives(a: View, x: Fd)
    requires Up(a) && ValidFd(x) && x !in a.t.at && |a.t.order| < MAX_CLIENT
    ensures CanStep(a, Join(x)) && Up(Step(a, Join(x)))
    ensures Step(a, Join(x)) == View(Register(a.t, x), a.v[x := START], false)
  {
    RegisterKeepsLinks(a.t, x);
  }

  // ---- runs, one step at a time ----

  /** A state of the instant-reading system and a run that leads there. */
  ghost predicate Reached(evs: seq<Event>, a: View) {
    && AbsRun(Abs(INIT), evs) && AbsNamed(Abs(INIT), evs)
    && AbsAfter(Abs(INIT), evs) == a
  }

  lemma Extend(evs: seq<Event>, a: View, ev: Event)
    requires Reached(evs, a) && CanStep(a, ev) && !TakesUndef(Instant(a, ev))
    ensures Reached(evs + [ev], Step(a, ev))
  {
    AbsRunThen(Abs(INIT), evs, ev);
  }

  /** Clients under the names made at their registration, with room for more. */
  ghost predicate Fresh(a: View) {
    && Up(a) && |a.t.order| <= 4
    && (forall f :: f in a.t.at ==> a.t.at[f].name == TempName(f))
  }

  ghost predicate Stands(a: View, f: Fd, s: Status, to: Fd) {
    && f in a.t.at && f in a.v && a.t.at[f].status == s && a.t.at[f].toFd == to
    && AgreesAt(a.v[f], s)
  }

  /** The clients other than `f` and `g` are as they were. */
  ghost predicate Others(a: View, b: View, f: Fd, g: Fd) {
    forall h, s, to :: Stands(a, h, s, to) && h != f && h != g ==> Stands(b, h, s, to)
  }

  ghost predicate SameFds(a: View, b: View) {
    b.t.at.Keys == a.t.at.Keys && |b.t.order| == |a.t.order|
  }

  lemma FreshKept(a: View, b: View, fd: Fd, c: Flags, ch: Change)
    requires Fresh(a) && Leads(a, b, fd, c, ch) && !ch.Renamed?
    ensures Fresh(b) && SameFds(a, b)
  {
    ChangeKeepsNames(a.t, b.t, fd, ch);
  }

  lemma ThenJoins(evs: seq<Event>, a: View, x: Fd) returns (evs': seq<Event>, b: View)
    requires Reached(evs, a) && Fresh(a) && ValidFd(x) && x !in a.t.at && |a.t.order| < 4
    ensures Reached(evs', b) && Fresh(b)
    ensures b.t.at.Keys == a.t.at.Keys + {x} && |b.t.order| == |a.t.order| + 1
    ensures Stands(b, x, Free, INVALID_FD) && Others(a, b, x, x)
    ensures forall e :: e in evs' ==> e in evs || e.Join?
  {
    Arrives(a, x);
    Extend(evs, a, Join(x));
    evs', b := evs + [Join(x)], Step(a, Join(x));
  }

  lemma AskedStandsAs(a: View, b: View, f: Fd, p: Fd, s: Status, to: Fd)
    requires f in a.t.at && p in a.t.at && Stands(a, f, s, to) && Stands(a, p, Free, a.t.at[p].toFd)
    requires Up(a) && Leads(a, b, f, a.v[f], Asked(p)) && f != p
    ensures Stands(b, f, s, p) && Stands(b, p, ReqPending, f) && Others(a, b, f, p)
  {
  }

  lemma AskedStands(a: View, b: View, f: Fd, p: Fd)
    requires f in a.t.at && p in a.t.at && Stands(a, f, Free, a.t.at[f].toFd) && Stands(a, p, Free, a.t.at[p].toFd)
    requires Up(a) && Leads(a, b, f, a.v[f], Asked(p)) && f != p
    ensures Stands(b, f, Free, p) && Stands(b, p, ReqPending, f) && Others(a, b, f, p)
  {
    AskedStandsAs(a, b, f, p, Free, a.t.at[f].toFd);
  }

  /** A free client asks a free one. */
  lemma ThenAsks(evs: seq<Event>, a: View, f: Fd, p: Fd) returns (evs': seq<Event>, b: View)
    requires Reached(evs, a) && Fresh(a) && f != p
    requires f in a.t.at && p in a.t.at && Stands(a, f, Free, a.t.at[f].toFd) && Stands(a, p, Free, a.t.at[p].toFd)
    ensures Reached(evs', b) && Fresh(b) && SameFds(a, b)
    ensures Stands(b, f, Free, p) && Stands(b, p, ReqPending, f) && Others(a, b, f, p)
  {
    var ev := Type(f, ConnectLine(TempName(p)));
    FindTemp(a.t, p);
    TempIsWord(p);
    AsksByName(a, f, p, TempName(p));
    Extend(evs, a, ev);
    evs', b := evs + [ev], Step(a, ev);
    FreshKept(a, b, f, a.v[f], Asked(p));
    AskedStands(a, b, f, p);
  }

  lemma DeclinedStands(a: View, b: View, y: Fd, x: Fd)
    requires Up(a) && Stands(a, y, ReqPending, x) && Leads(a, b, y, a.v[y].(req := false), Declined)
    ensures Stands(b, y, Free, x) && Others(a, b, y, y)
  {
  }

  /** A client that is asked says no. */
  lemma ThenSaysNo(evs: seq<Event>, a: View, y: Fd, x: Fd) returns (evs': seq<Event>, b: View)
    requires Reached(evs, a) && Fresh(a) && Stands(a, y, ReqPending, x)
    ensures Reached(evs', b) && Fresh(b) && SameFds(a, b)
    ensures Stands(b, y, Free, x) && Others(a, b, y, y)
  {
    var ev := Type(y, "no\n");
    SaysNo(a, y);
    Extend(evs, a, ev);
    evs', b := evs + [ev], Step(a, ev);
    FreshKept(a, b, y, a.v[y].(req := false), Declined);
    DeclinedStands(a, b, y, x);
  }

  lemma CoupledStands(a: View, b: View, y: Fd, x: Fd)
    requires Up(a) && Stands(a, y, ReqPending, x) && x in a.t.at
    requires Leads(a, b, y, a.v[y].(req := false), Coupled(x, true))
    ensures Stands(b, y, Busy, x) && Stands(b, x, Busy, y) && Others(a, b, y, x)
  {
  }

  /** A client that is asked says yes. */
  lemma ThenSaysYes(evs: seq<Event>, a: View, y: Fd, x: Fd) returns (evs': seq<Event>, b: View)
    requires Reached(evs, a) && Fresh(a) && Stands(a, y, ReqPending, x) && x in a.t.at && a.t.at[x].status != Busy
    ensures Reached(evs', b) && Fresh(b) && SameFds(a, b)
    ensures Stands(b, y, Busy, x) && Stands(b, x, Busy, y) && Others(a, b, y, x)
  {
    var ev := Type(y, "yes\n");
    TempIsWord(x);
    TempIsWord(y);
    SaysYes(a, y);
    Extend(evs, a, ev);
    evs', b := evs + [ev], Step(a, ev);
    FreshKept(a, b, y, a.v[y].(req := false), Coupled(x, true));
    CoupledStands(a, b, y, x);
  }

  lemma ClosedStands(a: View, b: View, x: Fd, p: Fd, s: Status, to: Fd)
    requires Wf(a.t) && Stands(a, p, s, to) && x in a.t.at && a.t.at[x].toFd == p && p != x
    requires Closed(a.t, b.t, x) && ToldOfClose(a.t, a.v - {x}, b.v, x)
    ensures Stands(b, p, Free, to) && Others(a, b, x, p)
  {
    assert p in a.v - {x} && p in b.t.at.Keys;
    forall h, s, to | Stands(a, h, s, to) && h != x && h != p ensures Stands(b, h, s, to) {
      assert h in a.v - {x} && h in b.t.at.Keys;
    }
  }

  /** A client closes, which frees the one it is linked to. */
  lemma ThenLeaves(evs: seq<Event>, a: View, x: Fd, p: Fd, s: Status, to: Fd) returns (evs': seq<Event>, b: View)
    requires Reached(evs, a) && Fresh(a) && x in a.t.at && a.t.at[x].toFd == p && p != x && Stands(a, p, s, to)
    ensures Reached(evs', b) && Fresh(b) && b.t.at.Keys == a.t.at.Keys - {x} && |b.t.order| == |a.t.order| - 1
    ensures Stands(b, p, Free, to) && Others(a, b, x, p)
  {
    Leaves(a, x);
    Extend(evs, a, Close(x));
    evs', b := evs + [Close(x)], Step(a, Close(x));
    ClosedStands(a, b, x, p, s, to);
    forall f | f in b.t.at ensures b.t.at[f].name == TempName(f) {
      assert f in a.t.at.Keys - {x};
    }
  }

  /** A run in which the name NAME_NOT_DEFINED may be taken, too. */
  ghost predicate Arrived(evs: seq<Event>, a: View) {
    AbsRun(Abs(INIT), evs) && AbsAfter(Abs(INIT), evs) == a
  }

  lemma RenamedView(a: View, b: View, f: Fd, name: string)
    requires Up(a) && f in a.v && Leads(a, b, f, a.v[f], Renamed(name))
    ensures b.v == a.v && SameFds(a, b)
    ensures forall g :: g in a.t.at ==> b.t.at[g] == if g == f then a.t.at[f].(name := name) else a.t.at[g]
  {
    assert b.v.Keys == a.v.Keys;
    assert forall g :: g in a.v ==> b.v[g] == a.v[g];
  }

  lemma ThenTakesName(evs: seq<Event>, a: View, f: Fd, name: string) returns (evs': seq<Event>, b: View)
    requires Arrived(evs, a) && Up(a) && Idle(a, f) && OneWord(name) && |name| <= MAX_CLIENT_NAME_LEN
    requires forall g :: g in a.t.at ==> a.t.at[g].name != name
    ensures Arrived(evs', b) && Up(b) && b.v == a.v && SameFds(a, b)
    ensures Reached(evs, a) && name != UNDEF_NAME ==> Reached(evs', b)
    ensures forall g :: g in a.t.at ==>
              b.t.at[g] == if g == f then a.t.at[f].(name := Clip(name, MAX_CLIENT_NAME_LEN - 1)) else a.t.at[g]
  {
    var ev := Type(f, SetNameLine(name));
    TakesName(a, f, name);
    AbsRunThen(Abs(INIT), evs, ev);
    evs', b := evs + [ev], Step(a, ev);
    RenamedView(a, b, f, Clip(name, MAX_CLIENT_NAME_LEN - 1));
  }

  // ---- steps of the queued system, whatever waits unread ----

  /** A request sent with messages unread. */
  lemma RequestAt(s: Sys, fd: Fd, raw: string, c: Flags, r: Request)
    requires Up(Abs(s)) && fd in s.cl && 0 < |raw| < MAX_MSG_LEN && Typed(s.cl[fd].flags, raw) == (c, Some(r))
    ensures Enabled(s, Type(fd, raw))
    ensures var s' := Apply(s, Type(fd, raw));
            var ch := ChangeOf(s.t, fd, r);
            && Changed(s.t, s'.t, fd, ch) && (s'.locked <==> ch.Stuck?) && (!ch.Stuck? ==> Up(Abs(s')))
            && Told(s.t, Abs(s).v[fd := Replay(c, s.cl[fd].inbox)], Abs(s').v, fd, ch)
  {
    StepRefines(s, Type(fd, raw));
    HandleChanges(s.t, fd, r);
    HandleTold(s.t, fd, r, Abs(s).v[fd := Replay(c, s.cl[fd].inbox)]);
    HandleKeepsLinks(s.t, fd, r);
  }

  /** Nobody else touches the flags a client acts on. */
  lemma {:induction false} PostKeepsFlags(cl: map<Fd, Peer>, sends: seq<Envelope>, y: Fd)
    requires y in cl
    ensures y in Post(cl, sends) && Post(cl, sends)[y].flags == cl[y].flags
    decreases |sends|
  {
    if sends != [] {
      var e := sends[0];
      PostKeepsFlags(if e.dst in cl then cl[e.dst := cl[e.dst].(inbox := cl[e.dst].inbox + [e.msg])] else cl,
                     sends[1..], y);
    }
  }

  lemma FlagsStay(s: Sys, ev: Event, y: Fd)
    requires Enabled(s, ev) && y in s.cl && ev.fd != y
    ensures y in Apply(s, ev).cl && Apply(s, ev).cl[y].flags == s.cl[y].flags
  {
    match ev {
      case Type(fd, raw) =>
        var (c, r) := Typed(s.cl[fd].flags, raw);
        if r.Some? {
          PostKeepsFlags(s.cl[fd := s.cl[fd].(flags := c)], Handle(s.t, fd, r.value).sends, y);
        }
      case Close(fd) => PostKeepsFlags(s.cl - {fd}, HandleClose(s.t, fd).sends, y);
      case _ =>
    }
  }

  /** A queued run and the state it leads to. */
  ghost predicate Queued(evs: seq<Event>, s: Sys) {
    IsRun(INIT, evs) && NamedRun(INIT, evs) && After(INIT, evs) == s
  }

  /** No event of the run but those of `was`, deliveries, and one line of `f`. */
  predicate Extends(evs: seq<Event>, was: seq<Event>, f: Fd) {
    forall e :: e in evs ==> e in was || e.Deliver? || (e.Type? && e.fd == f)
  }

  /** A client reads everything that waits for it. */
  lemma ReadsAll(evs: seq<Event>, s: Sys, f: Fd) returns (evs': seq<Event>, s': Sys)
    requires Queued(evs, s) && f in s.cl
    ensures Queued(evs', s') && Extends(evs', evs, f)
    ensures Abs(s') == Abs(s) && s'.cl == s.cl[f := Peer(Pending(s.cl[f]), [])]
  {
    var drained := Drain(s, f);
    RunsCompose(INIT, evs, drained);
    evs', s' := evs + drained, After(s, drained);
  }

  /** A client whose flags are idle asks a free one. */
  lemma AsksAnyway(s: Sys, f: Fd, p: Fd)
    requires Fresh(Abs(s)) && f in s.cl && !s.cl[f].flags.busy && !s.cl[f].flags.req
    requires f in s.t.at && p in s.t.at && f != p && s.t.at[p].status == Free
    ensures var ev := Type(f, ConnectLine(TempName(p)));
            && Enabled(s, ev) && !TakesUndef(MoveOf(s, ev))
            && Typed(s.cl[f].flags, ConnectLine(TempName(p))) == (s.cl[f].flags, Some(Connect(TempName(p))))
            && ChangeOf(s.t, f, Connect(TempName(p))) == Asked(p)
            && Fresh(Abs(Apply(s, ev))) && Leads(Abs(s), Abs(Apply(s, ev)), f, Abs(s).v[f], Asked(p))
  {
    var ev, c := Type(f, ConnectLine(TempName(p))), s.cl[f].flags;
    FindTemp(s.t, p);
    TempIsWord(p);
    IdleTypes(c, TempName(p));
    AsksChange(s.t, f, p, TempName(p));
    RequestAt(s, f, ConnectLine(TempName(p)), c, Connect(TempName(p)));
    assert Abs(s).v[f] == Replay(c, s.cl[f].inbox);
    FreshKept(Abs(s), Abs(Apply(s, ev)), f, Abs(s).v[f], Asked(p));
  }

  lemma AskKeepsFlags(s: Sys, f: Fd, raw: string, r: Request, y: Fd)
    requires Enabled(s, Type(f, raw)) && f in s.cl && Typed(s.cl[f].flags, raw) == (s.cl[f].flags, Some(r)) && y in s.cl
    ensures y in Apply(s, Type(f, raw)).cl && Apply(s, Type(f, raw)).cl[y].flags == s.cl[y].flags
  {
    PostKeepsFlags(s.cl[f := s.cl[f].(flags := s.cl[f].flags)], Handle(s.t, f, r).sends, y);
  }

  /** Nobody's flags but those of `f` are touched before something is read. */
  ghost predicate FlagsKept(s: Sys, s': Sys, f: Fd) {
    forall y :: y in s.cl && y != f ==> y in s'.cl && s'.cl[y].flags == s.cl[y].flags
  }

  lemma AllFlagsStay(s: Sys, ev: Event)
    requires Enabled(s, ev)
    ensures FlagsKept(s, Apply(s, ev), ev.fd)
  {
    forall y | y in s.cl && y != ev.fd ensures y in Apply(s, ev).cl && Apply(s, ev).cl[y].flags == s.cl[y].flags {
      FlagsStay(s, ev, y);
    }
  }

  lemma ThenAsksAnyway(evs: seq<Event>, s: Sys, f: Fd, p: Fd) returns (evs': seq<Event>, s': Sys)
    requires Queued(evs, s) && Fresh(Abs(s)) && f in s.cl && !s.cl[f].flags.busy && !s.cl[f].flags.req
    requires f in s.t.at && p in s.t.at && f != p && s.t.at[p].status == Free
    ensures Queued(evs', s') && Extends(evs', evs, f)
    ensures Fresh(Abs(s')) && Leads(Abs(s), Abs(s'), f, Abs(s).v[f], Asked(p))
    ensures FlagsKept(s, s', f) && f in s'.cl && s'.cl[f].flags == s.cl[f].flags
  {
    var ev := Type(f, ConnectLine(TempName(p)));
    AsksAnyway(s, f, p);
    RunThen(INIT, evs, ev);
    evs', s' := evs + [ev], Apply(s, ev);
    AllFlagsStay(s, ev);
    AskKeepsFlags(s, f, ConnectLine(TempName(p)), Connect(TempName(p)), f);
  }

  /** A client that has read a request says yes. */
  lemma SaysYesAt(s: Sys, y: Fd, x: Fd)
    requires Fresh(Abs(s)) && y in s.cl && s.cl[y] == Peer(Abs(s).v[y], [])
    requires Stands(Abs(s), y, ReqPending, x) && x in s.t.at && s.t.at[x].status != Busy
    ensures var ev := Type(y, "yes\n");
            && Enabled(s, ev) && !TakesUndef(MoveOf(s, ev)) && Fresh(Abs(Apply(s, ev)))
            && Leads(Abs(s), Abs(Apply(s, ev)), y, Abs(s).v[y].(req := false), Coupled(x, true))
  {
    var ev := Type(y, "yes\n");
    TempIsWord(x);
    TempIsWord(y);
    SaysYes(Abs(s), y);
    DrainedIsInstant(s, ev);
    FreshKept(Abs(s), Abs(Apply(s, ev)), y, Abs(s).v[y].(req := false), Coupled(x, true));
  }

  lemma YesStandsAt(s: Sys, y: Fd, x: Fd)
    requires Fresh(Abs(s)) && y in s.cl && s.cl[y] == Peer(Abs(s).v[y], [])
    requires Stands(Abs(s), y, ReqPending, x) && x in s.t.at && s.t.at[x].status != Busy
    ensures Enabled(s, Type(y, "yes\n")) && !TakesUndef(MoveOf(s, Type(y, "yes\n")))
    ensures var s' := Apply(s, Type(y, "yes\n"));
            && Fresh(Abs(s')) && s'.t.at.Keys == s.t.at.Keys
            && Stands(Abs(s'), y, Busy, x) && Stands(Abs(s'), x, Busy, y) && Others(Abs(s), Abs(s'), y, x)
            && Abs(s').v[x].peer == TempName(y) && Abs(s').v[y].peer == TempName(x)
  {
    SaysYesAt(s, y, x);
    CoupledStands(Abs(s), Abs(Apply(s, Type(y, "yes\n"))), y, x);
  }

  lemma ThenYes(evs: seq<Event>, s: Sys, y: Fd, x: Fd) returns (evs': seq<Event>, s': Sys)
    requires Queued(evs, s) && Fresh(Abs(s)) && y in s.cl && s.cl[y] == Peer(Abs(s).v[y], [])
    requires Stands(Abs(s), y, ReqPending, x) && x in s.t.at && s.t.at[x].status != Busy
    ensures Queued(evs', s') && Extends(evs', evs, y) && Fresh(Abs(s')) && s'.t.at.Keys == s.t.at.Keys
    ensures Stands(Abs(s'), y, Busy, x) && Stands(Abs(s'), x, Busy, y) && Others(Abs(s), Abs(s'), y, x)
    ensures Abs(s').v[x].peer == TempName(y) && Abs(s').v[y].peer == TempName(x)
    ensures FlagsKept(s, s', y)
  {
    var ev := Type(y, "yes\n");
    YesStandsAt(s, y, x);
    RunThen(INIT, evs, ev);
    evs', s' := evs + [ev], Apply(s, ev);
    AllFlagsStay(s, ev);
  }
}

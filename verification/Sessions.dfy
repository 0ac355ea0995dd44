/** Chat sessions in composed runs: which steps can break a pair, when a link
    stays where it is, and that no message is lost. */
module Sessions {
  import opened Common
  import opened Table
  import opened Client
  import opened Handlers
  import opened Changes
  import opened Composed
  import opened ViewAgreement
  import opened Reachable
  import opened Pairing

  // ---- pairing ----

  /** The step breaks a pair: by a request, or by a close. */
  predicate StepBreaks(s: Sys, ev: Event) {
    match ev
    case Type(fd, raw) =>
      && fd in s.cl
      && var r := Typed(s.cl[fd].flags, raw).1;
         r.Some? && Breaks(s.t, Receive(fd, r.value))
    case Close(fd) => Breaks(s.t, Gone(fd))
    case _ => false
  }

  /** In the composed system, on any inbox, a step unpairs busy clients if and
      only if it is one of the cases of the exact pairing theorem. */
  lemma ComposedPairing(s: Sys, ev: Event)
    requires Sound(Abs(s)) && Enabled(s, ev) && Paired(s.t)
    ensures Paired(Apply(s, ev).t) <==> !StepBreaks(s, ev)
  {
    match ev {
      case Join(fd) => ExactPairing(s.t, Arrive(fd));
      case Deliver(_) =>
      case Close(fd) => ExactPairing(s.t, Gone(fd));
      case Type(fd, raw) =>
        var r := Typed(s.cl[fd].flags, raw).1;
        if r.Some? {
          ExactPairing(s.t, Receive(fd, r.value));
        }
    }
  }

  /** A client that is in no chat closes while its old link leads into one. */
  predicate BreakingClose(t: Table, ev: Event) {
    ev.Close? && Breaks(t, Gone(ev.fd))
  }

  /** Where flags and statuses agree, only the close case is left for a user
      who has read everything. */
  lemma DrainedBreaks(s: Sys, ev: Event)
    requires Core(Abs(s)) && Enabled(s, ev) && Drained(s, ev)
    ensures StepBreaks(s, ev) <==> BreakingClose(s.t, ev)
  {
    if ev.Type? {
      SendsByStatus(s, ev.fd, ev.raw);
    }
  }

  /** A run in which no step breaks a pair. */
  predicate CalmRun(s: Sys, evs: seq<Event>)
    requires IsRun(s, evs)
    decreases |evs|
  {
    evs == [] || (!StepBreaks(s, evs[0]) && CalmRun(Apply(s, evs[0]), evs[1..]))
  }

  ghost predicate PairedThroughout(s: Sys, evs: seq<Event>)
    requires IsRun(s, evs)
    decreases |evs|
  {
    Paired(s.t) && (evs == [] || PairedThroughout(Apply(s, evs[0]), evs[1..]))
  }

  lemma {:induction false} PairedAlong(s: Sys, evs: seq<Event>)
    requires Sound(Abs(s)) && Paired(s.t) && IsRun(s, evs)
    ensures PairedThroughout(s, evs) <==> CalmRun(s, evs)
    ensures CalmRun(s, evs) ==> Paired(After(s, evs).t)
    decreases |evs|
  {
    if evs != [] {
      SoundStep(s, evs[0]);
      ComposedPairing(s, evs[0]);
      if !StepBreaks(s, evs[0]) {
        PairedAlong(Apply(s, evs[0]), evs[1..]);
      }
    }
  }

  /** The busy clients are in pairs in every state of a run if and only if no
      step of it breaks a pair; and then there is always an even number of them. */
  lemma CalmRunsStayPaired(evs: seq<Event>)
    requires IsRun(INIT, evs)
    ensures PairedThroughout(INIT, evs) <==> CalmRun(INIT, evs)
    ensures CalmRun(INIT, evs) ==> |BusySet(After(INIT, evs).t)| % 2 == 0
  {
    InitSound();
    PairedAlong(INIT, evs);
    SoundAfter(INIT, evs);
    if CalmRun(INIT, evs) {
      BusyIsEven(After(INIT, evs).t);
    }
  }

  /** Users who read everything before they type break pairs only by leaving. */
  predicate NoBreakingClose(s: Sys, evs: seq<Event>)
    requires IsRun(s, evs)
    decreases |evs|
  {
    evs == [] || (!BreakingClose(s.t, evs[0]) && NoBreakingClose(Apply(s, evs[0]), evs[1..]))
  }

  lemma {:induction false} PromptIsCalm(s: Sys, evs: seq<Event>)
    requires Core(Abs(s)) && IsRun(s, evs) && PromptRun(s, evs) && TunedRun(s, evs)
    ensures CalmRun(s, evs) <==> NoBreakingClose(s, evs)
    decreases |evs|
  {
    if evs != [] {
      DrainedBreaks(s, evs[0]);
      CoreStep(s, evs[0]);
      PromptIsCalm(Apply(s, evs[0]), evs[1..]);
    }
  }

  // ---- when a link stays ----

  /** `x` itself asks a free client other than the one it is linked to. */
  predicate Wanders(s: Sys, ev: Event, x: Fd) {
    && ev.Type? && ev.fd == x && x in s.cl
    && var r := Typed(s.cl[x].flags, ev.raw).1;
       && r.Some? && r.value.Connect?
       && var name := r.value.target;
          && name != NameByFd(s.t, x) && StatusByName(s.t, name) == Free
          && FdByName(s.t, name) != ConnFd(s.t, x)
  }

  lemma ChangeMovesLink(t: Table, t': Table, fd: Fd, ch: Change, x: Fd)
    requires Changed(t, t', fd, ch) && Guarded(t, fd, ch)
    requires x in t.at && t.at[x].status != Free && t'.at[x].status == t.at[x].status
    ensures t'.at[x].toFd != t.at[x].toFd <==> x == fd && ch.Asked? && ch.peer != t.at[x].toFd
    ensures t'.at[x].toFd != t.at[x].toFd ==> t'.at[x].toFd == ch.peer
  {
  }

  lemma AskedWhom(t: Table, fd: Fd, r: Request)
    requires Wf(t) && fd in t.at
    ensures ChangeOf(t, fd, r).Asked? <==>
            r.Connect? && r.target != t.at[fd].name && StatusByName(t, r.target) == Free
    ensures ChangeOf(t, fd, r).Asked? ==> ChangeOf(t, fd, r).peer == FdByName(t, r.target)
  {
    if r.Connect? {
      ConnectTarget(t, r.target);
      assert fd != INVALID_FD && INVALID_FD !in t.at && fd in t.order;
    }
  }

  lemma RequestMovesLink(t: Table, fd: Fd, r: Request, x: Fd)
    requires Wf(t) && Linked(t) && fd in t.at && x in t.at && t.at[x].status != Free
    requires StatusByFd(Handle(t, fd, r).t, x) == t.at[x].status
    ensures ConnFd(Handle(t, fd, r).t, x) != t.at[x].toFd <==>
            && x == fd && r.Connect? && r.target != t.at[fd].name
            && StatusByName(t, r.target) == Free && FdByName(t, r.target) != t.at[x].toFd
    ensures ConnFd(Handle(t, fd, r).t, x) != t.at[x].toFd ==> ConnFd(Handle(t, fd, r).t, x) == FdByName(t, r.target)
  {
    AskedWhom(t, fd, r);
    HandleChanges(t, fd, r);
    ChangeMovesLink(t, Handle(t, fd, r).t, fd, ChangeOf(t, fd, r), x);
  }

  lemma CloseMovesNoLink(t: Table, fd: Fd, x: Fd)
    requires Wf(t) && fd in t.at && x in HandleClose(t, fd).t.at
    ensures x in t.at && ConnFd(HandleClose(t, fd).t, x) == t.at[x].toFd
  {
    CloseShape(t, fd);
    assert x in t.at.Keys - {fd};
  }

  /** The client `x` is linked to after a step in which it stays what it is. */
  function LinkNext(s: Sys, ev: Event, x: Fd, link: Fd): Fd {
    if Wanders(s, ev, x) then FdByName(s.t, Typed(s.cl[x].flags, ev.raw).1.value.target) else link
  }

  /** As long as a client is busy, or stays pending, its link does not move,
      paired or not, unless it itself asks somebody else; then it is linked to
      the one it asked. */
  lemma LinkFrozen(s: Sys, ev: Event, x: Fd)
    requires Sound(Abs(s)) && Enabled(s, ev)
    requires x in s.t.at && s.t.at[x].status != Free
    requires StatusByFd(Apply(s, ev).t, x) == s.t.at[x].status
    ensures Apply(s, ev).t.at[x].toFd != s.t.at[x].toFd <==> Wanders(s, ev, x)
    ensures Apply(s, ev).t.at[x].toFd == LinkNext(s, ev, x, s.t.at[x].toFd)
  {
    assert Abs(s).v.Keys == s.cl.Keys;
    match ev {
      case Join(_) =>
      case Deliver(_) =>
      case Close(fd) => CloseMovesNoLink(s.t, fd, x);
      case Type(fd, raw) =>
        var r := Typed(s.cl[fd].flags, raw).1;
        if r.Some? {
          RequestMovesLink(s.t, fd, r.value, x);
        }
    }
  }

  /** No busy client wanders off if flags and statuses agree and it has read
      everything. */
  lemma DrainedStays(s: Sys, ev: Event, x: Fd)
    requires Core(Abs(s)) && Enabled(s, ev) && Drained(s, ev)
    requires StatusByFd(s.t, x) != Free
    ensures !Wanders(s, ev, x)
  {
    if ev.Type? {
      SendsByStatus(s, ev.fd, ev.raw);
    }
  }

  /** The client is in a chat before, during and after the run, and asks nobody
      else meanwhile. */
  predicate BusyRun(s: Sys, evs: seq<Event>, x: Fd)
    requires IsRun(s, evs)
    decreases |evs|
  {
    && IsBusy(s.t, x)
    && (evs == [] || (!Wanders(s, evs[0], x) && BusyRun(Apply(s, evs[0]), evs[1..], x)))
  }

  predicate BusyThroughout(s: Sys, evs: seq<Event>, x: Fd)
    requires IsRun(s, evs)
    decreases |evs|
  {
    IsBusy(s.t, x) && (evs == [] || BusyThroughout(Apply(s, evs[0]), evs[1..], x))
  }

  /** Where users read everything before they type, being in a chat throughout
      is enough. */
  lemma {:induction false} PromptIsSteady(s: Sys, evs: seq<Event>, x: Fd)
    requires Core(Abs(s)) && IsRun(s, evs) && PromptRun(s, evs) && TunedRun(s, evs)
    ensures BusyRun(s, evs, x) <==> BusyThroughout(s, evs, x)
    decreases |evs|
  {
    if evs != [] && IsBusy(s.t, x) {
      DrainedStays(s, evs[0], x);
      CoreStep(s, evs[0]);
      PromptIsSteady(Apply(s, evs[0]), evs[1..], x);
    }
  }

  // ---- what is queued and read ----

  /** The messages the server sends in a step. */
  function Sends(s: Sys, ev: Event): seq<Envelope>
    requires Enabled(s, ev)
  {
    match ev
    case Type(fd, raw) =>
      var r := Typed(s.cl[fd].flags, raw).1;
      if r.Some? then Handle(s.t, fd, r.value).sends else []
    case Close(fd) => HandleClose(s.t, fd).sends
    case _ => []
  }

  function To(sends: seq<Envelope>, y: Fd): seq<Msg> {
    if sends == [] then []
    else (if sends[0].dst == y then [sends[0].msg] else []) + To(sends[1..], y)
  }

  /** All messages queued to `y` in a run, in order. */
  function QueuedTo(s: Sys, evs: seq<Event>, y: Fd): seq<Msg>
    requires IsRun(s, evs)
    decreases |evs|
  {
    if evs == [] then [] else To(Sends(s, evs[0]), y) + QueuedTo(Apply(s, evs[0]), evs[1..], y)
  }

  /** All messages `y` reads in a run, in order. */
  function ReadBy(s: Sys, evs: seq<Event>, y: Fd): seq<Msg>
    requires IsRun(s, evs)
    decreases |evs|
  {
    if evs == [] then []
    else (if evs[0] == Deliver(y) then [s.cl[y].inbox[0]] else []) + ReadBy(Apply(s, evs[0]), evs[1..], y)
  }

  predicate Stays(evs: seq<Event>, y: Fd) {
    Close(y) !in evs
  }

  lemma {:induction false} PostQueues(cl: map<Fd, Peer>, sends: seq<Envelope>, y: Fd)
    requires y in cl
    ensures Post(cl, sends).Keys == cl.Keys
    ensures Post(cl, sends)[y].inbox == cl[y].inbox + To(sends, y)
    decreases |sends|
  {
    if sends != [] {
      var e := sends[0];
      var cl' := if e.dst in cl then cl[e.dst := cl[e.dst].(inbox := cl[e.dst].inbox + [e.msg])] else cl;
      PostQueues(cl', sends[1..], y);
    }
  }

  lemma TypeQueues(s: Sys, fd: Fd, raw: string, y: Fd)
    requires Enabled(s, Type(fd, raw)) && y in s.cl
    ensures var s' := Apply(s, Type(fd, raw));
            y in s'.cl && s'.cl[y].inbox == s.cl[y].inbox + To(Sends(s, Type(fd, raw)), y)
  {
    var (c, r) := Typed(s.cl[fd].flags, raw);
    if r.Some? {
      PostQueues(s.cl[fd := s.cl[fd].(flags := c)], Handle(s.t, fd, r.value).sends, y);
    }
  }

  lemma StepQueues(s: Sys, ev: Event, y: Fd)
    requires Enabled(s, ev) && y in s.cl && ev != Close(y) && s.cl.Keys == s.t.at.Keys
    ensures y in Apply(s, ev).cl
    ensures (if ev == Deliver(y) then [s.cl[y].inbox[0]] else []) + Apply(s, ev).cl[y].inbox
         == s.cl[y].inbox + To(Sends(s, ev), y)
  {
    match ev {
      case Join(fd) =>
        assert fd !in s.cl.Keys;
        assert To([], y) == [];
      case Deliver(fd) => assert To([], y) == [];
      case Type(fd, raw) => TypeQueues(s, fd, raw, y);
      case Close(fd) => PostQueues(s.cl - {fd}, HandleClose(s.t, fd).sends, y);
    }
  }

  lemma Splice<T>(head: seq<T>, read: seq<T>, left: seq<T>, was: seq<T>, next: seq<T>, q: seq<T>, queue: seq<T>)
    requires head + next == was + q && read + left == next + queue
    ensures (head + read) + left == was + (q + queue)
  {
    calc {
      (head + read) + left;
      head + (read + left);
      head + (next + queue);
      (head + next) + queue;
      (was + q) + queue;
      was + (q + queue);
    }
  }

  /** Nothing is lost, doubled or overtaken: what a client has read, followed
      by what still waits, is what waited before followed by what was queued. */
  lemma {:induction false} InboxIsFifo(s: Sys, evs: seq<Event>, y: Fd)
    requires Sound(Abs(s)) && IsRun(s, evs)
    requires y in s.cl && Stays(evs, y)
    ensures y in After(s, evs).cl
    ensures ReadBy(s, evs, y) + After(s, evs).cl[y].inbox == s.cl[y].inbox + QueuedTo(s, evs, y)
    decreases |evs|
  {
    if evs != [] {
      var s' := Apply(s, evs[0]);
      assert Abs(s).v.Keys == s.cl.Keys;
      SoundStep(s, evs[0]);
      StepQueues(s, evs[0], y);
      InboxIsFifo(s', evs[1..], y);
      Splice(if evs[0] == Deliver(y) then [s.cl[y].inbox[0]] else [], ReadBy(s', evs[1..], y),
             After(s', evs[1..]).cl[y].inbox, s.cl[y].inbox, s'.cl[y].inbox,
             To(Sends(s, evs[0]), y), QueuedTo(s', evs[1..], y));
    }
  }
}

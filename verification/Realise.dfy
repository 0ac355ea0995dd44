/** Queued runs and runs on eventual flags.  Runs in which users type on drained
    inboxes are, but for the moments at which messages are read, the runs of the
    system that reads messages at once. */
module Realise {
  import opened Common
  import opened Composed
  import opened Reachable

  predicate AbsRun(a: View, evs: seq<Event>)
    decreases |evs|
  {
    evs == [] || (CanStep(a, evs[0]) && AbsRun(Step(a, evs[0]), evs[1..]))
  }

  function AbsAfter(a: View, evs: seq<Event>): View
    requires AbsRun(a, evs)
    decreases |evs|
  {
    if evs == [] then a else AbsAfter(Step(a, evs[0]), evs[1..])
  }

  predicate AbsNamed(a: View, evs: seq<Event>)
    requires AbsRun(a, evs)
    decreases |evs|
  {
    evs == [] || (!TakesUndef(Instant(a, evs[0])) && AbsNamed(Step(a, evs[0]), evs[1..]))
  }

  // ---- any queued run ----

  predicate MoveRun(a: View, mvs: seq<Move>)
    decreases |mvs|
  {
    mvs == [] || (CanMove(a, mvs[0]) && MoveRun(Advance(a, mvs[0]), mvs[1..]))
  }

  function MoveAfter(a: View, mvs: seq<Move>): View
    requires MoveRun(a, mvs)
    decreases |mvs|
  {
    if mvs == [] then a else MoveAfter(Advance(a, mvs[0]), mvs[1..])
  }

  function Moves(s: Sys, evs: seq<Event>): seq<Move>
    requires IsRun(s, evs)
    decreases |evs|
  {
    if evs == [] then [] else [MoveOf(s, evs[0])] + Moves(Apply(s, evs[0]), evs[1..])
  }

  /** Every queued run, whatever is typed on unread messages, takes the eventual
      flags through the run of its moves, and the registry with them. */
  lemma {:induction false} RunsAreMoves(s: Sys, evs: seq<Event>)
    requires IsRun(s, evs)
    ensures MoveRun(Abs(s), Moves(s, evs)) && Abs(After(s, evs)) == MoveAfter(Abs(s), Moves(s, evs))
    decreases |evs|
  {
    if evs != [] {
      StepRefines(s, evs[0]);
      RunsAreMoves(Apply(s, evs[0]), evs[1..]);
      assert Moves(s, evs)[1..] == Moves(Apply(s, evs[0]), evs[1..]);
    }
  }

  // ---- runs on drained inboxes ----

  /** Every queued run whose lines are typed on drained inboxes is a run of the
      instant-reading system. */
  lemma {:induction false} RunsRefine(s: Sys, evs: seq<Event>)
    requires IsRun(s, evs) && PromptRun(s, evs)
    ensures AbsRun(Abs(s), evs) && Abs(After(s, evs)) == AbsAfter(Abs(s), evs)
    decreases |evs|
  {
    if evs != [] {
      DrainedIsInstant(s, evs[0]);
      RunsRefine(Apply(s, evs[0]), evs[1..]);
    }
  }

  lemma RunCons(s: Sys, ev: Event, rest: seq<Event>)
    requires Enabled(s, ev) && IsRun(Apply(s, ev), rest)
    ensures IsRun(s, [ev] + rest) && After(s, [ev] + rest) == After(Apply(s, ev), rest)
    ensures NamedRun(s, [ev] + rest) <==> !TakesUndef(MoveOf(s, ev)) && NamedRun(Apply(s, ev), rest)
    ensures PromptRun(s, [ev] + rest) <==> Drained(s, ev) && PromptRun(Apply(s, ev), rest)
  {
    assert ([ev] + rest)[1..] == rest;
  }

  lemma SeqCons<T>(a: seq<T>, b: seq<T>)
    requires a != []
    ensures a + b == [a[0]] + (a[1..] + b)
  {
  }

  lemma RunHead(s: Sys, evs: seq<Event>)
    requires evs != [] && IsRun(s, evs)
    ensures Enabled(s, evs[0]) && IsRun(Apply(s, evs[0]), evs[1..])
    ensures After(s, evs) == After(Apply(s, evs[0]), evs[1..])
    ensures NamedRun(s, evs) <==> !TakesUndef(MoveOf(s, evs[0])) && NamedRun(Apply(s, evs[0]), evs[1..])
    ensures PromptRun(s, evs) <==> Drained(s, evs[0]) && PromptRun(Apply(s, evs[0]), evs[1..])
  {
  }

  lemma {:induction false} RunsCompose(s: Sys, a: seq<Event>, b: seq<Event>)
    requires IsRun(s, a) && IsRun(After(s, a), b)
    ensures IsRun(s, a + b) && After(s, a + b) == After(After(s, a), b)
    ensures NamedRun(s, a + b) <==> NamedRun(s, a) && NamedRun(After(s, a), b)
    ensures PromptRun(s, a + b) <==> PromptRun(s, a) && PromptRun(After(s, a), b)
    decreases |a|
  {
    if a == [] {
      assert a + b == b;
    } else {
      RunHead(s, a);
      var ev, rest := a[0], a[1..];
      SeqCons(a, b);
      RunsCompose(Apply(s, ev), rest, b);
      RunCons(s, ev, rest + b);
    }
  }

  /** One more event at the end of a run. */
  lemma RunThen(s: Sys, evs: seq<Event>, ev: Event)
    requires IsRun(s, evs) && Enabled(After(s, evs), ev)
    ensures IsRun(s, evs + [ev]) && After(s, evs + [ev]) == Apply(After(s, evs), ev)
    ensures NamedRun(s, evs + [ev]) <==> NamedRun(s, evs) && !TakesUndef(MoveOf(After(s, evs), ev))
  {
    assert [ev][1..] == [];
    RunsCompose(s, evs, [ev]);
  }

  lemma AbsRunCons(a: View, ev: Event, rest: seq<Event>)
    requires CanStep(a, ev) && AbsRun(Step(a, ev), rest)
    ensures AbsRun(a, [ev] + rest) && AbsAfter(a, [ev] + rest) == AbsAfter(Step(a, ev), rest)
    ensures AbsNamed(a, [ev] + rest) <==> !TakesUndef(Instant(a, ev)) && AbsNamed(Step(a, ev), rest)
  {
    assert ([ev] + rest)[1..] == rest;
  }

  lemma {:induction false} AbsRunThen(a: View, evs: seq<Event>, ev: Event)
    requires AbsRun(a, evs) && CanStep(AbsAfter(a, evs), ev)
    ensures AbsRun(a, evs + [ev]) && AbsAfter(a, evs + [ev]) == Step(AbsAfter(a, evs), ev)
    ensures AbsNamed(a, evs + [ev]) <==> AbsNamed(a, evs) && !TakesUndef(Instant(AbsAfter(a, evs), ev))
    decreases |evs|
  {
    if evs == [] {
      assert [] + [ev] == [ev] && [ev][1..] == [];
    } else {
      SeqCons(evs, [ev]);
      AbsRunThen(Step(a, evs[0]), evs[1..], ev);
      AbsRunCons(a, evs[0], evs[1..] + [ev]);
    }
  }

  /** A client can always read its inbox to the end, which the server and the
      other clients do not notice. */
  lemma {:induction false} Drain(s: Sys, fd: Fd) returns (evs: seq<Event>)
    requires fd in s.cl
    ensures IsRun(s, evs) && NamedRun(s, evs) && PromptRun(s, evs)
    ensures var s' := After(s, evs);
            && Abs(s') == Abs(s)
            && s'.cl == s.cl[fd := Peer(Pending(s.cl[fd]), [])]
    ensures forall e :: e in evs ==> e.Deliver?
    decreases |s.cl[fd].inbox|
  {
    evs := [];
    if s.cl[fd].inbox != [] {
      var ev := Deliver(fd);
      StepRefines(s, ev);
      evs := Drain(Apply(s, ev), fd);
      RunCons(s, ev, evs);
      evs := [ev] + evs;
    }
  }

  /** One step of the instant-reading system, carried out with queues. */
  lemma RealiseStep(s: Sys, ev: Event) returns (evs: seq<Event>)
    requires CanStep(Abs(s), ev)
    ensures IsRun(s, evs) && PromptRun(s, evs) && Abs(After(s, evs)) == Step(Abs(s), ev)
    ensures !TakesUndef(Instant(Abs(s), ev)) ==> NamedRun(s, evs)
    ensures forall e :: e in evs ==> e.Deliver? || e == ev
  {
    if ev.Deliver? {
      evs := [];
    } else if ev.Type? {
      var drained := Drain(s, ev.fd);
      var s' := After(s, drained);
      DrainedIsInstant(s', ev);
      assert [ev][1..] == [];
      RunsCompose(s, drained, [ev]);
      evs := drained + [ev];
    } else {
      assert Abs(s).v.Keys == s.cl.Keys;
      DrainedIsInstant(s, ev);
      assert [ev][1..] == [];
      evs := [ev];
    }
  }

  /** Every run of the instant-reading system is matched by such a queued run,
      with the same registry and the same eventual flags at its end. */
  lemma {:induction false} RunsAreRealised(s: Sys, evs: seq<Event>) returns (full: seq<Event>)
    requires AbsRun(Abs(s), evs)
    ensures IsRun(s, full) && PromptRun(s, full) && Abs(After(s, full)) == AbsAfter(Abs(s), evs)
    ensures AbsNamed(Abs(s), evs) ==> NamedRun(s, full)
    ensures forall e :: e in full ==> e.Deliver? || e in evs
    decreases |evs|
  {
    full := [];
    if evs != [] {
      var head := RealiseStep(s, evs[0]);
      var tail := RunsAreRealised(After(s, head), evs[1..]);
      RunsCompose(s, head, tail);
      full := head + tail;
    }
  }
}

/** The name a client shows for its chat partner. */
module PeerNames {
  import opened Common
  import opened Table
  import opened Client
  import opened Handlers
  import opened Changes
  import opened Composed
  import opened ViewAgreement
  import opened Reachable
  import opened Pairing
  import opened Sessions

  /** Every busy client, once it has read its inbox, shows the name its peer is
      registered under. */
  ghost predicate ShowsPeers(t: Table, v: map<Fd, Flags>) {
    forall f :: f in t.at && f in v && t.at[f].status == Busy ==>
      v[f].peer == NameByFd(t, t.at[f].toFd)
  }

  /** A busy client changes its name, which its partner goes on showing. */
  predicate Stale(t: Table, fd: Fd, ch: Change) {
    ch.Renamed? && fd in t.at && IsBusy(t, fd) && ch.name != t.at[fd].name
  }

  /** What the lemmas below say about one request: it crosses nothing and
      splits no pair. */
  ghost predicate Smooth(a: View, fd: Fd, e: Flags, r: Request) {
    && Core(a) && Paired(a.t) && ShowsPeers(a.t, a.v)
    && fd in a.v && Fits(a.v[fd], e, Some(r))
    && !CrossesBy(ChangeOf(a.t, fd, r), StatusByFd(a.t, fd), e)
    && !Splits(a.t, fd, ChangeOf(a.t, fd, r))
  }

  /** A busy client that the change neither couples nor renames for shows what
      it showed. */
  lemma StillShows(a: View, fd: Fd, e: Flags, r: Request, t': Table, f: Fd)
    requires Smooth(a, fd, e, r)
    requires var ch := ChangeOf(a.t, fd, r);
             Changed(a.t, t', fd, ch) && Guarded(a.t, fd, ch) && !(ch.Coupled? && (f == fd || f == ch.peer))
    requires f in a.v && IsBusy(t', f)
    ensures var ch := ChangeOf(a.t, fd, r);
            IsBusy(a.t, f) && NewFlags(a.t, a.v[fd := e][f], f, fd, ch).peer == a.v[f].peer
  {
    assert f in a.t.at;
    StaysBusy(a.t, t', fd, ChangeOf(a.t, fd, r), f);
    assert HasPartner(a.t, f);
  }

  lemma CoupledShows(a: View, fd: Fd, e: Flags, r: Request, t': Table, f: Fd)
    requires Smooth(a, fd, e, r)
    requires var ch := ChangeOf(a.t, fd, r);
             Changed(a.t, t', fd, ch) && Guarded(a.t, fd, ch) && ch.Coupled? && (f == fd || f == ch.peer)
    ensures var ch := ChangeOf(a.t, fd, r);
            NewFlags(a.t, a.v[fd := e][f], f, fd, ch).peer == NameByFd(t', t'.at[f].toFd)
  {
  }

  lemma StaleShows(a: View, fd: Fd, e: Flags, r: Request, t': Table, v': map<Fd, Flags>)
    requires Smooth(a, fd, e, r)
    requires var ch := ChangeOf(a.t, fd, r);
             Changed(a.t, t', fd, ch) && Guarded(a.t, fd, ch) && Told(a.t, a.v[fd := e], v', fd, ch)
    requires Stale(a.t, fd, ChangeOf(a.t, fd, r))
    ensures !ShowsPeers(t', v')
  {
    var p := a.t.at[fd].toFd;
    assert HasPartner(a.t, fd);
    StillShows(a, fd, e, r, t', p);
    assert v'[p].peer != NameByFd(t', t'.at[p].toFd);
  }

  lemma FreshShows(a: View, fd: Fd, e: Flags, r: Request, t': Table, v': map<Fd, Flags>, f: Fd)
    requires Smooth(a, fd, e, r)
    requires var ch := ChangeOf(a.t, fd, r);
             Changed(a.t, t', fd, ch) && Guarded(a.t, fd, ch) && Told(a.t, a.v[fd := e], v', fd, ch)
    requires !Stale(a.t, fd, ChangeOf(a.t, fd, r)) && f in a.v && IsBusy(t', f)
    ensures v'[f].peer == NameByFd(t', t'.at[f].toFd)
  {
    var ch := ChangeOf(a.t, fd, r);
    if ch.Coupled? && (f == fd || f == ch.peer) {
      CoupledShows(a, fd, e, r, t', f);
    } else {
      StillShows(a, fd, e, r, t', f);
      StaysBusy(a.t, t', fd, ch, f);
      assert HasPartner(a.t, f) && HasPartner(a.t, a.t.at[f].toFd);
    }
  }

  lemma RequestShows(a: View, fd: Fd, e: Flags, r: Request)
    requires Smooth(a, fd, e, r)
    ensures var o := Handle(a.t, fd, r);
            ShowsPeers(o.t, Read(a.v[fd := e], o.sends)) <==> !Stale(a.t, fd, ChangeOf(a.t, fd, r))
  {
    var o := Handle(a.t, fd, r);
    var v' := Read(a.v[fd := e], o.sends);
    HandleChanges(a.t, fd, r);
    HandleTold(a.t, fd, r, a.v[fd := e]);
    if Stale(a.t, fd, ChangeOf(a.t, fd, r)) {
      StaleShows(a, fd, e, r, o.t, v');
    } else {
      forall f | f in a.v && IsBusy(o.t, f) ensures v'[f].peer == NameByFd(o.t, o.t.at[f].toFd) {
        FreshShows(a, fd, e, r, o.t, v', f);
      }
    }
  }

  lemma CloseShows(t: Table, t': Table, fd: Fd, v: map<Fd, Flags>, v': map<Fd, Flags>)
    requires Linked(t) && Paired(t) && ShowsPeers(t, v) && v.Keys == t.at.Keys && fd in t.at
    requires Closed(t, t', fd) && ToldOfClose(t, v - {fd}, v', fd) && !Breaks(t, Gone(fd))
    ensures ShowsPeers(t', v')
  {
    forall f | f in t'.at && f in v' && t'.at[f].status == Busy
      ensures v'[f].peer == NameByFd(t', t'.at[f].toFd)
    {
      assert f in t.at && HasPartner(t, f) && HasPartner(t, t.at[f].toFd);
      assert t.at[f].toFd in t.at.Keys - {fd};
    }
  }

  lemma JoinShows(t: Table, fd: Fd, v: map<Fd, Flags>)
    requires Paired(t) && ShowsPeers(t, v) && fd !in t.at
    ensures ShowsPeers(Register(t, fd), v[fd := START])
  {
    forall f | f in t.at && f in v && t.at[f].status == Busy
      ensures v[f].peer == NameByFd(Register(t, fd), t.at[f].toFd)
    {
      assert HasPartner(t, f);
    }
  }

  // ---- one step ----

  /** A client in a chat is given another name. */
  predicate Renames(s: Sys, ev: Event) {
    && ev.Type? && ev.fd in s.cl
    && var r := Typed(s.cl[ev.fd].flags, ev.raw).1;
       && r.Some? && r.value.SetName? && IsBusy(s.t, ev.fd)
       && NameCheck(s.t, r.value.name) == NameNotExist
       && Clip(r.value.name, MAX_CLIENT_NAME_LEN - 1) != NameByFd(s.t, ev.fd)
  }

  lemma MoveShows(a: View, mv: Move)
    requires Core(a) && Paired(a.t) && ShowsPeers(a.t, a.v)
    requires CanMove(a, mv) && MoveFits(a, mv) && !Crosses(a, mv)
    requires mv.Closes? ==> !Breaks(a.t, Gone(mv.fd))
    requires mv.Types? && mv.r.Some? ==> !Breaks(a.t, Receive(mv.fd, mv.r.value))
    ensures var b := Advance(a, mv);
            ShowsPeers(b.t, b.v) <==>
            !(mv.Types? && mv.r.Some? && Stale(a.t, mv.fd, ChangeOf(a.t, mv.fd, mv.r.value)))
  {
    match mv {
      case Joins(fd) => JoinShows(a.t, fd, a.v);
      case Reads(_) =>
      case Closes(fd) =>
        CloseShape(a.t, fd);
        CloseTold(a.t, fd, a.v - {fd});
        var b := Advance(a, mv);
        CloseShows(a.t, b.t, fd, a.v, b.v);
      case Types(fd, e, r) =>
        if r.Some? {
          CrossesByBranch(a, mv);
          BreaksIsSplits(a.t, fd, r.value);
          RequestShows(a, fd, e, r.value);
        } else {
          assert a.v[fd := e] == a.v;
        }
    }
  }

  /** The exact condition: a step that crosses nothing and breaks no pair keeps
      all shown names right if and only if it renames no client in a chat. */
  lemma ShowsStep(s: Sys, ev: Event)
    requires Core(Abs(s)) && Paired(s.t) && ShowsPeers(s.t, Abs(s).v)
    requires Enabled(s, ev) && !CrossStep(s, ev) && !StepBreaks(s, ev)
    ensures ShowsPeers(Apply(s, ev).t, Abs(Apply(s, ev)).v) <==> !Renames(s, ev)
  {
    StepRefines(s, ev);
    StepFits(s, ev);
    MoveShows(Abs(s), MoveOf(s, ev));
  }

  /** Who has read everything and is in a chat cannot ask for a name. */
  lemma DrainedRenames(s: Sys, ev: Event)
    requires Core(Abs(s)) && Enabled(s, ev) && Drained(s, ev)
    ensures !Renames(s, ev)
  {
    if ev.Type? {
      SendsByStatus(s, ev.fd, ev.raw);
    }
  }

  // ---- runs ----

  /** A run that crosses nothing, breaks no pair and renames nobody in a chat. */
  predicate SmoothRun(s: Sys, evs: seq<Event>)
    requires IsRun(s, evs)
    decreases |evs|
  {
    evs == [] || (!CrossStep(s, evs[0]) && !StepBreaks(s, evs[0]) && !Renames(s, evs[0])
                  && SmoothRun(Apply(s, evs[0]), evs[1..]))
  }

  lemma {:induction false} ShowsAfter(s: Sys, evs: seq<Event>)
    requires Core(Abs(s)) && Sound(Abs(s)) && Paired(s.t) && ShowsPeers(s.t, Abs(s).v)
    requires IsRun(s, evs) && SmoothRun(s, evs)
    ensures ShowsPeers(After(s, evs).t, Abs(After(s, evs)).v) && Paired(After(s, evs).t)
    decreases |evs|
  {
    if evs != [] {
      CoreStep(s, evs[0]);
      SoundStep(s, evs[0]);
      ComposedPairing(s, evs[0]);
      ShowsStep(s, evs[0]);
      ShowsAfter(Apply(s, evs[0]), evs[1..]);
    }
  }

  lemma {:induction false} PromptIsSmooth(s: Sys, evs: seq<Event>)
    requires Core(Abs(s)) && IsRun(s, evs) && PromptRun(s, evs) && TunedRun(s, evs)
    ensures SmoothRun(s, evs) <==> NoBreakingClose(s, evs)
    decreases |evs|
  {
    if evs != [] {
      DrainedBreaks(s, evs[0]);
      DrainedRenames(s, evs[0]);
      CoreStep(s, evs[0]);
      PromptIsSmooth(Apply(s, evs[0]), evs[1..]);
    }
  }

  /** Peer-name agreement: after every such run a client in a chat that has read
      its inbox shows exactly the name its peer has in the registry, although
      names can change during the run. */
  lemma PeerNamesAgree(evs: seq<Event>, f: Fd)
    requires IsRun(INIT, evs) && SmoothRun(INIT, evs)
    ensures var s := After(INIT, evs);
            f in s.cl && f in s.t.at && s.t.at[f].status == Busy ==>
              var p := s.t.at[f].toFd;
              p in s.t.at && Replay(s.cl[f].flags, s.cl[f].inbox).peer == s.t.at[p].name
  {
    InitSound();
    ShowsAfter(INIT, evs);
    var s := After(INIT, evs);
    if f in s.cl && f in s.t.at && s.t.at[f].status == Busy {
      assert HasPartner(s.t, f);
      assert Abs(s).v[f] == Replay(s.cl[f].flags, s.cl[f].inbox);
    }
  }

  /** Users who read everything before they type, none of them called
      NAME_NOT_DEFINED, make such a run exactly when nobody leaves in a way that
      breaks a pair. */
  lemma PromptRunsAreSmooth(evs: seq<Event>)
    requires IsRun(INIT, evs) && PromptRun(INIT, evs) && NamedRun(INIT, evs)
    ensures SmoothRun(INIT, evs) <==> NoBreakingClose(INIT, evs)
    ensures CalmRun(INIT, evs) <==> NoBreakingClose(INIT, evs)
  {
    InitSound();
    PromptRunsAreTuned(evs);
    PromptIsSmooth(INIT, evs);
    PromptIsCalm(INIT, evs);
  }
}

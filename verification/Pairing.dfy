/** Who is paired with whom, and exactly which steps break a pair. */
module Pairing {
  import opened Common
  import opened Table
  import opened Handlers
  import opened Changes

  predicate IsBusy(t: Table, f: Fd) {
    StatusByFd(t, f) == Busy
  }

  /** A busy client whose link leads to a busy client that is linked back. */
  predicate HasPartner(t: Table, f: Fd) {
    f in t.at && IsBusy(t, t.at[f].toFd) && t.at[t.at[f].toFd].toFd == f
  }

  ghost predicate Paired(t: Table) {
    forall f :: f in t.at && t.at[f].status == Busy ==> HasPartner(t, f)
  }

  /** What can happen to the registry: a client registers, one of the requests
      of a client is handled, or its connection closes. */
  datatype SrvEvent = Arrive(fd: Fd) | Receive(fd: Fd, r: Request) | Gone(fd: Fd)

  predicate Possible(t: Table, ev: SrvEvent) {
    ev.Arrive? ==> ValidFd(ev.fd) && ev.fd !in t.at
  }

  function SrvStep(t: Table, ev: SrvEvent): Table {
    match ev
    case Arrive(fd) => Register(t, fd)
    case Receive(fd, r) => Handle(t, fd, r).t
    case Gone(fd) => HandleClose(t, fd).t
  }

  /** The three ways to break a pair: a busy client asks a free one for a chat,
      a busy client accepts, or a client that is not busy closes while its old
      link leads to a busy one. */
  predicate Breaks(t: Table, ev: SrvEvent) {
    match ev
    case Arrive(_) => false
    case Receive(fd, Connect(name)) =>
      StatusByFd(t, fd) == Busy && NameByFd(t, fd) != name && StatusByName(t, name) == Free
    case Receive(fd, Accept) => StatusByFd(t, fd) == Busy
    case Receive(_, _) => false
    case Gone(fd) => fd in t.at && StatusByFd(t, fd) != Busy && StatusByFd(t, ConnFd(t, fd)) == Busy
  }

  // ---- one change ----

  ghost predicate NoSelfLink(t: Table) {
    forall f :: f in t.at ==> t.at[f].toFd != f
  }

  /** A busy client that is linked to somebody other than `p`. */
  predicate Taken(t: Table, f: Fd, p: Fd) {
    IsBusy(t, f) && t.at[f].toFd != p
  }

  /** The change separates a busy client from its partner, or makes somebody
      busy who gets none; whatever the two clients were before it. */
  predicate Splits(t: Table, fd: Fd, ch: Change) {
    match ch
    case Asked(p) => IsBusy(t, fd) || IsBusy(t, p)
    case Coupled(p, _) => Taken(t, fd, p) || Taken(t, p, fd) || p !in t.at
    case Parted(p) => Taken(t, fd, p) || Taken(t, p, fd)
    case Declined => IsBusy(t, fd)
    case Refused => IsBusy(t, fd)
    case Forgot => IsBusy(t, fd)
    case Marked(p) => IsBusy(t, p)
    case Tied(p) => Taken(t, fd, p) || Taken(t, p, fd)
    case _ => false
  }

  /** The change does not concern one client twice. */
  predicate Apart(t: Table, fd: Fd, ch: Change) {
    && ((ch.Asked? || ch.Coupled? || ch.Parted? || ch.Tied?) ==> ch.peer != fd)
    && (ch.Coupled? ==> fd in t.at)
  }

  /** Who is busy after a change that splits nobody was busy before it, and
      neither its record nor its partner's is touched; or it has just been
      coupled. */
  lemma StaysBusy(t: Table, t': Table, fd: Fd, ch: Change, f: Fd)
    requires NoSelfLink(t) && Paired(t) && Changed(t, t', fd, ch) && Apart(t, fd, ch)
    requires !Splits(t, fd, ch) && f in t.at && IsBusy(t', f)
    ensures (ch.Coupled? && (f == fd || f == ch.peer)) || (IsBusy(t, f) && t'.at[f].toFd == t.at[f].toFd)
  {
  }

  lemma PartnerStaysBusy(t: Table, t': Table, fd: Fd, ch: Change, f: Fd)
    requires NoSelfLink(t) && Paired(t) && Changed(t, t', fd, ch) && Apart(t, fd, ch)
    requires !Splits(t, fd, ch) && IsBusy(t, f) && IsBusy(t', f) && !(ch.Coupled? && (f == fd || f == ch.peer))
    ensures IsBusy(t', t.at[f].toFd)
  {
    assert HasPartner(t, f);
  }

  lemma WholeChange(t: Table, t': Table, fd: Fd, ch: Change)
    requires NoSelfLink(t) && Paired(t) && Changed(t, t', fd, ch) && Apart(t, fd, ch)
    requires !Splits(t, fd, ch)
    ensures Paired(t')
  {
    forall f | f in t'.at && t'.at[f].status == Busy ensures HasPartner(t', f) {
      StaysBusy(t, t', fd, ch, f);
      if !(ch.Coupled? && (f == fd || f == ch.peer)) {
        assert HasPartner(t, f);
        PartnerStaysBusy(t, t', fd, ch, f);
        StaysBusy(t, t', fd, ch, t.at[f].toFd);
      }
    }
  }

  lemma SplittingChange(t: Table, t': Table, fd: Fd, ch: Change)
    requires NoSelfLink(t) && Paired(t) && Changed(t, t', fd, ch) && Apart(t, fd, ch)
    requires Splits(t, fd, ch)
    ensures !Paired(t')
  {
    if ch.Coupled? && ch.peer !in t.at {
      assert !HasPartner(t', fd);
    } else {
      var f := if IsBusy(t, fd) && !ch.Marked? then fd else ch.peer;
      assert HasPartner(t, f);
      assert !HasPartner(t', f) || !HasPartner(t', t.at[f].toFd);
    }
  }

  /** The exact condition for any change to the registry, by whatever section
      or handler: it keeps the busy clients in pairs if and only if it splits
      nobody. */
  lemma ChangePairing(t: Table, t': Table, fd: Fd, ch: Change)
    requires NoSelfLink(t) && Paired(t) && Changed(t, t', fd, ch) && Apart(t, fd, ch)
    ensures Paired(t') <==> !Splits(t, fd, ch)
  {
    if Splits(t, fd, ch) {
      SplittingChange(t, t', fd, ch);
    } else {
      WholeChange(t, t', fd, ch);
    }
  }

  // ---- one step ----

  lemma BreaksIsSplits(t: Table, fd: Fd, r: Request)
    requires Wf(t) && Linked(t) && Paired(t)
    ensures Breaks(t, Receive(fd, r)) <==> Splits(t, fd, ChangeOf(t, fd, r))
  {
    if IsBusy(t, fd) {
      assert HasPartner(t, fd);
    }
    if r.Connect? {
      ConnectTarget(t, r.target);
    }
  }

  lemma ClosedPairing(t: Table, t': Table, fd: Fd)
    requires Wf(t) && NoSelfLink(t) && Paired(t) && fd in t.at && Closed(t, t', fd)
    ensures Paired(t') <==> !Breaks(t, Gone(fd))
  {
    var conn := t.at[fd].toFd;
    if Breaks(t, Gone(fd)) {
      assert HasPartner(t, conn);
      assert !HasPartner(t', t.at[conn].toFd);
    } else {
      assert INVALID_FD !in t.at;
      forall f | f in t'.at && t'.at[f].status == Busy ensures HasPartner(t', f) {
        assert f in t.at && HasPartner(t, f);
      }
    }
  }

  lemma NobodyCloses(t: Table, fd: Fd)
    requires Wf(t) && fd !in t.at
    ensures HandleClose(t, fd).t == t
  {
    assert fd !in t.order;
  }

  /** The exact pairing theorem: from a paired state, and whoever sends what,
      a step leaves the busy clients unpaired if and only if it is one of the
      three steps above. */
  lemma ExactPairing(t: Table, ev: SrvEvent)
    requires Wf(t) && Linked(t) && Paired(t) && Possible(t, ev)
    ensures Paired(SrvStep(t, ev)) <==> !Breaks(t, ev)
    ensures Wf(SrvStep(t, ev)) && Linked(SrvStep(t, ev))
  {
    match ev {
      case Arrive(fd) =>
        RegisterKeepsLinks(t, fd);
        forall f | f in t.at && t.at[f].status == Busy ensures HasPartner(Register(t, fd), f) {
          assert HasPartner(t, f);
        }
      case Gone(fd) =>
        if fd in t.at {
          CloseShape(t, fd);
          ClosedPairing(t, HandleClose(t, fd).t, fd);
          CloseKeepsLinks(t, fd);
        } else {
          NobodyCloses(t, fd);
        }
      case Receive(fd, r) =>
        HandleKeepsLinks(t, fd, r);
        HandleChanges(t, fd, r);
        BreaksIsSplits(t, fd, r);
        ChangePairing(t, Handle(t, fd, r).t, fd, ChangeOf(t, fd, r));
    }
  }

  // ---- the partner map ----

  ghost function BusySet(t: Table): set<Fd> {
    set f | f in t.at && t.at[f].status == Busy
  }

  lemma Pick<T>(s: set<T>) returns (f: T)
    requires s != {}
    ensures f in s
  {
    f :| f in s;
  }

  /** A set on which a map is an involution without fixed point has an even
      number of elements. */
  lemma {:induction false} InvolutionEven(s: set<Fd>, p: map<Fd, Fd>)
    requires s <= p.Keys
    requires forall f :: f in s ==> p[f] in s && p[f] != f && p[p[f]] == f
    ensures |s| % 2 == 0
    decreases |s|
  {
    if s != {} {
      var f := Pick(s);
      var rest := s - {f, p[f]};
      assert |rest| == |s| - 2 by {
        assert |s - {f}| == |s| - 1;
        assert rest == (s - {f}) - {p[f]};
      }
      InvolutionEven(rest, p);
    }
  }

  /** In a paired state the partner map on busy clients is an involution with
      no fixed point, so the busy clients are even in number. */
  lemma BusyIsEven(t: Table)
    requires Linked(t) && Paired(t)
    ensures forall f :: f in BusySet(t) ==>
              ConnFd(t, f) in BusySet(t) && ConnFd(t, f) != f && ConnFd(t, ConnFd(t, f)) == f
    ensures |BusySet(t)| % 2 == 0
  {
    var p := map f | f in t.at :: t.at[f].toFd;
    forall f | f in BusySet(t)
      ensures ConnFd(t, f) in BusySet(t) && ConnFd(t, f) != f && ConnFd(t, ConnFd(t, f)) == f
    {
      assert HasPartner(t, f);
    }
    InvolutionEven(BusySet(t), p);
  }

  /** By how much a step changes the number of busy clients. */
  function BusyChange(t: Table, ev: SrvEvent): int {
    match ev
    case Receive(fd, Accept) =>
      var conn := ConnFd(t, fd);
      if StatusByFd(t, fd) == ReqPending && conn in t.at && t.at[conn].status != Busy && t.at[conn].name != UNDEF_NAME
      then 2 else 0
    case Receive(fd, Tx(line)) => if StatusByFd(t, fd) == Busy && line == DISCONNECT_CMD then -2 else 0
    case Gone(fd) => if StatusByFd(t, fd) == Busy then -2 else 0
    case _ => 0
  }

  lemma TwoMore(s: set<Fd>, a: Fd, b: Fd)
    requires a != b && a !in s && b !in s
    ensures |s + {a, b}| == |s| + 2
  {
    assert s + {a, b} == (s + {a}) + {b};
  }

  lemma TwoFewer(s: set<Fd>, a: Fd, b: Fd)
    requires a != b && a in s && b in s
    ensures |s - {a, b}| == |s| - 2
  {
    TwoMore(s - {a, b}, a, b);
    assert (s - {a, b}) + {a, b} == s;
  }

  /** Who is busy after a change that splits nobody. */
  ghost function BusyThen(s: set<Fd>, fd: Fd, ch: Change): set<Fd> {
    match ch
    case Coupled(p, _) => s + {fd, p}
    case Parted(p) => s - {fd, p}
    case _ => s
  }

  lemma BusyAfter(t: Table, t': Table, fd: Fd, ch: Change)
    requires Changed(t, t', fd, ch) && Guarded(t, fd, ch) && !Splits(t, fd, ch)
    ensures BusySet(t') == BusyThen(BusySet(t), fd, ch)
  {
    forall f ensures f in BusySet(t') <==> f in BusyThen(BusySet(t), fd, ch) {
      assert f in t'.at <==> f in t.at.Keys;
      if f in t.at {
        assert t'.at[f] == NewRec(t.at[f], f, fd, ch);
      }
    }
  }

  lemma ChangeCount(t: Table, t': Table, fd: Fd, ch: Change)
    requires Paired(t) && Changed(t, t', fd, ch) && Guarded(t, fd, ch) && !Splits(t, fd, ch)
    ensures |BusySet(t')| == |BusySet(t)| + if ch.Coupled? then 2 else if ch.Parted? then -2 else 0
  {
    BusyAfter(t, t', fd, ch);
    if ch.Coupled? {
      TwoMore(BusySet(t), fd, ch.peer);
    } else if ch.Parted? {
      assert HasPartner(t, fd);
      TwoFewer(BusySet(t), fd, ch.peer);
    }
  }

  lemma BusyClosed(t: Table, t': Table, fd: Fd)
    requires Wf(t) && fd in t.at && Closed(t, t', fd)
    ensures IsBusy(t, t.at[fd].toFd) ==> BusySet(t') == BusySet(t) - {fd} - {t.at[fd].toFd}
    ensures !IsBusy(t, t.at[fd].toFd) ==> BusySet(t') == BusySet(t) - {fd}
  {
    forall f ensures f in BusySet(t') <==> f in BusySet(t) && f != fd && f != t.at[fd].toFd {
      assert f in t'.at <==> f in t.at.Keys - {fd};
    }
  }

  lemma OneGone(s: set<Fd>, a: Fd)
    ensures |s - {a}| == if a in s then |s| - 1 else |s|
  {
    if a !in s {
      assert s - {a} == s;
    }
  }

  lemma CloseFacts(t: Table, fd: Fd)
    requires Wf(t) && Linked(t) && Paired(t) && fd in t.at
    ensures var conn := t.at[fd].toFd;
            && conn != fd && (fd in BusySet(t) <==> IsBusy(t, fd)) && (conn in BusySet(t) <==> IsBusy(t, conn))
            && (IsBusy(t, fd) ==> IsBusy(t, conn))
            && (Breaks(t, Gone(fd)) <==> !IsBusy(t, fd) && IsBusy(t, conn))
            && BusyChange(t, Gone(fd)) == if IsBusy(t, fd) then -2 else 0
  {
    if IsBusy(t, fd) {
      assert HasPartner(t, fd);
    }
  }

  lemma ClosedCount(t: Table, t': Table, fd: Fd)
    requires Wf(t) && Linked(t) && Paired(t) && fd in t.at && Closed(t, t', fd)
    ensures !Breaks(t, Gone(fd)) ==> |BusySet(t')| == |BusySet(t)| + BusyChange(t, Gone(fd))
    ensures Breaks(t, Gone(fd)) ==> |BusySet(t')| == |BusySet(t)| - 1
  {
    BusyClosed(t, t', fd);
    CloseFacts(t, fd);
    OneGone(BusySet(t), fd);
    OneGone(BusySet(t) - {fd}, t.at[fd].toFd);
  }

  lemma CloseCount(t: Table, fd: Fd)
    requires Wf(t) && Linked(t) && Paired(t) && fd in t.at
    ensures !Breaks(t, Gone(fd)) ==> |BusySet(HandleClose(t, fd).t)| == |BusySet(t)| + BusyChange(t, Gone(fd))
    ensures Breaks(t, Gone(fd)) ==> |BusySet(HandleClose(t, fd).t)| == |BusySet(t)| - 1
  {
    CloseShape(t, fd);
    ClosedCount(t, HandleClose(t, fd).t, fd);
  }

  /** Conservation: a step that keeps the pairs raises the number of busy
      clients by exactly two when an accept succeeds, lowers it by exactly two
      when a busy client disconnects or closes, and otherwise leaves it. */
  lemma BusyCount(t: Table, ev: SrvEvent)
    requires Wf(t) && Linked(t) && Paired(t) && Possible(t, ev) && !Breaks(t, ev)
    ensures |BusySet(SrvStep(t, ev))| == |BusySet(t)| + BusyChange(t, ev)
  {
    match ev {
      case Arrive(fd) => assert BusySet(SrvStep(t, ev)) == BusySet(t);
      case Gone(fd) =>
        if fd in t.at {
          CloseCount(t, fd);
        } else {
          NobodyCloses(t, fd);
        }
      case Receive(fd, r) =>
        HandleChanges(t, fd, r);
        BreaksIsSplits(t, fd, r);
        ChangeCount(t, Handle(t, fd, r).t, fd, ChangeOf(t, fd, r));
        BusyChangeOf(t, fd, r);
    }
  }

  lemma BusyChangeOf(t: Table, fd: Fd, r: Request)
    requires Wf(t) && Linked(t)
    ensures var ch := ChangeOf(t, fd, r);
            BusyChange(t, Receive(fd, r)) == if ch.Coupled? then 2 else if ch.Parted? then -2 else 0
  {
    assert INVALID_FD !in t.at;
  }

  /** The close that breaks a pair lowers the number by one, which alone shows
      that no pairing of the busy clients is left. */
  lemma BreakingCloseCount(t: Table, fd: Fd)
    requires Wf(t) && Linked(t) && Paired(t) && Breaks(t, Gone(fd))
    ensures |BusySet(HandleClose(t, fd).t)| == |BusySet(t)| - 1
  {
    CloseCount(t, fd);
  }
}

/** The branches of the handlers sorted by what they change in the registry:
    the record of the client that asks and that of at most one other client. */
module Changes {
  import opened Common
  import opened Table
  import opened Handlers

  datatype Change =
    | Still                             // nothing; the replies change no flag either
    | Stuck                             // an accept without a link: nothing, but the mutex is kept
    | Misled                            // nothing, but the client is told that its chat began
    | Renamed(name: string)
    | Asked(peer: Fd)                   // the peer becomes pending, both are linked
    | Coupled(peer: Fd, told: bool)     // both busy and linked; told of it, or not
    | Parted(peer: Fd)                  // both free and without a link
    | Declined                          // the client is free, its link stays
    | Refused                           // the same, because its peer is busy
    | Forgot                            // the client is free and without a link
    | Marked(peer: Fd)                  // the first half of Asked: the peer is pending
    | Tied(peer: Fd)                    // the second half: both are linked

  function ChangeOf(t: Table, fd: Fd, r: Request): Change {
    var conn := ConnFd(t, fd);
    match r
    case SetName(name) =>
      if fd in t.at && NameCheck(t, name) == NameNotExist then Renamed(Clip(name, MAX_CLIENT_NAME_LEN - 1)) else Still
    case GetList => Still
    case Connect(name) =>
      if fd != INVALID_FD && NameCheck(t, name) == NameExists
         && NameByFd(t, fd) != name && StatusByName(t, name) == Free
      then Asked(FdByName(t, name)) else Still
    case Accept =>
      if conn == INVALID_FD then Stuck
      else if NameByFd(t, conn) == UNDEF_NAME then Forgot
      else if StatusByFd(t, conn) == Busy then Refused
      else if StatusByFd(t, fd) != ReqPending then Misled
      else Coupled(conn, NameByFd(t, fd) != UNDEF_NAME)
    case Decline =>
      if fd != INVALID_FD && StatusByFd(t, fd) == ReqPending && conn != INVALID_FD then Declined else Still
    case Tx(line) =>
      if StatusByFd(t, fd) == Busy && conn != INVALID_FD && line == DISCONNECT_CMD then Parted(conn) else Still
  }

  /** What becomes of the record `x` of `f` when `fd` causes the change. */
  function NewRec(x: Rec, f: Fd, fd: Fd, ch: Change): Rec {
    match ch
    case Renamed(name) => if f == fd then x.(name := name) else x
    case Asked(p) =>
      if f == p then Rec(ReqPending, fd, x.name) else if f == fd then x.(toFd := p) else x
    case Coupled(p, _) =>
      if f == fd then Rec(Busy, p, x.name) else if f == p then Rec(Busy, fd, x.name) else x
    case Parted(p) => if f == fd || f == p then Rec(Free, INVALID_FD, x.name) else x
    case Declined => if f == fd then x.(status := Free) else x
    case Refused => if f == fd then x.(status := Free) else x
    case Forgot => if f == fd then Rec(Free, INVALID_FD, x.name) else x
    case Marked(p) => if f == p then x.(status := ReqPending) else x
    case Tied(p) => if f == p then x.(toFd := fd) else if f == fd then x.(toFd := p) else x
    case _ => x
  }

  ghost predicate Changed(t: Table, t': Table, fd: Fd, ch: Change) {
    && t'.order == t.order && t'.at.Keys == t.at.Keys
    && (forall f :: f in t.at ==> t'.at[f] == NewRec(t.at[f], f, fd, ch))
  }

  /** What holds of both clients where a branch is taken. */
  predicate Guarded(t: Table, fd: Fd, ch: Change) {
    match ch
    case Renamed(_) => fd in t.at
    case Asked(p) => fd != INVALID_FD && p in t.at && p != fd && t.at[p].status == Free
    case Coupled(p, told) =>
      && fd in t.at && t.at[fd].status == ReqPending && t.at[fd].toFd == p
      && p in t.at && t.at[p].status != Busy && p != fd
      && t.at[p].name != UNDEF_NAME && (told <==> t.at[fd].name != UNDEF_NAME)
    case Parted(p) => fd in t.at && t.at[fd].status == Busy && t.at[fd].toFd == p && p != fd
    case Declined => fd in t.at && t.at[fd].status == ReqPending
    case Refused => fd in t.at && StatusByFd(t, t.at[fd].toFd) == Busy
    case Forgot => fd in t.at && NameByFd(t, t.at[fd].toFd) == UNDEF_NAME
    case Misled => fd in t.at && t.at[fd].status != ReqPending && StatusByFd(t, t.at[fd].toFd) != Busy
    case Marked(_) => false
    case Tied(_) => false
    case _ => true
  }

  // ---- the shape of each branch ----

  lemma AskedShape(t: Table, fd: Fd, p: Fd)
    requires p in t.at && p != fd
    ensures Changed(t, LinkPending(t, fd, p), fd, Asked(p))
  {
  }

  lemma TiedShape(t: Table, fd: Fd, p: Fd)
    requires p != fd
    ensures Changed(t, LinkBoth(t, fd, p), fd, Tied(p))
  {
  }

  lemma CoupledShape(t: Table, fd: Fd, p: Fd, told: bool)
    requires p != fd
    ensures Changed(t, LinkBusy(t, fd, p), fd, Coupled(p, told))
  {
  }

  lemma PartedShape(t: Table, fd: Fd, p: Fd)
    requires p != fd
    ensures Changed(t, Unlink(t, fd, p), fd, Parted(p))
  {
  }

  lemma FreeShape(t: Table, fd: Fd)
    ensures Changed(t, SetStatus(t, fd, Free), fd, Declined) && Changed(t, SetStatus(t, fd, Free), fd, Refused)
    ensures Changed(t, SetTo(SetStatus(t, fd, Free), fd, INVALID_FD), fd, Forgot)
  {
  }

  lemma ConnectChanges(t: Table, fd: Fd, name: string)
    requires Wf(t)
    ensures var ch := ChangeOf(t, fd, Connect(name));
            Changed(t, HandleConnect(t, fd, name).t, fd, ch) && Guarded(t, fd, ch)
  {
    ConnectTarget(t, name);
    var ch := ChangeOf(t, fd, Connect(name));
    if ch.Asked? {
      AskedShape(t, fd, ch.peer);
    }
  }

  lemma AcceptChanges(t: Table, fd: Fd)
    requires Linked(t)
    ensures var ch := ChangeOf(t, fd, Accept);
            Changed(t, HandleAccept(t, fd).t, fd, ch) && Guarded(t, fd, ch)
  {
    var ch := ChangeOf(t, fd, Accept);
    FreeShape(t, fd);
    if ch.Coupled? {
      CoupledShape(t, fd, ch.peer, ch.told);
    }
  }

  lemma TxChanges(t: Table, fd: Fd, line: string)
    requires Linked(t)
    ensures var ch := ChangeOf(t, fd, Tx(line));
            Changed(t, HandleTx(t, fd, line).t, fd, ch) && Guarded(t, fd, ch)
  {
    var ch := ChangeOf(t, fd, Tx(line));
    if ch.Parted? {
      PartedShape(t, fd, ch.peer);
    }
  }

  lemma DeclineChanges(t: Table, fd: Fd)
    ensures var ch := ChangeOf(t, fd, Decline);
            Changed(t, HandleDecline(t, fd).t, fd, ch) && Guarded(t, fd, ch)
  {
    FreeShape(t, fd);
  }

  lemma SetNameChanges(t: Table, fd: Fd, name: string)
    ensures var ch := ChangeOf(t, fd, SetName(name));
            Changed(t, HandleSetName(t, fd, name).t, fd, ch) && Guarded(t, fd, ch)
  {
  }

  /** A handler makes the change of its branch, and no other. */
  lemma HandleChanges(t: Table, fd: Fd, r: Request)
    requires Wf(t) && Linked(t)
    ensures var ch := ChangeOf(t, fd, r);
            && Changed(t, Handle(t, fd, r).t, fd, ch) && Guarded(t, fd, ch)
            && (Handle(t, fd, r).leak <==> ch.Stuck?)
  {
    match r {
      case Connect(name) => ConnectChanges(t, fd, name);
      case Accept => AcceptChanges(t, fd);
      case Tx(line) => TxChanges(t, fd, line);
      case Decline => DeclineChanges(t, fd);
      case SetName(name) => SetNameChanges(t, fd, name);
      case GetList =>
    }
  }

  // ---- the messages of each branch ----

  /** The messages of an accept, by its branch. */
  function AcceptReplies(t: Table, fd: Fd, ch: Change): seq<Envelope> {
    match ch
    case Forgot => [Env(fd, Msg(NoMoreExist, NO_CLIENT))]
    case Refused => [Env(fd, Msg(NoMoreFree, NameByFd(t, ConnFd(t, fd))))]
    case Misled => [Env(fd, Msg(AcceptAck, WRONG_ACK))]
    case Coupled(p, told) =>
      if told then [Env(fd, Msg(ChatReady, NameByFd(t, p))), Env(p, Msg(AcceptAck, NameByFd(t, fd)))] else []
    case _ => []
  }

  lemma AcceptSends(t: Table, fd: Fd)
    requires Linked(t)
    ensures HandleAccept(t, fd).sends == AcceptReplies(t, fd, ChangeOf(t, fd, Accept))
  {
    var ch := ChangeOf(t, fd, Accept);
    if ch.Coupled? {
      CoupledShape(t, fd, ch.peer, ch.told);
      assert NameByFd(LinkBusy(t, fd, ch.peer), ch.peer) == NameByFd(t, ch.peer);
      assert NameByFd(LinkBusy(t, fd, ch.peer), fd) == NameByFd(t, fd);
    }
  }

  // ---- the link invariants ----

  lemma ChangeKeepsLinks(t: Table, t': Table, fd: Fd, ch: Change)
    requires Wf(t) && Linked(t) && Changed(t, t', fd, ch) && Guarded(t, fd, ch)
    ensures Wf(t') && Linked(t')
  {
    assert INVALID_FD !in t.at;
  }

  /** Every request, from anyone and in any order, keeps the table well formed
      and the links sound. */
  lemma HandleKeepsLinks(t: Table, fd: Fd, r: Request)
    requires Wf(t) && Linked(t)
    ensures Wf(Handle(t, fd, r).t) && Linked(Handle(t, fd, r).t)
    ensures Handle(t, fd, r).t.order == t.order && Handle(t, fd, r).t.at.Keys == t.at.Keys
  {
    HandleChanges(t, fd, r);
    ChangeKeepsLinks(t, Handle(t, fd, r).t, fd, ChangeOf(t, fd, r));
  }

  lemma RegisterKeepsLinks(t: Table, fd: Fd)
    requires Wf(t) && Linked(t) && ValidFd(fd) && fd !in t.at
    ensures Wf(Register(t, fd)) && Linked(Register(t, fd))
  {
    RegisterWf(t, fd);
  }

  // ---- the close branch ----

  /** `fd` is gone, and the client it was linked to is free if it was not. */
  ghost predicate Closed(t: Table, t': Table, fd: Fd) {
    && t'.at.Keys == t.at.Keys - {fd}
    && (forall f :: f in t.at && f != fd ==>
          t'.at[f] == if Frees(t, fd) && f == t.at[fd].toFd then t.at[f].(status := Free) else t.at[f])
  }

  lemma FreedPeer(t: Table, fd: Fd, conn: Fd)
    requires Wf(t)
    ensures var u := SetTo(SetStatus(t, conn, Free), fd, INVALID_FD);
            && Wf(u) && u.order == t.order && u.at.Keys == t.at.Keys
            && (forall f :: f in t.at && f != fd ==>
                  u.at[f] == if f == conn then t.at[f].(status := Free) else t.at[f])
  {
    var u := SetTo(SetStatus(t, conn, Free), fd, INVALID_FD);
    assert u.at.Keys == t.at.Keys;
    assert forall f :: f in u.at <==> f in u.at.Keys;
  }

  /** A close takes the closer out and, at most, frees the client it is linked
      to, which keeps its own link and is told; nobody else notices. */
  lemma CloseShape(t: Table, fd: Fd)
    requires Wf(t) && fd in t.at
    ensures Wf(HandleClose(t, fd).t) && Closed(t, HandleClose(t, fd).t, fd)
    ensures |HandleClose(t, fd).t.order| == |t.order| - 1
    ensures HandleClose(t, fd).sends ==
            if Frees(t, fd) then [Env(t.at[fd].toFd, Msg(Termination, t.at[fd].name))] else []
  {
    if Frees(t, fd) {
      FreedPeer(t, fd, t.at[fd].toFd);
      UnregisterWf(SetTo(SetStatus(t, t.at[fd].toFd, Free), fd, INVALID_FD), fd);
    } else {
      UnregisterWf(t, fd);
    }
  }

  lemma CloseKeepsLinks(t: Table, fd: Fd)
    requires Wf(t) && Linked(t) && fd in t.at
    ensures Wf(HandleClose(t, fd).t) && Linked(HandleClose(t, fd).t)
    ensures HandleClose(t, fd).t.at.Keys == t.at.Keys - {fd}
  {
    CloseShape(t, fd);
  }

  // ---- names ----

  /** The same clients under the same names. */
  ghost predicate SameNames(t: Table, t': Table) {
    t'.at.Keys == t.at.Keys && forall f :: f in t.at ==> t'.at[f].name == t.at[f].name
  }

  lemma ChangeKeepsNames(t: Table, t': Table, fd: Fd, ch: Change)
    requires Changed(t, t', fd, ch) && !ch.Renamed?
    ensures SameNames(t, t')
  {
  }
}

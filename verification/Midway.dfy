/** The clients' flags while the handlers run section by section.  In the middle
    of a handler flags and status differ by what its thread has still to do and
    to tell; which sections keep it so, and that nothing is left once all
    threads wait. */
module Midway {
  import opened Common
  import opened Table
  import opened Client
  import opened Handlers
  import opened Changes
  import opened Composed
  import opened ViewAgreement
  import opened Sections
  import opened Interleaved

  // ---- what may still differ ----

  /** The thread is not in the middle of an answer or of the end of a chat. */
  predicate Plain(p: Pc) {
    p.Ready? || p.Mark? || p.Link?
  }

  /** Flags `c` of a client with status `s` whose own thread is at `p`; `mid` if
      another thread has marked it and not told it yet.  Who has said no, or yes
      to a client that was not busy, has no request any more; who has ended its
      chat has neither; and who is about to be told that its requester is busy
      is reset by that. */
  predicate Owed(c: Flags, s: Status, p: Pc, mid: bool) {
    match p
    case Yield(_) => true
    case Cut(_) => !c.busy && !c.req
    case Commit(_) => (c.busy <==> s == Busy) && !c.req
    case Drop => (c.busy <==> s == Busy) && !c.req
    case _ =>
      && (c.busy <==> s == Busy)
      && (c.req ==> s == ReqPending)
      && (s == ReqPending && !mid ==> c.req)
  }

  ghost predicate OwedAt(t: Table, pc: map<Fd, Pc>, v: map<Fd, Flags>, f: Fd) {
    f in t.at && f in v && f in pc && Owed(v[f], t.at[f].status, pc[f], MidLink(pc, f))
  }

  ghost predicate Midway(t: Table, pc: map<Fd, Pc>, v: map<Fd, Flags>) {
    v.Keys == t.at.Keys && forall f {:trigger OwedAt(t, pc, v, f)} :: f in t.at ==> OwedAt(t, pc, v, f)
  }

  /** Once every thread waits, flags and statuses agree. */
  lemma RestAgrees(t: Table, pc: map<Fd, Pc>, v: map<Fd, Flags>)
    requires pc.Keys == t.at.Keys && v.Keys == t.at.Keys && forall f :: f in pc ==> pc[f] == Ready
    ensures Midway(t, pc, v) <==> Agrees(t, v)
  {
    if Agrees(t, v) {
      forall f | f in t.at ensures OwedAt(t, pc, v, f) {
        assert f in pc.Keys;
      }
    } else if Midway(t, pc, v) {
      forall f | f in t.at ensures AgreesAt(v[f], t.at[f].status) {
        assert OwedAt(t, pc, v, f);
      }
    }
  }

  // ---- which threads have marked a client ----

  /** A thread other than that of `fd` has marked `f` and not linked it yet. */
  ghost predicate MidBut(pc: map<Fd, Pc>, fd: Fd, f: Fd) {
    exists g :: g in pc && g != fd && pc[g].Link? && pc[g].target == f
  }

  lemma MidLinkAfter(pc: map<Fd, Pc>, fd: Fd, p: Pc, f: Fd)
    requires fd in pc
    ensures MidLink(pc, f) <==> MidBut(pc, fd, f) || (pc[fd].Link? && pc[fd].target == f)
    ensures MidLink(pc[fd := p], f) <==> MidBut(pc, fd, f) || (p.Link? && p.target == f)
  {
    var pc' := pc[fd := p];
    if MidBut(pc, fd, f) {
      var g :| g in pc && g != fd && pc[g].Link? && pc[g].target == f;
      assert g in pc' && pc'[g] == pc[g];
    }
    if p.Link? && p.target == f {
      assert fd in pc' && pc'[fd] == p;
    }
    if MidLink(pc', f) {
      var g :| g in pc' && pc'[g].Link? && pc'[g].target == f;
      assert g != fd ==> g in pc && pc[g] == pc'[g];
    }
  }

  // ---- what a section tells ----

  /** Its messages, as those of the change they announce. */
  function FirstNews(t: Table, fd: Fd, r: Request): Change {
    if r.Accept? then
      var ch := ChangeOf(t, fd, Accept);
      if ch.Stuck? || ch.Forgot? || ch.Misled? then ch else Still
    else Still
  }

  function NextNews(t: Table, fd: Fd, pc: Pc): Change {
    match pc
    case Link(target, _, _) => Asked(target)
    case Yield(_) => Refused
    case Commit(conn) => Coupled(conn, NameByFd(t, conn) != UNDEF_NAME && NameByFd(t, fd) != UNDEF_NAME)
    case Cut(conn) => Parted(conn)
    case _ => Still
  }

  lemma AcceptFirstTold(t: Table, fd: Fd, v: map<Fd, Flags>)
    ensures Told(t, v, Read(v, First(t, fd, Accept).sends), fd, FirstNews(t, fd, Accept))
  {
    var news := FirstNews(t, fd, Accept);
    if news.Misled? {
      ReadOne(v, Env(fd, Msg(AcceptAck, WRONG_ACK)));
    } else {
      QuietTold(t, First(t, fd, Accept).sends, fd, v, news);
    }
  }

  lemma ConnectFirstIsQuiet(t: Table, fd: Fd, name: string)
    requires Wf(t)
    ensures var sends := First(t, fd, Connect(name)).sends; |sends| <= 1 && forall e :: e in sends ==> Quiet(e.msg)
  {
    ConnectTarget(t, name);
  }

  lemma FirstTold(t: Table, fd: Fd, r: Request, v: map<Fd, Flags>)
    requires Wf(t)
    ensures Told(t, v, Read(v, First(t, fd, r).sends), fd, FirstNews(t, fd, r))
  {
    if r.Accept? {
      AcceptFirstTold(t, fd, v);
    } else {
      if r.Connect? {
        ConnectFirstIsQuiet(t, fd, r.target);
      }
      QuietTold(t, First(t, fd, r).sends, fd, v, Still);
    }
  }

  lemma CommitTold(t: Table, fd: Fd, conn: Fd, v: map<Fd, Flags>)
    requires fd != conn
    ensures Told(t, v, Read(v, Next(t, fd, Commit(conn)).sends), fd, NextNews(t, fd, Commit(conn)))
  {
    var news := NextNews(t, fd, Commit(conn));
    var t' := LinkBusy(t, fd, conn);
    assert NameByFd(t', conn) == NameByFd(t, conn) && NameByFd(t', fd) == NameByFd(t, fd);
    if news.told {
      CoupledTold(t, fd, conn, v);
    }
  }

  lemma LinkTold(t: Table, fd: Fd, x: Fd, me: string, name: string, v: map<Fd, Flags>)
    ensures Told(t, v, Read(v, Next(t, fd, Link(x, me, name)).sends), fd, Asked(x))
  {
    AskedTold(t, fd, x, Msg(ConnectionReqRx, me), Reply(ClientFree, name), v);
  }

  lemma NextTold(t: Table, fd: Fd, pc: Pc, v: map<Fd, Flags>)
    requires pc.Commit? ==> pc.conn != fd
    ensures Told(t, v, Read(v, Next(t, fd, pc).sends), fd, NextNews(t, fd, pc))
  {
    match pc {
      case Link(x, me, name) => LinkTold(t, fd, x, me, name, v);
      case Yield(name) => ReadOne(v, Env(fd, Msg(NoMoreFree, name)));
      case Commit(conn) => CommitTold(t, fd, conn, v);
      case Cut(conn) => ReadOne(v, Env(conn, Msg(Disconnected, NameByFd(t, fd))));
      case _ => QuietNext(t, fd, pc, v);
    }
  }

  lemma QuietNext(t: Table, fd: Fd, pc: Pc, v: map<Fd, Flags>)
    requires pc.Ready? || pc.Mark? || pc.Drop?
    ensures Told(t, v, Read(v, Next(t, fd, pc).sends), fd, Still)
  {
    QuietTold(t, Next(t, fd, pc).sends, fd, v, Still);
  }

  // ---- which sections leave a difference ----

  /** The first section of a request leaves one, `e` being the flags of its
      client once it has read everything. */
  predicate FirstCrosses(t: Table, fd: Fd, r: Request, e: Flags) {
    var conn := ConnFd(t, fd);
    var s := StatusByFd(t, fd);
    match r
    case Accept =>
      if conn == INVALID_FD then true
      else if NameByFd(t, conn) == UNDEF_NAME then s == Busy || e.req
      else if StatusByFd(t, conn) == Busy then false
      else s == Free || (s == ReqPending && e.req)
    case Decline => s == ReqPending && conn != INVALID_FD && e.req
    case Tx(line) => line == DISCONNECT_CMD && s == Busy && (e.busy <==> conn != INVALID_FD)
    case _ => false
  }

  /** A later section leaves one: it marks a client in a chat; it tells of a
      request one that is not pending any more, or that is answering or leaving;
      it couples one that is just leaving a chat, or does it unheard; or it
      frees, unheard, one that has been coupled meanwhile. */
  predicate NextCrosses(t: Table, pc: map<Fd, Pc>, fd: Fd)
    requires fd in pc
  {
    match pc[fd]
    case Mark(name, _) =>
      var x := FdByName(t, name);
      x in pc && StatusByFd(t, x) == Busy && !pc[x].Yield? && !pc[x].Cut?
    case Link(x, _, _) => x in pc && !pc[x].Yield? && (StatusByFd(t, x) != ReqPending || !Plain(pc[x]))
    case Commit(x) =>
      if NameByFd(t, x) != UNDEF_NAME && NameByFd(t, fd) != UNDEF_NAME then x in pc && pc[x].Cut?
      else
        || StatusByFd(t, fd) != Busy
        || (x in pc && StatusByFd(t, x) != Busy && !pc[x].Yield? && !pc[x].Cut?)
    case Drop => StatusByFd(t, fd) == Busy
    case _ => false
  }

  /** Who is concerned by neither the change nor what is told keeps its flags,
      its status and its place. */
  lemma OthersOwed(t: Table, t': Table, pc: map<Fd, Pc>, v: map<Fd, Flags>, v': map<Fd, Flags>,
                   fd: Fd, ch: Change, news: Change, p: Pc, f: Fd)
    requires Midway(t, pc, v) && fd in pc && f in t.at && f != fd
    requires Changed(t, t', fd, ch) && v'.Keys == v.Keys && v'[f] == NewFlags(t, v[f], f, fd, news)
    requires NewRec(t.at[f], f, fd, ch).status == t.at[f].status && NewFlags(t, v[f], f, fd, news) == v[f]
    requires !(pc[fd].Link? && pc[fd].target == f) && !(p.Link? && p.target == f)
    ensures OwedAt(t', pc[fd := p], v', f)
  {
    MidLinkAfter(pc, fd, p, f);
    assert OwedAt(t, pc, v, f);
    assert f in t'.at.Keys;
  }

  /** All that matters is whether the client of the thread and the one its
      change concerns are left as they should be. */
  lemma TwoOwed(t: Table, t': Table, pc: map<Fd, Pc>, v: map<Fd, Flags>, v': map<Fd, Flags>,
                fd: Fd, ch: Change, news: Change, p: Pc, x: Fd)
    requires Midway(t, pc, v) && fd in pc && v.Keys == pc.Keys
    requires Changed(t, t', fd, ch) && v'.Keys == v.Keys
    requires forall f :: f in v && f != fd ==> v'[f] == NewFlags(t, v[f], f, fd, news)
    requires forall f :: f in t.at && f != fd && f != x ==>
               NewRec(t.at[f], f, fd, ch).status == t.at[f].status && NewFlags(t, v[f], f, fd, news) == v[f]
    requires forall f :: f in t.at && f != fd && f != x ==>
               !(pc[fd].Link? && pc[fd].target == f) && !(p.Link? && p.target == f)
    ensures Midway(t', pc[fd := p], v') <==>
            OwedAt(t', pc[fd := p], v', fd) && (x in t.at ==> OwedAt(t', pc[fd := p], v', x))
  {
    assert fd in t'.at.Keys && (x in t.at ==> x in t'.at.Keys);
    if OwedAt(t', pc[fd := p], v', fd) && (x in t.at ==> OwedAt(t', pc[fd := p], v', x)) {
      forall f | f in t'.at ensures OwedAt(t', pc[fd := p], v', f) {
        assert f in t.at.Keys;
        if f != fd && f != x {
          OthersOwed(t, t', pc, v, v', fd, ch, news, p, f);
        }
      }
    }
  }

  /** Some changes are nobody else's business. */
  predicate Private(ch: Change) {
    ch.Still? || ch.Stuck? || ch.Misled? || ch.Renamed? || ch.Forgot?
  }

  lemma OneOwed(t: Table, t': Table, pc: map<Fd, Pc>, v: map<Fd, Flags>, e: Flags, v': map<Fd, Flags>,
                fd: Fd, ch: Change, news: Change, p: Pc)
    requires Midway(t, pc, v) && fd in pc && v.Keys == pc.Keys && Changed(t, t', fd, ch)
    requires Told(t, v[fd := e], v', fd, news) && Private(ch) && Private(news) && !pc[fd].Link? && !p.Link?
    ensures Midway(t', pc[fd := p], v') <==> OwedAt(t', pc[fd := p], v', fd)
  {
    TwoOwed(t, t', pc, v, v', fd, ch, news, p, fd);
  }

  // ---- first sections ----

  lemma TyperOwed(t: Table, fd: Fd, r: Request, c: Flags, e: Flags, mid: bool)
    requires Wf(t) && fd in t.at && Fits(c, e, Some(r)) && Owed(c, t.at[fd].status, Ready, mid)
    requires t.at[fd].toFd != fd && (t.at[fd].status != Free && t.at[fd].toFd == INVALID_FD ==> mid)
    ensures var x := First(t, fd, r);
            !x.leak && Owed(NewFlags(t, e, fd, fd, FirstNews(t, fd, r)),
                            NewRec(t.at[fd], fd, fd, FirstChange(t, fd, r)).status, x.pc, mid)
            <==> !FirstCrosses(t, fd, r, e)
  {
  }

  lemma FirstOwn(t: Table, pc: map<Fd, Pc>, v: map<Fd, Flags>, v': map<Fd, Flags>, fd: Fd, r: Request, e: Flags)
    requires Wf(t) && LinksSafe(t, pc) && fd in t.at && fd in pc && pc[fd] == Ready && OwedAt(t, pc, v, fd)
    requires Fits(v[fd], e, Some(r)) && Told(t, v[fd := e], v', fd, FirstNews(t, fd, r))
    ensures var x := First(t, fd, r);
            !x.leak && OwedAt(x.t, pc[fd := x.pc], v', fd) <==> !FirstCrosses(t, fd, r, e)
  {
    var x := First(t, fd, r);
    FirstChanges(t, fd, r);
    MidLinkAfter(pc, fd, x.pc, fd);
    TyperOwed(t, fd, r, v[fd], e, MidLink(pc, fd));
    assert fd in x.t.at.Keys;
  }

  lemma FirstMidway(t: Table, pc: map<Fd, Pc>, v: map<Fd, Flags>, fd: Fd, r: Request, e: Flags)
    requires Wf(t) && LinksSafe(t, pc) && pc.Keys == t.at.Keys && Midway(t, pc, v)
    requires fd in pc && pc[fd] == Ready && Fits(v[fd], e, Some(r))
    ensures var x := First(t, fd, r);
            !x.leak && Midway(x.t, pc[fd := x.pc], Read(v[fd := e], x.sends)) <==> !FirstCrosses(t, fd, r, e)
  {
    var x := First(t, fd, r);
    var v' := Read(v[fd := e], x.sends);
    FirstChanges(t, fd, r);
    FirstTold(t, fd, r, v[fd := e]);
    assert OwedAt(t, pc, v, fd);
    FirstOwn(t, pc, v, v', fd, r, e);
    OneOwed(t, x.t, pc, v, e, v', fd, FirstChange(t, fd, r), FirstNews(t, fd, r), x.pc);
  }

  // ---- later sections ----

  /** Whom a later section concerns, apart from its own client. */
  function Concerned(t: Table, fd: Fd, p: Pc): Fd {
    match p
    case Mark(name, _) => FdByName(t, name)
    case Link(x, _, _) => x
    case Commit(x) => x
    case Cut(x) => x
    case _ => fd
  }

  /** The part of the condition that is about the thread's own client. */
  predicate OwnCrosses(t: Table, fd: Fd, p: Pc) {
    match p
    case Commit(x) => (NameByFd(t, x) == UNDEF_NAME || NameByFd(t, fd) == UNDEF_NAME) && StatusByFd(t, fd) != Busy
    case Drop => StatusByFd(t, fd) == Busy
    case _ => false
  }

  /** And that about the other. */
  predicate PeerCrosses(t: Table, fd: Fd, p: Pc, s: Status, q: Pc) {
    match p
    case Mark(_, _) => s == Busy && !q.Yield? && !q.Cut?
    case Link(_, _, _) => !q.Yield? && (s != ReqPending || !Plain(q))
    case Commit(x) =>
      if NameByFd(t, x) != UNDEF_NAME && NameByFd(t, fd) != UNDEF_NAME then q.Cut?
      else s != Busy && !q.Yield? && !q.Cut?
    case _ => false
  }

  lemma OwnOwed(t: Table, fd: Fd, p: Pc, c: Flags, mid: bool)
    requires Wf(t) && fd in t.at && Owed(c, t.at[fd].status, p, mid)
    requires Concerned(t, fd, p) != fd || p.Ready? || p.Yield? || p.Drop?
    ensures Owed(NewFlags(t, c, fd, fd, NextNews(t, fd, p)), NewRec(t.at[fd], fd, fd, NextChange(t, p)).status,
                 Next(t, fd, p).pc, mid)
            <==> !OwnCrosses(t, fd, p)
  {
  }

  /** `mid` says whether a third thread has marked the client, too. */
  lemma PeerOwed(t: Table, fd: Fd, p: Pc, x: Fd, c: Flags, q: Pc, mid: bool)
    requires x in t.at && x != fd && x == Concerned(t, fd, p) && x != INVALID_FD
    requires Owed(c, t.at[x].status, q, mid || p.Link?)
    ensures Owed(NewFlags(t, c, x, fd, NextNews(t, fd, p)), NewRec(t.at[x], x, fd, NextChange(t, p)).status,
                 q, mid || p.Mark?)
            <==> !PeerCrosses(t, fd, p, t.at[x].status, q)
  {
  }

  lemma CrossesByPart(t: Table, pc: map<Fd, Pc>, fd: Fd)
    requires Wf(t) && pc.Keys == t.at.Keys && fd in pc && LocalSafe(t, fd, pc[fd])
    ensures var x := Concerned(t, fd, pc[fd]);
            && NextCrosses(t, pc, fd) <==>
               || OwnCrosses(t, fd, pc[fd])
               || (x in pc && x != fd && PeerCrosses(t, fd, pc[fd], t.at[x].status, pc[x]))
  {
    if pc[fd].Mark? {
      FdByNameNone(t, pc[fd].name);
    }
  }

  lemma NextShape(t: Table, fd: Fd, p: Pc)
    requires Wf(t) && fd in t.at && LocalSafe(t, fd, p)
    ensures var x, q := Concerned(t, fd, p), Next(t, fd, p).pc;
            && (x != INVALID_FD || p.Mark?)
            && (q.Link? <==> p.Mark? && x != INVALID_FD) && (q.Link? ==> q.target == x)
            && (x == fd ==> p.Ready? || p.Yield? || p.Drop?)
  {
    if p.Mark? {
      FdByNameNone(t, p.name);
    }
  }

  lemma OwnKept(t: Table, t': Table, pc: map<Fd, Pc>, v: map<Fd, Flags>, v': map<Fd, Flags>, fd: Fd, q: Pc)
    requires Wf(t) && LocalsSafe(t, pc) && fd in t.at && fd in pc && OwedAt(t, pc, v, fd)
    requires Changed(t, t', fd, NextChange(t, pc[fd])) && Told(t, v, v', fd, NextNews(t, fd, pc[fd]))
    requires q == Next(t, fd, pc[fd]).pc
    ensures OwedAt(t', pc[fd := q], v', fd) <==> !OwnCrosses(t, fd, pc[fd])
  {
    NextShape(t, fd, pc[fd]);
    MidLinkAfter(pc, fd, q, fd);
    OwnOwed(t, fd, pc[fd], v[fd], MidLink(pc, fd));
    assert fd in t'.at.Keys;
  }

  lemma PeerKept(t: Table, t': Table, pc: map<Fd, Pc>, v: map<Fd, Flags>, v': map<Fd, Flags>, fd: Fd, q: Pc, x: Fd)
    requires Wf(t) && LocalsSafe(t, pc) && fd in t.at && fd in pc && OwedAt(t, pc, v, x)
    requires Changed(t, t', fd, NextChange(t, pc[fd])) && Told(t, v, v', fd, NextNews(t, fd, pc[fd]))
    requires q == Next(t, fd, pc[fd]).pc && x == Concerned(t, fd, pc[fd]) && x != fd
    ensures OwedAt(t', pc[fd := q], v', x) <==> !PeerCrosses(t, fd, pc[fd], t.at[x].status, pc[x])
  {
    NextShape(t, fd, pc[fd]);
    MidLinkAfter(pc, fd, q, x);
    assert INVALID_FD !in t.at;
    PeerOwed(t, fd, pc[fd], x, v[x], pc[x], MidBut(pc, fd, x));
    assert x in t'.at.Keys;
  }

  lemma NextTwo(t: Table, t': Table, pc: map<Fd, Pc>, v: map<Fd, Flags>, v': map<Fd, Flags>, fd: Fd, q: Pc)
    requires Wf(t) && LocalsSafe(t, pc) && pc.Keys == t.at.Keys && Midway(t, pc, v) && fd in pc
    requires Changed(t, t', fd, NextChange(t, pc[fd])) && Told(t, v, v', fd, NextNews(t, fd, pc[fd]))
    requires q == Next(t, fd, pc[fd]).pc
    ensures var x := Concerned(t, fd, pc[fd]);
            Midway(t', pc[fd := q], v') <==>
            OwedAt(t', pc[fd := q], v', fd) && (x in t.at ==> OwedAt(t', pc[fd := q], v', x))
  {
    assert LocalSafe(t, fd, pc[fd]);
    NextShape(t, fd, pc[fd]);
    TwoOwed(t, t', pc, v, v', fd, NextChange(t, pc[fd]), NextNews(t, fd, pc[fd]), q, Concerned(t, fd, pc[fd]));
  }

  lemma NextMidway(t: Table, pc: map<Fd, Pc>, v: map<Fd, Flags>, fd: Fd)
    requires Wf(t) && LocalsSafe(t, pc) && pc.Keys == t.at.Keys && Midway(t, pc, v) && fd in pc
    ensures var s := Next(t, fd, pc[fd]);
            Midway(s.t, pc[fd := s.pc], Read(v, s.sends)) <==> !NextCrosses(t, pc, fd)
  {
    var p, s := pc[fd], Next(t, fd, pc[fd]);
    var x, v' := Concerned(t, fd, p), Read(v, s.sends);
    assert LocalSafe(t, fd, p) && OwedAt(t, pc, v, fd);
    NextChanges(t, fd, p);
    NextTold(t, fd, p, v);
    CrossesByPart(t, pc, fd);
    NextTwo(t, s.t, pc, v, v', fd, s.pc);
    OwnKept(t, s.t, pc, v, v', fd, s.pc);
    if x in t.at && x != fd {
      PeerKept(t, s.t, pc, v, v', fd, s.pc, x);
    }
  }

  // ---- registration and close ----

  lemma EnterMidway(t: Table, pc: map<Fd, Pc>, v: map<Fd, Flags>, fd: Fd)
    requires Wf(t) && pc.Keys == t.at.Keys && Midway(t, pc, v) && fd !in t.at
    ensures Midway(Register(t, fd), pc[fd := Ready], v[fd := START])
  {
    var pc' := pc[fd := Ready];
    forall f | f in t.at ensures OwedAt(Register(t, fd), pc', v[fd := START], f) {
      assert OwedAt(t, pc, v, f);
      if MidLink(pc, f) {
        var g :| g in pc && pc[g].Link? && pc[g].target == f;
        assert g in pc' && pc'[g] == pc[g];
      }
    }
  }

  lemma HangupMidway(t: Table, pc: map<Fd, Pc>, v: map<Fd, Flags>, fd: Fd)
    requires Wf(t) && pc.Keys == t.at.Keys && Midway(t, pc, v) && fd in pc && pc[fd] == Ready
    ensures Midway(HandleClose(t, fd).t, pc - {fd}, Read(v - {fd}, HandleClose(t, fd).sends))
  {
    var t', v' := HandleClose(t, fd).t, Read(v - {fd}, HandleClose(t, fd).sends);
    CloseShape(t, fd);
    CloseTold(t, fd, v - {fd});
    forall f | f in t'.at ensures OwedAt(t', pc - {fd}, v', f) {
      assert f in t.at.Keys - {fd} && OwedAt(t, pc, v, f);
      MidLinkWithout(pc, fd, f);
    }
  }

  lemma MidLinkWithout(pc: map<Fd, Pc>, fd: Fd, f: Fd)
    requires fd in pc && !pc[fd].Link?
    ensures MidLink(pc - {fd}, f) <==> MidLink(pc, f)
  {
    var pc' := pc - {fd};
    if MidLink(pc, f) {
      var g :| g in pc && pc[g].Link? && pc[g].target == f;
      assert g in pc' && pc'[g] == pc[g];
    }
  }

  // ---- threads and clients together ----

  /** The server's threads, and a client with its inbox behind each of them. */
  datatype Crowd = Crowd(n: Net, cl: map<Fd, Peer>)

  const NOBODY := Crowd(Interleaved.INIT, map[])

  datatype Deed =
    | Turn(act: Action)             // the acceptor or a thread goes on
    | Line(fd: Fd, raw: string)     // the user types, and the thread begins the request
    | Hear(fd: Fd)                  // the client reads its oldest message

  predicate Can(s: Crowd, d: Deed) {
    match d
    case Turn(act) => !act.Begin? && May(s.n, act)
    case Line(fd, raw) =>
      && fd in s.cl && 0 < |raw| < MAX_MSG_LEN
      && var r := Typed(s.cl[fd].flags, raw).1;
         r.Some? ==> May(s.n, Begin(fd, r.value))
    case Hear(fd) => fd in s.cl && s.cl[fd].inbox != []
  }

  function Does(s: Crowd, d: Deed): Crowd
    requires Can(s, d)
  {
    match d
    case Turn(act) =>
      var n := Do(s.n, act);
      (match act
       case Enter(fd) => Crowd(n, if s.n.count < MAX_CLIENT then s.cl[fd := Peer(START, [])] else s.cl)
       case Resume(fd) => Crowd(n, Post(s.cl, Next(s.n.t, fd, s.n.pc[fd]).sends))
       case Hangup(fd) => Crowd(n, Post(s.cl - {fd}, HandleClose(s.n.t, fd).sends))
       case _ => Crowd(n, s.cl))
    case Line(fd, raw) =>
      var (c, r) := Typed(s.cl[fd].flags, raw);
      var cl := s.cl[fd := s.cl[fd].(flags := c)];
      if r.None? then s.(cl := cl)
      else Crowd(Do(s.n, Begin(fd, r.value)), Post(cl, First(s.n.t, fd, r.value).sends))
    case Hear(fd) =>
      var p := s.cl[fd];
      s.(cl := s.cl[fd := Peer(Rx(p.flags, p.inbox[0]), p.inbox[1..])])
  }

  /** The mutex is not lost, and eventual flags differ from the statuses only by
      what threads in the middle of a handler owe. */
  ghost predicate InStep(s: Crowd) {
    Safe(s.n) && !s.n.stuck && Midway(s.n.t, s.n.pc, AbsClients(s.cl))
  }

  predicate FallsOut(s: Crowd, d: Deed) {
    match d
    case Turn(Resume(fd)) => fd in s.n.pc && NextCrosses(s.n.t, s.n.pc, fd)
    case Line(fd, raw) =>
      && fd in s.cl
      && var (c, r) := Typed(s.cl[fd].flags, raw);
         r.Some? && FirstCrosses(s.n.t, fd, r.value, Replay(c, s.cl[fd].inbox))
    case _ => false
  }

  lemma LineInStep(s: Crowd, fd: Fd, raw: string)
    requires InStep(s) && Can(s, Line(fd, raw))
    ensures InStep(Does(s, Line(fd, raw))) <==> !FallsOut(s, Line(fd, raw))
  {
    var (c, r) := Typed(s.cl[fd].flags, raw);
    var p := s.cl[fd].(flags := c);
    var v := AbsClients(s.cl);
    ReplayFits(s.cl[fd].flags, c, p.inbox, r);
    assert AbsClients(s.cl[fd := p]) == v[fd := Pending(p)];
    if r.Some? {
      SafeStep(s.n, Begin(fd, r.value));
      FirstMidway(s.n.t, s.n.pc, v, fd, r.value, Pending(p));
      PostIsRead(s.cl[fd := p], First(s.n.t, fd, r.value).sends);
    } else {
      assert v[fd := Pending(p)] == v;
    }
  }

  lemma EnterInStep(s: Crowd, fd: Fd)
    requires InStep(s) && Can(s, Turn(Enter(fd)))
    ensures InStep(Does(s, Turn(Enter(fd))))
  {
    SafeStep(s.n, Enter(fd));
    if s.n.count < MAX_CLIENT {
      EnterMidway(s.n.t, s.n.pc, AbsClients(s.cl), fd);
      assert AbsClients(s.cl[fd := Peer(START, [])]) == AbsClients(s.cl)[fd := START];
    }
  }

  lemma ResumeInStep(s: Crowd, fd: Fd)
    requires InStep(s) && Can(s, Turn(Resume(fd)))
    ensures InStep(Does(s, Turn(Resume(fd)))) <==> !FallsOut(s, Turn(Resume(fd)))
  {
    SafeStep(s.n, Resume(fd));
    NextMidway(s.n.t, s.n.pc, AbsClients(s.cl), fd);
    PostIsRead(s.cl, Next(s.n.t, fd, s.n.pc[fd]).sends);
  }

  lemma HangupInStep(s: Crowd, fd: Fd)
    requires InStep(s) && Can(s, Turn(Hangup(fd)))
    ensures InStep(Does(s, Turn(Hangup(fd))))
  {
    SafeStep(s.n, Hangup(fd));
    HangupMidway(s.n.t, s.n.pc, AbsClients(s.cl), fd);
    assert AbsClients(s.cl - {fd}) == AbsClients(s.cl) - {fd};
    PostIsRead(s.cl - {fd}, HandleClose(s.n.t, fd).sends);
  }

  lemma TurnInStep(s: Crowd, act: Action)
    requires InStep(s) && Can(s, Turn(act))
    ensures InStep(Does(s, Turn(act))) <==> !FallsOut(s, Turn(act))
  {
    match act {
      case Enter(fd) => EnterInStep(s, fd);
      case Resume(fd) => ResumeInStep(s, fd);
      case Hangup(fd) => HangupInStep(s, fd);
      case _ => SafeStep(s.n, act);
    }
  }

  lemma HearInStep(s: Crowd, fd: Fd)
    requires Can(s, Hear(fd))
    ensures AbsClients(Does(s, Hear(fd)).cl) == AbsClients(s.cl)
  {
    var p := s.cl[fd];
    var q := Peer(Rx(p.flags, p.inbox[0]), p.inbox[1..]);
    assert AbsClients(s.cl[fd := q]) == AbsClients(s.cl);
  }

  /** The exact condition, section by section, on any inbox and in any order of
      the threads: a deed keeps flags and statuses in step and the mutex free if
      and only if it is not a first or later section that crosses. */
  lemma StepInStep(s: Crowd, d: Deed)
    requires InStep(s) && Can(s, d)
    ensures InStep(Does(s, d)) <==> !FallsOut(s, d)
  {
    match d {
      case Turn(act) => TurnInStep(s, act);
      case Line(fd, raw) => LineInStep(s, fd, raw);
      case Hear(fd) => HearInStep(s, fd);
    }
  }

  /** Of users who have read everything only an accept or a disconnect without a
      link can be the cause; all the rest is threads that overtake each other. */
  lemma DrainedFallsOut(s: Crowd, fd: Fd, raw: string)
    requires InStep(s) && Can(s, Line(fd, raw)) && s.cl[fd].inbox == []
    ensures var r := Typed(s.cl[fd].flags, raw).1;
            FallsOut(s, Line(fd, raw)) <==>
            ConnFd(s.n.t, fd) == INVALID_FD && (r == Some(Accept) || r == Some(Tx(DISCONNECT_CMD)))
  {
    var v := AbsClients(s.cl);
    assert v[fd] == s.cl[fd].flags && OwedAt(s.n.t, s.n.pc, v, fd);
  }

  // ---- runs ----

  predicate IsCourse(s: Crowd, ds: seq<Deed>)
    decreases |ds|
  {
    ds == [] || (Can(s, ds[0]) && IsCourse(Does(s, ds[0]), ds[1..]))
  }

  function Outcome(s: Crowd, ds: seq<Deed>): Crowd
    requires IsCourse(s, ds)
    decreases |ds|
  {
    if ds == [] then s else Outcome(Does(s, ds[0]), ds[1..])
  }

  predicate SmoothCourse(s: Crowd, ds: seq<Deed>)
    requires IsCourse(s, ds)
    decreases |ds|
  {
    ds == [] || (!FallsOut(s, ds[0]) && SmoothCourse(Does(s, ds[0]), ds[1..]))
  }

  /** The line finds its client's inbox drained. */
  predicate Prompt(s: Crowd, d: Deed) {
    d.Line? && d.fd in s.cl ==> s.cl[d.fd].inbox == []
  }

  predicate PromptCourse(s: Crowd, ds: seq<Deed>)
    requires IsCourse(s, ds)
    decreases |ds|
  {
    ds == [] || (Prompt(s, ds[0]) && PromptCourse(Does(s, ds[0]), ds[1..]))
  }

  ghost predicate InStepThroughout(s: Crowd, ds: seq<Deed>)
    requires IsCourse(s, ds)
    decreases |ds|
  {
    InStep(s) && (ds == [] || InStepThroughout(Does(s, ds[0]), ds[1..]))
  }

  lemma {:induction false} InStepAlong(s: Crowd, ds: seq<Deed>)
    requires InStep(s) && IsCourse(s, ds)
    ensures InStepThroughout(s, ds) <==> SmoothCourse(s, ds)
    ensures SmoothCourse(s, ds) ==> InStep(Outcome(s, ds))
    decreases |ds|
  {
    if ds != [] {
      StepInStep(s, ds[0]);
      if !FallsOut(s, ds[0]) {
        InStepAlong(Does(s, ds[0]), ds[1..]);
      }
    }
  }

  /** In every interleaving flags and statuses stay in step, and the mutex is not
      lost, if and only if no such deed occurs; and then, whenever all threads
      wait, a client that has read its inbox is in a chat exactly when the server
      has it BUSY, and has a request to answer exactly when REQ_PENDING. */
  lemma InterleavedViewsAgree(ds: seq<Deed>, fd: Fd)
    requires IsCourse(NOBODY, ds)
    ensures InStepThroughout(NOBODY, ds) <==> SmoothCourse(NOBODY, ds)
    ensures var s := Outcome(NOBODY, ds);
            SmoothCourse(NOBODY, ds) && (forall f :: f in s.n.pc ==> s.n.pc[f] == Ready) ==>
              && !s.n.stuck && s.cl.Keys == s.n.t.at.Keys
              && (fd in s.cl ==>
                    var c := Replay(s.cl[fd].flags, s.cl[fd].inbox);
                    && (c.busy <==> StatusByFd(s.n.t, fd) == Busy)
                    && (c.req <==> StatusByFd(s.n.t, fd) == ReqPending))
  {
    InStepAlong(NOBODY, ds);
    var s := Outcome(NOBODY, ds);
    if SmoothCourse(NOBODY, ds) && (forall f :: f in s.n.pc ==> s.n.pc[f] == Ready) {
      RestAgrees(s.n.t, s.n.pc, AbsClients(s.cl));
      assert AbsClients(s.cl).Keys == s.cl.Keys;
      if fd in s.cl {
        assert AbsClients(s.cl)[fd] == Replay(s.cl[fd].flags, s.cl[fd].inbox);
      }
    }
  }
}

/** The handlers cut at their lock and unlock calls.  A section is what a
    client's thread does under one hold of the mutex, together with what it
    does after it up to the next lock; what it keeps in local variables for
    the next section is in its program counter. */
module Sections {
  import opened Common
  import opened Table
  import opened Handlers
  import opened Changes

  datatype Pc =
    | Ready                                          // waiting for a request
    | Mark(name: string, me: string)                 // saw a free target under `name`
    | Link(target: Fd, me: string, name: string)     // marked the target pending
    | Yield(name: string)                            // accept: the requester was busy
    | Commit(conn: Fd)                               // accept: about to link both
    | Drop                                           // decline: told the requester
    | Cut(conn: Fd)                                  // disconnect: about to free both

  datatype Section = Section(t: Table, pc: Pc, sends: seq<Envelope>, leak: bool)

  function Done(t: Table, sends: seq<Envelope>): Section {
    Section(t, Ready, sends, false)
  }

  function Whole(o: Out): Section {
    Section(o.t, Ready, o.sends, o.leak)
  }

  /** From the arrival of a request to the second lock of its handler. */
  function First(t: Table, fd: Fd, r: Request): Section {
    var conn := ConnFd(t, fd);
    match r
    case SetName(_) => Whole(Handle(t, fd, r))
    case GetList => Whole(Handle(t, fd, r))
    case Connect(name) =>
      if fd != INVALID_FD && NameCheck(t, name) == NameExists
         && NameByFd(t, fd) != name && StatusByName(t, name) == Free
      then Section(t, Mark(name, NameByFd(t, fd)), [], false)
      else Whole(HandleConnect(t, fd, name))
    case Accept =>
      if conn == INVALID_FD || NameByFd(t, conn) == UNDEF_NAME then Whole(HandleAccept(t, fd))
      else if StatusByFd(t, conn) == Busy then Section(t, Yield(NameByFd(t, conn)), [], false)
      else if StatusByFd(t, fd) != ReqPending then Whole(HandleAccept(t, fd))
      else Section(t, Commit(conn), [], false)
    case Decline =>
      if fd == INVALID_FD || StatusByFd(t, fd) != ReqPending || conn == INVALID_FD then Done(t, [])
      else Section(t, Drop, [Env(conn, Msg(DeclineAck, NameByFd(t, fd)))], false)
    case Tx(line) =>
      if StatusByFd(t, fd) == Busy && conn != INVALID_FD && line == DISCONNECT_CMD
      then Section(t, Cut(conn), [], false)
      else Whole(HandleTx(t, fd, line))
  }

  /** The next section of a thread that is in the middle of a handler.  The
      registry may have changed since its last one. */
  function Next(t: Table, fd: Fd, pc: Pc): Section {
    match pc
    case Ready => Done(t, [])
    case Mark(name, me) =>
      var target := FdByName(t, name);
      var t' := SetStatus(t, target, ReqPending);
      if target == INVALID_FD then Done(t', [Env(fd, Reply(NotExist, name))])
      else Section(t', Link(target, me, name), [], false)
    case Link(target, me, name) =>
      Done(LinkBoth(t, fd, target), [Env(target, Msg(ConnectionReqRx, me)), Env(fd, Reply(ClientFree, name))])
    case Yield(name) => Done(SetStatus(t, fd, Free), [Env(fd, Msg(NoMoreFree, name))])
    case Commit(conn) =>
      var t' := LinkBusy(t, fd, conn);
      if NameByFd(t', conn) == UNDEF_NAME || NameByFd(t', fd) == UNDEF_NAME then Done(t', [])
      else Done(t', [Env(fd, Msg(ChatReady, NameByFd(t', conn))), Env(conn, Msg(AcceptAck, NameByFd(t', fd)))])
    case Drop => Done(SetStatus(t, fd, Free), [])
    case Cut(conn) => Done(Unlink(t, fd, conn), [Env(conn, Msg(Disconnected, NameByFd(t, fd)))])
  }

  /** What a first section changes in the registry. */
  function FirstChange(t: Table, fd: Fd, r: Request): Change {
    match r
    case SetName(_) => ChangeOf(t, fd, r)
    case Accept => if ConnFd(t, fd) != INVALID_FD && NameByFd(t, ConnFd(t, fd)) == UNDEF_NAME then Forgot else Still
    case _ => Still
  }

  /** What a later section changes. */
  function NextChange(t: Table, pc: Pc): Change {
    match pc
    case Ready => Still
    case Mark(name, _) => Marked(FdByName(t, name))
    case Link(target, _, _) => Tied(target)
    case Yield(_) => Refused
    case Commit(conn) => Coupled(conn, true)
    case Drop => Declined
    case Cut(conn) => Parted(conn)
  }

  lemma FirstAcceptChanges(t: Table, fd: Fd)
    ensures Changed(t, First(t, fd, Accept).t, fd, FirstChange(t, fd, Accept))
  {
    FreeShape(t, fd);
  }

  lemma FirstChanges(t: Table, fd: Fd, r: Request)
    requires Wf(t)
    ensures Changed(t, First(t, fd, r).t, fd, FirstChange(t, fd, r))
  {
    match r {
      case SetName(name) => SetNameChanges(t, fd, name);
      case Accept => FirstAcceptChanges(t, fd);
      case Connect(name) => assert First(t, fd, r).t == t by { ConnectTarget(t, name); }
      case _ =>
    }
  }

  lemma NextChanges(t: Table, fd: Fd, pc: Pc)
    requires Wf(t)
    requires pc.Link? ==> pc.target != fd
    requires pc.Commit? || pc.Cut? ==> pc.conn != fd
    ensures Changed(t, Next(t, fd, pc).t, fd, NextChange(t, pc))
  {
    match pc {
      case Link(target, _, _) => TiedShape(t, fd, target);
      case Commit(conn) => CoupledShape(t, fd, conn, true);
      case Cut(conn) => PartedShape(t, fd, conn);
      case Yield(_) => FreeShape(t, fd);
      case Drop => FreeShape(t, fd);
      case _ =>
    }
  }

  /** A handler left alone: its sections one after the other. */
  function Alone(x: Section, fd: Fd, n: nat): Section
    decreases n
  {
    if n == 0 || x.pc == Ready then x
    else
      var y := Next(x.t, fd, x.pc);
      Alone(Section(y.t, y.pc, x.sends + y.sends, y.leak), fd, n - 1)
  }

  lemma ConnectAlone(t: Table, fd: Fd, name: string)
    requires Wf(t)
    ensures Alone(First(t, fd, Connect(name)), fd, 2) == Whole(HandleConnect(t, fd, name))
  {
    var x := First(t, fd, Connect(name));
    ConnectTarget(t, name);
    assert INVALID_FD !in t.at;
    if x.pc.Mark? {
      var y := Next(t, fd, x.pc);
      assert y.pc.Link? && y.sends == [];
      var z := Next(y.t, fd, y.pc);
      assert x.sends + y.sends == [];
      assert [] + z.sends == z.sends;
      assert Alone(y, fd, 1) == Alone(Section(z.t, z.pc, [] + z.sends, z.leak), fd, 0) == z;
    }
  }

  lemma TwoSectionsAlone(t: Table, fd: Fd, r: Request)
    requires r.Accept? || r.Decline? || r.Tx?
    ensures Alone(First(t, fd, r), fd, 2) == Whole(Handle(t, fd, r))
  {
    var x := First(t, fd, r);
    if x.pc != Ready {
      var y := Next(t, fd, x.pc);
      assert x.sends + y.sends == Handle(t, fd, r).sends;
      assert Alone(x, fd, 2) == Alone(Section(y.t, y.pc, x.sends + y.sends, y.leak), fd, 1);
    }
  }

  /** A handler whose sections are not interrupted is the atomic step: the same
      table, the same messages in the same order, the same lock. */
  lemma AloneIsAtomic(t: Table, fd: Fd, r: Request)
    requires Wf(t)
    ensures Alone(First(t, fd, r), fd, 2) == Whole(Handle(t, fd, r))
  {
    if r.Connect? {
      ConnectAlone(t, fd, r.target);
    } else if r.Accept? || r.Decline? || r.Tx? {
      TwoSectionsAlone(t, fd, r);
    }
  }
}

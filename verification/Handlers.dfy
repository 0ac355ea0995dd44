/** What each request handler of server/lib_src/server_mgmt.c does to the
    registry, which messages it sends and whether it returns with the mutex
    still locked, taken as one step. */
module Handlers {
  import opened Common
  import opened Table
  import opened ClientListText

  datatype Out = Out(t: Table, sends: seq<Envelope>, leak: bool)

  function Silent(t: Table): Out {
    Out(t, [], false)
  }

  /** The answer to a connect request repeats at most 64 bytes of the name. */
  function Reply(kind: Kind, name: string): Msg {
    Msg(kind, Clip(name, MAX_CLIENT_NAME_LEN))
  }

  /** Links two clients to each other. */
  function LinkBoth(t: Table, fd: Fd, conn: Fd): Table {
    SetTo(SetTo(t, fd, conn), conn, fd)
  }

  /** Marks the target pending and links it with the requester. */
  function LinkPending(t: Table, fd: Fd, target: Fd): Table {
    LinkBoth(SetStatus(t, target, ReqPending), fd, target)
  }

  /** handle_chat_connection_request: the requester's own status is not looked at. */
  function HandleConnect(t: Table, fd: Fd, name: string): Out {
    var target := FdByName(t, name);
    var me := NameByFd(t, fd);
    if fd == INVALID_FD then Silent(t)
    else if NameCheck(t, name) != NameExists then Out(t, [Env(fd, Reply(NotExist, name))], false)
    else if me == name then Out(t, [Env(fd, Reply(SelfConnect, name))], false)
    else
      match StatusByName(t, name)
      case NotFound => Out(t, [Env(fd, Reply(NotExist, name))], false)
      case Busy => Out(t, [Env(fd, Reply(ClientBusy, name))], false)
      case ReqPending => Out(t, [Env(fd, Reply(StatusReqPending, name))], false)
      case Free =>
        Out(LinkPending(t, fd, target),
            [Env(target, Msg(ConnectionReqRx, me)), Env(fd, Reply(ClientFree, name))],
            false)
  }

  /** Both sides become busy and point at each other. */
  function LinkBusy(t: Table, fd: Fd, conn: Fd): Table {
    LinkBoth(SetStatus(SetStatus(t, fd, Busy), conn, Busy), fd, conn)
  }

  /** handle_conn_accept: with no link it returns without unlocking. */
  function HandleAccept(t: Table, fd: Fd): Out {
    var conn := ConnFd(t, fd);
    var connName := NameByFd(t, conn);
    if conn == INVALID_FD then Out(t, [], true)
    else if connName == UNDEF_NAME then
      Out(SetTo(SetStatus(t, fd, Free), fd, INVALID_FD), [Env(fd, Msg(NoMoreExist, NO_CLIENT))], false)
    else if StatusByFd(t, conn) == Busy then
      Out(SetStatus(t, fd, Free), [Env(fd, Msg(NoMoreFree, connName))], false)
    else if StatusByFd(t, fd) != ReqPending then
      Out(t, [Env(fd, Msg(AcceptAck, WRONG_ACK))], false)
    else
      var t' := LinkBusy(t, fd, conn);
      if NameByFd(t', conn) == UNDEF_NAME || NameByFd(t', fd) == UNDEF_NAME then Silent(t')
      else
        Out(t', [Env(fd, Msg(ChatReady, NameByFd(t', conn))), Env(conn, Msg(AcceptAck, NameByFd(t', fd)))], false)
  }

  /** handle_decline_conn_request: the links stay. */
  function HandleDecline(t: Table, fd: Fd): Out {
    var conn := ConnFd(t, fd);
    if fd == INVALID_FD || StatusByFd(t, fd) != ReqPending || conn == INVALID_FD then Silent(t)
    else Out(SetStatus(t, fd, Free), [Env(conn, Msg(DeclineAck, NameByFd(t, fd)))], false)
  }

  /** Both sides become free and lose their links. */
  function Unlink(t: Table, fd: Fd, conn: Fd): Table {
    SetTo(SetTo(SetStatus(SetStatus(t, fd, Free), conn, Free), fd, INVALID_FD), conn, INVALID_FD)
  }

  /** handle_tx_msg */
  function HandleTx(t: Table, fd: Fd, line: string): Out {
    var conn := ConnFd(t, fd);
    if StatusByFd(t, fd) != Busy || conn == INVALID_FD then Silent(t)
    else if line == DISCONNECT_CMD then
      Out(Unlink(t, fd, conn), [Env(conn, Msg(Disconnected, NameByFd(t, fd)))], false)
    else Out(t, [Env(conn, Msg(ClientRx, line))], false)
  }

  /** set_name_handler */
  function HandleSetName(t: Table, fd: Fd, name: string): Out {
    if NameCheck(t, name) != NameNotExist then Out(t, [Env(fd, Msg(SetNameNack, ""))], false)
    else if fd !in t.at then Silent(t)
    else Out(SetNameOf(t, fd, name), [Env(fd, Msg(SetNameAck, ""))], false)
  }

  /** send_client_list_handler */
  function HandleGetList(t: Table, fd: Fd): Out {
    if fd == INVALID_FD then Silent(t)
    else Out(t, [Env(fd, Msg(ClientList, ListText(NamesOf(t), 0)))], false)
  }

  /** handle_rx_msg */
  function Handle(t: Table, fd: Fd, r: Request): Out {
    match r
    case SetName(name) => HandleSetName(t, fd, name)
    case GetList => HandleGetList(t, fd)
    case Connect(name) => HandleConnect(t, fd, name)
    case Accept => HandleAccept(t, fd)
    case Decline => HandleDecline(t, fd)
    case Tx(line) => HandleTx(t, fd, line)
  }

  /** The close branch of client_thread.  A peer that is not in the list also
      counts as "not free"; only the closer's own link is cleared. */
  function HandleClose(t: Table, fd: Fd): Out {
    var conn := ConnFd(t, fd);
    if conn != INVALID_FD && StatusByFd(t, conn) != Free then
      Out(Unregister(SetTo(SetStatus(t, conn, Free), fd, INVALID_FD), fd),
          [Env(conn, Msg(Termination, NameByFd(t, fd)))],
          false)
    else Out(Unregister(t, fd), [], false)
  }

  // ---- link invariants of the atomic protocol ----

  /** Nobody is linked to itself, and whoever is not free is linked. */
  ghost predicate Linked(t: Table) {
    forall f :: f in t.at ==>
      && t.at[f].toFd != f
      && (t.at[f].status != Free ==> t.at[f].toFd != INVALID_FD)
  }

  lemma ConnectTarget(t: Table, name: string)
    requires Wf(t)
    ensures NameCheck(t, name) == NameExists ==>
              FdByName(t, name) in t.at && t.at[FdByName(t, name)].name == name
    ensures NameCheck(t, name) != NameExists ==> forall f :: f in t.at ==> t.at[f].name != name
    ensures NameCheck(t, name) == NameNotExist ==> FdByName(t, name) == INVALID_FD
  {
    FdByNameNone(t, name);
    if t.order == [] {
      assert forall f :: f in t.at ==> f in t.order;
    }
  }

  /** Whether a close finds somebody to free. */
  predicate Frees(t: Table, fd: Fd) {
    ConnFd(t, fd) != INVALID_FD && StatusByFd(t, ConnFd(t, fd)) != Free
  }
}

/** The request handlers of server/lib_src/server_mgmt.c as they work on the
    shared registry: lock, look up, set, unlock, send.  Each one refines its
    step function in module Handlers. */
module Server {
  import opened Common
  import opened Table
  import opened CString
  import opened Handlers
  import opened Registry
  import opened Sections

  class ChatServer {
    const reg: Registry
    var locked: bool
    var sent: seq<Envelope>

    ghost predicate Valid()
      reads this, reg, reg.nodes
    {
      reg.Valid()
    }

    /** The whole effect of one handler call. */
    twostate predicate Did(o: Out)
      reads this, reg, reg.nodes
    {
      && reg.Valid() && reg.T == o.t
      && sent == old(sent) + o.sends
      && locked == o.leak
    }

    constructor ()
      ensures Valid() && !locked && sent == [] && reg.T == EMPTY
      ensures fresh(reg) && reg.nodes == []
    {
      reg := new Registry();
      locked, sent := false, [];
    }

    method Lock()
      requires !locked
      modifies this`locked
      ensures locked
    {
      locked := true;
    }

    method Unlock()
      requires locked
      modifies this`locked
      ensures !locked
    {
      locked := false;
    }

    /** send_msg_to_fd */
    method Send(fd: Fd, m: Msg)
      modifies this`sent
      ensures sent == old(sent) + [Env(fd, m)]
    {
      sent := sent + [Env(fd, m)];
    }

    // ---- critical sections ----

    method LinkPair(fd: Fd, conn: Fd, ghost me: string, ghost name: string)
      requires Valid() && !locked
      modifies this`locked, reg, reg.nodes
      ensures Valid() && !locked && reg.nodes == old(reg.nodes)
      ensures reg.T == LinkBoth(old(reg.T), fd, conn) == Next(old(reg.T), fd, Link(conn, me, name)).t
    {
      Lock();
      var _ := reg.SetToByFd(fd, conn);
      var _ := reg.SetToByFd(conn, fd);
      Unlock();
    }

    method MarkPending(ghost fd: Fd, name: string, ghost me: string) returns (target: Fd)
      requires Valid() && !locked
      modifies this`locked, reg, reg.nodes
      ensures Valid() && !locked && reg.nodes == old(reg.nodes)
      ensures target == FdByName(old(reg.T), name)
      ensures reg.T == SetStatus(old(reg.T), target, ReqPending) == Next(old(reg.T), fd, Mark(name, me)).t
    {
      Lock();
      target := reg.GetFdByName(name);
      var _ := reg.SetStatusByFd(target, ReqPending);
      Unlock();
    }

    method SetFree(fd: Fd)
      requires Valid() && !locked
      modifies this`locked, reg, reg.nodes
      ensures Valid() && !locked && reg.nodes == old(reg.nodes)
      ensures reg.T == SetStatus(old(reg.T), fd, Free)
      ensures reg.T == Next(old(reg.T), fd, Drop).t == Next(old(reg.T), fd, Yield(NameByFd(reg.T, fd))).t
    {
      Lock();
      var _ := reg.SetStatusByFd(fd, Free);
      Unlock();
    }

    /** Inside the mutex: both become busy and are linked to each other. */
    method MakePartners(fd: Fd, conn: Fd)
      requires Valid() && locked
      modifies reg, reg.nodes
      ensures Valid() && reg.nodes == old(reg.nodes)
      ensures reg.T == LinkBusy(old(reg.T), fd, conn)
    {
      var _ := reg.SetStatusByFd(fd, Busy);
      var _ := reg.SetStatusByFd(conn, Busy);
      var _ := reg.SetToByFd(fd, conn);
      var _ := reg.SetToByFd(conn, fd);
    }

    method CommitAccept(fd: Fd, conn: Fd) returns (connName: string, myName: string)
      requires Valid() && !locked
      modifies this`locked, reg, reg.nodes
      ensures Valid() && !locked && reg.nodes == old(reg.nodes)
      ensures reg.T == LinkBusy(old(reg.T), fd, conn) == Next(old(reg.T), fd, Commit(conn)).t
      ensures connName == NameByFd(reg.T, conn) && myName == NameByFd(reg.T, fd)
    {
      Lock();
      MakePartners(fd, conn);
      connName := reg.GetNameByFd(conn);
      myName := reg.GetNameByFd(fd);
      Unlock();
    }

    method CommitDisconnect(fd: Fd, conn: Fd) returns (myName: string)
      requires Valid() && !locked
      modifies this`locked, reg, reg.nodes
      ensures Valid() && !locked && reg.nodes == old(reg.nodes)
      ensures reg.T == Unlink(old(reg.T), fd, conn) == Next(old(reg.T), fd, Cut(conn)).t
      ensures myName == NameByFd(old(reg.T), fd)
    {
      Lock();
      myName := reg.GetNameByFd(fd);
      var _ := reg.SetStatusByFd(fd, Free);
      var _ := reg.SetStatusByFd(conn, Free);
      var _ := reg.SetToByFd(fd, INVALID_FD);
      var _ := reg.SetToByFd(conn, INVALID_FD);
      Unlock();
    }

    /** Inside the mutex: gives up on a peer that is gone. */
    method ForgetPeer(fd: Fd)
      requires Valid() && locked
      modifies this`locked, reg, reg.nodes
      ensures Valid() && !locked && reg.nodes == old(reg.nodes)
      ensures reg.T == SetTo(SetStatus(old(reg.T), fd, Free), fd, INVALID_FD)
    {
      var _ := reg.SetStatusByFd(fd, Free);
      var _ := reg.SetToByFd(fd, INVALID_FD);
      Unlock();
    }

    /** Inside the mutex: frees the peer of a closing client and tells it. */
    method FreePeer(fd: Fd, conn: Fd)
      requires Valid() && locked
      modifies this`sent, reg, reg.nodes
      ensures Valid() && reg.nodes == old(reg.nodes)
      ensures reg.T == SetTo(SetStatus(old(reg.T), conn, Free), fd, INVALID_FD)
      ensures sent == old(sent) + [Env(conn, Msg(Termination, NameByFd(old(reg.T), fd)))]
    {
      var _ := reg.SetStatusByFd(conn, Free);
      var _ := reg.SetToByFd(fd, INVALID_FD);
      var myName := reg.GetNameByFd(fd);
      Send(conn, Msg(Termination, myName));
    }

    // ---- handlers ----

    /** The link and the request to the target. */
    method LinkAndAsk(fd: Fd, target: Fd, name: string, myName: string)
      requires Valid() && !locked
      modifies this, reg, reg.nodes
      ensures Valid() && !locked && reg.nodes == old(reg.nodes)
      ensures reg.T == LinkBoth(old(reg.T), fd, target)
      ensures sent == old(sent) + [Env(target, Msg(ConnectionReqRx, myName))]
    {
      LinkPair(fd, target, myName, name);
      Send(target, Msg(ConnectionReqRx, myName));
    }

    /** The branch of handle_chat_connection_request for a free target. */
    method RequestChat(fd: Fd, name: string, myName: string) returns (kind: Kind)
      requires Valid() && !locked
      modifies this, reg, reg.nodes
      ensures Valid() && !locked && reg.nodes == old(reg.nodes)
      ensures var target := FdByName(old(reg.T), name);
              && (target == INVALID_FD ==> kind == NotExist && sent == old(sent) && reg.T == old(reg.T))
              && (target != INVALID_FD ==>
                    && kind == ClientFree && reg.T == LinkPending(old(reg.T), fd, target)
                    && sent == old(sent) + [Env(target, Msg(ConnectionReqRx, myName))])
    {
      assert INVALID_FD !in reg.T.at;
      var target := MarkPending(fd, name, myName);
      if target == INVALID_FD {
        return NotExist;
      }
      LinkAndAsk(fd, target, name, myName);
      kind := ClientFree;
    }

    /** The first section of handle_chat_connection_request: does the name
        exist, who is asking, and what is the status under that name. */
    method LookUpTarget(fd: Fd, name: string) returns (found: NameFind, myName: string, status: Status)
      requires Valid() && !locked
      modifies this`locked
      ensures !locked
      ensures found == NameCheck(reg.T, name) && myName == NameByFd(reg.T, fd)
      ensures status == StatusByName(reg.T, name)
      ensures fd != INVALID_FD ==>
                (found == NameExists && myName != name && status == Free <==>
                 First(reg.T, fd, Connect(name)).pc == Mark(name, myName))
    {
      Lock();
      found := reg.CheckName(name);
      myName := reg.GetNameByFd(fd);
      status := reg.GetStatusByName(name);
      Unlock();
    }

    /** The rest of handle_chat_connection_request, on what the first section
        saw: the request to the target, if any, and the kind of the reply. */
    method AnswerConnect(fd: Fd, name: string, found: NameFind, myName: string, status: Status) returns (kind: Kind)
      requires Valid() && !locked && fd != INVALID_FD
      requires found == NameCheck(reg.T, name) && myName == NameByFd(reg.T, fd) && status == StatusByName(reg.T, name)
      modifies this, reg, reg.nodes
      ensures Valid() && !locked && reg.nodes == old(reg.nodes)
      ensures reg.T == HandleConnect(old(reg.T), fd, name).t
      ensures sent + [Env(fd, Reply(kind, name))] == old(sent) + HandleConnect(old(reg.T), fd, name).sends
    {
      ConnectTarget(reg.T, name);
      kind := NotExist;
      if found == NameExists {
        if myName == name {
          kind := SelfConnect;
        } else {
          match status {
            case NotFound =>
            case Busy => kind := ClientBusy;
            case ReqPending => kind := StatusReqPending;
            case Free => kind := RequestChat(fd, name, myName);
          }
        }
      }
    }

    /** handle_chat_connection_request */
    method OnConnect(fd: Fd, name: string)
      requires Valid() && !locked
      modifies this, reg, reg.nodes
      ensures Did(HandleConnect(old(reg.T), fd, name)) && reg.nodes == old(reg.nodes)
    {
      if fd == INVALID_FD {
        return;
      }
      var found, myName, status := LookUpTarget(fd, name);
      var kind := AnswerConnect(fd, name, found, myName, status);
      Send(fd, Reply(kind, name));
    }

    /** Inside the mutex: the status and the link of a client. */
    method LookUpLink(fd: Fd) returns (status: Status, conn: Fd)
      requires Valid() && locked
      ensures status == StatusByFd(reg.T, fd) && conn == ConnFd(reg.T, fd)
    {
      status := reg.GetStatusByFd(fd);
      conn := reg.GetConnFd(fd);
    }

    /** handle_conn_accept.  With no link it returns holding the mutex. */
    method OnAccept(fd: Fd)
      requires Valid() && !locked
      modifies this, reg, reg.nodes
      ensures Did(HandleAccept(old(reg.T), fd)) && reg.nodes == old(reg.nodes)
    {
      Lock();
      var myStatus, conn := LookUpLink(fd);
      if conn == INVALID_FD {
        return;
      }
      var connStatus := reg.GetStatusByFd(conn);
      var connName := reg.GetNameByFd(conn);
      if connName == UNDEF_NAME {
        ForgetPeer(fd);
        Send(fd, Msg(NoMoreExist, NO_CLIENT));
        return;
      }
      Unlock();
      AnswerAccept(fd, myStatus, conn, connStatus, connName);
    }

    /** The rest of handle_conn_accept, on what the first section saw. */
    method AnswerAccept(fd: Fd, myStatus: Status, conn: Fd, connStatus: Status, connName: string)
      requires Valid() && !locked
      requires myStatus == StatusByFd(reg.T, fd) && conn == ConnFd(reg.T, fd) != INVALID_FD
      requires connStatus == StatusByFd(reg.T, conn) && connName == NameByFd(reg.T, conn) != UNDEF_NAME
      modifies this, reg, reg.nodes
      ensures Did(HandleAccept(old(reg.T), fd)) && reg.nodes == old(reg.nodes)
    {
      if connStatus == Busy {
        SetFree(fd);
        Send(fd, Msg(NoMoreFree, connName));
        return;
      }
      if myStatus != ReqPending {
        Send(fd, Msg(AcceptAck, WRONG_ACK));
        return;
      }
      var peerName, myName := CommitAccept(fd, conn);
      if peerName == UNDEF_NAME || myName == UNDEF_NAME {
        return;
      }
      Send(fd, Msg(ChatReady, peerName));
      Send(conn, Msg(AcceptAck, myName));
    }

    /** The first section of handle_decline_conn_request. */
    method LookUpRequest(fd: Fd) returns (pending: bool, conn: Fd, myName: string)
      requires Valid() && !locked
      modifies this`locked
      ensures !locked
      ensures pending <==> StatusByFd(reg.T, fd) == ReqPending
      ensures pending ==> conn == ConnFd(reg.T, fd) && myName == NameByFd(reg.T, fd)
    {
      conn, myName := INVALID_FD, "";
      Lock();
      var status := reg.GetStatusByFd(fd);
      pending := status == ReqPending;
      if pending {
        conn := reg.GetConnFd(fd);
        myName := reg.GetNameByFd(fd);
      }
      Unlock();
    }

    /** handle_decline_conn_request */
    method OnDecline(fd: Fd)
      requires Valid() && !locked
      modifies this, reg, reg.nodes
      ensures Did(HandleDecline(old(reg.T), fd)) && reg.nodes == old(reg.nodes)
    {
      if fd == INVALID_FD {
        return;
      }
      var pending, conn, myName := LookUpRequest(fd);
      if pending {
        if conn == INVALID_FD {
          return;
        }
        Send(conn, Msg(DeclineAck, myName));
        SetFree(fd);
      }
    }

    /** The first section of handle_tx_msg. */
    method LookUpChat(fd: Fd) returns (busy: bool, conn: Fd)
      requires Valid() && !locked
      modifies this`locked
      ensures !locked
      ensures busy <==> StatusByFd(reg.T, fd) == Busy
      ensures busy ==> conn == ConnFd(reg.T, fd)
    {
      conn := INVALID_FD;
      Lock();
      var status := reg.GetStatusByFd(fd);
      busy := status == Busy;
      if busy {
        conn := reg.GetConnFd(fd);
      }
      Unlock();
    }

    /** handle_tx_msg */
    method OnTx(fd: Fd, line: string)
      requires Valid() && !locked
      modifies this, reg, reg.nodes
      ensures Did(HandleTx(old(reg.T), fd, line)) && reg.nodes == old(reg.nodes)
    {
      var busy, conn := LookUpChat(fd);
      if busy {
        if line == DISCONNECT_CMD {
          if conn != INVALID_FD {
            var myName := CommitDisconnect(fd, conn);
            Send(conn, Msg(Disconnected, myName));
          }
        } else if conn != INVALID_FD {
          Send(conn, Msg(ClientRx, line));
        }
      }
    }

    /** set_name_handler: the check and the change share one critical section. */
    method OnSetName(fd: Fd, name: string)
      requires Valid() && !locked
      modifies this, reg, reg.nodes
      ensures Did(HandleSetName(old(reg.T), fd, name)) && reg.nodes == old(reg.nodes)
    {
      Lock();
      var found := reg.CheckName(name);
      if found != NameNotExist {
        Unlock();
        Send(fd, Msg(SetNameNack, ""));
        return;
      }
      var r := reg.SetNameByFd(fd, name);
      if r != QueueSucc {
        Unlock();
        return;
      }
      Unlock();
      Send(fd, Msg(SetNameAck, ""));
    }

    /** send_client_list_handler, which never looks at the mutex. */
    method OnGetList(fd: Fd)
      requires Valid()
      requires forall f :: f in reg.T.at ==> NulFree(reg.T.at[f].name)
      modifies this`sent
      ensures Valid() && reg.T == HandleGetList(old(reg.T), fd).t
      ensures sent == old(sent) + HandleGetList(old(reg.T), fd).sends
    {
      var buffer := new char[MAX_MSG_LEN](_ => NUL);
      var r := reg.GetClientList(buffer);
      if fd != INVALID_FD {
        Send(fd, Msg(ClientList, CStr(buffer[..])));
      }
    }

    /** Inside the mutex: what a close does before the client leaves the list. */
    method BeforeRemoval(fd: Fd)
      requires Valid() && locked
      modifies this`sent, reg, reg.nodes
      ensures Valid() && reg.nodes == old(reg.nodes)
      ensures reg.T.order == old(reg.T).order && reg.T.at.Keys == old(reg.T).at.Keys
      ensures old(sent) <= sent
      ensures HandleClose(old(reg.T), fd) == Out(Unregister(reg.T, fd), sent[|old(sent)|..], false)
    {
      var conn := reg.GetConnFd(fd);
      if conn != INVALID_FD {
        var status := reg.GetStatusByFd(conn);
        if status != Free {
          FreePeer(fd, conn);
        }
      }
    }

    /** The close branch of client_thread. */
    method OnClose(fd: Fd)
      requires Valid() && !locked
      modifies this, reg, reg.nodes
      ensures Did(HandleClose(old(reg.T), fd))
      ensures fd !in old(reg.T).at ==> reg.nodes == old(reg.nodes)
      ensures fd in old(reg.T).at ==> reg.nodes == Without(old(reg.nodes), IndexOf(old(reg.T).order, fd))
    {
      Lock();
      BeforeRemoval(fd);
      ghost var keys := reg.T.at.Keys;
      assert fd in reg.T.at <==> fd in keys;
      var r := reg.RemoveByFd(fd);
      Unlock();
    }

    /** handle_rx_msg */
    method OnRequest(fd: Fd, r: Request)
      requires Valid() && !locked
      requires forall f :: f in reg.T.at ==> NulFree(reg.T.at[f].name)
      modifies this, reg, reg.nodes
      ensures Did(Handle(old(reg.T), fd, r)) && reg.nodes == old(reg.nodes)
    {
      match r {
        case SetName(name) => OnSetName(fd, name);
        case GetList => OnGetList(fd);
        case Connect(name) => OnConnect(fd, name);
        case Accept => OnAccept(fd);
        case Decline => OnDecline(fd);
        case Tx(line) => OnTx(fd, line);
      }
    }

    /** The registration at the start of client_thread; who is refused is told so. */
    method OnArrive(fd: Fd) returns (ok: bool)
      requires Valid() && !locked && ValidFd(fd) && fd !in reg.T.at
      modifies this, reg, reg.nodes
      ensures Valid() && !locked
      ensures ok <==> |old(reg.T).order| < 20
      ensures reg.T == if ok then Register(old(reg.T), fd) else old(reg.T)
      ensures sent == old(sent) + if ok then [] else [Env(fd, Msg(MaxClientReached, ""))]
      ensures ok ==> reg.nodes != [] && fresh(reg.nodes[|reg.nodes| - 1])
      ensures ok ==> reg.nodes == old(reg.nodes) + [reg.nodes[|reg.nodes| - 1]]
      ensures !ok ==> reg.nodes == old(reg.nodes)
    {
      Lock();
      var r := reg.Add(fd);
      ok := r == QueueSucc;
      if !ok {
        Send(fd, Msg(MaxClientReached, ""));
      }
      Unlock();
    }
  }
}

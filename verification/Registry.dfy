/** The server's client list (server/lib_src/server_queue.c): a singly linked
    list updated in place, and a separate 8-bit counter. */
module Registry {
  import opened Common
  import opened Names
  import opened Table
  import opened RecordList
  import opened CString
  import opened ClientListText

  datatype ChatErr = ChatSuccess | ErrChatClientNotFound

  datatype QueueErr = QueueSucc | ErrListEmpty | ErrQueueFull | ErrNodeNotFound | ErrNameNotSet

  class Node {
    var fd: Fd
    var status: Status
    var toFd: Fd
    var name: string
    var next: Node?

    ghost function Data(): Entry
      reads this
    {
      Entry(fd, Rec(status, toFd, name))
    }

    constructor (fd: Fd, name: string)
      ensures this.fd == fd && this.name == name
      ensures status == Free && toFd == INVALID_FD && next == null
    {
      this.fd, this.name := fd, name;
      status, toFd, next := Free, INVALID_FD, null;
    }
  }

  /** The node at a position of the chain; past the end there is none. */
  ghost function At(nodes: seq<Node>, i: nat): Node? {
    if i < |nodes| then nodes[i] else null
  }

  /** The chain without the node at a position. */
  ghost function Without(nodes: seq<Node>, i: nat): seq<Node> {
    if i < |nodes| then nodes[..i] + nodes[i + 1..] else nodes
  }

  lemma WithoutAt(nodes: seq<Node>, i: nat, k: nat)
    requires i < |nodes|
    ensures At(Without(nodes, i), k) == At(nodes, if k < i then k else k + 1)
  {
  }

  class Registry {
    var head: Node?
    var count: nat
    ghost var nodes: seq<Node>
    ghost var T: Table

    /** The chain of `next` pointers from the head is exactly `nodes`. */
    ghost predicate Linked()
      reads this, nodes
    {
      && head == At(nodes, 0)
      && (forall i {:trigger nodes[i].next} :: 0 <= i < |nodes| ==> nodes[i].next == At(nodes, i + 1))
    }

    /** The nodes hold, in order, the table's records. */
    ghost predicate Mirrors()
      requires Wf(T)
      reads this, nodes
    {
      && |nodes| == |T.order|
      && (forall i :: 0 <= i < |nodes| ==> nodes[i].Data() == EntryAt(T, i))
    }

    ghost predicate Valid()
      reads this, nodes
    {
      && Linked() && Wf(T) && Mirrors()
      && count == |nodes| <= MAX_CLIENT
    }

    constructor ()
      ensures Valid() && T == EMPTY && nodes == []
    {
      head, count := null, 0;
      nodes, T := [], EMPTY;
    }

    /** The walk every lookup and setter shares: the node of `fd`, or null. */
    method FindFd(fd: Fd) returns (n: Node?, ghost i: nat)
      requires Valid()
      ensures n == null <==> fd !in T.at
      ensures n != null ==> i < |nodes| && n == nodes[i] && n.fd == fd
      ensures n != null ==> T.at[fd] == Rec(n.status, n.toFd, n.name) && i == IndexOf(T.order, fd)
      ensures n != null ==> forall j :: 0 <= j < |nodes| && j != i ==> nodes[j].fd != fd
    {
      n, i := head, 0;
      while n != null && n.fd != fd
        invariant i <= |nodes|
        invariant n == At(nodes, i)
        invariant forall j :: 0 <= j < i ==> T.order[j] != fd
        decreases |nodes| - i
      {
        n, i := n.next, i + 1;
      }
      FindSound(T, fd);
      if n == null {
        assert fd !in T.order;
      } else {
        assert n.Data() == EntryAt(T, i);
      }
    }

    /** add_client_node_to_queue */
    method Add(fd: Fd) returns (r: QueueErr)
      requires Valid() && ValidFd(fd) && fd !in T.at
      modifies this, nodes
      ensures Valid()
      ensures r == if |old(T).order| >= 20 then ErrQueueFull else QueueSucc
      ensures r == QueueSucc ==> T == Register(old(T), fd)
      ensures r == QueueSucc ==>
                nodes != [] && nodes == old(nodes) + [nodes[|nodes| - 1]] && fresh(nodes[|nodes| - 1])
      ensures r == QueueSucc ==>
                var node := nodes[|nodes| - 1];
                node.fd == fd && node.status == Free && node.toFd == INVALID_FD && NamedAfter(node.name, fd)
      ensures r != QueueSucc ==> T == old(T) && nodes == old(nodes)
    {
      if count >= MAX_CLIENT {
        return ErrQueueFull;
      }
      TempNameIsOwn(fd);
      var node := new Node(fd, TempName(fd));
      if head == null {
        head := node;
      } else {
        NodesDiffer();
        LinkLast(node);
      }
      count := Wrap8(count + 1);
      Appended(node);
      return QueueSucc;
    }

    /** The walk to the last node, which then points to the new one. */
    method LinkLast(node: Node)
      requires Linked() && nodes != [] && node !in nodes && node.next == null
      requires forall i, j :: 0 <= i < j < |nodes| ==> nodes[i] != nodes[j]
      modifies nodes
      ensures forall k {:trigger nodes[k].next} :: 0 <= k < |nodes| ==> nodes[k].next == At(nodes + [node], k + 1)
      ensures forall k :: 0 <= k < |nodes| ==> nodes[k].Data() == old(nodes[k].Data())
    {
      var last := head;
      ghost var i := 0;
      while last.next != null
        invariant i < |nodes| && last == nodes[i]
        decreases |nodes| - i
      {
        last, i := last.next, i + 1;
      }
      assert i == |nodes| - 1;
      last.next := node;
    }

    /** Bookkeeping after a fresh node has been linked behind the last one. */
    ghost method Appended(node: Node)
      requires Wf(T) && Mirrors() && |nodes| < MAX_CLIENT && count == |nodes| + 1
      requires node !in nodes && ValidFd(node.fd) && node.fd !in T.at
      requires node.Data() == Entry(node.fd, Rec(Free, INVALID_FD, TempName(node.fd)))
      requires node.next == null && head == At(nodes + [node], 0)
      requires forall k {:trigger nodes[k].next} :: 0 <= k < |nodes| ==> nodes[k].next == At(nodes + [node], k + 1)
      modifies this`nodes, this`T
      ensures Valid() && T == Register(old(T), node.fd) && nodes == old(nodes) + [node]
    {
      EntriesAfterAdd(T, node.fd);
      T := Register(T, node.fd);
      nodes := nodes + [node];
    }

    /** remove_client_node_from_queue_by_fd */
    method RemoveByFd(fd: Fd) returns (r: QueueErr)
      requires Valid()
      modifies this, nodes
      ensures Valid()
      ensures T == Unregister(old(T), fd)
      ensures r == if fd in old(T).at then QueueSucc
                   else if old(T).order == [] then ErrListEmpty else ErrNodeNotFound
      ensures nodes == if fd in old(T).at then Without(old(nodes), IndexOf(old(T).order, fd)) else old(nodes)
    {
      UnregisterWf(T, fd);
      if head == null {
        return ErrListEmpty;
      } else if fd == INVALID_FD {
        assert INVALID_FD !in T.at;
        assert INVALID_FD !in T.order;
        return ErrNodeNotFound;
      } else if head.fd == fd {
        UnlinkHead();
        return QueueSucc;
      }
      var prev, curr, i := FindBehind(fd);
      if curr == null {
        return ErrNodeNotFound;
      }
      UnlinkAfter(prev, curr, i);
      return QueueSucc;
    }

    /** The walk with two pointers: the node of `fd`, which is not the first,
        and the one in front of it. */
    method FindBehind(fd: Fd) returns (prev: Node, curr: Node?, ghost i: nat)
      requires Valid() && head != null && head.fd != fd
      ensures curr == null ==> fd !in T.at
      ensures curr != null ==>
                && 1 <= i < |nodes| && prev == nodes[i - 1] && curr == nodes[i]
                && curr.fd == fd && i == IndexOf(T.order, fd)
    {
      prev, curr, i := head, head.next, 1;
      assert nodes[0].Data() == EntryAt(T, 0);
      while curr != null && curr.fd != fd
        invariant 1 <= i <= |nodes|
        invariant prev == nodes[i - 1]
        invariant curr == At(nodes, i)
        invariant forall j :: 0 <= j < i ==> T.order[j] != fd
        decreases |nodes| - i
      {
        assert nodes[i].Data() == EntryAt(T, i);
        prev, curr, i := curr, curr.next, i + 1;
      }
      FindSound(T, fd);
      if curr == null {
        assert fd !in T.order;
      } else {
        assert nodes[i].Data() == EntryAt(T, i);
      }
    }

    /** A node appears in the chain once: another place has another descriptor. */
    lemma NodesDiffer()
      requires Valid()
      ensures forall i, j :: 0 <= i < j < |nodes| ==> nodes[i] != nodes[j]
    {
      forall i, j | 0 <= i < j < |nodes| ensures nodes[i] != nodes[j] {
        DistinctCut(T.order, i);
        assert nodes[j].Data() == EntryAt(T, j) && nodes[i].Data() == EntryAt(T, i);
      }
    }

    /** Takes the first node out of the chain. */
    method UnlinkHead()
      requires Valid() && head != null
      modifies this
      ensures Valid() && old(head.fd) in old(T).at && IndexOf(old(T).order, old(head.fd)) == 0
      ensures T == Unregister(old(T), old(head.fd)) && nodes == Without(old(nodes), 0)
    {
      assert head.Data() == EntryAt(T, 0);
      assert T.order[0] in T.order;
      head := head.next;
      ghost var rest := Without(nodes, 0);
      assert forall k :: 0 <= k < |rest| ==> rest[k] == nodes[k + 1];
      DropNode(0, rest);
    }

    /** Lets `prev` point past the node behind it. */
    method Bypass(prev: Node, curr: Node, ghost i: nat)
      requires Valid() && 1 <= i < |nodes| && prev == nodes[i - 1] && curr == nodes[i]
      modifies prev
      ensures var rest := Without(nodes, i);
              && head == At(rest, 0)
              && forall k {:trigger rest[k].next} :: 0 <= k < |rest| ==> rest[k].next == At(rest, k + 1)
      ensures Mirrors()
    {
      NodesDiffer();
      ghost var rest := Without(nodes, i);
      WithoutAt(nodes, i, 0);
      prev.next := curr.next;
      forall k {:trigger rest[k].next} | 0 <= k < |rest| ensures rest[k].next == At(rest, k + 1) {
        WithoutAt(nodes, i, k);
        WithoutAt(nodes, i, k + 1);
        assert rest[k] == nodes[if k < i then k else k + 1];
      }
    }

    /** Takes the node behind `prev` out of the chain. */
    method UnlinkAfter(prev: Node, curr: Node, ghost i: nat)
      requires Valid() && 1 <= i < |nodes| && prev == nodes[i - 1] && curr == nodes[i]
      requires i == IndexOf(T.order, curr.fd)
      modifies this, prev
      ensures Valid() && old(curr.fd) in old(T).at
      ensures T == Unregister(old(T), old(curr.fd)) && nodes == Without(old(nodes), i)
    {
      assert T.order[i] in T.order;
      Bypass(prev, curr, i);
      DropNode(i, Without(nodes, i));
    }

    /** The nodes left after node `i` mirror the table without its client. */
    lemma Left(i: nat, rest: seq<Node>)
      requires Wf(T) && Mirrors() && i < |nodes| && i == IndexOf(T.order, T.order[i])
      requires rest == nodes[..i] + nodes[i + 1..]
      ensures var t := Unregister(T, T.order[i]);
              && Wf(t) && |t.order| == |rest| == |nodes| - 1
              && (forall k :: 0 <= k < |rest| ==> rest[k].Data() == EntryAt(t, k))
    {
      EntriesAfterRemove(T, i);
      forall k | 0 <= k < |rest| ensures rest[k].Data() == EntryAt(T, if k < i then k else k + 1) {
        assert rest[k] == nodes[if k < i then k else k + 1];
      }
    }

    /** Bookkeeping after node `i` has left the chain, which is now `rest`. */
    method DropNode(ghost i: nat, ghost rest: seq<Node>)
      requires Wf(T) && Mirrors() && count == |nodes| <= MAX_CLIENT
      requires i < |nodes| && i == IndexOf(T.order, T.order[i])
      requires rest == nodes[..i] + nodes[i + 1..] && head == At(rest, 0)
      requires forall k {:trigger rest[k].next} :: 0 <= k < |rest| ==> rest[k].next == At(rest, k + 1)
      modifies this
      ensures Valid() && T == old(Unregister(T, T.order[i])) && nodes == rest
    {
      Left(i, rest);
      ghost var t := Unregister(T, T.order[i]);
      nodes, T := rest, t;
      count := Wrap8(count - 1);
    }

    /** Stores a changed record for the node at position `i`. */
    ghost method Record(n: Node, i: nat, r: Rec)
      requires Linked() && |nodes| == |T.order| && Wf(T) && count == |nodes| <= MAX_CLIENT
      requires i < |nodes| && n == nodes[i] && n.fd == T.order[i] && r.status != NotFound
      requires n.Data() == Entry(n.fd, r) && i == IndexOf(T.order, n.fd)
      requires forall j :: 0 <= j < |nodes| && j != i ==> nodes[j].Data() == EntryAt(T, j)
      modifies this`T
      ensures Valid() && T == old(T).(at := old(T).at[n.fd := r])
    {
      assert T.order[i] in T.order;
      FindSound(T, n.fd);
      T := T.(at := T.at[n.fd := r]);
    }

    /** set_client_chatting_status_by_fd */
    method SetStatusByFd(fd: Fd, s: Status) returns (r: ChatErr)
      requires Valid() && s != NotFound
      modifies this, nodes
      ensures Valid() && T == SetStatus(old(T), fd, s) && nodes == old(nodes)
      ensures r == if fd in old(T).at then ChatSuccess else ErrChatClientNotFound
    {
      r := ErrChatClientNotFound;
      if fd != INVALID_FD {
        var n, i := FindFd(fd);
        if n != null {
          n.status := s;
          Record(n, i, T.at[fd].(status := s));
          r := ChatSuccess;
        }
      }
    }

    /** set_to_fd_by_fd */
    method SetToByFd(fd: Fd, to: Fd) returns (r: ChatErr)
      requires Valid()
      modifies this, nodes
      ensures Valid() && T == SetTo(old(T), fd, to) && nodes == old(nodes)
      ensures r == if fd in old(T).at then ChatSuccess else ErrChatClientNotFound
    {
      r := ErrChatClientNotFound;
      if fd != INVALID_FD {
        var n, i := FindFd(fd);
        if n != null {
          n.toFd := to;
          Record(n, i, T.at[fd].(toFd := to));
          r := ChatSuccess;
        }
      }
    }

    /** set_name_of_client_by_client_fd */
    method SetNameByFd(fd: Fd, name: string) returns (r: QueueErr)
      requires Valid()
      modifies this, nodes
      ensures Valid() && T == SetNameOf(old(T), fd, name) && nodes == old(nodes)
      ensures r == if old(T).order == [] then ErrListEmpty
                   else if fd in old(T).at then QueueSucc else ErrNameNotSet
    {
      if head == null {
        assert fd !in T.order;
        return ErrListEmpty;
      }
      var found := StoreName(fd, name);
      r := if found then QueueSucc else ErrNameNotSet;
    }

    /** The walk of set_name_of_client_by_client_fd. */
    method StoreName(fd: Fd, name: string) returns (found: bool)
      requires Valid()
      modifies this, nodes
      ensures Valid() && T == SetNameOf(old(T), fd, name) && nodes == old(nodes)
      ensures found <==> fd in old(T).at
    {
      found := false;
      if fd != INVALID_FD {
        var n, i := FindFd(fd);
        if n != null {
          found := true;
          n.name := Clip(name, MAX_CLIENT_NAME_LEN - 1);
          Record(n, i, T.at[fd].(name := n.name));
        }
      }
    }

    /** get_client_chatting_status_by_fd */
    method GetStatusByFd(fd: Fd) returns (s: Status)
      requires Valid()
      ensures s == StatusByFd(T, fd)
    {
      if fd == INVALID_FD {
        return NotFound;
      }
      var n, i := FindFd(fd);
      s := if n == null then NotFound else n.status;
    }

    /** get_conn_fd_by_fd */
    method GetConnFd(fd: Fd) returns (to: Fd)
      requires Valid()
      ensures to == ConnFd(T, fd)
    {
      if fd == INVALID_FD {
        return INVALID_FD;
      }
      var n, i := FindFd(fd);
      to := if n == null then INVALID_FD else n.toFd;
    }

    /** get_client_name_by_fd */
    method GetNameByFd(fd: Fd) returns (name: string)
      requires Valid()
      ensures name == NameByFd(T, fd)
    {
      if head == null || fd == INVALID_FD {
        assert fd !in T.order;
        return UNDEF_NAME;
      }
      var n, i := FindFd(fd);
      name := if n == null then UNDEF_NAME else n.name;
    }

    /** The walk every lookup by name shares: the first node called `name`. */
    method FindName(name: string) returns (n: Node?)
      requires Valid()
      ensures n == null <==> FdByName(T, name) == INVALID_FD
      ensures n != null ==> n in nodes && n.fd == FdByName(T, name) && n.fd in T.at
      ensures n != null ==> T.at[n.fd] == Rec(n.status, n.toFd, n.name)
    {
      n := head;
      ghost var i := 0;
      assert T.order[0..] == T.order;
      while n != null && name != n.name
        invariant i <= |nodes|
        invariant n == At(nodes, i)
        invariant FdByName(T, name) == FirstNamed(T.order[i..], T.at, name)
        decreases |nodes| - i
      {
        assert T.order[i..][1..] == T.order[i + 1..];
        n, i := n.next, i + 1;
      }
      if n != null {
        assert T.order[i] in T.order;
      }
    }

    /** get_client_fd_by_name */
    method GetFdByName(name: string) returns (fd: Fd)
      requires Valid()
      ensures fd == FdByName(T, name)
    {
      var n := FindName(name);
      fd := if n == null then INVALID_FD else n.fd;
    }

    /** get_client_chatting_status_by_name */
    method GetStatusByName(name: string) returns (s: Status)
      requires Valid()
      ensures s == StatusByName(T, name)
    {
      var n := FindName(name);
      if n == null {
        assert INVALID_FD !in T.at;
        return NotFound;
      }
      s := n.status;
    }

    /** check_client_with_same_name_exist_or_not */
    method CheckName(name: string) returns (r: NameFind)
      requires Valid()
      ensures r == NameCheck(T, name)
    {
      if head == null {
        return NameFindErr;
      }
      var n := FindName(name);
      r := if n == null then NameNotExist else NameExists;
    }

    lemma NodeNames()
      requires Valid() && forall f :: f in T.at ==> NulFree(T.at[f].name)
      ensures |NamesOf(T)| == |nodes|
      ensures forall i :: 0 <= i < |nodes| ==> NamesOf(T)[i] == nodes[i].name && NulFree(nodes[i].name)
    {
      forall i | 0 <= i < |nodes| ensures NamesOf(T)[i] == nodes[i].name && NulFree(nodes[i].name) {
        assert nodes[i].Data() == EntryAt(T, i);
        assert T.order[i] in T.order;
      }
    }

    /** One turn of the loop of get_client_list: the name, then a space. */
    static method AppendName(buf: array<char>, name: string, len: nat) returns (listLen: nat)
      requires buf.Length == MAX_MSG_LEN && NUL in buf[..] && len == |CStr(buf[..])|
      requires NulFree(name) && len + |name| + 1 < MAX_MSG_LEN
      modifies buf
      ensures NUL in buf[..] && CStr(buf[..]) == old(CStr(buf[..])) + (name + " ")
      ensures listLen == |CStr(buf[..])|
    {
      StrNCat(buf, name, MAX_MSG_LEN - len - 1);
      assert buf[0..] == buf[..];
      listLen := StrLen(buf, 0);
      if listLen + 1 < MAX_MSG_LEN {
        StrNCat(buf, " ", MAX_MSG_LEN - listLen - 1);
        listLen := listLen + 1;
      }
    }

    /** get_client_list, on the zeroed 512-byte buffer its caller passes. */
    method GetClientList(buf: array<char>) returns (r: QueueErr)
      requires Valid()
      requires buf.Length == MAX_MSG_LEN && forall i :: 0 <= i < buf.Length ==> buf[i] == NUL
      requires forall f :: f in T.at ==> NulFree(T.at[f].name)
      modifies buf
      ensures NUL in buf[..]
      ensures CStr(buf[..]) == ListText(NamesOf(T), 0)
      ensures r == if T.order == [] then ErrListEmpty else QueueSucc
    {
      assert buf[0] == NUL && buf[0] in buf[..];
      if head == null {
        return ErrListEmpty;
      }
      var listLen := 0;
      var node := head;
      ghost var i := 0;
      ghost var names := NamesOf(T);
      ghost var text := ListText(names, 0);
      assert names[0..] == names;
      NodeNames();
      while node != null
        invariant i <= |nodes| == |names|
        invariant node == At(nodes, i)
        invariant NUL in buf[..] && listLen == |CStr(buf[..])| < MAX_MSG_LEN
        invariant text == CStr(buf[..]) + ListText(names[i..], listLen)
        decreases |nodes| - i
      {
        var nameLen := |node.name|;
        ListTextFrom(names, i, CStr(buf[..]));
        if listLen + nameLen + 1 >= MAX_MSG_LEN {
          break;
        }
        listLen := AppendName(buf, node.name, listLen);
        node, i := node.next, i + 1;
      }
      ListTextFrom(names, i, CStr(buf[..]));
      return QueueSucc;
    }
  }
}

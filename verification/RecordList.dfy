/** An independent reading of the registry: a plain list of records searched
    from the front, the way the C loops walk `next` pointers.  Over every
    sequence of operations it stays in step with the map keyed by descriptor. */
module RecordList {
  import opened Common
  import opened Names
  import opened Table

  datatype Entry = Entry(fd: Fd, rec: Rec)

  datatype Op =
    | OpAdd(fd: Fd)
    | OpRemove(fd: Fd)
    | OpStatus(fd: Fd, status: Status)
    | OpTo(fd: Fd, to: Fd)
    | OpName(fd: Fd, name: string)

  function EntryAt(t: Table, i: nat): Entry
    requires Wf(t) && i < |t.order|
  {
    var fd := t.order[i];
    assert fd in t.order && fd in t.at;
    Entry(fd, t.at[fd])
  }

  function Records(t: Table): seq<Entry>
    requires Wf(t)
  {
    seq(|t.order|, i requires 0 <= i < |t.order| => EntryAt(t, i))
  }

  /** The walk from the head to the node with descriptor `fd`. */
  function Find(rs: seq<Entry>, fd: Fd): (i: nat)
    ensures i <= |rs|
  {
    if rs == [] || rs[0].fd == fd then 0 else 1 + Find(rs[1..], fd)
  }

  function ListOp(rs: seq<Entry>, op: Op): seq<Entry> {
    var i := Find(rs, op.fd);
    match op
    case OpAdd(fd) => rs + [Entry(fd, Rec(Free, INVALID_FD, TempName(fd)))]
    case OpRemove(_) => if i < |rs| then rs[..i] + rs[i + 1..] else rs
    case OpStatus(_, s) => if i < |rs| then rs[i := rs[i].(rec := rs[i].rec.(status := s))] else rs
    case OpTo(_, to) => if i < |rs| then rs[i := rs[i].(rec := rs[i].rec.(toFd := to))] else rs
    case OpName(_, n) =>
      if i < |rs| then rs[i := rs[i].(rec := rs[i].rec.(name := Clip(n, MAX_CLIENT_NAME_LEN - 1)))] else rs
  }

  function MapOp(t: Table, op: Op): Table {
    match op
    case OpAdd(fd) => Register(t, fd)
    case OpRemove(fd) => Unregister(t, fd)
    case OpStatus(fd, s) => SetStatus(t, fd, s)
    case OpTo(fd, to) => SetTo(t, fd, to)
    case OpName(fd, n) => SetNameOf(t, fd, n)
  }

  /** What the callers guarantee: the kernel gives fresh descriptors, and
      "not found" is an answer, never a stored status. */
  predicate Legal(t: Table, op: Op) {
    match op
    case OpAdd(fd) => ValidFd(fd) && fd !in t.at
    case OpStatus(_, s) => s != NotFound
    case _ => true
  }

  function ListOps(rs: seq<Entry>, ops: seq<Op>): seq<Entry>
    decreases |ops|
  {
    if ops == [] then rs else ListOps(ListOp(rs, ops[0]), ops[1..])
  }

  function MapOps(t: Table, ops: seq<Op>): Table
    decreases |ops|
  {
    if ops == [] then t else MapOps(MapOp(t, ops[0]), ops[1..])
  }

  predicate AllLegal(t: Table, ops: seq<Op>)
    decreases |ops|
  {
    ops == [] || (Legal(t, ops[0]) && AllLegal(MapOp(t, ops[0]), ops[1..]))
  }

  lemma {:induction false} FindIsIndexOf(rs: seq<Entry>, order: seq<Fd>, fd: Fd)
    requires |rs| == |order| && forall i :: 0 <= i < |rs| ==> rs[i].fd == order[i]
    ensures Find(rs, fd) == IndexOf(order, fd)
  {
    if rs != [] && rs[0].fd != fd {
      FindIsIndexOf(rs[1..], order[1..], fd);
    }
  }

  /** Where a descriptor is in the list, and that it is there only once. */
  lemma FindSound(t: Table, fd: Fd)
    requires Wf(t)
    ensures var i := Find(Records(t), fd);
            && i == IndexOf(t.order, fd)
            && (i < |t.order| <==> fd in t.at)
            && (forall j :: 0 <= j < |t.order| && j != i ==> t.order[j] != fd)
  {
    FindIsIndexOf(Records(t), t.order, fd);
    var i := IndexOf(t.order, fd);
    if i == |t.order| {
      assert fd !in t.order;
    } else {
      assert t.order[i] in t.order;
      DistinctCut(t.order, i);
    }
  }

  lemma UpdateAgrees(t: Table, fd: Fd, r: Rec)
    requires Wf(t) && fd in t.at && r.status != NotFound
    ensures var t' := t.(at := t.at[fd := r]);
            var i := Find(Records(t), fd);
            && Wf(t') && i < |Records(t)|
            && Records(t') == Records(t)[i := Entry(fd, r)]
  {
    FindSound(t, fd);
    var t' := t.(at := t.at[fd := r]);
    var rs := Records(t)[Find(Records(t), fd) := Entry(fd, r)];
    forall j | 0 <= j < |t.order| ensures Records(t')[j] == rs[j] {
      assert t.order[j] in t.order;
    }
  }

  lemma AddAgrees(t: Table, fd: Fd)
    requires Wf(t) && ValidFd(fd) && fd !in t.at
    ensures Wf(Register(t, fd))
    ensures Records(Register(t, fd)) == ListOp(Records(t), OpAdd(fd))
  {
    RegisterWf(t, fd);
    forall j | 0 <= j < |t.order| ensures Records(Register(t, fd))[j] == Records(t)[j] {
      assert t.order[j] in t.order;
    }
  }

  /** The entries after a new one has been put behind them. */
  lemma EntriesAfterAdd(t: Table, fd: Fd)
    requires Wf(t) && ValidFd(fd) && fd !in t.at
    ensures var t' := Register(t, fd);
            && Wf(t') && |t'.order| == |t.order| + 1
            && EntryAt(t', |t.order|) == Entry(fd, Rec(Free, INVALID_FD, TempName(fd)))
            && (forall k :: 0 <= k < |t.order| ==> EntryAt(t', k) == EntryAt(t, k))
  {
    AddAgrees(t, fd);
    var t' := Register(t, fd);
    assert EntryAt(t', |t.order|) == Records(t')[|t.order|];
    forall k | 0 <= k < |t.order| ensures EntryAt(t', k) == EntryAt(t, k) {
      assert EntryAt(t', k) == Records(t')[k] == Records(t)[k];
    }
  }

  lemma RecordsWithout(t: Table, t': Table, i: nat)
    requires Wf(t) && Wf(t') && i < |t.order| && t'.order == t.order[..i] + t.order[i + 1..]
    requires forall f :: f in t'.at ==> f in t.at && t'.at[f] == t.at[f]
    ensures Records(t') == Records(t)[..i] + Records(t)[i + 1..]
  {
    forall j | 0 <= j < |t'.order|
      ensures Records(t')[j] == Records(t)[if j < i then j else j + 1]
    {
      assert t'.order[j] in t'.order;
    }
  }

  lemma RemoveAgrees(t: Table, fd: Fd)
    requires Wf(t)
    ensures Wf(Unregister(t, fd))
    ensures Records(Unregister(t, fd)) == ListOp(Records(t), OpRemove(fd))
  {
    UnregisterWf(t, fd);
    FindSound(t, fd);
    if fd in t.at {
      RecordsWithout(t, Unregister(t, fd), IndexOf(t.order, fd));
    }
  }

  /** The entry left at each position once position `i` is gone. */
  lemma EntriesAfterRemove(t: Table, i: nat)
    requires Wf(t) && i < |t.order| && i == IndexOf(t.order, t.order[i])
    ensures var t' := Unregister(t, t.order[i]);
            && Wf(t') && |t'.order| == |t.order| - 1
            && (forall k :: 0 <= k < |t'.order| ==> EntryAt(t', k) == EntryAt(t, if k < i then k else k + 1))
  {
    RemoveAgrees(t, t.order[i]);
    FindSound(t, t.order[i]);
    var t' := Unregister(t, t.order[i]);
    forall k | 0 <= k < |t'.order| ensures EntryAt(t', k) == EntryAt(t, if k < i then k else k + 1) {
      assert EntryAt(t', k) == Records(t')[k] == Records(t)[if k < i then k else k + 1];
    }
  }

  /** One operation on the map is the same operation on the list. */
  lemma OpAgrees(t: Table, op: Op)
    requires Wf(t) && Legal(t, op)
    ensures Wf(MapOp(t, op))
    ensures Records(MapOp(t, op)) == ListOp(Records(t), op)
    ensures op.OpAdd? ==>
              exists name :: NamedAfter(name, op.fd)
                && Records(MapOp(t, op)) == Records(t) + [Entry(op.fd, Rec(Free, INVALID_FD, name))]
  {
    match op {
      case OpAdd(fd) =>
        AddAgrees(t, fd);
        TempNameIsOwn(fd);
      case OpRemove(fd) => RemoveAgrees(t, fd);
      case _ =>
        FindSound(t, op.fd);
        if op.fd in t.at {
          UpdateAgrees(t, op.fd, MapOp(t, op).at[op.fd]);
        }
    }
  }

  /** For every sequence of legal operations: the map keyed by descriptor and
      the record list stay images of one another, and the descriptors stay
      distinct. */
  lemma {:induction false} OpsAgree(t: Table, ops: seq<Op>)
    requires Wf(t) && AllLegal(t, ops)
    ensures Wf(MapOps(t, ops))
    ensures Records(MapOps(t, ops)) == ListOps(Records(t), ops)
    decreases |ops|
  {
    if ops != [] {
      OpAgrees(t, ops[0]);
      OpsAgree(MapOp(t, ops[0]), ops[1..]);
    }
  }

  /** Lookups by descriptor read the one record the walk stops at. */
  lemma LookupsAgree(t: Table, fd: Fd)
    requires Wf(t)
    ensures var rs := Records(t);
            var i := Find(rs, fd);
            && StatusByFd(t, fd) == (if i < |rs| then rs[i].rec.status else NotFound)
            && ConnFd(t, fd) == (if i < |rs| then rs[i].rec.toFd else INVALID_FD)
            && NameByFd(t, fd) == (if i < |rs| then rs[i].rec.name else UNDEF_NAME)
  {
    FindSound(t, fd);
  }

  /** Removing one client deletes exactly its entry and keeps every other
      client's record and their relative order. */
  lemma RemoveKeepsOthers(t: Table, fd: Fd)
    requires Wf(t) && fd in t.at
    ensures var i := Find(Records(t), fd);
            && i < |Records(t)| && Records(t)[i].fd == fd
            && Wf(Unregister(t, fd))
            && Records(Unregister(t, fd)) == Records(t)[..i] + Records(t)[i + 1..]
  {
    FindSound(t, fd);
    OpAgrees(t, OpRemove(fd));
  }
}

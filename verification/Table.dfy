/** The client registry as a mathematical value: the descriptors in list
    order, and a record for each.  Every setter and lookup of
    server/lib_src/server_queue.c has its meaning here. */
module Table {
  import opened Common
  import opened Names

  datatype Rec = Rec(status: Status, toFd: Fd, name: string)

  datatype Table = Table(order: seq<Fd>, at: map<Fd, Rec>)

  const EMPTY := Table([], map[])

  ghost predicate Distinct(s: seq<Fd>) {
    s == [] || (s[0] !in s[1..] && Distinct(s[1..]))
  }

  ghost predicate Wf(t: Table) {
    && Distinct(t.order)
    && (forall f :: f in t.order <==> f in t.at)
    && (forall f :: f in t.at ==> ValidFd(f) && t.at[f].status != NotFound)
  }

  // ---- lookups ----

  function StatusByFd(t: Table, fd: Fd): Status {
    if fd in t.at then t.at[fd].status else NotFound
  }

  function ConnFd(t: Table, fd: Fd): Fd {
    if fd in t.at then t.at[fd].toFd else INVALID_FD
  }

  function NameByFd(t: Table, fd: Fd): string {
    if fd in t.at then t.at[fd].name else UNDEF_NAME
  }

  /** The first descriptor of `order` registered under `name`. */
  function FirstNamed(order: seq<Fd>, at: map<Fd, Rec>, name: string): (fd: Fd)
    ensures fd != INVALID_FD ==> fd in order && fd in at && at[fd].name == name
    ensures fd == INVALID_FD && INVALID_FD !in order ==>
              forall f :: f in order && f in at ==> at[f].name != name
  {
    if order == [] then INVALID_FD
    else if order[0] in at && at[order[0]].name == name then order[0]
    else FirstNamed(order[1..], at, name)
  }

  function FdByName(t: Table, name: string): Fd {
    FirstNamed(t.order, t.at, name)
  }

  function StatusByName(t: Table, name: string): Status {
    StatusByFd(t, FdByName(t, name))
  }

  datatype NameFind = NameExists | NameNotExist | NameFindErr

  function NameCheck(t: Table, name: string): NameFind {
    if t.order == [] then NameFindErr
    else if FdByName(t, name) == INVALID_FD then NameNotExist
    else NameExists
  }

  /** Position of the first occurrence of `fd`, or the length. */
  function IndexOf(order: seq<Fd>, fd: Fd): (i: nat)
    ensures i <= |order|
    ensures i < |order| ==> order[i] == fd
    ensures forall j :: 0 <= j < i ==> order[j] != fd
  {
    if order == [] || order[0] == fd then 0 else 1 + IndexOf(order[1..], fd)
  }

  /** The names in list order. */
  function NamesOf(t: Table): seq<string> {
    seq(|t.order|, i requires 0 <= i < |t.order| => NameByFd(t, t.order[i]))
  }

  // ---- updates ----

  function SetStatus(t: Table, fd: Fd, s: Status): Table {
    if fd in t.at then t.(at := t.at[fd := t.at[fd].(status := s)]) else t
  }

  function SetTo(t: Table, fd: Fd, to: Fd): Table {
    if fd in t.at then t.(at := t.at[fd := t.at[fd].(toFd := to)]) else t
  }

  /** The name field keeps 63 characters and a terminator. */
  function SetNameOf(t: Table, fd: Fd, name: string): Table {
    if fd in t.at then t.(at := t.at[fd := t.at[fd].(name := Clip(name, MAX_CLIENT_NAME_LEN - 1))]) else t
  }

  function Register(t: Table, fd: Fd): Table {
    Table(t.order + [fd], t.at[fd := Rec(Free, INVALID_FD, TempName(fd))])
  }

  function Unregister(t: Table, fd: Fd): Table {
    var i := IndexOf(t.order, fd);
    if i < |t.order| then Table(t.order[..i] + t.order[i + 1..], t.at - {fd}) else t
  }

  // ---- well-formedness is kept ----

  lemma {:induction false} DistinctAppend(s: seq<Fd>, x: Fd)
    requires Distinct(s) && x !in s
    ensures Distinct(s + [x])
  {
    if s != [] {
      DistinctAppend(s[1..], x);
      assert (s + [x])[1..] == s[1..] + [x];
    }
  }

  /** Taking out one of distinct descriptors removes every trace of it. */
  lemma {:induction false} DistinctCut(s: seq<Fd>, i: nat)
    requires Distinct(s) && i < |s|
    ensures Distinct(s[..i] + s[i + 1..])
    ensures forall f :: f in s[..i] + s[i + 1..] <==> f in s && f != s[i]
    ensures forall j :: 0 <= j < |s| && j != i ==> s[j] != s[i]
  {
    var cut := s[..i] + s[i + 1..];
    if i == 0 {
      assert cut == s[1..];
      assert s == [s[0]] + s[1..];
    } else {
      DistinctCut(s[1..], i - 1);
      var cut1 := s[1..][..i - 1] + s[1..][i..];
      assert cut == [s[0]] + cut1;
      assert s == [s[0]] + s[1..];
      assert s[i] == s[1..][i - 1];
      forall j | 0 <= j < |s| && j != i ensures s[j] != s[i] {
        if j > 0 {
          assert s[j] == s[1..][j - 1];
        }
      }
    }
  }

  lemma RegisterWf(t: Table, fd: Fd)
    requires Wf(t) && ValidFd(fd) && fd !in t.at
    ensures Wf(Register(t, fd))
  {
    var t' := Register(t, fd);
    DistinctAppend(t.order, fd);
    forall f ensures f in t'.order <==> f in t'.at {
      assert f in t'.order <==> f in t.order || f == fd;
    }
  }

  lemma UnregisterWf(t: Table, fd: Fd)
    requires Wf(t)
    ensures Wf(Unregister(t, fd))
    ensures Unregister(t, fd).at == t.at - {fd}
    ensures |Unregister(t, fd).order| == if fd in t.at then |t.order| - 1 else |t.order|
  {
    var i := IndexOf(t.order, fd);
    if i < |t.order| {
      DistinctCut(t.order, i);
    } else {
      assert fd !in t.order;
      assert t.at == t.at - {fd};
    }
  }

  /** In a well-formed table a name lookup fails only if nobody has the name. */
  lemma FdByNameNone(t: Table, name: string)
    requires Wf(t)
    ensures FdByName(t, name) == INVALID_FD <==> forall f :: f in t.at ==> t.at[f].name != name
    ensures FdByName(t, name) != INVALID_FD ==>
              FdByName(t, name) in t.at && t.at[FdByName(t, name)].name == name
  {
    assert INVALID_FD !in t.at;
    assert INVALID_FD !in t.order;
  }
}

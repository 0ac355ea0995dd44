/** What each request means for the client that sends it, whatever the state of
    the registry: which records change and how, which messages go to whom with
    which words, and who keeps the mutex. */
module Replies {
  import opened Common
  import opened Table
  import opened RecordList
  import opened ClientListText
  import opened Handlers
  import opened Changes
  import opened Sections

  /** `t'` is `t` but for the records of `f` and `g`. */
  ghost predicate OthersKept(t: Table, t': Table, f: Fd, g: Fd) {
    && t'.order == t.order && t'.at.Keys == t.at.Keys
    && (forall h :: h in t.at && h != f && h != g ==> t'.at[h] == t.at[h])
  }

  /** At most 64 bytes of the name are repeated. */
  predicate Echoes(u: string, name: string) {
    if |name| <= 64 then u == name else |u| == 64 && u <= name
  }

  /** One message of this kind to `fd` with the name that was asked for. */
  predicate Answered(sends: seq<Envelope>, fd: Fd, kind: Kind, name: string) {
    && |sends| == 1
    && sends[0].dst == fd && sends[0].msg.kind == kind && Echoes(sends[0].msg.text, name)
  }

  /** Nothing changes, and the asker gets such an answer. */
  predicate OnlyAnswered(t: Table, o: Out, fd: Fd, kind: Kind, name: string) {
    o.t == t && !o.leak && Answered(o.sends, fd, kind, name)
  }

  predicate Nothing(t: Table, o: Out) {
    o.t == t && o.sends == [] && !o.leak
  }

  /** `g` is the first client in list order that bears the name. */
  predicate Bears(t: Table, g: Fd, name: string) {
    exists i :: 0 <= i < |t.order| && t.order[i] == g && g in t.at && t.at[g].name == name
                && forall j :: 0 <= j < i && t.order[j] in t.at ==> t.at[t.order[j]].name != name
  }

  // ---- connect ----

  /** What `fd` meets when it asks for the client `g`, by the status of `g`: a
      free one becomes pending, is linked both ways with the asker and told the
      asker's name; one that is not free is left alone. */
  ghost predicate Meets(t: Table, fd: Fd, g: Fd, o: Out)
    requires fd in t.at && g in t.at
  {
    var name := t.at[g].name;
    match t.at[g].status
    case Free =>
      && OthersKept(t, o.t, fd, g) && !o.leak
      && o.t.at[g] == Rec(ReqPending, fd, name)
      && o.t.at[fd] == t.at[fd].(toFd := g)
      && |o.sends| == 2
      && o.sends[0] == Env(g, Msg(ConnectionReqRx, t.at[fd].name))
      && Answered(o.sends[1..], fd, ClientFree, name)
    case Busy => OnlyAnswered(t, o, fd, ClientBusy, name)
    case ReqPending => OnlyAnswered(t, o, fd, StatusReqPending, name)
    case NotFound => false
  }

  ghost predicate ConnectDoes(t: Table, fd: Fd, name: string, o: Out)
    requires fd in t.at
  {
    && ((forall g :: g in t.at ==> t.at[g].name != name) ==> OnlyAnswered(t, o, fd, NotExist, name))
    && (name == t.at[fd].name ==> OnlyAnswered(t, o, fd, SelfConnect, name))
    && (forall g :: g in t.at && Bears(t, g, name) && name != t.at[fd].name ==> Meets(t, fd, g, o))
  }

  lemma {:induction false} FirstNamedIs(order: seq<Fd>, at: map<Fd, Rec>, name: string, i: nat)
    requires i < |order| && order[i] in at && at[order[i]].name == name
    requires forall j :: 0 <= j < i && order[j] in at ==> at[order[j]].name != name
    ensures FirstNamed(order, at, name) == order[i]
  {
    if i > 0 {
      FirstNamedIs(order[1..], at, name, i - 1);
    }
  }

  lemma BearerIsFound(t: Table, g: Fd, name: string)
    requires Bears(t, g, name)
    ensures FdByName(t, name) == g
  {
    var i :| 0 <= i < |t.order| && t.order[i] == g && g in t.at && t.at[g].name == name
             && forall j :: 0 <= j < i && t.order[j] in t.at ==> t.at[t.order[j]].name != name;
    FirstNamedIs(t.order, t.at, name, i);
  }

  lemma ConnectMeets(t: Table, fd: Fd, g: Fd)
    requires Wf(t) && fd in t.at && g in t.at && t.at[g].name != t.at[fd].name && FdByName(t, t.at[g].name) == g
    ensures Meets(t, fd, g, HandleConnect(t, fd, t.at[g].name))
  {
    ConnectTarget(t, t.at[g].name);
    assert INVALID_FD !in t.at;
  }

  lemma ConnectMeaning(t: Table, fd: Fd, name: string)
    requires Wf(t) && fd in t.at
    ensures ConnectDoes(t, fd, name, HandleConnect(t, fd, name))
  {
    ConnectTarget(t, name);
    assert INVALID_FD !in t.at && fd in t.order;
    forall g | g in t.at && Bears(t, g, name) && name != t.at[fd].name
      ensures Meets(t, fd, g, HandleConnect(t, fd, name))
    {
      BearerIsFound(t, g, name);
      ConnectMeets(t, fd, g);
    }
  }

  // ---- accept and decline ----

  /** Nobody the server could name sits behind the descriptor. */
  predicate Gone(t: Table, x: Fd) {
    x !in t.at || t.at[x].name == "NAME_NOT_DEFINED"
  }

  ghost predicate AcceptDoes(t: Table, fd: Fd, o: Out)
    requires fd in t.at
  {
    var me, x := t.at[fd], t.at[fd].toFd;
    if x == -1 then o.t == t && o.sends == [] && o.leak
    else
      && !o.leak
      && if Gone(t, x) then
           && OthersKept(t, o.t, fd, fd) && o.t.at[fd] == Rec(Free, -1, me.name)
           && o.sends == [Env(fd, Msg(NoMoreExist, "Client_not_exist"))]
         else if t.at[x].status == Busy then
           && OthersKept(t, o.t, fd, fd) && o.t.at[fd] == Rec(Free, x, me.name)
           && o.sends == [Env(fd, Msg(NoMoreFree, t.at[x].name))]
         else if me.status != ReqPending then
           o.t == t && o.sends == [Env(fd, Msg(AcceptAck, "SOMETHING_IS_WRONG"))]
         else
           && OthersKept(t, o.t, fd, x)
           && o.t.at[fd] == Rec(Busy, x, me.name) && o.t.at[x] == Rec(Busy, fd, t.at[x].name)
           && o.sends == if me.name == "NAME_NOT_DEFINED" then []
                         else [Env(fd, Msg(ChatReady, t.at[x].name)), Env(x, Msg(AcceptAck, me.name))]
  }

  lemma AcceptMeaning(t: Table, fd: Fd)
    requires Wf(t) && fd in t.at && t.at[fd].toFd != fd
    ensures AcceptDoes(t, fd, HandleAccept(t, fd))
  {
    assert INVALID_FD !in t.at;
  }

  ghost predicate DeclineDoes(t: Table, fd: Fd, o: Out)
    requires fd in t.at
  {
    var me := t.at[fd];
    if me.status != ReqPending || me.toFd == -1 then Nothing(t, o)
    else
      && OthersKept(t, o.t, fd, fd) && o.t.at[fd] == Rec(Free, me.toFd, me.name) && !o.leak
      && o.sends == [Env(me.toFd, Msg(DeclineAck, me.name))]
  }

  // ---- lines of a chat ----

  ghost predicate TxDoes(t: Table, fd: Fd, line: string, o: Out)
    requires fd in t.at
  {
    var me, x := t.at[fd], t.at[fd].toFd;
    if me.status != Busy || x == -1 then Nothing(t, o)
    else if line == "disconnect" then
      && OthersKept(t, o.t, fd, x) && !o.leak
      && o.t.at[fd] == Rec(Free, -1, me.name)
      && (x in t.at ==> o.t.at[x] == Rec(Free, -1, t.at[x].name))
      && o.sends == [Env(x, Msg(Disconnected, me.name))]
    else o.t == t && !o.leak && o.sends == [Env(x, Msg(ClientRx, line))]
  }

  // ---- names ----

  /** The first 63 bytes of a name are stored. */
  predicate Stores(u: string, name: string) {
    if |name| <= 63 then u == name else |u| == 63 && u <= name
  }

  ghost predicate SetNameDoes(t: Table, fd: Fd, name: string, o: Out)
    requires fd in t.at
  {
    if exists g :: g in t.at && t.at[g].name == name then
      o.t == t && !o.leak && o.sends == [Env(fd, Msg(SetNameNack, ""))]
    else
      && OthersKept(t, o.t, fd, fd) && !o.leak
      && o.t.at[fd] == t.at[fd].(name := o.t.at[fd].name) && Stores(o.t.at[fd].name, name)
      && o.sends == [Env(fd, Msg(SetNameAck, ""))]
  }

  lemma SetNameMeaning(t: Table, fd: Fd, name: string)
    requires Wf(t) && fd in t.at
    ensures SetNameDoes(t, fd, name, HandleSetName(t, fd, name))
  {
    ConnectTarget(t, name);
    assert fd in t.order;
  }

  // ---- the list ----

  /** The text is these names, each followed by a space. */
  predicate Spaced(text: string, names: seq<string>)
    decreases |names|
  {
    if names == [] then text == ""
    else
      var n := names[0];
      |n| < |text| && text[..|n|] == n && text[|n|] == ' ' && Spaced(text[|n| + 1..], names[1..])
  }

  /** The first `k` names make the text, and a further one would not leave room
      for the terminator in 512 bytes. */
  predicate ListsFirst(text: string, names: seq<string>, k: nat) {
    && k <= |names| && Spaced(text, names[..k]) && |text| <= 511
    && (k < |names| ==> |text| + |names[k]| + 1 > 511)
  }

  ghost predicate GetListDoes(t: Table, fd: Fd, o: Out) {
    && o.t == t && !o.leak && |o.sends| == 1 && o.sends[0].dst == fd && o.sends[0].msg.kind == ClientList
    && exists names, k: nat ::
         && |names| == |t.order|
         && (forall i :: 0 <= i < |names| ==> t.order[i] in t.at && names[i] == t.at[t.order[i]].name)
         && ListsFirst(o.sends[0].msg.text, names, k)
  }

  lemma SpacedCons(n: string, rest: string, names: seq<string>)
    requires Spaced(rest, names)
    ensures Spaced(n + " " + rest, [n] + names)
  {
    var text := n + " " + rest;
    assert text[|n| + 1..] == rest && text[..|n|] == n && text[|n|] == ' ';
    assert ([n] + names)[1..] == names;
  }

  lemma {:induction false} TextLists(names: seq<string>, used: nat)
    requires used < MAX_MSG_LEN
    ensures var text, k := ListText(names, used), FitCount(names, used);
            && Spaced(text, names[..k]) && used + |text| <= 511
            && (k < |names| ==> used + |text| + |names[k]| + 1 > 511)
  {
    var k := FitCount(names, used);
    if k > 0 {
      var rest, next := names[1..], used + |names[0]| + 1;
      TextLists(rest, next);
      SpacedCons(names[0], ListText(rest, next), rest[..k - 1]);
      assert names[..k] == [names[0]] + rest[..k - 1];
    }
  }

  lemma GetListMeaning(t: Table, fd: Fd)
    requires Wf(t) && fd != INVALID_FD
    ensures GetListDoes(t, fd, HandleGetList(t, fd))
  {
    var names := NamesOf(t);
    TextLists(names, 0);
    forall i | 0 <= i < |names| ensures t.order[i] in t.at && names[i] == t.at[t.order[i]].name {
      assert t.order[i] in t.order;
    }
    assert ListsFirst(ListText(names, 0), names, FitCount(names, 0));
  }

  // ---- every request, and a close ----

  ghost predicate Does(t: Table, fd: Fd, r: Request, o: Out)
    requires fd in t.at
  {
    match r
    case SetName(name) => SetNameDoes(t, fd, name, o)
    case GetList => GetListDoes(t, fd, o)
    case Connect(name) => ConnectDoes(t, fd, name, o)
    case Accept => AcceptDoes(t, fd, o)
    case Decline => DeclineDoes(t, fd, o)
    case Tx(line) => TxDoes(t, fd, line, o)
  }

  lemma RequestMeaning(t: Table, fd: Fd, r: Request)
    requires Wf(t) && fd in t.at && t.at[fd].toFd != fd
    ensures Does(t, fd, r, Handle(t, fd, r))
  {
    assert INVALID_FD !in t.at;
    match r {
      case SetName(name) => SetNameMeaning(t, fd, name);
      case Connect(name) => ConnectMeaning(t, fd, name);
      case Accept => AcceptMeaning(t, fd);
      case GetList => GetListMeaning(t, fd);
      case _ =>
    }
  }

  /** The closer leaves the list, the order of the others stays; whom it was
      linked to is told if it is not free, or is gone, and is freed. */
  ghost predicate CloseDoes(t: Table, fd: Fd, o: Out)
    requires fd in t.at
  {
    var me, x := t.at[fd], t.at[fd].toFd;
    var told := x != -1 && (x in t.at ==> t.at[x].status != Free);
    && !o.leak && o.t.at.Keys == t.at.Keys - {fd}
    && (exists i :: 0 <= i < |t.order| && t.order[i] == fd && o.t.order == t.order[..i] + t.order[i + 1..])
    && (forall f :: f in t.at && f != fd ==>
          o.t.at[f] == if told && f == x then Rec(Free, t.at[f].toFd, t.at[f].name) else t.at[f])
    && o.sends == if told then [Env(x, Msg(Termination, me.name))] else []
  }

  lemma CloseMeaning(t: Table, fd: Fd)
    requires Wf(t) && fd in t.at
    ensures CloseDoes(t, fd, HandleClose(t, fd))
  {
    CloseShape(t, fd);
    var i := IndexOf(t.order, fd);
    assert fd in t.order;
    assert t.order[i] == fd && HandleClose(t, fd).t.order == t.order[..i] + t.order[i + 1..] by {
      FreedPeer(t, fd, t.at[fd].toFd);
    }
  }

  // ---- section by section ----

  function OutOf(x: Section): Out {
    Out(x.t, x.sends, x.leak)
  }

  /** The thread goes on at `p` later; so far it has only sent these. */
  predicate Pauses(t: Table, x: Section, p: Pc, sends: seq<Envelope>) {
    x == Section(t, p, sends, false)
  }

  /** The first section: it ends the request, or it pauses with what it saw. */
  ghost predicate FirstDoes(t: Table, fd: Fd, r: Request, x: Section)
    requires fd in t.at
  {
    var me := t.at[fd];
    match r
    case Connect(name) =>
      && (forall g :: g in t.at && Bears(t, g, name) && name != me.name && t.at[g].status == Free ==>
            Pauses(t, x, Mark(name, me.name), []))
      && ((forall g :: g in t.at && Bears(t, g, name) && name != me.name ==> t.at[g].status != Free) ==>
            x.pc == Ready && ConnectDoes(t, fd, name, OutOf(x)))
    case Accept =>
      if me.toFd == -1 || Gone(t, me.toFd) || (t.at[me.toFd].status != Busy && me.status != ReqPending)
      then x.pc == Ready && AcceptDoes(t, fd, OutOf(x))
      else if t.at[me.toFd].status == Busy then Pauses(t, x, Yield(t.at[me.toFd].name), [])
      else Pauses(t, x, Commit(me.toFd), [])
    case Decline =>
      if me.status == ReqPending && me.toFd != -1
      then Pauses(t, x, Drop, [Env(me.toFd, Msg(DeclineAck, me.name))])
      else x.pc == Ready && DeclineDoes(t, fd, OutOf(x))
    case Tx(line) =>
      if me.status == Busy && me.toFd != -1 && line == "disconnect" then Pauses(t, x, Cut(me.toFd), [])
      else x.pc == Ready && TxDoes(t, fd, line, OutOf(x))
    case _ => x.pc == Ready && Does(t, fd, r, OutOf(x))
  }

  lemma BearerExists(t: Table, name: string)
    requires Wf(t)
    ensures FdByName(t, name) != INVALID_FD ==> FdByName(t, name) in t.at && Bears(t, FdByName(t, name), name)
  {
    if FdByName(t, name) != INVALID_FD {
      FirstPlace(t.order, t.at, name);
    }
  }

  lemma {:induction false} FirstPlace(order: seq<Fd>, at: map<Fd, Rec>, name: string)
    requires FirstNamed(order, at, name) != INVALID_FD
    ensures var g := FirstNamed(order, at, name);
            exists i :: 0 <= i < |order| && order[i] == g && g in at && at[g].name == name
              && forall j :: 0 <= j < i && order[j] in at ==> at[order[j]].name != name
  {
    if order[0] in at && at[order[0]].name == name {
      assert order[0] == FirstNamed(order, at, name);
    } else {
      FirstPlace(order[1..], at, name);
      var g := FirstNamed(order, at, name);
      var i :| 0 <= i < |order[1..]| && order[1..][i] == g && g in at && at[g].name == name
               && forall j :: 0 <= j < i && order[1..][j] in at ==> at[order[1..][j]].name != name;
      assert order[i + 1] == g;
      forall j | 0 <= j < i + 1 && order[j] in at ensures at[order[j]].name != name {
        if j > 0 {
          assert order[j] == order[1..][j - 1];
        }
      }
    }
  }

  lemma FirstConnectMeaning(t: Table, fd: Fd, name: string)
    requires Wf(t) && fd in t.at
    ensures FirstDoes(t, fd, Connect(name), First(t, fd, Connect(name)))
  {
    var x := First(t, fd, Connect(name));
    ConnectMeaning(t, fd, name);
    ConnectTarget(t, name);
    BearerExists(t, name);
    assert INVALID_FD !in t.at && fd in t.order;
    forall g | g in t.at && Bears(t, g, name) ensures FdByName(t, name) == g {
      BearerIsFound(t, g, name);
    }
    if x.pc == Ready {
      assert OutOf(x) == HandleConnect(t, fd, name);
    }
  }

  lemma FirstMeaning(t: Table, fd: Fd, r: Request)
    requires Wf(t) && fd in t.at && t.at[fd].toFd != fd
    ensures FirstDoes(t, fd, r, First(t, fd, r))
  {
    assert INVALID_FD !in t.at;
    match r {
      case Connect(name) => FirstConnectMeaning(t, fd, name);
      case Accept => AcceptMeaning(t, fd);
      case _ => RequestMeaning(t, fd, r);
    }
  }

  /** A later section, on the registry as it is by then: the thread acts on what
      it remembers, and reads statuses and links of nobody. */
  ghost predicate NextDoes(t: Table, fd: Fd, p: Pc, x: Section)
    requires fd in t.at
  {
    var me := t.at[fd];
    !x.leak &&
    match p
    case Ready => x.pc == Ready && Nothing(t, OutOf(x))
    case Mark(name, asker) => Marks(t, fd, name, asker, x)
    case Link(g, asker, name) =>
      && x.pc == Ready && OthersKept(t, x.t, fd, g) && x.t.at[fd] == me.(toFd := g)
      && (g in t.at ==> x.t.at[g] == t.at[g].(toFd := fd))
      && |x.sends| == 2 && x.sends[0] == Env(g, Msg(ConnectionReqRx, asker))
      && Answered(x.sends[1..], fd, ClientFree, name)
    case Yield(name) =>
      && x.pc == Ready && OthersKept(t, x.t, fd, fd) && x.t.at[fd] == me.(status := Free)
      && x.sends == [Env(fd, Msg(NoMoreFree, name))]
    case Commit(g) =>
      && x.pc == Ready && OthersKept(t, x.t, fd, g) && x.t.at[fd] == Rec(Busy, g, me.name)
      && (g in t.at ==> x.t.at[g] == Rec(Busy, fd, t.at[g].name))
      && x.sends == if Gone(t, g) || me.name == "NAME_NOT_DEFINED" then []
                    else [Env(fd, Msg(ChatReady, t.at[g].name)), Env(g, Msg(AcceptAck, me.name))]
    case Drop =>
      x.pc == Ready && OthersKept(t, x.t, fd, fd) && x.t.at[fd] == me.(status := Free) && x.sends == []
    case Cut(g) =>
      && x.pc == Ready && OthersKept(t, x.t, fd, g) && x.t.at[fd] == Rec(Free, -1, me.name)
      && (g in t.at ==> x.t.at[g] == Rec(Free, -1, t.at[g].name))
      && x.sends == [Env(g, Msg(Disconnected, me.name))]
  }

  /** The section that marks: whoever bears the name by now is pending and will
      be linked, whatever its status is by now; if nobody does, nothing changes
      and the asker is told so. */
  ghost predicate Marks(t: Table, fd: Fd, name: string, me: string, x: Section) {
    && (forall g :: g in t.at && Bears(t, g, name) ==>
          OthersKept(t, x.t, g, g) && x.t.at[g] == t.at[g].(status := ReqPending)
          && x.pc == Link(g, me, name) && x.sends == [])
    && ((forall g :: g in t.at ==> t.at[g].name != name) ==>
          x.pc == Ready && OnlyAnswered(t, OutOf(x), fd, NotExist, name))
  }

  lemma MarksBearer(t: Table, fd: Fd, name: string, me: string)
    requires Wf(t)
    ensures Marks(t, fd, name, me, Next(t, fd, Mark(name, me)))
  {
    FdByNameNone(t, name);
    assert INVALID_FD !in t.at;
    forall g | g in t.at && Bears(t, g, name) ensures FdByName(t, name) == g {
      BearerIsFound(t, g, name);
    }
  }

  lemma LinkMeaning(t: Table, fd: Fd, g: Fd, me: string, name: string)
    requires fd in t.at && g != fd
    ensures NextDoes(t, fd, Link(g, me, name), Next(t, fd, Link(g, me, name)))
  {
  }

  lemma CommitMeaning(t: Table, fd: Fd, g: Fd)
    requires fd in t.at && g != fd
    ensures NextDoes(t, fd, Commit(g), Next(t, fd, Commit(g)))
  {
  }

  lemma CutMeaning(t: Table, fd: Fd, g: Fd)
    requires fd in t.at && g != fd
    ensures NextDoes(t, fd, Cut(g), Next(t, fd, Cut(g)))
  {
  }

  lemma NextMeaning(t: Table, fd: Fd, p: Pc)
    requires Wf(t) && fd in t.at
    requires p.Link? ==> p.target != fd
    requires p.Commit? || p.Cut? ==> p.conn != fd
    ensures NextDoes(t, fd, p, Next(t, fd, p))
  {
    match p {
      case Mark(name, me) => MarksBearer(t, fd, name, me);
      case Link(g, me, name) => LinkMeaning(t, fd, g, me, name);
      case Commit(g) => CommitMeaning(t, fd, g);
      case Cut(g) => CutMeaning(t, fd, g);
      case _ =>
    }
  }
}

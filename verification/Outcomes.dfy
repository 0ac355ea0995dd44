/** What the requests that look somebody up by name mean, after whole runs, for
    the clients who bear the names; and what a client makes of the list it asked
    for. */
module Outcomes {
  import opened Common
  import opened Table
  import opened CString
  import opened ClientListText
  import opened Handlers
  import opened UniqueNames
  import opened Sections
  import opened Replies
  import opened Composed
  import opened Reachable
  import Interleaved

  lemma SoundInEveryRun(acts: seq<Interleaved.Action>, fd: Fd)
    requires Interleaved.IsRun(Interleaved.INIT, acts)
    ensures var n := Interleaved.After(Interleaved.INIT, acts);
            && Wf(n.t)
            && (fd in n.t.at ==>
                  && fd in n.pc && n.t.at[fd].toFd != fd
                  && (n.pc[fd].Link? ==> n.pc[fd].target != fd)
                  && (n.pc[fd].Commit? || n.pc[fd].Cut? ==> n.pc[fd].conn != fd))
  {
    Interleaved.SafeAfter(Interleaved.INIT, acts);
    var n := Interleaved.After(Interleaved.INIT, acts);
    if fd in n.t.at {
      assert Interleaved.LocalSafe(n.t, fd, n.pc[fd]);
    }
  }

  /** What requests, closes and sections mean after any interleaving at all: for
      every client of the list, whatever it sends and wherever its thread is. */
  lemma MeaningInEveryRun(acts: seq<Interleaved.Action>, fd: Fd, r: Request)
    requires Interleaved.IsRun(Interleaved.INIT, acts)
    ensures var n := Interleaved.After(Interleaved.INIT, acts);
            fd in n.t.at ==>
              && fd in n.pc
              && Does(n.t, fd, r, Handle(n.t, fd, r)) && CloseDoes(n.t, fd, HandleClose(n.t, fd))
              && FirstDoes(n.t, fd, r, First(n.t, fd, r)) && NextDoes(n.t, fd, n.pc[fd], Next(n.t, fd, n.pc[fd]))
  {
    var n := Interleaved.After(Interleaved.INIT, acts);
    SoundInEveryRun(acts, fd);
    if fd in n.t.at {
      RequestMeaning(n.t, fd, r);
      CloseMeaning(n.t, fd);
      FirstMeaning(n.t, fd, r);
      NextMeaning(n.t, fd, n.pc[fd]);
    }
  }

  /** After any interleaving: asking for a name nobody bears is answered so, and
      asking for one's own name too, and neither changes anything; and if the
      names asked for were fair, asking for another client's name meets exactly
      that client. */
  lemma ConnectOutcome(acts: seq<Interleaved.Action>, fd: Fd, g: Fd, name: string)
    requires Interleaved.IsRun(Interleaved.INIT, acts)
    ensures var t := Interleaved.After(Interleaved.INIT, acts).t;
            fd in t.at ==>
              var o := HandleConnect(t, fd, name);
              && ((forall h :: h in t.at ==> t.at[h].name != name) ==> OnlyAnswered(t, o, fd, NotExist, name))
              && (name == t.at[fd].name ==> OnlyAnswered(t, o, fd, SelfConnect, name))
              && (Interleaved.FairRun(acts) && g in t.at && g != fd && name == t.at[g].name ==> Meets(t, fd, g, o))
  {
    Interleaved.SafeAfter(Interleaved.INIT, acts);
    var t := Interleaved.After(Interleaved.INIT, acts).t;
    if fd in t.at {
      ConnectMeaning(t, fd, name);
      if Interleaved.FairRun(acts) && g in t.at && g != fd && name == t.at[g].name {
        Interleaved.UniqueAfter(Interleaved.INIT, acts);
        LookupsInverse(t, g, name);
        ConnectMeets(t, fd, g);
      }
    }
  }

  /** A thread remembers the name it was asked for and its own client's name. */
  predicate Remembers(x: Section, name: string, me: string) {
    x.pc == Mark(name, me) && x.sends == [] && !x.leak
  }

  lemma FirstRemembers(t: Table, fd: Fd, g: Fd)
    requires Wf(t) && NamesDistinct(t) && fd in t.at && g in t.at && g != fd
    ensures var x := First(t, fd, Connect(t.at[g].name));
            x.t == t && (Remembers(x, t.at[g].name, t.at[fd].name) <==> t.at[g].status == Free)
  {
    ConnectTarget(t, t.at[g].name);
    LookupsInverse(t, g, t.at[g].name);
    assert INVALID_FD !in t.at;
  }

  lemma OnlyBearer(t: Table, g: Fd, name: string)
    requires Wf(t) && NamesDistinct(t) && g in t.at && t.at[g].name == name
    ensures Bears(t, g, name)
  {
    LookupsInverse(t, g, name);
    BearerExists(t, name);
    assert INVALID_FD !in t.at;
  }

  /** The same section by section, with any others in between.  In a state an
      interleaving with fair names reaches: the first section of a connect goes
      on exactly if the bearer of the name is free then; the second marks
      exactly the bearer of the name by now, who may be another client than
      before, or have another status. */
  lemma ConnectSections(acts: seq<Interleaved.Action>, fd: Fd, g: Fd, name: string, me: string)
    requires Interleaved.IsRun(Interleaved.INIT, acts) && Interleaved.FairRun(acts)
    ensures var t := Interleaved.After(Interleaved.INIT, acts).t;
            && Marks(t, fd, name, me, Next(t, fd, Mark(name, me)))
            && (g in t.at ==> (t.at[g].name == name <==> Bears(t, g, name)))
            && (fd in t.at && g in t.at && g != fd ==>
                  var x := First(t, fd, Connect(t.at[g].name));
                  x.t == t && (Remembers(x, t.at[g].name, t.at[fd].name) <==> t.at[g].status == Free))
  {
    var t := Interleaved.After(Interleaved.INIT, acts).t;
    Interleaved.UniqueAfter(Interleaved.INIT, acts);
    MarksBearer(t, fd, name, me);
    if g in t.at && t.at[g].name == name {
      OnlyBearer(t, g, name);
    }
    if fd in t.at && g in t.at && g != fd {
      FirstRemembers(t, fd, g);
    }
  }

  /** After any interleaving at all, a name is refused exactly when some client
      bears it; otherwise only the asker's record changes, and it bears what
      fits of the name. */
  lemma SetNameOutcome(acts: seq<Interleaved.Action>, fd: Fd, name: string)
    requires Interleaved.IsRun(Interleaved.INIT, acts)
    ensures var t := Interleaved.After(Interleaved.INIT, acts).t;
            fd in t.at ==>
              var o := HandleSetName(t, fd, name);
              && ((exists g :: g in t.at && t.at[g].name == name) <==>
                    o == Out(t, [Env(fd, Msg(SetNameNack, ""))], false))
              && ((forall g :: g in t.at ==> t.at[g].name != name) ==>
                    && OthersKept(t, o.t, fd, fd)
                    && o.t.at[fd] == t.at[fd].(name := if |name| <= 63 then name else name[..63])
                    && o.sends == [Env(fd, Msg(SetNameAck, ""))])
  {
    Interleaved.SafeAfter(Interleaved.INIT, acts);
    var t := Interleaved.After(Interleaved.INIT, acts).t;
    ConnectTarget(t, name);
    if fd in t.at {
      assert fd in t.order;
    }
  }

  /** In every composed run a client that asks for the list, and splits the
      text on spaces, has the names of the longest prefix of the registry that
      fits the message, in order. */
  lemma ListReplyDecodes(evs: seq<Event>, fd: Fd)
    requires IsRun(INIT, evs)
    ensures var t := After(INIT, evs).t;
            fd in t.at ==>
              var names := NamesOf(t);
              var sends := HandleGetList(t, fd).sends;
              && |sends| == 1 && sends[0].dst == fd && |sends[0].msg.text| < MAX_MSG_LEN
              && GetListDoes(t, fd, HandleGetList(t, fd))
              && Split(sends[0].msg.text) == names[..FitCount(names, 0)]
              && (forall j :: 0 <= j <= |names| ==>
                    (|Joined(names[..j])| < MAX_MSG_LEN <==> j <= FitCount(names, 0)))
              && (forall f :: f in t.at ==> NulFree(t.at[f].name))
  {
    InitSound();
    SoundAfter(INIT, evs);
    var t := After(INIT, evs).t;
    var names := NamesOf(t);
    forall n | n in names ensures ' ' !in n {
      var i :| 0 <= i < |t.order| && names[i] == n;
      assert t.order[i] in t.order;
    }
    ListDecodes(names);
    if fd in t.at {
      GetListMeaning(t, fd);
    }
    LongestFittingPrefix(names, FitCount(names, 0));
    forall j | 0 <= j <= |names|
      ensures |Joined(names[..j])| < MAX_MSG_LEN <==> j <= FitCount(names, 0)
    {
      LongestFittingPrefix(names, j);
    }
  }
}

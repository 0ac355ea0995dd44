/** The server together with any number of clients.  Every client has one
    unbounded first-in-first-out inbox of messages from the server.  The user
    may type at any time, whatever waits unread, and the server handles the
    request in one step. */
module Composed {
  import opened Common
  import opened Table
  import opened Handlers
  import opened Client

  datatype Peer = Peer(flags: Flags, inbox: seq<Msg>)

  datatype Sys = Sys(t: Table, cl: map<Fd, Peer>, locked: bool)

  datatype Event =
    | Join(fd: Fd)                  // registration and a successful handshake
    | Deliver(fd: Fd)               // the client reads its oldest message
    | Type(fd: Fd, raw: string)     // the user types; the server handles the request
    | Close(fd: Fd)

  const INIT := Sys(EMPTY, map[], false)

  /** Queues messages; those to a descriptor that is not a client are lost. */
  function Post(cl: map<Fd, Peer>, sends: seq<Envelope>): map<Fd, Peer>
    decreases |sends|
  {
    if sends == [] then cl
    else
      var e := sends[0];
      Post(if e.dst in cl then cl[e.dst := cl[e.dst].(inbox := cl[e.dst].inbox + [e.msg])] else cl,
           sends[1..])
  }

  /** Once the mutex is lost only the handler that does not lock it goes on. */
  predicate Served(locked: bool, r: Option<Request>) {
    locked ==> r == None || r == Some(GetList)
  }

  predicate Enabled(s: Sys, ev: Event) {
    match ev
    case Join(fd) => !s.locked && ValidFd(fd) && fd !in s.t.at && |s.t.order| < MAX_CLIENT
    case Deliver(fd) => fd in s.cl && s.cl[fd].inbox != []
    case Type(fd, raw) =>
      && fd in s.cl && 0 < |raw| < MAX_MSG_LEN
      && Served(s.locked, Typed(s.cl[fd].flags, raw).1)
    case Close(fd) => !s.locked && fd in s.cl
  }

  function Apply(s: Sys, ev: Event): Sys
    requires Enabled(s, ev)
  {
    match ev
    case Join(fd) => Sys(Register(s.t, fd), s.cl[fd := Peer(START, [])], s.locked)
    case Deliver(fd) =>
      var p := s.cl[fd];
      s.(cl := s.cl[fd := Peer(Rx(p.flags, p.inbox[0]), p.inbox[1..])])
    case Type(fd, raw) =>
      var (c, r) := Typed(s.cl[fd].flags, raw);
      var cl := s.cl[fd := s.cl[fd].(flags := c)];
      if r.None? then s.(cl := cl)
      else var o := Handle(s.t, fd, r.value); Sys(o.t, Post(cl, o.sends), s.locked || o.leak)
    case Close(fd) =>
      var o := HandleClose(s.t, fd);
      Sys(o.t, Post(s.cl - {fd}, o.sends), o.leak)
  }

  /** A typed line finds its client's inbox drained. */
  predicate Drained(s: Sys, ev: Event) {
    ev.Type? && ev.fd in s.cl ==> s.cl[ev.fd].inbox == []
  }

  // ---- what a step looks like once everything has been read ----

  /** For each client the flags it will have when it has read its inbox. */
  datatype View = View(t: Table, v: map<Fd, Flags>, locked: bool)

  function Pending(p: Peer): Flags {
    Replay(p.flags, p.inbox)
  }

  function AbsClients(cl: map<Fd, Peer>): map<Fd, Flags> {
    map f | f in cl :: Pending(cl[f])
  }

  function Abs(s: Sys): View {
    View(s.t, AbsClients(s.cl), s.locked)
  }

  function Read(v: map<Fd, Flags>, sends: seq<Envelope>): map<Fd, Flags>
    decreases |sends|
  {
    if sends == [] then v
    else
      var e := sends[0];
      Read(if e.dst in v then v[e.dst := Rx(v[e.dst], e.msg)] else v, sends[1..])
  }

  /** A step as it concerns eventual flags: a client that types sends `r`, and
      will have the flags `e` when it has read what waits for it now. */
  datatype Move =
    | Joins(fd: Fd)
    | Reads(fd: Fd)
    | Types(fd: Fd, e: Flags, r: Option<Request>)
    | Closes(fd: Fd)

  predicate CanMove(a: View, mv: Move) {
    match mv
    case Joins(fd) => !a.locked && ValidFd(fd) && fd !in a.t.at && |a.t.order| < MAX_CLIENT
    case Reads(fd) => fd in a.v
    case Types(fd, _, r) => fd in a.v && Served(a.locked, r)
    case Closes(fd) => !a.locked && fd in a.v
  }

  function Advance(a: View, mv: Move): View
    requires CanMove(a, mv)
  {
    match mv
    case Joins(fd) => View(Register(a.t, fd), a.v[fd := START], a.locked)
    case Reads(_) => a
    case Types(fd, e, r) =>
      if r.None? then a.(v := a.v[fd := e])
      else var o := Handle(a.t, fd, r.value); View(o.t, Read(a.v[fd := e], o.sends), a.locked || o.leak)
    case Closes(fd) =>
      var o := HandleClose(a.t, fd);
      View(o.t, Read(a.v - {fd}, o.sends), o.leak)
  }

  function MoveOf(s: Sys, ev: Event): Move
    requires Enabled(s, ev)
  {
    match ev
    case Join(fd) => Joins(fd)
    case Deliver(fd) => Reads(fd)
    case Type(fd, raw) =>
      var (c, r) := Typed(s.cl[fd].flags, raw);
      Types(fd, Replay(c, s.cl[fd].inbox), r)
    case Close(fd) => Closes(fd)
  }

  lemma {:induction false} PostIsRead(cl: map<Fd, Peer>, sends: seq<Envelope>)
    ensures AbsClients(Post(cl, sends)) == Read(AbsClients(cl), sends)
    ensures Post(cl, sends).Keys == cl.Keys
    decreases |sends|
  {
    if sends != [] {
      var e := sends[0];
      if e.dst in cl {
        var p := cl[e.dst].(inbox := cl[e.dst].inbox + [e.msg]);
        ReplayAppend(cl[e.dst].flags, cl[e.dst].inbox, e.msg);
        assert AbsClients(cl[e.dst := p]) == AbsClients(cl)[e.dst := Rx(Pending(cl[e.dst]), e.msg)];
        PostIsRead(cl[e.dst := p], sends[1..]);
      } else {
        PostIsRead(cl, sends[1..]);
      }
    }
  }

  /** Queues and delays refine eventual flags: a delivery changes nothing
      there, and every other step is its move. */
  lemma StepRefines(s: Sys, ev: Event)
    requires Enabled(s, ev)
    ensures CanMove(Abs(s), MoveOf(s, ev)) && Abs(Apply(s, ev)) == Advance(Abs(s), MoveOf(s, ev))
  {
    match ev {
      case Join(fd) =>
        assert AbsClients(s.cl[fd := Peer(START, [])]) == AbsClients(s.cl)[fd := START];
      case Deliver(fd) =>
        var p := s.cl[fd];
        var q := Peer(Rx(p.flags, p.inbox[0]), p.inbox[1..]);
        assert AbsClients(s.cl[fd := q]) == AbsClients(s.cl);
      case Type(fd, raw) =>
        var (c, r) := Typed(s.cl[fd].flags, raw);
        var p := s.cl[fd].(flags := c);
        assert AbsClients(s.cl[fd := p]) == AbsClients(s.cl)[fd := Pending(p)];
        if r.Some? {
          PostIsRead(s.cl[fd := p], Handle(s.t, fd, r.value).sends);
        }
      case Close(fd) =>
        assert AbsClients(s.cl - {fd}) == AbsClients(s.cl) - {fd};
        PostIsRead(s.cl - {fd}, HandleClose(s.t, fd).sends);
    }
  }

  // ---- the same system with every message read at once ----

  predicate CanStep(a: View, ev: Event) {
    (ev.Type? ==> ev.fd in a.v && 0 < |ev.raw| < MAX_MSG_LEN) && CanMove(a, Instant(a, ev))
  }

  /** The move of an event when nothing ever waits unread. */
  function Instant(a: View, ev: Event): Move
    requires ev.Type? ==> ev.fd in a.v
  {
    match ev
    case Join(fd) => Joins(fd)
    case Deliver(fd) => Reads(fd)
    case Type(fd, raw) => var (c, r) := Typed(a.v[fd], raw); Types(fd, c, r)
    case Close(fd) => Closes(fd)
  }

  function Step(a: View, ev: Event): View
    requires CanStep(a, ev)
  {
    Advance(a, Instant(a, ev))
  }

  /** On a drained inbox a typed line acts as if messages were read at once. */
  lemma DrainedIsInstant(s: Sys, ev: Event)
    requires Enabled(s, ev) && Drained(s, ev)
    ensures CanStep(Abs(s), ev) && MoveOf(s, ev) == Instant(Abs(s), ev)
    ensures Abs(Apply(s, ev)) == Step(Abs(s), ev)
  {
    StepRefines(s, ev);
  }

  // ---- runs ----

  predicate IsRun(s: Sys, evs: seq<Event>)
    decreases |evs|
  {
    evs == [] || (Enabled(s, evs[0]) && IsRun(Apply(s, evs[0]), evs[1..]))
  }

  function After(s: Sys, evs: seq<Event>): Sys
    requires IsRun(s, evs)
    decreases |evs|
  {
    if evs == [] then s else After(Apply(s, evs[0]), evs[1..])
  }
}

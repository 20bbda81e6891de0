// The whole server at work: the hand-offs of ServerSpec, one connection of ConnectionSpec behind each
// of its records, and one registration table of EpollSpec behind each of its loops.
//
// A step of the server that establishes, closes, shuts down or tears down a connection performs that
// event on the connection and on the table of its loop; reads, writes and sends are events of a
// connection alone.  The number of a connection stands for its descriptor.

module Deployment {
  import opened EpollSpec
  import opened ConnectionSpec
  import opened ThreadPool
  import opened ServerSpec
  import opened ServerInvariant
  import opened ServerSafety

  /** A connection and everything that has happened to it. */
  datatype Link = Link(conn: Conn, history: seq<Event>)

  datatype Deployment = Deployment(server: Server, links: map<ConnId, Link>, tables: seq<Table>)

  // ---------------------------------------------------------------------------------------------
  // Steps
  // ---------------------------------------------------------------------------------------------

  /** The connection event a step of the server performs, if any. */
  datatype Effect = Nothing | On(c: ConnId, e: Event)

  function EffectOf(s: Server, step: ServerSpec.Step): Effect
    requires ServerSpec.Enabled(s, step)
  {
    match step
    case MarkClosed(l) => On(s.loops[l].pc.guard.c, Hangup)
    case RunOne(l) =>
      (match s.loops[l].batch[s.loops[l].pc.pos]
       case RunEstablished(c) => On(c, Establish)
       case RunDestroyed(c) => On(c, Event.Destroy)
       case _ => Nothing)
    case UserShutdown(c) => if s.conns[c].state == Connected then On(c, Event.UserShutdown) else Nothing
    case NewConnection => if LoopOf(s, s.nextConnId - 1) == BASE_LOOP then On(s.nextConnId, Establish) else Nothing
    case _ => Nothing
  }

  predicate Deliverable(d: Deployment, l: LoopId, c: ConnId, e: Event) {
    && c in d.links && l < |d.tables| && c in d.tables[l].chans
    && Allowed(d.links[c].conn, e)
  }

  /** Event `e` happens to connection `c` on loop `l`. */
  function Delivered(cfg: Config, d: Deployment, l: LoopId, c: ConnId, e: Event): Deployment
    requires Deliverable(d, l, c, e)
  {
    var before := d.links[c].conn;
    var after := ConnAfter(cfg, before, e);
    d.(links := d.links[c := Link(after, d.links[c].history + [e])],
       tables := d.tables[l := Rewatched(d.tables[l], c, e, before, after)])
  }

  /** The connection object and its channel are created, or the object is destroyed. */
  function WithObjects(d: Deployment, step: ServerSpec.Step): Deployment
    requires ServerSpec.Enabled(d.server, step) && |d.tables| == |d.server.loops|
    requires step.Reclaim? ==> d.server.conns[step.c].loop < |d.tables|
  {
    match step
    case NewConnection =>
      var c := d.server.nextConnId;
      var l := LoopOf(d.server, c - 1);
      d.(links := d.links[c := Link(FRESH, [])], tables := d.tables[l := Opened(d.tables[l], c)])
    case Reclaim(c) =>
      var l := d.server.conns[c].loop;
      d.(tables := d.tables[l := Destroyed(d.tables[l], c)])
    case _ => d
  }

  datatype Step =
    | Serve(step: ServerSpec.Step)
    | Exchange(c: ConnId, e: Event)   // a read, a write, a send, a queued shutdownInLoop, ...

  /** Events of a connection that are no step of the server. */
  predicate IsExchange(e: Event) {
    || e.Send? || e.Writable? || e.RunShutdown? || e.Consume?
    || (e.Readable? && !Closes(e))   // end of file closes: a step of the server
  }

  /** The loop of a connection is dispatching it. */
  predicate Dispatched(s: Server, c: ConnId)
    requires c in s.conns && s.conns[c].loop < |s.loops|
  {
    var pc := s.loops[s.conns[c].loop].pc;
    pc.Dispatching? && pc.guard.Held? && pc.guard.c == c
  }

  predicate Enabled(d: Deployment, step: Step) {
    match step
    case Serve(inner) => ServerSpec.Enabled(d.server, inner)
    case Exchange(c, e) =>
      && IsExchange(e)
      && c in d.server.conns && d.server.conns[c].loop < |d.server.loops| && Owned(d.server, c)
      && (e.Readable? || e.Writable? ==> Dispatched(d.server, c))
      && c in d.links && Allowed(d.links[c].conn, e)
  }

  /** Nothing a step needs is missing: every object it touches exists. */
  predicate Present(d: Deployment, step: Step)
    requires Enabled(d, step)
  {
    && |d.tables| == |d.server.loops|
    && match step
       case Serve(inner) =>
         && (inner.Reclaim? ==> d.server.conns[inner.c].loop < |d.tables|)
         && var effect, made := EffectOf(d.server, inner), WithObjects(d, inner);
            effect.On? ==>
              && effect.c in ServerSpec.After(d.server, inner).conns
              && Deliverable(made, ServerSpec.After(d.server, inner).conns[effect.c].loop, effect.c, effect.e)
       case Exchange(c, e) => Deliverable(d, d.server.conns[c].loop, c, e)
  }

  function After(cfg: Config, d: Deployment, step: Step): Deployment
    requires Enabled(d, step) && Present(d, step)
  {
    match step
    case Serve(inner) =>
      var server := ServerSpec.After(d.server, inner);
      var effect, made := EffectOf(d.server, inner), WithObjects(d, inner);
      var done := if effect.On? then Delivered(cfg, made, server.conns[effect.c].loop, effect.c, effect.e) else made;
      done.(server := server)
    case Exchange(c, e) => Delivered(cfg, d, d.server.conns[c].loop, c, e)
  }

  function Initial(name: string, ipPort: string, ioLoops: nat): Deployment {
    Deployment(ServerSpec.Initial(name, ipPort, ioLoops), map[], seq(ioLoops + 1, _ => EMPTY))
  }

  // ---------------------------------------------------------------------------------------------
  // A record of the server stands for its connection and its channel
  // ---------------------------------------------------------------------------------------------

  /** The calls of the user's connection callback among all callbacks. */
  function Announced(callbacks: seq<Callback>): seq<Callback> {
    if callbacks == [] then []
    else
      var last := callbacks[|callbacks| - 1];
      Announced(callbacks[..|callbacks| - 1]) + if last == Up || last == Down then [last] else []
  }

  lemma AnnouncedMore(callbacks: seq<Callback>, last: Callback)
    ensures Announced(callbacks + [last]) == Announced(callbacks) + if last == Up || last == Down then [last] else []
  {
    assert (callbacks + [last])[..|callbacks|] == callbacks;
  }

  lemma AnnouncedClose(callbacks: seq<Callback>)
    ensures Announced(callbacks + [Down, Close]) == Announced(callbacks) + [Down]
  {
    AnnouncedMore(callbacks, Down);
    AnnouncedMore(callbacks + [Down], Close);
    assert callbacks + [Down, Close] == callbacks + [Down] + [Close];
  }

  /** Same state, same user-visible story, and interest only while established and open. */
  ghost predicate Mirrors(r: ConnRecord, c: Conn) {
    && r.state == c.state && r.trace == Announced(c.callbacks)
    && (c.reading <==> c.state == Connected || c.state == Disconnecting)
    && (c.writing ==> c.reading)
  }

  /** The channel is registered as the record says and listens for what the connection wants. */
  ghost predicate Registered(r: ConnRecord, c: Conn, t: Table, fd: int) {
    fd in t.chans && t.chans[fd] == Chan(Mask(c.reading, c.reading, c.writing, false), r.index)
  }

  ghost predicate Simulates(r: ConnRecord, c: Conn, t: Table, fd: int) {
    Mirrors(r, c) && Registered(r, c, t, fd)
  }

  lemma EstablishSimulated(cfg: Config, r: ConnRecord, c: Conn, t: Table, fd: int)
    requires Simulates(r, c, t, fd) && Allowed(c, Establish)
    ensures var c' := ConnAfter(cfg, c, Establish);
            Simulates(Established(r), c', Rewatched(t, fd, Establish, c, c'), fd)
  {
    ChangedChannel(t, fd, EnableReading);
    AnnouncedMore(c.callbacks, Up);
  }

  lemma CloseSimulated(cfg: Config, r: ConnRecord, c: Conn, t: Table, fd: int)
    requires Simulates(r, c, t, fd) && Allowed(c, Hangup)
    ensures var c' := ConnAfter(cfg, c, Hangup);
            Simulates(Closed(r), c', Rewatched(t, fd, Hangup, c, c'), fd)
  {
    ChangedChannel(t, fd, DisableAll);
    AnnouncedClose(c.callbacks);
  }

  lemma DestroySimulated(cfg: Config, r: ConnRecord, c: Conn, t: Table, fd: int)
    requires Simulates(r, c, t, fd) && Allowed(c, Event.Destroy) && c.state != Disconnecting
    ensures var c' := ConnAfter(cfg, c, Event.Destroy);
            Simulates(TornDown(r), c', Rewatched(t, fd, Event.Destroy, c, c'), fd)
  {
    ChangedChannel(t, fd, DisableAll);
    AnnouncedMore(c.callbacks, Down);
  }

  lemma ShutdownSimulated(cfg: Config, r: ConnRecord, c: Conn, t: Table, fd: int)
    requires Simulates(r, c, t, fd) && Allowed(c, Event.UserShutdown) && c.state == Connected
    ensures var c' := ConnAfter(cfg, c, Event.UserShutdown);
            Simulates(r.(state := Disconnecting), c', Rewatched(t, fd, Event.UserShutdown, c, c'), fd)
  {
  }

  /** A read, a write or a send is no news to the server's record. */
  lemma ExchangeMirrored(cfg: Config, r: ConnRecord, c: Conn, e: Event)
    requires Mirrors(r, c) && Allowed(c, e) && IsExchange(e)
    ensures Mirrors(r, ConnAfter(cfg, c, e)) && ConnAfter(cfg, c, e).reading == c.reading
  {
    match e
    case Send(data, result) => SendShows(cfg, c, data, result);
    case Writable(result) => WriteShows(cfg, c, result);
    case Readable(_) => AnnouncedMore(c.callbacks, Message);
    case _ =>
  }

  /** And the channel follows the write interest, staying registered. */
  lemma ExchangeRegistered(r: ConnRecord, c: Conn, c': Conn, t: Table, fd: int, e: Event)
    requires Registered(r, c, t, fd) && IsExchange(e)
    requires c'.reading == c.reading && (c.writing || c'.writing ==> c.reading && r.index.Added?)
    ensures Registered(r, c', Rewatched(t, fd, e, c, c'), fd)
  {
    if c'.writing && !c.writing {
      ChangedChannel(t, fd, EnableWriting);
    } else if c.writing && !c'.writing {
      ChangedChannel(t, fd, DisableWriting);
    }
  }

  lemma ExchangeSimulated(cfg: Config, r: ConnRecord, c: Conn, t: Table, fd: int, e: Event)
    requires Simulates(r, c, t, fd) && Allowed(c, e) && IsExchange(e)
    requires c.reading ==> r.index.Added?
    ensures var c' := ConnAfter(cfg, c, e);
            Simulates(r, c', Rewatched(t, fd, e, c, c'), fd)
  {
    ExchangeMirrored(cfg, r, c, e);
    ExchangeRegistered(r, c, ConnAfter(cfg, c, e), t, fd, e);
  }

  // ---------------------------------------------------------------------------------------------
  // What a step of the server does to its records
  // ---------------------------------------------------------------------------------------------

  ghost predicate LooksLike(a: ConnRecord, b: ConnRecord) {
    a.loop == b.loop && a.state == b.state && a.index == b.index && a.trace == b.trace
  }

  function Stepped(r: ConnRecord, e: Event): ConnRecord {
    match e
    case Establish => Established(r)
    case Hangup => Closed(r)
    case Destroy => TornDown(r)
    case UserShutdown => r.(state := Disconnecting)
    case _ => r
  }

  /** The connection is alive and in the state the event starts from. */
  ghost predicate Ready(s: Server, c: ConnId, e: Event) {
    && c in s.conns && c !in s.dead
    && match e
       case Establish => s.conns[c].state == Connecting
       case Hangup => s.conns[c].state == Connected || s.conns[c].state == Disconnecting
       case Destroy => s.conns[c].state == Disconnected
       case UserShutdown => s.conns[c].state == Connected
       case _ => false
  }

  lemma HangupReady(s: Server, l: LoopId)
    requires Inv(s) && ServerSpec.Enabled(s, MarkClosed(l))
    ensures Ready(s, s.loops[l].pc.guard.c, Hangup)
  {
    GuardedIsAlive(s, l);
    assert LoopOk(s.conns, l, s.loops[l]) && ConnOk(s, s.loops[l].pc.guard.c);
  }

  lemma FunctorReady(s: Server, l: LoopId)
    requires Inv(s) && ServerSpec.Enabled(s, RunOne(l))
    ensures var f := s.loops[l].batch[s.loops[l].pc.pos];
      && (f.RunEstablished? ==> Ready(s, f.c, Establish))
      && (f.RunDestroyed? ==> Ready(s, f.c, Event.Destroy))
  {
    HeadFunctorOk(s, l, s.loops[l].batch[s.loops[l].pc.pos]);
    RunnableIsAlive(s, l);
  }

  lemma ShutdownReady(s: Server, c: ConnId)
    requires Inv(s) && ServerSpec.Enabled(s, ServerSpec.UserShutdown(c)) && s.conns[c].state == Connected
    ensures Ready(s, c, Event.UserShutdown)
  {
    assert c in s.dead ==> !Owned(s, c);
  }

  lemma EffectReady(s: Server, step: ServerSpec.Step)
    requires Inv(s) && ServerSpec.Enabled(s, step) && EffectOf(s, step).On? && !step.NewConnection?
    ensures Ready(s, EffectOf(s, step).c, EffectOf(s, step).e)
  {
    match step
    case MarkClosed(l) => HangupReady(s, l);
    case RunOne(l) => FunctorReady(s, l);
    case UserShutdown(c) => ShutdownReady(s, c);
    case _ =>
  }

  /** The records a step leaves behind: the one it acts on, moved on by its event, and all others as
      they were. */
  lemma StepShows(s: Server, step: ServerSpec.Step)
    requires ServerSpec.Enabled(s, step) && !step.NewConnection?
    ensures var s', effect := ServerSpec.After(s, step), EffectOf(s, step);
      && s'.conns.Keys == s.conns.Keys && |s'.loops| == |s.loops|
      && s'.dead == (if step.Reclaim? then s.dead + {step.c} else s.dead)
      && (effect.On? ==> effect.c in s.conns)
      && forall c <- s.conns :: LooksLike(
           s'.conns[c], if effect.On? && effect.c == c then Stepped(s.conns[c], effect.e) else s.conns[c])
  {
    var s' := ServerSpec.After(s, step);
    if step.RunOne? {
      assert s'.conns.Keys == s.conns.Keys;
    } else if step.HandOver? {
      assert s'.conns.Keys == s.conns.Keys;
    }
  }

  lemma NewConnectionShows(s: Server)
    requires ServerSpec.Enabled(s, ServerSpec.NewConnection) && s.nextConnId !in s.conns
    ensures var s', c := ServerSpec.After(s, ServerSpec.NewConnection), s.nextConnId;
            var started := ConnRecord(LoopOf(s, c - 1), Connecting, New, [], 0, 0, 0, Waiting);
      && s'.conns.Keys == s.conns.Keys + {c} && s'.dead == s.dead && |s'.loops| == |s.loops|
      && LooksLike(s'.conns[c],
                   if EffectOf(s, ServerSpec.NewConnection).On? then Established(started) else started)
      && forall d <- s.conns :: s'.conns[d] == s.conns[d]
  {
  }

  // ---------------------------------------------------------------------------------------------
  // The joint invariant
  // ---------------------------------------------------------------------------------------------

  /** The history is a run of ConnectionSpec, and it led to where the connection is. */
  ghost predicate Told(cfg: Config, link: Link) {
    ConnectionSpec.Legal(cfg, link.history) && link.conn == RunConn(cfg, link.history)
  }

  /** A connection's record and channel show where its history led. */
  ghost predicate ConnJoint(cfg: Config, d: Deployment, c: ConnId)
    requires c in d.server.conns
  {
    var r := d.server.conns[c];
    && c in d.links && r.loop < |d.tables|
    && Told(cfg, d.links[c])
    && Mirrors(r, d.links[c].conn)
    && (if c in d.server.dead then c !in d.tables[r.loop].chans
        else Registered(r, d.links[c].conn, d.tables[r.loop], c))
  }

  /** The kernel agrees with the poller, and every channel belongs to a connection of this loop. */
  ghost predicate TableJoint(d: Deployment, l: LoopId)
    requires l < |d.tables|
  {
    && Agrees(d.tables[l])
    && forall fd <- d.tables[l].chans :: 0 <= fd && fd in d.server.conns && d.server.conns[fd].loop == l
  }

  ghost predicate Joint(cfg: Config, d: Deployment) {
    && |d.tables| == |d.server.loops|
    && (forall c <- d.server.conns :: ConnJoint(cfg, d, c))
    && (forall l: nat :: l < |d.tables| ==> TableJoint(d, l))
  }

  ghost predicate OnlyTouches(t: Table, t': Table, fd: int) {
    t'.chans.Keys == t.chans.Keys && forall other <- t.chans :: other != fd ==> t'.chans[other] == t.chans[other]
  }

  lemma ChangedLocally(t: Table, fd: int, op: InterestOp)
    requires fd in t.chans && Agrees(t)
    ensures Agrees(Changed(t, fd, op)) && OnlyTouches(t, Changed(t, fd, op), fd)
  {
    ChangeKeepsAgreement(t, fd, op);
  }

  lemma RemovedLocally(t: Table, fd: int)
    requires fd in t.chans && Agrees(t)
    ensures Agrees(Removed(t, fd)) && OnlyTouches(t, Removed(t, fd), fd)
  {
    RemoveKeepsAgreement(t, fd);
  }

  lemma RemovedAfterDisabling(t: Table, fd: int)
    requires fd in t.chans && Agrees(t)
    ensures var t' := Removed(Changed(t, fd, DisableAll), fd);
            Agrees(t') && OnlyTouches(t, t', fd)
  {
    ChangedLocally(t, fd, DisableAll);
    RemovedLocally(Changed(t, fd, DisableAll), fd);
  }

  lemma RewatchedLocally(t: Table, fd: int, e: Event, before: Conn, after: Conn)
    requires fd in t.chans && Agrees(t)
    ensures Agrees(Rewatched(t, fd, e, before, after)) && OnlyTouches(t, Rewatched(t, fd, e, before, after), fd)
  {
    if e.Establish? {
      ChangedLocally(t, fd, EnableReading);
    } else if Closes(e) {
      ChangedLocally(t, fd, DisableAll);
    } else if e.Destroy? {
      RemovedLocally(t, fd);
      RemovedAfterDisabling(t, fd);
    } else {
      ChangedLocally(t, fd, EnableWriting);
      ChangedLocally(t, fd, DisableWriting);
    }
  }

  /** One table changes, and no connection moves: every channel still belongs to its loop. */
  lemma TablesStayJoint(d: Deployment, d': Deployment, l: LoopId)
    requires l < |d.tables| == |d'.tables| && d'.tables == d.tables[l := d'.tables[l]]
    requires forall k: nat :: k < |d.tables| ==> TableJoint(d, k)
    requires Agrees(d'.tables[l]) && d'.tables[l].chans.Keys <= d.tables[l].chans.Keys
    requires forall x <- d.server.conns :: x in d'.server.conns && d'.server.conns[x].loop == d.server.conns[x].loop
    ensures forall k: nat :: k < |d'.tables| ==> TableJoint(d', k)
  {
    forall k: nat | k < |d'.tables| ensures TableJoint(d', k) {
      assert TableJoint(d, k);
      assert forall fd <- d'.tables[k].chans :: fd in d.tables[k].chans;
    }
  }

  /** A record that looks the same stands for the same connection and channel. */
  lemma SameLook(cfg: Config, d: Deployment, d': Deployment, c: ConnId)
    requires c in d.server.conns && ConnJoint(cfg, d, c)
    requires c in d'.server.conns && LooksLike(d'.server.conns[c], d.server.conns[c])
    requires c in d'.links && d'.links[c] == d.links[c] && |d'.tables| == |d.tables|
    requires c in d'.server.dead <==> c in d.server.dead
    requires var t, t' := d.tables[d.server.conns[c].loop], d'.tables[d.server.conns[c].loop];
             (c in t'.chans <==> c in t.chans) && (c in t.chans ==> t'.chans[c] == t.chans[c])
    ensures ConnJoint(cfg, d', c)
  {
  }

  /** From `d` to `d'` only connection `c` and its channel have moved, and they moved together. */
  ghost predicate Moves(cfg: Config, d: Deployment, d': Deployment, c: ConnId)
    requires c in d.server.conns && d.server.conns[c].loop < |d.tables|
  {
    var l := d.server.conns[c].loop;
    && |d'.tables| == |d.tables| == |d'.server.loops|
    && d'.server.conns.Keys == d.server.conns.Keys && d'.server.dead == d.server.dead
    && (forall x <- d.server.conns :: x != c ==> LooksLike(d'.server.conns[x], d.server.conns[x]))
    && d'.server.conns[c].loop == l
    && (forall x <- d.links :: x != c ==> x in d'.links && d'.links[x] == d.links[x])
    && (forall k :: 0 <= k < |d.tables| && k != l ==> d'.tables[k] == d.tables[k])
    && OnlyTouches(d.tables[l], d'.tables[l], c) && Agrees(d'.tables[l])
    && ConnJoint(cfg, d', c)
  }

  lemma MovedConn(cfg: Config, d: Deployment, d': Deployment, c: ConnId, x: ConnId)
    requires Joint(cfg, d) && c in d.server.conns && d.server.conns[c].loop < |d.tables|
    requires Moves(cfg, d, d', c) && x in d.server.conns
    ensures ConnJoint(cfg, d', x)
  {
    assert ConnJoint(cfg, d, x);
    if x != c {
      SameLook(cfg, d, d', x);
    }
  }

  lemma MovedTables(cfg: Config, d: Deployment, d': Deployment, c: ConnId)
    requires Joint(cfg, d) && c in d.server.conns && d.server.conns[c].loop < |d.tables|
    requires Moves(cfg, d, d', c)
    ensures forall l: nat :: l < |d'.tables| ==> TableJoint(d', l)
  {
    TablesStayJoint(d, d', d.server.conns[c].loop);
  }

  lemma MoveKeepsJoint(cfg: Config, d: Deployment, d': Deployment, c: ConnId)
    requires Joint(cfg, d) && c in d.server.conns && d.server.conns[c].loop < |d.tables|
    requires Moves(cfg, d, d', c)
    ensures Joint(cfg, d')
  {
    forall x <- d.server.conns ensures ConnJoint(cfg, d', x) {
      MovedConn(cfg, d, d', c, x);
    }
    MovedTables(cfg, d, d', c);
  }

  lemma ToldFurther(cfg: Config, link: Link, e: Event)
    requires Told(cfg, link) && Allowed(link.conn, e)
    ensures Told(cfg, Link(ConnAfter(cfg, link.conn, e), link.history + [e]))
  {
    Extend(cfg, link.history, e);
  }

  function Outcome(d: Deployment, server: Server, l: LoopId, c: ConnId, link: Link, t: Table): Deployment
    requires l < |d.tables|
  {
    Deployment(server, d.links[c := link], d.tables[l := t])
  }

  /** A live connection and its channel reach where the new record says. */
  lemma LinkMoves(cfg: Config, d: Deployment, server: Server, c: ConnId, link: Link, t: Table)
    requires c in d.server.conns && c !in d.server.dead && d.server.conns[c].loop < |d.tables| == |server.loops|
    requires server.conns.Keys == d.server.conns.Keys && server.dead == d.server.dead
    requires forall x <- d.server.conns :: x != c ==> LooksLike(server.conns[x], d.server.conns[x])
    requires server.conns[c].loop == d.server.conns[c].loop
    requires OnlyTouches(d.tables[d.server.conns[c].loop], t, c) && Agrees(t)
    requires Told(cfg, link) && Simulates(server.conns[c], link.conn, t, c)
    ensures Moves(cfg, d, Outcome(d, server, d.server.conns[c].loop, c, link, t), c)
  {
  }

  lemma OwnedIsAlive(s: Server, c: ConnId)
    requires Inv(s) && c in s.conns && Owned(s, c)
    ensures c !in s.dead && s.conns[c].loop < |s.loops|
    ensures s.conns[c].state == Connected || s.conns[c].state == Disconnecting ==> s.conns[c].index.Added?
  {
    assert ConnOk(s, c);
  }

  lemma ExchangeKeepsJoint(cfg: Config, d: Deployment, c: ConnId, e: Event)
    requires Inv(d.server) && Joint(cfg, d) && Enabled(d, Exchange(c, e))
    ensures Present(d, Exchange(c, e)) && Joint(cfg, After(cfg, d, Exchange(c, e)))
  {
    OwnedIsAlive(d.server, c);
    assert ConnJoint(cfg, d, c);
    var r, link := d.server.conns[c], d.links[c];
    assert TableJoint(d, r.loop);
    var after := ConnAfter(cfg, link.conn, e);
    var t := Rewatched(d.tables[r.loop], c, e, link.conn, after);
    ToldFurther(cfg, link, e);
    ExchangeSimulated(cfg, r, link.conn, d.tables[r.loop], c, e);
    RewatchedLocally(d.tables[r.loop], c, e, link.conn, after);
    var next := Link(after, link.history + [e]);
    LinkMoves(cfg, d, d.server, c, next, t);
    MoveKeepsJoint(cfg, d, Outcome(d, d.server, r.loop, c, next, t), c);
  }

  /** Establishing, closing, shutting down and tearing down: the connection and its channel end up
      where the record says. */
  lemma EffectSimulated(cfg: Config, r: ConnRecord, c: Conn, t: Table, fd: int, e: Event)
    requires Simulates(r, c, t, fd) && Allowed(c, e)
    requires
      || e.Establish? || e.Hangup?
      || (e.Destroy? && c.state != Disconnecting) || (e.UserShutdown? && c.state == Connected)
    ensures var c' := ConnAfter(cfg, c, e);
            Simulates(Stepped(r, e), c', Rewatched(t, fd, e, c, c'), fd)
  {
    match e
    case Establish => EstablishSimulated(cfg, r, c, t, fd);
    case Hangup => CloseSimulated(cfg, r, c, t, fd);
    case Destroy => DestroySimulated(cfg, r, c, t, fd);
    case UserShutdown => ShutdownSimulated(cfg, r, c, t, fd);
    case _ =>
  }

  /** A step that performs an event on a connection made before it. */
  lemma EffectKeepsJoint(cfg: Config, d: Deployment, step: ServerSpec.Step)
    requires Inv(d.server) && Joint(cfg, d) && ServerSpec.Enabled(d.server, step) && !step.NewConnection?
    requires EffectOf(d.server, step).On?
    ensures Present(d, Serve(step)) && Joint(cfg, After(cfg, d, Serve(step)))
  {
    var server, c, e := ServerSpec.After(d.server, step), EffectOf(d.server, step).c, EffectOf(d.server, step).e;
    EffectReady(d.server, step);
    StepShows(d.server, step);
    assert ConnJoint(cfg, d, c);
    var r, link := d.server.conns[c], d.links[c];
    assert TableJoint(d, r.loop);
    var after := ConnAfter(cfg, link.conn, e);
    var t := Rewatched(d.tables[r.loop], c, e, link.conn, after);
    ToldFurther(cfg, link, e);
    EffectSimulated(cfg, r, link.conn, d.tables[r.loop], c, e);
    RewatchedLocally(d.tables[r.loop], c, e, link.conn, after);
    var next := Link(after, link.history + [e]);
    LinkMoves(cfg, d, server, c, next, t);
    MoveKeepsJoint(cfg, d, Outcome(d, server, r.loop, c, next, t), c);
  }

  lemma QuietStepKeepsJoint(cfg: Config, d: Deployment, step: ServerSpec.Step)
    requires Inv(d.server) && Joint(cfg, d) && ServerSpec.Enabled(d.server, step)
    requires !step.NewConnection? && !step.Reclaim?
    requires EffectOf(d.server, step).Nothing?
    ensures Present(d, Serve(step)) && Joint(cfg, After(cfg, d, Serve(step)))
  {
    var d' := After(cfg, d, Serve(step));
    StepShows(d.server, step);
    forall x <- d'.server.conns ensures ConnJoint(cfg, d', x) {
      assert ConnJoint(cfg, d, x);
      SameLook(cfg, d, d', x);
    }
    forall k: nat | k < |d'.tables| ensures TableJoint(d', k) {
      assert TableJoint(d, k);
    }
  }

  lemma ReclaimLeavesOthers(cfg: Config, d: Deployment, c: ConnId, x: ConnId)
    requires Joint(cfg, d) && ServerSpec.Enabled(d.server, Reclaim(c)) && Present(d, Serve(Reclaim(c)))
    requires x in d.server.conns && x != c
    ensures ConnJoint(cfg, After(cfg, d, Serve(Reclaim(c))), x)
  {
    assert ConnJoint(cfg, d, x);
    SameLook(cfg, d, After(cfg, d, Serve(Reclaim(c))), x);
  }

  /** A destroyed connection takes its channel and its descriptor along. */
  lemma ReclaimKeepsJoint(cfg: Config, d: Deployment, c: ConnId)
    requires Inv(d.server) && Joint(cfg, d) && ServerSpec.Enabled(d.server, Reclaim(c))
    ensures Present(d, Serve(Reclaim(c))) && Joint(cfg, After(cfg, d, Serve(Reclaim(c))))
  {
    NotOwnedIsGone(d.server, c);
    var l := d.server.conns[c].loop;
    assert ConnJoint(cfg, d, c) && TableJoint(d, l);
    DestroyKeepsAgreementIff(d.tables[l], c);
    var d' := After(cfg, d, Serve(Reclaim(c)));
    forall x <- d'.server.conns ensures ConnJoint(cfg, d', x) {
      if x != c {
        ReclaimLeavesOthers(cfg, d, c, x);
      }
    }
    TablesStayJoint(d, d', l);
  }

  /** From `d` to `d'` connection `c` has come into being on loop `l`, and nothing else has changed. */
  ghost predicate Adds(cfg: Config, d: Deployment, d': Deployment, c: ConnId, l: LoopId) {
    && l < |d.tables| == |d'.tables| == |d'.server.loops|
    && c !in d.server.conns && d'.server.conns.Keys == d.server.conns.Keys + {c}
    && d'.server.dead == d.server.dead
    && (forall x <- d.server.conns :: d'.server.conns[x] == d.server.conns[x])
    && (forall x <- d.server.conns :: x in d.links ==> x in d'.links && d'.links[x] == d.links[x])
    && (forall k :: 0 <= k < |d.tables| && k != l ==> d'.tables[k] == d.tables[k])
    && d'.tables[l].chans.Keys == d.tables[l].chans.Keys + {c}
    && (forall fd <- d.tables[l].chans :: fd != c ==> d'.tables[l].chans[fd] == d.tables[l].chans[fd])
    && Agrees(d'.tables[l])
    && ConnJoint(cfg, d', c) && d'.server.conns[c].loop == l
  }

  lemma AddKeepsJoint(cfg: Config, d: Deployment, d': Deployment, c: ConnId, l: LoopId)
    requires Joint(cfg, d) && Adds(cfg, d, d', c, l)
    ensures Joint(cfg, d')
  {
    forall x <- d'.server.conns ensures ConnJoint(cfg, d', x) {
      if x != c {
        assert ConnJoint(cfg, d, x);
        SameLook(cfg, d, d', x);
      }
    }
    forall k: nat | k < |d'.tables| ensures TableJoint(d', k) {
      assert TableJoint(d, k);
      assert k != l ==> d'.tables[k] == d.tables[k];
    }
  }

  lemma OpenedSimulates(t: Table, c: ConnId, r: ConnRecord)
    requires Agrees(t) && c !in t.chans
    requires r.state == Connecting && r.index == New && r.trace == []
    ensures Agrees(Opened(t, c)) && Simulates(r, FRESH, Opened(t, c), c)
  {
  }

  lemma OpenedAndEstablished(cfg: Config, t: Table, c: ConnId, r: ConnRecord)
    requires Agrees(t) && c !in t.chans
    requires r.state == Connecting && r.index == New && r.trace == []
    ensures var t' := Rewatched(Opened(t, c), c, Establish, FRESH, ConnAfter(cfg, FRESH, Establish));
      && Agrees(t') && Simulates(Established(r), ConnAfter(cfg, FRESH, Establish), t', c)
      && t'.chans.Keys == t.chans.Keys + {c} && forall fd <- t.chans :: t'.chans[fd] == t.chans[fd]
  {
    OpenedSimulates(t, c, r);
    EstablishSimulated(cfg, r, FRESH, Opened(t, c), c);
    RewatchedLocally(Opened(t, c), c, Establish, FRESH, ConnAfter(cfg, FRESH, Establish));
  }

  lemma NewLinkAdds(cfg: Config, d: Deployment, server: Server, c: ConnId, l: LoopId, link: Link, t: Table)
    requires l < |d.tables| == |server.loops| && c !in d.server.conns && c !in d.server.dead
    requires server.conns.Keys == d.server.conns.Keys + {c} && server.dead == d.server.dead
    requires forall x <- d.server.conns :: server.conns[x] == d.server.conns[x]
    requires server.conns[c].loop == l && Told(cfg, link) && Simulates(server.conns[c], link.conn, t, c)
    requires t.chans.Keys == d.tables[l].chans.Keys + {c} && Agrees(t)
    requires forall fd <- d.tables[l].chans :: fd != c ==> t.chans[fd] == d.tables[l].chans[fd]
    ensures Adds(cfg, d, Outcome(d, server, l, c, link, t), c, l)
  {
  }

  lemma NewIsUnknown(d: Deployment, l: LoopId)
    requires Inv(d.server) && l < |d.tables| && TableJoint(d, l)
    ensures d.server.nextConnId !in d.server.conns && d.server.nextConnId !in d.server.dead
    ensures d.server.nextConnId !in d.tables[l].chans
  {
    FreshNumber(d.server);
  }

  /** On the base loop alone, a new connection is established at once. */
  lemma NewHereIs(cfg: Config, d: Deployment)
    requires ServerSpec.Enabled(d.server, ServerSpec.NewConnection) && |d.tables| == |d.server.loops|
    requires LoopOf(d.server, d.server.nextConnId - 1) == BASE_LOOP
    ensures Present(d, Serve(ServerSpec.NewConnection))
    ensures var c, after := d.server.nextConnId, ConnAfter(cfg, FRESH, Establish);
            After(cfg, d, Serve(ServerSpec.NewConnection)) ==
            Outcome(d, ServerSpec.After(d.server, ServerSpec.NewConnection), BASE_LOOP, c, Link(after, [Establish]),
                    Rewatched(Opened(d.tables[BASE_LOOP], c), c, Establish, FRESH, after))
  {
    var c := d.server.nextConnId;
    assert c in ServerSpec.After(d.server, ServerSpec.NewConnection).conns;
    assert [] + [Establish] == [Establish];
  }

  lemma NewHereKeepsJoint(cfg: Config, d: Deployment)
    requires Inv(d.server) && Joint(cfg, d) && ServerSpec.Enabled(d.server, ServerSpec.NewConnection)
    requires LoopOf(d.server, d.server.nextConnId - 1) == BASE_LOOP
    ensures Present(d, Serve(ServerSpec.NewConnection))
    ensures Joint(cfg, After(cfg, d, Serve(ServerSpec.NewConnection)))
  {
    var server, c := ServerSpec.After(d.server, ServerSpec.NewConnection), d.server.nextConnId;
    assert TableJoint(d, BASE_LOOP);
    NewIsUnknown(d, BASE_LOOP);
    NewConnectionShows(d.server);
    OpenedAndEstablished(cfg, d.tables[BASE_LOOP], c, ConnRecord(BASE_LOOP, Connecting, New, [], 0, 0, 0, Waiting));
    ToldFurther(cfg, Link(FRESH, []), Establish);
    var link := Link(ConnAfter(cfg, FRESH, Establish), [Establish]);
    var t := Rewatched(Opened(d.tables[BASE_LOOP], c), c, Establish, FRESH, link.conn);
    NewLinkAdds(cfg, d, server, c, BASE_LOOP, link, t);
    AddKeepsJoint(cfg, d, Outcome(d, server, BASE_LOOP, c, link, t), c, BASE_LOOP);
    NewHereIs(cfg, d);
  }

  /** With I/O loops, it waits for its loop to establish it. */
  lemma NewElsewhereAdds(cfg: Config, d: Deployment)
    requires Inv(d.server) && Joint(cfg, d) && ServerSpec.Enabled(d.server, ServerSpec.NewConnection)
    requires LoopOf(d.server, d.server.nextConnId - 1) != BASE_LOOP
    ensures Present(d, Serve(ServerSpec.NewConnection))
    ensures Adds(cfg, d, After(cfg, d, Serve(ServerSpec.NewConnection)), d.server.nextConnId,
                 LoopOf(d.server, d.server.nextConnId - 1))
  {
    var server, c := ServerSpec.After(d.server, ServerSpec.NewConnection), d.server.nextConnId;
    var l := LoopOf(d.server, c - 1);
    assert TableJoint(d, l);
    NewIsUnknown(d, l);
    NewConnectionShows(d.server);
    OpenedSimulates(d.tables[l], c, server.conns[c]);
    NewLinkAdds(cfg, d, server, c, l, Link(FRESH, []), Opened(d.tables[l], c));
  }

  lemma NewConnectionKeepsJoint(cfg: Config, d: Deployment)
    requires Inv(d.server) && Joint(cfg, d) && ServerSpec.Enabled(d.server, ServerSpec.NewConnection)
    ensures Present(d, Serve(ServerSpec.NewConnection))
    ensures Joint(cfg, After(cfg, d, Serve(ServerSpec.NewConnection)))
  {
    var l := LoopOf(d.server, d.server.nextConnId - 1);
    if l == BASE_LOOP {
      NewHereKeepsJoint(cfg, d);
    } else {
      NewElsewhereAdds(cfg, d);
      AddKeepsJoint(cfg, d, After(cfg, d, Serve(ServerSpec.NewConnection)), d.server.nextConnId, l);
    }
  }

  // ---------------------------------------------------------------------------------------------
  // Runs
  // ---------------------------------------------------------------------------------------------

  lemma StepKeepsJoint(cfg: Config, d: Deployment, step: Step)
    requires Inv(d.server) && Joint(cfg, d) && Enabled(d, step)
    ensures Present(d, step)
    ensures Inv(After(cfg, d, step).server) && Joint(cfg, After(cfg, d, step))
  {
    match step
    case Exchange(c, e) => ExchangeKeepsJoint(cfg, d, c, e);
    case Serve(inner) =>
      ServerInvariant.StepKeepsInv(d.server, inner);
      if inner.NewConnection? {
        NewConnectionKeepsJoint(cfg, d);
      } else if inner.Reclaim? {
        ReclaimKeepsJoint(cfg, d, inner.c);
      } else if EffectOf(d.server, inner).On? {
        EffectKeepsJoint(cfg, d, inner);
      } else {
        QuietStepKeepsJoint(cfg, d, inner);
      }
  }

  predicate LegalRun(cfg: Config, d0: Deployment, run: seq<Step>)
    decreases |run|, 0
  {
    run == [] ||
    (LegalRun(cfg, d0, run[..|run| - 1]) &&
     var before := RunDeployment(cfg, d0, run[..|run| - 1]);
     Enabled(before, run[|run| - 1]) && Present(before, run[|run| - 1]))
  }

  function RunDeployment(cfg: Config, d0: Deployment, run: seq<Step>): Deployment
    requires LegalRun(cfg, d0, run)
    decreases |run|, 1
  {
    if run == [] then d0 else After(cfg, RunDeployment(cfg, d0, run[..|run| - 1]), run[|run| - 1])
  }

  lemma InitialJoint(cfg: Config, name: string, ipPort: string, ioLoops: nat)
    requires |ipPort| <= 51
    ensures Inv(Initial(name, ipPort, ioLoops).server) && Joint(cfg, Initial(name, ipPort, ioLoops))
  {
    InitialInv(name, ipPort, ioLoops);
  }

  lemma {:induction false} RunKeepsJoint(cfg: Config, d0: Deployment, run: seq<Step>)
    requires Inv(d0.server) && Joint(cfg, d0) && LegalRun(cfg, d0, run)
    ensures Inv(RunDeployment(cfg, d0, run).server) && Joint(cfg, RunDeployment(cfg, d0, run))
  {
    if run != [] {
      RunKeepsJoint(cfg, d0, run[..|run| - 1]);
      StepKeepsJoint(cfg, RunDeployment(cfg, d0, run[..|run| - 1]), run[|run| - 1]);
    }
  }

  /** A state some run of a freshly started server reaches. */
  ghost predicate Reached(cfg: Config, d: Deployment, name: string, ipPort: string, ioLoops: nat, run: seq<Step>) {
    && |ipPort| <= 51 && LegalRun(cfg, Initial(name, ipPort, ioLoops), run)
    && d == RunDeployment(cfg, Initial(name, ipPort, ioLoops), run)
  }

  ghost predicate Reachable(cfg: Config, d: Deployment) {
    exists name, ipPort, ioLoops: nat, run :: Reached(cfg, d, name, ipPort, ioLoops, run)
  }

  lemma ReachableJoint(cfg: Config, d: Deployment)
    requires Reachable(cfg, d)
    ensures Inv(d.server) && Joint(cfg, d)
  {
    var name, ipPort, ioLoops: nat, run :| Reached(cfg, d, name, ipPort, ioLoops, run);
    InitialJoint(cfg, name, ipPort, ioLoops);
    RunKeepsJoint(cfg, Initial(name, ipPort, ioLoops), run);
  }

  /** No step ever reaches for a connection, a channel or a loop that is not there. */
  lemma NothingMissing(cfg: Config, d: Deployment, step: Step)
    requires Reachable(cfg, d) && Enabled(d, step)
    ensures Present(d, step)
  {
    ReachableJoint(cfg, d);
    StepKeepsJoint(cfg, d, step);
  }

  /** No poller ever holds a dead channel: whatever the poller's map or the kernel lists is a live,
      owned connection of that loop, with the events it wants; and the kernel never refuses a call. */
  lemma KernelHoldsOnlyLiving(cfg: Config, d: Deployment, l: LoopId, fd: int)
    requires Reachable(cfg, d) && l < |d.tables|
    requires fd in d.tables[l].kernel || fd in d.tables[l].channels
    ensures d.tables[l].errors == 0
    ensures 0 <= fd && fd in d.server.conns && fd in d.links && d.server.conns[fd].loop == l
    ensures Owned(d.server, fd) && fd !in d.server.dead
    ensures fd in d.tables[l].kernel ==>
              var conn := d.links[fd].conn;
              d.tables[l].kernel[fd] == Mask(conn.reading, conn.reading, conn.writing, false)
  {
    ReachableJoint(cfg, d);
    assert TableJoint(d, l);
    assert ConnJoint(cfg, d, fd);
    PointedAtIsOwned(d.server, fd);
  }

  /** Every connection of the server lives as ConnectionSpec says: its bytes are conserved, and its user
      is told of up and down once each, in that order. */
  lemma ConnectionsBehave(cfg: Config, d: Deployment, c: ConnId)
    requires Reachable(cfg, d) && c in d.server.conns
    ensures c in d.links && ConnectionSpec.Legal(cfg, d.links[c].history)
    ensures d.links[c].conn.wire + d.links[c].conn.output == AcceptedBytes(cfg, d.links[c].history)
    ensures Announced(d.links[c].conn.callbacks) == d.server.conns[c].trace <= [Up, Down]
    ensures d.links[c].conn.state == d.server.conns[c].state
  {
    ReachableJoint(cfg, d);
    assert ConnJoint(cfg, d, c) && ConnOk(d.server, c);
    ConnectionSpec.Conservation(cfg, d.links[c].history);
  }

  // ---------------------------------------------------------------------------------------------
  // Every event reaches its connection
  // ---------------------------------------------------------------------------------------------

  /** What a step of the deployment does to connection `c`. */
  function EventsFor(d: Deployment, step: Step, c: ConnId): seq<Event>
    requires Enabled(d, step)
  {
    match step
    case Exchange(x, e) => if x == c then [e] else []
    case Serve(inner) =>
      var effect := EffectOf(d.server, inner);
      if effect.On? && effect.c == c then [effect.e] else []
  }

  function EventsInRun(cfg: Config, d0: Deployment, run: seq<Step>, c: ConnId): seq<Event>
    requires LegalRun(cfg, d0, run)
  {
    if run == [] then []
    else
      EventsInRun(cfg, d0, run[..|run| - 1], c) + EventsFor(RunDeployment(cfg, d0, run[..|run| - 1]), run[|run| - 1], c)
  }

  function History(d: Deployment, c: ConnId): seq<Event> { if c in d.links then d.links[c].history else [] }

  ghost predicate LinksNumbered(d: Deployment) { forall c <- d.links :: c < d.server.nextConnId }

  lemma HistoryStep(cfg: Config, d: Deployment, step: Step, c: ConnId)
    requires Enabled(d, step) && Present(d, step) && LinksNumbered(d)
    ensures LinksNumbered(After(cfg, d, step))
    ensures History(After(cfg, d, step), c) == History(d, c) + EventsFor(d, step, c)
  {
  }

  /** What has happened to a connection is what the run did to it, in order: no event is lost on the way
      to its connection, and none reaches another. */
  lemma {:induction false} HistoryIsTheRun(cfg: Config, d0: Deployment, run: seq<Step>, c: ConnId)
    requires LegalRun(cfg, d0, run) && d0.links == map[]
    ensures LinksNumbered(RunDeployment(cfg, d0, run))
    ensures History(RunDeployment(cfg, d0, run), c) == EventsInRun(cfg, d0, run, c)
  {
    if run != [] {
      HistoryIsTheRun(cfg, d0, run[..|run| - 1], c);
      HistoryStep(cfg, RunDeployment(cfg, d0, run[..|run| - 1]), run[|run| - 1], c);
    }
  }
}

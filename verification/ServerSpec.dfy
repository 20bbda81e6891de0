// The life of every connection of a server, across the base loop and the I/O loops:
// src/net/TcpServer.cpp with the hand-offs of src/net/TcpConnection.cpp, src/net/Channel.cpp and
// src/net/EventLoop.cpp.
//
// The state holds every place that keeps a connection alive (the server's map, queued and executing
// functors, the guard of a dispatch, the user) and every place that merely points at its channel (the
// poller's map and the kernel, the active list).  A step is one atomic action of one thread, and runs
// interleave them in any order.  A connection no reference is left to may be destroyed at any moment.

module ServerSpec {
  import opened EpollSpec
  import opened ConnectionSpec
  import opened ThreadPool

  /** The number `newConnection` gives a connection. */
  type ConnId = nat

  /** Where a connection stands.  No step reads it; the invariant ties it to the real fields. */
  datatype Phase = Waiting | Live | Closing | Handed | Erased | Gone

  datatype ConnRecord = ConnRecord(
    loop: LoopId,
    state: StateE,
    index: Index,
    trace: seq<Callback>,   // calls of the user's connection callback
    closes: nat,            // runs of handleClose
    erases: nat,            // removals from the server's map
    destroys: nat,          // runs of connectDestroyed
    phase: Phase)

  /** Each functor holds a shared pointer to its connection. */
  datatype Functor =
    | RunEstablished(c: ConnId)  // connectionEstablished
    | RunRemove(c: ConnId)       // removeConnectionInLoop
    | RunDestroyed(c: ConnId)    // connectDestroyed
    | RunNotify(c: ConnId)       // a write-complete or high-water callback

  /** How far the dispatch holding the guard has come with closing. */
  datatype Stage = Serving | Marked | HandedOver

  datatype Guard = NoGuard | Held(c: ConnId, stage: Stage)

  datatype Pc = Polling | Dispatching(active: seq<ConnId>, guard: Guard) | Running(pos: nat)

  datatype Loop = Loop(pending: seq<Functor>, batch: seq<Functor>, pc: Pc)

  datatype Server = Server(
    name: string,
    ipPort: string,
    loops: seq<Loop>,              // the base loop, then the I/O loops
    nextConnId: nat,
    conns: map<ConnId, ConnRecord>,    // every connection ever made
    connections: map<string, ConnId>,  // connections_
    userRefs: set<ConnId>,
    dead: set<ConnId>)             // destroyed objects

  // ---------------------------------------------------------------------------------------------
  // Steps
  // ---------------------------------------------------------------------------------------------

  datatype Step =
    | NewConnection
    | PollReturn(l: LoopId, ready: seq<ConnId>)
    | BeginDispatch(l: LoopId)
    | MarkClosed(l: LoopId)     // handleClose up to the connection callback
    | HandOver(l: LoopId)       // handleClose's close callback: removeConnection
    | EndDispatch(l: LoopId)
    | BeginBatch(l: LoopId)
    | RunOne(l: LoopId)
    | EndBatch(l: LoopId)
    | QueueNotify(c: ConnId)
    | UserShutdown(c: ConnId)
    | UserTake(c: ConnId)
    | UserDrop(c: ConnId)
    | Reclaim(c: ConnId)        // the last reference is gone: the destructor runs

  function IoLoops(s: Server): seq<LoopId>
    requires s.loops != []
  {
    seq(|s.loops| - 1, i => i + 1)
  }

  function LoopOf(s: Server, k: nat): (l: LoopId)
    requires s.loops != []
    ensures l < |s.loops| && (l == BASE_LOOP <==> |s.loops| == 1)
  {
    Choice(IoLoops(s), k)
  }

  predicate HoldsRef(loop: Loop, c: ConnId) {
    || (exists f <- loop.pending :: f.c == c)
    || (exists f <- loop.batch :: f.c == c)
    || (loop.pc.Dispatching? && loop.pc.guard.Held? && loop.pc.guard.c == c)
  }

  /** Some shared pointer to the connection exists. */
  predicate Owned(s: Server, c: ConnId) {
    || c in s.connections.Values
    || c in s.userRefs
    || (exists loop <- s.loops :: HoldsRef(loop, c))
  }

  /** What is left to run on a loop. */
  function Todo(loop: Loop): seq<Functor> {
    if loop.pc.Running? && loop.pc.pos <= |loop.batch| then loop.batch[loop.pc.pos..] + loop.pending
    else loop.pending
  }

  function Established(r: ConnRecord): ConnRecord {
    r.(state := Connected, index := IndexAfter(r.index, false), trace := r.trace + [Up], phase := Live)
  }

  function Closed(r: ConnRecord): ConnRecord {
    r.(state := Disconnected, index := IndexAfter(r.index, true), trace := r.trace + [Down],
       closes := r.closes + 1, phase := Closing)
  }

  function TornDown(r: ConnRecord): ConnRecord {
    var down := if r.state == Connected
                then r.(state := Disconnected, index := IndexAfter(r.index, true), trace := r.trace + [Down])
                else r;
    down.(index := New, destroys := r.destroys + 1, phase := Gone)
  }

  function WithConn(s: Server, c: ConnId, r: ConnRecord): Server {
    s.(conns := s.conns[c := r])
  }

  function WithPc(s: Server, l: LoopId, pc: Pc): Server
    requires l < |s.loops|
  {
    s.(loops := s.loops[l := s.loops[l].(pc := pc)])
  }

  function Queue(s: Server, l: LoopId, f: Functor): Server
    requires l < |s.loops|
  {
    s.(loops := s.loops[l := s.loops[l].(pending := s.loops[l].pending + [f])])
  }

  /** removeConnectionInLoop, on the base loop. */
  function RemoveInLoop(s: Server, c: ConnId): Server
    requires c in s.conns && s.conns[c].loop < |s.loops|
  {
    var r := s.conns[c];
    var erased := s.(connections := s.connections - {ConnName(s.name, s.ipPort, c)},
                     conns := s.conns[c := r.(erases := r.erases + 1, phase := Erased)]);
    Queue(erased, r.loop, RunDestroyed(c))
  }

  /** removeConnection, called on loop `l`. */
  function RemoveConnection(s: Server, l: LoopId, c: ConnId): Server
    requires c in s.conns && s.conns[c].loop < |s.loops| && s.loops != []
  {
    if l == BASE_LOOP then RemoveInLoop(s, c)
    else Queue(WithConn(s, c, s.conns[c].(phase := Handed)), BASE_LOOP, RunRemove(c))
  }

  /** The first part of newConnection: the object and its entry in the map. */
  function Accept(s: Server): Server
    requires s.loops != [] && 0 < s.nextConnId
  {
    var c := s.nextConnId;
    var loop := LoopOf(s, c - 1);
    s.(nextConnId := c + 1,
       conns := s.conns[c := ConnRecord(loop, Connecting, New, [], 0, 0, 0, Waiting)],
       connections := s.connections[ConnName(s.name, s.ipPort, c) := c])
  }

  function NewConnectionAfter(s: Server): Server
    requires s.loops != [] && 0 < s.nextConnId
  {
    var c := s.nextConnId;
    var accepted := Accept(s);
    var loop := LoopOf(s, c - 1);
    if loop == BASE_LOOP then WithConn(accepted, c, Established(accepted.conns[c]))
    else Queue(accepted, loop, RunEstablished(c))
  }

  function Execute(s: Server, f: Functor): Server
    requires f.c in s.conns && s.conns[f.c].loop < |s.loops|
  {
    match f
    case RunEstablished(c) => WithConn(s, c, Established(s.conns[c]))
    case RunRemove(c) => RemoveInLoop(s, c)
    case RunDestroyed(c) => WithConn(s, c, TornDown(s.conns[c]))
    case RunNotify(_) => s
  }

  /** The connection being dispatched on a loop. */
  predicate Dispatches(s: Server, l: LoopId, stage: Stage) {
    && l < |s.loops| && s.loops[l].pc.Dispatching? && s.loops[l].pc.guard.Held?
    && s.loops[l].pc.guard.stage == stage
    && s.loops[l].pc.guard.c in s.conns && s.conns[s.loops[l].pc.guard.c].loop < |s.loops|
  }

  predicate Enabled(s: Server, step: Step) {
    match step
    case NewConnection =>
      // the acceptor's channel is being dispatched on the base loop
      && s.loops != [] && 0 < s.nextConnId < ID_LIMIT
      && s.loops[BASE_LOOP].pc.Dispatching? && s.loops[BASE_LOOP].pc.guard.NoGuard?
    case PollReturn(l, ready) =>
      && l < |s.loops| && s.loops[l].pc.Polling?
      && (forall c <- ready :: c in s.conns && s.conns[c].loop == l && s.conns[c].index.Added?)
      && (forall i, j :: 0 <= i < j < |ready| ==> ready[i] != ready[j])
    case BeginDispatch(l) =>
      && l < |s.loops| && s.loops[l].pc.Dispatching? && s.loops[l].pc.guard.NoGuard?
      && s.loops[l].pc.active != []
    case MarkClosed(l) => Dispatches(s, l, Serving)
    case HandOver(l) => Dispatches(s, l, Marked)
    case EndDispatch(l) => Dispatches(s, l, Serving) || Dispatches(s, l, HandedOver)
    case BeginBatch(l) => l < |s.loops| && s.loops[l].pc == Dispatching([], NoGuard)
    case RunOne(l) =>
      && l < |s.loops| && s.loops[l].pc.Running? && s.loops[l].pc.pos < |s.loops[l].batch|
      && var f := s.loops[l].batch[s.loops[l].pc.pos]; f.c in s.conns && s.conns[f.c].loop < |s.loops|
    case EndBatch(l) => l < |s.loops| && s.loops[l].pc == Running(|s.loops[l].batch|)
    case QueueNotify(c) =>
      && c in s.conns && Owned(s, c) && s.conns[c].loop < |s.loops|
      && !s.loops[s.conns[c].loop].pc.Polling?
    case UserShutdown(c) => c in s.conns && Owned(s, c)
    case UserTake(c) => c in s.conns && Owned(s, c)
    case UserDrop(c) => c in s.userRefs
    case Reclaim(c) => c in s.conns && c !in s.dead && !Owned(s, c)
  }

  function After(s: Server, step: Step): Server
    requires Enabled(s, step)
  {
    match step
    case NewConnection => NewConnectionAfter(s)
    case PollReturn(l, ready) => WithPc(s, l, Dispatching(ready, NoGuard))
    case BeginDispatch(l) =>
      var pc := s.loops[l].pc;
      // tie_.lock() fails on a dead connection
      var guard := if pc.active[0] in s.dead then NoGuard else Held(pc.active[0], Serving);
      WithPc(s, l, Dispatching(pc.active[1..], guard))
    case MarkClosed(l) =>
      var pc := s.loops[l].pc;
      WithConn(WithPc(s, l, pc.(guard := Held(pc.guard.c, Marked))), pc.guard.c, Closed(s.conns[pc.guard.c]))
    case HandOver(l) =>
      var pc := s.loops[l].pc;
      RemoveConnection(WithPc(s, l, pc.(guard := Held(pc.guard.c, HandedOver))), l, pc.guard.c)
    case EndDispatch(l) => WithPc(s, l, s.loops[l].pc.(guard := NoGuard))
    case BeginBatch(l) => s.(loops := s.loops[l := Loop([], s.loops[l].pending, Running(0))])
    case RunOne(l) =>
      var loop := s.loops[l];
      Execute(WithPc(s, l, Running(loop.pc.pos + 1)), loop.batch[loop.pc.pos])
    case EndBatch(l) => s.(loops := s.loops[l := s.loops[l].(batch := [], pc := Polling)])
    case QueueNotify(c) => Queue(s, s.conns[c].loop, RunNotify(c))
    case UserShutdown(c) =>
      if s.conns[c].state == Connected then WithConn(s, c, s.conns[c].(state := Disconnecting)) else s
    case UserTake(c) => s.(userRefs := s.userRefs + {c})
    case UserDrop(c) => s.(userRefs := s.userRefs - {c})
    case Reclaim(c) => s.(dead := s.dead + {c})
  }

  function Initial(name: string, ipPort: string, ioLoops: nat): Server {
    Server(name, ipPort, seq(ioLoops + 1, _ => Loop([], [], Pc.Polling)), 1, map[], map[], {}, {})
  }

  predicate LegalRun(s0: Server, run: seq<Step>)
    decreases |run|, 0
  {
    run == [] || (LegalRun(s0, run[..|run| - 1]) && Enabled(RunServer(s0, run[..|run| - 1]), run[|run| - 1]))
  }

  function RunServer(s0: Server, run: seq<Step>): Server
    requires LegalRun(s0, run)
    decreases |run|, 1
  {
    if run == [] then s0 else After(RunServer(s0, run[..|run| - 1]), run[|run| - 1])
  }
}

// What holds in every reachable state of a server with any number of I/O loops.

module ServerSafety {
  import opened EpollSpec
  import opened ConnectionSpec
  import opened ThreadPool
  import opened ServerSpec
  import opened ServerInvariant

  /** A state some run of a freshly started server reaches. */
  ghost predicate Reachable(s: Server) {
    exists name, ipPort, ioLoops: nat, run :: ReachedBy(s, name, ipPort, ioLoops, run)
  }

  ghost predicate ReachedBy(s: Server, name: string, ipPort: string, ioLoops: nat, run: seq<Step>) {
    |ipPort| <= 51 && LegalRun(Initial(name, ipPort, ioLoops), run) && s == RunServer(Initial(name, ipPort, ioLoops), run)
  }

  lemma {:induction false} RunKeepsInv(s0: Server, run: seq<Step>)
    requires Inv(s0) && LegalRun(s0, run)
    ensures Inv(RunServer(s0, run))
  {
    if run != [] {
      RunKeepsInv(s0, run[..|run| - 1]);
      StepKeepsInv(RunServer(s0, run[..|run| - 1]), run[|run| - 1]);
    }
  }

  lemma ReachableInv(s: Server)
    requires Reachable(s)
    ensures Inv(s)
  {
    var name, ipPort, ioLoops: nat, run :| ReachedBy(s, name, ipPort, ioLoops, run);
    InitialInv(name, ipPort, ioLoops);
    RunKeepsInv(Initial(name, ipPort, ioLoops), run);
  }

  /** No poller ever holds a dead channel, and none is ever dispatched: wherever a raw channel pointer
      can be followed, something still owns the connection. */
  lemma NoDanglingChannel(s: Server, c: ConnId)
    requires Reachable(s) && c in s.conns && PointedAt(s, c)
    ensures Owned(s, c) && c !in s.dead
  {
    ReachableInv(s);
    PointedAtIsOwned(s, c);
  }

  /** So `tie_.lock()` succeeds in every dispatch. */
  lemma DispatchFindsItsConnection(s: Server, l: LoopId)
    requires Reachable(s) && Enabled(s, BeginDispatch(l))
    ensures s.loops[l].pc.active[0] in s.conns && s.loops[l].pc.active[0] !in s.dead
    ensures After(s, BeginDispatch(l)).loops[l].pc.guard == Held(s.loops[l].pc.active[0], Serving)
  {
    ReachableInv(s);
    ActiveIsAlive(s, l);
    assert LoopOk(s.conns, l, s.loops[l]);
    assert s.loops[l].pc.active[0] in s.loops[l].pc.active;
  }

  /** And every functor about to run finds its connection alive. */
  lemma FunctorFindsItsConnection(s: Server, l: LoopId)
    requires Reachable(s) && l < |s.loops| && s.loops[l].pc.Running? && s.loops[l].pc.pos < |s.loops[l].batch|
    ensures Enabled(s, RunOne(l)) && s.loops[l].batch[s.loops[l].pc.pos].c !in s.dead
  {
    ReachableInv(s);
    var f := s.loops[l].batch[s.loops[l].pc.pos];
    assert LoopOk(s.conns, l, s.loops[l]);
    PoppedLoopOk(s.conns, l, s.loops[l], f);
    assert ConnOk(s, f.c);
    RunnableIsAlive(s, l);
  }

  /** A destroyed connection has been reported down, erased once and torn down once, its channel is out
      of the poller, and nothing will ever refer to it again. */
  lemma DeadIsFinished(s: Server, c: ConnId)
    requires Reachable(s) && c in s.dead
    ensures c in s.conns && !Owned(s, c) && !PointedAt(s, c)
    ensures var r := s.conns[c];
            r.index == New && r.trace == [Up, Down] && r.closes == r.erases == r.destroys == 1
  {
    ReachableInv(s);
    if PointedAt(s, c) {
      PointedAtIsOwned(s, c);
    }
    NotOwnedIsGone(s, c);
  }

  lemma NotOwnedIsGone(s: Server, c: ConnId)
    requires Inv(s) && c in s.conns && !Owned(s, c)
    ensures s.conns[c].phase == Gone && RecordOk(s.conns[c])
  {
    assert ConnOk(s, c);
    var loop := s.loops[s.conns[c].loop];
    assert loop in s.loops && !HoldsRef(loop, c);
    if RunEstablished(c) in Todo(loop) {
      TodoHoldsRef(loop, RunEstablished(c));
    } else if !s.conns[c].index.New? {
      PointedAtIsOwned(s, c);
    }
  }

  // ---------------------------------------------------------------------------------------------
  // The protocol of one connection
  // ---------------------------------------------------------------------------------------------

  function Count(todo: seq<Functor>, f: Functor): nat { multiset(todo)[f] }

  /** The loop dispatching a connection that is marked closed and not yet handed over. */
  predicate HandOverDue(s: Server, c: ConnId)
    requires c in s.conns
  {
    var l := s.conns[c].loop;
    l < |s.loops| && s.loops[l].pc.Dispatching? && s.loops[l].pc.guard == Held(c, Marked)
  }

  /** Closing is handed on without loss or repetition: every close is waiting in its dispatch, waiting
      on the base loop, or has been erased from the map; and every erasure is waiting on the I/O loop
      or has been torn down. */
  lemma HandOffsBalance(s: Server, c: ConnId)
    requires Reachable(s) && c in s.conns
    ensures s.conns[c].loop < |s.loops| && s.loops != []
    ensures s.conns[c].closes ==
            s.conns[c].erases + (if HandOverDue(s, c) then 1 else 0) + Count(Todo(s.loops[BASE_LOOP]), RunRemove(c))
    ensures s.conns[c].erases ==
            s.conns[c].destroys + Count(Todo(s.loops[s.conns[c].loop]), RunDestroyed(c))
    ensures s.conns[c].closes <= 1
  {
    ReachableInv(s);
    assert ConnOk(s, c);
    var base, own := s.loops[BASE_LOOP], s.loops[s.conns[c].loop];
    assert LoopOk(s.conns, BASE_LOOP, base) && LoopOk(s.conns, s.conns[c].loop, own);
    assert RunRemove(c) in Todo(base) <==> s.conns[c].phase == Handed;
    assert RunDestroyed(c) in Todo(own) <==> s.conns[c].phase == Erased;
  }

  /** The user sees each connection come up once and go down at most once, after that; it is in the
      map exactly until it has been erased; and it is registered exactly while it is up. */
  lemma ConnectionProtocol(s: Server, c: ConnId)
    requires Reachable(s) && c in s.conns
    ensures s.conns[c].trace <= [Up, Down]
    ensures s.conns[c].trace == [] <==> s.conns[c].state == Connecting
    ensures s.conns[c].trace == [Up, Down] <==> s.conns[c].state == Disconnected
    ensures s.conns[c].index.Added? <==> s.conns[c].trace == [Up]
    ensures ConnName(s.name, s.ipPort, c) in s.connections <==> s.conns[c].erases == 0
  {
    ReachableInv(s);
    assert ConnOk(s, c);
  }

  /** States are visited in order, Connecting, Connected, Disconnecting, Disconnected, and a connection
      stays on its loop. */
  lemma StatesMoveForward(s: Server, step: Step, c: ConnId)
    requires Reachable(s) && Enabled(s, step) && c in s.conns
    ensures c in After(s, step).conns && After(s, step).conns[c].loop == s.conns[c].loop
    ensures Rank(s.conns[c].state) <= Rank(After(s, step).conns[c].state)
  {
    ReachableInv(s);
    if step.NewConnection? {
      FreshNumber(s);
      NewConnectionMovesForward(s, c);
    } else if step.RunOne? {
      HeadFunctorOk(s, step.l, s.loops[step.l].batch[s.loops[step.l].pc.pos]);
      RunMovesForward(s, step.l, c);
    } else {
      OtherStepsMoveForward(s, step, c);
    }
  }

  lemma NewConnectionMovesForward(s: Server, c: ConnId)
    requires Enabled(s, Step.NewConnection) && c in s.conns && s.nextConnId !in s.conns
    ensures c in After(s, Step.NewConnection).conns && After(s, Step.NewConnection).conns[c] == s.conns[c]
  {
  }

  lemma RunMovesForward(s: Server, l: LoopId, c: ConnId)
    requires Enabled(s, RunOne(l)) && c in s.conns
    requires var f := s.loops[l].batch[s.loops[l].pc.pos]; FunctorOk(s.conns, l, f) && RecordOk(s.conns[f.c])
    ensures c in After(s, RunOne(l)).conns && After(s, RunOne(l)).conns[c].loop == s.conns[c].loop
    ensures Rank(s.conns[c].state) <= Rank(After(s, RunOne(l)).conns[c].state)
  {
    ExecuteMovesForward(WithPc(s, l, Running(s.loops[l].pc.pos + 1)), l, s.loops[l].batch[s.loops[l].pc.pos], c);
  }

  lemma OtherStepsMoveForward(s: Server, step: Step, c: ConnId)
    requires Enabled(s, step) && c in s.conns && !step.NewConnection? && !step.RunOne?
    ensures c in After(s, step).conns && After(s, step).conns[c].loop == s.conns[c].loop
    ensures Rank(s.conns[c].state) <= Rank(After(s, step).conns[c].state)
  {
  }

  lemma HeadFunctorOk(s: Server, l: LoopId, f: Functor)
    requires Inv(s) && Enabled(s, RunOne(l)) && f == s.loops[l].batch[s.loops[l].pc.pos]
    ensures FunctorOk(s.conns, l, f) && RecordOk(s.conns[f.c])
  {
    assert LoopOk(s.conns, l, s.loops[l]);
    PoppedLoopOk(s.conns, l, s.loops[l], f);
    assert ConnOk(s, f.c);
  }

  lemma ExecuteMovesForward(s: Server, l: LoopId, f: Functor, c: ConnId)
    requires FunctorOk(s.conns, l, f) && RecordOk(s.conns[f.c]) && s.conns[f.c].loop < |s.loops| && c in s.conns
    ensures c in Execute(s, f).conns && Execute(s, f).conns[c].loop == s.conns[c].loop
    ensures Rank(s.conns[c].state) <= Rank(Execute(s, f).conns[c].state)
  {
  }

  lemma FreshNumber(s: Server)
    requires Inv(s)
    ensures s.nextConnId !in s.conns
  {
    assert forall c <- s.conns :: ConnOk(s, c) && c < s.nextConnId;
  }

  /** A new connection gets a number and a name no connection has had, and the next loop in turn. */
  lemma NewConnectionIsFresh(s: Server)
    requires Reachable(s) && Enabled(s, Step.NewConnection)
    ensures var s', c := After(s, Step.NewConnection), s.nextConnId;
            && c !in s.conns && ConnName(s.name, s.ipPort, c) !in s.connections
            && s'.connections == s.connections[ConnName(s.name, s.ipPort, c) := c]
            && s'.conns[c].loop == Choice(IoLoops(s), c - 1)
  {
    ReachableInv(s);
    FreshName(s);
  }

  // ---------------------------------------------------------------------------------------------
  // Who runs where, and when
  // ---------------------------------------------------------------------------------------------

  /** Every hand-off reaches the right loop: a connection is established, dispatched, notified and torn
      down on its own loop, and removed on the base loop. */
  lemma EverythingOnItsLoop(s: Server, l: LoopId, f: Functor)
    requires Reachable(s) && l < |s.loops| && f in Todo(s.loops[l])
    ensures f.c in s.conns
    ensures f.RunRemove? ==> l == BASE_LOOP
    ensures !f.RunRemove? ==> s.conns[f.c].loop == l
  {
    ReachableInv(s);
    assert LoopOk(s.conns, l, s.loops[l]);
  }

  lemma DispatchedOnItsLoop(s: Server, l: LoopId, c: ConnId)
    requires Reachable(s) && l < |s.loops| && s.loops[l].pc.Dispatching?
    requires c in s.loops[l].pc.active || (s.loops[l].pc.guard.Held? && s.loops[l].pc.guard.c == c)
    ensures c in s.conns && s.conns[c].loop == l
  {
    ReachableInv(s);
    assert LoopOk(s.conns, l, s.loops[l]);
  }

  /** What the last poll of a loop reported ready. */
  function LastReady(run: seq<Step>, l: LoopId): seq<ConnId> {
    if run == [] then []
    else
      match run[|run| - 1]
      case PollReturn(k, ready) => if k == l then ready else LastReady(run[..|run| - 1], l)
      case _ => LastReady(run[..|run| - 1], l)
  }

  /** How many dispatches the loop has begun since. */
  function Turns(run: seq<Step>, l: LoopId): nat {
    if run == [] then 0
    else
      match run[|run| - 1]
      case PollReturn(k, _) => if k == l then 0 else Turns(run[..|run| - 1], l)
      case BeginDispatch(k) => Turns(run[..|run| - 1], l) + if k == l then 1 else 0
      case _ => Turns(run[..|run| - 1], l)
  }

  lemma ActiveStep(s: Server, step: Step, l: LoopId)
    requires Enabled(s, step) && l < |s.loops|
    ensures var s' := After(s, step);
      && |s'.loops| == |s.loops|
      && (s'.loops[l].pc.Dispatching? ==>
            s.loops[l].pc.Dispatching? || (step.PollReturn? && step.l == l))
      && (s'.loops[l].pc.Dispatching? && !(step.PollReturn? && step.l == l) ==>
            s'.loops[l].pc.active ==
            if step == BeginDispatch(l) then s.loops[l].pc.active[1..] else s.loops[l].pc.active)
      && (step.PollReturn? && step.l == l ==> s'.loops[l].pc == Dispatching(step.ready, NoGuard))
  {
  }

  /** The active list is what the last poll reported and has not had its turn. */
  lemma {:induction false} ActiveIsTheRest(s0: Server, run: seq<Step>, l: LoopId)
    requires LegalRun(s0, run) && l < |s0.loops| && s0.loops[l].pc == Pc.Polling
    ensures |RunServer(s0, run).loops| == |s0.loops|
    ensures RunServer(s0, run).loops[l].pc.Dispatching? ==>
      Turns(run, l) <= |LastReady(run, l)| &&
      RunServer(s0, run).loops[l].pc.active == LastReady(run, l)[Turns(run, l)..]
  {
    if run != [] {
      ActiveIsTheRest(s0, run[..|run| - 1], l);
      ActiveStep(RunServer(s0, run[..|run| - 1]), run[|run| - 1], l);
    }
  }

  /** So each ready connection gets its turn, in order, held by the guard: a dispatch takes the next of
      those reported, and none is left when the loop goes on to its functors. */
  lemma EveryReadyIsServed(name: string, ipPort: string, ioLoops: nat, run: seq<Step>, l: LoopId)
    requires |ipPort| <= 51 && LegalRun(Initial(name, ipPort, ioLoops), run) && l <= ioLoops
    ensures var s := RunServer(Initial(name, ipPort, ioLoops), run);
      && (Enabled(s, BeginDispatch(l)) ==>
            && Turns(run, l) < |LastReady(run, l)|
            && After(s, BeginDispatch(l)).loops[l].pc.guard == Held(LastReady(run, l)[Turns(run, l)], Serving))
      && (Enabled(s, BeginBatch(l)) ==> Turns(run, l) == |LastReady(run, l)|)
  {
    var s := RunServer(Initial(name, ipPort, ioLoops), run);
    ActiveIsTheRest(Initial(name, ipPort, ioLoops), run, l);
    if Enabled(s, BeginDispatch(l)) {
      assert ReachedBy(s, name, ipPort, ioLoops, run);
      DispatchFindsItsConnection(s, l);
    }
  }

  // ---------------------------------------------------------------------------------------------
  // Functors handed between loops, and the user's references
  // ---------------------------------------------------------------------------------------------

  /** The functor a step of any thread hands to loop `l`: establishing, on the connection's loop unless
      that is the base loop; removing, on the base loop when the close was handled on another; tearing
      down, on the connection's loop once it has been erased; and notifying. */
  function HandedTo(s: Server, step: Step, l: LoopId): seq<Functor>
    requires Enabled(s, step)
  {
    match step
    case NewConnection => if l == LoopOf(s, s.nextConnId - 1) != BASE_LOOP then [RunEstablished(s.nextConnId)] else []
    case HandOver(k) =>
      var c := s.loops[k].pc.guard.c;
      if k != BASE_LOOP then (if l == BASE_LOOP then [RunRemove(c)] else [])
      else if l == s.conns[c].loop then [RunDestroyed(c)] else []
    case RunOne(k) =>
      var f := s.loops[k].batch[s.loops[k].pc.pos];
      if f.RunRemove? && l == s.conns[f.c].loop then [RunDestroyed(f.c)] else []
    case QueueNotify(c) => if l == s.conns[c].loop then [RunNotify(c)] else []
    case _ => []
  }

  /** The functor a step runs on loop `l`. */
  function RanOn(s: Server, step: Step, l: LoopId): seq<Functor>
    requires Enabled(s, step)
  {
    if step == RunOne(l) then [s.loops[l].batch[s.loops[l].pc.pos]] else []
  }

  function HandedInRun(s0: Server, run: seq<Step>, l: LoopId): seq<Functor>
    requires LegalRun(s0, run)
  {
    if run == [] then []
    else
      HandedInRun(s0, run[..|run| - 1], l) + HandedTo(RunServer(s0, run[..|run| - 1]), run[|run| - 1], l)
  }

  function RanInRun(s0: Server, run: seq<Step>, l: LoopId): seq<Functor>
    requires LegalRun(s0, run)
  {
    if run == [] then []
    else RanInRun(s0, run[..|run| - 1], l) + RanOn(RunServer(s0, run[..|run| - 1]), run[|run| - 1], l)
  }

  lemma QueueTodo(s: Server, k: LoopId, f: Functor, l: LoopId)
    requires k < |s.loops| && l < |s.loops|
    ensures |Queue(s, k, f).loops| == |s.loops|
    ensures Todo(Queue(s, k, f).loops[l]) == Todo(s.loops[l]) + if l == k then [f] else []
  {
  }

  /** What a loop has to do changes by what the step runs there and what it hands over. */
  ghost predicate TodoMoves(s: Server, step: Step, l: LoopId)
    requires Enabled(s, step) && l < |s.loops|
  {
    && |After(s, step).loops| == |s.loops|
    && RanOn(s, step, l) + Todo(After(s, step).loops[l]) == Todo(s.loops[l]) + HandedTo(s, step, l)
  }

  lemma NewConnectionTodo(s: Server, l: LoopId)
    requires Enabled(s, Step.NewConnection) && l < |s.loops|
    ensures TodoMoves(s, Step.NewConnection, l)
  {
    QueueTodo(Accept(s), LoopOf(s, s.nextConnId - 1), RunEstablished(s.nextConnId), l);
  }

  lemma NotifyTodo(s: Server, c: ConnId, l: LoopId)
    requires Enabled(s, QueueNotify(c)) && l < |s.loops|
    ensures TodoMoves(s, QueueNotify(c), l)
  {
    QueueTodo(s, s.conns[c].loop, RunNotify(c), l);
  }

  lemma RemoveTodo(s: Server, c: ConnId, l: LoopId)
    requires c in s.conns && s.conns[c].loop < |s.loops| && l < |s.loops|
    ensures |RemoveInLoop(s, c).loops| == |s.loops|
    ensures Todo(RemoveInLoop(s, c).loops[l]) == Todo(s.loops[l]) + if l == s.conns[c].loop then [RunDestroyed(c)] else []
  {
  }

  lemma HandOverTodo(s: Server, k: LoopId, l: LoopId)
    requires Enabled(s, HandOver(k)) && l < |s.loops|
    ensures TodoMoves(s, HandOver(k), l)
  {
    var pc := s.loops[k].pc;
    var moved := WithPc(s, k, pc.(guard := Held(pc.guard.c, HandedOver)));
    assert Todo(moved.loops[l]) == Todo(s.loops[l]);
    if k == BASE_LOOP {
      RemoveTodo(moved, pc.guard.c, l);
    } else {
      QueueTodo(WithConn(moved, pc.guard.c, s.conns[pc.guard.c].(phase := Handed)), BASE_LOOP, RunRemove(pc.guard.c), l);
    }
  }

  lemma AdvancedTodo(s: Server, k: LoopId, l: LoopId)
    requires Enabled(s, RunOne(k)) && l < |s.loops|
    ensures RanOn(s, RunOne(k), l) + Todo(WithPc(s, k, Running(s.loops[k].pc.pos + 1)).loops[l]) == Todo(s.loops[l])
  {
  }

  /** Of all the functors only a removal queues another. */
  lemma ExecuteTodo(s: Server, f: Functor, l: LoopId)
    requires f.c in s.conns && s.conns[f.c].loop < |s.loops| && l < |s.loops|
    ensures |Execute(s, f).loops| == |s.loops|
    ensures Todo(Execute(s, f).loops[l]) ==
            Todo(s.loops[l]) + if f.RunRemove? && l == s.conns[f.c].loop then [RunDestroyed(f.c)] else []
  {
    if f.RunRemove? {
      RemoveTodo(s, f.c, l);
    }
  }

  lemma RunOneTodo(s: Server, k: LoopId, l: LoopId)
    requires Enabled(s, RunOne(k)) && l < |s.loops|
    ensures TodoMoves(s, RunOne(k), l)
  {
    var moved := WithPc(s, k, Running(s.loops[k].pc.pos + 1));
    AdvancedTodo(s, k, l);
    ExecuteTodo(moved, s.loops[k].batch[s.loops[k].pc.pos], l);
    assert RanOn(s, RunOne(k), l) + (Todo(moved.loops[l]) + HandedTo(s, RunOne(k), l))
        == (RanOn(s, RunOne(k), l) + Todo(moved.loops[l])) + HandedTo(s, RunOne(k), l);
  }

  lemma TodoStep(s: Server, step: Step, l: LoopId)
    requires Enabled(s, step) && l < |s.loops| && PcOk(s.conns, l, s.loops[l])
    ensures TodoMoves(s, step, l)
  {
    match step
    case NewConnection => NewConnectionTodo(s, l);
    case HandOver(k) => HandOverTodo(s, k, l);
    case RunOne(k) => RunOneTodo(s, k, l);
    case QueueNotify(c) => NotifyTodo(s, c, l);
    case _ => QuietTodo(s, step, l);
  }

  lemma QuietTodo(s: Server, step: Step, l: LoopId)
    requires Enabled(s, step) && l < |s.loops| && PcOk(s.conns, l, s.loops[l])
    requires !step.NewConnection? && !step.HandOver? && !step.RunOne? && !step.QueueNotify?
    ensures TodoMoves(s, step, l)
  {
  }

  lemma Exchange<T>(ran: seq<T>, now: seq<T>, after: seq<T>, before: seq<T>, handed: seq<T>, all: seq<T>)
    requires ran + before == all && now + after == before + handed
    ensures (ran + now) + after == all + handed
  {
    assert (ran + now) + after == ran + (now + after);
    assert ran + (before + handed) == (ran + before) + handed;
  }

  /** Each loop runs what it is handed in the order it is handed it, and exactly once. */
  lemma {:induction false} EachFunctorRunsOnce(s0: Server, run: seq<Step>, l: LoopId)
    requires Inv(s0) && LegalRun(s0, run) && l < |s0.loops| && Todo(s0.loops[l]) == []
    ensures |RunServer(s0, run).loops| == |s0.loops|
    ensures RanInRun(s0, run, l) + Todo(RunServer(s0, run).loops[l]) == HandedInRun(s0, run, l)
  {
    if run != [] {
      var before := run[..|run| - 1];
      EachFunctorRunsOnce(s0, before, l);
      RunKeepsInv(s0, before);
      var s, step := RunServer(s0, before), run[|run| - 1];
      assert LoopOk(s.conns, l, s.loops[l]);
      TodoStep(s, step, l);
      Exchange(RanInRun(s0, before, l), RanOn(s, step, l), Todo(After(s, step).loops[l]), Todo(s.loops[l]),
        HandedTo(s, step, l), HandedInRun(s0, before, l));
    }
  }

  ghost predicate KeptSince(run: seq<Step>, i: int, c: ConnId) {
    0 <= i < |run| && run[i] == UserTake(c) && forall j | i < j < |run| :: run[j] != UserDrop(c)
  }

  /** Taken at some point, and not dropped since. */
  ghost predicate KeptByUser(run: seq<Step>, c: ConnId) {
    exists i :: KeptSince(run, i, c)
  }

  lemma KeptSinceStep(run: seq<Step>, step: Step, i: int, c: ConnId)
    ensures KeptSince(run + [step], i, c) <==>
            if i == |run| then step == UserTake(c) else step != UserDrop(c) && KeptSince(run, i, c)
  {
    var all := run + [step];
    assert all[|run|] == step && forall j | 0 <= j < |run| :: all[j] == run[j];
  }

  lemma KeptStep(run: seq<Step>, step: Step, c: ConnId)
    ensures KeptByUser(run + [step], c) <==> step == UserTake(c) || (step != UserDrop(c) && KeptByUser(run, c))
  {
    forall i ensures KeptSince(run + [step], i, c) <==>
                     if i == |run| then step == UserTake(c) else step != UserDrop(c) && KeptSince(run, i, c) {
      KeptSinceStep(run, step, i, c);
    }
    assert step == UserTake(c) ==> KeptSince(run + [step], |run|, c);
  }

  lemma UserRefsStep(s: Server, step: Step, c: ConnId)
    requires Enabled(s, step)
    ensures c in After(s, step).userRefs <==>
            step == UserTake(c) || (step != UserDrop(c) && c in s.userRefs)
  {
  }

  lemma {:induction false} UserRefsAreKept(s0: Server, run: seq<Step>, c: ConnId)
    requires LegalRun(s0, run) && s0.userRefs == {}
    ensures c in RunServer(s0, run).userRefs <==> KeptByUser(run, c)
  {
    if run != [] {
      var before, step := run[..|run| - 1], run[|run| - 1];
      UserRefsAreKept(s0, before, c);
      KeptStep(before, step, c);
      assert run == before + [step];
      UserRefsStep(RunServer(s0, before), step, c);
    }
  }

  /** A connection the user has kept is still there, whatever happened to it meanwhile. */
  lemma KeptIsAlive(name: string, ipPort: string, ioLoops: nat, run: seq<Step>, c: ConnId)
    requires |ipPort| <= 51 && LegalRun(Initial(name, ipPort, ioLoops), run) && KeptByUser(run, c)
    ensures c !in RunServer(Initial(name, ipPort, ioLoops), run).dead
  {
    var s0 := Initial(name, ipPort, ioLoops);
    assert ReachedBy(RunServer(s0, run), name, ipPort, ioLoops, run);
    ReachableInv(RunServer(s0, run));
    UserRefsAreKept(s0, run, c);
    assert Owned(RunServer(s0, run), c);
  }

  lemma DeadStep(s: Server, step: Step, c: ConnId)
    requires Enabled(s, step)
    ensures c in After(s, step).dead <==> c in s.dead || step == Reclaim(c)
  {
  }

  /** An object is destroyed when its destructor runs, and then for good. */
  lemma {:induction false} DestroyedIsReclaimed(s0: Server, run: seq<Step>, c: ConnId)
    requires LegalRun(s0, run) && s0.dead == {}
    ensures c in RunServer(s0, run).dead <==> Reclaim(c) in run
  {
    if run != [] {
      var before, step := run[..|run| - 1], run[|run| - 1];
      DestroyedIsReclaimed(s0, before, c);
      DeadStep(RunServer(s0, before), step, c);
      assert run == before + [step];
    }
  }
}

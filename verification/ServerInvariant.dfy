// The invariant behind the lifetime results, and the proof that every step of every thread keeps it.

module ServerInvariant {
  import opened EpollSpec
  import opened ConnectionSpec
  import opened ThreadPool
  import opened ServerSpec

  // ---------------------------------------------------------------------------------------------
  // The invariant
  // ---------------------------------------------------------------------------------------------

  /** What the fields of a connection are at each point of its life. */
  ghost predicate RecordOk(r: ConnRecord) {
    match r.phase
    case Waiting =>
      r.state == Connecting && r.index == New && r.trace == [] && r.closes == r.erases == r.destroys == 0
    case Live =>
      && (r.state == Connected || r.state == Disconnecting) && r.index == Added && r.trace == [Up]
      && r.closes == r.erases == r.destroys == 0
    case Closing => ClosedRecord(r) && r.index == Deleted && r.erases == r.destroys == 0
    case Handed => ClosedRecord(r) && r.index == Deleted && r.erases == r.destroys == 0
    case Erased => ClosedRecord(r) && r.index == Deleted && r.erases == 1 && r.destroys == 0
    case Gone => ClosedRecord(r) && r.index == New && r.erases == 1 && r.destroys == 1
  }

  ghost predicate ClosedRecord(r: ConnRecord) {
    r.state == Disconnected && r.trace == [Up, Down] && r.closes == 1
  }

  predicate Listed(phase: Phase) {
    phase == Waiting || phase == Live || phase == Closing || phase == Handed
  }

  /** A functor still to run on loop `l` finds its connection where it should be. */
  ghost predicate FunctorOk(conns: map<ConnId, ConnRecord>, l: LoopId, f: Functor) {
    f.c in conns &&
    match f
    case RunEstablished(c) => conns[c].phase == Waiting && conns[c].loop == l
    case RunRemove(c) => conns[c].phase == Handed && l == BASE_LOOP
    case RunDestroyed(c) => conns[c].phase == Erased && conns[c].loop == l
    case RunNotify(c) => conns[c].loop == l
  }

  ghost predicate TodoOk(conns: map<ConnId, ConnRecord>, l: LoopId, todo: seq<Functor>) {
    && (forall f <- todo :: FunctorOk(conns, l, f))
    && (forall f <- todo :: !f.RunNotify? ==> multiset(todo)[f] == 1)
  }

  ghost predicate PcOk(conns: map<ConnId, ConnRecord>, l: LoopId, loop: Loop) {
    match loop.pc
    case Polling => loop.batch == []
    case Running(pos) => pos <= |loop.batch|
    case Dispatching(active, guard) =>
      && loop.batch == []
      && (forall c <- active :: c in conns && conns[c].loop == l && conns[c].phase == Live)
      && (forall i, j :: 0 <= i < j < |active| ==> active[i] != active[j])
      && (guard.Held? ==>
            && guard.c in conns && conns[guard.c].loop == l && guard.c !in active
            && match guard.stage
               case Serving => conns[guard.c].phase == Live
               case Marked => conns[guard.c].phase == Closing
               case HandedOver => conns[guard.c].phase == Handed || conns[guard.c].phase == Erased)
  }

  ghost predicate LoopOk(conns: map<ConnId, ConnRecord>, l: LoopId, loop: Loop) {
    PcOk(conns, l, loop) && TodoOk(conns, l, Todo(loop))
  }

  /** A connection is listed in the map, or a functor that will move it on is on its way. */
  ghost predicate ConnOk(s: Server, c: ConnId)
    requires c in s.conns
  {
    var r := s.conns[c];
    && 0 < c < s.nextConnId
    && r.loop < |s.loops|
    && RecordOk(r)
    && (Listed(r.phase) <==> ConnName(s.name, s.ipPort, c) in s.connections)
    && (r.phase == Waiting ==> RunEstablished(c) in Todo(s.loops[r.loop]))
    && (r.phase == Closing ==>
          s.loops[r.loop].pc.Dispatching? && s.loops[r.loop].pc.guard == Held(c, Marked))
    && (r.phase == Handed ==> RunRemove(c) in Todo(s.loops[BASE_LOOP]))
    && (r.phase == Erased ==> RunDestroyed(c) in Todo(s.loops[r.loop]))
  }

  ghost predicate TableOk(s: Server) {
    forall name <- s.connections ::
      s.connections[name] in s.conns && name == ConnName(s.name, s.ipPort, s.connections[name])
  }

  ghost predicate DeadOk(s: Server) {
    forall c <- s.dead :: c in s.conns && !Owned(s, c)
  }

  ghost predicate Inv(s: Server) {
    && s.loops != [] && 0 < s.nextConnId <= ID_LIMIT && |s.ipPort| <= 51
    && (forall c <- s.conns :: ConnOk(s, c))
    && (forall l :: 0 <= l < |s.loops| ==> LoopOk(s.conns, l, s.loops[l]))
    && TableOk(s)
    && DeadOk(s)
  }

  lemma InitialInv(name: string, ipPort: string, ioLoops: nat)
    requires |ipPort| <= 51
    ensures Inv(Initial(name, ipPort, ioLoops))
  {
  }

  // ---------------------------------------------------------------------------------------------
  // What the invariant says
  // ---------------------------------------------------------------------------------------------

  /** A raw pointer to the connection's channel is somewhere it can be followed: the poller's map, the
      kernel, or the list of channels being dispatched. */
  predicate PointedAt(s: Server, c: ConnId)
    requires c in s.conns
  {
    || !s.conns[c].index.New?
    || (exists loop <- s.loops :: loop.pc.Dispatching? &&
         (c in loop.pc.active || (loop.pc.guard.Held? && loop.pc.guard.c == c)))
  }

  lemma PointedAtIsOwned(s: Server, c: ConnId)
    requires Inv(s) && c in s.conns && PointedAt(s, c)
    ensures Owned(s, c) && c !in s.dead
  {
    var r := s.conns[c];
    assert ConnOk(s, c);
    if r.phase == Gone {
      assert false;
    } else if Listed(r.phase) {
      var name := ConnName(s.name, s.ipPort, c);
      NameInjective(s.name, s.ipPort, s.connections[name], c);
      assert s.connections[name] == c;
    } else {
      var loop := s.loops[r.loop];
      assert RunDestroyed(c) in Todo(loop);
      TodoHoldsRef(loop, RunDestroyed(c));
    }
  }

  lemma TodoHoldsRef(loop: Loop, f: Functor)
    requires f in Todo(loop)
    ensures HoldsRef(loop, f.c)
  {
  }

  // ---------------------------------------------------------------------------------------------
  // Every step keeps the invariant
  // ---------------------------------------------------------------------------------------------

  lemma TodoQueued(loop: Loop, f: Functor)
    ensures Todo(loop.(pending := loop.pending + [f])) == Todo(loop) + [f]
  {
  }

  lemma TodoRun(loop: Loop)
    requires loop.pc.Running? && loop.pc.pos < |loop.batch|
    ensures Todo(loop) == [loop.batch[loop.pc.pos]] + Todo(loop.(pc := Running(loop.pc.pos + 1)))
  {
  }

  lemma TodoOkQueued(conns: map<ConnId, ConnRecord>, l: LoopId, todo: seq<Functor>, f: Functor)
    requires TodoOk(conns, l, todo) && FunctorOk(conns, l, f) && (f.RunNotify? || f !in todo)
    ensures TodoOk(conns, l, todo + [f])
  {
  }

  lemma TodoOkRun(conns: map<ConnId, ConnRecord>, l: LoopId, f: Functor, todo: seq<Functor>)
    requires TodoOk(conns, l, [f] + todo)
    ensures TodoOk(conns, l, todo) && (!f.RunNotify? ==> f !in todo)
  {
    assert multiset([f] + todo) == multiset([f]) + multiset(todo);
    assert forall g <- todo :: g in [f] + todo;
    assert f in [f] + todo;
  }

  /** The loop's own data depends on where the connection stands. */
  predicate Mentions(loop: Loop, c: ConnId) {
    || (exists f <- Todo(loop) :: f.c == c && !f.RunNotify?)
    || (loop.pc.Dispatching? && (c in loop.pc.active || (loop.pc.guard.Held? && loop.pc.guard.c == c)))
  }

  lemma MentionedWhere(conns: map<ConnId, ConnRecord>, l: LoopId, loop: Loop, c: ConnId)
    requires LoopOk(conns, l, loop) && c in conns && Mentions(loop, c)
    ensures l == conns[c].loop || (l == BASE_LOOP && conns[c].phase == Handed)
  {
  }

  lemma LoopUnaffected(conns: map<ConnId, ConnRecord>, l: LoopId, loop: Loop, c: ConnId, r: ConnRecord)
    requires LoopOk(conns, l, loop) && !Mentions(loop, c)
    requires c in conns && r.loop == conns[c].loop
    ensures LoopOk(conns[c := r], l, loop)
  {
  }

  /** What connection `c` relies on in a loop is still there. */
  predicate Keeps(before: Loop, after: Loop, c: ConnId) {
    && (forall f <- Todo(before) :: f.c == c && !f.RunNotify? ==> f in Todo(after))
    && (before.pc.Dispatching? && before.pc.guard == Held(c, Marked) ==>
          after.pc.Dispatching? && after.pc.guard == Held(c, Marked))
  }

  predicate SameFrame(s: Server, s': Server) {
    && s'.name == s.name && s'.ipPort == s.ipPort && |s'.loops| == |s.loops|
    && s.nextConnId <= s'.nextConnId && s'.dead == s.dead
  }

  lemma ConnUnaffected(s: Server, s': Server, c: ConnId)
    requires c in s.conns && ConnOk(s, c) && SameFrame(s, s') && s.loops != []
    requires c in s'.conns && s'.conns[c] == s.conns[c]
    requires ConnName(s.name, s.ipPort, c) in s.connections <==> ConnName(s.name, s.ipPort, c) in s'.connections
    requires forall k :: 0 <= k < |s.loops| ==> Keeps(s.loops[k], s'.loops[k], c)
    ensures ConnOk(s', c)
  {
    var r := s.conns[c];
    assert Keeps(s.loops[r.loop], s'.loops[r.loop], c);
    assert Keeps(s.loops[BASE_LOOP], s'.loops[BASE_LOOP], c);
  }

  /** References only spread from connections that still have one. */
  predicate NoNewRefs(before: Loop, after: Loop, dead: set<ConnId>) {
    forall c <- dead :: HoldsRef(after, c) ==> HoldsRef(before, c)
  }

  lemma DeadStayDead(s: Server, s': Server)
    requires DeadOk(s) && SameFrame(s, s') && s.conns.Keys <= s'.conns.Keys
    requires forall c <- s.dead ::
      (c in s'.connections.Values ==> c in s.connections.Values) && (c in s'.userRefs ==> c in s.userRefs)
    requires forall k :: 0 <= k < |s.loops| ==> NoNewRefs(s.loops[k], s'.loops[k], s.dead)
    ensures DeadOk(s')
  {
    forall c <- s'.dead, loop <- s'.loops
      ensures !HoldsRef(loop, c)
    {
      var k :| 0 <= k < |s'.loops| && s'.loops[k] == loop;
      assert NoNewRefs(s.loops[k], s'.loops[k], s.dead);
      assert s.loops[k] in s.loops && !Owned(s, c);
    }
    assert forall c <- s'.dead :: !Owned(s, c);
  }

  /** A step that changes nothing but one loop. */
  lemma OneLoopStep(s: Server, l: LoopId, loop: Loop)
    requires Inv(s) && l < |s.loops| && LoopOk(s.conns, l, loop)
    requires forall f <- Todo(s.loops[l]) :: !f.RunNotify? ==> f in Todo(loop)
    requires s.loops[l].pc.Dispatching? && s.loops[l].pc.guard.Held? && s.loops[l].pc.guard.stage == Marked ==>
               loop.pc.Dispatching? && loop.pc.guard == s.loops[l].pc.guard
    requires NoNewRefs(s.loops[l], loop, s.dead)
    ensures Inv(s.(loops := s.loops[l := loop]))
  {
    var s' := s.(loops := s.loops[l := loop]);
    forall c <- s'.conns
      ensures ConnOk(s', c)
    {
      assert forall k :: 0 <= k < |s.loops| ==> Keeps(s.loops[k], s'.loops[k], c);
      ConnUnaffected(s, s', c);
    }
    DeadStayDead(s, s');
  }

  lemma LiveIfRegistered(s: Server, c: ConnId)
    requires Inv(s) && c in s.conns && s.conns[c].index.Added?
    ensures s.conns[c].phase == Live
  {
    assert ConnOk(s, c);
  }

  lemma PollReturnKeepsInv(s: Server, l: LoopId, ready: seq<ConnId>)
    requires Inv(s) && Enabled(s, PollReturn(l, ready))
    ensures Inv(After(s, PollReturn(l, ready)))
  {
    assert LoopOk(s.conns, l, s.loops[l]);
    forall c <- ready
      ensures s.conns[c].phase == Live
    {
      LiveIfRegistered(s, c);
    }
    OneLoopStep(s, l, s.loops[l].(pc := Dispatching(ready, NoGuard)));
  }

  lemma ActiveIsAlive(s: Server, l: LoopId)
    requires Inv(s) && Enabled(s, BeginDispatch(l))
    ensures s.loops[l].pc.active[0] !in s.dead
  {
    assert LoopOk(s.conns, l, s.loops[l]);
    var c := s.loops[l].pc.active[0];
    assert c in s.loops[l].pc.active && ConnOk(s, c);
    PointedAtIsOwned(s, c);
  }

  lemma BeginDispatchKeepsInv(s: Server, l: LoopId)
    requires Inv(s) && Enabled(s, BeginDispatch(l))
    ensures Inv(After(s, BeginDispatch(l)))
  {
    ActiveIsAlive(s, l);
    assert LoopOk(s.conns, l, s.loops[l]);
    var active := s.loops[l].pc.active;
    assert active == [active[0]] + active[1..];
    OneLoopStep(s, l, s.loops[l].(pc := Dispatching(active[1..], Held(active[0], Serving))));
  }

  lemma EndDispatchKeepsInv(s: Server, l: LoopId)
    requires Inv(s) && Enabled(s, EndDispatch(l))
    ensures Inv(After(s, EndDispatch(l)))
  {
    assert LoopOk(s.conns, l, s.loops[l]);
    OneLoopStep(s, l, s.loops[l].(pc := s.loops[l].pc.(guard := NoGuard)));
  }

  lemma BeginBatchKeepsInv(s: Server, l: LoopId)
    requires Inv(s) && Enabled(s, BeginBatch(l))
    ensures Inv(After(s, BeginBatch(l)))
  {
    assert LoopOk(s.conns, l, s.loops[l]);
    var loop := Loop([], s.loops[l].pending, Running(0));
    assert Todo(loop) == Todo(s.loops[l]);
    OneLoopStep(s, l, loop);
  }

  lemma EndBatchKeepsInv(s: Server, l: LoopId)
    requires Inv(s) && Enabled(s, EndBatch(l))
    ensures Inv(After(s, EndBatch(l)))
  {
    assert LoopOk(s.conns, l, s.loops[l]);
    var loop := s.loops[l].(batch := [], pc := Pc.Polling);
    assert Todo(loop) == Todo(s.loops[l]);
    OneLoopStep(s, l, loop);
  }

  lemma QueueNotifyKeepsInv(s: Server, c: ConnId)
    requires Inv(s) && Enabled(s, QueueNotify(c))
    ensures Inv(After(s, QueueNotify(c)))
  {
    var l := s.conns[c].loop;
    var loop := s.loops[l].(pending := s.loops[l].pending + [RunNotify(c)]);
    assert LoopOk(s.conns, l, s.loops[l]);
    TodoQueued(s.loops[l], RunNotify(c));
    TodoOkQueued(s.conns, l, Todo(s.loops[l]), RunNotify(c));
    OneLoopStep(s, l, loop);
  }

  /** What every other connection relies on in a loop is still there, and no reference to a dead
      connection has appeared. */
  predicate KeepsOthers(before: Loop, after: Loop, c: ConnId, dead: set<ConnId>) {
    && (forall f <- Todo(before) :: f.c != c && !f.RunNotify? ==> f in Todo(after))
    && (before.pc.Dispatching? && before.pc.guard.Held? && before.pc.guard.c != c && before.pc.guard.stage == Marked ==>
          after.pc.Dispatching? && after.pc.guard == before.pc.guard)
    && NoNewRefs(before, after, dead)
  }

  /** A step that moves connection `c` on, and with it at most the loops `l` and `m`. */
  lemma OneConnStep(s: Server, s': Server, c: ConnId, l: LoopId, m: LoopId)
    requires Inv(s) && MovesOne(s, s', c, l, m)
    requires s.conns[c].loop == l && (s.conns[c].phase == Handed ==> l == BASE_LOOP || m == BASE_LOOP)
    requires ConnOk(s', c)
    requires LoopOk(s'.conns, l, s'.loops[l]) && KeepsOthers(s.loops[l], s'.loops[l], c, s.dead)
    requires LoopOk(s'.conns, m, s'.loops[m]) && KeepsOthers(s.loops[m], s'.loops[m], c, s.dead)
    ensures Inv(s')
  {
    OtherLoopsOk(s, s', c, l, m);
    forall d <- s'.conns
      ensures ConnOk(s', d)
    {
      if d != c {
        OtherConnOk(s, s', c, d, l, m);
      }
    }
    forall k | 0 <= k < |s.loops|
      ensures NoNewRefs(s.loops[k], s'.loops[k], s.dead)
    {
      if k != l && k != m { assert s'.loops[k] == s.loops[k]; }
    }
    DeadStayDead(s, s');
  }

  lemma OtherConnOk(s: Server, s': Server, c: ConnId, d: ConnId, l: LoopId, m: LoopId)
    requires Inv(s) && SameFrame(s, s') && d in s.conns && c in s.conns && d != c
    requires d in s'.conns && s'.conns[d] == s.conns[d]
    requires s'.connections == s.connections || s'.connections == s.connections - {ConnName(s.name, s.ipPort, c)}
    requires l < |s.loops| && m < |s.loops| && s'.loops == s.loops[l := s'.loops[l]][m := s'.loops[m]]
    requires KeepsOthers(s.loops[l], s'.loops[l], c, s.dead) && KeepsOthers(s.loops[m], s'.loops[m], c, s.dead)
    ensures ConnOk(s', d)
  {
    assert ConnOk(s, d) && ConnOk(s, c);
    if ConnName(s.name, s.ipPort, d) == ConnName(s.name, s.ipPort, c) {
      NameInjective(s.name, s.ipPort, d, c);
    }
    forall k | 0 <= k < |s.loops|
      ensures Keeps(s.loops[k], s'.loops[k], d)
    {
      if k != l && k != m { assert s'.loops[k] == s.loops[k]; }
    }
    ConnUnaffected(s, s', d);
  }

  /** What OneConnStep asks of a step besides its effect on the loops. */
  predicate MovesOne(s: Server, s': Server, c: ConnId, l: LoopId, m: LoopId) {
    && SameFrame(s, s') && s'.nextConnId == s.nextConnId && s'.userRefs == s.userRefs
    && c in s.conns && c in s'.conns && s'.conns == s.conns[c := s'.conns[c]]
    && s'.conns[c].loop == s.conns[c].loop
    && (s'.connections == s.connections || s'.connections == s.connections - {ConnName(s.name, s.ipPort, c)})
    && l < |s.loops| && m < |s.loops| && s'.loops == s.loops[l := s'.loops[l]][m := s'.loops[m]]
  }

  /** The loops that did not change do not depend on the connection that moved. */
  lemma OtherLoopsOk(s: Server, s': Server, c: ConnId, l: LoopId, m: LoopId)
    requires Inv(s) && c in s.conns && c in s'.conns && s'.conns == s.conns[c := s'.conns[c]]
    requires s'.conns[c].loop == s.conns[c].loop
    requires l < |s.loops| && m < |s.loops| && |s'.loops| == |s.loops|
    requires s'.loops == s.loops[l := s'.loops[l]][m := s'.loops[m]]
    requires s.conns[c].loop == l && (s.conns[c].phase == Handed ==> l == BASE_LOOP || m == BASE_LOOP)
    requires LoopOk(s'.conns, l, s'.loops[l]) && LoopOk(s'.conns, m, s'.loops[m])
    ensures forall k :: 0 <= k < |s'.loops| ==> LoopOk(s'.conns, k, s'.loops[k])
  {
    forall k | 0 <= k < |s'.loops|
      ensures LoopOk(s'.conns, k, s'.loops[k])
    {
      if k != l && k != m {
        assert LoopOk(s.conns, k, s.loops[k]);
        if Mentions(s.loops[k], c) {
          MentionedWhere(s.conns, k, s.loops[k], c);
        }
        LoopUnaffected(s.conns, k, s.loops[k], c, s'.conns[c]);
      }
    }
  }

  lemma GuardedIsAlive(s: Server, l: LoopId)
    requires Inv(s) && l < |s.loops| && s.loops[l].pc.Dispatching? && s.loops[l].pc.guard.Held?
    ensures s.loops[l].pc.guard.c in s.conns && s.loops[l].pc.guard.c !in s.dead
  {
    assert LoopOk(s.conns, l, s.loops[l]);
    PointedAtIsOwned(s, s.loops[l].pc.guard.c);
  }

  lemma UserShutdownKeepsInv(s: Server, c: ConnId)
    requires Inv(s) && Enabled(s, Step.UserShutdown(c))
    ensures Inv(After(s, Step.UserShutdown(c)))
  {
    var s' := After(s, Step.UserShutdown(c));
    assert ConnOk(s, c);
    if s.conns[c].state == Connected {
      var l := s.conns[c].loop;
      assert LoopOk(s.conns, l, s.loops[l]);
      SamePhaseLoopOk(s.conns, l, s.loops[l], c, s'.conns[c]);
      OneConnStep(s, s', c, l, l);
    }
  }

  lemma SamePhaseLoopOk(conns: map<ConnId, ConnRecord>, l: LoopId, loop: Loop, c: ConnId, r: ConnRecord)
    requires LoopOk(conns, l, loop) && c in conns && r.phase == conns[c].phase && r.loop == conns[c].loop
    ensures LoopOk(conns[c := r], l, loop)
  {
  }

  lemma MarkClosedKeepsInv(s: Server, l: LoopId)
    requires Inv(s) && Enabled(s, MarkClosed(l))
    ensures Inv(After(s, MarkClosed(l)))
  {
    var s' := After(s, MarkClosed(l));
    var c := s.loops[l].pc.guard.c;
    GuardedIsAlive(s, l);
    assert LoopOk(s.conns, l, s.loops[l]) && ConnOk(s, c);
    assert Todo(s'.loops[l]) == Todo(s.loops[l]);
    assert LoopOk(s'.conns, l, s'.loops[l]) by {
      GuardMovesOn(s.conns, l, s.loops[l], c, s'.conns[c], Marked);
    }
    OneConnStep(s, s', c, l, l);
  }

  /** The loop dispatching a connection has nothing queued that depends on where it stood. */
  lemma GuardMovesOn(conns: map<ConnId, ConnRecord>, l: LoopId, loop: Loop, c: ConnId, r: ConnRecord, stage: Stage)
    requires LoopOk(conns, l, loop) && loop.pc.Dispatching? && loop.pc.guard.Held? && loop.pc.guard.c == c
    requires c in conns && r.loop == l
    requires (conns[c].phase == Live && stage == Marked && r.phase == Closing)
          || (conns[c].phase == Closing && stage == HandedOver && (r.phase == Handed || r.phase == Erased))
    ensures LoopOk(conns[c := r], l, loop.(pc := loop.pc.(guard := Held(c, stage))))
  {
    assert Todo(loop.(pc := loop.pc.(guard := Held(c, stage)))) == Todo(loop);
  }

  lemma HandOverDirectlyOk(s: Server, s': Server, c: ConnId)
    requires s.loops != [] && LoopOk(s.conns, BASE_LOOP, s.loops[BASE_LOOP])
    requires Enabled(s, HandOver(BASE_LOOP)) && c == s.loops[BASE_LOOP].pc.guard.c && ConnOk(s, c)
    requires c !in s.dead && s' == After(s, HandOver(BASE_LOOP))
    ensures s.conns[c].loop == BASE_LOOP && s.conns[c].phase == Closing && ConnOk(s', c)
    ensures LoopOk(s'.conns, BASE_LOOP, s'.loops[BASE_LOOP])
    ensures KeepsOthers(s.loops[BASE_LOOP], s'.loops[BASE_LOOP], c, s.dead)
  {
    var l := BASE_LOOP;
    var dispatching := s.loops[l].(pc := s.loops[l].pc.(guard := Held(c, HandedOver)));
    GuardMovesOn(s.conns, l, s.loops[l], c, s'.conns[c], HandedOver);
    NotQueuedYet(s.conns, l, s.loops[l], RunDestroyed(c));
    TodoQueued(dispatching, RunDestroyed(c));
    assert Todo(dispatching) == Todo(s.loops[l]);
    TodoOkQueued(s'.conns, l, Todo(dispatching), RunDestroyed(c));
  }

  /** Handing a connection over to the base loop, as the base loop sees it. */
  lemma RemoveQueuedOk(conns: map<ConnId, ConnRecord>, base: Loop, c: ConnId, r: ConnRecord, dead: set<ConnId>)
    requires LoopOk(conns, BASE_LOOP, base) && c in conns && c !in dead
    requires conns[c].phase == Closing && r.loop == conns[c].loop != BASE_LOOP && r.phase == Handed
    ensures var queued := base.(pending := base.pending + [RunRemove(c)]);
            && LoopOk(conns[c := r], BASE_LOOP, queued) && RunRemove(c) in Todo(queued)
            && KeepsOthers(base, queued, c, dead)
  {
    if Mentions(base, c) {
      MentionedWhere(conns, BASE_LOOP, base, c);
    }
    LoopUnaffected(conns, BASE_LOOP, base, c, r);
    NotQueuedYet(conns, BASE_LOOP, base, RunRemove(c));
    TodoQueued(base, RunRemove(c));
    TodoOkQueued(conns[c := r], BASE_LOOP, Todo(base), RunRemove(c));
  }

  lemma HandOverQueuedOk(s: Server, s': Server, l: LoopId, c: ConnId)
    requires l < |s.loops| && l != BASE_LOOP
    requires LoopOk(s.conns, l, s.loops[l]) && LoopOk(s.conns, BASE_LOOP, s.loops[BASE_LOOP])
    requires Enabled(s, HandOver(l)) && c == s.loops[l].pc.guard.c && ConnOk(s, c)
    requires c !in s.dead && s' == After(s, HandOver(l))
    ensures s.conns[c].loop == l && s.conns[c].phase == Closing && ConnOk(s', c)
    ensures LoopOk(s'.conns, l, s'.loops[l]) && KeepsOthers(s.loops[l], s'.loops[l], c, s.dead)
    ensures LoopOk(s'.conns, BASE_LOOP, s'.loops[BASE_LOOP])
    ensures KeepsOthers(s.loops[BASE_LOOP], s'.loops[BASE_LOOP], c, s.dead)
  {
    GuardMovesOn(s.conns, l, s.loops[l], c, s'.conns[c], HandedOver);
    RemoveQueuedOk(s.conns, s.loops[BASE_LOOP], c, s'.conns[c], s.dead);
  }

  lemma HandOverMoves(s: Server, l: LoopId)
    requires Enabled(s, HandOver(l))
    requires l == BASE_LOOP ==> s.conns[s.loops[l].pc.guard.c].loop == l
    ensures MovesOne(s, After(s, HandOver(l)), s.loops[l].pc.guard.c, l, BASE_LOOP)
  {
  }

  lemma HandOverDirectly(s: Server, s': Server, c: ConnId)
    requires Inv(s) && Enabled(s, HandOver(BASE_LOOP)) && c == s.loops[BASE_LOOP].pc.guard.c
    requires s' == After(s, HandOver(BASE_LOOP))
    ensures Inv(s')
  {
    GuardedIsAlive(s, BASE_LOOP);
    HandOverDirectlyOk(s, s', c);
    HandOverMoves(s, BASE_LOOP);
    OneConnStep(s, s', c, BASE_LOOP, BASE_LOOP);
  }

  lemma HandOverQueued(s: Server, s': Server, l: LoopId, c: ConnId)
    requires Inv(s) && l != BASE_LOOP && Enabled(s, HandOver(l)) && c == s.loops[l].pc.guard.c
    requires s' == After(s, HandOver(l))
    ensures Inv(s')
  {
    GuardedIsAlive(s, l);
    HandOverQueuedOk(s, s', l, c);
    HandOverMoves(s, l);
    OneConnStep(s, s', c, l, BASE_LOOP);
  }

  lemma HandOverKeepsInv(s: Server, l: LoopId)
    requires Inv(s) && Enabled(s, HandOver(l))
    ensures Inv(After(s, HandOver(l)))
  {
    if l == BASE_LOOP {
      HandOverDirectly(s, After(s, HandOver(l)), s.loops[l].pc.guard.c);
    } else {
      HandOverQueued(s, After(s, HandOver(l)), l, s.loops[l].pc.guard.c);
    }
  }

  /** A hand-off functor is queued only in the phase it waits for. */
  lemma NotQueuedYet(conns: map<ConnId, ConnRecord>, l: LoopId, loop: Loop, f: Functor)
    requires LoopOk(conns, l, loop) && !f.RunNotify? && !FunctorOk(conns, l, f)
    ensures f !in Todo(loop)
  {
  }

  lemma RunnableIsAlive(s: Server, l: LoopId)
    requires Inv(s) && Enabled(s, RunOne(l))
    ensures s.loops[l].batch[s.loops[l].pc.pos].c !in s.dead
  {
    var f := s.loops[l].batch[s.loops[l].pc.pos];
    assert f in s.loops[l].batch && s.loops[l] in s.loops;
    assert HoldsRef(s.loops[l], f.c);
  }

  /** The functor at the head of the batch, and the loop once it has been taken. */
  function Popped(loop: Loop): Loop
    requires loop.pc.Running?
  {
    loop.(pc := Running(loop.pc.pos + 1))
  }

  /** A loop that has taken its head functor is in order... */
  lemma PoppedLoopOk(conns: map<ConnId, ConnRecord>, l: LoopId, loop: Loop, f: Functor)
    requires LoopOk(conns, l, loop) && loop.pc.Running? && loop.pc.pos < |loop.batch|
    requires f == loop.batch[loop.pc.pos]
    ensures FunctorOk(conns, l, f) && LoopOk(conns, l, Popped(loop))
    ensures Todo(loop) == [f] + Todo(Popped(loop)) && (!f.RunNotify? ==> f !in Todo(Popped(loop)))
  {
    TodoRun(loop);
    assert f in Todo(loop);
    TodoOkRun(conns, l, f, Todo(Popped(loop)));
  }

  /** ... and no longer depends on that functor's connection. */
  lemma PoppedOk(conns: map<ConnId, ConnRecord>, l: LoopId, loop: Loop, f: Functor, dead: set<ConnId>)
    requires LoopOk(conns, l, loop) && loop.pc.Running? && loop.pc.pos < |loop.batch|
    requires f == loop.batch[loop.pc.pos]
    ensures FunctorOk(conns, l, f) && LoopOk(conns, l, Popped(loop))
    ensures !f.RunNotify? ==> !Mentions(Popped(loop), f.c)
    ensures KeepsOthers(loop, Popped(loop), f.c, dead)
  {
    PoppedLoopOk(conns, l, loop, f);
    HeadOnly(conns, l, loop, f);
  }

  lemma HeadOnly(conns: map<ConnId, ConnRecord>, l: LoopId, loop: Loop, f: Functor)
    requires loop.pc.Running? && Todo(loop) == [f] + Todo(Popped(loop))
    requires TodoOk(conns, l, Todo(loop)) && FunctorOk(conns, l, f) && (!f.RunNotify? ==> f !in Todo(Popped(loop)))
    ensures !f.RunNotify? ==> !Mentions(Popped(loop), f.c)
    ensures forall g <- Todo(loop) :: g != f ==> g in Todo(Popped(loop))
  {
    forall g <- Todo(Popped(loop))
      ensures g in Todo(loop) && FunctorOk(conns, l, g)
    {
      assert g in [f] + Todo(Popped(loop));
    }
    forall g <- Todo(loop)
      ensures g != f ==> g in Todo(Popped(loop))
    {
      assert g in [f] + Todo(Popped(loop));
    }
  }

  lemma RecordMoves(s: Server, l: LoopId)
    requires Enabled(s, RunOne(l))
    requires var f := s.loops[l].batch[s.loops[l].pc.pos]; f.RunEstablished? || f.RunDestroyed?
    ensures MovesOne(s, After(s, RunOne(l)), s.loops[l].batch[s.loops[l].pc.pos].c, l, l)
  {
  }

  lemma RunEstablishedKeepsInv(s: Server, l: LoopId, c: ConnId)
    requires Inv(s) && Enabled(s, RunOne(l)) && s.loops[l].batch[s.loops[l].pc.pos] == RunEstablished(c)
    ensures Inv(After(s, RunOne(l)))
  {
    var s' := After(s, RunOne(l));
    EstablishedOk(s, s', l, c);
    RecordMoves(s, l);
    OneConnStep(s, s', c, l, l);
  }

  lemma EstablishedOk(s: Server, s': Server, l: LoopId, c: ConnId)
    requires l < |s.loops| && c in s.conns && LoopOk(s.conns, l, s.loops[l]) && ConnOk(s, c)
    requires Enabled(s, RunOne(l)) && s.loops[l].batch[s.loops[l].pc.pos] == RunEstablished(c)
    requires s' == After(s, RunOne(l))
    ensures s.conns[c].loop == l && s.conns[c].phase == Waiting && ConnOk(s', c)
    ensures LoopOk(s'.conns, l, s'.loops[l]) && KeepsOthers(s.loops[l], s'.loops[l], c, s.dead)
  {
    PoppedOk(s.conns, l, s.loops[l], RunEstablished(c), s.dead);
    LoopUnaffected(s.conns, l, Popped(s.loops[l]), c, s'.conns[c]);
  }

  lemma RunDestroyedKeepsInv(s: Server, l: LoopId, c: ConnId)
    requires Inv(s) && Enabled(s, RunOne(l)) && s.loops[l].batch[s.loops[l].pc.pos] == RunDestroyed(c)
    ensures Inv(After(s, RunOne(l)))
  {
    var s' := After(s, RunOne(l));
    DestroyedOk(s, s', l, c);
    RecordMoves(s, l);
    OneConnStep(s, s', c, l, l);
  }

  lemma DestroyedOk(s: Server, s': Server, l: LoopId, c: ConnId)
    requires l < |s.loops| && c in s.conns && LoopOk(s.conns, l, s.loops[l]) && ConnOk(s, c)
    requires Enabled(s, RunOne(l)) && s.loops[l].batch[s.loops[l].pc.pos] == RunDestroyed(c)
    requires s' == After(s, RunOne(l))
    ensures s.conns[c].loop == l && s.conns[c].phase == Erased && ConnOk(s', c)
    ensures LoopOk(s'.conns, l, s'.loops[l]) && KeepsOthers(s.loops[l], s'.loops[l], c, s.dead)
  {
    PoppedOk(s.conns, l, s.loops[l], RunDestroyed(c), s.dead);
    LoopUnaffected(s.conns, l, Popped(s.loops[l]), c, s'.conns[c]);
  }

  lemma RunNotifyKeepsInv(s: Server, l: LoopId, c: ConnId)
    requires Inv(s) && Enabled(s, RunOne(l)) && s.loops[l].batch[s.loops[l].pc.pos] == RunNotify(c)
    ensures Inv(After(s, RunOne(l)))
  {
    NotifiedOk(s.conns, l, s.loops[l], c, s.dead);
    OneLoopStep(s, l, Popped(s.loops[l]));
  }

  lemma NotifiedOk(conns: map<ConnId, ConnRecord>, l: LoopId, loop: Loop, c: ConnId, dead: set<ConnId>)
    requires LoopOk(conns, l, loop) && loop.pc.Running? && loop.pc.pos < |loop.batch|
    requires loop.batch[loop.pc.pos] == RunNotify(c)
    ensures LoopOk(conns, l, Popped(loop)) && NoNewRefs(loop, Popped(loop), dead)
    ensures forall f <- Todo(loop) :: !f.RunNotify? ==> f in Todo(Popped(loop))
  {
    PoppedLoopOk(conns, l, loop, RunNotify(c));
    HeadOnly(conns, l, loop, RunNotify(c));
  }

  /** removeConnectionInLoop on the base loop; the connection's own loop may be still dispatching it. */
  lemma RunRemoveKeepsInv(s: Server, l: LoopId, c: ConnId)
    requires Inv(s) && Enabled(s, RunOne(l)) && s.loops[l].batch[s.loops[l].pc.pos] == RunRemove(c)
    ensures Inv(After(s, RunOne(l)))
  {
    RemovedStep(s, After(s, RunOne(l)), l, s.conns[c].loop, c);
  }

  lemma RemovedStep(s: Server, s': Server, l: LoopId, own: LoopId, c: ConnId)
    requires Inv(s) && Enabled(s, RunOne(l)) && s.loops[l].batch[s.loops[l].pc.pos] == RunRemove(c)
    requires s.conns[c].loop == own && s' == After(s, RunOne(l))
    ensures Inv(s')
  {
    RunnableIsAlive(s, l);
    RemoveMoves(s, l, own, c);
    RemovedConnOk(s, s', l, c);
    if own == l {
      RemovedOnOwnLoopOk(s, s', l, c);
    } else {
      RemovedBaseOk(s, s', l, c);
      RemovedOwnOk(s, s', l, own, c);
    }
    OneConnStep(s, s', c, own, l);
  }

  lemma RemoveMoves(s: Server, l: LoopId, own: LoopId, c: ConnId)
    requires Enabled(s, RunOne(l)) && s.loops[l].batch[s.loops[l].pc.pos] == RunRemove(c)
    requires s.conns[c].loop == own
    ensures MovesOne(s, After(s, RunOne(l)), c, own, l)
  {
  }

  lemma RemovedConnOk(s: Server, s': Server, l: LoopId, c: ConnId)
    requires l < |s.loops| && c in s.conns && LoopOk(s.conns, l, s.loops[l]) && ConnOk(s, c)
    requires Enabled(s, RunOne(l)) && s.loops[l].batch[s.loops[l].pc.pos] == RunRemove(c)
    requires s' == After(s, RunOne(l))
    ensures l == BASE_LOOP && s.conns[c].phase == Handed && ConnOk(s', c)
  {
    PoppedLoopOk(s.conns, l, s.loops[l], RunRemove(c));
    var r := s.conns[c];
    RemoveShape(s, s', l, c);
    TodoQueued(if r.loop == l then Popped(s.loops[l]) else s.loops[r.loop], RunDestroyed(c));
    ErasedConnOk(s, s', c);
  }

  lemma RemoveShape(s: Server, s': Server, l: LoopId, c: ConnId)
    requires Enabled(s, RunOne(l)) && s.loops[l].batch[s.loops[l].pc.pos] == RunRemove(c)
    requires s' == After(s, RunOne(l))
    ensures var r := s.conns[c];
            var before := if r.loop == l then Popped(s.loops[l]) else s.loops[r.loop];
            && s'.loops[r.loop] == before.(pending := before.pending + [RunDestroyed(c)])
            && s'.conns == s.conns[c := r.(erases := r.erases + 1, phase := Erased)]
            && s'.connections == s.connections - {ConnName(s.name, s.ipPort, c)}
            && SameFrame(s, s')
  {
  }

  lemma ErasedConnOk(s: Server, s': Server, c: ConnId)
    requires c in s.conns && ConnOk(s, c) && s.conns[c].phase == Handed && SameFrame(s, s')
    requires s'.conns == s.conns[c := s.conns[c].(erases := s.conns[c].erases + 1, phase := Erased)]
    requires s'.connections == s.connections - {ConnName(s.name, s.ipPort, c)}
    requires RunDestroyed(c) in Todo(s'.loops[s.conns[c].loop])
    ensures ConnOk(s', c)
  {
  }

  lemma RemovedOnOwnLoopOk(s: Server, s': Server, l: LoopId, c: ConnId)
    requires l < |s.loops| && c in s.conns && LoopOk(s.conns, l, s.loops[l]) && s.conns[c].phase == Handed
    requires Enabled(s, RunOne(l)) && s.loops[l].batch[s.loops[l].pc.pos] == RunRemove(c)
    requires s.conns[c].loop == l && c !in s.dead && s' == After(s, RunOne(l))
    ensures LoopOk(s'.conns, l, s'.loops[l]) && KeepsOthers(s.loops[l], s'.loops[l], c, s.dead)
  {
    RemoveShape(s, s', l, c);
    RemovedAndQueuedOk(s.conns, l, s.loops[l], c, s'.conns[c], s.dead);
  }

  lemma RemovedAndQueuedOk(conns: map<ConnId, ConnRecord>, l: LoopId, loop: Loop, c: ConnId, r: ConnRecord, dead: set<ConnId>)
    requires LoopOk(conns, l, loop) && loop.pc.Running? && loop.pc.pos < |loop.batch|
    requires loop.batch[loop.pc.pos] == RunRemove(c) && c in conns && c !in dead
    requires conns[c].phase == Handed && r.phase == Erased && r.loop == conns[c].loop == l
    ensures var queued := Popped(loop).(pending := Popped(loop).pending + [RunDestroyed(c)]);
            LoopOk(conns[c := r], l, queued) && KeepsOthers(loop, queued, c, dead)
  {
    PoppedOk(conns, l, loop, RunRemove(c), dead);
    LoopUnaffected(conns, l, Popped(loop), c, r);
    QueueDestroy(conns, l, Popped(loop), c, r);
  }

  lemma RemovedBaseOk(s: Server, s': Server, l: LoopId, c: ConnId)
    requires l < |s.loops| && c in s.conns && LoopOk(s.conns, l, s.loops[l])
    requires Enabled(s, RunOne(l)) && s.loops[l].batch[s.loops[l].pc.pos] == RunRemove(c)
    requires s.conns[c].loop != l && s' == After(s, RunOne(l))
    ensures LoopOk(s'.conns, l, s'.loops[l]) && KeepsOthers(s.loops[l], s'.loops[l], c, s.dead)
  {
    PoppedOk(s.conns, l, s.loops[l], RunRemove(c), s.dead);
    LoopUnaffected(s.conns, l, Popped(s.loops[l]), c, s'.conns[c]);
    assert s'.loops[l] == Popped(s.loops[l]);
  }

  lemma RemovedOwnOk(s: Server, s': Server, l: LoopId, own: LoopId, c: ConnId)
    requires c in s.conns && s.conns[c].phase == Handed && l == BASE_LOOP
    requires Enabled(s, RunOne(l)) && s.loops[l].batch[s.loops[l].pc.pos] == RunRemove(c)
    requires own == s.conns[c].loop != l && LoopOk(s.conns, own, s.loops[own])
    requires c !in s.dead && s' == After(s, RunOne(l))
    ensures LoopOk(s'.conns, own, s'.loops[own]) && KeepsOthers(s.loops[own], s'.loops[own], c, s.dead)
  {
    ErasedLoopOk(s.conns, own, s.loops[own], c, s'.conns[c]);
    QueueDestroy(s.conns, own, s.loops[own], c, s'.conns[c]);
  }

  lemma ErasedLoopOk(conns: map<ConnId, ConnRecord>, l: LoopId, loop: Loop, c: ConnId, r: ConnRecord)
    requires LoopOk(conns, l, loop) && c in conns && conns[c].phase == Handed && r.phase == Erased
    requires l != BASE_LOOP && r.loop == l
    ensures LoopOk(conns[c := r], l, loop)
  {
  }

  lemma QueueDestroy(conns: map<ConnId, ConnRecord>, l: LoopId, loop: Loop, c: ConnId, r: ConnRecord)
    requires LoopOk(conns, l, loop) && LoopOk(conns[c := r], l, loop)
    requires c in conns && conns[c].phase == Handed && r.phase == Erased && r.loop == l
    ensures var queued := loop.(pending := loop.pending + [RunDestroyed(c)]);
            LoopOk(conns[c := r], l, queued) && Todo(queued) == Todo(loop) + [RunDestroyed(c)]
  {
    NotQueuedYet(conns, l, loop, RunDestroyed(c));
    TodoQueued(loop, RunDestroyed(c));
    TodoOkQueued(conns[c := r], l, Todo(loop), RunDestroyed(c));
  }

  lemma RunOneKeepsInv(s: Server, l: LoopId)
    requires Inv(s) && Enabled(s, RunOne(l))
    ensures Inv(After(s, RunOne(l)))
  {
    match s.loops[l].batch[s.loops[l].pc.pos]
    case RunEstablished(c) => RunEstablishedKeepsInv(s, l, c);
    case RunRemove(c) => RunRemoveKeepsInv(s, l, c);
    case RunDestroyed(c) => RunDestroyedKeepsInv(s, l, c);
    case RunNotify(c) => RunNotifyKeepsInv(s, l, c);
  }

  lemma UserStepKeepsInv(s: Server, step: Step)
    requires Inv(s) && Enabled(s, step) && (step.UserTake? || step.UserDrop? || step.Reclaim?)
    ensures Inv(After(s, step))
  {
    var s' := After(s, step);
    forall c <- s'.conns
      ensures ConnOk(s', c)
    {
      assert ConnOk(s, c);
    }
  }

  lemma EstablishQueuedOk(conns: map<ConnId, ConnRecord>, l: LoopId, loop: Loop, c: ConnId, r: ConnRecord, dead: set<ConnId>)
    requires LoopOk(conns, l, loop) && c !in conns && r.phase == Waiting && r.loop == l
    ensures var queued := loop.(pending := loop.pending + [RunEstablished(c)]);
            && LoopOk(conns[c := r], l, queued) && RunEstablished(c) in Todo(queued)
            && KeepsOthers(loop, queued, c, dead - {c})
  {
    NewConnLoopOk(conns, l, loop, c, r);
    NotQueuedYet(conns, l, loop, RunEstablished(c));
    TodoQueued(loop, RunEstablished(c));
    TodoOkQueued(conns[c := r], l, Todo(loop), RunEstablished(c));
  }

  lemma NewConnectionLoopOk(s: Server, s': Server, k: LoopId)
    requires k < |s.loops| && LoopOk(s.conns, k, s.loops[k]) && s.nextConnId !in s.conns
    requires Enabled(s, Step.NewConnection) && s' == After(s, Step.NewConnection)
    ensures LoopOk(s'.conns, k, s'.loops[k])
    ensures KeepsOthers(s.loops[k], s'.loops[k], s.nextConnId, s.dead - {s.nextConnId})
    ensures k == LoopOf(s, s.nextConnId - 1) != BASE_LOOP ==> RunEstablished(s.nextConnId) in Todo(s'.loops[k])
  {
    var c := s.nextConnId;
    if k == LoopOf(s, c - 1) != BASE_LOOP {
      EstablishQueuedOk(s.conns, k, s.loops[k], c, s'.conns[c], s.dead);
    } else {
      NewConnLoopOk(s.conns, k, s.loops[k], c, s'.conns[c]);
      assert s'.loops[k] == s.loops[k];
    }
  }

  lemma NewConnectionConnOk(s: Server, s': Server, d: ConnId)
    requires Inv(s) && Enabled(s, Step.NewConnection) && s' == After(s, Step.NewConnection)
    requires s.nextConnId !in s.conns && d in s.conns
    requires forall k :: 0 <= k < |s.loops| ==> KeepsOthers(s.loops[k], s'.loops[k], s.nextConnId, s.dead)
    ensures ConnOk(s', d)
  {
    assert ConnOk(s, d);
    if ConnName(s.name, s.ipPort, d) == ConnName(s.name, s.ipPort, s.nextConnId) {
      NameInjective(s.name, s.ipPort, d, s.nextConnId);
    }
    forall k | 0 <= k < |s.loops|
      ensures Keeps(s.loops[k], s'.loops[k], d)
    {
      assert KeepsOthers(s.loops[k], s'.loops[k], s.nextConnId, s.dead);
    }
    ConnUnaffected(s, s', d);
  }

  lemma NewConnectionTableOk(s: Server, s': Server)
    requires TableOk(s) && Enabled(s, Step.NewConnection) && s' == After(s, Step.NewConnection)
    ensures TableOk(s') && SameFrame(s, s') && s'.conns.Keys == s.conns.Keys + {s.nextConnId}
  {
  }

  lemma NewConnectionFirstOk(s: Server, s': Server, c: ConnId)
    requires Enabled(s, Step.NewConnection) && s' == After(s, Step.NewConnection) && c == s.nextConnId
    requires var l := LoopOf(s, c - 1); l != BASE_LOOP ==> RunEstablished(c) in Todo(s'.loops[l])
    ensures ConnOk(s', c)
  {
  }

  lemma NewConnectionKeepsInv(s: Server)
    requires Inv(s) && Enabled(s, Step.NewConnection)
    ensures Inv(After(s, Step.NewConnection))
  {
    var s', c := After(s, Step.NewConnection), s.nextConnId;
    FreshName(s);
    NewConnectionTableOk(s, s');
    assert s.dead - {c} == s.dead;
    forall k | 0 <= k < |s.loops|
      ensures LoopOk(s'.conns, k, s'.loops[k]) && KeepsOthers(s.loops[k], s'.loops[k], c, s.dead)
      ensures k == LoopOf(s, c - 1) != BASE_LOOP ==> RunEstablished(c) in Todo(s'.loops[k])
    {
      NewConnectionLoopOk(s, s', k);
    }
    NewConnectionFirstOk(s, s', c);
    forall d <- s'.conns
      ensures ConnOk(s', d)
    {
      if d != c {
        NewConnectionConnOk(s, s', d);
      }
    }
    NewConnectionDeadOk(s, s');
  }

  lemma NewConnectionDeadOk(s: Server, s': Server)
    requires DeadOk(s) && Enabled(s, Step.NewConnection) && s' == After(s, Step.NewConnection)
    requires s.nextConnId !in s.conns && SameFrame(s, s') && s.conns.Keys <= s'.conns.Keys
    requires forall k :: 0 <= k < |s.loops| ==> KeepsOthers(s.loops[k], s'.loops[k], s.nextConnId, s.dead)
    ensures DeadOk(s')
  {
    forall k | 0 <= k < |s.loops|
      ensures NoNewRefs(s.loops[k], s'.loops[k], s.dead)
    {
      assert KeepsOthers(s.loops[k], s'.loops[k], s.nextConnId, s.dead);
    }
    DeadStayDead(s, s');
  }

  /** The map insert of a new connection never replaces an entry. */
  lemma FreshName(s: Server)
    requires Inv(s) && s.nextConnId < ID_LIMIT
    ensures s.nextConnId !in s.conns
    ensures ConnName(s.name, s.ipPort, s.nextConnId) !in s.connections
  {
    var name := ConnName(s.name, s.ipPort, s.nextConnId);
    assert forall c <- s.conns :: ConnOk(s, c) && c < s.nextConnId;
    if name in s.connections {
      assert ConnOk(s, s.connections[name]);
      NameInjective(s.name, s.ipPort, s.connections[name], s.nextConnId);
    }
  }

  lemma NewConnLoopOk(conns: map<ConnId, ConnRecord>, l: LoopId, loop: Loop, c: ConnId, r: ConnRecord)
    requires LoopOk(conns, l, loop) && c !in conns
    ensures LoopOk(conns[c := r], l, loop)
  {
  }

  lemma StepKeepsInv(s: Server, step: Step)
    requires Inv(s) && Enabled(s, step)
    ensures Inv(After(s, step))
  {
    match step
    case NewConnection => NewConnectionKeepsInv(s);
    case PollReturn(l, ready) => PollReturnKeepsInv(s, l, ready);
    case BeginDispatch(l) => BeginDispatchKeepsInv(s, l);
    case MarkClosed(l) => MarkClosedKeepsInv(s, l);
    case HandOver(l) => HandOverKeepsInv(s, l);
    case EndDispatch(l) => EndDispatchKeepsInv(s, l);
    case BeginBatch(l) => BeginBatchKeepsInv(s, l);
    case RunOne(l) => RunOneKeepsInv(s, l);
    case EndBatch(l) => EndBatchKeepsInv(s, l);
    case QueueNotify(c) => QueueNotifyKeepsInv(s, c);
    case UserShutdown(c) => UserShutdownKeepsInv(s, c);
    case _ => UserStepKeepsInv(s, step);
  }
}

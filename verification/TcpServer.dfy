// The server object on the base loop: src/net/TcpServer.cpp.
//
// Its own fields are the connection map, the counter and the pool.  The queues of the loops and the
// connections belong to other objects; here they are ghost state, the ServerSpec picture of them, and
// Deployment shows what that picture stands for.  Each method is a step of ServerSpec, so it keeps the
// lifetime invariant.

module TcpServer {
  import opened EpollSpec
  import opened ConnectionSpec
  import opened ThreadPool
  import opened ServerSpec
  import opened ServerInvariant

  class TcpServer {
    const name: string
    const ipPort: string
    const threadPool: EventLoopThreadPool
    var nextConnId: nat
    var connections: map<string, ConnId>
    ghost var loops: seq<ServerSpec.Loop>
    ghost var conns: map<ConnId, ConnRecord>
    ghost var userRefs: set<ConnId>
    ghost var dead: set<ConnId>

    ghost function View(): Server
      reads this
    {
      Server(name, ipPort, loops, nextConnId, conns, connections, userRefs, dead)
    }

    ghost predicate Valid()
      reads this, threadPool
    {
      && Inv(View())
      && threadPool.Valid() && threadPool.loops == IoLoops(View()) && threadPool.issued == nextConnId - 1
    }

    /** A started server with `ioLoops` I/O threads; the address text is that of an InetAddress. */
    constructor (name: string, ipPort: string, ioLoops: nat)
      requires |ipPort| <= 51
      ensures Valid() && View() == Initial(name, ipPort, ioLoops) && fresh(threadPool)
    {
      this.name, this.ipPort := name, ipPort;
      nextConnId, connections, conns := 1, map[], map[];
      loops := seq(ioLoops + 1, _ => ServerSpec.Loop([], [], Pc.Polling));
      userRefs, dead := {}, {};
      var pool := new EventLoopThreadPool();
      pool.Start(seq(ioLoops, i => i + 1));
      threadPool := pool;
      new;
      InitialInv(name, ipPort, ioLoops);
      assert IoLoops(View()) == seq(ioLoops, i => i + 1);
    }

    /** The acceptor's callback: a fresh name, the next loop in turn, an entry in the map, and
        connectionEstablished run at once or queued. */
    method NewConnection() returns (c: ConnId)
      requires Valid() && Enabled(View(), Step.NewConnection)
      modifies this, threadPool
      ensures Valid() && View() == After(old(View()), Step.NewConnection)
      ensures c == old(nextConnId) && c !in old(conns)
      ensures ConnName(name, ipPort, c) !in old(connections)
      ensures connections == old(connections)[ConnName(name, ipPort, c) := c]
    {
      FreshName(View());
      NewConnectionKeepsInv(View());
      var ioLoop := threadPool.GetNextLoop();
      c := nextConnId;
      PlaceConnection(ioLoop);
      assert View() == After(old(View()), Step.NewConnection);
      SameIoLoops(old(View()), View());
    }

    /** Numbers the connection, enters it in the map and establishes it, now or on its loop. */
    method PlaceConnection(ioLoop: LoopId)
      requires loops != [] && 0 < nextConnId && ioLoop == LoopOf(View(), nextConnId - 1)
      modifies this`nextConnId, this`connections, this`conns, this`loops
      ensures View() == NewConnectionAfter(old(View()))
    {
      var c := nextConnId;
      nextConnId := nextConnId + 1;
      connections := connections[ConnName(name, ipPort, c) := c];
      ghost var conn := ConnRecord(ioLoop, Connecting, New, [], 0, 0, 0, Waiting);
      if ioLoop == BASE_LOOP {
        conns := conns[c := Established(conn)];
      } else {
        conns := conns[c := conn];
        loops := loops[ioLoop := loops[ioLoop].(pending := loops[ioLoop].pending + [RunEstablished(c)])];
      }
    }

    /** The body of removeConnectionInLoop: the entry goes, and connectDestroyed is queued. */
    method Erase(c: ConnId)
      requires c in conns && conns[c].loop < |loops|
      modifies this`connections, this`conns, this`loops
      ensures View() == RemoveInLoop(old(View()), c)
    {
      connections := connections - {ConnName(name, ipPort, c)};
      ghost var conn := conns[c];
      conns := conns[c := conn.(erases := conn.erases + 1, phase := Erased)];
      loops := loops[conn.loop := loops[conn.loop].(pending := loops[conn.loop].pending + [RunDestroyed(c)])];
    }

    /** The close callback of connection `c`, called in the dispatch of loop `l`: the entry, which is
        there, goes at once on the base loop and stays otherwise, with the removal queued. */
    method RemoveConnection(l: LoopId, c: ConnId)
      requires Valid() && Enabled(View(), HandOver(l)) && c == loops[l].pc.guard.c
      modifies this`connections, this`conns, this`loops
      ensures Valid() && View() == After(old(View()), HandOver(l))
      ensures ConnName(name, ipPort, c) in old(connections)
      ensures connections == if l == BASE_LOOP then old(connections) - {ConnName(name, ipPort, c)} else old(connections)
    {
      HandOverKeepsInv(View(), l);
      ClosingIsListed(View(), l);
      loops := loops[l := loops[l].(pc := loops[l].pc.(guard := Held(c, HandedOver)))];
      if l == BASE_LOOP {
        Erase(c);
      } else {
        conns := conns[c := conns[c].(phase := Handed)];
        loops := loops[BASE_LOOP := loops[BASE_LOOP].(pending := loops[BASE_LOOP].pending + [RunRemove(c)])];
      }
      SameIoLoops(old(View()), View());
    }

    /** The queued removal, when the base loop comes to run it: the entry is still there, and goes. */
    method RemoveConnectionInLoop(c: ConnId)
      requires Valid() && Enabled(View(), RunOne(BASE_LOOP))
      requires loops[BASE_LOOP].batch[loops[BASE_LOOP].pc.pos] == RunRemove(c)
      modifies this`connections, this`conns, this`loops
      ensures Valid() && View() == After(old(View()), RunOne(BASE_LOOP))
      ensures ConnName(name, ipPort, c) in old(connections)
      ensures connections == old(connections) - {ConnName(name, ipPort, c)}
    {
      RunOneKeepsInv(View(), BASE_LOOP);
      HandedIsListed(View(), c);
      RunRemoval(c);
      SameIoLoops(old(View()), View());
    }

    method RunRemoval(c: ConnId)
      requires Enabled(View(), RunOne(BASE_LOOP)) && loops[BASE_LOOP].batch[loops[BASE_LOOP].pc.pos] == RunRemove(c)
      modifies this`connections, this`conns, this`loops
      ensures View() == After(old(View()), RunOne(BASE_LOOP))
      ensures connections == old(connections) - {ConnName(name, ipPort, c)}
    {
      loops := loops[BASE_LOOP := loops[BASE_LOOP].(pc := Running(loops[BASE_LOOP].pc.pos + 1))];
      Erase(c);
    }
  }

  lemma ClosingIsListed(s: Server, l: LoopId)
    requires Inv(s) && Enabled(s, HandOver(l))
    ensures ConnName(s.name, s.ipPort, s.loops[l].pc.guard.c) in s.connections
  {
    assert LoopOk(s.conns, l, s.loops[l]) && ConnOk(s, s.loops[l].pc.guard.c);
  }

  lemma HandedIsListed(s: Server, c: ConnId)
    requires Inv(s) && Enabled(s, RunOne(BASE_LOOP))
    requires s.loops[BASE_LOOP].batch[s.loops[BASE_LOOP].pc.pos] == RunRemove(c)
    ensures ConnName(s.name, s.ipPort, c) in s.connections
  {
    assert LoopOk(s.conns, BASE_LOOP, s.loops[BASE_LOOP]) && ConnOk(s, c);
    assert RunRemove(c) in Todo(s.loops[BASE_LOOP]);
  }

  lemma SameIoLoops(s: Server, s': Server)
    requires s.loops != [] && |s'.loops| == |s.loops|
    ensures IoLoops(s') == IoLoops(s)
  {
  }
}

// What a connection's handlers do, said without the handlers: laws over every run of ConnectionSpec in
// terms of the events of the run alone, and of what the kernel answered.

module ConnectionLaws {
  import EpollSpec
  import opened ConnectionSpec

  // ---------------------------------------------------------------------------------------------
  // Outbound
  // ---------------------------------------------------------------------------------------------

  /** What the kernel says it took leaves the buffer and is on the wire; whatever else it answers, both
      stay as they are. */
  lemma WriteMovesWhatWasTaken(cfg: Config, c: Conn, result: WriteResult)
    requires result.Wrote? ==> result.n <= |c.output|
    ensures var after := HandleWrite(cfg, c, result);
            if c.writing && result.Wrote?
            then after.wire == c.wire + c.output[..result.n] && after.output == c.output[result.n..]
            else after.wire == c.wire && after.output == c.output
  {
    if c.writing && result.Wrote? && result.n == 0 {
      assert c.output[..0] == "" && c.output[0..] == c.output && c.wire + "" == c.wire;
    }
  }

  /** A send puts on the wire what its own `write`, made only when nothing waits, was told was taken. */
  lemma SendMovesWhatWasTaken(cfg: Config, c: Conn, data: string, result: WriteResult)
    requires DirectCount(c, result) <= |data|
    ensures SendInLoop(cfg, c, data, result).wire ==
            if c.state != Disconnected && !c.writing && c.output == "" && result.Wrote?
            then c.wire + data[..result.n] else c.wire
  {
  }

  /** The bytes the kernel reported taken by the writes of the run: the direct one of a send with nothing
      waiting, and those of `handleWrite` while the connection asks for writability. */
  function Taken(cfg: Config, run: seq<Event>): nat
    requires Legal(cfg, run)
  {
    if run == [] then 0
    else
      var c := RunConn(cfg, run[..|run| - 1]);
      Taken(cfg, run[..|run| - 1]) +
      match run[|run| - 1]
      case Send(_, Wrote(n)) => if c.state != Disconnected && !c.writing && c.output == "" then n else 0
      case Writable(Wrote(n)) => if c.writing then n else 0
      case _ => 0
  }

  /** The wire holds exactly as many bytes as the kernel has reported taken. */
  lemma {:induction false} WireIsWhatWasTaken(cfg: Config, run: seq<Event>)
    requires Legal(cfg, run)
    ensures |RunConn(cfg, run).wire| == Taken(cfg, run)
  {
    if run != [] {
      var c := RunConn(cfg, run[..|run| - 1]);
      WireIsWhatWasTaken(cfg, run[..|run| - 1]);
      match run[|run| - 1]
      case Send(data, result) => SendMovesWhatWasTaken(cfg, c, data, result);
      case Writable(result) => WriteMovesWhatWasTaken(cfg, c, result);
      case _ =>
    }
  }

  /** So the wire is the first so many of the accepted bytes, and the output buffer the others. */
  lemma WireAndOutputFromTaken(cfg: Config, run: seq<Event>)
    requires Legal(cfg, run)
    ensures Taken(cfg, run) <= |AcceptedBytes(cfg, run)|
    ensures RunConn(cfg, run).wire == AcceptedBytes(cfg, run)[..Taken(cfg, run)]
    ensures RunConn(cfg, run).output == AcceptedBytes(cfg, run)[Taken(cfg, run)..]
  {
    Conservation(cfg, run);
    WireIsWhatWasTaken(cfg, run);
  }

  // ---------------------------------------------------------------------------------------------
  // Inbound
  // ---------------------------------------------------------------------------------------------

  /** All bytes read, in order. */
  function ReceivedBytes(run: seq<Event>): string {
    if run == [] then ""
    else
      ReceivedBytes(run[..|run| - 1]) +
      match run[|run| - 1]
      case Readable(Received(bytes)) => bytes
      case _ => ""
  }

  /** How many of them the user has taken out: each time as many as asked for, or all there are. */
  function TakenOut(run: seq<Event>): nat {
    if run == [] then 0
    else
      var before := TakenOut(run[..|run| - 1]);
      match run[|run| - 1]
      case Consume(len) =>
        if before + len < |ReceivedBytes(run)| then before + len else |ReceivedBytes(run)|
      case _ => before
  }

  /** The input buffer holds exactly the bytes received and not yet taken out, in order. */
  lemma {:induction false} InputIsTheRest(cfg: Config, run: seq<Event>)
    requires Legal(cfg, run)
    ensures TakenOut(run) <= |ReceivedBytes(run)|
    ensures RunConn(cfg, run).input == ReceivedBytes(run)[TakenOut(run)..]
  {
    if run != [] {
      var before := run[..|run| - 1];
      InputIsTheRest(cfg, before);
      assert ReceivedBytes(before) + "" == ReceivedBytes(before);
      match run[|run| - 1]
      case Send(data, result) => InputUntouched(cfg, RunConn(cfg, before), run[|run| - 1]);
      case Writable(result) => InputUntouched(cfg, RunConn(cfg, before), run[|run| - 1]);
      case _ =>
    }
  }

  lemma InputUntouched(cfg: Config, c: Conn, e: Event)
    requires Allowed(c, e) && (e.Send? || e.Writable?)
    ensures ConnAfter(cfg, c, e).input == c.input
  {
  }

  // ---------------------------------------------------------------------------------------------
  // State
  // ---------------------------------------------------------------------------------------------

  predicate AskedToShut(run: seq<Event>) {
    run != [] && (AskedToShut(run[..|run| - 1]) || run[|run| - 1].UserShutdown?)
  }

  /** Torn down while still connected: neither closed nor asked to shut down before. */
  predicate TornDownOpen(run: seq<Event>)
    decreases |run|, 0
  {
    run != [] && run[|run| - 1].Destroy? && !Ended(run[..|run| - 1]) && !AskedToShut(run[..|run| - 1])
  }

  /** A hang-up, an end of file, or a tear-down of a connected connection has happened. */
  predicate Ended(run: seq<Event>)
    decreases |run|, 1
  {
    run != [] &&
    (Ended(run[..|run| - 1]) || Closes(run[|run| - 1]) || TornDownOpen(run))
  }

  /** The events alone tell the state. */
  lemma {:induction false} StateFromEvents(cfg: Config, run: seq<Event>)
    requires Legal(cfg, run)
    ensures RunConn(cfg, run).state ==
            if run == [] then Connecting
            else if Ended(run) then Disconnected
            else if AskedToShut(run) then Disconnecting
            else Connected
  {
    if run != [] {
      var before, e := run[..|run| - 1], run[|run| - 1];
      StateFromEvents(cfg, before);
      match e
      case Send(data, result) => SendShows(cfg, RunConn(cfg, before), data, result);
      case Writable(result) => WriteShows(cfg, RunConn(cfg, before), result);
      case _ =>
    }
  }

  // ---------------------------------------------------------------------------------------------
  // Callbacks
  // ---------------------------------------------------------------------------------------------

  /** What the last event of a run calls for. */
  function DueNow(run: seq<Event>): seq<Callback>
    requires run != []
  {
    match run[|run| - 1]
    case Establish => [Up]
    case Readable(Received(bytes)) => if bytes == "" then [Down, Close] else [Message]
    case Hangup => [Down, Close]
    case Destroy => if TornDownOpen(run) then [Down] else []
    case _ => []
  }

  /** The callbacks the events of a run call for, in order. */
  function CallbacksDue(run: seq<Event>): seq<Callback> {
    if run == [] then [] else CallbacksDue(run[..|run| - 1]) + DueNow(run)
  }

  /** Every callback due is made, in order, and no other. */
  lemma {:induction false} CallbacksMade(cfg: Config, run: seq<Event>)
    requires Legal(cfg, run)
    ensures RunConn(cfg, run).callbacks == CallbacksDue(run)
  {
    if run != [] {
      var before, e := run[..|run| - 1], run[|run| - 1];
      CallbacksMade(cfg, before);
      StateFromEvents(cfg, before);
      assert CallbacksDue(before) + [] == CallbacksDue(before);
      match e
      case Send(data, result) => SendShows(cfg, RunConn(cfg, before), data, result);
      case Writable(result) => WriteShows(cfg, RunConn(cfg, before), result);
      case _ =>
    }
  }

  predicate Establishes(e: Event) { e.Establish? }

  predicate BringsInput(e: Event) { e.Readable? && e.outcome.Received? && e.outcome.bytes != "" }

  function Times(run: seq<Event>, p: Event -> bool): nat {
    if run == [] then 0 else Times(run[..|run| - 1], p) + if p(run[|run| - 1]) then 1 else 0
  }

  function TearDownsOpen(run: seq<Event>): nat {
    if run == [] then 0 else TearDownsOpen(run[..|run| - 1]) + if TornDownOpen(run) then 1 else 0
  }

  lemma DueCountedOnce(run: seq<Event>)
    requires run != []
    ensures var heard, e := multiset(DueNow(run)), run[|run| - 1];
      && heard[Up] == (if Establishes(e) then 1 else 0)
      && heard[Message] == (if BringsInput(e) then 1 else 0)
      && heard[Close] == (if Closes(e) then 1 else 0)
      && heard[Down] == (if Closes(e) then 1 else 0) + (if TornDownOpen(run) then 1 else 0)
  {
  }

  lemma {:induction false} DueCounts(run: seq<Event>)
    ensures var heard := multiset(CallbacksDue(run));
      && heard[Up] == Times(run, Establishes)
      && heard[Message] == Times(run, BringsInput)
      && heard[Close] == Times(run, Closes)
      && heard[Down] == Times(run, Closes) + TearDownsOpen(run)
  {
    if run != [] {
      DueCounts(run[..|run| - 1]);
      DueCountedOnce(run);
    }
  }

  /** How often the user hears of what: of data once for each read that brought some, of the close once
      for each hang-up and each end of file. */
  lemma CallbackCounts(cfg: Config, run: seq<Event>)
    requires Legal(cfg, run)
    ensures var heard := multiset(RunConn(cfg, run).callbacks);
      && heard[Up] == Times(run, Establishes)
      && heard[Message] == Times(run, BringsInput)
      && heard[Close] == Times(run, Closes)
      && heard[Down] == Times(run, Closes) + TearDownsOpen(run)
  {
    CallbacksMade(cfg, run);
    DueCounts(run);
  }

  // ---------------------------------------------------------------------------------------------
  // Half-close and high water
  // ---------------------------------------------------------------------------------------------

  /** A request that finds no write interest, or a write that takes all that waits on a connection asked
      to shut down. */
  predicate HalfCloseDue(c: Conn, e: Event) {
    || (e.RunShutdown? && !c.writing)
    || (e.Writable? && c.writing && c.state == Disconnecting && c.output != "" && e.result == Wrote(|c.output|))
  }

  predicate HalfCloseWasDue(cfg: Config, run: seq<Event>)
    requires Legal(cfg, run)
  {
    run != [] &&
    (HalfCloseWasDue(cfg, run[..|run| - 1]) || HalfCloseDue(RunConn(cfg, run[..|run| - 1]), run[|run| - 1]))
  }

  lemma HalfCloseStepIff(cfg: Config, c: Conn, e: Event)
    requires Allowed(c, e) && cfg.drainTest == Intended
    ensures ConnAfter(cfg, c, e).halfClosed <==> c.halfClosed || HalfCloseDue(c, e)
  {
    match e
    case Send(data, result) => SendShows(cfg, c, data, result);
    case _ =>
  }

  /** With the drain test as intended, the write side is shut down exactly when that was due. */
  lemma {:induction false} IntendedHalfClosesIff(cfg: Config, run: seq<Event>)
    requires Legal(cfg, run) && cfg.drainTest == Intended
    ensures RunConn(cfg, run).halfClosed <==> HalfCloseWasDue(cfg, run)
  {
    if run != [] {
      IntendedHalfClosesIff(cfg, run[..|run| - 1]);
      HalfCloseStepIff(cfg, RunConn(cfg, run[..|run| - 1]), run[|run| - 1]);
    }
  }

  /** So never on a connection nobody asked to shut down. */
  lemma {:induction false} HalfCloseWasAskedFor(cfg: Config, run: seq<Event>)
    requires Legal(cfg, run) && cfg.drainTest == Intended && RunConn(cfg, run).halfClosed
    ensures AskedToShut(run) || exists k :: 0 <= k < |run| && run[k].RunShutdown?
  {
    var before, e := run[..|run| - 1], run[|run| - 1];
    HalfCloseStepIff(cfg, RunConn(cfg, before), e);
    if RunConn(cfg, before).halfClosed {
      HalfCloseWasAskedFor(cfg, before);
      assert forall k :: 0 <= k < |before| ==> before[k] == run[k];
    } else if e.Writable? {
      StateFromEvents(cfg, before);
    }
  }

  /** A high-water notification tells how much is buffered now. */
  lemma HighWaterTellsSize(cfg: Config, c: Conn, e: Event, bytes: nat)
    requires Allowed(c, e) && ConnAfter(cfg, c, e).notes == c.notes + [HighWater(bytes)]
    ensures bytes == |ConnAfter(cfg, c, e).output|
  {
    var notes := NotesOf(cfg, c, e);
    assert c.notes + notes == c.notes + [HighWater(bytes)];
    assert notes == [HighWater(bytes)] by { assert (c.notes + notes)[|c.notes|..] == notes; }
  }

  // ---------------------------------------------------------------------------------------------
  // One dispatch
  // ---------------------------------------------------------------------------------------------

  /** Three independent tests of the returned events decide what a dispatch does: close on EPOLLHUP
      without EPOLLIN, then read on EPOLLIN or EPOLLPRI, then write on EPOLLOUT; each once at most, each
      followed by what the user does in its callback, and nothing besides. */
  lemma DispatchInOrder(revents: EpollSpec.Mask, outcome: ReadResult, result: WriteResult,
                        onClose: seq<Event>, onRead: seq<Event>)
    ensures var d := DispatchEvents(revents, outcome, result, onClose, onRead);
            var p := if revents.pollHup && !revents.pollIn then 1 + |onClose| else 0;
            var q := p + if revents.pollIn || revents.pollPri then 1 + |onRead| else 0;
      && |d| == q + (if revents.pollOut then 1 else 0)
      && (revents.pollHup && !revents.pollIn ==> d[0] == Hangup && d[1..p] == onClose)
      && (revents.pollIn || revents.pollPri ==> d[p] == Readable(outcome) && d[p + 1..q] == onRead)
      && (revents.pollOut ==> d[q] == Writable(result))
  {
    ThreeParts(CloseEvents(revents, onClose), ReadEvents(revents, outcome, onRead), WriteEvents(revents, result));
    assert ([Hangup] + onClose)[1..] == onClose && ([Readable(outcome)] + onRead)[1..] == onRead;
  }

  lemma ThreeParts(a: seq<Event>, b: seq<Event>, c: seq<Event>)
    ensures var d := a + (b + c);
      && (a != [] ==> d[0] == a[0] && d[1..|a|] == a[1..])
      && (b != [] ==> d[|a|] == b[0] && d[|a| + 1..|a| + |b|] == b[1..])
      && (c != [] ==> d[|a| + |b|] == c[0])
  {
  }

  lemma LastEvent(cfg: Config, c: Conn, events: seq<Event>, e: Event)
    requires AllAllowed(cfg, c, events + [e])
    ensures AllAllowed(cfg, c, events) && Allowed(ConnAfterAll(cfg, c, events), e)
    ensures ConnAfterAll(cfg, c, events + [e]) == ConnAfter(cfg, ConnAfterAll(cfg, c, events), e)
  {
    InTwo(cfg, c, events, [e]);
    assert [e][1..] == [];
  }

  /** A reported EPOLLOUT is served whatever else is reported: what the kernel takes is taken from the
      output buffer as it stands at the end of the dispatch. */
  lemma DispatchWrites(cfg: Config, c: Conn, revents: EpollSpec.Mask, outcome: ReadResult, n: nat,
                       onClose: seq<Event>, onRead: seq<Event>)
    requires revents.pollOut
    requires AllAllowed(cfg, c, DispatchEvents(revents, outcome, Wrote(n), onClose, onRead))
    ensures var d := DispatchEvents(revents, outcome, Wrote(n), onClose, onRead);
            d != [] && AllAllowed(cfg, c, d[..|d| - 1]) &&
            var before, after := ConnAfterAll(cfg, c, d[..|d| - 1]), ConnAfterAll(cfg, c, d);
            before.writing ==>
              n <= |before.output| && after.wire == before.wire + before.output[..n] && after.output == before.output[n..]
  {
    var d := DispatchEvents(revents, outcome, Wrote(n), onClose, onRead);
    DispatchInOrder(revents, outcome, Wrote(n), onClose, onRead);
    assert d == d[..|d| - 1] + [Writable(Wrote(n))];
    LastEvent(cfg, c, d[..|d| - 1], Writable(Wrote(n)));
    WriteMovesWhatWasTaken(cfg, ConnAfterAll(cfg, c, d[..|d| - 1]), Wrote(n));
  }

  /** Input reported together with EPOLLOUT does not stop the write. */
  lemma ReadThenWrite(cfg: Config, c: Conn, revents: EpollSpec.Mask, bytes: string, n: nat)
    requires revents.pollIn && revents.pollOut && bytes != "" && c.writing
    requires AllAllowed(cfg, c, DispatchEvents(revents, Received(bytes), Wrote(n), [], []))
    ensures var after := ConnAfterAll(cfg, c, DispatchEvents(revents, Received(bytes), Wrote(n), [], []));
      && after.input == c.input + bytes
      && n <= |c.output| && after.wire == c.wire + c.output[..n] && after.output == c.output[n..]
  {
    var d := DispatchEvents(revents, Received(bytes), Wrote(n), [], []);
    DispatchInOrder(revents, Received(bytes), Wrote(n), [], []);
    assert d == [Readable(Received(bytes)), Writable(Wrote(n))];
    assert d[1..] == [Writable(Wrote(n))] && d[1..][1..] == [];
    var c1 := HandleRead(c, Received(bytes));
    assert ConnAfterAll(cfg, c, d) == ConnAfterAll(cfg, c1, d[1..]) == HandleWrite(cfg, c1, Wrote(n));
    WriteMovesWhatWasTaken(cfg, c1, Wrote(n));
    InputUntouched(cfg, c1, Writable(Wrote(n)));
  }

  /** What user code may do to a connection from within a callback. */
  predicate UserCalls(events: seq<Event>) {
    forall e <- events :: e.Send? || e.UserShutdown? || e.RunShutdown? || e.Consume?
  }

  lemma {:induction false} UserCallsAreSilent(cfg: Config, c: Conn, events: seq<Event>)
    requires UserCalls(events) && AllAllowed(cfg, c, events)
    ensures ConnAfterAll(cfg, c, events).callbacks == c.callbacks
    decreases |events|
  {
    if events != [] {
      if events[0].Send? {
        SendShows(cfg, c, events[0].data, events[0].result);
      }
      UserCallsAreSilent(cfg, ConnAfter(cfg, c, events[0]), events[1..]);
    }
  }

  lemma HandlerThenCalls(cfg: Config, c: Conn, e: Event, calls: seq<Event>)
    requires UserCalls(calls) && AllAllowed(cfg, c, [e] + calls)
    ensures Allowed(c, e) && ConnAfterAll(cfg, c, [e] + calls).callbacks == ConnAfter(cfg, c, e).callbacks
  {
    assert ([e] + calls)[0] == e && ([e] + calls)[1..] == calls;
    UserCallsAreSilent(cfg, ConnAfter(cfg, c, e), calls);
  }

  lemma CloseCallbacks(cfg: Config, c: Conn, revents: EpollSpec.Mask, onClose: seq<Event>)
    requires UserCalls(onClose) && AllAllowed(cfg, c, CloseEvents(revents, onClose))
    ensures ConnAfterAll(cfg, c, CloseEvents(revents, onClose)).callbacks ==
            c.callbacks + if revents.pollHup && !revents.pollIn then [Down, Close] else []
  {
    if revents.pollHup && !revents.pollIn {
      HandlerThenCalls(cfg, c, Hangup, onClose);
    }
  }

  lemma ReadCallbacks(cfg: Config, c: Conn, revents: EpollSpec.Mask, outcome: ReadResult, onRead: seq<Event>)
    requires UserCalls(onRead) && AllAllowed(cfg, c, ReadEvents(revents, outcome, onRead))
    ensures ConnAfterAll(cfg, c, ReadEvents(revents, outcome, onRead)).callbacks ==
            c.callbacks + if (revents.pollIn || revents.pollPri) && outcome.Received?
                          then if outcome.bytes == "" then [Down, Close] else [Message] else []
  {
    if revents.pollIn || revents.pollPri {
      HandlerThenCalls(cfg, c, Readable(outcome), onRead);
    }
  }

  lemma WriteCallbacks(cfg: Config, c: Conn, revents: EpollSpec.Mask, result: WriteResult)
    requires AllAllowed(cfg, c, WriteEvents(revents, result))
    ensures ConnAfterAll(cfg, c, WriteEvents(revents, result)).callbacks == c.callbacks
  {
    if revents.pollOut {
      LastEvent(cfg, c, [], Writable(result));
      assert [] + [Writable(result)] == [Writable(result)];
      WriteShows(cfg, c, result);
    }
  }

  /** The callbacks of one dispatch, whatever the user does in them. */
  lemma DispatchCallbacks(cfg: Config, c: Conn, revents: EpollSpec.Mask, outcome: ReadResult, result: WriteResult,
                          onClose: seq<Event>, onRead: seq<Event>)
    requires UserCalls(onClose) && UserCalls(onRead)
    requires AllAllowed(cfg, c, DispatchEvents(revents, outcome, result, onClose, onRead))
    ensures ConnAfterAll(cfg, c, DispatchEvents(revents, outcome, result, onClose, onRead)).callbacks ==
            c.callbacks
            + (if revents.pollHup && !revents.pollIn then [Down, Close] else [])
            + (if (revents.pollIn || revents.pollPri) && outcome.Received?
               then if outcome.bytes == "" then [Down, Close] else [Message] else [])
  {
    var close, read, write :=
      CloseEvents(revents, onClose), ReadEvents(revents, outcome, onRead), WriteEvents(revents, result);
    InTwo(cfg, c, close, read + write);
    var c1 := ConnAfterAll(cfg, c, close);
    InTwo(cfg, c1, read, write);
    CloseCallbacks(cfg, c, revents, onClose);
    ReadCallbacks(cfg, c1, revents, outcome, onRead);
    WriteCallbacks(cfg, ConnAfterAll(cfg, c1, read), revents, result);
  }

  /** A dispatch closes the connection at most once, except for one pattern: a hang-up with urgent data
      and no ordinary input, whose read then finds end of file. */
  lemma DispatchClosesOnceIff(cfg: Config, c: Conn, revents: EpollSpec.Mask, outcome: ReadResult,
                              result: WriteResult, onClose: seq<Event>, onRead: seq<Event>)
    requires UserCalls(onClose) && UserCalls(onRead)
    requires AllAllowed(cfg, c, DispatchEvents(revents, outcome, result, onClose, onRead))
    ensures multiset(ConnAfterAll(cfg, c, DispatchEvents(revents, outcome, result, onClose, onRead)).callbacks)[Down]
            <= multiset(c.callbacks)[Down] + 1 <==>
            !(revents.pollHup && !revents.pollIn && revents.pollPri && outcome == Received(""))
  {
    DispatchCallbacks(cfg, c, revents, outcome, result, onClose, onRead);
  }
}

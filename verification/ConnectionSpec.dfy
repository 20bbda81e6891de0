// What one TCP connection does, as a function of the events that reach it: src/net/TcpConnection.cpp.
//
// Every result of `read`, `write` and every interleaving of handlers, user calls and queued functors
// is an event of a run, so a statement about all legal runs covers all of them.

module ConnectionSpec {
  import opened EpollSpec

  datatype StateE = Disconnected | Connecting | Connected | Disconnecting

  datatype WriteResult =
    | Wrote(n: nat)   // a short count is allowed
    | WouldBlock      // EWOULDBLOCK
    | PeerGone        // EPIPE or ECONNRESET
    | OtherError

  datatype ReadResult = Received(bytes: string) | ReadFailed   // zero bytes: the peer closed

  /** Functors a connection queues on its own loop. */
  datatype Note = WriteComplete | HighWater(bytes: nat)

  datatype Callback = Up | Down | Message | Close

  /** The test guarding the half-close at the end of `handleWrite`. */
  datatype DrainTest = Intended | AsWritten

  /** Which optional callbacks the user installed, and which drain test is compiled in. */
  datatype Config = Config(writeComplete: bool, highWater: bool, drainTest: DrainTest)

  const HIGH_WATER_MARK: nat := 64 * 1024 * 1024

  datatype Conn = Conn(
    state: StateE,
    reading: bool,
    writing: bool,
    input: string,
    output: string,
    wire: string,               // every byte the kernel has taken
    notes: seq<Note>,           // every functor queued
    callbacks: seq<Callback>,   // every user-visible callback made
    halfClosed: bool)           // shutdown(SHUT_WR) has been called

  const FRESH: Conn := Conn(Connecting, false, false, "", "", "", [], [], false)

  // ---------------------------------------------------------------------------------------------
  // The handlers
  // ---------------------------------------------------------------------------------------------

  function StateCode(s: StateE): int {
    match s
    case Disconnected => 0
    case Connecting => 1
    case Connected => 2
    case Disconnecting => 3
  }

  /** `!state_ == kDisconnecting` compares the negation of the state code, 0 or 1, with 3. */
  predicate DrainTestHolds(test: DrainTest, s: StateE) {
    match test
    case Intended => s == Disconnecting
    case AsWritten => (if StateCode(s) == 0 then 1 else 0) == StateCode(Disconnecting)
  }

  /** `sendInLoop` first tries the kernel when nothing is buffered. */
  predicate WritesDirectly(c: Conn) { !c.writing && c.output == "" }

  /** A message is turned away on a closed connection, or when the first write finds the peer gone. */
  predicate TurnedAway(c: Conn, result: WriteResult) {
    c.state == Disconnected || (WritesDirectly(c) && result.PeerGone?)
  }

  function DirectCount(c: Conn, result: WriteResult): nat {
    if WritesDirectly(c) && result.Wrote? then result.n else 0
  }

  /** The first half of a send: one `write` when nothing is buffered. */
  function TryKernel(cfg: Config, c: Conn, data: string, result: WriteResult): Conn
    requires DirectCount(c, result) <= |data|
  {
    if !WritesDirectly(c) || !result.Wrote? then c
    else c.(wire := c.wire + data[..result.n],
            notes := c.notes + if result.n == |data| && cfg.writeComplete then [WriteComplete] else [])
  }

  predicate CrossesMark(c: Conn, remaining: nat) {
    |c.output| + remaining >= HIGH_WATER_MARK && |c.output| < HIGH_WATER_MARK
  }

  /** The second half: what the kernel did not take is buffered. */
  function BufferRest(cfg: Config, c: Conn, rest: string): Conn {
    c.(notes := c.notes + if CrossesMark(c, |rest|) && cfg.highWater then [HighWater(|c.output| + |rest|)] else [],
       output := c.output + rest,
       writing := true)
  }

  function SendInLoop(cfg: Config, c: Conn, data: string, result: WriteResult): Conn
    requires DirectCount(c, result) <= |data|
  {
    if TurnedAway(c, result) then c
    else
      var n := DirectCount(c, result);
      var tried := TryKernel(cfg, c, data, result);
      if n < |data| then BufferRest(cfg, tried, data[n..]) else tried
  }

  function ShutdownInLoop(c: Conn): Conn {
    if c.writing then c else c.(halfClosed := true)
  }

  /** Nothing is left to write: the callback, and the half-close that waited for this moment. */
  function Drained(cfg: Config, c: Conn): Conn {
    var told := c.(notes := c.notes + if cfg.writeComplete then [WriteComplete] else []);
    if DrainTestHolds(cfg.drainTest, c.state) then ShutdownInLoop(told) else told
  }

  function HandleWrite(cfg: Config, c: Conn, result: WriteResult): Conn
    requires result.Wrote? ==> result.n <= |c.output|
  {
    if !c.writing || !result.Wrote? || result.n == 0 then c
    else
      var sent := c.(wire := c.wire + c.output[..result.n], output := c.output[result.n..]);
      if sent.output != "" then sent else Drained(cfg, sent.(writing := false))
  }

  function HandleClose(c: Conn): Conn {
    c.(state := Disconnected, reading := false, writing := false, callbacks := c.callbacks + [Down, Close])
  }

  function HandleRead(c: Conn, result: ReadResult): Conn {
    match result
    case ReadFailed => c
    case Received(bytes) =>
      if bytes == "" then HandleClose(c)
      else c.(input := c.input + bytes, callbacks := c.callbacks + [Message])
  }

  function Shutdown(c: Conn): Conn {
    if c.state == Connected then c.(state := Disconnecting) else c
  }

  function ConnectionEstablished(c: Conn): Conn {
    c.(state := Connected, reading := true, callbacks := c.callbacks + [Up])
  }

  function ConnectDestroyed(c: Conn): Conn {
    if c.state == Connected then
      c.(state := Disconnected, reading := false, writing := false, callbacks := c.callbacks + [Down])
    else c
  }

  // ---------------------------------------------------------------------------------------------
  // Runs
  // ---------------------------------------------------------------------------------------------

  datatype Event =
    | Establish
    | Send(data: string, result: WriteResult)
    | Writable(result: WriteResult)
    | Readable(outcome: ReadResult)
    | Hangup
    | UserShutdown
    | RunShutdown
    | Consume(len: nat)      // the user retrieves from the input buffer
    | Destroy

  /** The kernel never takes more than it is offered, and a connection is established first and
      only once. */
  predicate Allowed(c: Conn, e: Event) {
    && (e.Establish? <==> c.state == Connecting)
    && (e.Send? ==> DirectCount(c, e.result) <= |e.data|)
    && (e.Writable? && e.result.Wrote? ==> e.result.n <= |c.output|)
  }

  function ConnAfter(cfg: Config, c: Conn, e: Event): Conn
    requires Allowed(c, e)
  {
    match e
    case Establish => ConnectionEstablished(c)
    case Send(data, result) => SendInLoop(cfg, c, data, result)
    case Writable(result) => HandleWrite(cfg, c, result)
    case Readable(outcome) => HandleRead(c, outcome)
    case Hangup => HandleClose(c)
    case UserShutdown => Shutdown(c)
    case RunShutdown => ShutdownInLoop(c)
    case Consume(len) => c.(input := if len < |c.input| then c.input[len..] else "")
    case Destroy => ConnectDestroyed(c)
  }

  /** A hang-up, or a read that finds end of file. */
  predicate Closes(e: Event) { e.Hangup? || (e.Readable? && e.outcome == Received("")) }

  /** What an event does to the connection's channel, and so to its poller and the kernel. */
  function Rewatched(t: Table, fd: int, e: Event, before: Conn, after: Conn): Table
    requires fd in t.chans
  {
    if e.Establish? then Changed(t, fd, EnableReading)
    else if Closes(e) then Changed(t, fd, DisableAll)
    else if e.Destroy? then Removed(if before.state == Connected then Changed(t, fd, DisableAll) else t, fd)
    else if after.writing && !before.writing then Changed(t, fd, EnableWriting)
    else if before.writing && !after.writing then Changed(t, fd, DisableWriting)
    else t
  }

  predicate Legal(cfg: Config, run: seq<Event>)
    decreases |run|, 0
  {
    run == [] || (Legal(cfg, run[..|run| - 1]) && Allowed(RunConn(cfg, run[..|run| - 1]), run[|run| - 1]))
  }

  function RunConn(cfg: Config, run: seq<Event>): Conn
    requires Legal(cfg, run)
    decreases |run|, 1
  {
    if run == [] then FRESH else ConnAfter(cfg, RunConn(cfg, run[..|run| - 1]), run[|run| - 1])
  }

  lemma Extend(cfg: Config, run: seq<Event>, e: Event)
    requires Legal(cfg, run) && Allowed(RunConn(cfg, run), e)
    ensures Legal(cfg, run + [e]) && RunConn(cfg, run + [e]) == ConnAfter(cfg, RunConn(cfg, run), e)
  {
    assert (run + [e])[..|run + [e]| - 1] == run;
  }

  /** Only two things lose a message: the connection is closed, or nothing was waiting to be written, the
      message was offered to the kernel at once, and the kernel found the peer gone. */
  predicate Kept(c: Conn, result: WriteResult) {
    c.state != Disconnected && !(result.PeerGone? && !c.writing && c.output == "")
  }

  function AcceptedNow(c: Conn, e: Event): string {
    if e.Send? && Kept(c, e.result) then e.data else ""
  }

  /** The messages of the run that are to be kept, in order. */
  function AcceptedBytes(cfg: Config, run: seq<Event>): string
    requires Legal(cfg, run)
  {
    if run == [] then ""
    else
      AcceptedBytes(cfg, run[..|run| - 1]) + AcceptedNow(RunConn(cfg, run[..|run| - 1]), run[|run| - 1])
  }

  // ---------------------------------------------------------------------------------------------
  // Conservation and write interest
  // ---------------------------------------------------------------------------------------------

  lemma Rejoin(prefix: string, data: string, n: nat)
    requires n <= |data|
    ensures (prefix + data[..n]) + data[n..] == prefix + data
  {
  }

  /** A message is kept whole, behind everything before it, or leaves the connection as it was. */
  lemma SendOutcome(cfg: Config, c: Conn, data: string, result: WriteResult)
    requires DirectCount(c, result) <= |data|
    ensures var after := SendInLoop(cfg, c, data, result);
            if c.state != Disconnected && !(result.PeerGone? && !c.writing && c.output == "")
            then after.wire + after.output == c.wire + c.output + data
            else after == c
  {
    if Kept(c, result) {
      var n, after := DirectCount(c, result), SendInLoop(cfg, c, data, result);
      if WritesDirectly(c) && result.Wrote? {
        assert after.wire == c.wire + data[..n] && after.output == data[n..];
        Rejoin(c.wire, data, n);
      } else {
        assert after.wire == c.wire && after.output == c.output + data;
        assert c.wire + (c.output + data) == c.wire + c.output + data;
      }
    }
  }

  lemma WriteConserves(cfg: Config, c: Conn, result: WriteResult)
    requires result.Wrote? ==> result.n <= |c.output|
    ensures var after := HandleWrite(cfg, c, result);
            after.wire + after.output == c.wire + c.output
  {
    if c.writing && result.Wrote? {
      Rejoin(c.wire, c.output, result.n);
    }
  }

  lemma ConservationStep(cfg: Config, c: Conn, e: Event)
    requires Allowed(c, e)
    ensures ConnAfter(cfg, c, e).wire + ConnAfter(cfg, c, e).output == c.wire + c.output + AcceptedNow(c, e)
  {
    match e
    case Send(data, result) =>
      SendOutcome(cfg, c, data, result);
      assert !Kept(c, result) ==> c.wire + c.output + "" == c.wire + c.output;
    case Writable(result) => WriteConserves(cfg, c, result);
    case _ =>
  }

  /** What the kernel took, followed by what is still buffered, is exactly what was accepted. */
  lemma {:induction false} Conservation(cfg: Config, run: seq<Event>)
    requires Legal(cfg, run)
    ensures RunConn(cfg, run).wire + RunConn(cfg, run).output == AcceptedBytes(cfg, run)
  {
    if run != [] {
      Conservation(cfg, run[..|run| - 1]);
      ConservationStep(cfg, RunConn(cfg, run[..|run| - 1]), run[|run| - 1]);
    }
  }

  /** A send moves bytes and at most asks for writability. */
  lemma SendShows(cfg: Config, c: Conn, data: string, result: WriteResult)
    requires DirectCount(c, result) <= |data|
    ensures var c' := SendInLoop(cfg, c, data, result);
      && c'.state == c.state && c'.reading == c.reading && c'.callbacks == c.callbacks && c'.halfClosed == c.halfClosed
      && (c.state == Disconnected ==> c'.writing == c.writing)
  {
  }

  /** A write moves bytes and at most gives writability up. */
  lemma WriteShows(cfg: Config, c: Conn, result: WriteResult)
    requires result.Wrote? ==> result.n <= |c.output|
    ensures var c' := HandleWrite(cfg, c, result);
      && c'.state == c.state && c'.reading == c.reading && c'.callbacks == c.callbacks
      && (c'.writing ==> c.writing)
  {
  }

  /** Until it is disconnected, a connection asks for writability exactly while it has bytes to write. */
  lemma {:induction false} WriteInterest(cfg: Config, run: seq<Event>)
    requires Legal(cfg, run) && RunConn(cfg, run).state != Disconnected
    ensures RunConn(cfg, run).writing <==> RunConn(cfg, run).output != ""
  {
    if run != [] && run[..|run| - 1] != [] {
      StatesMoveForward(cfg, run);
      WriteInterest(cfg, run[..|run| - 1]);
    }
  }

  function Rank(s: StateE): nat {
    match s
    case Connecting => 0
    case Connected => 1
    case Disconnecting => 2
    case Disconnected => 3
  }

  /** Connecting, Connected, Disconnecting, Disconnected: the states are never revisited, and
      Connecting is left for good by the first event. */
  lemma {:induction false} StatesMoveForward(cfg: Config, run: seq<Event>)
    requires Legal(cfg, run) && run != []
    ensures Rank(RunConn(cfg, run[..|run| - 1]).state) <= Rank(RunConn(cfg, run).state)
    ensures RunConn(cfg, run).state != Connecting
  {
    if |run| > 1 {
      StatesMoveForward(cfg, run[..|run| - 1]);
    }
  }

  predicate IsOpen(s: StateE) { s == Connected || s == Disconnecting }

  /** In every run a connection listens for input exactly while it is open, and for writability exactly
      while it is open and has bytes to write. */
  lemma {:induction false} ListensWhileOpen(cfg: Config, run: seq<Event>)
    requires Legal(cfg, run)
    ensures var c := RunConn(cfg, run);
      && (c.reading <==> IsOpen(c.state))
      && (c.writing <==> IsOpen(c.state) && c.output != "")
  {
    if run != [] {
      ListensWhileOpen(cfg, run[..|run| - 1]);
    }
  }

  // ---------------------------------------------------------------------------------------------
  // Half-close
  // ---------------------------------------------------------------------------------------------

  /** The write side is shut down only while nothing waits to be written. */
  lemma HalfCloseIsQuiet(cfg: Config, c: Conn, e: Event)
    requires Allowed(c, e) && !c.halfClosed && ConnAfter(cfg, c, e).halfClosed
    ensures !ConnAfter(cfg, c, e).writing
  {
    if e.Send? {
      SendShows(cfg, c, e.data, e.result);
    }
  }

  /** The write side of a live connection is shut down only when every accepted byte is on the wire. */
  lemma HalfCloseAfterLastByte(cfg: Config, run: seq<Event>)
    requires Legal(cfg, run) && run != []
    requires !RunConn(cfg, run[..|run| - 1]).halfClosed && RunConn(cfg, run).halfClosed
    requires RunConn(cfg, run).state != Disconnected
    ensures RunConn(cfg, run).wire == AcceptedBytes(cfg, run)
  {
    HalfCloseIsQuiet(cfg, RunConn(cfg, run[..|run| - 1]), run[|run| - 1]);
    WriteInterest(cfg, run);
    Conservation(cfg, run);
  }

  /** A kernel that answers every write after SHUT_WR with EPIPE. */
  predicate RefusesAfterHalfClose(cfg: Config, run: seq<Event>)
    requires Legal(cfg, run)
  {
    run != [] ==>
      && RefusesAfterHalfClose(cfg, run[..|run| - 1])
      && (RunConn(cfg, run[..|run| - 1]).halfClosed && run[|run| - 1].Send? ==> run[|run| - 1].result.PeerGone?)
  }

  /** Nothing is accepted, buffered or sent on a live connection once its write side is shut down. */
  lemma {:induction false} SilentAfterHalfClose(cfg: Config, run: seq<Event>)
    requires Legal(cfg, run) && RefusesAfterHalfClose(cfg, run) && run != []
    requires RunConn(cfg, run[..|run| - 1]).halfClosed && RunConn(cfg, run).state != Disconnected
    ensures RunConn(cfg, run).output == ""
    ensures RunConn(cfg, run).wire == RunConn(cfg, run[..|run| - 1]).wire == AcceptedBytes(cfg, run)
  {
    StatesMoveForward(cfg, run);
    HalfClosedIsDrained(cfg, run[..|run| - 1]);
    WriteInterest(cfg, run[..|run| - 1]);
    HalfClosedStaysEmpty(cfg, RunConn(cfg, run[..|run| - 1]), run[|run| - 1]);
    Conservation(cfg, run);
  }

  /** A half-closed connection with nothing to write, and a kernel that refuses, stay that way. */
  lemma HalfClosedStaysEmpty(cfg: Config, c: Conn, e: Event)
    requires Allowed(c, e) && c.halfClosed && c.output == "" && !c.writing
    requires e.Send? ==> e.result.PeerGone?
    ensures ConnAfter(cfg, c, e).output == "" && ConnAfter(cfg, c, e).wire == c.wire
  {
    assert WritesDirectly(c);
  }

  lemma {:induction false} HalfClosedIsDrained(cfg: Config, run: seq<Event>)
    requires Legal(cfg, run) && RefusesAfterHalfClose(cfg, run)
    requires RunConn(cfg, run).halfClosed && RunConn(cfg, run).state != Disconnected
    ensures RunConn(cfg, run).output == ""
  {
    var before, e := run[..|run| - 1], run[|run| - 1];
    if RunConn(cfg, before).halfClosed {
      StatesMoveForward(cfg, run);
      HalfClosedIsDrained(cfg, before);
      WriteInterest(cfg, before);
      HalfClosedStaysEmpty(cfg, RunConn(cfg, before), e);
    } else {
      HalfCloseIsQuiet(cfg, RunConn(cfg, before), e);
      WriteInterest(cfg, run);
    }
  }

  /** `shutdown` leaves Connected before it hands its request to the loop. */
  predicate ShutdownAskedFirst(cfg: Config, run: seq<Event>)
    requires Legal(cfg, run)
  {
    run != [] ==>
      && ShutdownAskedFirst(cfg, run[..|run| - 1])
      && (run[|run| - 1].RunShutdown? ==> RunConn(cfg, run[..|run| - 1]).state != Connected)
  }

  /** The event that drains a connection asked to shut down also half-closes it. */
  lemma DrainHalfCloses(cfg: Config, c: Conn, e: Event)
    requires Allowed(c, e) && cfg.drainTest == Intended
    requires c.state == Disconnecting && c.output != ""
    requires ConnAfter(cfg, c, e).output == ""
    ensures ConnAfter(cfg, c, e).halfClosed
  {
  }

  lemma HalfClosedForGood(cfg: Config, c: Conn, e: Event)
    requires Allowed(c, e) && c.halfClosed
    ensures ConnAfter(cfg, c, e).halfClosed
  {
    match e
    case Send(data, result) => SendShows(cfg, c, data, result);
    case _ =>
  }

  /** The promise of `shutdown`: once its request has run, a connection still open has told the peer
      as soon as nothing is left to write. */
  lemma {:induction false} ShutdownKeepsItsPromise(cfg: Config, run: seq<Event>)
    requires Legal(cfg, run) && ShutdownAskedFirst(cfg, run) && cfg.drainTest == Intended
    requires exists k :: 0 <= k < |run| && run[k].RunShutdown?
    requires RunConn(cfg, run).state != Disconnected && RunConn(cfg, run).output == ""
    ensures RunConn(cfg, run).halfClosed
  {
    var e, before := run[|run| - 1], RunConn(cfg, run[..|run| - 1]);
    WriteInterest(cfg, run);
    if !e.RunShutdown? {
      StatesMoveForward(cfg, run);
      var k :| 0 <= k < |run| && run[k].RunShutdown?;
      assert run[..|run| - 1][k].RunShutdown?;
      LeftConnected(cfg, run[..|run| - 1], k);
      if before.output == "" {
        ShutdownKeepsItsPromise(cfg, run[..|run| - 1]);
        HalfClosedForGood(cfg, before, e);
      } else {
        DrainHalfCloses(cfg, before, e);
      }
    }
  }

  lemma {:induction false} LeftConnected(cfg: Config, run: seq<Event>, k: nat)
    requires Legal(cfg, run) && ShutdownAskedFirst(cfg, run)
    requires k < |run| && run[k].RunShutdown?
    ensures Rank(RunConn(cfg, run).state) >= Rank(Disconnecting)
  {
    StatesMoveForward(cfg, run);
    if k < |run| - 1 {
      LeftConnected(cfg, run[..|run| - 1], k);
    }
  }

  /** Some request to shut down ran while nothing was waiting to be written. */
  predicate ShutdownFoundIdle(cfg: Config, run: seq<Event>)
    requires Legal(cfg, run)
  {
    run != [] &&
    (ShutdownFoundIdle(cfg, run[..|run| - 1]) || (run[|run| - 1].RunShutdown? && !RunConn(cfg, run[..|run| - 1]).writing))
  }

  /** With the drain test as it stands in the source, the end of a drain never shuts anything down:
      the peer is told exactly when a request happened to run on an idle connection. */
  lemma {:induction false} AsWrittenHalfClosesIff(cfg: Config, run: seq<Event>)
    requires Legal(cfg, run) && cfg.drainTest == AsWritten
    ensures RunConn(cfg, run).halfClosed <==> ShutdownFoundIdle(cfg, run)
  {
    if run != [] {
      AsWrittenHalfClosesIff(cfg, run[..|run| - 1]);
    }
  }

  /** Two bytes, one short write, a shutdown, and the rest of the bytes: the promise is kept by the
      intended test and broken by the written one. */
  lemma AsWrittenBreaksThePromise() returns (run: seq<Event>)
    ensures forall test :: ShutdownOutcome(Config(true, true, test), run)
  {
    var r1, r2, r3, r4, r5 := Establish, Send("ab", Wrote(1)), UserShutdown, RunShutdown, Writable(Wrote(1));
    run := [] + [r1] + [r2] + [r3] + [r4] + [r5];
    forall test
      ensures ShutdownOutcome(Config(true, true, test), run)
    {
      var cfg := Config(true, true, test);
      Extend(cfg, [], r1);
      Extend(cfg, [] + [r1], r2);
      Extend(cfg, [] + [r1] + [r2], r3);
      Extend(cfg, [] + [r1] + [r2] + [r3], r4);
      Extend(cfg, [] + [r1] + [r2] + [r3] + [r4], r5);
      assert ([] + [r1] + [r2] + [r3] + [r4] + [r5])[..4] == [] + [r1] + [r2] + [r3] + [r4];
      assert ([] + [r1] + [r2] + [r3] + [r4])[..|[] + [r1] + [r2] + [r3] + [r4]| - 1] == [] + [r1] + [r2] + [r3];
      assert ([] + [r1] + [r2] + [r3])[..|[] + [r1] + [r2] + [r3]| - 1] == [] + [r1] + [r2];
      assert ([] + [r1] + [r2])[..|[] + [r1] + [r2]| - 1] == [] + [r1];
      assert ShutdownAskedFirst(cfg, [] + [r1] + [r2]);
    }
  }

  predicate ShutdownOutcome(cfg: Config, run: seq<Event>) {
    && Legal(cfg, run) && ShutdownAskedFirst(cfg, run)
    && RunConn(cfg, run).state == Disconnecting && RunConn(cfg, run).output == ""
    && (RunConn(cfg, run).halfClosed <==> cfg.drainTest == Intended)
  }

  // ---------------------------------------------------------------------------------------------
  // Counting notifications
  // ---------------------------------------------------------------------------------------------

  function HighWaters(notes: seq<Note>): nat {
    if notes == [] then 0 else HighWaters(notes[..|notes| - 1]) + if notes[|notes| - 1].HighWater? then 1 else 0
  }

  function WriteCompletes(notes: seq<Note>): nat {
    if notes == [] then 0 else WriteCompletes(notes[..|notes| - 1]) + if notes[|notes| - 1].WriteComplete? then 1 else 0
  }

  lemma CountAppended(notes: seq<Note>, more: seq<Note>)
    requires |more| <= 1
    ensures HighWaters(notes + more) == HighWaters(notes) + HighWaters(more)
    ensures WriteCompletes(notes + more) == WriteCompletes(notes) + WriteCompletes(more)
  {
    if more == [] {
      assert notes + more == notes;
    } else {
      assert (notes + more)[..|notes + more| - 1] == notes && more[..|more| - 1] == [];
    }
  }

  predicate AboveMark(c: Conn) { |c.output| >= HIGH_WATER_MARK }

  /** The steps at which the buffered bytes fall from the mark to below it. */
  function Falls(cfg: Config, run: seq<Event>): nat
    requires Legal(cfg, run)
  {
    if run == [] then 0
    else
      var fell := AboveMark(RunConn(cfg, run[..|run| - 1])) && !AboveMark(RunConn(cfg, run));
      Falls(cfg, run[..|run| - 1]) + if fell then 1 else 0
  }

  lemma HighWaterStep(cfg: Config, c: Conn, e: Event)
    requires Allowed(c, e) && cfg.highWater
    ensures NotesOf(cfg, c, e) != [] && NotesOf(cfg, c, e)[0].HighWater? <==>
            !AboveMark(c) && AboveMark(ConnAfter(cfg, c, e))
  {
  }

  lemma CompletionStep(cfg: Config, c: Conn, e: Event)
    requires Allowed(c, e)
    ensures NotesOf(cfg, c, e) == [WriteComplete] <==>
            cfg.writeComplete && (Drains(cfg, c, e) || CompletesAtOnce(c, e))
  {
  }

  /** High-water notifications and falls below the mark alternate. */
  lemma {:induction false} HighWaterCount(cfg: Config, run: seq<Event>)
    requires Legal(cfg, run) && cfg.highWater
    ensures HighWaters(RunConn(cfg, run).notes) - Falls(cfg, run) == if AboveMark(RunConn(cfg, run)) then 1 else 0
  {
    if run != [] {
      HighWaterCount(cfg, run[..|run| - 1]);
      CountStep(cfg, run);
      HighWaterStep(cfg, RunConn(cfg, run[..|run| - 1]), run[|run| - 1]);
    }
  }

  /** The functors one event queues. */
  function NotesOf(cfg: Config, c: Conn, e: Event): (notes: seq<Note>)
    requires Allowed(c, e)
    ensures ConnAfter(cfg, c, e).notes == c.notes + notes && |notes| <= 1
  {
    match e
    case Send(data, result) =>
      if TurnedAway(c, result) then []
      else if DirectCount(c, result) < |data| then
        if CrossesMark(c, |data| - DirectCount(c, result)) && cfg.highWater
        then [HighWater(|c.output| + |data| - DirectCount(c, result))] else []
      else if WritesDirectly(c) && result.Wrote? && cfg.writeComplete then [WriteComplete] else []
    case Writable(result) =>
      if c.writing && result.Wrote? && 0 < result.n == |c.output| && cfg.writeComplete then [WriteComplete] else []
    case _ => []
  }

  lemma CountStep(cfg: Config, run: seq<Event>)
    requires Legal(cfg, run) && run != []
    ensures var notes := NotesOf(cfg, RunConn(cfg, run[..|run| - 1]), run[|run| - 1]);
      && HighWaters(RunConn(cfg, run).notes) ==
           HighWaters(RunConn(cfg, run[..|run| - 1]).notes) + (if notes != [] && notes[0].HighWater? then 1 else 0)
      && WriteCompletes(RunConn(cfg, run).notes) ==
           WriteCompletes(RunConn(cfg, run[..|run| - 1]).notes) + (if notes == [WriteComplete] then 1 else 0)
  {
    CountAppended(RunConn(cfg, run[..|run| - 1]).notes, NotesOf(cfg, RunConn(cfg, run[..|run| - 1]), run[|run| - 1]));
  }

  /** The output buffer ran empty. */
  predicate Drains(cfg: Config, c: Conn, e: Event)
    requires Allowed(c, e)
  {
    c.output != "" && ConnAfter(cfg, c, e).output == ""
  }

  /** A send the kernel took whole, at once. */
  predicate CompletesAtOnce(c: Conn, e: Event) {
    e.Send? && c.state != Disconnected && !c.writing && c.output == "" && e.result == Wrote(|e.data|)
  }

  function Completions(cfg: Config, run: seq<Event>): nat
    requires Legal(cfg, run)
  {
    if run == [] then 0
    else
      var c := RunConn(cfg, run[..|run| - 1]);
      var e := run[|run| - 1];
      Completions(cfg, run[..|run| - 1]) + if Drains(cfg, c, e) || CompletesAtOnce(c, e) then 1 else 0
  }

  /** One write-complete callback for each time the outstanding output runs out, and none besides. */
  lemma {:induction false} WriteCompleteCount(cfg: Config, run: seq<Event>)
    requires Legal(cfg, run)
    ensures WriteCompletes(RunConn(cfg, run).notes) == if cfg.writeComplete then Completions(cfg, run) else 0
  {
    if run != [] {
      WriteCompleteCount(cfg, run[..|run| - 1]);
      CountStep(cfg, run);
      CompletionStep(cfg, RunConn(cfg, run[..|run| - 1]), run[|run| - 1]);
    }
  }

  /** Whenever a write-complete callback is queued, every accepted byte is on the wire. */
  lemma WriteCompleteMeansSent(cfg: Config, run: seq<Event>)
    requires Legal(cfg, run) && run != []
    requires NotesOf(cfg, RunConn(cfg, run[..|run| - 1]), run[|run| - 1]) == [WriteComplete]
    ensures RunConn(cfg, run).wire == AcceptedBytes(cfg, run) && RunConn(cfg, run).output == ""
  {
    Conservation(cfg, run);
  }

  // ---------------------------------------------------------------------------------------------
  // Several events
  // ---------------------------------------------------------------------------------------------

  function ConnAfterAll(cfg: Config, c: Conn, events: seq<Event>): Conn
    requires AllAllowed(cfg, c, events)
    decreases |events|, 1
  {
    if events == [] then c else ConnAfterAll(cfg, ConnAfter(cfg, c, events[0]), events[1..])
  }

  predicate AllAllowed(cfg: Config, c: Conn, events: seq<Event>)
    decreases |events|, 0
  {
    events == [] || (Allowed(c, events[0]) && AllAllowed(cfg, ConnAfter(cfg, c, events[0]), events[1..]))
  }

  /** A sequence of events may be performed in two parts. */
  lemma {:induction false} InTwo(cfg: Config, c: Conn, a: seq<Event>, b: seq<Event>)
    requires AllAllowed(cfg, c, a + b)
    ensures AllAllowed(cfg, c, a) && AllAllowed(cfg, ConnAfterAll(cfg, c, a), b)
    ensures ConnAfterAll(cfg, c, a + b) == ConnAfterAll(cfg, ConnAfterAll(cfg, c, a), b)
    decreases |a|
  {
    if a == [] {
      assert a + b == b;
    } else {
      assert (a + b)[1..] == a[1..] + b && (a + b)[0] == a[0];
      InTwo(cfg, ConnAfter(cfg, c, a[0]), a[1..], b);
    }
  }

  // ---------------------------------------------------------------------------------------------
  // One dispatch
  // ---------------------------------------------------------------------------------------------

  /** What `handleEventWithGuard` calls, in order: close on a hang-up without input, then read, then
      write.  `onClose` and `onRead` are what the user's callbacks call in turn, at the end of the
      handlers that make them. */
  function DispatchEvents(revents: Mask, outcome: ReadResult, result: WriteResult,
                          onClose: seq<Event>, onRead: seq<Event>): seq<Event>
  {
    CloseEvents(revents, onClose) + (ReadEvents(revents, outcome, onRead) + WriteEvents(revents, result))
  }

  function CloseEvents(revents: Mask, calls: seq<Event>): seq<Event> {
    if revents.pollHup && !revents.pollIn then [Hangup] + calls else []
  }

  function ReadEvents(revents: Mask, outcome: ReadResult, calls: seq<Event>): seq<Event> {
    if IsReading(revents) then [Readable(outcome)] + calls else []
  }

  function WriteEvents(revents: Mask, result: WriteResult): seq<Event> {
    if revents.pollOut then [Writable(result)] else []
  }
}

// The connection object itself: src/net/TcpConnection.cpp over `Buffer`, `Channel` and `EpollPoller`.
//
// Each method is the event of the same name in ConnectionSpec: its new state is the specified one,
// whatever the kernel answered, and the poller's tables stay in agreement.

module TcpConnection {
  import opened EpollSpec
  import opened Epoll
  import opened ByteBuffer
  import opened ConnectionSpec
  import ConnectionLaws

  class TcpConnection {
    const cfg: Config
    const channel: Channel
    const inputBuffer: Buffer
    const outputBuffer: Buffer
    var state: StateE
    var notes: seq<Note>             // functors queued on the owner loop
    ghost var wire: string
    ghost var callbacks: seq<Callback>
    ghost var halfClosed: bool

    ghost predicate Valid()
      reads this, channel, channel.poller, inputBuffer, outputBuffer
    {
      && inputBuffer.Valid() && outputBuffer.Valid()
      && inputBuffer != outputBuffer && inputBuffer.data != outputBuffer.data
      && channel.poller.Valid() && channel.Attached()
    }

    ghost function View(): Conn
      reads this, channel, inputBuffer, inputBuffer.data, outputBuffer, outputBuffer.data
      requires inputBuffer.Valid() && outputBuffer.Valid()
    {
      Conn(state, IsReading(channel.events), IsWriting(channel.events), inputBuffer.Contents(),
           outputBuffer.Contents(), wire, notes, callbacks, halfClosed)
    }

    constructor (poller: EpollPoller, fd: int, cfg: Config)
      requires poller.Valid() && fd !in poller.registry
      modifies poller`registry, poller`chans
      ensures Valid() && View() == FRESH && this.cfg == cfg
      ensures channel.poller == poller && channel.fd == fd
      ensures inputBuffer.Shape() == Fresh(1024) && fresh(channel)
      ensures fresh(inputBuffer) && fresh(inputBuffer.data) && fresh(outputBuffer) && fresh(outputBuffer.data)
      ensures poller.View() == Opened(old(poller.View()), fd)
    {
      this.cfg := cfg;
      state, notes, wire, callbacks, halfClosed := Connecting, [], "", [], false;
      channel := new Channel(poller, fd);
      inputBuffer := new Buffer(1024);
      outputBuffer := new Buffer(1024);
      new;
    }

    method ConnectionEstablished()
      requires Valid()
      modifies this, channel`events, channel`index
      modifies channel.poller`chans, channel.poller`channels, channel.poller`kernel, channel.poller`errors
      ensures Valid() && View() == ConnectionSpec.ConnectionEstablished(old(View()))
      ensures channel.poller.View() == Changed(old(channel.poller.View()), channel.fd, InterestOp.EnableReading)
    {
      state := Connected;
      channel.EnableReading();
      callbacks := callbacks + [Up];
    }

    method GainWriteInterest()
      requires Valid()
      modifies channel`events, channel`index
      modifies channel.poller`chans, channel.poller`channels, channel.poller`kernel, channel.poller`errors
      ensures Valid() && View() == old(View()).(writing := true)
      ensures channel.poller.View() == Changed(old(channel.poller.View()), channel.fd, InterestOp.EnableWriting)
    {
      channel.EnableWriting();
    }

    method LoseWriteInterest()
      requires Valid()
      modifies channel`events, channel`index
      modifies channel.poller`chans, channel.poller`channels, channel.poller`kernel, channel.poller`errors
      ensures Valid() && View() == old(View()).(writing := false)
      ensures channel.poller.View() == Changed(old(channel.poller.View()), channel.fd, InterestOp.DisableWriting)
    {
      channel.DisableWriting();
    }

    method LoseAllInterest()
      requires Valid()
      modifies channel`events, channel`index
      modifies channel.poller`chans, channel.poller`channels, channel.poller`kernel, channel.poller`errors
      ensures Valid() && View() == old(View()).(reading := false, writing := false)
      ensures channel.poller.View() == Changed(old(channel.poller.View()), channel.fd, InterestOp.DisableAll)
    {
      channel.DisableAll();
    }

    /** Appends to the output buffer and asks for writability. */
    method BufferOutput(rest: string)
      requires Valid()
      modifies channel`events, channel`index
      modifies channel.poller`chans, channel.poller`channels, channel.poller`kernel, channel.poller`errors
      modifies outputBuffer, outputBuffer.data
      ensures Valid() && View() == old(View()).(output := old(View()).output + rest, writing := true)
      ensures channel.poller.View() ==
              if old(View()).writing then old(channel.poller.View())
              else Changed(old(channel.poller.View()), channel.fd, InterestOp.EnableWriting)
      ensures outputBuffer.data == old(outputBuffer.data) || fresh(outputBuffer.data)
    {
      outputBuffer.Append(rest);
      if !IsWriting(channel.events) {
        GainWriteInterest();
      }
    }

    method RetrieveOutput(n: nat) returns (drained: bool)
      requires Valid() && n <= |View().output|
      modifies outputBuffer`readerIndex, outputBuffer`writerIndex
      ensures Valid() && drained == (n == |old(View()).output|)
      ensures View() == old(View()).(output := old(View()).output[n..])
    {
      outputBuffer.Retrieve(n);
      var left := outputBuffer.ReadableBytes();
      drained := left == 0;
    }

    /** Gives back what the kernel took, and loses interest in writability once nothing is left. */
    method RetireOutput(n: nat) returns (drained: bool)
      requires Valid() && n <= |View().output|
      modifies channel`events, channel`index
      modifies channel.poller`chans, channel.poller`channels, channel.poller`kernel, channel.poller`errors
      modifies outputBuffer`readerIndex, outputBuffer`writerIndex
      ensures Valid() && drained == (n == |old(View()).output|)
      ensures View() == old(View()).(output := old(View()).output[n..], writing := old(View()).writing && !drained)
      ensures channel.poller.View() ==
              if !drained then old(channel.poller.View())
              else Changed(old(channel.poller.View()), channel.fd, InterestOp.DisableWriting)
    {
      drained := RetrieveOutput(n);
      if drained {
        LoseWriteInterest();
      }
    }

    /** The first half of `sendInLoop`: one `write` when nothing is buffered. */
    method TryKernel(data: string, result: WriteResult) returns (nwrote: nat, faultError: bool)
      requires Valid() && state != Disconnected && DirectCount(View(), result) <= |data|
      modifies this`wire, this`notes
      ensures Valid() && View() == ConnectionSpec.TryKernel(cfg, old(View()), data, result)
      ensures nwrote == DirectCount(old(View()), result) && faultError == TurnedAway(old(View()), result)
    {
      nwrote, faultError := 0, false;
      var buffered := outputBuffer.ReadableBytes();
      if !IsWriting(channel.events) && buffered == 0 {
        match result
        case Wrote(n) =>
          nwrote := n;
          wire := wire + data[..n];
          if |data| - nwrote == 0 && cfg.writeComplete {
            notes := notes + [WriteComplete];
          }
        case PeerGone =>
          faultError := true;
        case _ =>
      }
    }

    /** The second half: the rest is buffered, with a notification if that crosses the mark. */
    method BufferRest(rest: string)
      requires Valid()
      modifies this`notes, channel`events, channel`index
      modifies channel.poller`chans, channel.poller`channels, channel.poller`kernel, channel.poller`errors
      modifies outputBuffer, outputBuffer.data
      ensures Valid() && View() == ConnectionSpec.BufferRest(cfg, old(View()), rest)
      ensures channel.poller.View() ==
              if old(View()).writing then old(channel.poller.View())
              else Changed(old(channel.poller.View()), channel.fd, InterestOp.EnableWriting)
      ensures outputBuffer.data == old(outputBuffer.data) || fresh(outputBuffer.data)
    {
      var oldLen := outputBuffer.ReadableBytes();
      if oldLen + |rest| >= HIGH_WATER_MARK && oldLen < HIGH_WATER_MARK && cfg.highWater {
        notes := notes + [HighWater(oldLen + |rest|)];
      }
      assert View() == old(View()).(notes := ConnectionSpec.BufferRest(cfg, old(View()), rest).notes);
      BufferOutput(rest);
    }

    /** A send on a connection that is not closed. */
    method SendOpen(data: string, result: WriteResult)
      requires Valid() && DirectCount(View(), result) <= |data| && state != Disconnected
      modifies this, channel`events, channel`index
      modifies channel.poller`chans, channel.poller`channels, channel.poller`kernel, channel.poller`errors
      modifies outputBuffer, outputBuffer.data
      ensures Valid() && View() == ConnectionSpec.SendInLoop(cfg, old(View()), data, result)
      ensures channel.poller.View() ==
              if View().writing && !old(View()).writing
              then Changed(old(channel.poller.View()), channel.fd, InterestOp.EnableWriting)
              else old(channel.poller.View())
      ensures old(View()).writing ==> View().writing
      ensures outputBuffer.data == old(outputBuffer.data) || fresh(outputBuffer.data)
    {
      var nwrote, faultError := TryKernel(data, result);
      var remaining := |data| - nwrote;
      if !faultError && remaining > 0 {
        BufferRest(data[nwrote..]);
        assert View() == ConnectionSpec.SendInLoop(cfg, old(View()), data, result);
      } else {
        assert View() == ConnectionSpec.SendInLoop(cfg, old(View()), data, result);
      }
    }

    /** `result` is what `write` would answer if the connection tried it. */
    method SendInLoop(data: string, result: WriteResult)
      requires Valid() && DirectCount(View(), result) <= |data|
      modifies this, channel`events, channel`index
      modifies channel.poller`chans, channel.poller`channels, channel.poller`kernel, channel.poller`errors
      modifies outputBuffer, outputBuffer.data
      ensures Valid() && View() == ConnectionSpec.SendInLoop(cfg, old(View()), data, result)
      ensures channel.poller.View() ==
              Rewatched(old(channel.poller.View()), channel.fd, Event.Send(data, result), old(View()), View())
      ensures outputBuffer.data == old(outputBuffer.data) || fresh(outputBuffer.data)
    {
      if state != Disconnected {
        SendOpen(data, result);
      }
    }

    method ShutdownInLoop()
      requires Valid()
      modifies this`halfClosed
      ensures Valid() && View() == ConnectionSpec.ShutdownInLoop(old(View()))
    {
      if !IsWriting(channel.events) {
        halfClosed := true;
      }
    }

    /** The end of `handleWrite`, once the output buffer is empty. */
    method FinishDrain()
      requires Valid()
      modifies this`notes, this`halfClosed
      ensures Valid() && View() == Drained(cfg, old(View()))
    {
      if cfg.writeComplete {
        notes := notes + [WriteComplete];
      }
      if DrainTestHolds(cfg.drainTest, state) {
        ShutdownInLoop();
      }
    }

    method HandleWrite(result: WriteResult)
      requires Valid() && (result.Wrote? ==> result.n <= |View().output|)
      modifies this, channel`events, channel`index
      modifies channel.poller`chans, channel.poller`channels, channel.poller`kernel, channel.poller`errors
      modifies outputBuffer`readerIndex, outputBuffer`writerIndex
      ensures Valid() && View() == ConnectionSpec.HandleWrite(cfg, old(View()), result)
      ensures channel.poller.View() ==
              Rewatched(old(channel.poller.View()), channel.fd, Event.Writable(result), old(View()), View())
    {
      if IsWriting(channel.events) {
        if result.Wrote? && result.n > 0 {
          wire := wire + outputBuffer.Contents()[..result.n];
          var drained := RetireOutput(result.n);
          if drained {
            FinishDrain();
          }
        }
      }
    }

    method HandleClose()
      requires Valid()
      modifies this, channel`events, channel`index
      modifies channel.poller`chans, channel.poller`channels, channel.poller`kernel, channel.poller`errors
      ensures Valid() && View() == ConnectionSpec.HandleClose(old(View()))
      ensures channel.poller.View() == Changed(old(channel.poller.View()), channel.fd, InterestOp.DisableAll)
    {
      state := Disconnected;
      LoseAllInterest();
      callbacks := callbacks + [Down];
      callbacks := callbacks + [Close];
      assert View() == ConnectionSpec.HandleClose(old(View()));
    }

    method HandleRead(outcome: ConnectionSpec.ReadResult)
      requires Valid()
      requires outcome.Received? ==> |outcome.bytes| <= ReadCapacity(inputBuffer.Shape())
      modifies this, channel`events, channel`index
      modifies channel.poller`chans, channel.poller`channels, channel.poller`kernel, channel.poller`errors
      modifies inputBuffer, inputBuffer.data
      ensures Valid() && View() == ConnectionSpec.HandleRead(old(View()), outcome)
      ensures channel.poller.View() ==
              Rewatched(old(channel.poller.View()), channel.fd, Event.Readable(outcome), old(View()), View())
      ensures inputBuffer.Shape() ==
              if outcome.Received? then ByteBuffer.Received(old(inputBuffer.Shape()), |outcome.bytes|)
              else old(inputBuffer.Shape())
      ensures inputBuffer.data == old(inputBuffer.data) || fresh(inputBuffer.data)
    {
      var answer := match outcome case Received(bytes) => Data(bytes) case ReadFailed => ReadError(-1);
      var n, savedErrno := inputBuffer.ReadFd(answer);
      if n > 0 {
        callbacks := callbacks + [Message];
      } else if n == 0 {
        HandleClose();
      }
    }

    /** `send`, from the owner loop or from another thread; off the loop the bytes travel in a functor. */
    method Send(data: string, inLoopThread: bool, result: WriteResult) returns (handedOver: seq<string>)
      requires Valid() && DirectCount(View(), result) <= |data|
      modifies this, channel`events, channel`index
      modifies channel.poller`chans, channel.poller`channels, channel.poller`kernel, channel.poller`errors
      modifies outputBuffer, outputBuffer.data
      ensures Valid()
      ensures View() == if old(state) == Connected && inLoopThread
                        then ConnectionSpec.SendInLoop(cfg, old(View()), data, result) else old(View())
      ensures handedOver == if old(state) == Connected && !inLoopThread then [data] else []
    {
      handedOver := [];
      if state == Connected {
        if inLoopThread {
          SendInLoop(data, result);
        } else {
          handedOver := [data];
        }
      }
    }

    /** A buffer of the caller's: not the output buffer, possibly the input buffer. */
    ghost predicate Sendable(buf: Buffer)
      reads this, inputBuffer, outputBuffer, buf
    {
      && buf.Valid() && buf != outputBuffer && buf.data != outputBuffer.data
      && (buf.data == inputBuffer.data ==> buf == inputBuffer)
    }

    method TakeAll(buf: Buffer) returns (bytes: string)
      requires Valid() && Sendable(buf)
      modifies buf`readerIndex, buf`writerIndex
      ensures Valid() && Sendable(buf) && bytes == old(buf.Contents()) && buf.Contents() == ""
      ensures View() == if buf == inputBuffer then old(View()).(input := "") else old(View())
    {
      bytes := buf.RetrieveAllAsString();
    }

    /** `send(Buffer *)` on the owner loop: the buffer's bytes go out, and it is left empty. */
    method SendBufferInLoop(buf: Buffer, result: WriteResult)
      requires Valid() && Sendable(buf) && DirectCount(View(), result) <= |buf.Contents()|
      modifies this, channel`events, channel`index, buf`readerIndex, buf`writerIndex
      modifies channel.poller`chans, channel.poller`channels, channel.poller`kernel, channel.poller`errors
      modifies outputBuffer, outputBuffer.data
      ensures Valid() && buf.Valid() && buf.Contents() == ""
      ensures var sent := ConnectionSpec.SendInLoop(cfg, old(View()), old(buf.Contents()), result);
              View() == if buf == inputBuffer then sent.(input := "") else sent
    {
      var bytes := buf.Peek();
      SendInLoop(bytes, result);
      assert View() == ConnectionSpec.SendInLoop(cfg, old(View()), old(buf.Contents()), result);
      bytes := TakeAll(buf);
    }

    /** `send(Buffer *)`: as `send`, and the caller's buffer is left empty if the connection is open. */
    method SendBuffer(buf: Buffer, inLoopThread: bool, result: WriteResult) returns (handedOver: seq<string>)
      requires Valid() && Sendable(buf) && DirectCount(View(), result) <= |buf.Contents()|
      modifies this, channel`events, channel`index, buf`readerIndex, buf`writerIndex
      modifies channel.poller`chans, channel.poller`channels, channel.poller`kernel, channel.poller`errors
      modifies outputBuffer, outputBuffer.data
      ensures Valid() && buf.Valid()
      ensures buf.Contents() == if old(state) == Connected then "" else old(buf.Contents())
      ensures var sent := if old(state) == Connected && inLoopThread
                          then ConnectionSpec.SendInLoop(cfg, old(View()), old(buf.Contents()), result)
                          else old(View());
              View() == if buf == inputBuffer then sent.(input := buf.Contents()) else sent
      ensures handedOver == if old(state) == Connected && !inLoopThread then [old(buf.Contents())] else []
    {
      handedOver := [];
      if state == Connected {
        if inLoopThread {
          SendBufferInLoop(buf, result);
        } else {
          var bytes := TakeAll(buf);
          handedOver := [bytes];
        }
      }
    }

    /** Whether a `shutdownInLoop` is now due on the owner loop. */
    method Shutdown() returns (due: bool)
      requires Valid()
      modifies this`state
      ensures Valid() && View() == ConnectionSpec.Shutdown(old(View()))
      ensures due <==> old(state) == Connected
    {
      due := state == Connected;
      if due {
        state := Disconnecting;
      }
    }

    method ConnectDestroyed()
      requires Valid()
      modifies this, channel`events, channel`index
      modifies channel.poller`chans, channel.poller`channels, channel.poller`kernel, channel.poller`errors
      ensures Valid() && View() == ConnectionSpec.ConnectDestroyed(old(View()))
      ensures channel.poller.View() ==
              Rewatched(old(channel.poller.View()), channel.fd, Event.Destroy, old(View()), View())
      ensures channel.index == New
      ensures channel.fd !in channel.poller.channels && channel.fd !in channel.poller.kernel
    {
      if state == Connected {
        state := Disconnected;
        channel.DisableAll();
        callbacks := callbacks + [Down];
      }
      channel.Remove();
      assert channel.poller.View().chans[channel.fd].index == New;
      assert channel.fd !in channel.poller.View().kernel;
    }

    /** The user takes bytes out of the input buffer in the message callback. */
    method Consume(len: nat)
      requires Valid()
      modifies inputBuffer`readerIndex, inputBuffer`writerIndex
      ensures Valid() && View() == old(View()).(input := Drop(old(View()).input, len))
      ensures inputBuffer.Shape() == Retrieved(old(inputBuffer.Shape()), len)
    {
      inputBuffer.Retrieve(len);
    }

    /** Any event of ConnectionSpec, on the real buffers, channel and poller. */
    method Perform(e: ConnectionSpec.Event)
      requires Valid() && Allowed(View(), e) && Arrives(e, inputBuffer.Shape())
      modifies this, channel`events, channel`index
      modifies channel.poller`chans, channel.poller`channels, channel.poller`kernel, channel.poller`errors
      modifies inputBuffer, inputBuffer.data, outputBuffer, outputBuffer.data
      ensures Valid() && View() == ConnAfter(cfg, old(View()), e)
      ensures channel.poller.View() == Rewatched(old(channel.poller.View()), channel.fd, e, old(View()), View())
      ensures inputBuffer.Shape() == InputAfter(old(inputBuffer.Shape()), e)
      ensures inputBuffer.data == old(inputBuffer.data) || fresh(inputBuffer.data)
      ensures outputBuffer.data == old(outputBuffer.data) || fresh(outputBuffer.data)
    {
      match e
      case Establish => ConnectionEstablished();
      case Send(data, result) => SendInLoop(data, result);
      case Writable(result) => HandleWrite(result);
      case Readable(outcome) => HandleRead(outcome);
      case Hangup => HandleClose();
      case UserShutdown => var due := Shutdown();
      case RunShutdown => ShutdownInLoop();
      case Consume(len) => Consume(len);
      case Destroy => ConnectDestroyed();
    }

    /** Several events one after another. */
    method PerformAll(events: seq<ConnectionSpec.Event>)
      requires Valid() && AllAllowed(cfg, View(), events) && AllArriveFrom(inputBuffer.Shape(), events)
      modifies this, channel`events, channel`index
      modifies channel.poller`chans, channel.poller`channels, channel.poller`kernel, channel.poller`errors
      modifies inputBuffer, inputBuffer.data, outputBuffer, outputBuffer.data
      ensures Valid() && View() == ConnAfterAll(cfg, old(View()), events)
      ensures inputBuffer.Shape() == InputAfterAll(old(inputBuffer.Shape()), events)
      ensures inputBuffer.data == old(inputBuffer.data) || fresh(inputBuffer.data)
      ensures outputBuffer.data == old(outputBuffer.data) || fresh(outputBuffer.data)
      decreases |events|
    {
      if events != [] {
        Perform(events[0]);
        PerformAll(events[1..]);
      }
    }

    /** Channel::handleEventWithGuard.  `onClose` and `onRead` are the calls the user's callbacks make,
        at the end of the handlers that call them. */
    method HandleEvent(revents: Mask, outcome: ConnectionSpec.ReadResult, result: WriteResult,
                       onClose: seq<ConnectionSpec.Event>, onRead: seq<ConnectionSpec.Event>)
      requires Valid()
      requires AllAllowed(cfg, View(), DispatchEvents(revents, outcome, result, onClose, onRead))
      requires AllArriveFrom(inputBuffer.Shape(), DispatchEvents(revents, outcome, result, onClose, onRead))
      modifies this, channel`events, channel`index
      modifies channel.poller`chans, channel.poller`channels, channel.poller`kernel, channel.poller`errors
      modifies inputBuffer, inputBuffer.data, outputBuffer, outputBuffer.data
      ensures Valid()
      ensures View() == ConnAfterAll(cfg, old(View()), DispatchEvents(revents, outcome, result, onClose, onRead))
    {
      ghost var close, read, write :=
        CloseEvents(revents, onClose), ReadEvents(revents, outcome, onRead), WriteEvents(revents, result);
      InTwo(cfg, View(), close, read + write);
      ArriveInTwo(inputBuffer.Shape(), close, read + write);
      InTwo(cfg, ConnAfterAll(cfg, View(), close), read, write);
      ArriveInTwo(InputAfterAll(inputBuffer.Shape(), close), read, write);
      if revents.pollHup && !revents.pollIn {
        PerformAll([Hangup] + onClose);
      }
      if revents.pollIn || revents.pollPri {
        PerformAll([Readable(outcome)] + onRead);
      }
      if revents.pollOut {
        PerformAll([Writable(result)]);
      }
    }
  }

  predicate AllArriveFrom(input: Layout, events: seq<ConnectionSpec.Event>)
    requires input.Valid()
    decreases |events|
  {
    events == [] || (Arrives(events[0], input) && AllArriveFrom(InputAfter(input, events[0]), events[1..]))
  }

  function InputAfterAll(input: Layout, events: seq<ConnectionSpec.Event>): (l: Layout)
    requires input.Valid()
    ensures l.Valid()
    decreases |events|
  {
    if events == [] then input else InputAfterAll(InputAfter(input, events[0]), events[1..])
  }

  lemma {:induction false} ArriveInTwo(input: Layout, a: seq<ConnectionSpec.Event>, b: seq<ConnectionSpec.Event>)
    requires input.Valid() && AllArriveFrom(input, a + b)
    ensures AllArriveFrom(input, a) && AllArriveFrom(InputAfterAll(input, a), b)
    decreases |a|
  {
    if a == [] {
      assert a + b == b;
    } else {
      assert (a + b)[1..] == a[1..] + b && (a + b)[0] == a[0];
      ArriveInTwo(InputAfter(input, a[0]), a[1..], b);
    }
  }

  /** What a read delivers fits the vectors it was given. */
  predicate Arrives(e: ConnectionSpec.Event, input: Layout) {
    e.Readable? && e.outcome.Received? ==> |e.outcome.bytes| <= ReadCapacity(input)
  }

  function InputAfter(input: Layout, e: ConnectionSpec.Event): (l: Layout)
    requires input.Valid()
    ensures l.Valid()
  {
    match e
    case Readable(Received(bytes)) => ByteBuffer.Received(input, |bytes|)
    case Consume(len) => Retrieved(input, len)
    case _ => input
  }

  function InputLayout(run: seq<ConnectionSpec.Event>): (l: Layout)
    ensures l.Valid()
  {
    if run == [] then Fresh(1024) else InputAfter(InputLayout(run[..|run| - 1]), run[|run| - 1])
  }

  /** Every read of the run fits the vectors it is given. */
  predicate AllArrive(run: seq<ConnectionSpec.Event>) {
    run == [] || (AllArrive(run[..|run| - 1]) && Arrives(run[|run| - 1], InputLayout(run[..|run| - 1])))
  }

  /** A whole run on real objects, whatever the kernel and the user do.  What the kernel reported taken,
      and the output buffer after it, are the accepted messages in order; the input buffer holds the bytes
      received and not taken out; and the callbacks made are those due. */
  method RunOn(poller: EpollPoller, fd: int, cfg: Config, run: seq<ConnectionSpec.Event>) returns (c: TcpConnection)
    requires poller.Valid() && fd !in poller.registry
    requires ConnectionSpec.Legal(cfg, run) && AllArrive(run)
    modifies poller`registry, poller`chans, poller`channels, poller`kernel, poller`errors
    ensures fresh(c) && c.Valid() && c.channel.poller == poller && c.View() == RunConn(cfg, run)
    ensures c.wire + c.outputBuffer.Contents() == AcceptedBytes(cfg, run)
    ensures |c.wire| == ConnectionLaws.Taken(cfg, run)
    ensures ConnectionLaws.TakenOut(run) <= |ConnectionLaws.ReceivedBytes(run)|
    ensures c.inputBuffer.Contents() == ConnectionLaws.ReceivedBytes(run)[ConnectionLaws.TakenOut(run)..]
    ensures c.callbacks == ConnectionLaws.CallbacksDue(run)
  {
    c := new TcpConnection(poller, fd, cfg);
    assert run[..0] == [];
    for i := 0 to |run|
      invariant fresh(c) && fresh(c.channel) && c.channel.poller == poller && c.cfg == cfg
      invariant fresh(c.inputBuffer) && fresh(c.inputBuffer.data)
      invariant fresh(c.outputBuffer) && fresh(c.outputBuffer.data)
      invariant c.Valid() && ConnectionSpec.Legal(cfg, run[..i]) && c.View() == RunConn(cfg, run[..i])
      invariant c.inputBuffer.Shape() == InputLayout(run[..i])
    {
      AllowedNext(cfg, run, i);
      c.Perform(run[i]);
    }
    assert run[..|run|] == run;
    Conservation(cfg, run);
    ConnectionLaws.WireIsWhatWasTaken(cfg, run);
    ConnectionLaws.InputIsTheRest(cfg, run);
    ConnectionLaws.CallbacksMade(cfg, run);
  }

  lemma {:induction false} AllowedNext(cfg: Config, run: seq<ConnectionSpec.Event>, i: nat)
    requires i < |run| && ConnectionSpec.Legal(cfg, run) && AllArrive(run)
    ensures ConnectionSpec.Legal(cfg, run[..i]) && Allowed(RunConn(cfg, run[..i]), run[i])
    ensures Arrives(run[i], InputLayout(run[..i]))
    ensures ConnectionSpec.Legal(cfg, run[..i + 1])
    ensures RunConn(cfg, run[..i + 1]) == ConnAfter(cfg, RunConn(cfg, run[..i]), run[i])
    ensures InputLayout(run[..i + 1]) == InputAfter(InputLayout(run[..i]), run[i])
  {
    var front := run[..|run| - 1];
    if i < |front| {
      AllowedNext(cfg, front, i);
      assert front[..i] == run[..i] && front[..i + 1] == run[..i + 1];
    } else {
      assert run[..i] == front && run[..i + 1] == run;
    }
  }
}

// The double-buffered logger as a state machine: src/logger/AsyncLogging.cpp.
//
// A buffer is the list of log lines put into it.  The front end's `append` and each part of the
// writer's loop that runs under the lock, or touches only the writer's own variables, is one step;
// runs interleave them in any order.  A null dereference or a `pop_back` on an empty vector sets
// `fault`.

module LoggerSpec {

  type Lines = seq<string>

  datatype Slot = Null | Buf(lines: Lines)

  /** Where the writer thread is in its loop. */
  datatype Pc = NotStarted | AtTop | Waiting | Writing(i: nat) | Done

  datatype Logger = Logger(
    size: nat,               // capacity of every buffer
    current: Slot,           // currentBuffer_
    next: Slot,              // nextBuffer_
    buffers: seq<Lines>,     // buffers_
    spare1: Slot,            // newBuffer1
    spare2: Slot,            // newBuffer2
    toWrite: seq<Lines>,     // buffersToWrite
    pc: Pc,
    output: Lines,           // the log file
    fault: bool)

  function Flat(lines: Lines): string {
    if lines == [] then "" else Flat(lines[..|lines| - 1]) + lines[|lines| - 1]
  }

  function Concat(buffers: seq<Lines>): Lines {
    if buffers == [] then [] else Concat(buffers[..|buffers| - 1]) + buffers[|buffers| - 1]
  }

  /** FixedBuffer::append: a byte must be left over. */
  predicate Fits(size: nat, lines: Lines, line: string) {
    |Flat(lines)| + |line| < size
  }

  function Put(size: nat, lines: Lines, line: string): Lines {
    if Fits(size, lines, line) then lines + [line] else lines
  }

  // ---------------------------------------------------------------------------------------------
  // Steps
  // ---------------------------------------------------------------------------------------------

  datatype Step =
    | Append(line: string)   // any thread
    | StartWriter            // the writer thread allocates its two spares
    | Wait                   // the writer finds buffers_ empty and waits
    | Swap                   // the writer's critical section
    | WriteOne
    | Recycle
    | Leave                  // the writer finds `running_` false at the top of its loop

  predicate Enabled(s: Logger, step: Step) {
    match step
    case Append(_) => true
    case StartWriter => s.pc.NotStarted?
    case Wait => s.pc.AtTop? && s.buffers == []
    case Swap => s.pc.Waiting? || (s.pc.AtTop? && s.buffers != [])
    case WriteOne => s.pc.Writing? && s.pc.i < |s.toWrite|
    case Recycle => s.pc == Writing(|s.toWrite|)
    case Leave => s.pc.AtTop?
  }

  /** `buffers_.push_back(std::move(currentBuffer_))`. */
  function Pushed(s: Logger): Logger
    requires s.current.Buf?
  {
    s.(buffers := s.buffers + [s.current.lines], current := Null)
  }

  /** The full current buffer is pushed; the spare, or else a new buffer, takes its place. */
  function Rotated(s: Logger): Logger
    requires s.current.Buf?
  {
    Pushed(s).(current := if s.next.Buf? then s.next else Buf([]), next := Null)
  }

  function Written(s: Logger, line: string): Logger
    requires s.current.Buf?
  {
    s.(current := Buf(Put(s.size, s.current.lines, line)))
  }

  function AppendAfter(s: Logger, line: string): Logger {
    if s.current.Null? then s.(fault := true)
    else if Fits(s.size, s.current.lines, line) then Written(s, line)
    else Written(Rotated(s), line)
  }

  function WriterStarted(s: Logger): Logger {
    s.(spare1 := Buf([]), spare2 := Buf([]), pc := AtTop)
  }

  /** The writer takes every full buffer and the current one, leaving its first spare. */
  function Taken(s: Logger): Logger
    requires s.current.Buf?
  {
    Pushed(s).(current := s.spare1, spare1 := Null, buffers := s.toWrite, toWrite := Pushed(s).buffers)
  }

  /** A missing `nextBuffer_` is replaced by the second spare. */
  function NextRefilled(s: Logger): Logger {
    if s.next.Null? then s.(next := s.spare2, spare2 := Null) else s
  }

  function SwapAfter(s: Logger): Logger {
    if s.current.Null? then s.(fault := true) else NextRefilled(Taken(s)).(pc := Writing(0))
  }

  function WroteOne(s: Logger): Logger
    requires s.pc.Writing? && s.pc.i < |s.toWrite|
  {
    s.(output := s.output + s.toWrite[s.pc.i], pc := Writing(s.pc.i + 1))
  }

  /** `buffersToWrite.resize(2)`. */
  function Truncated(s: Logger): Logger {
    if |s.toWrite| > 2 then s.(toWrite := s.toWrite[..2]) else s
  }

  /** The last written buffer becomes the first spare. */
  function Moved1(s: Logger): Logger
    requires s.toWrite != []
  {
    s.(spare1 := Buf(s.toWrite[|s.toWrite| - 1]), toWrite := s.toWrite[..|s.toWrite| - 1])
  }

  /** A missing first spare is the last written buffer, emptied. */
  function Refilled1(s: Logger): Logger {
    if s.spare1.Buf? then s
    else if s.toWrite == [] then s.(fault := true)
    else Moved1(s).(spare1 := Buf([]))
  }

  function Moved2(s: Logger): Logger
    requires s.toWrite != []
  {
    s.(spare2 := Buf(s.toWrite[|s.toWrite| - 1]), toWrite := s.toWrite[..|s.toWrite| - 1])
  }

  function Refilled2(s: Logger): Logger {
    if s.spare2.Buf? then s
    else if s.toWrite == [] then s.(fault := true)
    else Moved2(s).(spare2 := Buf([]))
  }

  function RecycleAfter(s: Logger): Logger {
    Refilled2(Refilled1(Truncated(s))).(toWrite := [], pc := AtTop)
  }

  /** A written buffer for every missing spare. */
  predicate Recyclable(s: Logger) {
    (if s.spare1.Null? then 1 else 0) + (if s.spare2.Null? then 1 else 0) <= |s.toWrite|
  }

  /** Every pointer a step follows is there, and every vector it pops holds something. */
  predicate Provided(s: Logger, step: Step) {
    match step
    case Append(_) => s.current.Buf?
    case StartWriter => s.spare1.Null? && s.spare2.Null?
    case Swap => s.current.Buf?
    case Recycle => Recyclable(s)
    case _ => true
  }

  function After(s: Logger, step: Step): Logger
    requires Enabled(s, step)
  {
    match step
    case Append(line) => AppendAfter(s, line)
    case StartWriter => WriterStarted(s)
    case Wait => s.(pc := Waiting)
    case Swap => SwapAfter(s)
    case WriteOne => WroteOne(s)
    case Recycle => RecycleAfter(s)
    case Leave => s.(pc := Done)
  }

  function Initial(size: nat): Logger {
    Logger(size, Buf([]), Buf([]), [], Null, Null, [], NotStarted, [], false)
  }

  predicate Legal(size: nat, run: seq<Step>)
    decreases |run|, 0
  {
    run == [] || (Legal(size, run[..|run| - 1]) && Enabled(RunLogger(size, run[..|run| - 1]), run[|run| - 1]))
  }

  function RunLogger(size: nat, run: seq<Step>): Logger
    requires Legal(size, run)
    decreases |run|, 1
  {
    if run == [] then Initial(size) else After(RunLogger(size, run[..|run| - 1]), run[|run| - 1])
  }

  // ---------------------------------------------------------------------------------------------
  // Ownership
  // ---------------------------------------------------------------------------------------------

  /** What keeps both `pop_back` calls and every dereference safe: the spares are empty, and
      `nextBuffer_` is null exactly while `buffers_` holds something. */
  ghost predicate Inv(s: Logger) {
    && 0 < s.size && !s.fault
    && s.current.Buf? && |Flat(s.current.lines)| < s.size
    && (s.next.Buf? ==> s.next.lines == []) && (s.next.Null? <==> s.buffers != [])
    && (s.spare1.Buf? ==> s.spare1.lines == []) && (s.spare2.Buf? ==> s.spare2.lines == [])
    && match s.pc
       case Writing(i) =>
         i <= |s.toWrite| && s.toWrite != [] && s.spare1.Null? && (s.spare2.Null? ==> |s.toWrite| >= 2)
       case NotStarted => s.toWrite == [] && s.spare1.Null? && s.spare2.Null?
       case _ => s.toWrite == [] && s.spare1.Buf? && s.spare2.Buf?
  }

  lemma FlatAppend(lines: Lines, line: string)
    ensures Flat(lines + [line]) == Flat(lines) + line
  {
    assert (lines + [line])[..|lines|] == lines;
  }

  lemma {:induction false} FlatConcat(a: Lines, b: Lines)
    ensures Flat(a + b) == Flat(a) + Flat(b)
  {
    if b == [] {
      assert a + b == a;
    } else {
      var front := b[..|b| - 1];
      FlatConcat(a, front);
      assert (a + b)[..|a + b| - 1] == a + front;
    }
  }

  lemma AppendKeepsInv(s: Logger, line: string)
    requires Inv(s)
    ensures Inv(AppendAfter(s, line))
  {
    FlatAppend(s.current.lines, line);
    FlatAppend([], line);
  }

  /** Recycling is safe exactly when there is a written buffer for every missing spare. */
  lemma RecycleFaultsIff(s: Logger)
    requires !s.fault
    ensures RecycleAfter(s).fault <==> !Recyclable(s)
    ensures Inv(s) && Enabled(s, Recycle) ==> Recyclable(s)
  {
  }

  lemma InvProvides(s: Logger, step: Step)
    requires Inv(s) && Enabled(s, step)
    ensures Provided(s, step)
  {
  }

  lemma StepKeepsInv(s: Logger, step: Step)
    requires Inv(s) && Enabled(s, step)
    ensures Inv(After(s, step))
  {
    if step.Append? {
      AppendKeepsInv(s, step.line);
    }
  }

  /** No null dereference and no `pop_back` on an empty vector, in any run; outside the lock there is
      always a current buffer, and the spares are empty. */
  lemma {:induction false} NeverFaults(size: nat, run: seq<Step>)
    requires 0 < size && Legal(size, run)
    ensures Inv(RunLogger(size, run))
  {
    if run != [] {
      NeverFaults(size, run[..|run| - 1]);
      StepKeepsInv(RunLogger(size, run[..|run| - 1]), run[|run| - 1]);
    }
  }

  function Count(slot: Slot): nat { if slot.Buf? then 1 else 0 }

  /** The buffers in existence. */
  function Held(s: Logger): nat {
    Count(s.current) + Count(s.next) + |s.buffers| + Count(s.spare1) + Count(s.spare2) + |s.toWrite|
  }

  /** The front end allocates only from the second buffer it fills since the writer's last swap. */
  lemma AllocatesBeyondTheSpare(s: Logger, line: string)
    requires Inv(s)
    ensures Held(AppendAfter(s, line)) ==
            Held(s) + if !Fits(s.size, s.current.lines, line) && s.buffers != [] then 1 else 0
    ensures |AppendAfter(s, line).buffers| ==
            |s.buffers| + if Fits(s.size, s.current.lines, line) then 0 else 1
  {
  }

  /** At the top of its loop the writer holds two spares, and there are four buffers in all, or one more
      for each that was filled beyond the first. */
  lemma FourBuffersAtRest(size: nat, run: seq<Step>)
    requires 0 < size && Legal(size, run) && RunLogger(size, run).pc.AtTop?
    ensures var s := RunLogger(size, run); Held(s) == if s.buffers == [] then 4 else 3 + |s.buffers|
  {
    NeverFaults(size, run);
  }

  // ---------------------------------------------------------------------------------------------
  // Conservation
  // ---------------------------------------------------------------------------------------------

  /** The lines a run appends that are shorter than a buffer, in order. */
  function Accepted(size: nat, run: seq<Step>): Lines {
    if run == [] then []
    else
      var last := run[|run| - 1];
      Accepted(size, run[..|run| - 1]) + if last.Append? && |last.line| < size then [last.line] else []
  }

  function Unwritten(s: Logger): seq<Lines> {
    if s.pc.Writing? && s.pc.i <= |s.toWrite| then s.toWrite[s.pc.i..] else []
  }

  /** Everything logged and not lost: in the file, then still to be written, then waiting, then in the
      current buffer. */
  function Stream(s: Logger): Lines {
    s.output + Concat(Unwritten(s)) + Concat(s.buffers) + if s.current.Buf? then s.current.lines else []
  }

  lemma ConcatAppend(buffers: seq<Lines>, lines: Lines)
    ensures Concat(buffers + [lines]) == Concat(buffers) + lines
  {
    assert (buffers + [lines])[..|buffers|] == buffers;
  }

  lemma {:induction false} ConcatHead(buffers: seq<Lines>)
    requires buffers != []
    ensures Concat(buffers) == buffers[0] + Concat(buffers[1..])
  {
    if |buffers| > 1 {
      var front := buffers[..|buffers| - 1];
      ConcatHead(front);
      assert front[1..] == buffers[1..][..|buffers| - 2];
    } else {
      assert buffers == [] + [buffers[0]];
      ConcatAppend([], buffers[0]);
    }
  }

  lemma Regroup(a: Lines, b: Lines, c: Lines)
    ensures a + (b + c) == (a + b) + c
  {
  }

  lemma RotatedStream(s: Logger)
    requires Inv(s)
    ensures Stream(Rotated(s)) == Stream(s)
  {
    ConcatAppend(s.buffers, s.current.lines);
    Regroup(s.output + Concat(Unwritten(s)), Concat(s.buffers), s.current.lines);
  }

  lemma WrittenStream(s: Logger, line: string)
    requires s.current.Buf?
    ensures Stream(Written(s, line)) == Stream(s) + if Fits(s.size, s.current.lines, line) then [line] else []
  {
    Regroup(s.output + Concat(Unwritten(s)) + Concat(s.buffers), s.current.lines, [line]);
  }

  lemma AppendStream(s: Logger, line: string)
    requires Inv(s)
    ensures Stream(AppendAfter(s, line)) == Stream(s) + if |line| < s.size then [line] else []
  {
    if Fits(s.size, s.current.lines, line) {
      WrittenStream(s, line);
    } else {
      RotatedStream(s);
      WrittenStream(Rotated(s), line);
    }
  }

  lemma SwapStream(s: Logger)
    requires Inv(s) && Enabled(s, Swap)
    ensures Stream(SwapAfter(s)) == Stream(s)
  {
    var s' := SwapAfter(s);
    ConcatAppend(s.buffers, s.current.lines);
    assert Unwritten(s') == s.buffers + [s.current.lines];
    assert Unwritten(s) == [] && s'.buffers == [] && s'.current.lines == [];
  }

  lemma WriteStream(s: Logger)
    requires Inv(s) && Enabled(s, WriteOne)
    ensures Stream(After(s, WriteOne)) == Stream(s)
  {
    var rest := s.toWrite[s.pc.i..];
    ConcatHead(rest);
    assert rest[1..] == s.toWrite[s.pc.i + 1..];
    Regroup(s.output, rest[0], Concat(rest[1..]));
  }

  lemma StepStream(s: Logger, step: Step)
    requires Inv(s) && Enabled(s, step)
    ensures Stream(After(s, step)) ==
            Stream(s) + if step.Append? && |step.line| < s.size then [step.line] else []
  {
    match step
    case Append(line) => AppendStream(s, line);
    case Swap => SwapStream(s);
    case WriteOne => WriteStream(s);
    case _ =>
  }

  /** No line shorter than a buffer is dropped, split, repeated or reordered, wherever it is on its
      way to the file. */
  lemma {:induction false} Conservation(size: nat, run: seq<Step>)
    requires 0 < size && Legal(size, run)
    ensures Stream(RunLogger(size, run)) == Accepted(size, run)
    ensures RunLogger(size, run).size == size
  {
    if run != [] {
      Conservation(size, run[..|run| - 1]);
      NeverFaults(size, run[..|run| - 1]);
      StepStream(RunLogger(size, run[..|run| - 1]), run[|run| - 1]);
    }
  }

  /** A line survives an append exactly when it is shorter than a buffer. */
  lemma LineKeptIff(s: Logger, line: string)
    requires Inv(s)
    ensures Stream(AppendAfter(s, line)) == Stream(s) + [line] <==> |line| < s.size
  {
    AppendStream(s, line);
    if |line| >= s.size {
      assert |Stream(AppendAfter(s, line))| == |Stream(s)|;
    }
  }

  /** The file never holds anything but a prefix of what was accepted. */
  lemma FileIsPrefix(size: nat, run: seq<Step>)
    requires 0 < size && Legal(size, run)
    ensures RunLogger(size, run).output <= Accepted(size, run)
  {
    Conservation(size, run);
    var s := RunLogger(size, run);
    assert s.output <= s.output + Concat(Unwritten(s));
  }

  /** Once a batch has been recycled, the file lacks only what was logged since the swap. */
  lemma BatchReachesTheFile(size: nat, run: seq<Step>)
    requires 0 < size && Legal(size, run) && RunLogger(size, run).pc.AtTop?
    ensures var s := RunLogger(size, run);
            s.current.Buf? && Accepted(size, run) == s.output + Concat(s.buffers) + s.current.lines
  {
    Conservation(size, run);
    NeverFaults(size, run);
    var s := RunLogger(size, run);
    assert s.output + Concat(Unwritten(s)) == s.output;
  }

  // ---------------------------------------------------------------------------------------------
  // Stopping
  // ---------------------------------------------------------------------------------------------

  /** The lines accepted since the writer last took the full buffers. */
  function SinceSwap(size: nat, run: seq<Step>): Lines {
    if run == [] || run[|run| - 1].Swap? then []
    else
      var last := run[|run| - 1];
      SinceSwap(size, run[..|run| - 1]) + if last.Append? && |last.line| < size then [last.line] else []
  }

  function FrontEnd(s: Logger): Lines {
    Concat(s.buffers) + if s.current.Buf? then s.current.lines else []
  }

  lemma WrittenFrontEnd(s: Logger, line: string)
    requires s.current.Buf?
    ensures FrontEnd(Written(s, line)) == FrontEnd(s) + if Fits(s.size, s.current.lines, line) then [line] else []
  {
    Regroup(Concat(s.buffers), s.current.lines, [line]);
  }

  lemma RotatedFrontEnd(s: Logger)
    requires s.current.Buf? && (s.next.Buf? ==> s.next.lines == [])
    ensures FrontEnd(Rotated(s)) == FrontEnd(s) && Rotated(s).current == Buf([])
  {
    ConcatAppend(s.buffers, s.current.lines);
  }

  lemma AppendFrontEnd(s: Logger, line: string)
    requires s.current.Buf? && (s.next.Buf? ==> s.next.lines == [])
    ensures FrontEnd(AppendAfter(s, line)) == FrontEnd(s) + if |line| < s.size then [line] else []
  {
    if Fits(s.size, s.current.lines, line) {
      WrittenFrontEnd(s, line);
    } else {
      RotatedFrontEnd(s);
      WrittenFrontEnd(Rotated(s), line);
    }
  }

  lemma FrontEndStep(s: Logger, step: Step)
    requires Inv(s) && Enabled(s, step)
    ensures FrontEnd(After(s, step)) ==
            if step.Swap? then []
            else FrontEnd(s) + if step.Append? && |step.line| < s.size then [step.line] else []
  {
    if step.Append? {
      AppendFrontEnd(s, step.line);
    }
  }

  /** The front end holds exactly those. */
  lemma {:induction false} FrontEndIsSinceSwap(size: nat, run: seq<Step>)
    requires 0 < size && Legal(size, run)
    ensures FrontEnd(RunLogger(size, run)) == SinceSwap(size, run)
  {
    if run != [] {
      var before := run[..|run| - 1];
      FrontEndIsSinceSwap(size, before);
      NeverFaults(size, before);
      Conservation(size, before);
      FrontEndStep(RunLogger(size, before), run[|run| - 1]);
    }
  }

  /** What a stopped writer has written is everything accepted but what came after its last swap. */
  lemma LostAtStop(size: nat, run: seq<Step>)
    requires 0 < size && Legal(size, run) && RunLogger(size, run).pc.Done?
    ensures Accepted(size, run) == RunLogger(size, run).output + SinceSwap(size, run)
  {
    Conservation(size, run);
    FrontEndIsSinceSwap(size, run);
    var s := RunLogger(size, run);
    assert s.output + Concat(Unwritten(s)) == s.output;
    Regroup(s.output, Concat(s.buffers), if s.current.Buf? then s.current.lines else []);
  }

  /** And that is final: nothing reaches the file any more. */
  lemma {:induction false} StoppedForGood(size: nat, run: seq<Step>, k: nat)
    requires Legal(size, run) && k <= |run| && Legal(size, run[..k]) && RunLogger(size, run[..k]).pc.Done?
    ensures RunLogger(size, run).pc.Done? && RunLogger(size, run).output == RunLogger(size, run[..k]).output
  {
    if k < |run| {
      assert run[..|run| - 1][..k] == run[..k];
      StoppedForGood(size, run[..|run| - 1], k);
    } else {
      assert run[..k] == run;
    }
  }

  /** So stopping can lose lines: one run loses the only line it accepted. */
  lemma StopLosesALine(size: nat, line: string) returns (run: seq<Step>)
    requires |line| < size
    ensures Legal(size, run) && Accepted(size, run) == [line]
    ensures RunLogger(size, run).pc.Done? && RunLogger(size, run).output == []
  {
    run := [Append(line), StartWriter, Leave];
    assert run[..2] == [Append(line), StartWriter] && run[..2][..1] == [Append(line)] && run[..2][..1][..0] == [];
    assert Legal(size, []) && Legal(size, [Append(line)]);
    assert RunLogger(size, [Append(line)]) == AppendAfter(Initial(size), line);
    assert Legal(size, run[..2]);
    assert Accepted(size, [Append(line)]) == [line];
  }
}

// The logger object and its buffers: src/logger/AsyncLogging.cpp over FixedBuffer.
//
// The unique pointers of the source are references held in exactly one place; `Unaliased` says so.
// `View` reads the logger as a state of LoggerSpec, through the lines each buffer was given.

module AsyncLogging {
  import opened FixedBuffer
  import opened LoggerSpec

  // -------------------------------------------------------------------------------------------
  // Who holds which buffer
  // -------------------------------------------------------------------------------------------

  datatype Places = Places(
    current: FixedBuffer?,
    next: FixedBuffer?,
    buffers: seq<FixedBuffer>,
    spare1: FixedBuffer?,
    spare2: FixedBuffer?,
    toWrite: seq<FixedBuffer>)

  ghost predicate NoDuplicates(bs: seq<FixedBuffer>) {
    forall i, j :: 0 <= i < j < |bs| ==> bs[i] != bs[j]
  }

  ghost predicate Apart(p: Places, b: FixedBuffer?, live: set<FixedBuffer>) {
    b != null ==> b in live && b !in p.buffers && b !in p.toWrite
  }

  datatype Ownership = Exclusive | Shared

  /** Exclusive if every buffer held is live and held in one place only. */
  ghost function OwnershipOf(p: Places, live: set<FixedBuffer>): Ownership {
    if
      && NoDuplicates(p.buffers) && NoDuplicates(p.toWrite)
      && (forall b <- p.buffers :: b in live && b !in p.toWrite)
      && (forall b <- p.toWrite :: b in live)
      && Apart(p, p.current, live) && Apart(p, p.next, live) && Apart(p, p.spare1, live) && Apart(p, p.spare2, live)
      && (p.current != null ==> p.current != p.next && p.current != p.spare1 && p.current != p.spare2)
      && (p.next != null ==> p.next != p.spare1 && p.next != p.spare2)
      && (p.spare1 != null ==> p.spare1 != p.spare2)
    then Exclusive
    else Shared
  }

  ghost predicate Unaliased(p: Places, live: set<FixedBuffer>) {
    OwnershipOf(p, live) == Exclusive
  }

  ghost function One(b: FixedBuffer?): seq<FixedBuffer> {
    if b == null then [] else [b]
  }

  /** Every pointer the logger holds. */
  ghost function Held(p: Places): seq<FixedBuffer> {
    (One(p.current) + One(p.next)) + (One(p.spare1) + One(p.spare2)) + (p.buffers + p.toWrite)
  }

  lemma NoDuplicatesIff(a: seq<FixedBuffer>, b: seq<FixedBuffer>)
    ensures NoDuplicates(a + b) <==> NoDuplicates(a) && NoDuplicates(b) && forall x <- a :: x !in b
  {
    if NoDuplicates(a) && NoDuplicates(b) && forall x <- a :: x !in b {
      forall i, j | 0 <= i < j < |a + b| ensures (a + b)[i] != (a + b)[j] {
        assert i < |a| <= j ==> (a + b)[i] in a && (a + b)[j] in b;
      }
    }
    if NoDuplicates(a + b) {
      assert forall i :: 0 <= i < |a| ==> a[i] == (a + b)[i];
      assert forall i :: 0 <= i < |b| ==> b[i] == (a + b)[|a| + i];
    }
  }

  lemma OneIff(a: FixedBuffer?, b: FixedBuffer?)
    ensures NoDuplicates(One(a) + One(b)) <==> (a != null ==> a != b)
    ensures forall x: FixedBuffer :: x in One(a) + One(b) <==> x == a || x == b
  {
    if a != null && b != null {
      assert (One(a) + One(b))[0] == a && (One(a) + One(b))[1] == b;
    }
  }

  lemma PointersIff(p: Places)
    ensures var pointers := (One(p.current) + One(p.next)) + (One(p.spare1) + One(p.spare2));
      && (NoDuplicates(pointers) <==>
            && (p.current != null ==> p.current != p.next && p.current != p.spare1 && p.current != p.spare2)
            && (p.next != null ==> p.next != p.spare1 && p.next != p.spare2)
            && (p.spare1 != null ==> p.spare1 != p.spare2))
      && forall x: FixedBuffer ::
           x in pointers <==> x == p.current || x == p.next || x == p.spare1 || x == p.spare2
  {
    OneIff(p.current, p.next);
    OneIff(p.spare1, p.spare2);
    NoDuplicatesIff(One(p.current) + One(p.next), One(p.spare1) + One(p.spare2));
    assert p.current != null ==> p.current in One(p.current) + One(p.next);
    assert p.next != null ==> p.next in One(p.current) + One(p.next);
  }

  lemma HeldIff(p: Places, live: set<FixedBuffer>, pointers: seq<FixedBuffer>)
    requires Held(p) == pointers + (p.buffers + p.toWrite)
    ensures NoDuplicates(Held(p)) && (forall b <- Held(p) :: b in live) <==>
            && NoDuplicates(pointers) && NoDuplicates(p.buffers) && NoDuplicates(p.toWrite)
            && (forall b <- pointers :: b in live && b !in p.buffers && b !in p.toWrite)
            && (forall b <- p.buffers :: b in live && b !in p.toWrite)
            && (forall b <- p.toWrite :: b in live)
  {
    NoDuplicatesIff(p.buffers, p.toWrite);
    NoDuplicatesIff(pointers, p.buffers + p.toWrite);
    assert forall b :: b in Held(p) <==> b in pointers || b in p.buffers || b in p.toWrite;
  }

  /** Exclusive ownership is exactly this: no two of the pointers held are equal, and all are live. */
  lemma UnaliasedIff(p: Places, live: set<FixedBuffer>)
    ensures Unaliased(p, live) <==> NoDuplicates(Held(p)) && forall b <- Held(p) :: b in live
  {
    var pointers := (One(p.current) + One(p.next)) + (One(p.spare1) + One(p.spare2));
    PointersIff(p);
    HeldIff(p, live, pointers);
    assert p.current != null ==> p.current in pointers;
    assert p.next != null ==> p.next in pointers;
    assert p.spare1 != null ==> p.spare1 in pointers;
    assert p.spare2 != null ==> p.spare2 in pointers;
  }

  ghost function SlotOf(lines: map<FixedBuffer, Lines>, b: FixedBuffer?): Slot {
    if b == null then Null else if b in lines then Buf(lines[b]) else Buf([])
  }

  ghost function LinesOf(lines: map<FixedBuffer, Lines>, bs: seq<FixedBuffer>): (r: seq<Lines>)
    ensures |r| == |bs|
  {
    seq(|bs|, i requires 0 <= i < |bs| => if bs[i] in lines then lines[bs[i]] else [])
  }

  ghost function ViewOf(size: nat, p: Places, lines: map<FixedBuffer, Lines>, pc: Pc, output: Lines): Logger {
    Logger(size, SlotOf(lines, p.current), SlotOf(lines, p.next), LinesOf(lines, p.buffers),
           SlotOf(lines, p.spare1), SlotOf(lines, p.spare2), LinesOf(lines, p.toWrite), pc, output, false)
  }

  // -------------------------------------------------------------------------------------------
  // Moves between places
  // -------------------------------------------------------------------------------------------

  lemma LinesOfOther(lines: map<FixedBuffer, Lines>, bs: seq<FixedBuffer>, b: FixedBuffer, given: Lines)
    requires b !in bs
    ensures LinesOf(lines[b := given], bs) == LinesOf(lines, bs)
  {
  }

  lemma LinesOfAppend(lines: map<FixedBuffer, Lines>, bs: seq<FixedBuffer>, b: FixedBuffer)
    requires b in lines
    ensures LinesOf(lines, bs + [b]) == LinesOf(lines, bs) + [lines[b]]
  {
  }

  lemma PushPlaces(p: Places, lines: map<FixedBuffer, Lines>)
    requires Unaliased(p, lines.Keys) && p.current != null
    ensures Unaliased(p.(buffers := p.buffers + [p.current], current := null), lines.Keys)
    ensures LinesOf(lines, p.buffers + [p.current]) == LinesOf(lines, p.buffers) + [lines[p.current]]
  {
    LinesOfAppend(lines, p.buffers, p.current);
  }

  /** The places that hold one buffer and are filled or rewritten on their own. */
  datatype Seat = Current | Spare1 | Spare2

  function Seated(p: Places, seat: Seat): FixedBuffer? {
    match seat
    case Current => p.current
    case Spare1 => p.spare1
    case Spare2 => p.spare2
  }

  function Placed(p: Places, seat: Seat, b: FixedBuffer): Places {
    match seat
    case Current => p.(current := b)
    case Spare1 => p.(spare1 := b)
    case Spare2 => p.(spare2 := b)
  }

  function Showing(s: Logger, seat: Seat, slot: Slot): Logger {
    match seat
    case Current => s.(current := slot)
    case Spare1 => s.(spare1 := slot)
    case Spare2 => s.(spare2 := slot)
  }

  lemma SeatIsLive(p: Places, live: set<FixedBuffer>, seat: Seat)
    requires Unaliased(p, live) && Seated(p, seat) != null
    ensures Seated(p, seat) in live
  {
  }

  /** A new buffer takes an empty seat. */
  lemma FreshAt(p: Places, lines: map<FixedBuffer, Lines>, seat: Seat, b: FixedBuffer)
    requires Unaliased(p, lines.Keys) && Seated(p, seat) == null && b !in lines
    ensures Unaliased(Placed(p, seat, b), lines[b := []].Keys)
    ensures forall size, pc, output ::
      ViewOf(size, Placed(p, seat, b), lines[b := []], pc, output) ==
      Showing(ViewOf(size, p, lines, pc, output), seat, Buf([]))
  {
    LinesOfOther(lines, p.buffers, b, []);
    LinesOfOther(lines, p.toWrite, b, []);
  }

  /** The buffer in a seat is given other lines. */
  lemma RewrittenAt(p: Places, lines: map<FixedBuffer, Lines>, seat: Seat, given: Lines)
    requires Unaliased(p, lines.Keys) && Seated(p, seat) != null
    ensures Seated(p, seat) in lines && lines[Seated(p, seat) := given].Keys == lines.Keys
    ensures forall size, pc, output ::
      ViewOf(size, p, lines[Seated(p, seat) := given], pc, output) ==
      Showing(ViewOf(size, p, lines, pc, output), seat, Buf(given))
  {
    LinesOfOther(lines, p.buffers, Seated(p, seat), given);
    LinesOfOther(lines, p.toWrite, Seated(p, seat), given);
  }

  /** The last written buffer takes an empty seat. */
  lemma TakenAt(p: Places, lines: map<FixedBuffer, Lines>, seat: Seat)
    requires Unaliased(p, lines.Keys) && p.toWrite != [] && Seated(p, seat) == null
    ensures var n := |p.toWrite| - 1;
      && Unaliased(Placed(p, seat, p.toWrite[n]).(toWrite := p.toWrite[..n]), lines.Keys)
      && LinesOf(lines, p.toWrite) == LinesOf(lines, p.toWrite[..n]) + [lines[p.toWrite[n]]]
  {
    assert forall b <- p.toWrite[..|p.toWrite| - 1] :: b in p.toWrite;
  }

  lemma LinesOfAt(p: Places, lines: map<FixedBuffer, Lines>, i: nat)
    requires Unaliased(p, lines.Keys) && i < |p.toWrite|
    ensures p.toWrite[i] in lines && LinesOf(lines, p.toWrite)[i] == lines[p.toWrite[i]]
  {
  }

  lemma KeepPlaces(p: Places, lines: map<FixedBuffer, Lines>, n: nat)
    requires Unaliased(p, lines.Keys) && n <= |p.toWrite|
    ensures Unaliased(p.(toWrite := p.toWrite[..n]), lines.Keys)
    ensures LinesOf(lines, p.toWrite[..n]) == LinesOf(lines, p.toWrite)[..n]
  {
    assert forall b <- p.toWrite[..n] :: b in p.toWrite;
  }

  class AsyncLogging {
    const size: nat
    var currentBuffer: FixedBuffer?
    var nextBuffer: FixedBuffer?
    var buffers: seq<FixedBuffer>
    var newBuffer1: FixedBuffer?
    var newBuffer2: FixedBuffer?
    var buffersToWrite: seq<FixedBuffer>
    var pc: Pc
    var output: string                           // the log file
    ghost var outputLines: Lines
    ghost var lines: map<FixedBuffer, Lines>     // what each buffer was given since its last reset
    ghost var owner: map<array<char>, FixedBuffer>   // the buffer each array belongs to
    ghost var repr: set<object>

    ghost function Where(): Places
      reads `currentBuffer, `nextBuffer, `buffers, `newBuffer1, `newBuffer2, `buffersToWrite
    {
      Places(currentBuffer, nextBuffer, buffers, newBuffer1, newBuffer2, buffersToWrite)
    }

    /** The bytes of every buffer are its lines, and no two buffers share an array. */
    ghost predicate Stored()
      reads `lines, `owner, `repr, repr
    {
      && Separate()
      && forall b <- lines.Keys :: b in repr && b.data in repr && b.Has(size, Flat(lines[b]))
    }

    ghost predicate Separate()
      reads `lines, `owner, `repr
    {
      && 0 < size && this !in repr
      && forall b <- lines.Keys :: b.data in owner && owner[b.data] == b
    }

    ghost function View(): Logger
      reads this
    {
      ViewOf(size, Where(), lines, pc, outputLines)
    }

    /** The current buffer and its array. */
    ghost function Footprint(): set<object>
      reads `currentBuffer
    {
      if currentBuffer == null then {} else {currentBuffer, currentBuffer.data}
    }

    ghost predicate Valid()
      reads this, repr
    {
      Unaliased(Where(), lines.Keys) && Stored()
    }

    /** The log file holds the bytes of the lines written. */
    ghost predicate Filed()
      reads `output, `outputLines
    {
      output == Flat(outputLines)
    }

    /** Two empty buffers. */
    static method AllocatePair(size: nat) returns (a: FixedBuffer, b: FixedBuffer, ghost footprint: set<object>)
      requires 0 < size
      ensures a.Has(size, "") && b.Has(size, "") && a != b && a.data != b.data
      ensures footprint == {a, a.data, b, b.data} && fresh(footprint)
    {
      a := new FixedBuffer(size);
      b := new FixedBuffer(size);
      footprint := {a, a.data, b, b.data};
    }

    constructor (size: nat)
      requires 0 < size
      ensures Valid() && View() == Initial(size) && Filed() && fresh(repr)
    {
      this.size := size;
      var current, next, footprint := AllocatePair(size);
      currentBuffer, nextBuffer, newBuffer1, newBuffer2 := current, next, null, null;
      buffers, buffersToWrite, pc, output, outputLines := [], [], NotStarted, "", [];
      lines := map[current := [], next := []];
      owner := map[current.data := current, next.data := next];
      repr := footprint;
      new;
      assert View() == Initial(size);
      assert Separate();
    }

    /** A freshly allocated buffer joins the logger. */
    method NewBuffer() returns (b: FixedBuffer)
      requires Stored()
      modifies this`lines, this`owner, this`repr
      ensures Stored() && fresh(b) && fresh(b.data)
      ensures lines == old(lines)[b := []] && b !in old(lines)
      ensures repr == old(repr) + {b, b.data}
    {
      b := new FixedBuffer(size);
      lines := lines[b := []];
      owner := owner[b.data := b];
      repr := repr + {b, b.data};
    }

    /** FixedBuffer::append on one of the logger's buffers leaves the others alone. */
    method WriteInto(b: FixedBuffer, line: string)
      requires Stored() && b in lines
      modifies this`lines, b`cur, b.data
      ensures Stored() && lines == old(lines)[b := Put(size, old(lines)[b], line)]
    {
      FlatAppend(lines[b], line);
      b.Append(line);
      lines := lines[b := Put(size, lines[b], line)];
    }

    /** `currentBuffer_->avail() > len`. */
    method HasRoom(line: string) returns (room: bool)
      requires Valid() && currentBuffer != null
      ensures room <==> Fits(size, View().current.lines, line)
    {
      var avail := currentBuffer.Avail();
      room := avail > |line|;
    }

    /** The current buffer joins the full ones. */
    method PushCurrent()
      requires Unaliased(Where(), lines.Keys) && currentBuffer != null
      modifies this`currentBuffer, this`buffers
      ensures Unaliased(Where(), lines.Keys) && currentBuffer == null && View() == Pushed(old(View()))
    {
      PushPlaces(Where(), lines);
      buffers := buffers + [currentBuffer];
      currentBuffer := null;
    }

    /** A new current buffer, when there is none. */
    method AllocateCurrent()
      requires Valid() && currentBuffer == null
      modifies this`currentBuffer, this`lines, this`owner, this`repr
      ensures Valid() && View() == old(View()).(current := Buf([]))
      ensures currentBuffer != null && fresh(currentBuffer) && fresh(currentBuffer.data)
      ensures repr == old(repr) + Footprint()
    {
      var b := NewBuffer();
      FreshAt(Where(), old(lines), Current, b);
      currentBuffer := b;
      assert View() == old(View()).(current := Buf([]));
    }

    /** The current buffer is full: it is pushed, and the spare takes its place. */
    method UseSpare()
      requires Valid() && currentBuffer != null && nextBuffer != null
      modifies this`currentBuffer, this`nextBuffer, this`buffers
      ensures Valid() && currentBuffer != null && View() == Rotated(old(View()))
      ensures currentBuffer in repr && currentBuffer.data in repr
    {
      PushCurrent();
      currentBuffer := nextBuffer;
      nextBuffer := null;
      assert View() == Rotated(old(View()));
    }

    /** The current buffer is full: it is pushed, and a new buffer takes its place. */
    method UseNew()
      requires Valid() && currentBuffer != null && nextBuffer == null
      modifies this`currentBuffer, this`buffers, this`lines, this`owner, this`repr
      ensures Valid() && currentBuffer != null && View() == Rotated(old(View()))
      ensures fresh(currentBuffer) && fresh(currentBuffer.data) && repr == old(repr) + Footprint()
    {
      PushCurrent();
      AllocateCurrent();
      assert View() == Rotated(old(View()));
    }

    method WriteToCurrent(line: string)
      requires Valid() && currentBuffer != null
      modifies this`lines, currentBuffer`cur, currentBuffer.data
      ensures Valid() && View() == Written(old(View()), line)
    {
      SeatIsLive(Where(), lines.Keys, Current);
      RewrittenAt(Where(), lines, Current, Put(size, lines[currentBuffer], line));
      WriteInto(currentBuffer, line);
      assert View() == Written(old(View()), line);
    }

    method AppendToSpare(line: string)
      requires Valid() && currentBuffer != null && nextBuffer != null
      modifies this`currentBuffer, this`nextBuffer, this`buffers, this`lines, repr
      ensures Valid() && currentBuffer != null && View() == Written(Rotated(old(View())), line)
    {
      UseSpare();
      WriteToCurrent(line);
      assert View() == Written(Rotated(old(View())), line);
    }

    method AppendToNew(line: string)
      requires Valid() && currentBuffer != null && nextBuffer == null
      modifies this`currentBuffer, this`buffers, this`lines, this`owner, this`repr
      ensures Valid() && currentBuffer != null && View() == Written(Rotated(old(View())), line)
      ensures fresh(currentBuffer) && fresh(currentBuffer.data) && repr == old(repr) + Footprint()
    {
      UseNew();
      WriteToCurrent(line);
      assert View() == Written(Rotated(old(View())), line);
    }

    /** The append that does not fit the current buffer. */
    method AppendToNext(line: string)
      requires Valid() && currentBuffer != null
      modifies this`currentBuffer, this`nextBuffer, this`buffers, this`lines, this`owner, this`repr
      modifies repr
      ensures Valid() && View() == Written(Rotated(old(View())), line)
      ensures currentBuffer != null
      ensures
        || repr == old(repr)
        || (fresh(currentBuffer) && fresh(currentBuffer.data) && repr == old(repr) + Footprint())
    {
      if nextBuffer != null {
        AppendToSpare(line);
        assert repr == old(repr);
      } else {
        AppendToNew(line);
      }
    }

    /** The front end, under the lock. */
    method Append(line: string)
      requires Valid() && currentBuffer != null
      modifies this`currentBuffer, this`nextBuffer, this`buffers, this`lines, this`owner, this`repr
      modifies repr
      ensures Valid() && View() == AppendAfter(old(View()), line)
      ensures currentBuffer != null
      ensures
        || repr == old(repr)
        || (fresh(currentBuffer) && fresh(currentBuffer.data) && repr == old(repr) + Footprint())
    {
      var room := HasRoom(line);
      if room {
        WriteToCurrent(line);
        assert View() == AppendAfter(old(View()), line);
      } else {
        AppendToNext(line);
        assert View() == AppendAfter(old(View()), line);
      }
    }

    // ---------------------------------------------------------------------------------------
    // The writer thread
    // ---------------------------------------------------------------------------------------

    /** Where the writer thread stands; it holds no buffer. */
    method AdvanceTo(where: Pc)
      modifies this`pc
      ensures View() == old(View()).(pc := where)
    {
      pc := where;
    }

    method AllocateSpare1()
      requires Valid() && newBuffer1 == null
      modifies this`newBuffer1, this`lines, this`owner, this`repr
      ensures Valid() && View() == old(View()).(spare1 := Buf([]))
      ensures newBuffer1 != null && fresh(newBuffer1) && fresh(newBuffer1.data)
      ensures repr == old(repr) + {newBuffer1, newBuffer1.data}
    {
      var b := NewBuffer();
      FreshAt(Where(), old(lines), Spare1, b);
      newBuffer1 := b;
      assert View() == old(View()).(spare1 := Buf([]));
    }

    method AllocateSpare2()
      requires Valid() && newBuffer2 == null
      modifies this`newBuffer2, this`lines, this`owner, this`repr
      ensures Valid() && View() == old(View()).(spare2 := Buf([]))
      ensures newBuffer2 != null && fresh(newBuffer2) && fresh(newBuffer2.data)
      ensures repr == old(repr) + {newBuffer2, newBuffer2.data}
    {
      var b := NewBuffer();
      FreshAt(Where(), old(lines), Spare2, b);
      newBuffer2 := b;
      assert View() == old(View()).(spare2 := Buf([]));
    }

    /** The writer allocates its two spares. */
    method StartWriter()
      requires Valid() && pc.NotStarted? && newBuffer1 == null && newBuffer2 == null
      modifies this`newBuffer1, this`newBuffer2, this`lines, this`owner, this`repr, this`pc
      ensures Valid() && View() == WriterStarted(old(View()))
      ensures newBuffer1 != null && fresh(newBuffer1) && fresh(newBuffer1.data)
      ensures newBuffer2 != null && fresh(newBuffer2) && fresh(newBuffer2.data)
      ensures repr == old(repr) + {newBuffer1, newBuffer1.data} + {newBuffer2, newBuffer2.data}
    {
      AllocateSpare1();
      AllocateSpare2();
      AdvanceTo(AtTop);
      assert View() == WriterStarted(old(View()));
    }

    /** The writer takes every full buffer and the current one, leaving its first spare. */
    method TakeFull()
      requires Unaliased(Where(), lines.Keys) && currentBuffer != null
      modifies this`currentBuffer, this`buffers, this`newBuffer1, this`buffersToWrite
      ensures Unaliased(Where(), lines.Keys) && View() == Taken(old(View()))
    {
      PushCurrent();
      currentBuffer := newBuffer1;
      newBuffer1 := null;
      buffersToWrite, buffers := buffers, buffersToWrite;
      assert View() == Taken(old(View()));
    }

    /** A missing `nextBuffer_` is replaced by the second spare. */
    method RefillNext()
      requires Unaliased(Where(), lines.Keys)
      modifies this`nextBuffer, this`newBuffer2
      ensures Unaliased(Where(), lines.Keys) && View() == NextRefilled(old(View()))
    {
      if nextBuffer == null {
        nextBuffer := newBuffer2;
        newBuffer2 := null;
      }
      assert View() == NextRefilled(old(View()));
    }

    /** The writer's critical section. */
    method Swap()
      requires Valid() && currentBuffer != null
      modifies this`currentBuffer, this`nextBuffer, this`buffers, this`newBuffer1, this`newBuffer2,
               this`buffersToWrite, this`pc
      ensures Valid() && View() == SwapAfter(old(View()))
    {
      TakeFull();
      RefillNext();
      AdvanceTo(Writing(0));
      assert View() == SwapAfter(old(View()));
    }

    /** `output.append(buffer->data(), buffer->length())`. */
    method WriteOut(b: FixedBuffer)
      requires Stored() && b in lines
      modifies this`output
      ensures output == old(output) + Flat(lines[b])
    {
      var text := b.ToString();
      output := output + text;
    }

    /** One buffer goes to the log file. */
    method WriteOne()
      requires Valid() && Filed() && pc.Writing? && pc.i < |buffersToWrite|
      modifies this`output, this`outputLines, this`pc
      ensures Valid() && Filed() && View() == WroteOne(old(View()))
    {
      LinesOfAt(Where(), lines, pc.i);
      FlatConcat(outputLines, lines[buffersToWrite[pc.i]]);
      WriteOut(buffersToWrite[pc.i]);
      outputLines := outputLines + lines[buffersToWrite[pc.i]];
      pc := Writing(pc.i + 1);
      assert View() == WroteOne(old(View()));
    }

    /** FixedBuffer::reset on one of the logger's buffers leaves the others alone. */
    method ResetOne(b: FixedBuffer)
      requires Stored() && b in lines
      modifies this`lines, b`cur
      ensures Stored() && lines == old(lines)[b := []]
    {
      b.Reset();
      lines := lines[b := []];
    }

    /** `buffersToWrite.resize(2)`. */
    method Truncate()
      requires Unaliased(Where(), lines.Keys)
      modifies this`buffersToWrite
      ensures Unaliased(Where(), lines.Keys) && View() == Truncated(old(View()))
    {
      if |buffersToWrite| > 2 {
        KeepPlaces(Where(), lines, 2);
        buffersToWrite := buffersToWrite[..2];
      }
    }

    /** `buffersToWrite.clear()`, and round again. */
    method DropRest()
      requires Unaliased(Where(), lines.Keys)
      modifies this`buffersToWrite, this`pc
      ensures Unaliased(Where(), lines.Keys) && View() == old(View()).(toWrite := [], pc := AtTop)
    {
      KeepPlaces(Where(), lines, 0);
      buffersToWrite := buffersToWrite[..0];
      pc := AtTop;
    }

    /** `newBuffer1 = std::move(buffersToWrite.back())`, popped. */
    method MoveToSpare1()
      requires Unaliased(Where(), lines.Keys) && newBuffer1 == null && buffersToWrite != []
      modifies this`newBuffer1, this`buffersToWrite
      ensures Unaliased(Where(), lines.Keys) && newBuffer1 != null
      ensures View() == Moved1(old(View()))
    {
      TakenAt(Where(), lines, Spare1);
      newBuffer1 := buffersToWrite[|buffersToWrite| - 1];
      buffersToWrite := buffersToWrite[..|buffersToWrite| - 1];
    }

    /** `newBuffer1->reset()`. */
    method EmptySpare1()
      requires Valid() && newBuffer1 != null
      modifies this`lines, newBuffer1`cur
      ensures Valid() && View() == old(View()).(spare1 := Buf([]))
    {
      RewrittenAt(Where(), lines, Spare1, []);
      ResetOne(newBuffer1);
    }

    /** `newBuffer2 = std::move(buffersToWrite.back())`, popped. */
    method MoveToSpare2()
      requires Unaliased(Where(), lines.Keys) && newBuffer2 == null && buffersToWrite != []
      modifies this`newBuffer2, this`buffersToWrite
      ensures Unaliased(Where(), lines.Keys) && newBuffer2 != null
      ensures View() == Moved2(old(View()))
    {
      TakenAt(Where(), lines, Spare2);
      newBuffer2 := buffersToWrite[|buffersToWrite| - 1];
      buffersToWrite := buffersToWrite[..|buffersToWrite| - 1];
    }

    /** `newBuffer2->reset()`. */
    method EmptySpare2()
      requires Valid() && newBuffer2 != null
      modifies this`lines, newBuffer2`cur
      ensures Valid() && View() == old(View()).(spare2 := Buf([]))
    {
      RewrittenAt(Where(), lines, Spare2, []);
      ResetOne(newBuffer2);
    }

    method RefillSpare1()
      requires Valid() && (newBuffer1 == null ==> buffersToWrite != [])
      modifies this`newBuffer1, this`buffersToWrite, this`lines, repr
      ensures Valid() && View() == Refilled1(old(View()))
    {
      if newBuffer1 == null {
        MoveToSpare1();
        EmptySpare1();
        assert View() == Refilled1(old(View()));
      }
    }

    method RefillSpare2()
      requires Valid() && (newBuffer2 == null ==> buffersToWrite != [])
      modifies this`newBuffer2, this`buffersToWrite, this`lines, repr
      ensures Valid() && View() == Refilled2(old(View()))
    {
      if newBuffer2 == null {
        MoveToSpare2();
        EmptySpare2();
        assert View() == Refilled2(old(View()));
      }
    }

    method RefillSpares()
      requires Valid() && Recyclable(View())
      modifies this`newBuffer1, this`newBuffer2, this`buffersToWrite, this`lines, repr
      ensures Valid() && View() == Refilled2(Refilled1(old(View())))
    {
      RefillSpare1();
      RefillSpare2();
    }

    method KeepTwo()
      requires Valid() && Recyclable(View())
      modifies this`newBuffer1, this`newBuffer2, this`buffersToWrite, this`lines, repr
      ensures Valid() && View() == Refilled2(Refilled1(Truncated(old(View()))))
    {
      Truncate();
      RefillSpares();
    }

    /** The writer keeps two of the written buffers as its spares and drops the rest. */
    method Recycle()
      requires Valid() && Recyclable(View())
      modifies this`newBuffer1, this`newBuffer2, this`buffersToWrite, this`lines, this`pc, repr
      ensures Valid() && View() == RecycleAfter(old(View()))
    {
      KeepTwo();
      DropRest();
      assert View() == RecycleAfter(old(View()));
    }

    method LogLine(line: string) returns (ghost added: set<object>)
      requires Valid() && currentBuffer != null
      modifies this`currentBuffer, this`nextBuffer, this`buffers, this`lines, this`owner, this`repr
      modifies repr
      ensures Valid() && View() == AppendAfter(old(View()), line)
      ensures fresh(added) && repr == old(repr) + added && output == old(output)
    {
      Append(line);
      added := if repr == old(repr) then {} else Footprint();
    }

    method Begin() returns (ghost added: set<object>)
      requires Valid() && pc.NotStarted? && newBuffer1 == null && newBuffer2 == null
      modifies this`newBuffer1, this`newBuffer2, this`lines, this`owner, this`repr, this`pc
      ensures Valid() && View() == WriterStarted(old(View()))
      ensures fresh(added) && repr == old(repr) + added
    {
      StartWriter();
      added := {newBuffer1, newBuffer1.data} + {newBuffer2, newBuffer2.data};
    }

    /** A step of the started writer. */
    method Turn(step: Step)
      requires Valid() && Filed() && Enabled(View(), step) && Provided(View(), step)
      requires !step.Append? && !step.StartWriter?
      modifies this`currentBuffer, this`nextBuffer, this`buffers, this`newBuffer1, this`newBuffer2,
               this`buffersToWrite, this`pc, this`output, this`outputLines, this`lines, repr
      ensures Valid() && Filed() && View() == After(old(View()), step)
    {
      match step
      case Wait => AdvanceTo(Waiting);
      case Swap => Swap();
      case WriteOne => WriteOne();
      case Recycle => Recycle();
      case Leave => AdvanceTo(Done);
    }

    /** A step that may allocate buffers: `added`. */
    method AllocatingStep(step: Step) returns (ghost added: set<object>)
      requires Valid() && Enabled(View(), step) && Provided(View(), step) && (step.Append? || step.StartWriter?)
      modifies this, repr
      ensures Valid() && View() == After(old(View()), step) && output == old(output)
      ensures fresh(added) && repr <= old(repr) + added
    {
      if step.Append? {
        added := LogLine(step.line);
        assert View() == After(old(View()), step);
      } else {
        added := Begin();
        assert View() == After(old(View()), step);
      }
    }

    /** Any step of LoggerSpec, on the real buffers. */
    method Perform(step: Step) returns (ghost added: set<object>)
      requires Valid() && Filed() && Enabled(View(), step) && Provided(View(), step)
      modifies this, repr
      ensures Valid() && Filed() && View() == After(old(View()), step)
      ensures fresh(added) && repr <= old(repr) + added
    {
      if step.Append? || step.StartWriter? {
        added := AllocatingStep(step);
      } else {
        Turn(step);
        added := {};
        assert repr <= old(repr) + added;
      }
    }
  }

  /** A whole run on real buffers, in any interleaving: the file holds the bytes of the lines the
      specification has written, a prefix of all accepted. */
  method RunOn(size: nat, run: seq<Step>) returns (l: AsyncLogging)
    requires 0 < size && Legal(size, run)
    ensures fresh(l) && fresh(l.repr) && l.Valid() && l.View() == RunLogger(size, run)
    ensures l.output == Flat(RunLogger(size, run).output)
    ensures RunLogger(size, run).output <= Accepted(size, run)
  {
    l := new AsyncLogging(size);
    for i := 0 to |run|
      invariant fresh(l) && fresh(l.repr)
      invariant Legal(size, run[..i]) && l.Valid() && l.Filed() && l.View() == RunLogger(size, run[..i])
    {
      EnabledNext(size, run, i);
      NeverFaults(size, run[..i]);
      InvProvides(RunLogger(size, run[..i]), run[i]);
      ghost var added := l.Perform(run[i]);
    }
    assert run[..|run|] == run;
    FileIsPrefix(size, run);
  }

  lemma {:induction false} EnabledNext(size: nat, run: seq<Step>, i: nat)
    requires i < |run| && Legal(size, run)
    ensures Legal(size, run[..i]) && Enabled(RunLogger(size, run[..i]), run[i])
    ensures Legal(size, run[..i + 1])
    ensures RunLogger(size, run[..i + 1]) == After(RunLogger(size, run[..i]), run[i])
  {
    var front := run[..|run| - 1];
    if i < |front| {
      EnabledNext(size, front, i);
      assert front[..i] == run[..i] && front[..i + 1] == run[..i + 1];
    } else {
      assert run[..i] == front && run[..i + 1] == run;
    }
  }
}

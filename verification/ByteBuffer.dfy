// The growable byte queue under every connection: include/net/Buffer.h and src/net/Buffer.cpp.
//
// A `Buffer` is an array with a reader and a writer index.  Two views of it are specified here:
// the bytes it holds, as a plain FIFO queue, and the shape of the array (its size and the two
// indices).  The class at the end refines both.

module ByteBuffer {

  const CHEAP_PREPEND: nat := 8
  const EXTRA_BUFFER: nat := 65536

  datatype Layout = Layout(size: nat, reader: nat, writer: nat)
  {
    // An empty queue always sits at the front: this is what keeps the space bound sharp.
    ghost predicate Valid() {
      && CHEAP_PREPEND <= reader <= writer <= size
      && (reader == writer ==> reader == CHEAP_PREPEND)
    }

    function Readable(): int { writer - reader }

    function Writable(): int { size - writer }
  }

  function MakeRoom(l: Layout, len: nat): Layout
    requires l.Valid()
  {
    if l.Writable() + l.reader < len + CHEAP_PREPEND then
      l.(size := l.writer + len)
    else
      l.(reader := CHEAP_PREPEND, writer := CHEAP_PREPEND + l.Readable())
  }

  function Appended(l: Layout, len: nat): (r: Layout)
    requires l.Valid()
    ensures r.Valid() && r.Readable() == l.Readable() + len
    ensures l.size <= r.size
  {
    var roomy := if l.Writable() < len then MakeRoom(l, len) else l;
    roomy.(writer := roomy.writer + len)
  }

  function Retrieved(l: Layout, len: nat): (r: Layout)
    requires l.Valid()
    ensures r.Valid() && r.size == l.size
  {
    if len < l.Readable() then l.(reader := l.reader + len)
    else l.(reader := CHEAP_PREPEND, writer := CHEAP_PREPEND)
  }

  /** The number of bytes one `readv` may deliver: the free tail, plus the overflow array when the
      tail is the smaller of the two. */
  function ReadCapacity(l: Layout): int {
    if l.Writable() < EXTRA_BUFFER then l.Writable() + EXTRA_BUFFER else l.Writable()
  }

  function Received(l: Layout, n: nat): (r: Layout)
    requires l.Valid()
    ensures r.Valid() && r.Readable() == l.Readable() + n
    ensures l.size <= r.size
  {
    if n <= l.Writable() then l.(writer := l.writer + n)
    else Appended(l.(writer := l.size), n - l.Writable())
  }

  /** A read may always bring 64 KiB; exactly when the tail is smaller than that it may bring 64 KiB
      more than the tail, and only then can it make the vector grow. */
  lemma ReadBrings64K(l: Layout, n: nat)
    requires l.Valid() && n <= ReadCapacity(l)
    ensures EXTRA_BUFFER <= ReadCapacity(l)
    ensures ReadCapacity(l) - l.Writable() == if l.Writable() < 65536 then 65536 else 0
    ensures l.size < Received(l, n).size ==> l.Writable() < EXTRA_BUFFER && Received(l, n).size == l.writer + n
  {
  }

  // ---------------------------------------------------------------------------------------------
  // Whole runs: the array against the queue it stands for
  // ---------------------------------------------------------------------------------------------

  datatype Op = Append(bytes: string) | Retrieve(len: nat) | Receive(bytes: string)

  function Drop(q: string, len: nat): string {
    if len < |q| then q[len..] else []
  }

  function QueueAfter(q: string, op: Op): string {
    match op
    case Append(bytes) => q + bytes
    case Receive(bytes) => q + bytes
    case Retrieve(len) => Drop(q, len)
  }

  function LayoutAfter(l: Layout, op: Op): (r: Layout)
    requires l.Valid()
    ensures r.Valid()
  {
    match op
    case Append(bytes) => Appended(l, |bytes|)
    case Receive(bytes) => Received(l, |bytes|)
    case Retrieve(len) => Retrieved(l, len)
  }

  function Fresh(initial: nat): (l: Layout)
    ensures l.Valid() && l.Readable() == 0
  {
    Layout(CHEAP_PREPEND + initial, CHEAP_PREPEND, CHEAP_PREPEND)
  }

  function RunQueue(ops: seq<Op>): string {
    if ops == [] then [] else QueueAfter(RunQueue(ops[..|ops| - 1]), ops[|ops| - 1])
  }

  function RunLayout(initial: nat, ops: seq<Op>): (l: Layout)
    ensures l.Valid()
  {
    if ops == [] then Fresh(initial) else LayoutAfter(RunLayout(initial, ops[..|ops| - 1]), ops[|ops| - 1])
  }

  function Max(a: int, b: int): int { if a < b then b else a }

  /** The largest number of bytes the queue has held at once. */
  function Peak(ops: seq<Op>): nat {
    if ops == [] then 0 else Max(Peak(ops[..|ops| - 1]), |RunQueue(ops)|)
  }

  function SpaceLimit(initial: nat, peak: nat): int {
    Max(CHEAP_PREPEND + initial, Max(peak + CHEAP_PREPEND, 2 * peak + 6))
  }

  /** One step keeps the limit: a resize happens only when sliding would not help, and then the
      dead space in front of the queue is shorter than the request. */
  lemma StepWithinLimit(l: Layout, op: Op, initial: nat, peak: nat)
    requires l.Valid() && l.size <= SpaceLimit(initial, peak)
    requires LayoutAfter(l, op).Readable() <= peak
    ensures LayoutAfter(l, op).size <= SpaceLimit(initial, peak)
  {
  }

  /** The array is never larger than what its start or its fullest moment called for, and it holds
      exactly as many bytes as the queue. */
  lemma {:induction false} RunWithinLimit(initial: nat, ops: seq<Op>)
    ensures RunLayout(initial, ops).Readable() == |RunQueue(ops)|
    ensures RunLayout(initial, ops).size <= SpaceLimit(initial, Peak(ops))
  {
    if ops != [] {
      var before := ops[..|ops| - 1];
      RunWithinLimit(initial, before);
      assert SpaceLimit(initial, Peak(before)) <= SpaceLimit(initial, Peak(ops));
      StepWithinLimit(RunLayout(initial, before), ops[|ops| - 1], initial, Peak(ops));
    }
  }

  /** The simpler form of the bound. */
  lemma RunWithinTwicePeak(initial: nat, ops: seq<Op>)
    ensures RunLayout(initial, ops).size <= Max(CHEAP_PREPEND + initial, 2 * Peak(ops) + 7)
  {
    RunWithinLimit(initial, ops);
    if Peak(ops) == 0 {
      EmptyRunKeepsSize(initial, ops);
    }
  }

  lemma {:induction false} EmptyRunKeepsSize(initial: nat, ops: seq<Op>)
    requires Peak(ops) == 0
    ensures RunLayout(initial, ops).size == CHEAP_PREPEND + initial
  {
    if ops != [] {
      EmptyRunKeepsSize(initial, ops[..|ops| - 1]);
      RunWithinLimit(initial, ops[..|ops| - 1]);
      RunWithinLimit(initial, ops);
    }
  }

  function Filler(n: nat): (s: string)
    ensures |s| == n
  {
    seq(n, i => 'x')
  }

  /** The limit is sharp: for every peak of at least two bytes some run reaches it exactly. */
  lemma LimitAttained(peak: nat) returns (initial: nat, ops: seq<Op>)
    requires 2 <= peak
    ensures Peak(ops) == peak && RunLayout(initial, ops).size == 2 * peak + 6 == SpaceLimit(initial, peak)
  {
    initial := peak - 1;
    var a, b, c := Append(Filler(peak - 1)), Retrieve(peak - 2), Append(Filler(peak - 1));
    ops := [a, b, c];
    assert ops[..2] == [a, b] && [a, b][..1] == [a] && [a][..0] == [];
    assert RunQueue([a]) == Filler(peak - 1);
    assert |RunQueue([a, b])| == 1;
    assert |RunQueue(ops)| == peak;
    assert Peak([a]) == peak - 1;
    assert Peak([a, b]) == peak - 1;
    assert RunLayout(initial, [a]) == Layout(peak + 7, 8, peak + 7);
    assert RunLayout(initial, [a, b]) == Layout(peak + 7, peak + 6, peak + 7);
  }

  /** No operation ever gives memory back. */
  lemma {:induction false} SizeNeverShrinks(initial: nat, ops: seq<Op>, k: nat)
    requires k <= |ops|
    ensures RunLayout(initial, ops[..k]).size <= RunLayout(initial, ops).size
  {
    if k < |ops| {
      var before := ops[..|ops| - 1];
      assert before[..k] == ops[..k];
      SizeNeverShrinks(initial, before, k);
    } else {
      assert ops[..k] == ops;
    }
  }

  // ---------------------------------------------------------------------------------------------
  // The class
  // ---------------------------------------------------------------------------------------------

  /** The kernel never delivers more than one `readv` has room for. */
  predicate Deliverable(initial: nat, ops: seq<Op>) {
    forall k :: 0 <= k < |ops| && ops[k].Receive? ==> |ops[k].bytes| <= ReadCapacity(RunLayout(initial, ops[..k]))
  }

  /** The outcome of one `readv` or `write`, as the kernel decides it. */
  datatype ReadResult = Data(bytes: string) | ReadError(code: int)

  class Buffer {
    var data: array<char>
    var readerIndex: nat
    var writerIndex: nat

    ghost predicate Valid()
      reads this
    {
      Shape().Valid()
    }

    ghost function Shape(): Layout
      reads this
    {
      Layout(data.Length, readerIndex, writerIndex)
    }

    ghost function Contents(): string
      reads this, data
      requires Valid()
    {
      data[readerIndex..writerIndex]
    }

    constructor (initialSize: nat)
      ensures Valid() && fresh(data)
      ensures Contents() == [] && Shape() == Fresh(initialSize)
    {
      data := new char[CHEAP_PREPEND + initialSize](_ => '\0');
      readerIndex := CHEAP_PREPEND;
      writerIndex := CHEAP_PREPEND;
    }

    method ReadableBytes() returns (n: nat)
      requires Valid()
      ensures n == |Contents()|
    {
      n := writerIndex - readerIndex;
    }

    method WriteableBytes() returns (n: nat)
      requires Valid()
      ensures n == Shape().Writable()
    {
      n := data.Length - writerIndex;
    }

    method Peek() returns (bytes: string)
      requires Valid()
      ensures bytes == Contents()
    {
      bytes := data[readerIndex..writerIndex];
    }

    method RetrieveAll()
      requires Valid()
      modifies this`readerIndex, this`writerIndex
      ensures Valid() && Contents() == []
      ensures Shape() == Retrieved(old(Shape()), |old(Contents())|)
    {
      readerIndex := CHEAP_PREPEND;
      writerIndex := CHEAP_PREPEND;
    }

    method Retrieve(len: nat)
      requires Valid()
      modifies this`readerIndex, this`writerIndex
      ensures Valid() && Contents() == Drop(old(Contents()), len)
      ensures Shape() == Retrieved(old(Shape()), len)
    {
      var readable := ReadableBytes();
      if len < readable {
        readerIndex := readerIndex + len;
      } else {
        RetrieveAll();
      }
    }

    method RetrieveAsString(len: nat) returns (result: string)
      requires Valid() && len <= |Contents()|
      modifies this`readerIndex, this`writerIndex
      ensures Valid() && result + Contents() == old(Contents()) && |result| == len
      ensures Shape() == Retrieved(old(Shape()), len)
    {
      result := data[readerIndex..readerIndex + len];
      Retrieve(len);
    }

    method RetrieveAllAsString() returns (result: string)
      requires Valid()
      modifies this`readerIndex, this`writerIndex
      ensures Valid() && result == old(Contents()) && Contents() == []
      ensures Shape() == Retrieved(old(Shape()), |old(Contents())|)
    {
      var readable := ReadableBytes();
      result := RetrieveAsString(readable);
    }

    /** `std::vector::resize` to a larger size: same prefix, new array. */
    method Resize(size: nat)
      requires data.Length <= size
      modifies this`data
      ensures fresh(data) && data.Length == size
      ensures forall k :: 0 <= k < old(data.Length) ==> data[k] == old(data[k])
    {
      var bigger := new char[size](_ => '\0');
      for i := 0 to data.Length
        modifies bigger
        invariant forall k :: 0 <= k < i ==> bigger[k] == data[k]
      {
        bigger[i] := data[i];
      }
      data := bigger;
    }

    /** The forward `std::copy` of the readable bytes to the front; the two ranges may overlap. */
    method Slide()
      requires Valid()
      modifies this`readerIndex, this`writerIndex, data
      ensures Valid() && Contents() == old(Contents())
      ensures Shape() == old(Shape()).(reader := CHEAP_PREPEND, writer := CHEAP_PREPEND + old(Shape()).Readable())
    {
      var readable := ReadableBytes();
      for i := 0 to readable
        modifies data
        invariant data[CHEAP_PREPEND..CHEAP_PREPEND + i] == old(data[readerIndex..readerIndex + i])
        invariant forall k :: readerIndex + i <= k < writerIndex ==> data[k] == old(data[k])
      {
        data[CHEAP_PREPEND + i] := data[readerIndex + i];
      }
      readerIndex := CHEAP_PREPEND;
      writerIndex := readerIndex + readable;
    }

    method MakeSpace(len: nat)
      requires Valid() && Shape().Writable() < len
      modifies this, data
      ensures Valid() && (data == old(data) || fresh(data))
      ensures Contents() == old(Contents())
      ensures Shape() == MakeRoom(old(Shape()), len)
      ensures len <= Shape().Writable()
    {
      var writable := WriteableBytes();
      if writable + readerIndex < len + CHEAP_PREPEND {
        Resize(writerIndex + len);
      } else {
        Slide();
      }
    }

    method EnsureWritableBytes(len: nat)
      requires Valid()
      modifies this, data
      ensures Valid() && (data == old(data) || fresh(data))
      ensures Contents() == old(Contents())
      ensures Shape() == if old(Shape()).Writable() < len then MakeRoom(old(Shape()), len) else old(Shape())
      ensures len <= Shape().Writable()
    {
      var writable := WriteableBytes();
      if writable < len {
        MakeSpace(len);
      }
    }

    /** Copies `bytes` into the free tail without advancing the writer index. */
    method CopyIn(bytes: string)
      requires Valid() && |bytes| <= Shape().Writable()
      modifies data
      ensures data[..writerIndex] == old(data[..writerIndex])
      ensures data[writerIndex..writerIndex + |bytes|] == bytes
    {
      for i := 0 to |bytes|
        modifies data
        invariant forall k :: 0 <= k < writerIndex ==> data[k] == old(data[k])
        invariant forall k :: writerIndex <= k < writerIndex + i ==> data[k] == bytes[k - writerIndex]
      {
        data[writerIndex + i] := bytes[i];
      }
      assert data[writerIndex..writerIndex + |bytes|] == bytes;
    }

    /** Copies `bytes` into the free tail and advances the writer index over them. */
    method Extend(bytes: string)
      requires Valid() && |bytes| <= Shape().Writable()
      modifies this`writerIndex, data
      ensures Valid() && Contents() == old(Contents()) + bytes
      ensures Shape() == old(Shape()).(writer := old(Shape()).writer + |bytes|)
    {
      ghost var before := data[..writerIndex];
      CopyIn(bytes);
      writerIndex := writerIndex + |bytes|;
      assert data[..writerIndex] == before + bytes;
      assert Contents() == (before + bytes)[readerIndex..];
    }

    method Append(bytes: string)
      requires Valid()
      modifies this, data
      ensures Valid() && (data == old(data) || fresh(data))
      ensures Contents() == old(Contents()) + bytes
      ensures Shape() == Appended(old(Shape()), |bytes|)
    {
      EnsureWritableBytes(|bytes|);
      Extend(bytes);
    }

    /** The second vector of a scatter read, filled by the kernel from its start. */
    static method Overflow(bytes: string) returns (extra: array<char>)
      requires |bytes| <= EXTRA_BUFFER
      ensures fresh(extra) && extra.Length == EXTRA_BUFFER && extra[..|bytes|] == bytes
    {
      extra := new char[EXTRA_BUFFER](_ => '\0');
      for i := 0 to |bytes|
        modifies extra
        invariant forall k :: 0 <= k < i ==> extra[k] == bytes[k]
      {
        extra[i] := bytes[i];
      }
    }

    /** The two-vector case: the first `writable` bytes fill the tail, the rest lands in a separate
        array and is appended from there. */
    method FillTailAndAppend(bytes: string, writable: nat)
      requires Valid() && writable == Shape().Writable() < |bytes| <= writable + EXTRA_BUFFER
      modifies this, data
      ensures Valid() && (data == old(data) || fresh(data))
      ensures Contents() == old(Contents()) + bytes
      ensures Shape() == Received(old(Shape()), |bytes|)
    {
      ghost var was := Contents();
      Extend(bytes[..writable]);
      var extra := Overflow(bytes[writable..]);
      Append(extra[..|bytes| - writable]);
      assert was + bytes[..writable] + bytes[writable..] == was + bytes;
    }

    /** One `readv` into the free tail and, when the tail is short, a 64 KiB overflow array.  The
        received bytes join the queue in order whichever side of that boundary they land on. */
    method ReadFd(outcome: ReadResult) returns (n: int, saveErrno: int)
      requires Valid()
      requires outcome.Data? ==> |outcome.bytes| <= ReadCapacity(Shape())
      modifies this, data
      ensures Valid() && (data == old(data) || fresh(data))
      ensures outcome.ReadError? ==> n == -1 && saveErrno == outcome.code
      ensures outcome.ReadError? ==> Contents() == old(Contents()) && Shape() == old(Shape())
      ensures outcome.Data? ==> n == |outcome.bytes| && Contents() == old(Contents()) + outcome.bytes
      ensures outcome.Data? ==> Shape() == Received(old(Shape()), |outcome.bytes|)
    {
      var writable := WriteableBytes();
      saveErrno := 0;
      match outcome
      case ReadError(code) =>
        n, saveErrno := -1, code;
      case Data(bytes) =>
        n := |bytes|;
        if n <= writable {
          Extend(bytes);
        } else {
          FillTailAndAppend(bytes, writable);
        }
    }

    method Perform(op: Op)
      requires Valid() && (op.Receive? ==> |op.bytes| <= ReadCapacity(Shape()))
      modifies this, data
      ensures Valid() && (data == old(data) || fresh(data))
      ensures Contents() == QueueAfter(old(Contents()), op)
      ensures Shape() == LayoutAfter(old(Shape()), op)
    {
      match op
      case Append(bytes) => Append(bytes);
      case Retrieve(len) => Retrieve(len);
      case Receive(bytes) =>
        var n, savedErrno := ReadFd(Data(bytes));
    }
  }

  /** Any sequence of operations on the real array: what lies between the indices is the queue, in
      content and order, and the array never outgrows the limit. */
  method RunOps(initial: nat, ops: seq<Op>) returns (b: Buffer)
    requires Deliverable(initial, ops)
    ensures b.Valid() && fresh(b) && fresh(b.data)
    ensures b.Contents() == RunQueue(ops) && b.Shape() == RunLayout(initial, ops)
    ensures b.data.Length <= SpaceLimit(initial, Peak(ops))
  {
    b := new Buffer(initial);
    for i := 0 to |ops|
      invariant b.Valid() && fresh(b) && fresh(b.data)
      invariant b.Contents() == RunQueue(ops[..i]) && b.Shape() == RunLayout(initial, ops[..i])
    {
      b.Perform(ops[i]);
      assert ops[..i + 1][..i] == ops[..i];
    }
    assert ops[..|ops|] == ops;
    RunWithinLimit(initial, ops);
  }
}

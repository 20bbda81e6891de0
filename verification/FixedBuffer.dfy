// The fixed-capacity text buffer under the log stream and the async logger:
// include/logger/FixedBuffer.h.

module FixedBuffer {

  const SMALL_BUFFER: nat := 4000
  const LARGE_BUFFER: nat := 4000000

  class FixedBuffer {
    const data: array<char>
    var cur: nat

    ghost predicate Valid()
      reads this
    {
      0 < data.Length && cur <= data.Length
    }

    ghost function Contents(): string
      reads this, data
      requires Valid()
    {
      data[..cur]
    }

    /** A buffer of the given capacity holding the given text. */
    ghost predicate Has(size: nat, text: string)
      reads this, data
    {
      Valid() && data.Length == size && Contents() == text
    }

    constructor (size: nat)
      requires 0 < size
      ensures Valid() && fresh(data) && data.Length == size && Contents() == ""
    {
      data := new char[size];
      cur := 0;
    }

    method Avail() returns (n: nat)
      requires Valid()
      ensures n == data.Length - |Contents()|
    {
      n := data.Length - cur;
    }

    /** The number of bytes written: `cur_ - data_`. */
    method Length() returns (n: nat)
      requires Valid()
      ensures n == |Contents()|
    {
      n := cur;
    }

    /** `length()` as it stands in the source measures to `end()` and so always gives the capacity:
        `toString` then has the right text exactly when the buffer is completely full. */
    method LengthAsWritten() returns (n: nat)
      requires Valid()
      ensures n == data.Length && (data[..n] == Contents() <==> |Contents()| == data.Length)
    {
      n := data.Length;
    }

    /** Appends all of `bytes`, or nothing if they do not fit with a byte to spare. */
    method Append(bytes: string)
      requires Valid()
      modifies this`cur, data
      ensures Valid()
      ensures Contents() == if |bytes| < data.Length - old(cur) then old(Contents()) + bytes else old(Contents())
    {
      var avail := Avail();
      if avail > |bytes| {
        for i := 0 to |bytes|
          modifies data
          invariant forall k :: 0 <= k < cur ==> data[k] == old(data[k])
          invariant forall k :: cur <= k < cur + i ==> data[k] == bytes[k - cur]
        {
          data[cur + i] := bytes[i];
        }
        cur := cur + |bytes|;
        assert data[..cur] == old(data[..cur]) + bytes;
      }
    }

    /** Accepts `len` bytes already written at the cursor. */
    method Add(len: nat)
      requires Valid() && cur + len <= data.Length
      modifies this`cur
      ensures Valid() && cur == old(cur) + len
      ensures Contents() == old(Contents()) + old(data[cur..cur + len])
    {
      cur := cur + len;
    }

    method Reset()
      requires Valid()
      modifies this`cur
      ensures Valid() && Contents() == ""
    {
      cur := 0;
    }

    method Bzero()
      requires Valid()
      modifies data
      ensures Valid() && forall k :: 0 <= k < data.Length ==> data[k] == '\0'
    {
      for i := 0 to data.Length
        modifies data
        invariant forall k :: 0 <= k < i ==> data[k] == '\0'
      {
        data[i] := '\0';
      }
    }

    method ToString() returns (s: string)
      requires Valid()
      ensures s == Contents()
    {
      var n := Length();
      s := data[..n];
    }
  }
}

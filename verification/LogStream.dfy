// Integer output of the log stream: src/logger/LogStream.cpp.

module LogStream {
  import opened Decimal
  import opened FixedBuffer

  const MAX_NUMERIC_SIZE: nat := 48

  function Reverse(s: string): (r: string)
    ensures |r| == |s|
  {
    if s == "" then "" else Reverse(s[1..]) + [s[0]]
  }

  lemma {:induction false} ReverseAppend(s: string, c: char)
    ensures Reverse(s + [c]) == [c] + Reverse(s)
  {
    if s == "" {
      assert [c][1..] == "";
    } else {
      assert (s + [c])[1..] == s[1..] + [c];
      ReverseAppend(s[1..], c);
    }
  }

  lemma {:induction false} ReverseAt(s: string, k: nat)
    requires k < |s|
    ensures Reverse(s)[k] == s[|s| - 1 - k]
  {
    if k < |s| - 1 {
      ReverseAt(s[1..], k);
    }
  }

  /** `std::reverse` on a range, in place. */
  method ReverseInPlace(a: array<char>, lo: nat, hi: nat)
    requires lo <= hi <= a.Length
    modifies a
    ensures a[lo..hi] == Reverse(old(a[lo..hi]))
    ensures forall k :: 0 <= k < lo || hi <= k < a.Length ==> a[k] == old(a[k])
  {
    var i, j := lo, hi;
    while i + 1 < j
      invariant lo <= i && j <= hi && i - lo == hi - j && i <= j + 1
      invariant forall k :: lo <= k < i ==> a[k] == old(a[lo + hi - 1 - k])
      invariant forall k :: j <= k < hi ==> a[k] == old(a[lo + hi - 1 - k])
      invariant forall k :: 0 <= k < lo || i <= k < j || hi <= k < a.Length ==> a[k] == old(a[k])
    {
      j := j - 1;
      a[i], a[j] := a[j], a[i];
      i := i + 1;
    }
    ghost var was := old(a[lo..hi]);
    forall k | 0 <= k < hi - lo
      ensures a[lo + k] == Reverse(was)[k]
    {
      ReverseAt(was, k);
      assert was[hi - lo - 1 - k] == old(a[hi - 1 - k]);
      assert i <= lo + k < j ==> lo + k == hi - 1 - k;
      assert a[lo + k] == old(a[hi - 1 - k]);
    }
  }

  /** One turn of the digit loop: the digits still to come, and behind them those written. */
  lemma NextDigit(n: int, written: string, whole: string)
    requires Magnitude(Abs(n)) + Reverse(written) == whole
    ensures 0 <= ZERO_INDEX + Remainder(n, 10) < |DIGITS|
    ensures var longer := Reverse(written + [DIGITS[ZERO_INDEX + Remainder(n, 10)]]);
            whole == if Quotient(n, 10) == 0 then longer else Magnitude(Abs(Quotient(n, 10))) + longer
  {
    TruncatedParts(n);
    TableIsSymmetric(Remainder(n, 10));
    ReverseAppend(written, Digit(Abs(n) % 10));
    if Abs(n) < 10 {
      assert Magnitude(Abs(n)) == [Digit(Abs(n) % 10)];
    } else {
      assert Magnitude(Abs(n)) == Magnitude(Abs(n) / 10) + [Digit(Abs(n) % 10)];
    }
  }

  class LogStream {
    const buffer: FixedBuffer

    ghost predicate Valid()
      reads this, buffer
    {
      buffer.Valid() && buffer.data.Length == SMALL_BUFFER
    }

    constructor ()
      ensures Valid() && fresh(buffer) && buffer.Contents() == ""
    {
      buffer := new FixedBuffer(SMALL_BUFFER);
    }

    /** One turn of the digit loop. */
    method PutDigit(n: int, start: nat, cur: nat, ghost whole: string)
      requires Valid() && start <= cur < SMALL_BUFFER
      requires Magnitude(Abs(n)) + Reverse(buffer.data[start..cur]) == whole
      modifies buffer.data
      ensures var written := Reverse(buffer.data[start..cur + 1]);
              whole == if Quotient(n, 10) == 0 then written else Magnitude(Abs(Quotient(n, 10))) + written
      ensures forall k :: 0 <= k < SMALL_BUFFER && k != cur ==> buffer.data[k] == old(buffer.data[k])
    {
      ghost var written := buffer.data[start..cur];
      NextDigit(n, written, whole);
      buffer.data[cur] := DIGITS[ZERO_INDEX + Remainder(n, 10)];
      assert buffer.data[start..cur + 1] == written + [buffer.data[cur]];
    }

    /** The digit loop: writes the decimal of `num` backwards from `start`. */
    method WriteDigits(num: int, start: nat) returns (cur: nat)
      requires Valid() && start + 20 < SMALL_BUFFER
      requires INT64_MIN <= num <= UINT64_MAX
      modifies buffer.data
      ensures start < cur <= start + 20
      ensures Reverse(buffer.data[start..cur]) == Magnitude(Abs(num))
      ensures forall k :: 0 <= k < start || start + 20 <= k < SMALL_BUFFER ==> buffer.data[k] == old(buffer.data[k])
    {
      ghost var whole := Magnitude(Abs(num));
      PowersOfTen();
      MagnitudeLength(Abs(num), 20);
      cur := start;
      var n, started := num, false;
      assert buffer.data[start..start] == "";
      while !started || n != 0
        invariant start <= cur <= start + 20 && (started ==> start < cur)
        invariant whole == (if started && n == 0 then "" else Magnitude(Abs(n))) + Reverse(buffer.data[start..cur])
        invariant forall k :: 0 <= k < start || cur <= k < SMALL_BUFFER ==> buffer.data[k] == old(buffer.data[k])
        decreases !started, Abs(n)
      {
        assert |Magnitude(Abs(n))| + (cur - start) == |whole| <= 20;
        TruncatedParts(n);
        PutDigit(n, start, cur, whole);
        cur := cur + 1;
        n, started := Quotient(n, 10), true;
      }
      assert "" + Reverse(buffer.data[start..cur]) == Reverse(buffer.data[start..cur]);
    }

    /** A minus sign after the digits of a negative number. */
    method PutSign(num: int, start: nat, end: nat) returns (cur: nat)
      requires Valid() && start < end < SMALL_BUFFER
      requires Reverse(buffer.data[start..end]) == Magnitude(Abs(num))
      modifies buffer.data
      ensures end <= cur <= end + 1 && cur - start == |Format(num)|
      ensures Reverse(buffer.data[start..cur]) == Format(num)
      ensures forall k :: 0 <= k < end || end < k < SMALL_BUFFER ==> buffer.data[k] == old(buffer.data[k])
    {
      var data := buffer.data;
      ghost var digits := data[start..end];
      cur := end;
      if num < 0 {
        data[cur] := '-';
        cur := cur + 1;
        ReverseAppend(digits, '-');
        assert data[start..cur] == digits + ['-'];
      }
    }

    /** The sign, the NUL and the reversal. */
    method SignAndReverse(num: int, start: nat, end: nat) returns (cur: nat)
      requires Valid() && INT64_MIN <= num <= UINT64_MAX
      requires start < end && start + 20 < SMALL_BUFFER && end < SMALL_BUFFER
      requires Reverse(buffer.data[start..end]) == Magnitude(Abs(num))
      modifies buffer.data
      ensures start < cur <= start + 20 && buffer.data[start..cur] == Format(num)
      ensures forall k :: 0 <= k < start || start + 21 <= k < SMALL_BUFFER ==> buffer.data[k] == old(buffer.data[k])
    {
      LengthAtMost20(num);
      cur := PutSign(num, start, end);
      ghost var backwards := buffer.data[start..cur];
      buffer.data[cur] := '\0';
      assert buffer.data[start..cur] == backwards;
      ReverseInPlace(buffer.data, start, cur);
    }

    /** `formatInteger`: appends the decimal of `num` if 48 characters are free, and nothing
        otherwise.  No more than 20 characters and a NUL are written. */
    method FormatInteger(num: int)
      requires Valid() && INT64_MIN <= num <= UINT64_MAX
      modifies buffer`cur, buffer.data
      ensures Valid()
      ensures buffer.Contents() ==
              old(buffer.Contents()) + if SMALL_BUFFER - old(buffer.cur) >= MAX_NUMERIC_SIZE then Format(num) else ""
      ensures forall k :: old(buffer.cur) + 21 <= k < SMALL_BUFFER ==> buffer.data[k] == old(buffer.data[k])
    {
      var avail := buffer.Avail();
      if avail >= MAX_NUMERIC_SIZE {
        var data, start := buffer.data, buffer.cur;
        var cur := WriteDigits(num, start);
        cur := SignAndReverse(num, start, cur);
        buffer.Add(cur - start);
      }
    }
  }
}

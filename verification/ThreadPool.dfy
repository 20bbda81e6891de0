// Round-robin choice of I/O loops and the names of connections: src/net/EventLoopThreadPool.cpp and
// the first half of TcpServer::newConnection in src/net/TcpServer.cpp.

module ThreadPool {
  import opened Decimal

  type LoopId = nat

  const BASE_LOOP: LoopId := 0

  /** The loop of the k-th connection: the base loop alone, or the I/O loops in turn. */
  function Choice(loops: seq<LoopId>, k: nat): LoopId {
    if loops == [] then BASE_LOOP else loops[k % |loops|]
  }

  class EventLoopThreadPool {
    var loops: seq<LoopId>
    var next: nat
    ghost var issued: nat    // connections placed so far

    ghost predicate Valid()
      reads this
    {
      next == if loops == [] then 0 else issued % |loops|
    }

    constructor ()
      ensures Valid() && loops == [] && issued == 0
    {
      loops, next, issued := [], 0, 0;
    }

    /** The pool is started before it places a connection; `started` are the new threads' loops. */
    method Start(started: seq<LoopId>)
      requires Valid() && issued == 0
      modifies this`loops, this`next
      ensures Valid() && loops == old(loops) + started
    {
      for i := 0 to |started|
        invariant loops == old(loops) + started[..i] && next == 0
      {
        loops := loops + [started[i]];
      }
      if loops != [] {
        assert 0 % |loops| == 0;
      }
    }

    method GetNextLoop() returns (loop: LoopId)
      requires Valid()
      modifies this`next, this`issued
      ensures Valid() && issued == old(issued) + 1
      ensures loop == Choice(loops, old(issued))
    {
      loop := BASE_LOOP;
      if loops != [] {
        loop := loops[next];
        StepModulo(issued, |loops|);
        next := next + 1;
        if next >= |loops| {
          next := 0;
        }
      }
      issued := issued + 1;
    }

    method GetAllLoops() returns (all: seq<LoopId>)
      ensures all != [] && (loops != [] ==> all == loops) && (loops == [] ==> all == [BASE_LOOP])
    {
      all := if loops == [] then [BASE_LOOP] else loops;
    }
  }

  // ---------------------------------------------------------------------------------------------
  // Fairness
  // ---------------------------------------------------------------------------------------------

  lemma MulMonotonic(a: int, b: int, n: int)
    requires a <= b && 0 <= n
    ensures a * n <= b * n
  {
    assert b * n - a * n == (b - a) * n;
  }

  lemma FactorLess(a: int, b: int, n: int)
    requires 0 < n && a * n < b * n
    ensures a < b
  {
    if a >= b {
      MulMonotonic(b, a, n);
    }
  }

  lemma DivisionUnique(a: int, n: int, q: int, r: int)
    requires 0 < n && a == q * n + r && 0 <= r < n
    ensures a / n == q && a % n == r
  {
    assert a == (a / n) * n + a % n;
    assert (q + 1) * n == q * n + n && (a / n + 1) * n == (a / n) * n + n;
    FactorLess(a / n, q + 1, n);
    FactorLess(q, a / n + 1, n);
  }

  lemma StepModulo(k: nat, n: nat)
    requires 0 < n
    ensures (k + 1) % n == if k % n == n - 1 then 0 else k % n + 1
    ensures (k + 1) / n == k / n + if k % n == n - 1 then 1 else 0
  {
    var q, r := k / n, k % n;
    assert k == q * n + r && (q + 1) * n == q * n + n;
    if r == n - 1 {
      DivisionUnique(k + 1, n, q + 1, 0);
    } else {
      DivisionUnique(k + 1, n, q, r + 1);
    }
  }

  /** How many of the connections `start .. start + m` go to the j-th of n loops. */
  function Hits(n: nat, j: nat, start: nat, m: nat): nat
    requires 0 < n
  {
    if m == 0 then 0 else Hits(n, j, start, m - 1) + if (start + m - 1) % n == j then 1 else 0
  }

  /** In any window of m consecutive connections every loop gets floor(m / n) or ceil(m / n). */
  lemma FairShare(n: nat, j: nat, start: nat, m: nat)
    requires j < n
    ensures m / n <= Hits(n, j, start, m) <= (m + n - 1) / n
  {
    HitsClosedForm(n, j, start, m);
    DifferenceOfQuotients(start + n - 1 - j, m, n);
  }

  lemma DifferenceOfQuotients(a: nat, m: nat, n: nat)
    requires 0 < n
    ensures m / n <= (a + m) / n - a / n <= (m + n - 1) / n
  {
    var q, r := a / n, a % n;
    var q', r' := (a + m) / n, (a + m) % n;
    assert a == q * n + r && a + m == q' * n + r';
    assert (q' - q) * n == q' * n - q * n;
    QuotientBounds(m, n, q' - q, r' - r);
  }

  lemma QuotientBounds(m: int, n: int, h: int, d: int)
    requires 0 < n && m == h * n + d && 0 - n < d < n
    ensures m / n <= h <= (m + n - 1) / n
  {
    var q, q' := m / n, (m + n - 1) / n;
    assert m == q * n + m % n && m + n - 1 == q' * n + (m + n - 1) % n;
    assert (h + 1) * n == h * n + n && (q' + 1) * n == q' * n + n;
    FactorLess(q, h + 1, n);
    FactorLess(h, q' + 1, n);
  }

  lemma {:induction false} HitsClosedForm(n: nat, j: nat, start: nat, m: nat)
    requires j < n
    ensures Hits(n, j, start, m) == (start + m + n - 1 - j) / n - (start + n - 1 - j) / n
  {
    if m > 0 {
      HitsClosedForm(n, j, start, m - 1);
      var k := start + m - 1;
      StepModulo(k + n - 1 - j, n);
      ShiftedModulo(k, n, j);
    }
  }

  lemma ShiftedModulo(k: nat, n: nat, j: nat)
    requires j < n
    ensures (k + n - 1 - j) % n == n - 1 <==> k % n == j
  {
    var q, r := k / n, k % n;
    assert k == q * n + r;
    assert (q + 1) * n == q * n + n;
    if r >= j + 1 {
      DivisionUnique(k + n - 1 - j, n, q + 1, r - 1 - j);
    } else {
      DivisionUnique(k + n - 1 - j, n, q, r + n - 1 - j);
    }
  }

  // ---------------------------------------------------------------------------------------------
  // Names
  // ---------------------------------------------------------------------------------------------

  /** `nextConnId_` is an int. */
  const ID_LIMIT: nat := 0x8000_0000

  /** snprintf into 64 bytes keeps 63 characters. */
  const NAME_TAIL: nat := 63

  function Truncated(s: string): string {
    if |s| <= NAME_TAIL then s else s[..NAME_TAIL]
  }

  function ConnName(server: string, ipPort: string, id: nat): string {
    server + Truncated("-" + ipPort + "#" + Format(id))
  }

  lemma ShortId(id: nat)
    requires id < ID_LIMIT
    ensures |Format(id)| <= 10
  {
    assert Pow10(10) == 10_000_000_000 by {
      assert Pow10(5) == 100_000;
    }
    MagnitudeLength(id, 10);
  }

  lemma NameInjective(server: string, ipPort: string, m: nat, n: nat)
    requires |ipPort| <= 51 && m < ID_LIMIT && n < ID_LIMIT
    requires ConnName(server, ipPort, m) == ConnName(server, ipPort, n)
    ensures m == n
  {
    ShortId(m);
    ShortId(n);
    NameWhole(server, ipPort, Format(m));
    NameWhole(server, ipPort, Format(n));
    PrefixCancels(server + ("-" + ipPort + "#"), Format(m), Format(n));
    FormatInjective(m, n);
  }

  lemma NameWhole(server: string, ipPort: string, number: string)
    requires |ipPort| <= 51 && |number| <= 10
    ensures server + Truncated("-" + ipPort + "#" + number) == server + ("-" + ipPort + "#") + number
  {
  }

  lemma PrefixCancels(prefix: string, a: string, b: string)
    requires prefix + a == prefix + b
    ensures a == b
  {
    assert a == (prefix + a)[|prefix|..] && b == (prefix + b)[|prefix|..];
  }

  /** The names of a server's connections are pairwise distinct exactly when the address text leaves
      room for a ten-digit number in the 64-byte buffer. */
  lemma NamesDistinctIff(server: string, ipPort: string)
    ensures (forall m: nat, n: nat ::
              m < ID_LIMIT && n < ID_LIMIT && ConnName(server, ipPort, m) == ConnName(server, ipPort, n) ==> m == n)
            <==> |ipPort| <= 51
  {
    if |ipPort| <= 51 {
      forall m: nat, n: nat |
        m < ID_LIMIT && n < ID_LIMIT && ConnName(server, ipPort, m) == ConnName(server, ipPort, n)
        ensures m == n
      {
        NameInjective(server, ipPort, m, n);
      }
    } else {
      var head := "-" + ipPort + "#";
      var m, n := 1_000_000_000, 1_000_000_001;
      var front := Magnitude(100_000_000);
      assert Pow10(8) == 100_000_000 by { assert Pow10(4) == 10_000; }
      MagnitudeLength(100_000_000, 8);
      assert head + Format(m) == (head + front) + "0" && head + Format(n) == (head + front) + "1";
      assert |head + front| >= NAME_TAIL;
      assert Truncated(head + Format(m)) == (head + front)[..NAME_TAIL] == Truncated(head + Format(n));
      assert ConnName(server, ipPort, m) == ConnName(server, ipPort, n);
    }
  }
}

/**
 Transaction numbers and ids of dbe/dbe0type.c: 32-bit counters that live in 1..M-1 and jump
 over the gap above.
 */
module TrxRing {

  const TWO32: nat := 0x1_0000_0000

  /** Where 32-bit arithmetic takes a number. */
  function Wrapped(x: int): (r: nat)
    ensures r < TWO32
  {
    x % TWO32
  }

  predicate OnRing(m: nat, x: int) {
    1 <= x < m
  }

  /** dbe_type_skipgap. */
  function SkipGap(m: nat, x: nat, direction: int): (r: nat)
    requires 2 <= m < TWO32 && x < TWO32
    ensures OnRing(m, r)
  {
    if Wrapped(x - 1) >= m - 1 then (if direction < 0 then m - 1 else 1) else x
  }

  /** dbe_trxnum_sum and dbe_trxid_sum; the engine has m at 0xFFFFFFFF - 11000. */
  function Sum(m: nat, x: nat, n: int): (r: nat)
    requires 2 <= m < TWO32 && x < TWO32
    ensures OnRing(m, r)
  {
    SkipGap(m, Wrapped(x + n), n)
  }

  lemma WrappedSmall(x: int)
    ensures 0 <= x < TWO32 ==> Wrapped(x) == x
    ensures TWO32 <= x < 2 * TWO32 ==> Wrapped(x) == x - TWO32
    ensures 0 <= x + TWO32 < TWO32 ==> Wrapped(x) == x + TWO32
  {
  }

  /** One step up and one step down undo each other. */
  lemma {:induction false} StepsInverse(m: nat, x: nat)
    requires 2 <= m < TWO32 && OnRing(m, x)
    ensures Sum(m, Sum(m, x, 1), -1) == x && Sum(m, Sum(m, x, -1), 1) == x
  {
    WrappedSmall(x + 1);
    WrappedSmall(x);
    WrappedSmall(x - 1);
    WrappedSmall(x - 2);
    WrappedSmall(m);
    WrappedSmall(m - 1);
    WrappedSmall(m - 2);
    WrappedSmall(-1);
  }

  function Steps(m: nat, x: nat, k: nat): (r: nat)
    requires 2 <= m < TWO32 && OnRing(m, x)
    ensures OnRing(m, r)
  {
    if k == 0 then x else Sum(m, Steps(m, x, k - 1), 1)
  }

  function Ring(m: nat, i: int): nat
    requires 2 <= m
  {
    i % (m - 1) + 1
  }

  lemma RingSucc(m: nat, i: int)
    requires 2 <= m < TWO32
    ensures Sum(m, Ring(m, i), 1) == Ring(m, i + 1)
  {
    var q := m - 1;
    var r := i % q;
    ModSucc(i, q);
    WrappedSmall(r + 2);
    WrappedSmall(r + 1);
  }

  lemma ModSucc(i: int, q: nat)
    requires q > 0
    ensures (i + 1) % q == if i % q == q - 1 then 0 else i % q + 1
  {
    var d, r := i / q, i % q;
    assert i == d * q + r;
    if r == q - 1 {
      assert i + 1 == (d + 1) * q + 0;
      ModIs(i + 1, q, d + 1, 0);
    } else {
      ModIs(i + 1, q, d, r + 1);
    }
  }

  lemma ModIs(x: int, q: nat, d: int, r: int)
    requires q > 0 && x == d * q + r && 0 <= r < q
    ensures x % q == r
  {
    var e, s := x / q, x % q;
    DivMod(x, q);
    Difference(e, d, q);
    Multiple(e - d, q);
    Difference(d, e, q);
    Multiple(d - e, q);
  }

  lemma DivMod(x: int, q: nat)
    requires q > 0
    ensures x == (x / q) * q + x % q && 0 <= x % q < q
  {
  }

  lemma Difference(e: int, d: int, q: int)
    ensures (e - d) * q == e * q - d * q
  {
  }

  lemma Multiple(d: int, q: nat)
    requires q > 0
    ensures d * q <= 0 || d * q >= q
  {
    if d > 0 {
      Difference(d, 1, q);
      Product(d - 1, q);
    } else {
      Product(-d, q);
    }
  }

  lemma Product(a: int, q: int)
    requires a >= 0 && q >= 0
    ensures a * q >= 0
  {
  }

  /** k increments from x end up k places further on the ring of M-1 ids. */
  lemma {:induction false} StepsAreRing(m: nat, x: nat, k: nat)
    requires 2 <= m < TWO32 && OnRing(m, x)
    ensures Steps(m, x, k) == Ring(m, x - 1 + k)
  {
    if k == 0 {
      ModIs(x - 1, m - 1, 0, x - 1);
    } else {
      StepsAreRing(m, x, k - 1);
      RingSucc(m, x - 1 + (k - 1));
    }
  }

  /** No id comes up twice within M-1 steps. */
  lemma {:induction false} NoRepeat(m: nat, x: nat, i: nat, j: nat)
    requires 2 <= m < TWO32 && OnRing(m, x) && i < j < i + (m - 1)
    ensures Steps(m, x, i) != Steps(m, x, j)
  {
    hide Steps;
    StepsAreRing(m, x, i);
    StepsAreRing(m, x, j);
    RingDiffers(m, x - 1 + i, x - 1 + j);
  }

  lemma RingDiffers(m: nat, a: int, b: int)
    requires 2 <= m && a < b < a + (m - 1)
    ensures Ring(m, a) != Ring(m, b)
  {
    DifferMod(a, b, m - 1);
  }

  lemma DifferMod(a: int, b: int, q: nat)
    requires q > 0 && a < b < a + q
    ensures a % q != b % q
  {
    DivMod(a, q);
    DivMod(b, q);
    Difference(b / q, a / q, q);
    Multiple(b / q - a / q, q);
  }

  /** Adding n at once is n single steps if and only if it does not jump past the gap: a jump
      that lands in the gap starts over at 1, whatever was left of it. */
  lemma {:induction false} JumpIsSteps(m: nat, x: nat, n: nat)
    requires 2 <= m < TWO32 && OnRing(m, x) && 1 <= n <= m - 1
    ensures Sum(m, x, n) == Steps(m, x, n) <==> x + n <= m
  {
    StepsAreRing(m, x, n);
    var i := x - 1 + n;
    if i < m - 1 {
      ModIs(i, m - 1, 0, i);
    } else {
      ModIs(i, m - 1, 1, i - (m - 1));
    }
    WrappedSmall(x + n);
    WrappedSmall(x + n - 1);
    WrappedSmall(x + n - TWO32 - 1);
    WrappedSmall(-1);
  }

  /** A jump of five from 8 on a ring of nine ids, where five steps lead to 4. */
  lemma {:induction false} JumpPassesGap()
    ensures Sum(10, 8, 5) == 1 && Steps(10, 8, 5) == 4
  {
    hide Steps;
    StepsAreRing(10, 8, 5);
    WrappedSmall(13);
    WrappedSmall(12);
  }

  /** With the engine's own bound: a jump that lands in the gap, and one past 2^32, which comes
      out behind it. */
  lemma JumpsAtTheTop()
    ensures var m := 0xFFFF_FFFF - 11000; Sum(m, m - 1, 5000) == 1 && Sum(m, m - 1, 20000) == 8998
    ensures var m := 0xFFFF_FFFF - 11000; Sum(m, 5, -5) == m - 1 && Sum(m, 5, -20000) == 4294947301
  {
  }

  /** Downwards: n steps down are one jump if and only if the jump does not pass zero. */
  lemma {:induction false} JumpDownIsSteps(m: nat, x: nat, y: nat, n: nat)
    requires 2 <= m < TWO32 && OnRing(m, x) && OnRing(m, y) && 1 <= n <= m - 1 && Steps(m, y, n) == x
    ensures Sum(m, x, -(n as int)) == y <==> n <= x
  {
    StepsAreRing(m, y, n);
    var i := y - 1 + n;
    if i < m - 1 {
      ModIs(i, m - 1, 0, i);
    } else {
      ModIs(i, m - 1, 1, i - (m - 1));
    }
    WrappedSmall(x - n);
    WrappedSmall(x - n - 1);
    WrappedSmall(x - n + TWO32 - 1);
  }
}

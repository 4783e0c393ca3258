/** Slots of a ring: an index is masked with a power-of-two capacity, which is `% cap`. */
module Modulo {

  const U32: nat := 0x1_0000_0000
  const U64: nat := 0x1_0000_0000_0000_0000
  const TWO31: nat := 0x8000_0000

  lemma MultipleNotBelow(k: int, cap: nat)
    requires cap > 0
    ensures !(0 < k * cap < cap)
  {
    if k <= 0 { assert k * cap <= 0; } else { assert k * cap >= cap; }
  }

  /** Two indices less than one capacity apart fall into different slots. */
  lemma DistinctSlots(i: nat, j: nat, cap: nat)
    requires cap > 0 && i < j < i + cap
    ensures i % cap != j % cap
  {
    var a, b := i / cap, j / cap;
    assert i == a * cap + i % cap && j == b * cap + j % cap;
    assert (b - a) * cap == b * cap - a * cap;
    MultipleNotBelow(b - a, cap);
  }

  /** No index in [lo, hi) shares the slot of hi while the range is shorter than the ring. */
  lemma FreeSlot(lo: nat, hi: nat, cap: nat)
    requires cap > 0 && lo <= hi < lo + cap
    ensures forall i :: lo <= i < hi ==> i % cap != hi % cap
  {
    forall i | lo <= i < hi ensures i % cap != hi % cap {
      DistinctSlots(i, hi, cap);
    }
  }

  /** The remainder is the only number below `m` a multiple away. */
  lemma RemainderIs(x: nat, q: nat, m: nat, r: nat)
    requires m > 0 && x == q * m + r && r < m
    ensures x % m == r
  {
    var d := x / m;
    assert x == d * m + x % m;
    assert (q - d) * m == q * m - d * m == x % m - r;
    MultipleNotBelow(q - d, m);
    MultipleNotBelow(d - q, m);
    assert (d - q) * m == -((q - d) * m);
  }

  lemma QuotientForm(x: nat, m: nat)
    requires m > 0
    ensures x == (x / m) * m + x % m
  {
  }

  lemma NextRemainder(x: nat, m: nat)
    requires m > 0
    ensures (x % m + 1) % m == (x + 1) % m
  {
    var q, r := x / m, x % m;
    QuotientForm(x, m);
    if r + 1 < m {
      RemainderIs(x + 1, q, m, r + 1);
      RemainderIs(r + 1, 0, m, r + 1);
    } else {
      NextMultiple(q, m);
      RemainderIs(x + 1, q + 1, m, 0);
      RemainderIs(r + 1, 1, m, 0);
    }
  }

  lemma NextMultiple(q: nat, m: nat)
    ensures (q + 1) * m == q * m + m
  {
  }

  lemma Regroup(q: nat, k: nat, m: nat, x: nat, y: nat)
    ensures q * (k * m) + x * m + y == (q * k + x) * m + y
  {
    assert q * (k * m) == (q * k) * m;
  }

  /** Reducing by a multiple of m first changes nothing modulo m. */
  lemma ModOfMod(x: nat, big: nat, k: nat, m: nat)
    requires m > 0 && big > 0 && big == k * m
    ensures x % big % m == x % m
  {
    var q, r := x / big, x % big;
    QuotientForm(x, big);
    QuotientForm(r, m);
    Regroup(q, k, m, r / m, r % m);
    RemainderIs(x, q * k + r / m, m, r % m);
  }

  predicate PowerOfTwo(n: nat) {
    n == 1 || (n > 0 && n % 2 == 0 && PowerOfTwo(n / 2))
  }

  lemma {:induction false} SmallerPowerDivides(c: nat, m: nat)
    requires PowerOfTwo(c) && PowerOfTwo(m) && c <= m
    ensures m % c == 0
  {
    if c > 1 {
      SmallerPowerDivides(c / 2, m / 2);
      var h, k := m / 2, c / 2;
      assert h == (h / k) * k;
      assert (h / k) * (2 * k) == 2 * ((h / k) * k);
      RemainderIs(m, h / k, c, 0);
    }
  }

  lemma {:induction false} PowersApart(p: nat, q: nat)
    requires PowerOfTwo(p) && PowerOfTwo(q) && p < q
    ensures 2 * p <= q
  {
    if p > 1 { PowersApart(p / 2, q / 2); }
  }

  lemma DoubledIsPower(h: nat)
    requires PowerOfTwo(h)
    ensures PowerOfTwo(2 * h)
  {
    assert 2 * h / 2 == h;
  }

  lemma {:induction false} ProductOfPowers(a: nat, b: nat)
    requires PowerOfTwo(a) && PowerOfTwo(b)
    ensures PowerOfTwo(a * b)
  {
    if a == 1 {
    } else {
      var h := a / 2;
      ProductOfPowers(h, b);
      DoubledIsPower(h * b);
      assert a * b == 2 * (h * b) by {
        assert a == 2 * h;
      }
    }
  }

  lemma CounterSize()
    ensures PowerOfTwo(U64) && PowerOfTwo(U32) && PowerOfTwo(TWO31)
  {
    assert PowerOfTwo(2) && PowerOfTwo(4) && PowerOfTwo(8);
    ProductOfPowers(8, 8);
    ProductOfPowers(64, 4);
    ProductOfPowers(256, 256);
    ProductOfPowers(65536, 256);
    ProductOfPowers(0x100_0000, 64);
    ProductOfPowers(0x4000_0000, 2);
    ProductOfPowers(0x8000_0000, 2);
    ProductOfPowers(U32, U32);
  }

  /** What `(uint32_t)(tail - head)` and `index & mask` compute on 64-bit counters that have
      wrapped: the true distance and the true slot, while the distance fits the ring. */
  lemma WrappedSlot(i: nat, cap: nat)
    requires PowerOfTwo(cap) && cap <= TWO31
    ensures i % U64 % cap == i % cap
  {
    CounterSize();
    SmallerPowerDivides(cap, U64);
    QuotientForm(U64, cap);
    ModOfMod(i, U64, U64 / cap, cap);
  }

  lemma WrappedDistance(head: nat, tail: nat)
    requires head <= tail < head + U32
    ensures (tail % U64 - head % U64) % U64 % U32 == tail - head
  {
    var d, t := tail - head, tail % U64 - head % U64;
    QuotientForm(tail, U64);
    QuotientForm(head, U64);
    assert t == d || t == d - U64;
  }

  lemma WrappedAdvance(x: nat, n: nat)
    requires n < U64
    ensures (x % U64 + n) % U64 == (x + n) % U64
  {
    QuotientForm(x, U64);
    var r := x % U64 + n;
    if r < U64 {
      RemainderIs(x + n, x / U64, U64, r);
    } else {
      RemainderIs(x + n, x / U64 + 1, U64, r - U64);
    }
  }
}

/** The per-stream byte ring (stream_buf.h): one producer, one consumer, two 64-bit counters
    masked into a power-of-two buffer, a FIN flag and two FNV-1a accumulators. */
module ByteRing {
  import opened Circular
  import opened Events
  import opened Modulo

  // ---- FNV-1a --------------------------------------------------------------------------------

  const FNV_INIT: bv32 := 0x811c9dc5
  const FNV_PRIME: bv32 := 0x01000193

  function FnvByte(h: bv32, b: Byte): bv32 { (h ^ (b as bv32)) * FNV_PRIME }

  function Fnv(h: bv32, s: seq<Byte>): bv32
    decreases |s|
  {
    if s == [] then h else Fnv(FnvByte(h, s[0]), s[1..])
  }

  /** Hashing is insensitive to how a byte string was cut. */
  lemma {:induction false} FnvSplit(h: bv32, a: seq<Byte>, b: seq<Byte>)
    ensures Fnv(h, a + b) == Fnv(Fnv(h, a), b)
    decreases |a|
  {
    if a == [] {
      assert a + b == b;
    } else {
      assert (a + b)[1..] == a[1..] + b;
      FnvSplit(FnvByte(h, a[0]), a[1..], b);
    }
  }

  /** aiopquic_fnv1a_step. */
  method FnvStep(h: bv32, p: seq<Byte>) returns (r: bv32)
    ensures r == Fnv(h, p)
  {
    r := h;
    for i := 0 to |p|
      invariant r == Fnv(h, p[..i])
    {
      assert p[..i + 1] == p[..i] + [p[i]];
      FnvSplit(h, p[..i], [p[i]]);
      r := FnvByte(r, p[i]);
    }
    assert p[..|p|] == p;
  }

  // ---- capacity ------------------------------------------------------------------------------

  /** 32 - __builtin_clz(n). */
  function BitLength(n: nat): nat { if n == 0 then 0 else 1 + BitLength(n / 2) }

  /** aiopquic_ceil_pow2_u32. `n & (n - 1) == 0` on a non-zero n is PowerOfTwo(n). */
  function CeilPow2(n: nat): nat
    requires n < U32
  {
    if n == 0 then 1
    else if PowerOfTwo(n) then n
    else if n >= TWO31 then TWO31          // 32 - clz(n) >= 32
    else Shift(1, BitLength(n))
  }

  function Shift(n: nat, k: nat): nat { if k == 0 then n else 2 * Shift(n, k - 1) }

  lemma {:induction false} BitLengthBounds(n: nat)
    requires n > 0
    ensures PowerOfTwo(Shift(1, BitLength(n)))
    ensures n < Shift(1, BitLength(n)) <= 2 * n
  {
    if n > 1 {
      BitLengthBounds(n / 2);
      DoubledIsPower(Shift(1, BitLength(n / 2)));
    } else {
      assert Shift(1, 1) == 2;
    }
  }

  lemma CeilPow2BelowTop(n: nat)
    requires 0 < n < TWO31 && !PowerOfTwo(n)
    ensures n < CeilPow2(n) <= TWO31 && PowerOfTwo(CeilPow2(n))
    ensures forall p: nat :: PowerOfTwo(p) && n <= p ==> CeilPow2(n) <= p
  {
    BitLengthBounds(n);
    CounterSize();
    var top := Shift(1, BitLength(n));
    if top > TWO31 { PowersApart(TWO31, top); }
    forall p: nat | PowerOfTwo(p) && n <= p ensures top <= p {
      if p < top { PowersApart(p, top); }
    }
  }

  /** The smallest power of two that holds n, capped at 1 << 31. */
  lemma CeilPow2IsLeast(n: nat)
    requires n < U32
    ensures PowerOfTwo(CeilPow2(n)) && CeilPow2(n) <= TWO31
    ensures n <= TWO31 ==> n <= CeilPow2(n)
    ensures n > TWO31 ==> CeilPow2(n) == TWO31
    ensures forall p: nat :: PowerOfTwo(p) && n <= p ==> CeilPow2(n) <= p
  {
    CounterSize();
    if PowerOfTwo(n) {
      if n > TWO31 { PowersApart(TWO31, n); }
    } else if 0 < n < TWO31 {
      CeilPow2BelowTop(n);
    }
  }

  // ---- the ring ------------------------------------------------------------------------------

  class ByteRing {
    const buf: array<Byte>
    const cap: nat                  // power of two
    const hashEnabled: bool
    var head: nat                   // 64-bit counters as stored, wrap included
    var tail: nat
    var fin: bool
    var pushHash: bv32
    var popHash: bv32
    ghost var pushed: seq<Byte>     // every byte ever accepted
    ghost var popped: nat           // how many of them were handed out

    ghost predicate Valid()
      reads this, buf
    {
      && buf.Length == cap && PowerOfTwo(cap) && cap <= TWO31
      && popped <= |pushed| <= popped + cap
      && head == popped % U64 && tail == |pushed| % U64
      && Holds(buf[..], pushed, popped, |pushed|)
      && pushHash == HashOf(pushed) && popHash == HashOf(pushed[..popped])
    }

    ghost function HashOf(s: seq<Byte>): bv32 {
      if hashEnabled then Fnv(FNV_INIT, s) else FNV_INIT
    }

    /** The accumulator step of a push or pop; a no-op unless hashing is on. */
    method Hashed(h: bv32, ghost done: seq<Byte>, more: seq<Byte>) returns (r: bv32)
      requires h == HashOf(done)
      ensures r == HashOf(done + more)
    {
      r := h;
      if hashEnabled {
        FnvSplit(FNV_INIT, done, more);
        r := FnvStep(h, more);
      }
    }

    /** The bytes pushed and not yet popped. */
    ghost function Queue(): seq<Byte>
      requires popped <= |pushed|
      reads this
    {
      pushed[popped..]
    }

    /** aiopquic_stream_buf_create. */
    constructor (capacity: nat, hash: bool)
      requires capacity < U32
      ensures Valid() && fresh(buf) && pushed == [] && popped == 0 && !fin
      ensures cap == CeilPow2(capacity) && hashEnabled == hash
    {
      CeilPow2IsLeast(capacity);
      var c := CeilPow2(capacity);
      cap := c;
      buf := new Byte[c];
      hashEnabled := hash;
      head, tail, fin := 0, 0, false;
      pushHash, popHash := FNV_INIT, FNV_INIT;
      pushed, popped := [], 0;
    }

    /** aiopquic_stream_buf_used: both counters may have wrapped; the distance is exact. */
    method Used() returns (n: nat)
      requires Valid()
      ensures n == |Queue()|
    {
      WrappedDistance(popped, |pushed|);
      n := (tail - head) % U64 % U32;
    }

    /** aiopquic_stream_buf_push: accepts what fits, in order, after what is queued. */
    method Push(data: seq<Byte>) returns (n: nat)
      requires Valid()
      modifies this`tail, this`pushHash, this`pushed, buf
      ensures Valid()
      ensures n == if |data| < cap - |old(Queue())| then |data| else cap - |old(Queue())|
      ensures pushed == old(pushed) + data[..n]
    {
      var used := Used();
      var free := cap - used;
      n := 0;
      if free == 0 {
        assert pushed + data[..0] == pushed;
        return;
      }
      n := if |data| < free then |data| else free;
      Append(data[..n]);
    }

    /** The copy, the hash and the published tail of a push that fits. */
    method Append(src: seq<Byte>)
      requires Valid() && |Queue()| + |src| <= cap
      modifies this`tail, this`pushHash, this`pushed, buf
      ensures Valid() && pushed == old(pushed) + src
    {
      RingWrite(buf, tail, src, pushed, popped);
      pushHash := Hashed(pushHash, pushed, src);
      WrappedAdvance(|pushed|, |src|);
      tail := (tail + |src|) % U64;
      assert (pushed + src)[..popped] == pushed[..popped];
      pushed := pushed + src;
    }

    /** aiopquic_stream_buf_pop: the oldest bytes, in order, at most max. */
    method Pop(max: nat) returns (out: seq<Byte>)
      requires Valid()
      modifies this`head, this`popHash, this`popped
      ensures Valid()
      ensures |out| == if max < |old(Queue())| then max else |old(Queue())|
      ensures out + Queue() == old(Queue())
    {
      var avail := Used();
      if avail == 0 {
        return [];
      }
      out := Take(if max < avail then max else avail);
    }

    /** The copy, the hash and the published head of a pop of n queued bytes. */
    method Take(n: nat) returns (out: seq<Byte>)
      requires Valid() && n <= |Queue()|
      modifies this`head, this`popHash, this`popped
      ensures Valid() && popped == old(popped) + n
      ensures out == pushed[old(popped)..popped]
    {
      out := RingRead(buf, head, n, pushed, popped);
      var h := HashedOut(out);
      WrappedAdvance(popped, n);
      head, popped, popHash := (head + n) % U64, popped + n, h;
    }

    /** The pop accumulator once the next bytes are hashed. */
    method HashedOut(out: seq<Byte>) returns (h: bv32)
      requires popped + |out| <= |pushed| && out == pushed[popped..popped + |out|]
      requires popHash == HashOf(pushed[..popped])
      ensures h == HashOf(pushed[..popped + |out|])
    {
      ghost var done := pushed[..popped];
      assert pushed[..popped + |out|] == done + out;
      h := Hashed(popHash, done, out);
    }

    /** By design the two hashes agree once both sides have processed the same bytes, however
        the pushes and the pops were cut. */
    lemma HashesAgree()
      requires Valid() && Queue() == []
      ensures pushHash == popHash
    {
      assert pushed[..popped] == pushed;
    }
  }
}

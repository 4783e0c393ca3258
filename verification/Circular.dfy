/** Copying in and out of a circular buffer with at most two memcpys (stream_buf.h push/pop,
    datagram_buf.h ring_write/ring_read). A logical position p lives in slot p % cap. */
module Circular {
  import opened Events
  import opened Modulo

  /** How far slot j lies behind slot `off`, walking up and around. */
  function Distance(j: nat, off: nat, cap: nat): int {
    if j >= off then j - off else j + cap - off
  }

  lemma SlotDistance(i: nat, at: nat, cap: nat)
    requires cap > 0 && at <= i < at + cap
    ensures Distance(i % cap, at % cap, cap) == i - at
  {
    QuotientForm(at, cap);
    var off := at % cap + (i - at);
    if off < cap {
      RemainderIs(i, at / cap, cap, off);
    } else {
      assert (at / cap + 1) * cap == (at / cap) * cap + cap;
      RemainderIs(i, at / cap + 1, cap, off - cap);
    }
  }

  lemma SameSlot(i: nat, cap: nat)
    requires cap > 0
    ensures (i + cap) % cap == i % cap
  {
    QuotientForm(i, cap);
    assert (i / cap + 1) * cap == (i / cap) * cap + cap;
    RemainderIs(i + cap, i / cap + 1, cap, i % cap);
  }

  /** Slots [lo, hi) of the circular buffer hold the bytes of `log` at those positions. */
  ghost predicate Holds(buf: seq<Byte>, log: seq<Byte>, lo: nat, hi: nat)
    requires |buf| > 0 && hi <= |log|
  {
    forall i :: lo <= i < hi ==> buf[i % |buf|] == log[i]
  }

  /** Two memcpys: src goes to slots off, off + 1, ... around the end. */
  method WriteAt(buf: array<Byte>, off: nat, src: seq<Byte>)
    requires off < buf.Length && |src| <= buf.Length
    modifies buf
    ensures forall j :: 0 <= j < buf.Length ==>
              buf[j] == var d := Distance(j, off, buf.Length);
                        if d < |src| then src[d] else old(buf[j])
  {
    var first := if buf.Length - off > |src| then |src| else buf.Length - off;
    forall i | 0 <= i < first { buf[off + i] := src[i]; }
    forall i | 0 <= i < |src| - first { buf[i] := src[first + i]; }
  }

  /** Writing behind the queued bytes extends what the buffer holds. */
  lemma WriteExtends(before: seq<Byte>, after: seq<Byte>, log: seq<Byte>, lo: nat, src: seq<Byte>)
    requires |before| > 0 && |after| == |before|
    requires lo <= |log| && |log| + |src| <= lo + |before|
    requires Holds(before, log, lo, |log|)
    requires forall j :: 0 <= j < |after| ==>
               after[j] == var d := Distance(j, |log| % |before|, |before|);
                           if d < |src| then src[d] else before[j]
    ensures Holds(after, log + src, lo, |log| + |src|)
  {
    var cap, at := |before|, |log|;
    forall i | lo <= i < at + |src| ensures after[i % cap] == (log + src)[i] {
      if i < at {
        SameSlot(i, cap);
        SlotDistance(i + cap, at, cap);
      } else {
        SlotDistance(i, at, cap);
      }
    }
  }

  /** Two memcpys out: the n bytes from slot off on, around the end. */
  method ReadAt(buf: array<Byte>, off: nat, n: nat) returns (out: seq<Byte>)
    requires off < buf.Length && n <= buf.Length
    ensures |out| == n
    ensures forall j :: 0 <= j < buf.Length ==>
              var d := Distance(j, off, buf.Length); d < n ==> out[d] == buf[j]
  {
    var first := if buf.Length - off > n then n else buf.Length - off;
    out := buf[off..off + first];
    if first < n {
      out := out + buf[..n - first];
    }
  }

  lemma ReadReturns(buf: seq<Byte>, log: seq<Byte>, at: nat, out: seq<Byte>)
    requires |buf| > 0 && at + |out| <= |log| && |out| <= |buf|
    requires Holds(buf, log, at, at + |out|)
    requires forall j :: 0 <= j < |buf| ==>
               var d := Distance(j, at % |buf|, |buf|); d < |out| ==> out[d] == buf[j]
    ensures out == log[at..at + |out|]
  {
    forall k | 0 <= k < |out| ensures out[k] == log[at..at + |out|][k] {
      SlotDistance(at + k, at, |buf|);
      assert buf[(at + k) % |buf|] == log[at + k];
    }
  }

  /** aiopquic_dgram_ring_write at a wrapped 64-bit position: appends src to what the buffer
      holds from lo on. */
  method RingWrite(buf: array<Byte>, pos: nat, src: seq<Byte>, ghost log: seq<Byte>, ghost lo: nat)
    requires PowerOfTwo(buf.Length) && buf.Length <= TWO31 && pos == |log| % U64
    requires lo <= |log| && |log| + |src| <= lo + buf.Length
    requires Holds(buf[..], log, lo, |log|)
    modifies buf
    ensures Holds(buf[..], log + src, lo, |log| + |src|)
  {
    ghost var before := buf[..];
    WrappedSlot(|log|, buf.Length);
    WriteAt(buf, pos % buf.Length, src);
    WriteExtends(before, buf[..], log, lo, src);
  }

  /** aiopquic_dgram_ring_read at a wrapped 64-bit position. */
  method RingRead(buf: array<Byte>, pos: nat, n: nat, ghost log: seq<Byte>, ghost at: nat)
    returns (out: seq<Byte>)
    requires PowerOfTwo(buf.Length) && buf.Length <= TWO31 && pos == at % U64
    requires at + n <= |log| && n <= buf.Length && Holds(buf[..], log, at, at + n)
    ensures out == log[at..at + n]
  {
    WrappedSlot(at, buf.Length);
    out := ReadAt(buf, pos % buf.Length, n);
    ReadReturns(buf[..], log, at, out);
  }
}

/** The datagram TX record ring (datagram_buf.h): whole records, each a 32-bit little-endian
    length and its payload, in a circular byte buffer with 64-bit counters. */
module RecordRing {
  import opened ByteRing
  import opened Circular
  import opened Events
  import opened Modulo

  const HDR: nat := 4

  function Header(n: nat): seq<Byte> {
    [Low(n), Low(n / 0x100), Low(n / 0x1_0000), Low(n / 0x100_0000)]
  }

  function Low(n: nat): Byte { n % 256 }

  /** The header read back: the four shifted bytes or'ed together. */
  function Length(h: seq<Byte>): nat
    requires |h| == HDR
  {
    (h[0] as nat) + (h[1] as nat) * 0x100 + (h[2] as nat) * 0x1_0000 + (h[3] as nat) * 0x100_0000
  }

  lemma LengthOfHeader(n: nat)
    requires n < U32
    ensures Length(Header(n)) == n
  {
    var a, b, c := n / 0x100, n / 0x1_0000, n / 0x100_0000;
    assert b == a / 0x100 && c == b / 0x100;
    assert n == 0x100 * a + n % 0x100 && a == 0x100 * b + a % 0x100 && b == 0x100 * c + b % 0x100;
  }

  function Record(r: seq<Byte>): seq<Byte> { Header(|r|) + r }

  /** The byte stream of a list of records. */
  function Encode(rs: seq<seq<Byte>>): seq<Byte>
    decreases |rs|
  {
    if rs == [] then [] else Encode(rs[..|rs| - 1]) + Record(rs[|rs| - 1])
  }

  lemma EncodeSnoc(rs: seq<seq<Byte>>, r: seq<Byte>)
    ensures Encode(rs + [r]) == Encode(rs) + Record(r)
  {
    assert (rs + [r])[..|rs|] == rs;
  }

  lemma {:induction false} EncodePrefix(rs: seq<seq<Byte>>, k: nat)
    requires k <= |rs|
    ensures Encode(rs[..k]) <= Encode(rs)
    decreases |rs|
  {
    if k < |rs| {
      var front := rs[..|rs| - 1];
      assert front[..k] == rs[..k];
      EncodePrefix(front, k);
    } else {
      assert rs[..k] == rs;
    }
  }

  lemma Cut(log: seq<Byte>, front: seq<Byte>, hdr: seq<Byte>, body: seq<Byte>)
    requires front + (hdr + body) <= log
    ensures |front| + |hdr| + |body| <= |log|
    ensures log[|front|..|front| + |hdr|] == hdr
    ensures log[|front| + |hdr|..|front| + |hdr| + |body|] == body
  {
    var n := |front| + |hdr|;
    assert log[..n + |body|] == front + (hdr + body);
    assert log[|front|..n] == log[..n + |body|][|front|..n];
    assert log[n..n + |body|] == log[..n + |body|][n..];
  }

  /** Record k sits behind the first k records, header first. */
  lemma EncodeAt(rs: seq<seq<Byte>>, k: nat)
    requires k < |rs|
    ensures Encode(rs[..k + 1]) == Encode(rs[..k]) + Record(rs[k])
    ensures |Encode(rs[..k])| + HDR + |rs[k]| <= |Encode(rs)|
    ensures var at := |Encode(rs[..k])|;
            && Encode(rs)[at..at + HDR] == Header(|rs[k]|)
            && Encode(rs)[at + HDR..at + HDR + |rs[k]|] == rs[k]
  {
    assert rs[..k + 1][..k] == rs[..k];
    EncodePrefix(rs, k + 1);
    Cut(Encode(rs), Encode(rs[..k]), Header(|rs[k]|), rs[k]);
  }

  /** The position `lo` of the record boundary in front of record `gone`. */
  ghost predicate Boundary(rs: seq<seq<Byte>>, gone: nat, log: seq<Byte>, lo: nat) {
    gone <= |rs| && log == Encode(rs) && lo == |Encode(rs[..gone])|
  }

  /** At a boundary the log ends, or a whole record with its header follows. */
  lemma AtBoundary(rs: seq<seq<Byte>>, gone: nat, log: seq<Byte>, lo: nat)
    requires Boundary(rs, gone, log, lo)
    ensures lo <= |log|
    ensures gone == |rs| ==> lo == |log|
    ensures gone < |rs| ==>
              && lo + HDR + |rs[gone]| <= |log|
              && log[lo..lo + HDR] == Header(|rs[gone]|)
              && log[lo + HDR..lo + HDR + |rs[gone]|] == rs[gone]
              && Boundary(rs, gone + 1, log, lo + HDR + |rs[gone]|)
  {
    if gone < |rs| {
      EncodeAt(rs, gone);
    } else {
      assert rs[..gone] == rs;
    }
  }

  lemma PayloadAtBoundary(rs: seq<seq<Byte>>, gone: nat, log: seq<Byte>, lo: nat)
    requires Boundary(rs, gone, log, lo) && gone < |rs|
    ensures var end := lo + HDR + |rs[gone]|;
            end <= |log| && log[lo + HDR..end] == rs[gone] && Boundary(rs, gone + 1, log, end)
  {
    AtBoundary(rs, gone, log, lo);
  }

  lemma NoBytesWithoutRecords(rs: seq<seq<Byte>>, gone: nat, log: seq<Byte>, lo: nat)
    requires Boundary(rs, gone, log, lo)
    ensures rs[gone..] == [] <==> lo == |log|
  {
    AtBoundary(rs, gone, log, lo);
  }

  lemma BoundaryKept(rs: seq<seq<Byte>>, gone: nat, log: seq<Byte>, lo: nat, r: seq<Byte>)
    requires Boundary(rs, gone, log, lo)
    ensures Boundary(rs + [r], gone, log + Header(|r|) + r, lo)
  {
    EncodeSnoc(rs, r);
    assert (rs + [r])[..gone] == rs[..gone];
    assert log + Record(r) == log + Header(|r|) + r;
  }

  /** Twice a record with its header, in the 32 bits the source computes it in. */
  function TwoRecords(maxRecord: nat): nat { 2 * ((HDR + maxRecord) % U32) % U32 }

  /** The capacity aiopquic_dgram_buf_create settles on. */
  function Capacity(capacity: nat, maxRecord: nat): nat
    requires capacity < U32 && maxRecord < U32
  {
    var c := CeilPow2(capacity);
    if c < TwoRecords(maxRecord) then CeilPow2(TwoRecords(maxRecord)) else c
  }

  /** When an empty ring has room for the largest record: below 2^31 bytes with its header, or at
      2^31 if that much was asked for. Above, the 32-bit doubling wraps and the ring stays small. */
  predicate HoldsARecord(capacity: nat, maxRecord: nat)
    requires capacity < U32
  {
    HDR + maxRecord < TWO31 || (HDR + maxRecord == TWO31 && CeilPow2(capacity) == TWO31)
  }

  lemma CapacityIsPower(capacity: nat, maxRecord: nat)
    requires capacity < U32 && maxRecord < U32
    ensures PowerOfTwo(Capacity(capacity, maxRecord)) && Capacity(capacity, maxRecord) <= TWO31
    ensures TwoRecords(maxRecord) <= TWO31 ==> TwoRecords(maxRecord) <= Capacity(capacity, maxRecord)
    ensures TwoRecords(maxRecord) > TWO31 ==> Capacity(capacity, maxRecord) == TWO31
    ensures TwoRecords(maxRecord) == 0 ==> Capacity(capacity, maxRecord) == CeilPow2(capacity)
  {
    CeilPow2IsLeast(capacity);
    CeilPow2IsLeast(TwoRecords(maxRecord));
  }

  lemma TwoRecordsWrap(maxRecord: nat)
    requires maxRecord < U32
    ensures HDR + maxRecord < TWO31 ==> TwoRecords(maxRecord) == 2 * (HDR + maxRecord)
    ensures HDR + maxRecord == TWO31 ==> TwoRecords(maxRecord) == 0
  {
  }

  lemma CapacityHoldsARecord(capacity: nat, maxRecord: nat)
    requires capacity < U32 && maxRecord < U32
    ensures HDR + maxRecord <= Capacity(capacity, maxRecord) <==> HoldsARecord(capacity, maxRecord)
    ensures 2 * (HDR + maxRecord) <= Capacity(capacity, maxRecord) <==> 2 * (HDR + maxRecord) <= TWO31
  {
    CapacityIsPower(capacity, maxRecord);
    TwoRecordsWrap(maxRecord);
  }

  /** The room test of a push, as the source computes it in 32 bits. */
  predicate SaysFits(free: nat, len: nat) { free >= (HDR + len) % U32 }

  /** A length whose 32-bit sum with the header wraps to something that fits: the source would go
      on to copy more than the buffer holds. */
  predicate Misfit(free: nat, len: nat) { HDR + len >= U32 && HDR + len - U32 <= free }

  lemma SaysFitsIff(free: nat, len: nat)
    requires free <= TWO31 && len < U32
    ensures SaysFits(free, len) <==> HDR + len <= free || Misfit(free, len)
  {
  }

  /** The test errs on some record a ring admits exactly if its maximum, with the header, reaches
      2^32: any such ring, whatever its capacity, can be filled up to the error. */
  lemma MisfitIff(cap: nat, maxRecord: nat)
    requires cap <= TWO31 && maxRecord < U32
    ensures (exists free: nat, len: nat :: free <= cap && len <= maxRecord && SaysFits(free, len) && HDR + len > free)
       <==> HDR + maxRecord >= U32
  {
    if HDR + maxRecord >= U32 {
      var len: nat := U32 - HDR;
      assert SaysFits(0, len) && HDR + len > 0;
    } else {
      forall free: nat, len: nat | free <= cap && len <= maxRecord && SaysFits(free, len) ensures HDR + len <= free {
        SaysFitsIff(free, len);
      }
    }
  }

  /** What a reader learns from aiopquic_dgram_buf_peek_len. */
  function Peeked(queue: seq<seq<Byte>>): nat {
    if queue == [] then 0 else |queue[0]|
  }

  /** "0 means empty" holds all the way through a queue exactly if it has no empty record. */
  lemma PeekTellsEmpty(queue: seq<seq<Byte>>)
    ensures (forall k: nat :: k <= |queue| ==> (Peeked(queue[k..]) == 0 <==> queue[k..] == []))
       <==> [] !in queue
  {
    if k: nat :| k < |queue| && queue[k] == [] {
      assert queue[k..] != [] && Peeked(queue[k..]) == 0;
    }
  }

  class RecordRing {
    const buf: array<Byte>
    const cap: nat
    const maxRecord: nat
    var head: nat
    var tail: nat
    var drainPending: bool
    ghost var records: seq<seq<Byte>>   // every record ever accepted
    ghost var gone: nat                 // how many of them were popped
    ghost var log: seq<Byte>            // their encoding
    ghost var lo: nat                   // the boundary in front of record `gone`

    ghost predicate Valid()
      reads this, buf
    {
      Stored() && Boundary(records, gone, log, lo) && forall r :: r in records ==> |r| <= maxRecord
    }

    /** The buffer holds log[lo..]. */
    ghost predicate Stored()
      reads this, buf
    {
      && buf.Length == cap && PowerOfTwo(cap) && cap <= TWO31 && maxRecord < U32
      && lo <= |log| <= lo + cap
      && head == lo % U64 && tail == |log| % U64
      && Holds(buf[..], log, lo, |log|)
    }

    /** The records accepted and not yet popped. */
    ghost function Queue(): seq<seq<Byte>>
      requires gone <= |records|
      reads this
    {
      records[gone..]
    }

    /** The bytes a record may still take. */
    ghost function Free(): nat
      requires Stored()
      reads this, buf
    {
      cap - (|log| - lo)
    }

    constructor (capacity: nat, max: nat)
      requires capacity < U32 && max < U32
      ensures Valid() && fresh(buf) && records == [] && gone == 0 && !drainPending
      ensures cap == Capacity(capacity, max) && maxRecord == max
      ensures HDR + maxRecord <= cap <==> HoldsARecord(capacity, max)
    {
      CapacityIsPower(capacity, max);
      CapacityHoldsARecord(capacity, max);
      var c := Capacity(capacity, max);
      buf := new Byte[c];
      cap, maxRecord, head, tail, drainPending := c, max, 0, 0, false;
      records, gone, log, lo := [], 0, [], 0;
    }

    /** aiopquic_dgram_buf_used. */
    method Used() returns (n: nat)
      requires Stored()
      ensures n == |log| - lo
    {
      WrappedDistance(lo, |log|);
      n := (tail - head) % U64 % U32;
    }

    /** aiopquic_dgram_buf_push_record: 1 the record is queued whole, 0 the ring is full and the
        drain signal is armed, -1 the record can never fit. A refusal queues nothing. Nobody pops
        during this call; the re-check behind the arm is proved in DatagramSend. */
    method PushRecord(data: seq<Byte>) returns (rc: int)
      requires Valid() && |data| < U32 && !(|data| <= maxRecord && Misfit(Free(), |data|))
      modifies this`tail, this`drainPending, this`records, this`log, buf
      ensures Valid()
      ensures rc == -1 <==> |data| > maxRecord
      ensures rc == 1 <==> |data| <= maxRecord && old(|log|) - lo + HDR + |data| <= cap
      ensures old(Queue()) == [] ==> (rc == 1 <==> |data| <= maxRecord && HDR + |data| <= cap)
      ensures records == if rc == 1 then old(records) + [data] else old(records)
      ensures rc != 1 ==> tail == old(tail) && buf[..] == old(buf[..])
      ensures drainPending == (old(drainPending) || rc == 0)
      ensures rc == 1 || rc == 0 || rc == -1
    {
      if |data| > maxRecord {
        return -1;
      }
      NoBytesWithoutRecords(records, gone, log, lo);
      var room := Fits(|data|);
      if !room {
        drainPending := true;
        return 0;
      }
      Append(data);
      rc := 1;
    }

    /** The free bytes against a record of len bytes, in 32 bits. */
    method Fits(len: nat) returns (room: bool)
      requires Stored() && len < U32
      ensures room <==> HDR + len <= Free() || Misfit(Free(), len)
    {
      var used := Used();
      SaysFitsIff(Free(), len);
      room := cap - used >= (HDR + len) % U32;
    }

    method Append(data: seq<Byte>)
      requires Valid() && |data| <= maxRecord && |log| - lo + HDR + |data| <= cap
      modifies this`tail, this`records, this`log, buf
      ensures Valid() && records == old(records) + [data]
    {
      BoundaryKept(records, gone, log, lo, data);
      Write(Header(|data|));
      Write(data);
      records := records + [data];
    }

    /** Two aiopquic_dgram_ring_write calls make a record; the tail is published after both. */
    method Write(src: seq<Byte>)
      requires Stored() && |log| + |src| <= lo + cap
      modifies this`tail, this`log, buf
      ensures Stored() && log == old(log) + src
    {
      RingWrite(buf, tail, src, log, lo);
      WrappedAdvance(|log|, |src|);
      tail, log := (tail + |src|) % U64, log + src;
    }

    /** aiopquic_dgram_buf_peek_len: the length of the oldest record, 0 on an empty ring. */
    method PeekLen() returns (n: nat)
      requires Valid()
      ensures n == Peeked(Queue())
    {
      AtBoundary(records, gone, log, lo);
      var used := Used();
      if used < HDR {
        return 0;
      }
      var hdr := RingRead(buf, head, HDR, log, lo);
      LengthOfHeader(|records[gone]|);
      n := Length(hdr);
    }

    /** aiopquic_dgram_buf_pop_into, after a peek that returned len. */
    method PopInto(len: nat) returns (out: seq<Byte>)
      requires Valid() && gone < |records| && len == |records[gone]|
      modifies this`head, this`gone, this`lo
      ensures Valid() && gone == old(gone) + 1
      ensures out == records[old(gone)]
    {
      PayloadAtBoundary(records, gone, log, lo);
      out := Take(len);
      gone := gone + 1;
    }

    method Take(len: nat) returns (out: seq<Byte>)
      requires Stored() && lo + HDR + len <= |log|
      modifies this`head, this`lo
      ensures Stored() && lo == old(lo) + HDR + len
      ensures out == log[old(lo) + HDR..lo]
    {
      WrappedAdvance(lo, HDR);
      out := RingRead(buf, (head + HDR) % U64, len, log, lo + HDR);
      WrappedAdvance(lo, HDR + len);
      head, lo := (head + HDR + len) % U64, lo + HDR + len;
    }
  }

  /** aiopquic_dgram_buf_create: no ring for a maximum of 0. */
  method Create(capacity: nat, max: nat) returns (db: RecordRing?)
    requires capacity < U32 && max < U32
    ensures db == null <==> max == 0
    ensures db != null ==>
              && fresh(db) && fresh(db.buf) && db.Valid() && db.Queue() == [] && !db.drainPending
              && db.cap == Capacity(capacity, max) && db.maxRecord == max
  {
    if max == 0 {
      return null;
    }
    db := new RecordRing(capacity, max);
  }
}

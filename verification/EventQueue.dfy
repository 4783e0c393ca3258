/** The event ring and its overflow as data structures (spsc_ring.h): slots written in place,
    payloads copied in and freed or taken out, a refill loop, and a byte count. RxChannel
    interleaves the same operations step by step; here each one is a whole call. */
module EventQueue {
  import opened Events
  import opened Modulo

  /** The bytes of the owned payloads. */
  function OwnedBytes(es: seq<Entry>): nat {
    if es == [] then 0 else OwnedBytes(es[..|es| - 1]) + |es[|es| - 1].payload|
  }

  lemma OwnedSnoc(es: seq<Entry>, e: Entry)
    ensures OwnedBytes(es + [e]) == OwnedBytes(es) + |e.payload|
  {
    assert (es + [e])[..|es|] == es;
  }

  lemma {:induction false} OwnedHead(es: seq<Entry>)
    requires es != []
    ensures OwnedBytes(es) == |es[0].payload| + OwnedBytes(es[1..])
    decreases |es|
  {
    var n := |es| - 1;
    if n > 0 {
      assert es[..n][1..] == es[1..][..n - 1] && es[1..][n - 1] == es[n];
      OwnedHead(es[..n]);
    }
  }

  /** The slots of [head, head + |ring|) hold the ring's entries. */
  ghost predicate Stored(slots: seq<Entry>, head: nat, ring: seq<Entry>) {
    && 0 < |slots| && |ring| <= |slots|
    && forall i :: 0 <= i < |ring| ==> slots[(head + i) % |slots|] == ring[i]
  }

  lemma StoreBehind(before: seq<Entry>, head: nat, ring: seq<Entry>, e: Entry)
    requires Stored(before, head, ring) && |ring| < |before|
    ensures Stored(before[(head + |ring|) % |before| := e], head, ring + [e])
  {
    FreeSlot(head, head + |ring|, |before|);
  }

  lemma ReplaceHead(before: seq<Entry>, head: nat, ring: seq<Entry>, e: Entry)
    requires Stored(before, head, ring) && ring != []
    ensures Stored(before[head % |before| := e], head, ring[0 := e])
  {
    forall i | 0 < i < |ring| ensures before[head % |before| := e][(head + i) % |before|] == ring[i] {
      DistinctSlots(head, head + i, |before|);
    }
  }

  lemma DropHead(slots: seq<Entry>, head: nat, ring: seq<Entry>)
    requires Stored(slots, head, ring) && ring != []
    ensures Stored(slots, head + 1, ring[1..])
  {
    forall i | 0 <= i < |ring| - 1 ensures slots[(head + 1 + i) % |slots|] == ring[1..][i] {
      assert head + 1 + i == head + (i + 1);
    }
  }

  /** Overflow nodes and what a refill makes of them. */
  predicate Normal(e: Entry) { e.dataLength == |e.payload| }

  class EventQueue {
    const slots: array<Entry>
    const cap: nat
    var head: nat
    var tail: nat
    var bytesPending: int
    var overflow: seq<Entry>          // the linked nodes
    var depth: nat
    ghost var ring: seq<Entry>
    ghost var taken: nat              // bytes handed out by TakeData

    ghost predicate Valid()
      reads this, slots
    {
      && slots.Length == cap && tail == head + |ring|
      && Stored(slots[..], head, ring)
      && bytesPending == OwnedBytes(ring) + taken
      && depth == |overflow| && forall e :: e in overflow ==> Normal(e)
    }

    /** Everything pushed and not yet popped. */
    ghost function Queue(): seq<Entry>
      reads this
    {
      ring + overflow
    }

    constructor (capacity: nat, blank: Entry)
      requires 0 < capacity
      ensures Valid() && fresh(slots) && cap == capacity && Queue() == [] && taken == 0
    {
      slots := new Entry[capacity](_ => blank);
      cap, head, tail, bytesPending, overflow, depth := capacity, 0, 0, 0, [], 0;
      ring, taken := [], 0;
    }

    /** Writes the slot at the tail and publishes it, as both ring pushes and the refill do. */
    method Publish(e: Entry)
      requires Valid() && |ring| < cap
      modifies this`tail, this`bytesPending, this`ring, slots
      ensures Valid() && ring == old(ring) + [e]
    {
      StoreBehind(slots[..], head, ring, e);
      OwnedSnoc(ring, e);
      slots[tail % cap] := e;
      bytesPending := bytesPending + |e.payload|;
      tail, ring := tail + 1, ring + [e];
    }

    /** spsc_ring_push_or_overflow: the ring only while nothing overflowed. True: pushed to the
        ring. */
    method Push(e: Entry) returns (inRing: bool)
      requires Valid()
      modifies this, slots
      ensures Valid() && taken == old(taken) && head == old(head)
      ensures inRing <==> old(overflow) == [] && |old(ring)| < cap
      ensures inRing ==> ring == old(ring) + [RingForm(e)] && overflow == []
      ensures !inRing ==> ring == old(ring) && overflow == old(overflow) + [OverflowForm(e)]
      ensures Queue() == old(Queue()) + [if inRing then RingForm(e) else OverflowForm(e)]
    {
      if depth == 0 && tail - head < cap {
        Publish(RingForm(e));
        return true;
      }
      overflow, depth := overflow + [OverflowForm(e)], depth + 1;
      inRing := false;
    }

    /** spsc_ring_peek. */
    method Peek() returns (present: bool, e: Entry)
      requires Valid()
      ensures present <==> ring != []
      ensures present ==> e == Queue()[0]
    {
      e := slots[head % cap];
      present := head < tail;
    }

    /** spsc_ring_take_data on the peeked entry: the caller owns the payload, the entry loses it,
        and the byte count keeps it. */
    method TakeData() returns (data: seq<Byte>)
      requires Valid() && ring != []
      modifies slots, this`ring, this`taken
      ensures Valid() && data == old(ring[0]).payload && taken == old(taken) + |data|
      ensures ring == old(ring)[0 := old(ring[0]).(payload := [], dataLength := 0)]
    {
      var bare := slots[head % cap].(payload := [], dataLength := 0);
      data := slots[head % cap].payload;
      ReplaceHead(slots[..], head, ring, bare);
      OwnedHead(ring);
      OwnedHead(ring[0 := bare]);
      assert ring[0 := bare][1..] == ring[1..];
      slots[head % cap] := bare;
      ring, taken := ring[0 := bare], taken + |data|;
    }

    /** spsc_ring_pop: frees a payload that is still there. */
    method Pop()
      requires Valid() && ring != []
      modifies this`head, this`bytesPending, this`ring
      ensures Valid() && Queue() == old(Queue())[1..] && ring == old(ring)[1..]
    {
      DropHead(slots[..], head, ring);
      OwnedHead(ring);
      bytesPending := bytesPending - |slots[head % cap].payload|;
      head, ring := head + 1, ring[1..];
    }

    /** spsc_ring_refill_from_overflow: keeps the queue, and stops only on a full ring or an empty
        overflow. */
    method Refill() returns (moved: nat)
      requires Valid()
      modifies this, slots
      ensures Valid() && Queue() == old(Queue()) && taken == old(taken) && head == old(head)
      ensures overflow == [] || |ring| == cap
      ensures moved == |old(overflow)| - |overflow|
    {
      moved := 0;
      while depth > 0 && tail - head < cap
        invariant Valid() && Queue() == old(Queue()) && taken == old(taken) && head == old(head)
        invariant moved == |old(overflow)| - |overflow|
        decreases depth
      {
        MoveOne();
        moved := moved + 1;
      }
    }

    /** The list's head goes to the ring's tail. */
    method MoveOne()
      requires Valid() && depth > 0 && tail - head < cap
      modifies this, slots
      ensures Valid() && Queue() == old(Queue()) && taken == old(taken) && head == old(head)
      ensures depth == old(depth) - 1 && |overflow| == |old(overflow)| - 1
    {
      var node := overflow[0];
      overflow, depth := overflow[1..], depth - 1;
      Publish(node);
    }

    /** bytes_pending counts the payload bytes in the ring exactly while nobody has taken a
        payload out; it never counts the overflow. */
    lemma PendingCountsRing()
      requires Valid()
      ensures bytesPending == OwnedBytes(ring) <==> taken == 0
      ensures bytesPending >= OwnedBytes(ring)
    {
    }
  }

  /** A payload's way through: pushed, peeked, taken and popped, it comes out whole and the byte
      count keeps it for good. */
  method TakenPayloadStaysCounted(q: EventQueue, e: Entry) returns (data: seq<Byte>)
    requires q.Valid() && q.Queue() == [] && e.payload != []
    modifies q, q.slots
    ensures q.Valid() && q.Queue() == [] && data == e.payload
    ensures q.bytesPending == old(q.bytesPending) + |e.payload|
  {
    assert |q.Queue()| == |q.ring| + |q.overflow|;
    var inRing := q.Push(e);
    data := q.TakeData();
    q.Pop();
    assert OwnedBytes([]) == 0;
  }
}

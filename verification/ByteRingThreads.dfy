/** The byte ring under two threads (stream_buf.h): the producer copies into free slots and
    publishes the tail behind them while the consumer copies queued slots out and stores the head.
    Each counter access and each copied byte is one step, and a memcpy may copy its bytes in any
    order. Counters are the true positions; Modulo proves that the wrapped ones tell the same. */
module ByteRingThreads {
  import opened Circular
  import opened Events
  import opened Modulo
  import Runs

  datatype ProducerPc =
    | PIdle
    | PRoom             // aiopquic_stream_buf_push, own tail loaded: about to load head
    | PCopy             // copying data into the slots from tail on
    | PPublish          // about to store tail + |data|

  /** `data` is what the call may still accept, `done` the bytes already copied. */
  datatype Producer = Producer(pc: ProducerPc, data: seq<Byte>, done: set<nat>)

  datatype ConsumerPc =
    | CIdle
    | CAvail            // aiopquic_stream_buf_pop, own head loaded: about to load tail
    | CCopy             // copying the slots from head on into out
    | CStore            // about to store head + |out|

  datatype Consumer = Consumer(pc: ConsumerPc, max: nat, out: seq<Byte>, done: set<nat>)

  datatype State = State(
    cap: nat, buf: seq<Byte>, head: nat, tail: nat,
    producer: Producer, consumer: Consumer,
    // history
    pushed: seq<Byte>,          // everything published
    popped: seq<Byte>)          // everything handed out

  datatype Step =
    | Push(data: seq<Byte>)
    | LoadHead
    | CopyIn(k: nat)
    | Publish
    | Pop(max: nat)
    | LoadTail
    | CopyOut(k: nat)
    | StoreHead

  predicate Init(s: State) {
    && s.cap > 0 && |s.buf| == s.cap && s.head == s.tail == 0 && s.pushed == s.popped == []
    && s.producer.pc == PIdle && s.consumer.pc == CIdle
  }

  predicate Enabled(s: State, step: Step) {
    && s.cap > 0 && |s.buf| == s.cap
    && match step
       case Push(_) => s.producer.pc == PIdle
       case LoadHead => s.producer.pc == PRoom
       case CopyIn(k) => s.producer.pc == PCopy && k < |s.producer.data| && k !in s.producer.done
       case Publish => s.producer.pc == PPublish
       case Pop(_) => s.consumer.pc == CIdle
       case LoadTail => s.consumer.pc == CAvail
       case CopyOut(k) => s.consumer.pc == CCopy && k < |s.consumer.out| && k !in s.consumer.done
       case StoreHead => s.consumer.pc == CStore
  }

  predicate All(done: set<nat>, n: nat) { forall k: nat :: k < n ==> k in done }

  function Room(s: State): nat { if s.tail - s.head < s.cap then s.cap - (s.tail - s.head) else 0 }

  function Min(a: nat, b: nat): nat { if a < b then a else b }

  /** A push that finds no room returns 0; it accepts what fits otherwise. */
  function LoadHeadStep(s: State): State {
    var n := Min(|s.producer.data|, Room(s));
    s.(producer := if n == 0 then Producer(PIdle, [], {}) else Producer(PCopy, s.producer.data[..n], {}))
  }

  function CopyInStep(s: State, k: nat): State
    requires |s.buf| == s.cap > 0 && k < |s.producer.data|
  {
    s.(buf := s.buf[(s.tail + k) % s.cap := s.producer.data[k]],
       producer := Producer(if All(s.producer.done + {k}, |s.producer.data|) then PPublish else PCopy,
                            s.producer.data, s.producer.done + {k}))
  }

  function PublishStep(s: State): State {
    s.(tail := s.tail + |s.producer.data|, pushed := s.pushed + s.producer.data, producer := Producer(PIdle, [], {}))
  }

  function LoadTailStep(s: State): State {
    var n := Min(s.consumer.max, if s.tail > s.head then s.tail - s.head else 0);
    s.(consumer := if n == 0 then Consumer(CIdle, 0, [], {})
                   else Consumer(CCopy, s.consumer.max, seq(n, _ => 0), {}))
  }

  function CopyOutStep(s: State, k: nat): State
    requires |s.buf| == s.cap > 0 && k < |s.consumer.out|
  {
    s.(consumer := Consumer(if All(s.consumer.done + {k}, |s.consumer.out|) then CStore else CCopy, s.consumer.max,
                            s.consumer.out[k := s.buf[(s.head + k) % s.cap]], s.consumer.done + {k}))
  }

  function StoreHeadStep(s: State): State {
    s.(head := s.head + |s.consumer.out|, popped := s.popped + s.consumer.out, consumer := Consumer(CIdle, 0, [], {}))
  }

  function Apply(s: State, step: Step): State
    requires Enabled(s, step)
  {
    match step
    case Push(data) => s.(producer := Producer(PRoom, data, {}))
    case LoadHead => LoadHeadStep(s)
    case CopyIn(k) => CopyInStep(s, k)
    case Publish => PublishStep(s)
    case Pop(max) => s.(consumer := Consumer(CAvail, max, [], {}))
    case LoadTail => LoadTailStep(s)
    case CopyOut(k) => CopyOutStep(s, k)
    case StoreHead => StoreHeadStep(s)
  }

  ghost predicate Takes(s: State, step: Step, t: State) {
    Enabled(s, step) && t == Apply(s, step)
  }

  ghost predicate Next(s: State, t: State) {
    exists step :: Takes(s, step, t)
  }

  ghost predicate Reachable(s: State) {
    Runs.Reachable(Init, Next, s)
  }

  // ---- the inductive invariant ---------------------------------------------------------------

  predicate Writing(p: Producer) { p.pc == PCopy || p.pc == PPublish }

  predicate Reading(c: Consumer) { c.pc == CCopy || c.pc == CStore }

  ghost predicate Counters(s: State) {
    && |s.buf| == s.cap > 0 && s.head <= s.tail <= s.head + s.cap
    && |s.pushed| == s.tail && s.popped == s.pushed[..s.head]
    && (Writing(s.producer) ==> s.tail + |s.producer.data| <= s.head + s.cap)
    && (Reading(s.consumer) ==> s.head + |s.consumer.out| <= s.tail)
    && (s.producer.pc == PPublish ==> All(s.producer.done, |s.producer.data|))
    && (s.consumer.pc == CStore ==> All(s.consumer.done, |s.consumer.out|))
  }

  ghost predicate CopiedIn(buf: seq<Byte>, at: nat, data: seq<Byte>, done: set<nat>)
    requires |buf| > 0
  {
    forall k :: k in done && k < |data| ==> buf[(at + k) % |buf|] == data[k]
  }

  ghost predicate CopiedOut(out: seq<Byte>, done: set<nat>, log: seq<Byte>, at: nat)
    requires at + |out| <= |log|
  {
    forall k :: k in done && k < |out| ==> out[k] == log[at + k]
  }

  ghost predicate Bytes(s: State)
    requires Counters(s)
  {
    && Holds(s.buf, s.pushed, s.head, s.tail)
    && (Writing(s.producer) ==> CopiedIn(s.buf, s.tail, s.producer.data, s.producer.done))
    && (Reading(s.consumer) ==> CopiedOut(s.consumer.out, s.consumer.done, s.pushed, s.head))
  }

  ghost predicate Inv(s: State) { Counters(s) && Bytes(s) }

  /** One slot is written: every other position less than a capacity away keeps its byte. */
  lemma SlotWritten(buf: seq<Byte>, lo: nat, at: nat, b: Byte, i: nat)
    requires |buf| > 0 && lo <= at < lo + |buf| && lo <= i < lo + |buf| && i != at
    ensures buf[at % |buf| := b][i % |buf|] == buf[i % |buf|]
  {
    if i < at { DistinctSlots(i, at, |buf|); } else { DistinctSlots(at, i, |buf|); }
  }

  lemma QueueKept(buf: seq<Byte>, log: seq<Byte>, lo: nat, hi: nat, at: nat, b: Byte)
    requires |buf| > 0 && lo <= hi <= |log| && hi <= at < lo + |buf| && Holds(buf, log, lo, hi)
    ensures Holds(buf[at % |buf| := b], log, lo, hi)
  {
    forall i | lo <= i < hi ensures buf[at % |buf| := b][i % |buf|] == log[i] {
      SlotWritten(buf, lo, at, b, i);
    }
  }

  lemma CopyGrows(buf: seq<Byte>, lo: nat, at: nat, data: seq<Byte>, done: set<nat>, k: nat)
    requires |buf| > 0 && lo <= at && at + |data| <= lo + |buf| && k < |data| && CopiedIn(buf, at, data, done)
    ensures CopiedIn(buf[(at + k) % |buf| := data[k]], at, data, done + {k})
  {
    forall j | j in done + {k} && j < |data| ensures buf[(at + k) % |buf| := data[k]][(at + j) % |buf|] == data[j] {
      if j != k { SlotWritten(buf, lo, at + k, data[k], at + j); }
    }
  }

  lemma CopyInKeepsInv(s: State, k: nat)
    requires Inv(s) && Enabled(s, CopyIn(k))
    ensures Inv(CopyInStep(s, k))
  {
    QueueKept(s.buf, s.pushed, s.head, s.tail, s.tail + k, s.producer.data[k]);
    CopyGrows(s.buf, s.head, s.tail, s.producer.data, s.producer.done, k);
  }

  /** The copied bytes join the queue: the tail moves over slots that already hold them. */
  lemma QueueGrows(buf: seq<Byte>, log: seq<Byte>, lo: nat, data: seq<Byte>, done: set<nat>)
    requires |buf| > 0 && lo <= |log| && Holds(buf, log, lo, |log|)
    requires CopiedIn(buf, |log|, data, done) && All(done, |data|)
    ensures Holds(buf, log + data, lo, |log| + |data|)
  {
    forall i | lo <= i < |log| + |data| ensures buf[i % |buf|] == (log + data)[i] {
      if i >= |log| {
        var k: nat := i - |log|;
        assert k in done && |log| + k == i;
      }
    }
  }

  lemma PublishKeepsInv(s: State)
    requires Inv(s) && Enabled(s, Publish)
    ensures Inv(PublishStep(s))
  {
    QueueGrows(s.buf, s.pushed, s.head, s.producer.data, s.producer.done);
    var log := s.pushed + s.producer.data;
    assert log[..s.head] == s.pushed[..s.head];
    if Reading(s.consumer) {
      forall k | k in s.consumer.done && k < |s.consumer.out| ensures s.consumer.out[k] == log[s.head + k] {
        assert log[s.head + k] == s.pushed[s.head + k];
      }
    }
  }

  lemma CopyOutKeepsInv(s: State, k: nat)
    requires Inv(s) && Enabled(s, CopyOut(k))
    ensures Inv(CopyOutStep(s, k))
  {
    var i := s.head + k;
    assert s.buf[i % s.cap] == s.pushed[i];
  }

  lemma OutIsQueued(out: seq<Byte>, done: set<nat>, log: seq<Byte>, at: nat)
    requires at + |out| <= |log| && CopiedOut(out, done, log, at) && All(done, |out|)
    ensures out == log[at..at + |out|]
  {
    forall k: nat | k < |out| ensures out[k] == log[at..at + |out|][k] {
      assert k in done;
    }
  }

  lemma StoreHeadKeepsInv(s: State)
    requires Inv(s) && Enabled(s, StoreHead)
    ensures Inv(StoreHeadStep(s))
  {
    OutIsQueued(s.consumer.out, s.consumer.done, s.pushed, s.head);
    var n := s.head + |s.consumer.out|;
    assert s.pushed[..s.head] + s.pushed[s.head..n] == s.pushed[..n];
  }

  lemma LoadKeepsInv(s: State)
    requires Inv(s)
    ensures Enabled(s, LoadHead) ==> Inv(LoadHeadStep(s))
    ensures Enabled(s, LoadTail) ==> Inv(LoadTailStep(s))
  {
  }

  lemma StepKeepsInv(s: State, step: Step)
    requires Inv(s) && Enabled(s, step)
    ensures Inv(Apply(s, step))
  {
    match step
    case Push(_) =>
    case LoadHead => LoadKeepsInv(s);
    case CopyIn(k) => CopyInKeepsInv(s, k);
    case Publish => PublishKeepsInv(s);
    case Pop(_) =>
    case LoadTail => LoadKeepsInv(s);
    case CopyOut(k) => CopyOutKeepsInv(s, k);
    case StoreHead => StoreHeadKeepsInv(s);
  }

  lemma ReachableInv(s: State)
    requires Reachable(s)
    ensures Inv(s)
  {
    forall s, t | Inv(s) && Next(s, t) ensures Inv(t) {
      var step :| Takes(s, step, t);
      StepKeepsInv(s, step);
    }
    Runs.InvariantHolds(Init, Next, Inv, s);
  }

  // ---- what the two threads rely on ----------------------------------------------------------

  /** In every interleaving the consumer has been handed, in order, exactly the first bytes the
      producer published, and the ring holds the others. */
  lemma RefinesQueue(s: State)
    requires Reachable(s)
    ensures s.head <= s.tail == |s.pushed| && s.tail - s.head <= s.cap == |s.buf|
    ensures s.popped == s.pushed[..s.head]
    ensures forall i :: s.head <= i < s.tail ==> s.buf[i % s.cap] == s.pushed[i]
  {
    ReachableInv(s);
  }

  /** A copy in progress never meets the other one, nor a queued byte: the slots being written are
      none of those that are queued, those being read included. */
  lemma CopiesApart(s: State, k: nat, i: nat)
    requires Reachable(s) && Writing(s.producer) && k < |s.producer.data| && s.head <= i < s.tail
    ensures s.cap > 0 && (s.tail + k) % s.cap != i % s.cap
    ensures Reading(s.consumer) ==> s.head + |s.consumer.out| <= s.tail
  {
    ReachableInv(s);
    DistinctSlots(i, s.tail + k, s.cap);
  }

  /** A pop hands out the oldest published bytes, whatever the producer did meanwhile. */
  lemma PopReturnsOldest(s: State)
    requires Reachable(s) && s.consumer.pc == CStore
    ensures |s.consumer.out| <= |s.pushed| - s.head
    ensures s.consumer.out == s.pushed[s.head..s.head + |s.consumer.out|]
  {
    ReachableInv(s);
    OutIsQueued(s.consumer.out, s.consumer.done, s.pushed, s.head);
  }
}

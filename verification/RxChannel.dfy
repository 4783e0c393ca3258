/** The RX event channel (spsc_ring.h, callback.h): the picoquic worker pushes events into an
    SPSC ring or, when the ring is full, into an order-preserving overflow list, and wakes
    asyncio through a coalesced eventfd; asyncio drains, refills the ring from the overflow and
    clears the wake. Both threads are explicit program counters; every shared load, store,
    exchange, list edit and fd access is one step, interleaved in any order. */
module RxChannel {
  import opened Events
  import opened Modulo
  import Runs

  /** Where the worker stands inside aiopquic_rx_push. */
  datatype Producer =
    | PIdle
    | PDepth(arg: Entry)                 // about to load ovf.depth
    | PTail(arg: Entry)                  // depth was 0: about to load ring.tail
    | PHead(arg: Entry, tail: nat)       // about to load ring.head
    | PSlot(arg: Entry, tail: nat)       // there is room: about to write the slot
    | PPublish(arg: Entry, tail: nat)    // about to store tail + 1
    | PAppend(arg: Entry)                // about to link a node under the lock
    | PCount                             // about to add 1 to ovf.depth
    | PNotify                            // about to exchange rx_notify_pending to 1
    | PWriteFd                           // saw 0 -> 1: about to write the fd

  /** Where spsc_ring_refill_from_overflow returns to. */
  datatype Caller = InDrain | InClear

  /** Where asyncio stands inside drain_rx and aiopquic_clear_rx. */
  datatype Consumer =
    | CParked                                  // waiting for a readable fd
    | CDrain                                   // about to peek
    | CTake                                    // the ring holds an entry: about to read it
    | CAdvance(entry: Entry)                   // about to store head + 1
    | CRefill(ret: Caller)                     // about to load ovf.depth
    | CRoom(ret: Caller)                       // depth was positive: about to load ring.tail
    | CNode(ret: Caller, tail: nat)            // there is room: about to unlink the first node
    | CFill(ret: Caller, tail: nat, entry: Entry)
    | CPublish(ret: Caller, tail: nat)
    | CUncount(ret: Caller)                    // about to subtract 1 from ovf.depth
    | CReadFd                                  // about to read the fd
    | CExchange                                // about to exchange rx_notify_pending to 0
    | CCheckRing                               // about to count the ring
    | CCheckDepth                              // about to load ovf.depth
    | CRearm                                   // about to write the fd

  datatype State = State(
    cap: nat,
    slots: seq<Entry>, head: nat, tail: nat,
    overflow: seq<Entry>, depth: nat,
    pending: bool, fd: nat,
    worker: Producer, asyncio: Consumer,
    // history: what was pushed (as the caller passed it, and as it was stored) and what came out
    sent: seq<Entry>, queued: seq<Entry>, delivered: seq<Entry>)

  datatype Step = Call(e: Entry) | Push | Notify | Wake | Leave | Drain | Refill | Clear

  predicate Init(s: State) {
    && s.cap > 0 && |s.slots| == s.cap
    && s.head == s.tail == s.depth == s.fd == 0 && !s.pending
    && s.overflow == [] && s.sent == [] && s.queued == [] && s.delivered == []
    && s.worker == PIdle && s.asyncio == CParked
  }

  function Return(ret: Caller): Consumer {
    if ret == InDrain then CDrain else CReadFd
  }

  predicate Draining(c: Consumer) { c.CDrain? || c.CTake? || c.CAdvance? }

  predicate Clearing(c: Consumer) {
    c.CReadFd? || c.CExchange? || c.CCheckRing? || c.CCheckDepth? || c.CRearm?
  }

  predicate Notifying(p: Producer) { p.PNotify? || p.PWriteFd? }

  predicate Enabled(s: State, step: Step) {
    && s.cap > 0 && |s.slots| == s.cap
    && match step
       case Call(_) => s.worker == PIdle
       case Push => s.worker != PIdle && !Notifying(s.worker)
       case Notify => Notifying(s.worker)
       case Wake => s.asyncio == CParked              // next_event may also drain unprompted
       case Leave => s.asyncio == CDrain              // batch limit, or an empty ring
       case Drain => Draining(s.asyncio)
       case Refill => s.asyncio != CParked && !Draining(s.asyncio) && !Clearing(s.asyncio)
       case Clear => Clearing(s.asyncio)
  }

  /** spsc_ring_push_or_overflow. */
  function PushStep(s: State): State
    requires Enabled(s, Push)
  {
    match s.worker
    case PDepth(e) => s.(worker := if s.depth == 0 then PTail(e) else PAppend(e))
    case PTail(e) => s.(worker := PHead(e, s.tail))
    case PHead(e, tail) => s.(worker := if tail - s.head >= s.cap then PAppend(e) else PSlot(e, tail))
    case PSlot(e, tail) => s.(slots := s.slots[tail % s.cap := RingForm(e)], worker := PPublish(e, tail))
    case PPublish(e, tail) =>
      s.(tail := tail + 1, sent := s.sent + [e], queued := s.queued + [RingForm(e)], worker := PNotify)
    case PAppend(e) =>
      s.(overflow := s.overflow + [OverflowForm(e)],
         sent := s.sent + [e], queued := s.queued + [OverflowForm(e)], worker := PCount)
    case PCount => s.(depth := s.depth + 1, worker := PNotify)
  }

  /** aiopquic_notify_rx. */
  function NotifyStep(s: State): State
    requires Enabled(s, Notify)
  {
    match s.worker
    case PNotify => s.(pending := true, worker := if s.pending then PIdle else PWriteFd)
    case PWriteFd => s.(fd := s.fd + 1, worker := PIdle)
  }

  /** The loop of drain_rx: spsc_ring_peek, spsc_ring_pop. */
  function DrainStep(s: State): State
    requires Enabled(s, Drain)
  {
    match s.asyncio
    case CDrain => s.(asyncio := if s.head < s.tail then CTake else CRefill(InDrain))
    case CTake => s.(asyncio := CAdvance(s.slots[s.head % s.cap]))
    case CAdvance(e) => s.(head := s.head + 1, delivered := s.delivered + [e], asyncio := CDrain)
  }

  /** spsc_ring_refill_from_overflow. */
  function RefillStep(s: State): State
    requires Enabled(s, Refill)
  {
    match s.asyncio
    case CRefill(ret) => s.(asyncio := if s.depth > 0 then CRoom(ret) else Return(ret))
    case CRoom(ret) =>
      s.(asyncio := if s.tail - s.head >= s.cap then Return(ret) else CNode(ret, s.tail))
    case CNode(ret, tail) =>
      if s.overflow == [] then s   // a null dereference in the source: NodePresent rules it out
      else s.(overflow := s.overflow[1..], asyncio := CFill(ret, tail, s.overflow[0]))
    case CFill(ret, tail, e) =>
      s.(slots := s.slots[tail % s.cap := e], asyncio := CPublish(ret, tail))
    case CPublish(ret, tail) => s.(tail := tail + 1, asyncio := CUncount(ret))
    case CUncount(ret) => s.(depth := if s.depth > 0 then s.depth - 1 else 0, asyncio := CRefill(ret))
  }

  /** aiopquic_clear_rx after its refill. */
  function ClearStep(s: State): State
    requires Enabled(s, Clear)
  {
    match s.asyncio
    case CReadFd => s.(fd := 0, asyncio := CExchange)
    case CExchange => s.(pending := false, asyncio := CCheckRing)
    case CCheckRing => s.(asyncio := if s.head < s.tail then CRearm else CCheckDepth)
    case CCheckDepth => s.(asyncio := if s.depth > 0 then CRearm else CParked)
    case CRearm => s.(fd := s.fd + 1, asyncio := CParked)
  }

  function Apply(s: State, step: Step): State
    requires Enabled(s, step)
  {
    match step
    case Call(e) => s.(worker := PDepth(e))
    case Push => PushStep(s)
    case Notify => NotifyStep(s)
    case Wake => s.(asyncio := CRefill(InDrain))
    case Leave => s.(asyncio := CRefill(InClear))
    case Drain => DrainStep(s)
    case Refill => RefillStep(s)
    case Clear => ClearStep(s)
  }

  ghost predicate Takes(s: State, step: Step, t: State) {
    Enabled(s, step) && t == Apply(s, step)
  }

  ghost predicate Next(s: State, t: State) {
    exists step :: Takes(s, step, t)
  }

  ghost predicate Reachable(s: State) {
    Runs.Reachable(Init, Next, s)
  }

  // ---- the inductive invariant ---------------------------------------------------------------

  /** The worker is between seeing depth 0 and publishing: it may store ring.tail. */
  predicate WorkerOwnsTail(s: State) {
    s.worker.PTail? || s.worker.PHead? || s.worker.PSlot? || s.worker.PPublish?
  }

  /** The refill is between seeing a positive depth and its decrement: it may store ring.tail. */
  predicate RefillOwnsTail(s: State) {
    s.asyncio.CRoom? || s.asyncio.CNode? || s.asyncio.CFill? || s.asyncio.CPublish? || s.asyncio.CUncount?
  }

  /** A node has left the overflow list and is not yet in the published part of the ring. */
  predicate NodeInHand(s: State) { s.asyncio.CFill? || s.asyncio.CPublish? }

  function B(b: bool): nat { if b then 1 else 0 }

  ghost predicate Counters(s: State) {
    && s.cap > 0 && |s.slots| == s.cap
    && s.head <= s.tail <= s.head + s.cap
    && |s.overflow| + B(NodeInHand(s) || s.asyncio.CUncount?) == s.depth + B(s.worker.PCount?)
    && |s.queued| == s.tail + B(NodeInHand(s)) + |s.overflow|
    && (WorkerOwnsTail(s) ==> s.depth == 0)
    && (RefillOwnsTail(s) ==> s.depth > 0)
  }

  ghost predicate Locals(s: State) {
    && ((s.worker.PHead? || s.worker.PSlot? || s.worker.PPublish?) ==> s.worker.tail == s.tail)
    && ((s.worker.PSlot? || s.worker.PPublish?) ==> s.tail - s.head < s.cap)
    && ((s.asyncio.CNode? || s.asyncio.CFill? || s.asyncio.CPublish?) ==>
          s.asyncio.tail == s.tail && s.tail - s.head < s.cap)
    && ((s.asyncio.CTake? || s.asyncio.CAdvance?) ==> s.head < s.tail)
  }

  ghost predicate Contents(s: State)
    requires Counters(s)
  {
    && (forall i :: s.head <= i < s.tail ==> s.slots[i % s.cap] == s.queued[i])
    && s.overflow == s.queued[|s.queued| - |s.overflow|..]
    && (s.worker.PPublish? ==> s.slots[s.tail % s.cap] == RingForm(s.worker.arg))
    && (s.asyncio.CFill? ==> s.asyncio.entry == s.queued[s.tail])
    && (s.asyncio.CPublish? ==> s.slots[s.tail % s.cap] == s.queued[s.tail])
    && (s.asyncio.CAdvance? ==> s.head < s.tail && s.asyncio.entry == s.queued[s.head])
    && s.delivered == s.queued[..s.head]
  }

  ghost predicate Stored(s: State) {
    && |s.queued| == |s.sent|
    && forall i :: 0 <= i < |s.sent| ==> SameEntry(s.sent[i], s.queued[i])
  }

  /** The wake protocol. The first clause is what makes a skipped write safe; the others say
      that work the consumer will not look at again is announced or about to be. */
  ghost predicate WakeInv(s: State) {
    && (s.pending ==> s.fd > 0 || s.worker.PWriteFd? || s.asyncio.CExchange?)
    && (s.asyncio.CParked? && (s.head < s.tail || s.depth > 0) ==>
          s.fd > 0 || s.worker.PNotify? || s.worker.PWriteFd?)
    && (s.asyncio.CCheckDepth? && s.head < s.tail ==>
          s.fd > 0 || s.worker.PNotify? || s.worker.PWriteFd?)
  }

  ghost predicate Inv(s: State) {
    Counters(s) && Locals(s) && Contents(s) && Stored(s) && WakeInv(s)
  }

  lemma InitCounters(s: State)
    requires Init(s)
    ensures Counters(s) && Locals(s) && Stored(s) && WakeInv(s)
  {
  }

  lemma InitContents(s: State)
    requires s.cap > 0 && |s.slots| == s.cap && s.head == s.tail == 0 && s.queued == s.overflow == s.delivered == []
    requires Counters(s) && s.worker.PIdle? && s.asyncio.CParked?
    ensures Contents(s)
  {
    assert s.queued[..0] == [] && s.queued[0..] == [];
  }

  lemma InitInv(s: State)
    requires Init(s)
    ensures Inv(s)
  {
    InitCounters(s);
    InitContents(s);
  }

  /** Steps that move no entry keep Contents and Stored. */
  predicate SameData(s: State, t: State) {
    && t.cap == s.cap && t.slots == s.slots && t.head == s.head && t.tail == s.tail
    && t.overflow == s.overflow && t.sent == s.sent && t.queued == s.queued && t.delivered == s.delivered
    && (t.worker.PPublish? ==> t.worker == s.worker)
    && (t.asyncio.CFill? || t.asyncio.CPublish? || t.asyncio.CAdvance? ==> t.asyncio == s.asyncio)
  }

  lemma DataFrame(s: State, t: State)
    requires Counters(s) && Contents(s) && Stored(s) && Counters(t) && SameData(s, t)
    ensures Contents(t) && Stored(t)
  {
  }

  lemma PushKeepsCounters(s: State)
    requires Counters(s) && Locals(s) && Enabled(s, Push)
    ensures Counters(PushStep(s)) && Locals(PushStep(s))
  {
  }

  lemma PushKeepsWake(s: State)
    requires Counters(s) && Locals(s) && WakeInv(s) && Enabled(s, Push)
    ensures WakeInv(PushStep(s))
  {
  }

  lemma PushKeepsStored(s: State)
    requires Stored(s) && Enabled(s, Push)
    ensures Stored(PushStep(s))
  {
  }

  /** The free slot at the tail is filled; the queued ones are others. */
  lemma SlotFilled(slots: seq<Entry>, head: nat, tail: nat, queued: seq<Entry>, e: Entry)
    requires |slots| > 0 && head <= tail < head + |slots| && tail <= |queued|
    requires forall i :: head <= i < tail ==> slots[i % |slots|] == queued[i]
    ensures slots[tail % |slots| := e][tail % |slots|] == e
    ensures forall i :: head <= i < tail ==> slots[tail % |slots| := e][i % |slots|] == queued[i]
  {
    forall i | head <= i < tail ensures slots[tail % |slots| := e][i % |slots|] == queued[i] {
      DistinctSlots(i, tail, |slots|);
    }
  }

  lemma WorkerFillsSlot(s: State)
    requires Counters(s) && Locals(s) && Contents(s) && s.worker.PSlot?
    requires Counters(PushStep(s))
    ensures Contents(PushStep(s))
  {
    SlotFilled(s.slots, s.head, s.tail, s.queued, RingForm(s.worker.arg));
  }

  lemma WorkerPublishes(s: State)
    requires Counters(s) && Locals(s) && Contents(s) && s.worker.PPublish?
    requires Counters(PushStep(s))
    ensures Contents(PushStep(s))
  {
  }

  lemma SuffixGrows(queued: seq<Entry>, overflow: seq<Entry>, e: Entry)
    requires |overflow| <= |queued| && overflow == queued[|queued| - |overflow|..]
    ensures overflow + [e] == (queued + [e])[|queued| - |overflow|..]
  {
  }

  /** What the ring holds of the queue does not depend on what joins behind. */
  lemma QueueGrows(slots: seq<Entry>, head: nat, tail: nat, queued: seq<Entry>, e: Entry)
    requires |slots| > 0 && head <= tail <= |queued|
    requires forall i :: head <= i < tail ==> slots[i % |slots|] == queued[i]
    ensures forall i :: head <= i < tail ==> slots[i % |slots|] == (queued + [e])[i]
    ensures (queued + [e])[..head] == queued[..head]
  {
    forall i | head <= i < tail ensures slots[i % |slots|] == (queued + [e])[i] {
      assert (queued + [e])[i] == queued[i];
    }
  }

  lemma WorkerAppends(s: State)
    requires Counters(s) && Locals(s) && Contents(s) && s.worker.PAppend?
    requires Counters(PushStep(s))
    ensures Contents(PushStep(s))
  {
    SuffixGrows(s.queued, s.overflow, OverflowForm(s.worker.arg));
    QueueGrows(s.slots, s.head, s.tail, s.queued, OverflowForm(s.worker.arg));
  }

  lemma PushKeepsContents(s: State)
    requires Counters(s) && Locals(s) && Contents(s) && Stored(s) && Enabled(s, Push)
    requires Counters(PushStep(s))
    ensures Contents(PushStep(s))
  {
    if s.worker.PSlot? {
      WorkerFillsSlot(s);
    } else if s.worker.PPublish? {
      WorkerPublishes(s);
    } else if s.worker.PAppend? {
      WorkerAppends(s);
    } else {
      DataFrame(s, PushStep(s));
    }
  }

  lemma NotifyKeepsControl(s: State)
    requires Counters(s) && Locals(s) && WakeInv(s) && Enabled(s, Notify)
    ensures Counters(NotifyStep(s)) && Locals(NotifyStep(s)) && WakeInv(NotifyStep(s)) && SameData(s, NotifyStep(s))
  {
  }

  lemma DrainKeepsCounters(s: State)
    requires Counters(s) && Locals(s) && WakeInv(s) && Enabled(s, Drain)
    ensures Counters(DrainStep(s)) && Locals(DrainStep(s)) && WakeInv(DrainStep(s))
  {
  }

  lemma DrainKeepsContents(s: State)
    requires Counters(s) && Locals(s) && Contents(s) && Enabled(s, Drain)
    requires Counters(DrainStep(s))
    ensures Contents(DrainStep(s))
  {
    match s.asyncio
    case CDrain =>
    case CTake => assert s.slots[s.head % s.cap] == s.queued[s.head];
    case CAdvance(_) => assert s.queued[..s.head + 1] == s.queued[..s.head] + [s.queued[s.head]];
  }

  lemma RefillKeepsCounters(s: State)
    requires Counters(s) && Locals(s) && Enabled(s, Refill)
    ensures Counters(RefillStep(s)) && Locals(RefillStep(s))
  {
  }

  lemma RefillKeepsWake(s: State)
    requires Counters(s) && Locals(s) && WakeInv(s) && Enabled(s, Refill)
    ensures WakeInv(RefillStep(s))
  {
  }

  lemma RefillFillsSlot(s: State)
    requires Counters(s) && Locals(s) && Contents(s) && s.asyncio.CFill?
    requires Counters(RefillStep(s))
    ensures Contents(RefillStep(s))
  {
    SlotFilled(s.slots, s.head, s.tail, s.queued, s.asyncio.entry);
  }

  lemma RefillTakesNode(s: State)
    requires Counters(s) && Locals(s) && Contents(s) && s.asyncio.CNode?
    requires Counters(RefillStep(s))
    ensures Contents(RefillStep(s))
  {
    if s.overflow != [] {
      assert s.overflow[0] == s.queued[s.tail] && s.overflow[1..] == s.queued[s.tail + 1..];
    }
  }

  lemma RefillPublishes(s: State)
    requires Counters(s) && Locals(s) && Contents(s) && s.asyncio.CPublish?
    requires Counters(RefillStep(s))
    ensures Contents(RefillStep(s))
  {
  }

  lemma RefillKeepsContents(s: State)
    requires Counters(s) && Locals(s) && Contents(s) && Stored(s) && Enabled(s, Refill)
    requires Counters(RefillStep(s))
    ensures Contents(RefillStep(s))
  {
    if s.asyncio.CFill? {
      RefillFillsSlot(s);
    } else if s.asyncio.CNode? {
      RefillTakesNode(s);
    } else if s.asyncio.CPublish? {
      RefillPublishes(s);
    } else {
      DataFrame(s, RefillStep(s));
    }
  }

  lemma ClearKeepsControl(s: State)
    requires Counters(s) && Locals(s) && WakeInv(s) && Enabled(s, Clear)
    ensures Counters(ClearStep(s)) && Locals(ClearStep(s)) && WakeInv(ClearStep(s)) && SameData(s, ClearStep(s))
  {
    match s.asyncio
    case CReadFd =>
    case CExchange =>
    case CCheckRing =>
    case CCheckDepth =>
    case CRearm =>
  }

  lemma WakeOrLeaveKeepsInv(s: State, c: Consumer)
    requires Inv(s) && (s.asyncio == CParked || s.asyncio == CDrain) && c.CRefill?
    ensures Inv(s.(asyncio := c))
  {
    DataFrame(s, s.(asyncio := c));
  }

  lemma CallKeepsInv(s: State, e: Entry)
    requires Inv(s) && s.worker == PIdle
    ensures Inv(s.(worker := PDepth(e)))
  {
    DataFrame(s, s.(worker := PDepth(e)));
  }

  lemma WorkerKeepsInv(s: State, step: Step)
    requires Inv(s) && Enabled(s, step) && (step.Call? || step.Push? || step.Notify?)
    ensures Inv(Apply(s, step))
  {
    if step.Call? {
      CallKeepsInv(s, step.e);
    } else if step.Push? {
      PushKeepsCounters(s); PushKeepsWake(s); PushKeepsStored(s); PushKeepsContents(s);
    } else {
      NotifyKeepsControl(s); DataFrame(s, NotifyStep(s));
    }
  }

  lemma DrainKeepsInv(s: State)
    requires Inv(s) && Enabled(s, Drain)
    ensures Inv(DrainStep(s))
  {
    DrainKeepsCounters(s); DrainKeepsContents(s);
  }

  lemma RefillKeepsInv(s: State)
    requires Inv(s) && Enabled(s, Refill)
    ensures Inv(RefillStep(s))
  {
    RefillKeepsCounters(s); RefillKeepsWake(s); RefillKeepsContents(s);
  }

  lemma ClearKeepsInv(s: State)
    requires Inv(s) && Enabled(s, Clear)
    ensures Inv(ClearStep(s))
  {
    ClearKeepsControl(s); DataFrame(s, ClearStep(s));
  }

  lemma StepKeepsInv(s: State, step: Step)
    requires Inv(s) && Enabled(s, step)
    ensures Inv(Apply(s, step))
  {
    if step.Wake? {
      WakeOrLeaveKeepsInv(s, CRefill(InDrain));
    } else if step.Leave? {
      WakeOrLeaveKeepsInv(s, CRefill(InClear));
    } else if step.Drain? {
      DrainKeepsInv(s);
    } else if step.Refill? {
      RefillKeepsInv(s);
    } else if step.Clear? {
      ClearKeepsInv(s);
    } else {
      WorkerKeepsInv(s, step);
    }
  }

  lemma ReachableInv(s: State)
    requires Reachable(s)
    ensures Inv(s)
  {
    forall s | Init(s) ensures Inv(s) { InitInv(s); }
    forall s, t | Inv(s) && Next(s, t) ensures Inv(t) {
      var step :| Takes(s, step, t);
      StepKeepsInv(s, step);
    }
    Runs.InvariantHolds(Init, Next, Inv, s);
  }

  // ---- what the two threads rely on ----------------------------------------------------------

  /** Ring and overflow are one FIFO queue: what asyncio has taken out is, in order and each
      exactly once, what the worker has pushed, entries without a payload up to data_length. */
  lemma DeliversInOrder(s: State)
    requires Reachable(s)
    ensures |s.delivered| <= |s.sent|
    ensures forall i :: 0 <= i < |s.delivered| ==> SameEntry(s.sent[i], s.delivered[i])
  {
    ReachableInv(s);
  }

  /** The ring keeps its single producer: a push and a refill never both hold ring.tail. */
  lemma SingleTailOwner(s: State)
    requires Reachable(s)
    ensures !(WorkerOwnsTail(s) && RefillOwnsTail(s))
  {
    ReachableInv(s);
  }

  /** The list is non-empty wherever the refill dereferences its head without a check. */
  lemma NodePresent(s: State)
    requires Reachable(s) && s.asyncio.CNode?
    ensures s.overflow != []
  {
    ReachableInv(s);
  }

  /** No lost RX wake: while the worker is between pushes and asyncio waits on the fd, a
      non-empty ring or overflow means the fd is readable. */
  lemma NoLostWake(s: State)
    requires Reachable(s) && s.worker == PIdle && s.asyncio == CParked
    requires s.head < s.tail || s.overflow != []
    ensures s.fd > 0
  {
    ReachableInv(s);
  }

  /** rx_notify_pending never silences the worker for good: a set flag has a wake to read, a
      write in progress, or a consumer about to take the flag down. */
  lemma PendingHasWake(s: State)
    requires Reachable(s) && s.pending
    ensures s.fd > 0 || s.worker.PWriteFd? || s.asyncio.CExchange?
  {
    ReachableInv(s);
  }

  /** A quiet channel is an empty one: with the worker between pushes and asyncio parked on an
      fd it cannot read, everything pushed has been delivered. */
  lemma QuietMeansDelivered(s: State)
    requires Reachable(s) && s.worker == PIdle && s.asyncio == CParked && s.fd == 0
    ensures |s.delivered| == |s.sent|
    ensures forall i :: 0 <= i < |s.sent| ==> SameEntry(s.sent[i], s.delivered[i])
  {
    ReachableInv(s);
  }
}

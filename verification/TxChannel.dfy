/** The TX event channel (callback.h, spsc_ring.h): asyncio pushes commands into an SPSC ring and
    wakes the picoquic worker only when it is idle; a writer refused by a full ring arms a drained
    event that the worker fires at low water. Every shared load, store, exchange and wake is one
    step of one thread, interleaved in any order. */
module TxChannel {
  import Runs

  /** What aiopquic_loop_cb is called for. picoquic runs a time check before every wait. */
  datatype Callback = TimeCheckBlocking | TimeCheckPolling | WakeUp | Other

  datatype Worker =
    | Running                              // between callbacks, not about to block
    | Asleep                               // in a wait that can block
    | EntryLoad(cb: Callback)              // callback entry: about to load tx_worker_idle
    | EntryClear(cb: Callback)             // it was set: about to clear it
    | IdleArm                              // time check, delta > 0: about to store idle = 1
    | ArmPeek                              // about to peek behind the store
    | Disarm                               // entries are queued: about to store idle = 0
    | PollPeek                             // time check, delta == 0: about to peek
    | Peek                                 // drain loop
    | Pop
    | FireLoad(final: bool)                // about to load tx_event_ring_drain_pending
    | FireCount(final: bool)               // it was set: about to count the ring
    | FireSwap(final: bool, seen: nat)     // at or below low water with tail == seen: about to CAS
    | FirePost(final: bool, seen: nat)     // about to push the drained event

  datatype Asyncio =
    | Between                              // between calls of the transport
    | LoadHead(sent: bool)                 // spsc_ring_push, about to load head
    | Publish(sent: bool)                  // there is room: about to store tail + 1
    | SendCheck                            // tx_send_atomic, about to count the ring
    | ArmStore(send: bool)                 // about to store tx_event_ring_drain_pending = 1
    | ArmCount(send: bool)                 // about to re-check the count
    | WakeLoad                             // aiopquic_tx_wake_needed, about to load tx_worker_idle
    | WakeSwap                             // about to exchange it to 0
    | WakePost                             // about to wake the network thread

  datatype State = State(
    cap: nat, low: nat,
    head: nat, tail: nat,
    idle: bool, wake: bool, pending: bool,
    worker: Worker, asyncio: Asyncio,
    // history
    unannounced: bool,     // an entry was published since the last tx_wake_needed
    armed: bool,           // an arm was stored and no drained event was posted since
    waiting: bool,         // such an arm has returned 1: a writer awaits the event
    arms: nat, fired: nat,
    commits: nat, marks: nat)

  datatype Call = Push | Send | Arm | Wake

  datatype Step = Start(call: Call) | AsyncioStep | Callback(cb: Callback) | ReadWake | TimeOut | WorkerStep

  predicate Init(s: State) {
    && s.low < s.cap                       // tx_cap * pct / 100 with pct < 100
    && s.head == s.tail == s.arms == s.fired == s.commits == s.marks == 0
    && !s.idle && !s.wake && !s.pending && !s.unannounced && !s.armed && !s.waiting
    && s.worker == Running && s.asyncio == Between
  }

  predicate Enabled(s: State, step: Step) {
    match step
    case Start(_) => s.asyncio == Between
    case AsyncioStep => s.asyncio != Between
    case Callback(cb) => s.worker == Running && cb != WakeUp
    case ReadWake => s.wake && (s.worker == Running || s.worker == Asleep)
    case TimeOut => s.worker == Asleep                 // a packet, a timer: never prompted by a wake
    case WorkerStep => s.worker != Running && s.worker != Asleep
  }

  function Enter(cb: Callback): Worker {
    match cb
    case TimeCheckBlocking => IdleArm
    case TimeCheckPolling => PollPeek
    case WakeUp => Peek
    case Other => Running
  }

  function AfterFire(final: bool): Worker { if final then Running else Peek }

  function StartStep(s: State, call: Call): State {
    match call
    case Push => s.(asyncio := LoadHead(false))
    case Send => s.(asyncio := SendCheck)
    case Arm => s.(asyncio := ArmStore(false))
    case Wake => s.(asyncio := WakeLoad, unannounced := false)
  }

  /** spsc_ring_push; `sent` when tx_send_atomic has already committed the bytes. */
  function PushStep(s: State): State
    requires s.asyncio.LoadHead? || s.asyncio.Publish?
  {
    match s.asyncio
    case LoadHead(sent) => s.(asyncio := if s.tail - s.head >= s.cap then Between else Publish(sent))
    case Publish(sent) =>
      s.(tail := s.tail + 1, unannounced := true, marks := s.marks + B(sent), asyncio := Between)
  }

  /** The capacity check of tx_send_atomic and aiopquic_arm_tx_event_ring_drain_pending. */
  function ArmStep(s: State): State
    requires s.asyncio.SendCheck? || s.asyncio.ArmStore? || s.asyncio.ArmCount?
  {
    match s.asyncio
    case SendCheck => if s.tail - s.head >= s.cap then s.(asyncio := ArmStore(true)) else Commit(s)
    case ArmStore(send) =>
      s.(pending := true, armed := true, arms := s.arms + 1, asyncio := ArmCount(send))
    case ArmCount(send) =>
      if s.tail - s.head > s.low then s.(waiting := s.waiting || s.armed, asyncio := Between)
      else if send then Commit(s)
      else s.(asyncio := Between)
  }

  /** The per-stream ring takes the bytes; the MARK_ACTIVE push follows. */
  function Commit(s: State): State {
    s.(commits := s.commits + 1, asyncio := LoadHead(true))
  }

  /** aiopquic_tx_wake_needed and the wake behind it. */
  function WakeStep(s: State): State
    requires s.asyncio.WakeLoad? || s.asyncio.WakeSwap? || s.asyncio.WakePost?
  {
    match s.asyncio
    case WakeLoad => s.(asyncio := if s.idle then WakeSwap else Between)
    case WakeSwap => s.(idle := false, asyncio := if s.idle then WakePost else Between)
    case WakePost => s.(wake := true, asyncio := Between)
  }

  function ProducerStep(s: State): State
    requires Enabled(s, AsyncioStep)
  {
    match s.asyncio
    case LoadHead(_) => PushStep(s)
    case Publish(_) => PushStep(s)
    case SendCheck => ArmStep(s)
    case ArmStore(_) => ArmStep(s)
    case ArmCount(_) => ArmStep(s)
    case WakeLoad => WakeStep(s)
    case WakeSwap => WakeStep(s)
    case WakePost => WakeStep(s)
  }

  predicate Firing(w: Worker) { w.FireLoad? || w.FireCount? || w.FireSwap? || w.FirePost? }

  predicate Entering(w: Worker) { w.EntryLoad? || w.EntryClear? }

  predicate Checking(w: Worker) { w.IdleArm? || w.ArmPeek? || w.Disarm? || w.PollPeek? }

  /** The prologue of aiopquic_loop_cb. */
  function EntryStep(s: State): State
    requires Entering(s.worker)
  {
    match s.worker
    case EntryLoad(cb) => s.(worker := if s.idle then EntryClear(cb) else Enter(cb))
    case EntryClear(cb) => s.(idle := false, worker := Enter(cb))
  }

  /** The time check, with aiopquic_tx_worker_idle_arm. */
  function CheckStep(s: State): State
    requires Checking(s.worker)
  {
    match s.worker
    case IdleArm => s.(idle := true, worker := ArmPeek)
    case ArmPeek => s.(worker := if s.head < s.tail then Disarm else Asleep)
    case Disarm => s.(idle := false, worker := Peek)
    case PollPeek => s.(worker := if s.head < s.tail then Peek else Running)
  }

  /** The drain loop. */
  function DrainStep(s: State): State
    requires s.worker.Peek? || s.worker.Pop?
  {
    match s.worker
    case Peek => s.(worker := if s.head < s.tail then Pop else FireLoad(true))
    case Pop => s.(head := s.head + 1, worker := FireLoad(false))
  }

  /** aiopquic_maybe_fire_tx_event_ring_drained. */
  function FireStep(s: State): State
    requires Firing(s.worker)
  {
    match s.worker
    case FireLoad(final) => s.(worker := if s.pending then FireCount(final) else AfterFire(final))
    case FireCount(final) =>
      s.(worker := if s.tail - s.head > s.low then AfterFire(final) else FireSwap(final, s.tail))
    case FireSwap(final, seen) =>
      s.(pending := false, worker := if s.pending then FirePost(final, seen) else AfterFire(final))
    case FirePost(final, _) =>
      s.(fired := s.fired + 1, armed := false, waiting := false, worker := AfterFire(final))
  }

  function LoopStep(s: State): State
    requires Enabled(s, WorkerStep)
  {
    if Entering(s.worker) then EntryStep(s)
    else if Checking(s.worker) then CheckStep(s)
    else if Firing(s.worker) then FireStep(s)
    else DrainStep(s)
  }

  function Apply(s: State, step: Step): State
    requires Enabled(s, step)
  {
    match step
    case Start(call) => StartStep(s, call)
    case AsyncioStep => ProducerStep(s)
    case Callback(cb) => s.(worker := EntryLoad(cb))
    case ReadWake => s.(wake := false, worker := EntryLoad(WakeUp))
    case TimeOut => s.(worker := EntryLoad(Other))
    case WorkerStep => LoopStep(s)
  }

  ghost predicate Takes(s: State, step: Step, t: State) {
    Enabled(s, step) && t == Apply(s, step)
  }

  ghost predicate Next(s: State, t: State) {
    exists step :: Takes(s, step, t)
  }

  ghost predicate Reachable(s: State) {
    Runs.Reachable(Init, Next, s)
  }

  // ---- the inductive invariant ---------------------------------------------------------------

  function B(b: bool): nat { if b then 1 else 0 }

  /** The worker is inside its drain loop, up to the final fire behind it. */
  predicate InDrain(w: Worker) { w.Peek? || w.Pop? || Firing(w) || w.Disarm? }

  predicate Announcing(a: Asyncio) { a.WakeLoad? || a.WakeSwap? || a.WakePost? }

  ghost predicate RingInv(s: State) {
    && s.low < s.cap
    && s.head <= s.tail <= s.head + s.cap
    && (s.worker.Pop? ==> s.head < s.tail)
    && (s.asyncio.Publish? || s.asyncio == LoadHead(true) ==> s.tail - s.head < s.cap)
    && s.commits == s.marks + B(s.asyncio == LoadHead(true) || s.asyncio == Publish(true))
  }

  /** A worker that has marked itself idle keeps the mark, or the wake that took it. */
  ghost predicate WakeInv(s: State) {
    && (s.worker.ArmPeek? || s.worker.Asleep? ==> s.idle || s.wake || s.asyncio.WakePost?)
    && (s.worker.Asleep? && s.head < s.tail ==> s.wake || s.unannounced || Announcing(s.asyncio))
  }

  ghost predicate FireInv(s: State) {
    && (s.waiting ==> s.armed)
    && (s.armed ==> s.pending || s.worker.FirePost?)
    && (s.waiting && s.pending && !InDrain(s.worker) ==> s.tail - s.head > s.low)
    && (s.worker.FireSwap? || s.worker.FirePost? ==> s.head <= s.worker.seen <= s.tail && s.worker.seen - s.head <= s.low)
    && s.fired + B(s.pending) + B(s.worker.FirePost?) <= s.arms
  }

  ghost predicate Inv(s: State) { RingInv(s) && WakeInv(s) && FireInv(s) }

  lemma PushKeepsInv(s: State)
    requires Inv(s) && (s.asyncio.LoadHead? || s.asyncio.Publish?)
    ensures Inv(PushStep(s))
  {
  }

  lemma CommitKeepsInv(s: State)
    requires Inv(s) && s.tail - s.head < s.cap && (s.asyncio.SendCheck? || s.asyncio.ArmCount?)
    ensures Inv(Commit(s))
  {
  }

  lemma ArmStoreKeepsInv(s: State)
    requires Inv(s) && s.asyncio.ArmStore?
    ensures Inv(ArmStep(s))
  {
  }

  /** The re-check sends the writer to wait. */
  lemma ArmWaitKeepsInv(s: State)
    requires Inv(s) && s.asyncio.ArmCount? && s.tail - s.head > s.low
    ensures Inv(ArmStep(s))
  {
  }

  lemma ArmKeepsInv(s: State)
    requires Inv(s) && (s.asyncio.SendCheck? || s.asyncio.ArmStore? || s.asyncio.ArmCount?)
    ensures Inv(ArmStep(s))
  {
    if s.asyncio.ArmStore? {
      ArmStoreKeepsInv(s);
    } else if s.asyncio.ArmCount? && s.tail - s.head > s.low {
      ArmWaitKeepsInv(s);
    } else if ArmStep(s) == Commit(s) {
      CommitKeepsInv(s);
    }
  }

  lemma WakeKeepsInv(s: State)
    requires Inv(s) && Announcing(s.asyncio)
    ensures Inv(WakeStep(s))
  {
  }

  lemma EntryKeepsInv(s: State)
    requires Inv(s) && Entering(s.worker)
    ensures Inv(EntryStep(s))
  {
  }

  lemma CheckKeepsInv(s: State)
    requires Inv(s) && Checking(s.worker)
    ensures Inv(CheckStep(s))
  {
  }

  lemma DrainKeepsInv(s: State)
    requires Inv(s) && (s.worker.Peek? || s.worker.Pop?)
    ensures Inv(DrainStep(s))
  {
  }

  lemma FireKeepsInv(s: State)
    requires Inv(s) && Firing(s.worker)
    ensures Inv(FireStep(s))
  {
  }

  lemma StartKeepsInv(s: State, call: Call)
    requires Inv(s) && s.asyncio == Between
    ensures Inv(StartStep(s, call))
  {
  }

  lemma CallbackKeepsInv(s: State, wake: bool, cb: Callback)
    requires Inv(s) && (s.worker == Running || s.worker == Asleep)
    ensures Inv(s.(wake := wake, worker := EntryLoad(cb)))
  {
  }

  lemma StepKeepsInv(s: State, step: Step)
    requires Inv(s) && Enabled(s, step)
    ensures Inv(Apply(s, step))
  {
    match step
    case Start(call) => StartKeepsInv(s, call);
    case AsyncioStep =>
      if s.asyncio.LoadHead? || s.asyncio.Publish? {
        PushKeepsInv(s);
      } else if Announcing(s.asyncio) {
        WakeKeepsInv(s);
      } else {
        ArmKeepsInv(s);
      }
    case Callback(cb) => CallbackKeepsInv(s, s.wake, cb);
    case ReadWake => CallbackKeepsInv(s, false, WakeUp);
    case TimeOut => CallbackKeepsInv(s, s.wake, Other);
    case WorkerStep =>
      if Entering(s.worker) {
        EntryKeepsInv(s);
      } else if Checking(s.worker) {
        CheckKeepsInv(s);
      } else if Firing(s.worker) {
        FireKeepsInv(s);
      } else {
        DrainKeepsInv(s);
      }
  }

  lemma ReachableInv(s: State)
    requires Reachable(s)
    ensures Inv(s)
  {
    forall s, t | Inv(s) && Next(s, t) ensures Inv(t) {
      var step :| Takes(s, step, t);
      StepKeepsInv(s, step);
    }
    Runs.InvariantHolds(Init, Next, Inv, s);
  }

  // ---- what the two threads rely on ----------------------------------------------------------

  /** The worker never sleeps on work: blocked with entries queued, a wake is posted or the
      producer is still before the end of its check. */
  lemma NeverSleepsOnWork(s: State)
    requires Reachable(s) && s.worker == Asleep && s.head < s.tail
    ensures s.wake || s.unannounced || Announcing(s.asyncio)
  {
    ReachableInv(s);
  }

  /** A writer told to wait is not forgotten: the flag stays set until the worker is about to
      post its event, and outside its drain the worker leaves it set only above low water. */
  lemma WaitingWriterKept(s: State)
    requires Reachable(s) && s.waiting
    ensures s.pending || s.worker.FirePost?
    ensures InDrain(s.worker) || s.tail - s.head > s.low
  {
    ReachableInv(s);
  }

  /** So a parked writer and a sleeping worker never wait for each other. */
  lemma ParkedWriterIsServed(s: State)
    requires Reachable(s) && s.waiting && s.worker == Asleep
    requires s.asyncio == Between && !s.unannounced
    ensures s.wake
  {
    ReachableInv(s);
  }

  /** At most one event per arm, after a look that counted the ring at or below low water. */
  lemma FiresAtLowWater(s: State)
    requires Reachable(s)
    ensures s.fired <= s.arms
    ensures s.pending || s.worker.FirePost? ==> s.fired < s.arms
    ensures s.worker.FirePost? ==> s.worker.seen - s.head <= s.low && s.worker.seen <= s.tail
  {
    ReachableInv(s);
  }

  /** The event itself goes out above low water exactly if the entries published since the look
      outnumber what the look left below it; with none published it goes out at or below. */
  lemma PostAboveLowWaterIff(s: State)
    requires Reachable(s) && s.worker.FirePost?
    ensures s.tail - s.head > s.low <==> s.tail - s.worker.seen > s.low - (s.worker.seen - s.head) >= 0
    ensures s.tail == s.worker.seen ==> s.tail - s.head <= s.low
  {
    ReachableInv(s);
  }

  /** tx_send_atomic commits bytes only if its MARK_ACTIVE push cannot be refused: whenever no
      send is under way, every commit has its mark in the ring. */
  lemma SendIsAllOrNothing(s: State)
    requires Reachable(s)
    ensures s.asyncio == LoadHead(true) ==> s.tail - s.head < s.cap
    ensures s.asyncio == Between ==> s.commits == s.marks
  {
    ReachableInv(s);
  }

  lemma Go(s: State, step: Step) returns (t: State)
    requires Reachable(s) && Enabled(s, step)
    ensures t == Apply(s, step) && Reachable(t)
  {
    t := Apply(s, step);
    assert Takes(s, step, t);
    Runs.NextReachable(Init, Next, s, t);
  }

  lemma PushOne(s: State) returns (t: State)
    requires Reachable(s) && s.asyncio == Between && s.tail - s.head < s.cap
    ensures Reachable(t) && t == s.(tail := s.tail + 1, unannounced := true)
  {
    t := Go(s, Start(Push));
    t := Go(t, AsyncioStep);
    t := Go(t, AsyncioStep);
  }

  /** An arm that finds an empty ring leaves the flag set. */
  lemma ArmEmpty(s: State) returns (t: State)
    requires Reachable(s) && s.asyncio == Between && s.tail - s.head <= s.low
    ensures Reachable(t) && t == s.(pending := true, armed := true, arms := s.arms + 1)
  {
    t := Go(s, Start(Arm));
    t := Go(t, AsyncioStep);
    t := Go(t, AsyncioStep);
  }

  lemma PollToDrain(s: State) returns (t: State)
    requires Reachable(s) && s.worker == Running && !s.idle && s.head < s.tail
    ensures Reachable(t) && t == s.(worker := Peek)
  {
    t := Go(s, Callback(TimeCheckPolling));
    t := Go(t, WorkerStep);
    t := Go(t, WorkerStep);
  }

  /** A running worker pops one entry and finds the flag set and the ring at low water. */
  lemma PopToSwap(s: State) returns (t: State)
    requires Reachable(s) && s.worker == Running && !s.idle && s.pending
    requires s.head < s.tail && s.tail - s.head - 1 <= s.low
    ensures Reachable(t) && t == s.(head := s.head + 1, worker := FireSwap(false, s.tail))
  {
    t := PollToDrain(s);
    t := Go(t, WorkerStep);
    t := Go(t, WorkerStep);
    t := Go(t, WorkerStep);
    t := Go(t, WorkerStep);
  }

  lemma {:induction false} PushMany(s: State, n: nat) returns (t: State)
    requires Reachable(s) && s.asyncio == Between && s.tail - s.head + n <= s.cap
    ensures Reachable(t) && t == s.(tail := s.tail + n, unannounced := s.unannounced || n > 0)
  {
    t := s;
    if n > 0 {
      t := PushMany(s, n - 1);
      t := PushOne(t);
    }
  }

  /** "Fired at or below low water" is true of the worker's look only: for every ring, whatever
      its low water, entries published between that look and the post can fill it to the brim
      before the event goes out. */
  lemma MayPostAboveLowWater(cap: nat, low: nat)
    requires low < cap
    ensures exists s :: Reachable(s) && s.cap == cap && s.low == low && s.worker.FirePost? && s.tail - s.head == cap
  {
    var s := State(cap, low, 0, 0, false, false, false, Running, Between, false, false, false, 0, 0, 0, 0);
    Runs.InitialReachable(Init, Next, s);
    s := ArmEmpty(s);
    s := PushOne(s);
    s := PopToSwap(s);
    s := PushMany(s, cap);
    s := Go(s, WorkerStep);
  }
}

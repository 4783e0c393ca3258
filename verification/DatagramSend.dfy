/** One connection's datagram send path (datagram_buf.h, callback.h, _transport.pyx): asyncio
    commits whole records and posts a MARK, or is refused and arms the drain signal; the worker
    pops one record per prepare_datagram callback while picoquic holds the path ready. Every
    shared load, store and exchange is one step; RecordRing proves what a record looks like. */
module DatagramSend {
  import Runs

  datatype ProducerPc =
    | PIdle
    | PHead             // aiopquic_dgram_buf_push_record(len), about to load head
    | PArm              // no room: about to exchange drain_pending to 1
    | PRecheck          // about to load head again
    | PPush             // there is room: about to publish the tail
    | PMark             // about to push MARK_DATAGRAM_READY

  datatype Producer = Producer(pc: ProducerPc, len: nat)

  datatype WorkerPc =
    | KIdle
    | KPeek             // prepare_datagram: about to load the tail
    | KNone             // saw no record: about to report not_active
    | KUsed             // the head record fits: about to load the tail again
    | KProvide          // about to take a buffer and report `still`
    | KPop
    | KTake             // about to exchange drain_pending to 0
    | KPost             // about to push DATAGRAM_TX_DRAINED

  datatype Worker = Worker(pc: WorkerPc, space: nat, still: bool)

  datatype State = State(
    cap: nat, maxRecord: nat,
    records: seq<nat>,          // payload lengths in the ring, oldest first
    drain: bool,                // drain_pending
    ready: bool,                // picoquic's datagram-ready mark of the cnx
    marks: nat,                 // MARKs in the TX event ring
    owed: bool,                 // _dgram_mark_owed: a record was committed, its MARK refused
    producer: Producer, worker: Worker,
    // history
    accepted: seq<nat>, sent: seq<nat>,
    armed: bool, waiting: bool)

  datatype Step =
    | Send(len: nat)
    | Repost                    // by the next send, or on the ring-drained event; len == 0
    | ProducerStep(room: bool)  // whether the TX event ring has room
    | HandleMark
    | Prepare(space: nat)
    | WorkerStep

  const HDR: nat := 4

  predicate Init(s: State) {
    && 0 < s.maxRecord && HDR + s.maxRecord <= s.cap
    && s.records == s.accepted == s.sent == [] && s.marks == 0
    && !s.drain && !s.ready && !s.owed && !s.armed && !s.waiting
    && s.producer.pc == PIdle && s.worker.pc == KIdle
  }

  predicate Enabled(s: State, step: Step) {
    match step
    case Send(len) => s.producer.pc == PIdle && len > 0     // an empty payload raises ValueError
    case Repost => s.producer.pc == PIdle && s.owed
    case ProducerStep(_) => s.producer.pc != PIdle
    case HandleMark => s.worker.pc == KIdle && s.marks > 0
    case Prepare(_) => s.worker.pc == KIdle && s.ready
    case WorkerStep => s.worker.pc != KIdle
  }

  function Used(records: seq<nat>): nat {
    if records == [] then 0 else HDR + records[0] + Used(records[1..])
  }

  predicate Fits(s: State) { Used(s.records) + HDR + s.producer.len <= s.cap }

  predicate SeekingRoom(pc: ProducerPc) { pc == PHead || pc == PArm || pc == PRecheck }

  function RoomStep(s: State): State
    requires SeekingRoom(s.producer.pc)
  {
    match s.producer.pc
    case PHead => s.(producer := s.producer.(pc := if Fits(s) then PPush else PArm))
    case PArm => s.(drain := true, armed := true, producer := s.producer.(pc := PRecheck))
    case PRecheck =>                                               // PIdle: returns 0
      s.(producer := s.producer.(pc := if Fits(s) then PPush else PIdle),
         waiting := s.waiting || (s.armed && !Fits(s)))
  }

  function CommitStep(s: State, room: bool): State
    requires s.producer.pc == PPush || s.producer.pc == PMark
  {
    match s.producer.pc
    case PPush =>
      s.(records := s.records + [s.producer.len], accepted := s.accepted + [s.producer.len],
         producer := s.producer.(pc := PMark))
    case PMark =>                                                  // returns 1, or 2 with the MARK owed
      s.(marks := if room then s.marks + 1 else s.marks, owed := !room || (s.owed && s.producer.len > 0),
         producer := s.producer.(pc := PIdle))
  }

  predicate Looking(pc: WorkerPc) { pc == KPeek || pc == KNone || pc == KUsed || pc == KProvide }

  /** prepare_datagram up to picoquic_provide_datagram_buffer_ex. */
  function LookStep(s: State): State
    requires Looking(s.worker.pc)
  {
    match s.worker.pc
    case KPeek =>                                                  // KIdle: the head record waits for a roomier packet
      s.(worker := s.worker.(pc := if s.records == [] then KNone
                                   else if s.records[0] <= s.worker.space then KUsed else KIdle))
    case KNone => s.(ready := false, worker := s.worker.(pc := KIdle))
    case KUsed =>
      s.(worker := s.worker.(pc := KProvide,
                             still := s.records != [] && Used(s.records) > HDR + s.records[0]))
    case KProvide => s.(ready := s.worker.still, worker := s.worker.(pc := KPop))
  }

  function PopStep(s: State): State
    requires s.worker.pc == KPop || s.worker.pc == KTake || s.worker.pc == KPost
  {
    match s.worker.pc
    case KPop =>
      s.(records := if s.records == [] then [] else s.records[1..],
         sent := if s.records == [] then s.sent else s.sent + [s.records[0]],
         worker := s.worker.(pc := KTake))
    case KTake => s.(drain := false, worker := s.worker.(pc := if s.drain then KPost else KIdle))
    case KPost => s.(armed := false, waiting := false, worker := s.worker.(pc := KIdle))
  }

  function Apply(s: State, step: Step): State
    requires Enabled(s, step)
  {
    match step
    case Send(len) => if len > s.maxRecord then s else s.(producer := Producer(PHead, len))   // -1
    case Repost => s.(producer := Producer(PMark, 0))
    case ProducerStep(room) => if SeekingRoom(s.producer.pc) then RoomStep(s) else CommitStep(s, room)
    case HandleMark => s.(marks := s.marks - 1, ready := true)
    case Prepare(space) => s.(worker := Worker(KPeek, space, false))
    case WorkerStep => if Looking(s.worker.pc) then LookStep(s) else PopStep(s)
  }

  ghost predicate Takes(s: State, step: Step, t: State) {
    Enabled(s, step) && t == Apply(s, step)
  }

  ghost predicate Next(s: State, t: State) {
    exists step :: Takes(s, step, t)
  }

  ghost predicate Reachable(s: State) {
    Runs.Reachable(Init, Next, s)
  }

  // ---- the inductive invariant ---------------------------------------------------------------

  lemma {:induction false} UsedAppend(records: seq<nat>, n: nat)
    ensures Used(records + [n]) == Used(records) + HDR + n
    decreases |records|
  {
    if records == [] {
    } else {
      assert (records + [n])[1..] == records[1..] + [n];
      UsedAppend(records[1..], n);
    }
  }

  /** The ring holds more than its head record exactly if it holds more bytes. */
  lemma UsedBeyondHead(records: seq<nat>)
    requires records != []
    ensures Used(records) > HDR + records[0] <==> |records| > 1
  {
  }

  /** A MARK is queued, owed, or about to be pushed. */
  predicate Marked(s: State) { s.marks > 0 || s.owed || s.producer.pc == PMark }

  predicate Settled(pc: WorkerPc) { pc == KIdle || pc == KPeek || pc == KTake || pc == KPost }

  predicate AtHead(pc: WorkerPc) { pc == KUsed || pc == KProvide || pc == KPop }

  ghost predicate RingInv(s: State) {
    && HDR + s.maxRecord <= s.cap
    && (SeekingRoom(s.producer.pc) || s.producer.pc == PPush ==> 0 < s.producer.len <= s.maxRecord)
    && Used(s.records) <= s.cap
    && (s.producer.pc == PPush ==> Fits(s))
    && s.accepted == s.sent + s.records
    && (AtHead(s.worker.pc) ==> s.records != [])
  }

  ghost predicate DrainInv(s: State) {
    && (s.waiting ==> s.armed)
    && (s.armed ==> s.drain || s.worker.pc == KPost)
    && (s.waiting && s.worker.pc != KTake && s.worker.pc != KPost ==> s.records != [])
  }

  ghost predicate ReadyInv(s: State) {
    && (s.records != [] && Settled(s.worker.pc) ==> s.ready || Marked(s))
    && (s.records != [] && s.worker.pc == KNone ==> Marked(s))
    && (|s.records| > 1 && s.worker.pc == KProvide ==> s.worker.still || Marked(s))
    && (|s.records| > 1 && s.worker.pc == KPop ==> s.ready || Marked(s))
  }

  ghost predicate Inv(s: State) { RingInv(s) && DrainInv(s) && ReadyInv(s) }

  lemma RoomKeepsInv(s: State)
    requires Inv(s) && SeekingRoom(s.producer.pc)
    ensures Inv(RoomStep(s))
  {
  }

  lemma CommitKeepsInv(s: State, room: bool)
    requires Inv(s) && (s.producer.pc == PPush || s.producer.pc == PMark)
    ensures Inv(CommitStep(s, room))
  {
    UsedAppend(s.records, s.producer.len);
  }

  lemma LookKeepsInv(s: State)
    requires Inv(s) && Looking(s.worker.pc)
    ensures Inv(LookStep(s))
  {
    if s.worker.pc == KUsed { UsedBeyondHead(s.records); }
  }

  lemma PopKeepsInv(s: State)
    requires Inv(s) && (s.worker.pc == KPop || s.worker.pc == KTake || s.worker.pc == KPost)
    ensures Inv(PopStep(s))
  {
    if s.worker.pc == KPop { assert s.records == [s.records[0]] + s.records[1..]; }
  }

  lemma StepKeepsInv(s: State, step: Step)
    requires Inv(s) && Enabled(s, step)
    ensures Inv(Apply(s, step))
  {
    if step.ProducerStep? {
      if SeekingRoom(s.producer.pc) { RoomKeepsInv(s); } else { CommitKeepsInv(s, step.room); }
    } else if step.WorkerStep? {
      if Looking(s.worker.pc) { LookKeepsInv(s); } else { PopKeepsInv(s); }
    }
  }

  lemma ReachableInv(s: State)
    requires Reachable(s)
    ensures Inv(s)
  {
    forall s, t | Inv(s) && Next(s, t) ensures Inv(t) {
      var step :| Takes(s, step, t);
      StepKeepsInv(s, step);
    }
    Runs.InvariantHolds(Init, Next, Inv, s);
  }

  // ---- what the source promises --------------------------------------------------------------

  /** A refused sender is never forgotten: its event is about to be posted, or the flag is set
      and a record is there to pop (or was just popped). A refusal commits nothing: what was
      accepted is, in order, what was sent and what is queued. */
  lemma RefusedSenderKept(s: State)
    requires Reachable(s)
    ensures s.waiting ==> s.worker.pc == KPost || (s.drain && (s.records != [] || s.worker.pc == KTake))
    ensures s.accepted == s.sent + s.records && Used(s.records) <= s.cap
  {
    ReachableInv(s);
  }

  /** No committed record is left behind: with both threads between calls, a queued record finds
      picoquic ready to ask for it, or a MARK queued or owed that will make it so. */
  lemma RecordIsScheduled(s: State)
    requires Reachable(s) && s.producer.pc == PIdle && s.worker.pc == KIdle && s.records != []
    ensures s.ready || s.marks > 0 || s.owed
  {
    ReachableInv(s);
  }

  /** The worker pops only where a record is. */
  lemma PopFindsRecord(s: State)
    requires Reachable(s) && AtHead(s.worker.pc)
    ensures s.records != []
  {
    ReachableInv(s);
  }
}

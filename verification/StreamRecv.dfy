/** One stream's receive side (callback.h, stream_ctx.h, _transport.pyx): the worker copies bytes
    into the RX byte ring and announces them with at most one outstanding STREAM_DATA event, or
    with the STREAM_FIN event that ends the stream; the drain takes the announcement down before it
    pops. Events travel through the FIFO channel RxChannel proves. Every shared load, store and
    exchange is one step. */
module StreamRecv {
  import opened Events
  import Runs

  datatype Event = Data | Fin

  datatype WorkerPc =
    | KIdle
    | KPush             // about to publish the callback's bytes
    | KArm              // about to exchange rx_event_pending to 1
    | KEvent            // about to push the event

  datatype Worker = Worker(pc: WorkerPc, bytes: seq<Byte>, fin: bool)

  datatype ConsumerPc =
    | CIdle
    | CClear            // holds an event: about to exchange rx_event_pending to 0
    | CLoad             // about to load the tail
    | CTake             // about to pop n bytes and deliver them

  datatype Consumer = Consumer(pc: ConsumerPc, event: Event, n: nat)

  datatype State = State(
    cap: nat,
    rx: seq<Byte>, pending: bool,
    queue: seq<Event>,
    worker: Worker, consumer: Consumer,
    broken: bool,                        // the peer overran the ring: the cnx closes with an error
    // history
    arrived: seq<Byte>, ended: bool,     // what picoquic has handed over
    finQueued: bool,                     // the STREAM_FIN event is in the queue
    output: seq<Byte>, eos: bool)        // what the application has been given

  datatype Step = Callback(bytes: seq<Byte>, fin: bool) | WorkerStep | TakeEvent | ConsumerStep

  predicate Init(s: State) {
    && s.rx == s.arrived == s.output == [] && s.queue == []
    && !s.pending && !s.broken && !s.ended && !s.finQueued && !s.eos
    && s.worker.pc == KIdle && s.consumer.pc == CIdle
  }

  predicate Enabled(s: State, step: Step) {
    match step
    case Callback(bytes, fin) =>         // picoquic hands over bytes or an end, and nothing after the end
      s.worker.pc == KIdle && !s.ended && !s.broken && (bytes != [] || fin)
    case WorkerStep => s.worker.pc != KIdle
    case TakeEvent => s.consumer.pc == CIdle && s.queue != []
    case ConsumerStep => s.consumer.pc != CIdle
  }

  function Min(a: nat, b: nat): nat { if a < b then a else b }

  /** What aiopquic_stream_buf_push accepts. */
  function Accepted(s: State): seq<Byte> {
    s.worker.bytes[..Min(|s.worker.bytes|, if s.cap > |s.rx| then s.cap - |s.rx| else 0)]
  }

  /** The stream_data / stream_fin callback; a FIN without bytes goes straight to its event. */
  function WorkerStepOf(s: State): State
    requires s.worker.pc != KIdle
  {
    match s.worker.pc
    case KPush =>
      s.(rx := s.rx + Accepted(s), arrived := s.arrived + Accepted(s),
         broken := |Accepted(s)| < |s.worker.bytes|,
         worker := s.worker.(pc := if |Accepted(s)| < |s.worker.bytes| then KIdle
                                   else if s.worker.fin then KEvent else KArm))
    case KArm => s.(pending := true, worker := s.worker.(pc := if s.pending then KIdle else KEvent))
    case KEvent =>
      s.(queue := s.queue + [if s.worker.fin then Fin else Data],
         finQueued := s.finQueued || s.worker.fin, worker := s.worker.(pc := KIdle))
  }

  /** One event in drain_rx. */
  function ConsumerStepOf(s: State): State
    requires s.consumer.pc != CIdle
  {
    match s.consumer.pc
    case CClear => s.(pending := false, consumer := s.consumer.(pc := CLoad))
    case CLoad => s.(consumer := s.consumer.(pc := CTake, n := |s.rx|))
    case CTake =>
      s.(rx := s.rx[Min(s.consumer.n, |s.rx|)..], output := s.output + s.rx[..Min(s.consumer.n, |s.rx|)],
         eos := s.eos || s.consumer.event == Fin, consumer := s.consumer.(pc := CIdle))
  }

  function Apply(s: State, step: Step): State
    requires Enabled(s, step)
  {
    match step
    case Callback(bytes, fin) =>
      s.(ended := fin, worker := Worker(if bytes == [] then KEvent else KPush, bytes, fin))
    case WorkerStep => WorkerStepOf(s)
    case TakeEvent =>
      s.(queue := s.queue[1..], finQueued := s.finQueued && s.queue[0] != Fin,
         consumer := Consumer(CClear, s.queue[0], 0))
    case ConsumerStep => ConsumerStepOf(s)
  }

  ghost predicate Takes(s: State, step: Step, t: State) {
    Enabled(s, step) && t == Apply(s, step)
  }

  ghost predicate Next(s: State, t: State) {
    exists step :: Takes(s, step, t)
  }

  ghost predicate Reachable(s: State) {
    Runs.Reachable(Init, Next, s)
  }

  // ---- the inductive invariant ---------------------------------------------------------------

  /** The armed announcement is in the queue, not still with the worker nor already with the drain. */
  predicate DataQueued(s: State) {
    && s.pending
    && !(s.worker.pc == KEvent && !s.worker.fin)
    && !(s.consumer.pc == CClear && s.consumer.event == Data)
  }

  function Queue(data: bool, fin: bool): seq<Event> {
    (if data then [Data] else []) + (if fin then [Fin] else [])
  }

  /** The worker has published bytes and is about to announce them. */
  predicate Announcing(s: State) { s.worker.pc == KArm || s.worker.pc == KEvent }

  ghost predicate EventInv(s: State) {
    && s.queue == Queue(DataQueued(s), s.finQueued)
    && (s.worker.pc == KEvent && !s.worker.fin ==> s.pending)
    && (s.consumer.pc == CClear && s.consumer.event == Data ==> s.pending)
    && !(s.worker.pc == KEvent && !s.worker.fin && s.consumer.pc == CClear && s.consumer.event == Data)
    && (s.worker.pc == KEvent && s.worker.fin ==> s.ended && !s.finQueued)
    && (s.worker.pc != KIdle && !s.worker.fin ==> !s.ended)
    && (s.worker.pc == KArm ==> !s.worker.fin)
    && (s.worker.pc == KPush ==> s.worker.fin == s.ended)
    && (s.ended && s.worker.pc != KIdle ==> !s.finQueued && !FinTaken(s))
    && (s.finQueued || FinTaken(s) ==> s.ended && s.worker.pc == KIdle)
    && !(s.finQueued && FinTaken(s))
    && (s.consumer.pc != CIdle && s.consumer.event == Fin ==> !s.pending && !s.eos)
    && (s.eos ==> !s.pending)
  }

  /** The drain holds the STREAM_FIN event, or has finished with it. */
  predicate FinTaken(s: State) { s.eos || (s.consumer.pc != CIdle && s.consumer.event == Fin) }

  ghost predicate BytesInv(s: State) {
    && s.arrived == s.output + s.rx
    && |s.rx| <= s.cap
    && (s.consumer.pc == CTake ==> s.consumer.n <= |s.rx|)
    && (FinTaken(s) && s.consumer.pc == CTake ==> s.consumer.n == |s.rx|)
    && (s.eos ==> s.rx == [])
  }

  /** Bytes no drain in progress will pop have an event queued or about to be pushed. */
  ghost predicate AnnounceInv(s: State) {
    && (s.consumer.pc == CIdle && s.rx != [] && !s.broken ==> s.queue != [] || Announcing(s))
    && (s.consumer.pc == CTake && |s.rx| > s.consumer.n && !s.broken ==> s.queue != [] || Announcing(s))
  }

  ghost predicate Inv(s: State) { EventInv(s) && BytesInv(s) && AnnounceInv(s) }

  lemma WorkerKeepsEvent(s: State)
    requires Inv(s) && s.worker.pc != KIdle
    ensures EventInv(WorkerStepOf(s))
  {
  }

  lemma WorkerKeepsBytes(s: State)
    requires Inv(s) && s.worker.pc != KIdle
    ensures BytesInv(WorkerStepOf(s))
  {
  }

  lemma WorkerKeepsAnnounce(s: State)
    requires Inv(s) && s.worker.pc != KIdle
    ensures AnnounceInv(WorkerStepOf(s))
  {
  }

  lemma ConsumerKeepsEvent(s: State)
    requires Inv(s) && s.consumer.pc != CIdle
    ensures EventInv(ConsumerStepOf(s))
  {
  }

  lemma ConsumerKeepsBytes(s: State)
    requires Inv(s) && s.consumer.pc != CIdle
    ensures BytesInv(ConsumerStepOf(s))
  {
  }

  lemma ConsumerKeepsAnnounce(s: State)
    requires Inv(s) && s.consumer.pc != CIdle
    ensures AnnounceInv(ConsumerStepOf(s))
  {
  }

  lemma StartKeepsInv(s: State, step: Step)
    requires Inv(s) && Enabled(s, step) && (step.Callback? || step.TakeEvent?)
    ensures Inv(Apply(s, step))
  {
  }

  lemma StepKeepsInv(s: State, step: Step)
    requires Inv(s) && Enabled(s, step)
    ensures Inv(Apply(s, step))
  {
    if step.WorkerStep? {
      WorkerKeepsEvent(s); WorkerKeepsBytes(s); WorkerKeepsAnnounce(s);
    } else if step.ConsumerStep? {
      ConsumerKeepsEvent(s); ConsumerKeepsBytes(s); ConsumerKeepsAnnounce(s);
    } else {
      StartKeepsInv(s, step);
    }
  }

  lemma ReachableInv(s: State)
    requires Reachable(s)
    ensures Inv(s)
  {
    forall s, t | Inv(s) && Next(s, t) ensures Inv(t) {
      var step :| Takes(s, step, t);
      StepKeepsInv(s, step);
    }
    Runs.InvariantHolds(Init, Next, Inv, s);
  }

  // ---- what the source promises --------------------------------------------------------------

  /** The application has been given a prefix of what arrived, in order and each byte once; end
      of stream is reported only behind the last byte. */
  lemma DeliversInOrder(s: State)
    requires Reachable(s)
    ensures s.arrived == s.output + s.rx
    ensures s.eos ==> s.ended && s.output == s.arrived && s.queue == []
  {
    ReachableInv(s);
  }

  /** No stranded byte: while both sides are between steps, bytes in the ring have an event in
      the queue, unless the cnx is closing on an overrun. */
  lemma NoStrandedBytes(s: State)
    requires Reachable(s) && s.worker.pc == KIdle && s.consumer.pc == CIdle && s.rx != []
    ensures s.queue != [] || s.broken
  {
    ReachableInv(s);
  }

  /** At most one STREAM_DATA event is outstanding, and STREAM_FIN is the last event. */
  lemma OneEventOutstanding(s: State)
    requires Reachable(s)
    ensures s.queue == [] || s.queue == [Data] || s.queue == [Fin] || s.queue == [Data, Fin]
    ensures s.worker.pc == KEvent && !s.worker.fin ==> Data !in s.queue
    ensures s.finQueued || s.eos ==> s.worker.pc == KIdle
  {
    ReachableInv(s);
  }
}

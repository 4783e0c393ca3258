/** One stream's send side (stream_ctx.h, callback.h): asyncio writes into the TX byte ring or is
    refused and arms the drain signal; the worker marks the stream active, pulls, signals FIN, takes
    the drain signal, holds or sends a reset, and abandons what a reset leaves behind. Positions in the stream stand
    for the bytes, whose order ByteRing proves. Every shared load, store and exchange is one
    step. */
module StreamSend {
  import Runs

  /** Where asyncio stands inside aiopquic_stream_ctx_send_data(len, fin). */
  datatype WriterPc =
    | WIdle
    | WHead             // about to load head
    | WArm              // no room: about to exchange tx_drain_pending to 1
    | WRecheck          // about to load head again
    | WPush             // there is room: about to publish tail + len
    | WFin              // about to set FIN
    | WCount            // about to add len to the pushed total
    | WMark             // tx_send_atomic: about to push MARK_ACTIVE, for which room was kept

  datatype Writer = Writer(pc: WriterPc, len: nat, fin: bool)

  /** Where the worker stands. */
  datatype WorkerPc =
    | KIdle
    | KFin              // prepare_to_send: about to load FIN
    | KTail             // about to load tail and provide at most n bytes
    | KPop              // n bytes provided: about to store head + n
    | KCount            // about to add n to the pulled total
    | KTake             // about to exchange tx_drain_pending to 0
    | KPost             // about to push STREAM_TX_DRAINED
    | KAbandon          // a reset went out: about to load tail
    | KDiscard          // about to add n - head to the discarded total
    | KSkip             // about to store head = n
    | KUnref            // about to drop the held reset and its reference

  datatype Worker = Worker(pc: WorkerPc, n: nat, fin: bool, unref: bool)

  /** What the run has done so far; no step depends on it. */
  datatype History = History(
    accepted: nat,          // sum of the writes that returned 1
    armed: bool,            // an arm was stored and no event was posted since
    waiting: bool,          // such an arm was followed by a refusal
    finEnd: nat,            // the tail when FIN was first set
    finSent: bool,          // FIN was given to picoquic,
    finAt: nat,             //   last at this stream offset
    finMark: bool,          // finSent when the held reset was deferred
    promise: nat,           // min(requested, written) of the last deferral
    kept: bool,             // a held reset went out
    keptAt: nat,            //   with head here
    keptPromise: nat)       //   and this promise

  datatype State = State(
    cap: nat, head: nat, tail: nat, fin: bool, drain: bool,
    held: bool, reliable: nat,           // tx_reset_pending, tx_reliable_size
    detached: bool,                      // picoquic pulls no more: a reset went out, or the cnx closes
    refs: nat,                           // references owned by held resets
    freed: bool,
    active: bool,                        // picoquic will ask this stream for data
    marks: nat,                          // its MARK_ACTIVE commands in the TX event ring
    pushed: nat, pulled: nat, discarded: nat,
    writer: Writer, worker: Worker, history: History)

  datatype Step =
    | Send(len: nat, fin: bool)
    | WriterStep
    | Mark(closing: bool)
    | Prepare(want: nat)
    | Reset(requested: nat, negotiated: bool, attached: bool)
    | RunHeld(alive: bool, closing: bool, attached: bool)
    | Close
    | WorkerStep
    | Free

  const IDLE := Worker(KIdle, 0, false, false)

  predicate Init(s: State) {
    && s.head == s.tail == s.reliable == s.refs == s.marks == s.pushed == s.pulled == s.discarded == 0
    && !s.fin && !s.drain && !s.held && !s.detached && !s.freed && !s.active
    && s.writer.pc == WIdle && s.worker == IDLE
    && s.history == History(0, false, false, 0, false, 0, false, 0, false, 0, 0)
  }

  predicate Enabled(s: State, step: Step) {
    && !s.freed
    && match step
       case Send(_, _) => s.writer.pc == WIdle
       case WriterStep => s.writer.pc != WIdle
       case Mark(_) => s.worker.pc == KIdle && s.marks > 0
       case Prepare(_) =>                // picoquic asks active streams, and none behind its FIN
         s.worker.pc == KIdle && s.active && !s.detached && !s.history.finSent
       case Reset(_, _, _) => s.worker.pc == KIdle
       case RunHeld(_, _, _) => s.worker.pc == KIdle && s.held
       case Close => s.worker.pc == KIdle
       case WorkerStep => s.worker.pc != KIdle
       case Free =>                      // a queued MARK_ACTIVE holds a reference too
         s.writer.pc == WIdle && s.worker.pc == KIdle && s.refs == 0 && s.marks == 0
  }

  function Min(a: nat, b: nat): nat { if a < b then a else b }

  /** Returns -2 at once for a write no ring of this size can take. */
  function SendStep(s: State, len: nat, fin: bool): State {
    if len > s.cap then s
    else s.(writer := Writer(if len > 0 then WHead else if fin then WFin else WCount, len, fin))
  }

  function Fits(s: State): bool { s.tail + s.writer.len <= s.head + s.cap }

  predicate SeekingRoom(pc: WriterPc) { pc == WHead || pc == WArm || pc == WRecheck }

  /** The room check of aiopquic_stream_ctx_send_data, with the arm and the re-check. */
  function RoomStep(s: State): State
    requires SeekingRoom(s.writer.pc)
  {
    match s.writer.pc
    case WHead => s.(writer := s.writer.(pc := if Fits(s) then WPush else WArm))
    case WArm => s.(drain := true, writer := s.writer.(pc := WRecheck), history := s.history.(armed := true))
    case WRecheck =>                                                    // WIdle: returns 0
      s.(writer := s.writer.(pc := if Fits(s) then WPush else WIdle),
         history := s.history.(waiting := s.history.waiting || (s.history.armed && !Fits(s))))
  }

  /** The push that fits, FIN behind it, the pushed total, and MARK_ACTIVE behind all of them. */
  function PublishStep(s: State): State
    requires !SeekingRoom(s.writer.pc) && s.writer.pc != WIdle
  {
    match s.writer.pc
    case WPush =>
      s.(tail := s.tail + s.writer.len, writer := s.writer.(pc := if s.writer.fin then WFin else WCount))
    case WFin =>
      s.(fin := true, writer := s.writer.(pc := WCount),
         history := s.history.(finEnd := if s.fin then s.history.finEnd else s.tail))
    case WCount =>
      s.(pushed := s.pushed + s.writer.len, writer := s.writer.(pc := WMark),
         history := s.history.(accepted := s.history.accepted + s.writer.len))
    case WMark => s.(marks := s.marks + 1, writer := s.writer.(pc := WIdle))    // returns 0, sent
  }

  predicate Providing(pc: WorkerPc) { pc == KFin || pc == KTail }

  predicate Popping(pc: WorkerPc) { pc == KPop || pc == KCount }

  predicate Signalling(pc: WorkerPc) { pc == KTake || pc == KPost }

  predicate Abandoning(pc: WorkerPc) { pc == KAbandon || pc == KDiscard || pc == KSkip }

  function Ahead(a: nat, b: nat): nat { if a > b then a - b else 0 }

  /** aiopquic_stream_ctx_tx_sendable. */
  function Sendable(s: State, avail: nat): nat {
    if s.held then Min(Ahead(s.reliable, s.head), avail) else avail
  }

  function ToSend(s: State): nat { Min(Sendable(s, Ahead(s.tail, s.head)), s.worker.n) }

  predicate SignalsFin(s: State) { s.worker.fin && !s.held && ToSend(s) == Ahead(s.tail, s.head) }

  /** The prepare_to_send callback up to picoquic_provide_stream_data_buffer: FIN is loaded before
      the tail. */
  function ProvideStep(s: State): State
    requires Providing(s.worker.pc)
  {
    match s.worker.pc
    case KFin => s.(worker := s.worker.(pc := KTail, fin := s.fin))
    case KTail =>
      s.(worker := s.worker.(pc := if ToSend(s) > 0 then KPop else KTake, n := ToSend(s)),
         active := Sendable(s, Ahead(s.tail, s.head)) > ToSend(s),
         history := if !SignalsFin(s) then s.history
                    else s.history.(finSent := true, finAt := s.head + ToSend(s)))
  }

  /** The copy out of the ring and the pulled total. */
  function PopStep(s: State): State
    requires Popping(s.worker.pc)
  {
    match s.worker.pc
    case KPop => s.(head := s.head + s.worker.n, worker := s.worker.(pc := KCount))
    case KCount => s.(pulled := s.pulled + s.worker.n, worker := s.worker.(pc := KTake))
  }

  /** aiopquic_stream_ctx_tx_drain_take and the event. */
  function SignalStep(s: State): State
    requires Signalling(s.worker.pc)
  {
    match s.worker.pc
    case KTake => s.(drain := false, worker := s.worker.(pc := if s.drain then KPost else KIdle))
    case KPost => s.(worker := s.worker.(pc := KIdle), history := s.history.(armed := false, waiting := false))
  }

  /** aiopquic_stream_ctx_tx_abandon. */
  function AbandonStep(s: State): State
    requires Abandoning(s.worker.pc)
  {
    match s.worker.pc
    case KAbandon =>
      s.(worker := s.worker.(pc := if s.tail > s.head then KDiscard else AfterAbandon(s), n := s.tail))
    case KDiscard =>
      s.(discarded := s.discarded + Ahead(s.worker.n, s.head), worker := s.worker.(pc := KSkip))
    case KSkip => s.(head := s.worker.n, worker := s.worker.(pc := AfterAbandon(s)))
  }

  function AfterAbandon(s: State): WorkerPc { if s.worker.unref then KUnref else KIdle }

  /** aiopquic_deferred_reset_free. */
  function UnrefStep(s: State): State {
    s.(held := false, refs := if s.refs > 0 then s.refs - 1 else 0, worker := IDLE)
  }

  /** aiopquic_reset_reliable_size. */
  function ReliableSize(s: State, requested: nat, negotiated: bool): nat {
    if negotiated then Min(requested, s.tail) else 0
  }

  /** SPSC_EVT_TX_STREAM_RESET on a stream that can send: already resetting, held until its
      reliable bytes are out, or sent now. */
  function ResetStep(s: State, requested: nat, negotiated: bool, attached: bool): State {
    var keep := ReliableSize(s, requested, negotiated);
    if s.held then s
    else if keep > s.head then
      s.(held := true, reliable := keep, refs := s.refs + 1,
         history := s.history.(promise := Min(requested, s.tail), finMark := s.history.finSent))
    else s.(detached := true, worker := if attached then Worker(KAbandon, 0, false, false) else IDLE)
  }

  /** One element of aiopquic_run_deferred_resets. */
  function HeldStep(s: State, alive: bool, closing: bool, attached: bool): State {
    if alive && s.head < s.reliable then s
    else if alive && !closing then
      s.(held := false, detached := true, worker := Worker(if attached then KAbandon else KUnref, 0, false, true),
         history := s.history.(kept := true, keptAt := s.head, keptPromise := s.history.promise))
    else s.(detached := true, worker := Worker(KUnref, 0, false, true))
  }

  /** SPSC_EVT_TX_MARK_ACTIVE: a closing cnx, which pulls no more, gets no mark. */
  function MarkStep(s: State, closing: bool): State
    requires s.marks > 0
  {
    if closing then s.(marks := s.marks - 1, detached := true) else s.(marks := s.marks - 1, active := true)
  }

  /** The cnx closes: aiopquic_deferred_resets_drop_cnx. */
  function CloseStep(s: State): State {
    s.(detached := true, worker := if s.held then Worker(KUnref, 0, false, true) else IDLE)
  }

  /** The last reference goes: aiopquic_stream_ctx_destroy credits what is left. */
  function FreeStep(s: State): State {
    s.(discarded := s.discarded + Ahead(s.tail, s.head), freed := true)
  }

  function KStep(s: State): State
    requires s.worker.pc != KIdle
  {
    if Providing(s.worker.pc) then ProvideStep(s)
    else if Popping(s.worker.pc) then PopStep(s)
    else if Signalling(s.worker.pc) then SignalStep(s)
    else if Abandoning(s.worker.pc) then AbandonStep(s)
    else UnrefStep(s)
  }

  function Apply(s: State, step: Step): State
    requires Enabled(s, step)
  {
    match step
    case Send(len, fin) => SendStep(s, len, fin)
    case WriterStep => if SeekingRoom(s.writer.pc) then RoomStep(s) else PublishStep(s)
    case Mark(closing) => MarkStep(s, closing)
    case Prepare(want) => s.(worker := Worker(KFin, want, false, false))
    case Reset(requested, negotiated, attached) => ResetStep(s, requested, negotiated, attached)
    case RunHeld(alive, closing, attached) => HeldStep(s, alive, closing, attached)
    case Close => CloseStep(s)
    case WorkerStep => KStep(s)
    case Free => FreeStep(s)
  }

  ghost predicate Takes(s: State, step: Step, t: State) {
    Enabled(s, step) && t == Apply(s, step)
  }

  ghost predicate Next(s: State, t: State) {
    exists step :: Takes(s, step, t)
  }

  ghost predicate Reachable(s: State) {
    Runs.Reachable(Init, Next, s)
  }

  // ---- the inductive invariant ---------------------------------------------------------------

  predicate Counting(pc: WriterPc) { pc == WFin || pc == WCount }

  /** Bytes in the ring of a stream that still has one. */
  function Live(s: State): int { if s.freed then 0 else s.tail - s.head }

  ghost predicate RingInv(s: State) {
    && s.head <= s.tail <= s.head + s.cap
    && (s.writer.pc == WPush ==> Fits(s))
    && (SeekingRoom(s.writer.pc) ==> 0 < s.writer.len <= s.cap)
    && (s.worker.pc == KPop ==> 0 < s.worker.n && s.head + s.worker.n <= s.tail)
    && (s.worker.pc == KDiscard || s.worker.pc == KSkip ==> s.head < s.worker.n <= s.tail)
    && (Counting(s.writer.pc) ==> s.tail == s.history.accepted + s.writer.len)
    && (!Counting(s.writer.pc) ==> s.tail == s.history.accepted)
  }

  /** Every byte below head has been counted as pulled or as discarded, but for the step between
      the count and the store. */
  ghost predicate TotalsInv(s: State) {
    && s.pushed == s.history.accepted
    && (s.freed ==> s.worker.pc == KIdle && s.writer.pc == WIdle)
    && (s.freed ==> s.pulled + s.discarded == s.tail)
    && (!s.freed && s.worker.pc == KCount ==> s.pulled + s.worker.n + s.discarded == s.head)
    && (!s.freed && s.worker.pc == KSkip ==> s.pulled + s.discarded == s.worker.n)
    && (!s.freed && s.worker.pc != KCount && s.worker.pc != KSkip ==> s.pulled + s.discarded == s.head)
  }

  /** The worker is between a pop and the look at the drain signal behind it. */
  predicate BeforeSignal(pc: WorkerPc) { pc == KCount || Signalling(pc) }

  ghost predicate DrainInv(s: State) {
    && (s.history.waiting ==> s.history.armed && 0 < s.cap)
    && (s.history.armed ==> s.drain || s.worker.pc == KPost)
    && (s.history.waiting && !s.detached && !BeforeSignal(s.worker.pc) ==> s.head < s.tail)
    && (Abandoning(s.worker.pc) ==> s.detached)
  }

  ghost predicate FinInv(s: State) {
    && (s.fin ==> s.history.finEnd <= s.tail)
    && (s.worker.pc == KTail && s.worker.fin ==> s.fin)
    && (s.history.finSent ==> s.fin && s.history.finEnd <= s.history.finAt <= s.tail)
  }

  predicate HeldEnding(k: Worker) { k.pc == KUnref || (Abandoning(k.pc) && k.unref) }

  ghost predicate HeldInv(s: State) {
    && (s.held ==> !Abandoning(s.worker.pc))
    && (s.held || HeldEnding(s.worker) ==> s.refs == 1)
    && (!s.held && !HeldEnding(s.worker) ==> s.refs == 0)
    && (s.held ==> s.head <= s.reliable && s.history.promise == s.reliable)
    && (s.held ==> s.history.finSent == s.history.finMark)
    && (s.held && s.worker.pc == KPop ==> s.head + s.worker.n <= s.reliable)
    && (s.history.kept ==> s.history.keptAt == s.history.keptPromise)
  }

  ghost predicate Inv(s: State) {
    RingInv(s) && TotalsInv(s) && DrainInv(s) && FinInv(s) && HeldInv(s)
  }

  /** A MARK_ACTIVE is queued, or the writer is still before its push. */
  predicate Marked(s: State) { s.marks > 0 || Counting(s.writer.pc) || s.writer.pc == WMark }

  /** Bytes picoquic may be given that are not on their way to it. */
  function Unprovided(s: State): int {
    Sendable(s, Ahead(s.tail, s.head)) - if s.worker.pc == KPop then s.worker.n else 0
  }

  /** Bytes or a FIN for picoquic to fetch. */
  predicate Owing(s: State) { Unprovided(s) > 0 || (s.fin && !s.held) }

  /** A stream picoquic still serves. */
  predicate Served(s: State) { !s.freed && !s.detached && !s.history.finSent }

  ghost predicate MarkInv(s: State) {
    && (Served(s) && Owing(s) ==> s.active || Marked(s))
    && (Served(s) && s.worker.pc == KTail && s.fin && !s.worker.fin ==> Marked(s))
    && (s.worker.pc == KUnref || Abandoning(s.worker.pc) ==> s.detached)
  }

  lemma RoomKeepsRing(s: State)
    requires RingInv(s) && SeekingRoom(s.writer.pc)
    ensures RingInv(RoomStep(s))
  {
    match s.writer.pc
    case WHead =>
    case WArm =>
    case WRecheck =>
  }

  lemma RoomKeepsTotals(s: State)
    requires RingInv(s) && TotalsInv(s) && !s.freed && SeekingRoom(s.writer.pc)
    ensures TotalsInv(RoomStep(s))
  {
    match s.writer.pc
    case WHead =>
    case WArm =>
    case WRecheck =>
  }

  lemma RoomKeepsSignals(s: State)
    requires Inv(s) && SeekingRoom(s.writer.pc)
    ensures DrainInv(RoomStep(s)) && FinInv(RoomStep(s)) && HeldInv(RoomStep(s))
  {
  }

  lemma PushKeepsRing(s: State)
    requires RingInv(s) && s.writer.pc == WPush
    ensures RingInv(PublishStep(s))
  {
  }

  lemma CountKeepsRing(s: State)
    requires RingInv(s) && s.writer.pc == WCount
    ensures RingInv(PublishStep(s))
  {
  }

  lemma FinKeepsRing(s: State)
    requires RingInv(s) && (s.writer.pc == WFin || s.writer.pc == WMark)
    ensures RingInv(PublishStep(s))
  {
  }

  lemma PublishKeepsRing(s: State)
    requires RingInv(s) && !SeekingRoom(s.writer.pc) && s.writer.pc != WIdle
    ensures RingInv(PublishStep(s))
  {
    match s.writer.pc
    case WPush => PushKeepsRing(s);
    case WCount => CountKeepsRing(s);
    case WFin => FinKeepsRing(s);
    case WMark => FinKeepsRing(s);
  }

  lemma PublishKeepsTotals(s: State)
    requires RingInv(s) && TotalsInv(s) && !s.freed && !SeekingRoom(s.writer.pc) && s.writer.pc != WIdle
    ensures TotalsInv(PublishStep(s))
  {
    match s.writer.pc
    case WPush =>
    case WFin =>
    case WCount =>
    case WMark =>
  }

  /** What the signals depend on stays as it is; the tail and FIN only grow. */
  lemma PublishFrame(s: State)
    requires !SeekingRoom(s.writer.pc) && s.writer.pc != WIdle
    ensures var t := PublishStep(s);
            && t.worker == s.worker && t.head == s.head && t.held == s.held && t.reliable == s.reliable
            && t.refs == s.refs && t.drain == s.drain && t.detached == s.detached && t.cap == s.cap
            && t.tail >= s.tail && (s.fin ==> t.fin) && (t.fin && !s.fin ==> t.history.finEnd == t.tail)
            && t.history == s.history.(finEnd := t.history.finEnd, accepted := t.history.accepted)
            && (s.fin ==> t.history.finEnd == s.history.finEnd)
  {
    match s.writer.pc
    case WPush =>
    case WFin =>
    case WCount =>
    case WMark =>
  }

  lemma SignalsKept(s: State, t: State)
    requires DrainInv(s) && FinInv(s) && HeldInv(s)
    requires t.worker == s.worker && t.head == s.head && t.held == s.held && t.reliable == s.reliable
    requires t.refs == s.refs && t.drain == s.drain && t.detached == s.detached && t.cap == s.cap
    requires t.tail >= s.tail && (s.fin ==> t.fin) && (t.fin && !s.fin ==> t.history.finEnd == t.tail)
    requires t.history == s.history.(finEnd := t.history.finEnd, accepted := t.history.accepted)
    requires s.fin ==> t.history.finEnd == s.history.finEnd
    ensures DrainInv(t) && FinInv(t) && HeldInv(t)
  {
  }

  lemma PublishKeepsInv(s: State)
    requires Inv(s) && !s.freed && !SeekingRoom(s.writer.pc) && s.writer.pc != WIdle
    ensures Inv(PublishStep(s))
  {
    PublishKeepsRing(s);
    PublishKeepsTotals(s);
    PublishFrame(s);
    SignalsKept(s, PublishStep(s));
  }

  lemma LoadFinKeepsInv(s: State)
    requires Inv(s) && !s.freed && s.worker.pc == KFin
    ensures Inv(ProvideStep(s))
  {
  }

  lemma ProvideKeepsBytes(s: State)
    requires RingInv(s) && TotalsInv(s) && !s.freed && s.worker.pc == KTail
    ensures RingInv(ProvideStep(s)) && TotalsInv(ProvideStep(s))
  {
  }

  lemma ProvideKeepsSignals(s: State)
    requires RingInv(s) && DrainInv(s) && FinInv(s) && HeldInv(s) && s.worker.pc == KTail
    ensures DrainInv(ProvideStep(s)) && FinInv(ProvideStep(s)) && HeldInv(ProvideStep(s))
  {
  }

  lemma ProvideKeepsInv(s: State)
    requires Inv(s) && !s.freed && Providing(s.worker.pc)
    ensures Inv(ProvideStep(s))
  {
    if s.worker.pc == KFin {
      LoadFinKeepsInv(s);
    } else {
      ProvideKeepsBytes(s);
      ProvideKeepsSignals(s);
    }
  }

  lemma PopKeepsInv(s: State)
    requires Inv(s) && !s.freed && Popping(s.worker.pc)
    ensures Inv(PopStep(s))
  {
    if s.worker.pc == KPop {
    } else {
    }
  }

  lemma TakeKeepsInv(s: State)
    requires Inv(s) && !s.freed && s.worker.pc == KTake
    ensures Inv(SignalStep(s))
  {
  }

  lemma PostKeepsInv(s: State)
    requires Inv(s) && !s.freed && s.worker.pc == KPost
    ensures Inv(SignalStep(s))
  {
  }

  lemma AbandonKeepsBytes(s: State)
    requires RingInv(s) && TotalsInv(s) && !s.freed && Abandoning(s.worker.pc)
    ensures RingInv(AbandonStep(s)) && TotalsInv(AbandonStep(s))
  {
    if s.worker.pc == KAbandon {
    } else if s.worker.pc == KDiscard {
    } else {
    }
  }

  lemma AbandonKeepsSignals(s: State)
    requires Inv(s) && Abandoning(s.worker.pc)
    ensures DrainInv(AbandonStep(s)) && FinInv(AbandonStep(s)) && HeldInv(AbandonStep(s))
  {
  }

  lemma UnrefKeepsInv(s: State)
    requires Inv(s) && !s.freed && s.worker.pc == KUnref
    ensures Inv(UnrefStep(s))
  {
  }

  lemma HoldKeepsInv(s: State, requested: nat, negotiated: bool, attached: bool)
    requires Inv(s) && !s.freed && s.worker.pc == KIdle
    requires !s.held && ReliableSize(s, requested, negotiated) > s.head
    ensures Inv(ResetStep(s, requested, negotiated, attached))
  {
    assert ReliableSize(s, requested, negotiated) == Min(requested, s.tail);
  }

  lemma ResetKeepsInv(s: State, requested: nat, negotiated: bool, attached: bool)
    requires Inv(s) && !s.freed && s.worker.pc == KIdle
    ensures Inv(ResetStep(s, requested, negotiated, attached))
  {
    if !s.held && ReliableSize(s, requested, negotiated) > s.head { HoldKeepsInv(s, requested, negotiated, attached); }
  }

  lemma HeldKeepsInv(s: State, alive: bool, closing: bool, attached: bool)
    requires Inv(s) && !s.freed && s.worker.pc == KIdle && s.held
    ensures Inv(HeldStep(s, alive, closing, attached))
  {
  }

  lemma MarkKeepsInv(s: State, closing: bool)
    requires Inv(s) && !s.freed && s.worker.pc == KIdle && s.marks > 0
    ensures Inv(MarkStep(s, closing))
  {
  }

  lemma SendKeepsInv(s: State, len: nat, fin: bool)
    requires Inv(s) && !s.freed && s.writer.pc == WIdle
    ensures Inv(SendStep(s, len, fin))
  {
  }

  lemma PrepareKeepsInv(s: State, want: nat)
    requires Inv(s) && !s.freed && s.worker.pc == KIdle
    ensures Inv(s.(worker := Worker(KFin, want, false, false)))
  {
  }

  lemma EndsKeepInv(s: State)
    requires Inv(s) && !s.freed && s.worker.pc == KIdle
    ensures Inv(CloseStep(s))
    ensures s.writer.pc == WIdle && s.refs == 0 ==> Inv(FreeStep(s))
  {
  }

  lemma StepKeepsInv(s: State, step: Step)
    requires Inv(s) && Enabled(s, step)
    ensures Inv(Apply(s, step))
  {
    match step
    case Send(len, fin) => SendKeepsInv(s, len, fin);
    case WriterStep =>
      if SeekingRoom(s.writer.pc) { RoomKeepsRing(s); RoomKeepsTotals(s); RoomKeepsSignals(s); }
      else { PublishKeepsInv(s); }
    case Mark(closing) => MarkKeepsInv(s, closing);
    case Prepare(want) => PrepareKeepsInv(s, want);
    case Reset(requested, negotiated, attached) => ResetKeepsInv(s, requested, negotiated, attached);
    case RunHeld(alive, closing, attached) => HeldKeepsInv(s, alive, closing, attached);
    case Close => EndsKeepInv(s);
    case WorkerStep =>
      if Providing(s.worker.pc) { ProvideKeepsInv(s); }
      else if Popping(s.worker.pc) { PopKeepsInv(s); }
      else if s.worker.pc == KTake { TakeKeepsInv(s); }
      else if s.worker.pc == KPost { PostKeepsInv(s); }
      else if Abandoning(s.worker.pc) { AbandonKeepsBytes(s); AbandonKeepsSignals(s); }
      else { UnrefKeepsInv(s); }
    case Free => EndsKeepInv(s);
  }

  lemma RoomKeepsMarks(s: State)
    requires RingInv(s) && MarkInv(s) && SeekingRoom(s.writer.pc)
    ensures MarkInv(RoomStep(s))
  {
  }

  lemma PublishKeepsMarks(s: State)
    requires RingInv(s) && MarkInv(s) && !SeekingRoom(s.writer.pc) && s.writer.pc != WIdle
    ensures MarkInv(PublishStep(s))
  {
  }

  lemma ProvideKeepsMarks(s: State)
    requires RingInv(s) && MarkInv(s) && Providing(s.worker.pc)
    ensures MarkInv(ProvideStep(s))
  {
  }

  lemma PopKeepsMarks(s: State)
    requires RingInv(s) && MarkInv(s) && HeldInv(s) && Popping(s.worker.pc)
    ensures MarkInv(PopStep(s))
  {
  }

  lemma SignalKeepsMarks(s: State)
    requires MarkInv(s) && Signalling(s.worker.pc)
    ensures MarkInv(SignalStep(s))
  {
  }

  lemma AbandonKeepsMarks(s: State)
    requires MarkInv(s) && Abandoning(s.worker.pc)
    ensures MarkInv(AbandonStep(s))
  {
  }

  lemma ResetKeepsMarks(s: State, requested: nat, negotiated: bool, attached: bool)
    requires RingInv(s) && MarkInv(s) && s.worker.pc == KIdle
    ensures MarkInv(ResetStep(s, requested, negotiated, attached))
  {
  }

  lemma EndsKeepMarks(s: State, step: Step)
    requires MarkInv(s) && Enabled(s, step) && (step.RunHeld? || step.Close? || step.Free?)
    ensures MarkInv(Apply(s, step))
  {
  }

  lemma StartsKeepMarks(s: State, step: Step)
    requires MarkInv(s) && Enabled(s, step) && (step.Send? || step.Mark? || step.Prepare?)
    ensures MarkInv(Apply(s, step))
  {
  }

  lemma StepKeepsMarks(s: State, step: Step)
    requires Inv(s) && MarkInv(s) && Enabled(s, step)
    ensures MarkInv(Apply(s, step))
  {
    if step.WriterStep? { if SeekingRoom(s.writer.pc) { RoomKeepsMarks(s); } else { PublishKeepsMarks(s); } }
    else if step.Reset? { ResetKeepsMarks(s, step.requested, step.negotiated, step.attached); }
    else if step.RunHeld? || step.Close? || step.Free? { EndsKeepMarks(s, step); }
    else if !step.WorkerStep? { StartsKeepMarks(s, step); }
    else if Providing(s.worker.pc) { ProvideKeepsMarks(s); }
    else if Popping(s.worker.pc) { PopKeepsMarks(s); }
    else if Signalling(s.worker.pc) { SignalKeepsMarks(s); }
    else if Abandoning(s.worker.pc) { AbandonKeepsMarks(s); }
  }

  lemma InitInv(s: State)
    requires Init(s)
    ensures Inv(s) && MarkInv(s)
  {
  }

  lemma ReachableInv(s: State)
    requires Reachable(s)
    ensures Inv(s) && MarkInv(s)
  {
    var inv := (s: State) => Inv(s) && MarkInv(s);
    forall s | Init(s) ensures inv(s) {
      InitInv(s);
    }
    forall s, t | inv(s) && Next(s, t) ensures inv(t) {
      var step :| Takes(s, step, t);
      StepKeepsInv(s, step);
      StepKeepsMarks(s, step);
    }
    Runs.InvariantHolds(Init, Next, inv, s);
  }

  // ---- what the source promises --------------------------------------------------------------

  /** A refused writer on a stream no reset or close has detached: its event is about to be posted,
      or the flag is set and the ring still holds bytes, or the worker is past a pop and before its
      look at the flag. While picoquic was given no FIN and no reset holds bytes back, picoquic will
      ask for them: the stream is active or a MARK_ACTIVE is on its way. Behind a FIN they stay,
      and between callbacks the writer is forgotten. */
  lemma RefusedWriterKept(s: State)
    requires Reachable(s) && s.history.waiting && !s.detached
    ensures s.worker.pc == KPost || (s.drain && (s.head < s.tail || BeforeSignal(s.worker.pc)))
    ensures !s.freed && !s.history.finSent && !s.held && s.worker.pc == KIdle ==> s.head < s.tail && (s.active || Marked(s))
    ensures s.history.finSent && s.worker.pc == KIdle ==> s.head < s.tail && Forgotten(s)
  {
    ReachableInv(s);
  }

  /** No committed byte is left behind: while picoquic serves the stream, whatever it may be given
      and is not being given, bytes or FIN, finds the stream active, a MARK_ACTIVE queued, or the
      writer still before its push. */
  lemma BytesAreScheduled(s: State)
    requires Reachable(s) && Served(s)
    ensures Unprovided(s) > 0 || (s.fin && !s.held) ==> s.active || Marked(s)
    ensures s.worker.pc == KIdle && s.writer.pc == WIdle && !s.held && s.head < s.tail ==> s.active || s.marks > 0
  {
    ReachableInv(s);
  }

  /** A write is all-or-nothing: between writes the ring has been given exactly the bytes of the
      writes that returned 1, and a push in progress fits. */
  lemma WriteIsAllOrNothing(s: State)
    requires Reachable(s)
    ensures s.writer.pc == WIdle ==> s.tail == s.history.accepted
    ensures s.writer.pc == WPush ==> s.tail + s.writer.len - s.head <= s.cap
  {
    ReachableInv(s);
  }

  /** FIN never cuts off a byte: it ends at or behind every byte written before it was set, and
      at the last byte of all if nothing was written after it. */
  lemma FinWithFinalByte(s: State)
    requires Reachable(s) && s.history.finSent
    ensures s.fin && s.history.finEnd <= s.history.finAt <= s.tail
    ensures s.tail == s.history.finEnd ==> s.history.finAt == s.tail
  {
    ReachableInv(s);
  }

  /** While a reset is held, no byte at or past its reliable size is handed over or on its way,
      no FIN is signalled, and exactly one reference keeps the stream context. */
  lemma HeldResetKeepsItsBytes(s: State)
    requires Reachable(s) && s.held
    ensures s.head + (if s.worker.pc == KPop then s.worker.n else 0) <= s.reliable
    ensures s.history.finSent == s.history.finMark
    ensures s.refs == 1
  {
    ReachableInv(s);
  }

  /** A held reset goes out after exactly min(requested, written) bytes, and its reference is
      gone once the worker is done with it, however it ended. */
  lemma HeldResetSendsExactly(s: State)
    requires Reachable(s)
    ensures s.history.kept ==> s.history.keptAt == s.history.keptPromise
    ensures s.worker.pc == KIdle && !s.held ==> s.refs == 0
  {
    ReachableInv(s);
  }

  /** Conservation on one stream: with both threads between calls, every byte written was pulled,
      discarded, or is still in the ring; after the final free none is missing and none was
      discarded twice. */
  lemma BytesConserved(s: State)
    requires Reachable(s) && s.worker.pc == KIdle && s.writer.pc == WIdle
    ensures s.pushed == s.pulled + s.discarded + Live(s)
    ensures s.freed ==> s.pushed == s.pulled + s.discarded
  {
    ReachableInv(s);
  }

  lemma Go(s: State, step: Step) returns (t: State)
    requires Reachable(s) && Enabled(s, step)
    ensures t == Apply(s, step) && Reachable(t)
  {
    t := Apply(s, step);
    assert Takes(s, step, t);
    Runs.NextReachable(Init, Next, s, t);
  }

  lemma StartWrite(s: State, n: nat) returns (t: State)
    requires Reachable(s) && !s.freed && s.writer.pc == WIdle && 0 < n <= s.cap && s.tail + n <= s.head + s.cap
    ensures Reachable(t) && t == s.(writer := Writer(WPush, n, false))
  {
    t := Go(s, Send(n, false));
    t := Go(t, WriterStep);
  }

  lemma FinishWrite(s: State) returns (t: State)
    requires Reachable(s) && !s.freed && s.writer.pc == WPush && !s.writer.fin
    ensures Reachable(t) && t.writer.pc == WIdle && t.history == s.history.(accepted := t.history.accepted)
    ensures t == s.(tail := s.tail + s.writer.len, writer := t.writer, marks := t.marks, pushed := t.pushed, history := t.history)
  {
    t := Go(s, WriterStep);
    t := Go(t, WriterStep);
    t := Go(t, WriterStep);
  }

  /** A write into a ring with room. */
  lemma Write(s: State, n: nat) returns (t: State)
    requires Reachable(s) && !s.freed && s.writer.pc == WIdle && 0 < n <= s.cap && s.tail + n <= s.head + s.cap
    ensures Reachable(t) && t.writer.pc == WIdle && t.history == s.history.(accepted := t.history.accepted)
    ensures t == s.(tail := s.tail + n, writer := t.writer, marks := t.marks, pushed := t.pushed, history := t.history)
  {
    t := StartWrite(s, n);
    t := FinishWrite(t);
  }

  /** A write of one byte into a full ring. */
  lemma RefuseOne(s: State) returns (t: State)
    requires Reachable(s) && !s.freed && s.writer.pc == WIdle && 1 <= s.cap && s.tail == s.head + s.cap
    ensures Reachable(t) && t.writer.pc == WIdle && !t.freed
    ensures t == s.(drain := true, writer := t.writer, history := t.history)
    ensures t.history == s.history.(armed := true, waiting := true)
  {
    t := Go(s, Send(1, false));
    t := Go(t, WriterStep);
    t := Go(t, WriterStep);
    t := Go(t, WriterStep);
  }

  /** A reset that goes out at once empties the ring. */
  lemma ResetNow(s: State) returns (t: State)
    requires Reachable(s) && !s.freed && s.worker == IDLE && !s.held && s.head < s.tail
    ensures Reachable(t)
    ensures t == s.(head := s.tail, detached := true, discarded := t.discarded, worker := t.worker)
    ensures t.worker.pc == KIdle
  {
    t := Go(s, Reset(0, false, true));
    t := Abandon(t);
  }

  lemma Abandon(s: State) returns (t: State)
    requires Reachable(s) && !s.freed && s.worker == Worker(KAbandon, 0, false, false) && s.head < s.tail
    ensures Reachable(t) && t == s.(head := s.tail, discarded := t.discarded, worker := t.worker)
    ensures t.worker.pc == KIdle
  {
    t := Go(s, WorkerStep);
    t := Go(t, WorkerStep);
    t := Go(t, WorkerStep);
  }

  /** A refused writer on a stream picoquic asks no more, because it was reset or closed or because
      its FIN was given, with the worker past its last look at the drain signal. */
  predicate Forgotten(s: State) {
    && s.history.waiting && (s.detached || s.history.finSent)
    && !Providing(s.worker.pc) && !Popping(s.worker.pc) && !Signalling(s.worker.pc)
  }

  lemma RoomLeavesForgotten(s: State)
    requires Forgotten(s) && SeekingRoom(s.writer.pc)
    ensures Forgotten(RoomStep(s)) && RoomStep(s).pulled == s.pulled
  {
    match s.writer.pc
    case WHead =>
    case WArm =>
    case WRecheck =>
  }

  lemma PublishLeavesForgotten(s: State)
    requires Forgotten(s) && !SeekingRoom(s.writer.pc) && s.writer.pc != WIdle
    ensures Forgotten(PublishStep(s)) && PublishStep(s).pulled == s.pulled
  {
    match s.writer.pc
    case WPush =>
    case WFin =>
    case WCount =>
    case WMark =>
  }

  lemma WorkerLeavesForgotten(s: State)
    requires Forgotten(s) && s.worker.pc != KIdle
    ensures Forgotten(KStep(s)) && KStep(s).pulled == s.pulled
  {
    if Abandoning(s.worker.pc) {
      assert KStep(s) == AbandonStep(s);
    } else {
      assert KStep(s) == UnrefStep(s);
    }
  }

  lemma ForgottenStays(s: State, step: Step)
    requires Forgotten(s) && Enabled(s, step)
    ensures Forgotten(Apply(s, step)) && Apply(s, step).pulled == s.pulled
  {
    if step.WriterStep? { if SeekingRoom(s.writer.pc) { RoomLeavesForgotten(s); } else { PublishLeavesForgotten(s); } }
    else if step.WorkerStep? { WorkerLeavesForgotten(s); }
  }

  function Only(s: State): State -> bool { x => x == s }

  /** No STREAM_TX_DRAINED is posted and no byte pulled, whatever follows. */
  lemma ForgottenForGood(s: State, t: State)
    requires Forgotten(s) && Runs.Reachable(Only(s), Next, t)
    ensures Forgotten(t) && t.pulled == s.pulled
  {
    var inv := (t: State) => Forgotten(t) && t.pulled == s.pulled;
    forall t, u | inv(t) && Next(t, u) ensures inv(u) {
      var step :| Takes(t, step, u);
      ForgottenStays(t, step);
    }
    Runs.InvariantHolds(Only(s), Next, inv, t);
  }

  lemma GoFrom(s: State, t: State, step: Step) returns (u: State)
    requires Runs.Reachable(Only(s), Next, t) && Enabled(t, step)
    ensures u == Apply(t, step) && Runs.Reachable(Only(s), Next, u)
  {
    u := Apply(t, step);
    assert Takes(t, step, u);
    Runs.NextReachable(Only(s), Next, t, u);
  }

  /** A run from s, itself reachable, has led to t without serving the writer or losing the stream. */
  ghost predicate Follows(s: State, t: State) {
    && Runs.Reachable(Only(s), Next, t) && Reachable(t)
    && !t.freed && !t.detached && !t.history.finSent && t.history.waiting && t.worker.pc == KIdle
  }

  lemma Follow(s: State, t: State, step: Step) returns (u: State)
    requires Follows(s, t) && Enabled(t, step)
    ensures u == Apply(t, step) && Runs.Reachable(Only(s), Next, u) && Reachable(u)
  {
    u := GoFrom(s, t, step);
    var v := Go(t, step);
  }

  function Rank(pc: WriterPc): nat {
    match pc
    case WHead => 6
    case WArm => 5
    case WRecheck => 4
    case WPush => 3
    case WFin => 2
    case WCount => 1
    case _ => 0
  }

  lemma WriterMovesOn(s: State, t: State) returns (u: State)
    requires Follows(s, t) && t.writer.pc != WIdle
    ensures Follows(s, u) && u == Apply(t, WriterStep)
  {
    u := Follow(s, t, WriterStep);
    WriterStepLeaves(t);
  }

  /** A call of the writer returns. */
  lemma {:induction false} WriterReturns(s: State, t: State) returns (u: State)
    requires Follows(s, t)
    ensures Follows(s, u) && u.writer.pc == WIdle
    decreases t.writer.pc != WIdle, Rank(t.writer.pc)
  {
    if t.writer.pc == WIdle {
      u := t;
    } else {
      u := WriterMovesOn(s, t);
      WriterStepLeaves(t);
      u := WriterReturns(s, u);
    }
  }

  lemma WriterStepLeaves(s: State)
    requires s.writer.pc != WIdle && Enabled(s, WriterStep)
    ensures var t := Apply(s, WriterStep);
            && t.worker == s.worker && t.freed == s.freed && t.detached == s.detached
            && t.history.finSent == s.history.finSent && (s.history.waiting ==> t.history.waiting)
            && (t.writer.pc == WIdle || Rank(t.writer.pc) < Rank(s.writer.pc))
  {
    if SeekingRoom(s.writer.pc) { RoomStepLeaves(s); } else { PublishStepLeaves(s); }
  }

  lemma RoomStepLeaves(s: State)
    requires SeekingRoom(s.writer.pc)
    ensures var t := RoomStep(s);
            && t.worker == s.worker && t.freed == s.freed && t.detached == s.detached
            && t.history.finSent == s.history.finSent && (s.history.waiting ==> t.history.waiting)
            && (t.writer.pc == WIdle || Rank(t.writer.pc) < Rank(s.writer.pc))
  {
    match s.writer.pc
    case WHead =>
    case WArm =>
    case WRecheck =>
  }

  lemma PublishStepLeaves(s: State)
    requires s.writer.pc != WIdle && !SeekingRoom(s.writer.pc)
    ensures var t := PublishStep(s);
            && t.worker == s.worker && t.freed == s.freed && t.detached == s.detached
            && t.history.finSent == s.history.finSent && t.history.waiting == s.history.waiting
            && (t.writer.pc == WIdle || Rank(t.writer.pc) < Rank(s.writer.pc))
  {
    match s.writer.pc
    case WPush =>
    case WFin =>
    case WCount =>
    case WMark =>
  }

  lemma SendNothing(s: State, t: State) returns (u: State)
    requires Follows(s, t) && t.writer.pc == WIdle
    ensures Follows(s, u) && u.writer.pc == WCount
  {
    u := Follow(s, t, Send(0, false));
  }

  /** A write of nothing marks the stream active. */
  lemma WriteNothing(s: State, t: State) returns (u: State)
    requires Follows(s, t) && t.writer.pc == WIdle
    ensures Follows(s, u) && u.marks > 0
  {
    u := SendNothing(s, t);
    u := WriterMovesOn(s, u);
    assert u.writer.pc == WMark;
    u := WriterMovesOn(s, u);
  }

  lemma Activated(s: State, t: State) returns (u: State)
    requires Follows(s, t)
    ensures Follows(s, u) && u.active
  {
    u := WriterReturns(s, t);
    u := WriteNothing(s, u);
    u := Follow(s, u, Mark(false));
  }

  /** A callback with no packet space gets to the look at the drain signal. */
  lemma LookAtSignal(s: State, t: State) returns (u: State)
    requires Follows(s, t) && t.active && t.drain
    ensures Runs.Reachable(Only(s), Next, u) && u.worker.pc == KTake && u.drain && !u.freed
  {
    u := GoFrom(s, t, Prepare(0));
    u := GoFrom(s, u, WorkerStep);
    u := GoFrom(s, u, WorkerStep);
  }

  lemma SignalFires(s: State, t: State) returns (u: State)
    requires Runs.Reachable(Only(s), Next, t) && t.worker.pc == KTake && t.drain && !t.freed
    ensures Runs.Reachable(Only(s), Next, u) && !u.history.waiting
  {
    u := GoFrom(s, t, WorkerStep);
    assert u.worker.pc == KPost && !u.freed;
    u := GoFrom(s, u, WorkerStep);
  }

  /** With the stream active, one callback of picoquic serves the writer, even one without room. */
  lemma AttachedServed(s: State) returns (t: State)
    requires Reachable(s) && s.history.waiting && s.worker.pc == KIdle && !s.freed
    requires !s.detached && !s.history.finSent
    ensures Runs.Reachable(Only(s), Next, t) && !t.history.waiting
  {
    Runs.InitialReachable(Only(s), Next, s);
    t := Activated(s, s);
    ReachableInv(t);
    t := LookAtSignal(s, t);
    t := SignalFires(s, t);
  }

  /** With the worker between callbacks, some run from here serves a refused writer exactly if no
      reset or close has detached the stream and no FIN was given. */
  lemma ServedIffAttached(s: State)
    requires Reachable(s) && s.history.waiting && s.worker.pc == KIdle && !s.freed
    ensures (exists t :: Runs.Reachable(Only(s), Next, t) && !t.history.waiting) <==> !s.detached && !s.history.finSent
  {
    if s.detached || s.history.finSent {
      forall t | Runs.Reachable(Only(s), Next, t) ensures t.history.waiting {
        ForgottenForGood(s, t);
      }
    } else {
      var t := AttachedServed(s);
    }
  }

  function Fresh(cap: nat): State {
    State(cap, 0, 0, false, false, false, 0, false, 0, false, false, 0, 0, 0, 0, Writer(WIdle, 0, false), IDLE,
          History(0, false, false, 0, false, 0, false, 0, false, 0, 0))
  }

  lemma NoCapNoWriter(s: State)
    requires Reachable(s) && s.cap == 0
    ensures !s.history.waiting
  {
    ReachableInv(s);
  }

  /** Every ring that takes a byte can end so: an abandon empties it and leaves the flag as it is,
      with nothing left to pull. */
  lemma AbandonForgetsWriter(cap: nat)
    ensures (exists s :: Reachable(s) && s.cap == cap && Forgotten(s) && s.drain && s.head == s.tail) <==> cap > 0
  {
    if cap > 0 {
      var s := Fresh(cap);
      Runs.InitialReachable(Init, Next, s);
      s := Write(s, cap);
      s := RefuseOne(s);
      s := ResetNow(s);
    } else {
      forall s | Reachable(s) && s.cap == cap ensures !s.history.waiting {
        NoCapNoWriter(s);
      }
    }
  }

  /** A FIN without bytes is marked, fetched and given. */
  lemma GiveFin(s: State) returns (t: State)
    requires s == Fresh(s.cap) && Reachable(s)
    ensures Reachable(t) && t.history == s.history.(finSent := true, finEnd := 0, finAt := 0)
    ensures t == s.(fin := true, active := t.active, marks := t.marks, writer := t.writer, worker := t.worker, history := t.history)
    ensures t.writer.pc == WIdle && t.worker.pc == KIdle
  {
    t := MarkFin(s);
    t := Go(t, Prepare(1));
    t := Go(t, WorkerStep);
    t := Go(t, WorkerStep);
    t := Go(t, WorkerStep);
  }

  lemma MarkFin(s: State) returns (t: State)
    requires s == Fresh(s.cap) && Reachable(s)
    ensures Reachable(t) && t.writer.pc == WIdle && t.history == s.history.(finEnd := 0)
    ensures t == s.(fin := true, active := true, writer := t.writer, history := t.history)
  {
    t := Go(s, Send(0, true));
    t := Go(t, WriterStep);
    t := Go(t, WriterStep);
    t := Go(t, WriterStep);
    t := Go(t, Mark(false));
  }

  /** ... and so can every one behind a FIN: the source takes writes after it, fills the ring, and
      refuses one that nothing will ever make room for, on a stream nobody has reset. */
  lemma FinForgetsWriter(cap: nat)
    ensures (exists s :: Reachable(s) && s.cap == cap && Forgotten(s) && !s.detached && s.drain && s.tail == s.head + cap)
       <==> cap > 0
  {
    if cap > 0 {
      var s := Fresh(cap);
      Runs.InitialReachable(Init, Next, s);
      s := GiveFin(s);
      s := Write(s, cap);
      s := RefuseOne(s);
    } else {
      forall s | Reachable(s) && s.cap == cap ensures !s.history.waiting {
        NoCapNoWriter(s);
      }
    }
  }
}

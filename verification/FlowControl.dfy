/** Application flow control of one stream (callback.h, stream_ctx.h, _transport.pyx): the peer
    may send up to `limit`; arrivals fill the RX ring, the drain pops them into chunks and opens a
    view on each, and credit events grant what the ring and bytes_pending_release leave free. A
    grant is an advance of the limit to delivered + grant. Every shared load, store and add is one
    step. */
module FlowControl {
  import Runs

  /** The size asked for, the ring's capacity it was rounded to, and the initial window. `joint`
      decides whether the drain's pop and its pending add are seen as one; in the code they are
      not. */
  datatype Setup = Setup(advertised: nat, cap: nat, window: nat, joint: bool)

  datatype WorkerPc =
    | KIdle
    | KTouch            // first arrival stored: about to open the window to the ring
    | KPend             // credit event, ring seen `free`: about to load bytes_pending_release

  datatype Worker = Worker(pc: WorkerPc, free: nat)

  datatype ConsumerPc =
    | CIdle
    | CPop              // about to store head + n
    | CWrap             // popped n bytes: about to wrap them and add them to bytes_pending_release
    | CView             // about to open the chunk's view, which takes them off again

  datatype Consumer = Consumer(pc: ConsumerPc, n: nat)

  datatype State = State(
    c: Setup,
    limit: nat,                 // the peer's MAX_STREAM_DATA
    head: nat, tail: nat, pend: nat,
    fin: bool,                  // the ring's FIN flag
    touched: bool,              // the first arrival has been handled
    worker: Worker, consumer: Consumer,
    // history
    ended: bool,                // the stream's end has arrived,
    bare: bool,                 //   in a callback without bytes
    overflowed: bool,
    released: nat,              // taken off bytes_pending_release
    held: nat,                  // bytes in chunks the application keeps
    late: bool)                 // credit was granted after the end had arrived

  datatype Step =
    | Arrive(n: nat, fin: bool)
    | EndBare
    | Credit
    | WorkerStep
    | Drain
    | ConsumerStep
    | Drop(n: nat)                // chunks are deallocated

  function Start(c: Setup): State {
    State(c, c.window, 0, 0, 0, false, false, Worker(KIdle, 0), Consumer(CIdle, 0),
          false, false, false, 0, 0, false)
  }

  function Free(s: State): nat {
    if s.tail <= s.head + s.c.cap then s.head + s.c.cap - s.tail else 0
  }

  predicate Enabled(s: State, step: Step) {
    match step
    case Arrive(n, _) =>                 // a peer that honours its limit, up to its end
      s.worker.pc == KIdle && !s.ended && !s.overflowed && 0 < n && s.tail + n <= s.limit
    case EndBare => s.worker.pc == KIdle && !s.ended && !s.overflowed
    case Credit => s.worker.pc == KIdle && s.touched && !s.overflowed
    case WorkerStep => s.worker.pc != KIdle
    case Drain => s.consumer.pc == CIdle && s.touched && s.head < s.tail
    case ConsumerStep => s.consumer.pc != CIdle
    case Drop(n) => s.consumer.pc == CIdle && n <= s.held
  }

  function Max(a: nat, b: nat): nat { if a > b then a else b }

  function ArriveStep(s: State, n: nat, fin: bool): State {
    if n > Free(s) then s.(overflowed := true, tail := s.tail + Free(s))
    else s.(tail := s.tail + n, fin := fin, ended := fin,
            worker := s.worker.(pc := if s.touched then KIdle else KTouch))
  }

  function Grant(s: State): nat {
    if s.pend >= s.worker.free then 0 else s.worker.free - s.pend
  }

  /** The end of the first-arrival path and of SPSC_EVT_TX_OPEN_FLOW_CONTROL. */
  function WorkerStepOf(s: State): State
    requires s.worker.pc != KIdle
  {
    match s.worker.pc
    case KTouch =>
      s.(limit := if !s.fin && s.c.window < s.c.advertised then Max(s.limit, s.tail + Free(s)) else s.limit,
         touched := true, worker := s.worker.(pc := KIdle))
    case KPend =>
      s.(limit := if Grant(s) > 0 then Max(s.limit, s.tail + Grant(s)) else s.limit,
         late := s.late || (s.ended && Grant(s) > 0), worker := s.worker.(pc := KIdle))
  }

  /** The pop of drain_rx, StreamChunk._wrap, and the memoryview over it, whose __getbuffer__ is
      the chunk's _release_fc. */
  function ConsumerStepOf(s: State): State
    requires s.consumer.pc != CIdle
  {
    match s.consumer.pc
    case CPop =>
      s.(head := s.head + s.consumer.n,
         pend := if s.c.joint then s.pend + s.consumer.n else s.pend,
         held := if s.c.joint then s.held + s.consumer.n else s.held,
         consumer := s.consumer.(pc := if s.c.joint then CView else CWrap))
    case CWrap =>
      s.(pend := s.pend + s.consumer.n, held := s.held + s.consumer.n, consumer := s.consumer.(pc := CView))
    case CView =>
      s.(pend := if s.pend >= s.consumer.n then s.pend - s.consumer.n else 0,
         released := s.released + s.consumer.n, consumer := s.consumer.(pc := CIdle))
  }

  function Apply(s: State, step: Step): State
    requires Enabled(s, step)
  {
    match step
    case Arrive(n, fin) => ArriveStep(s, n, fin)
    case EndBare => s.(ended := true, bare := true)
    case Credit => if s.fin then s else s.(worker := Worker(KPend, Free(s)))
    case WorkerStep => WorkerStepOf(s)
    case Drain => s.(consumer := Consumer(CPop, s.tail - s.head))
    case ConsumerStep => ConsumerStepOf(s)
    case Drop(n) => s.(held := s.held - n)
  }

  ghost predicate Takes(s: State, step: Step, t: State) {
    Enabled(s, step) && t == Apply(s, step)
  }

  ghost predicate Next(s: State, t: State) {
    exists step :: Takes(s, step, t)
  }

  function From(c: Setup): State -> bool { s => s == Start(c) }

  ghost predicate Reachable(c: Setup, s: State) {
    Runs.Reachable(From(c), Next, s)
  }

  // ---- the inductive invariant ---------------------------------------------------------------

  /** Popped bytes not yet in a chunk. */
  function InHand(s: State): nat { if s.consumer.pc == CWrap then s.consumer.n else 0 }

  ghost predicate RingInv(s: State) {
    && s.c.window <= s.c.cap && !s.overflowed
    && s.head <= s.tail <= s.limit <= s.head + s.c.cap
    && (s.consumer.pc == CPop ==> s.head + s.consumer.n <= s.tail)
    && (s.worker.pc == KPend ==> s.tail + s.worker.free <= s.head + s.c.cap)
    && (!s.touched ==> s.head == s.released == 0 && s.consumer.pc == CIdle && s.worker.pc != KPend)
    && s.head == s.released + s.pend + InHand(s)
    && (s.c.joint ==> s.consumer.pc != CWrap)
    && (s.worker.pc == KTouch ==> !s.touched)
  }

  /** Only a chunk whose view is being opened is pending. */
  ghost predicate PendInv(s: State) {
    s.pend == if s.consumer.pc == CView then s.consumer.n else 0
  }

  /** What a joint pop buys: the grant counts every byte that was popped and not released. */
  ghost predicate JointInv(s: State) {
    && s.limit <= s.released + s.c.cap
    && (s.worker.pc == KPend ==> s.tail + s.worker.free <= s.released + s.pend + s.c.cap)
  }

  /** Without it a grant can count the bytes in hand twice, and they are at most the ring. */
  ghost predicate SplitInv(s: State) {
    && s.limit <= s.released + 2 * s.c.cap
    && InHand(s) <= s.c.cap
  }

  ghost predicate FinInv(s: State) {
    && (s.fin || s.bare ==> s.ended)
    && (s.ended && !s.overflowed ==> s.fin || s.bare)
    && (s.fin ==> s.worker.pc != KPend)
    && (s.ended && !s.bare ==> s.fin)
    && !(s.fin && s.bare)
    && (s.late ==> s.bare)
  }

  ghost predicate Inv(s: State) { RingInv(s) && SplitInv(s) && PendInv(s) && (s.c.joint ==> JointInv(s)) && FinInv(s) }

  lemma WorkerKeepsRing(s: State)
    requires RingInv(s) && s.worker.pc != KIdle
    ensures RingInv(WorkerStepOf(s))
  {
  }

  lemma ConsumerKeepsRing(s: State)
    requires RingInv(s) && PendInv(s) && s.consumer.pc != CIdle
    ensures RingInv(ConsumerStepOf(s))
  {
  }

  lemma StepKeepsRing(s: State, step: Step)
    requires RingInv(s) && PendInv(s) && Enabled(s, step)
    ensures RingInv(Apply(s, step))
  {
    if step.WorkerStep? {
      WorkerKeepsRing(s);
    } else if step.ConsumerStep? {
      ConsumerKeepsRing(s);
    }
  }

  lemma ConsumerKeepsPend(s: State)
    requires PendInv(s) && s.consumer.pc != CIdle
    ensures PendInv(ConsumerStepOf(s))
  {
    match s.consumer.pc
    case CPop =>
    case CWrap =>
    case CView =>
  }

  lemma StepKeepsPend(s: State, step: Step)
    requires PendInv(s) && Enabled(s, step)
    ensures PendInv(Apply(s, step))
  {
    if step.ConsumerStep? {
      ConsumerKeepsPend(s);
    } else if step.WorkerStep? {
      assert WorkerStepOf(s).pend == s.pend && WorkerStepOf(s).consumer == s.consumer;
    }
  }

  lemma StepKeepsJoint(s: State, step: Step)
    requires RingInv(s) && PendInv(s) && s.c.joint && JointInv(s) && Enabled(s, step)
    ensures JointInv(Apply(s, step))
  {
  }

  lemma StepKeepsSplit(s: State, step: Step)
    requires RingInv(s) && PendInv(s) && SplitInv(s) && Enabled(s, step)
    ensures SplitInv(Apply(s, step))
  {
  }

  lemma StepKeepsFin(s: State, step: Step)
    requires FinInv(s) && Enabled(s, step)
    ensures FinInv(Apply(s, step))
  {
  }

  lemma ReachableInv(c: Setup, s: State)
    requires Reachable(c, s) && c.window <= c.cap
    ensures Inv(s) && s.c == c
  {
    var inv := (s: State) => Inv(s) && s.c == c;
    forall s, t | inv(s) && Next(s, t) ensures inv(t) {
      var step :| Takes(s, step, t);
      StepKeepsRing(s, step);
      StepKeepsPend(s, step);
      StepKeepsSplit(s, step);
      StepKeepsFin(s, step);
      if s.c.joint { StepKeepsJoint(s, step); }
    }
    Runs.InvariantHolds(From(c), Next, inv, s);
  }

  lemma ReachableFin(c: Setup, s: State)
    requires Reachable(c, s)
    ensures FinInv(s) && PendInv(s)
  {
    var inv := (s: State) => FinInv(s) && PendInv(s);
    forall s, t | inv(s) && Next(s, t) ensures inv(t) {
      var step :| Takes(s, step, t);
      StepKeepsFin(s, step);
      StepKeepsPend(s, step);
    }
    Runs.InvariantHolds(From(c), Next, inv, s);
  }

  // ---- what the source promises --------------------------------------------------------------

  /** While the initial window is at most the ring, the limit never passes head + capacity. */
  lemma LimitWithinRing(c: Setup, s: State)
    requires Reachable(c, s) && c.window <= c.cap
    ensures s.head <= s.tail <= s.limit <= s.head + c.cap
    ensures !s.overflowed
  {
    ReachableInv(c, s);
  }

  /** The overflow branch is unreachable exactly if the initial window is at most the ring. */
  lemma OverflowIffWindowTooLarge(c: Setup)
    ensures (exists s :: Reachable(c, s) && s.overflowed) <==> c.window > c.cap
  {
    if c.window <= c.cap {
      forall s | Reachable(c, s) ensures !s.overflowed {
        LimitWithinRing(c, s);
      }
    } else {
      var s := Begin(c);
      s := Go(c, s, Arrive(c.window, false));
    }
  }

  /** What was received and not yet counted out of bytes_pending_release: at most the ring's
      capacity when the pop and the pending add are seen together, at most twice that as the code
      has them. */
  lemma UnreleasedWithinRing(c: Setup, s: State)
    requires Reachable(c, s) && c.window <= c.cap
    ensures var bound := if c.joint then c.cap else 2 * c.cap;
            s.limit <= s.released + bound && s.tail - s.released <= bound
  {
    ReachableInv(c, s);
  }

  /** A stream at rest: everything that arrived was popped and wrapped, and the peer may go on. */
  ghost predicate Rested(c: Setup, s: State) {
    && Reachable(c, s) && s.c == c && s.head == s.tail == s.released < s.limit && s.pend == 0
    && !s.ended && !s.fin && !s.overflowed && s.worker.pc == KIdle && s.consumer.pc == CIdle
  }

  lemma PopOnly(c: Setup, s: State) returns (t: State)
    requires Reachable(c, s) && !s.c.joint && s.consumer.pc == CPop
    ensures Reachable(c, t) && t == s.(head := s.head + s.consumer.n, consumer := Consumer(CWrap, s.consumer.n))
  {
    t := Go(c, s, ConsumerStep);
  }

  lemma WrapOnly(c: Setup, s: State) returns (t: State)
    requires Reachable(c, s) && s.consumer.pc == CWrap && s.pend == 0
    ensures Reachable(c, t)
    ensures t == s.(pend := s.consumer.n, held := s.held + s.consumer.n, consumer := Consumer(CView, s.consumer.n))
  {
    t := Go(c, s, ConsumerStep);
  }

  lemma Wrap(c: Setup, s: State) returns (t: State)
    requires Reachable(c, s) && s.c == c && s.consumer.pc == CPop && s.pend == 0
    ensures Reachable(c, t) && t.head == s.head + s.consumer.n && t.pend == s.consumer.n && t.held == s.held + s.consumer.n
    ensures t == s.(head := t.head, pend := t.pend, held := t.held, consumer := t.consumer)
    ensures t.consumer == Consumer(CView, s.consumer.n)
  {
    if c.joint {
      t := Go(c, s, ConsumerStep);
    } else {
      t := PopOnly(c, s);
      t := WrapOnly(c, t);
    }
  }

  /** One byte arrives and is popped, wrapped and viewed. */
  lemma OneByte(c: Setup, s: State) returns (t: State)
    requires Rested(c, s) && c.cap > 0
    ensures Reachable(c, t) && t.c == c && t.head == t.tail == t.released == s.tail + 1 && t.pend == 0 && t.touched
    ensures t.held == s.held + 1 && !t.ended && !t.fin && !t.overflowed && t.worker.pc == KIdle && t.consumer.pc == CIdle
  {
    t := Go(c, s, Arrive(1, false));
    if t.worker.pc == KTouch { t := Go(c, t, WorkerStep); }
    t := Go(c, t, Drain);
    t := Wrap(c, t);
    t := Go(c, t, ConsumerStep);
  }

  /** ... and a credit event opens the whole ring again, kept chunk or not. */
  lemma AnotherByte(c: Setup, s: State) returns (t: State)
    requires Rested(c, s) && c.cap > 0
    ensures Rested(c, t) && t.touched && t.held == s.held + 1 && t.limit >= t.tail + c.cap
  {
    t := OneByte(c, s);
    t := Go(c, t, Credit);
    t := Go(c, t, WorkerStep);
  }

  /** Seen apart, a credit event between the pop and the add grants what the bytes in hand still
      occupy: the bound of twice the capacity is reached with every window but 0. */
  lemma SplitPopOvergrants(c: Setup)
    requires !c.joint && c.cap > 0 && c.window > 0
    ensures exists s :: Reachable(c, s) && s.tail - s.released == 2 * c.cap
  {
    var s := Begin(c);
    s := AnotherByte(c, s);
    s := Go(c, s, Arrive(c.cap, false));
    s := Go(c, s, Drain);
    s := Go(c, s, ConsumerStep);
    s := Go(c, s, Credit);
    s := Go(c, s, WorkerStep);
    s := Go(c, s, Arrive(c.cap, false));
  }

  /** Without a window, or without a ring, no byte is ever kept and no credit event handled. */
  lemma NothingArrives(c: Setup, s: State)
    requires Reachable(c, s) && (c.cap == 0 || c.window == 0)
    ensures !s.touched && s.tail == 0 && !s.late && s.held == 0
  {
    var inv := (s: State) => s.c == c && s.limit == c.window && s.head == s.tail == s.held == 0
                             && !s.touched && !s.late && s.worker.pc == KIdle && s.consumer.pc == CIdle;
    forall s, t | inv(s) && Next(s, t) ensures inv(t) {
      var step :| Takes(s, step, t);
    }
    Runs.InvariantHolds(From(c), Next, inv, s);
  }

  /** A window larger than the ring lets the peer refill it while its bytes are pending. */
  lemma WideWindowRefills(c: Setup)
    requires 0 < c.cap < c.window
    ensures exists s :: Reachable(c, s) && s.tail - s.released > c.cap
  {
    var s := Begin(c);
    s := Go(c, s, Arrive(c.cap, false));
    s := Go(c, s, WorkerStep);
    s := Go(c, s, Drain);
    s := Wrap(c, s);
    s := Go(c, s, Arrive(1, false));
  }

  /** So the capacity fails to bound the uncounted bytes exactly if bytes can arrive at all and
      the pop and the add are seen apart or the window is larger than the ring. */
  lemma UnreleasedBeyondRingIff(c: Setup)
    ensures (exists s :: Reachable(c, s) && s.tail - s.released > c.cap)
       <==> c.cap > 0 && c.window > 0 && (!c.joint || c.window > c.cap)
  {
    if c.cap > 0 && c.window > c.cap {
      WideWindowRefills(c);
    } else if !c.joint && c.cap > 0 && c.window > 0 {
      SplitPopOvergrants(c);
    } else {
      forall s | Reachable(c, s) ensures s.tail - s.released <= c.cap {
        if c.cap == 0 || c.window == 0 { NothingArrives(c, s); } else { UnreleasedWithinRing(c, s); }
      }
    }
  }

  /** "Accounts for bytes dispatched to Python but not released" is true of the moment between a
      chunk's wrapping and its first view only: outside it nothing is pending, however much the
      application holds, and a credit event grants the whole free ring. */
  lemma GrantIgnoresChunks(c: Setup, s: State)
    requires Reachable(c, s) && s.consumer.pc != CView
    ensures s.pend == 0 && Grant(s) == s.worker.free
  {
    ReachableFin(c, s);
  }

  lemma {:induction false} HoldMany(c: Setup, n: nat) returns (s: State)
    requires c.cap > 0 && c.window > 0
    ensures Rested(c, s) && s.held == n
  {
    if n == 0 {
      s := Begin(c);
    } else {
      s := HoldMany(c, n - 1);
      s := AnotherByte(c, s);
    }
  }

  ghost predicate HoldsMore(c: Setup, n: nat) {
    exists s :: Reachable(c, s) && s.held > n
  }

  /** So what the application may come to hold has no bound at all on any stream that can receive
      a byte, joint or not and whatever the window. */
  lemma HeldUnboundedIff(c: Setup)
    ensures (forall n: nat :: HoldsMore(c, n)) <==> c.cap > 0 && c.window > 0
  {
    if c.cap > 0 && c.window > 0 {
      forall n: nat ensures HoldsMore(c, n) {
        var s := HoldMany(c, n + 1);
      }
    } else {
      forall s | Reachable(c, s) ensures s.held == 0 {
        NothingArrives(c, s);
      }
      assert !HoldsMore(c, 0);
    }
  }

  /** "No credit once FIN arrived" (section 3.3 of RFC 9000), event by event. After the end a
      credit event gets past the FIN check exactly if the end came without bytes, and then grants,
      whatever the consumer did in between, exactly if the ring it saw free outweighs what is
      pending. */
  lemma CreditAfterEnd(c: Setup, s: State)
    requires Reachable(c, s) && s.ended
    ensures Enabled(s, Credit) ==> (Apply(s, Credit).worker.pc == KPend <==> s.bare)
    ensures s.worker.pc == KPend ==> s.bare && (!s.late ==> (WorkerStepOf(s).late <==> s.pend < s.worker.free))
  {
    ReachableFin(c, s);
  }

  /** The state a credit event leaves that nothing interrupts. */
  function AfterCredit(s: State): State
    requires Enabled(s, Credit)
  {
    var t := Apply(s, Credit);
    if t.worker.pc == KPend then WorkerStepOf(t) else t
  }

  /** Uninterrupted, a credit event after the end is late exactly if the end came without bytes and
      the ring has room that no pending byte claims. */
  lemma LateCreditIff(c: Setup, s: State)
    requires Reachable(c, s) && s.ended && !s.late && Enabled(s, Credit)
    ensures AfterCredit(s).late <==> s.bare && s.pend < Free(s)
  {
    ReachableFin(c, s);
  }

  lemma NoCreditAfterFin(c: Setup, s: State)
    requires Reachable(c, s) && s.late
    ensures s.ended && s.bare
  {
    ReachableFin(c, s);
  }

  /** Every stream that can receive a byte at all has a run that grants credit after a bare end. */
  lemma CreditAfterBareFin(c: Setup)
    ensures (exists s :: Reachable(c, s) && s.late) <==> c.cap > 0 && c.window > 0
  {
    if c.cap > 0 && c.window > 0 {
      var s := Begin(c);
      s := OneByte(c, s);
      s := Go(c, s, EndBare);
      s := Go(c, s, Credit);
      s := Go(c, s, WorkerStep);
    } else {
      forall s | Reachable(c, s) ensures !s.late {
        NothingArrives(c, s);
      }
    }
  }

  lemma Begin(c: Setup) returns (s: State)
    ensures s == Start(c) && Reachable(c, s)
  {
    s := Start(c);
    Runs.InitialReachable(From(c), Next, s);
  }

  lemma Go(c: Setup, s: State, step: Step) returns (t: State)
    requires Reachable(c, s) && Enabled(s, step)
    ensures t == Apply(s, step) && Reachable(c, t)
  {
    t := Apply(s, step);
    assert Takes(s, step, t);
    Runs.NextReachable(From(c), Next, s, t);
  }
}

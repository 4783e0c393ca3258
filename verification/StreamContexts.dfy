/** Lifetimes of the stream contexts (sc) of one connection (callback.h, stream_ctx.h,
    _transport.pyx, connection.py). A context starts with one reference, the stream's; queued
    events, TX commands, chunks, credit notes and held resets own one each. The stream's reference
    is dropped by the batch that routed STREAM_DESTROY, or by the connection when it routes CLOSE.
    Worker and asyncio act in any order; queues are the FIFOs EventQueue proves, bytes are
    StreamRecv's. picoquic is an adversary that calls nothing for a stream after releasing it and,
    once disconnecting, pulls no stream data. */
module StreamContexts {
  import Runs

  type Sc = nat
  type Sid = nat

  datatype Event =
    | Data(sc: Sc)                   // RX: STREAM_DATA
    | Fin(sc: Sc)                    // RX: STREAM_FIN
    | Peer(sc: Sc)                   // RX: STREAM_RESET, STOP_SENDING
    | Destroy(sc: Sc)                // RX: STREAM_DESTROY, carries the stream's reference
    | Close                          // RX: CLOSE, APP_CLOSE
    | Skipped                        // RX: a STREAM_DATA the drain dropped for want of bytes
    | Mark(sc: Sc)                   // TX: MARK_ACTIVE
    | Cut(sc: Sc)                    // TX: STREAM_RESET, STOP_SENDING
    | Credit(sc: Sc)                 // TX: OPEN_FLOW_CONTROL

  /** aiopquic_rx_event_owns_sc and aiopquic_tx_event_owns_sc. */
  predicate Owns(e: Event) { !e.Destroy? && !e.Close? && !e.Skipped? }

  predicate Note(e: Event) { e.Data? || e.Fin? || e.Peer? }

  /** What asyncio does with a batch: drain it, route it, drop its references. */
  datatype Phase = Draining | Routing | Releasing

  datatype State = State(
    sid: map<Sc, Sid>,               // every context ever created, and its stream
    count: multiset<Sc>,             // reference counts; a created context not in it is freed
    // worker
    slot: map<Sid, Sc>,              // picoquic's app_stream_ctx
    released: set<Sid>,              // stream_released was called
    closing: bool,                   // the cnx is disconnecting or later
    resets: multiset<Sc>,            // held resets
    filled: set<Sc>,                 // contexts with bytes in the RX ring
    armed: set<Sc>,                  // rx_event_pending
    // queues
    log: seq<Event>, head: nat,      // RX: everything pushed, how much was drained
    cmds: seq<Event>,                // TX
    // asyncio
    phase: Phase, next: nat,         // the batch is log[base..head], routed up to next
    base: nat,                       // references dropped up to base
    owned: set<Sc>,                  // _sc_owned
    ctxs: map<Sid, Sc>,              // _stream_ctxs
    dropped: bool,                   // _stream_ctxs_dropped
    chunks: multiset<Sc>, notes: multiset<Sc>,
    // history
    tokens: set<Sc>,                 // contexts whose stream reference was not dropped
    first: map<Sc, nat>,             // where the first event of a worker-made context is
    gone: map<Sc, nat>,              // where its STREAM_DESTROY is
    closed: bool, closeAt: nat,      // the first CLOSE was pushed, and where
    eventRefs: multiset<Sc>,         // references owned by the RX events from base on,
    cmdRefs: multiset<Sc>,           //   and by the TX commands
    frees: multiset<Sc>,
    fault: bool)                     // some step touched or dropped a freed context

  datatype Step =
    // worker
    | Arrive(id: Sid, made: Sc, fin: bool)
    | PeerCall(id: Sid, fin: bool)
    | ReleaseStream(id: Sid)
    | HandleCmd(defer: bool, attach: bool)
    | Detach(id: Sid)                // a RESET or STOP_SENDING without a context
    | RunHeld(sc: Sc)
    | Disconnect
    | PushClose
    // asyncio
    | Open(id: Sid, made: Sc)       // _get_or_create_stream_ctx of a new stream
    | Command(id: Sid, mark: bool)
    | Drain
    | FlushNote(sc: Sc, push: bool)
    | BeginRoute
    | Route
    | BeginRelease
    | Release
    | BeginDrain
    | DropChunk(sc: Sc)

  predicate Init(s: State) {
    && s.sid == s.first == s.gone == map[] && s.slot == s.ctxs == map[]
    && s.count == s.resets == s.chunks == s.notes == s.frees == s.eventRefs == s.cmdRefs == multiset{}
    && s.released == {} && s.filled == s.armed == s.owned == s.tokens == {}
    && s.log == s.cmds == [] && s.head == s.next == s.base == 0 && s.phase == Draining
    && !s.closing && !s.dropped && !s.closed && !s.fault
  }

  predicate Enabled(s: State, step: Step) {
    match step
    case Arrive(id, made, _) => !s.closing && id !in s.released && made !in s.sid
    case PeerCall(id, _) => !s.closing && id !in s.released && id in s.slot
    case ReleaseStream(id) => !s.closing && id !in s.released
    case HandleCmd(_, _) => s.cmds != []
    case Detach(_) => true
    case RunHeld(sc) => sc in s.resets
    case Disconnect => true
    case PushClose => s.closing
    case Open(id, made) => !s.dropped && id !in s.ctxs && made !in s.sid
    case Command(id, _) => id in s.ctxs
    case Drain => s.phase == Draining && s.head < |s.log|
    case FlushNote(sc, _) => sc in s.notes
    case BeginRoute => s.phase == Draining
    case Route => s.phase == Routing && s.next < s.head
    case BeginRelease => s.phase == Routing && s.next == s.head
    case Release => s.phase == Releasing && s.base < s.head
    case BeginDrain => s.phase == Releasing && s.base == s.head
    case DropChunk(sc) => sc in s.chunks
  }

  /** The frees of dropping one reference. */
  function Gone(s: State, sc: Sc): multiset<Sc> { if s.count[sc] == 1 then multiset{sc} else multiset{} }

  /** stream_data / stream_fin with bytes on a stream without a context: one is made. */
  function ArriveNew(s: State, id: Sid, made: Sc, fin: bool): State {
    s.(sid := s.sid[made := id], slot := s.slot[id := made], tokens := s.tokens + {made},
       first := s.first[made := |s.log|], count := s.count + multiset{made, made},
       eventRefs := s.eventRefs + multiset{made},
       filled := s.filled + {made}, armed := if fin then s.armed else s.armed + {made},
       log := s.log + [if fin then Fin(made) else Data(made)])
  }

  /** ... on a stream with one: STREAM_DATA only if none is outstanding, STREAM_FIN always. */
  function ArriveMore(s: State, sc: Sc, fin: bool): State {
    if !fin && sc in s.armed then s.(filled := s.filled + {sc}, fault := s.fault || sc !in s.count)
    else
      s.(filled := s.filled + {sc}, fault := s.fault || sc !in s.count,
         armed := if fin then s.armed else s.armed + {sc}, count := s.count + multiset{sc},
         eventRefs := s.eventRefs + multiset{sc},
         log := s.log + [if fin then Fin(sc) else Data(sc)])
  }

  /** stream_reset, stop_sending, or a FIN without bytes, on a stream with a context. */
  function PeerStep(s: State, id: Sid, fin: bool): State
    requires id in s.slot
  {
    var sc := s.slot[id];
    s.(count := s.count + multiset{sc}, eventRefs := s.eventRefs + multiset{sc}, fault := s.fault || sc !in s.count,
       log := s.log + [if fin then Fin(sc) else Peer(sc)])
  }

  function ReleaseStreamStep(s: State, id: Sid): State {
    if id in s.slot then
      s.(released := s.released + {id}, slot := s.slot - {id}, log := s.log + [Destroy(s.slot[id])],
         gone := s.gone[s.slot[id] := |s.log|])
    else s.(released := s.released + {id})
  }

  function StreamOf(s: State, sc: Sc): Sid { if sc in s.sid then s.sid[sc] else 0 }

  /** picoquic takes the context unless the cnx is closing or the stream is gone. */
  function Attach(s: State, sc: Sc): map<Sid, Sc> {
    if s.closing || StreamOf(s, sc) in s.released then s.slot else s.slot[StreamOf(s, sc) := sc]
  }

  /** The drain loop of the worker: MARK attaches, RESET and STOP_SENDING detach and reattach or
      hold the reset, and the command's reference is dropped. */
  function HandleStep(s: State, defer: bool, attach: bool): State
    requires s.cmds != []
  {
    var sc := if Owns(s.cmds[0]) then s.cmds[0].sc else 0;
    if s.cmds[0].Cut? && defer then
      s.(cmds := s.cmds[1..], cmdRefs := s.cmdRefs - multiset{sc}, slot := Attach(s, sc),
         resets := s.resets + multiset{sc}, fault := s.fault || sc !in s.count)
    else
      s.(cmds := s.cmds[1..], cmdRefs := s.cmdRefs - multiset{sc},
         slot := if attach && !s.cmds[0].Credit? then Attach(s, sc) else s.slot,
         count := s.count - multiset{sc}, frees := s.frees + Gone(s, sc), fault := s.fault || sc !in s.count)
  }

  /** The end of a held reset, on whichever path. */
  function HeldStep(s: State, sc: Sc): State {
    s.(resets := s.resets - multiset{sc}, slot := Attach(s, sc),
       count := s.count - multiset{sc}, frees := s.frees + Gone(s, sc), fault := s.fault || sc !in s.count)
  }

  function OpenStep(s: State, id: Sid, made: Sc): State {
    s.(sid := s.sid[made := id], count := s.count + multiset{made}, tokens := s.tokens + {made},
       owned := s.owned + {made}, ctxs := s.ctxs[id := made])
  }

  function CommandStep(s: State, id: Sid, mark: bool): State
    requires id in s.ctxs
  {
    var sc := s.ctxs[id];
    s.(cmds := s.cmds + [if mark then Mark(sc) else Cut(sc)], cmdRefs := s.cmdRefs + multiset{sc},
       count := s.count + multiset{sc},
       fault := s.fault || sc !in s.count)
  }

  /** A STREAM_DATA or STREAM_FIN whose context has bytes: they become a chunk and a credit note. */
  function DrainBytes(s: State, sc: Sc): State {
    s.(head := s.head + 1, filled := s.filled - {sc}, armed := s.armed - {sc},
       chunks := s.chunks + multiset{sc}, notes := s.notes + multiset{sc},
       count := s.count + multiset{sc, sc}, fault := s.fault || sc !in s.count)
  }

  /** A STREAM_FIN without bytes. */
  function DrainFin(s: State, sc: Sc): State {
    s.(head := s.head + 1, armed := s.armed - {sc}, fault := s.fault || sc !in s.count)
  }

  /** A STREAM_DATA without bytes is dropped on the spot. */
  function DrainSkip(s: State, sc: Sc): State
    requires s.head < |s.log|
  {
    s.(head := s.head + 1, armed := s.armed - {sc}, log := s.log[s.head := Skipped],
       eventRefs := s.eventRefs - multiset{sc},
       count := s.count - multiset{sc}, frees := s.frees + Gone(s, sc), fault := s.fault || sc !in s.count)
  }

  /** One entry of drain_rx; what is not dropped joins the batch with its reference. */
  function DrainStep(s: State): State
    requires s.head < |s.log|
  {
    var e := s.log[s.head];
    if !e.Data? && !e.Fin? then DrainPast(s)
    else if e.sc in s.filled then DrainBytes(s, e.sc)
    else if e.Fin? then DrainFin(s, e.sc)
    else DrainSkip(s, e.sc)
  }

  /** _flush_pending_fc: perhaps a credit command, then the note's reference goes. */
  function FlushStep(s: State, sc: Sc, push: bool): State {
    if push then
      s.(notes := s.notes - multiset{sc}, cmds := s.cmds + [Credit(sc)], cmdRefs := s.cmdRefs + multiset{sc},
         fault := s.fault || sc !in s.count)
    else s.(notes := s.notes - multiset{sc}, count := s.count - multiset{sc}, frees := s.frees + Gone(s, sc),
            fault := s.fault || sc !in s.count)
  }

  /** The frees of dropping one reference to each of a set of contexts. */
  function FreedBy(count: multiset<Sc>, scs: set<Sc>): multiset<Sc> {
    multiset(set sc | sc in scs && count[sc] == 1)
  }

  function DrainPast(s: State): State { s.(head := s.head + 1) }

  function RoutePast(s: State): State { s.(next := s.next + 1) }

  function ReleasePast(s: State): State { s.(base := s.base + 1) }

  /** STREAM_DESTROY in the connection. */
  function RouteDestroy(s: State, sc: Sc): State {
    s.(next := s.next + 1, owned := s.owned - {sc}, ctxs := s.ctxs - {StreamOf(s, sc)})
  }

  /** CLOSE or APP_CLOSE in the connection: _destroy_stream_ctxs. */
  function RouteClose(s: State): State {
    s.(next := s.next + 1, dropped := true, ctxs := map[], owned := {}, tokens := s.tokens - s.owned,
       count := s.count - multiset(s.owned), frees := s.frees + FreedBy(s.count, s.owned),
       fault := s.fault || exists sc :: sc in s.owned && sc !in s.count)
  }

  /** _adopt_stream_ctx. */
  function Adopt(s: State, sc: Sc): State {
    if s.dropped then s.(next := s.next + 1)
    else s.(next := s.next + 1, owned := s.owned + {sc},
            ctxs := if StreamOf(s, sc) in s.ctxs then s.ctxs else s.ctxs[StreamOf(s, sc) := sc])
  }

  function RouteStep(s: State): State
    requires s.next < |s.log|
  {
    var e := s.log[s.next];
    if e.Destroy? then RouteDestroy(s, e.sc)
    else if e.Close? then RouteClose(s)
    else if Note(e) then Adopt(s, e.sc)
    else RoutePast(s)
  }

  /** release_batch, one entry that carries a reference. */
  function Unref(s: State, sc: Sc, token: bool): State {
    s.(base := s.base + 1, tokens := if token then s.tokens - {sc} else s.tokens,
       eventRefs := if token then s.eventRefs else s.eventRefs - multiset{sc},
       count := s.count - multiset{sc}, frees := s.frees + Gone(s, sc), fault := s.fault || sc !in s.count)
  }

  function ReleaseStep(s: State): State
    requires s.base < |s.log|
  {
    var e := s.log[s.base];
    if e.Destroy? || Owns(e) then Unref(s, e.sc, e.Destroy?) else ReleasePast(s)
  }

  function DropChunkStep(s: State, sc: Sc): State {
    s.(chunks := s.chunks - multiset{sc}, count := s.count - multiset{sc}, frees := s.frees + Gone(s, sc),
       fault := s.fault || sc !in s.count)
  }

  function Apply(s: State, step: Step): State
    requires Enabled(s, step) && s.next <= s.head <= |s.log|
  {
    match step
    case Arrive(id, made, fin) =>
      if id in s.slot then ArriveMore(s, s.slot[id], fin) else ArriveNew(s, id, made, fin)
    case PeerCall(id, fin) => PeerStep(s, id, fin)
    case ReleaseStream(id) => ReleaseStreamStep(s, id)
    case HandleCmd(defer, attach) => HandleStep(s, defer, attach)
    case Detach(id) => s.(slot := s.slot - {id})
    case RunHeld(sc) => HeldStep(s, sc)
    case Disconnect => s.(closing := true)
    case PushClose =>
      s.(log := s.log + [Close], closed := true, closeAt := if s.closed then s.closeAt else |s.log|)
    case Open(id, made) => OpenStep(s, id, made)
    case Command(id, mark) => CommandStep(s, id, mark)
    case Drain => DrainStep(s)
    case FlushNote(sc, push) => FlushStep(s, sc, push)
    case BeginRoute => s.(phase := Routing)
    case Route => RouteStep(s)
    case BeginRelease => s.(phase := Releasing)
    case Release => ReleaseStep(s)
    case BeginDrain => s.(phase := Draining)
    case DropChunk(sc) => DropChunkStep(s, sc)
  }

  ghost predicate Takes(s: State, step: Step, t: State) {
    Enabled(s, step) && s.next <= s.head <= |s.log| && t == Apply(s, step)
  }

  ghost predicate Next(s: State, t: State) {
    exists step :: Takes(s, step, t)
  }

  ghost predicate Reachable(s: State) {
    Runs.Reachable(Init, Next, s)
  }

  // ---- the references of a stretch of a queue ------------------------------------------------

  function Own(e: Event): multiset<Sc> { if Owns(e) then multiset{e.sc} else multiset{} }

  function Refs(es: seq<Event>, lo: nat, hi: nat): multiset<Sc>
    requires hi <= |es|
    decreases hi
  {
    if hi <= lo then multiset{} else Refs(es, lo, hi - 1) + Own(es[hi - 1])
  }

  lemma {:induction false} RefsSame(es: seq<Event>, fs: seq<Event>, lo: nat, hi: nat)
    requires hi <= |es| && hi <= |fs| && forall i :: lo <= i < hi ==> es[i] == fs[i]
    ensures Refs(es, lo, hi) == Refs(fs, lo, hi)
    decreases hi
  {
    if lo < hi { RefsSame(es, fs, lo, hi - 1); }
  }

  lemma RefsAppend(es: seq<Event>, lo: nat, e: Event)
    requires lo <= |es|
    ensures Refs(es + [e], lo, |es| + 1) == Refs(es, lo, |es|) + Own(e)
  {
    RefsSame(es + [e], es, lo, |es|);
  }

  lemma RefsLast(es: seq<Event>, lo: nat, hi: nat)
    requires lo < hi <= |es|
    ensures Refs(es, lo, hi) == Refs(es, lo, hi - 1) + Own(es[hi - 1])
  {
  }

  lemma {:induction false} RefsCut(es: seq<Event>, lo: nat, i: nat, hi: nat, x: Sc)
    requires lo <= i < hi <= |es|
    ensures Refs(es, lo, hi)[x] == Refs(es, lo, i)[x] + Own(es[i])[x] + Refs(es, i + 1, hi)[x]
    decreases hi
  {
    RefsLast(es, lo, hi);
    if i < hi - 1 {
      RefsCut(es, lo, i, hi - 1, x);
      RefsLast(es, i + 1, hi);
    } else {
      assert Refs(es, hi, hi)[x] == 0;
    }
  }

  lemma RefsFront(es: seq<Event>, lo: nat, hi: nat)
    requires lo < hi <= |es|
    ensures Refs(es, lo, hi) == Own(es[lo]) + Refs(es, lo + 1, hi)
  {
    forall x ensures Refs(es, lo, hi)[x] == (Own(es[lo]) + Refs(es, lo + 1, hi))[x] {
      RefsCut(es, lo, lo, hi, x);
    }
  }

  lemma RefsSkipAt(es: seq<Event>, fs: seq<Event>, lo: nat, hi: nat, i: nat, x: Sc)
    requires lo <= i < hi <= |es| == |fs| && fs[i] == Skipped
    requires Refs(es, lo, i) == Refs(fs, lo, i) && Refs(es, i + 1, hi) == Refs(fs, i + 1, hi)
    ensures (Refs(fs, lo, hi) + Own(es[i]))[x] == Refs(es, lo, hi)[x]
  {
    RefsCut(es, lo, i, hi, x);
    RefsCut(fs, lo, i, hi, x);
  }

  lemma RefsSkip(es: seq<Event>, lo: nat, hi: nat, i: nat)
    requires lo <= i < hi <= |es|
    ensures Refs(es[i := Skipped], lo, hi) + Own(es[i]) == Refs(es, lo, hi)
  {
    var fs := es[i := Skipped];
    RefsSame(es, fs, lo, i);
    RefsSame(es, fs, i + 1, hi);
    forall x ensures (Refs(fs, lo, hi) + Own(es[i]))[x] == Refs(es, lo, hi)[x] {
      RefsSkipAt(es, fs, lo, hi, i, x);
    }
  }

  lemma {:induction false} RefsHas(es: seq<Event>, lo: nat, hi: nat, i: nat)
    requires lo <= i < hi <= |es| && Owns(es[i])
    ensures es[i].sc in Refs(es, lo, hi)
    decreases hi
  {
    if i < hi - 1 { RefsHas(es, lo, hi - 1, i); }
  }

  /** A command leaves the TX queue. */
  lemma {:induction false} RefsTail(es: seq<Event>, n: nat)
    requires 0 < n <= |es|
    ensures Refs(es[1..], 0, n - 1) == Refs(es, 1, n)
    decreases n
  {
    if n > 1 {
      RefsTail(es, n - 1);
      assert es[1..][n - 2] == es[n - 1];
    }
  }

  // ---- the inductive invariant ---------------------------------------------------------------

  predicate IsCommand(e: Event) { e.Mark? || e.Cut? || e.Credit? }

  predicate AtDrain(s: State) { s.phase == Draining && s.head < |s.log| }

  predicate AtRoute(s: State) { s.phase == Routing && s.next < s.head <= |s.log| }

  predicate AtRelease(s: State) { s.phase == Releasing && s.base < s.head <= |s.log| }

  /** The batch is log[base..head], routed up to next. */
  predicate Cursors(phase: Phase, base: nat, next: nat, head: nat, pushed: nat) {
    && base <= next <= head <= pushed
    && (phase == Draining ==> next == base)
    && (phase == Releasing ==> next == head)
  }

  ghost predicate Queues(log: seq<Event>, cmds: seq<Event>, sid: map<Sc, Sid>) {
    && (forall i :: 0 <= i < |log| ==> !IsCommand(log[i]))
    && (forall i :: 0 <= i < |cmds| ==> IsCommand(cmds[i]) && cmds[i].sc in sid)
  }

  /** Nothing but CLOSE follows a CLOSE. */
  ghost predicate Closing(log: seq<Event>, closed: bool, closeAt: nat) {
    && (closed ==> closeAt < |log|)
    && (forall i :: 0 <= i < |log| ==> (log[i].Close? <==> closed && i >= closeAt))
  }

  ghost predicate Slots(slot: map<Sid, Sc>, sid: map<Sc, Sid>, released: set<Sid>) {
    forall id :: id in slot ==> slot[id] in sid && sid[slot[id]] == id && id !in released
  }

  ghost predicate Ctxs(ctxs: map<Sid, Sc>, sid: map<Sc, Sid>, owned: set<Sc>) {
    forall id :: id in ctxs ==> ctxs[id] in owned && ctxs[id] in sid && sid[ctxs[id]] == id
  }

  ghost predicate Known(scs: multiset<Sc>, sid: map<Sc, Sid>) {
    forall sc :: sc in scs ==> sc in sid
  }

  /** STREAM_DESTROY is the last event of its context, pushed once and only for a released stream. */
  ghost predicate Destroys(log: seq<Event>, gone: map<Sc, nat>, sid: map<Sc, Sid>, released: set<Sid>) {
    && (forall x :: x in gone ==> gone[x] < |log| && log[gone[x]] == Destroy(x) && x in sid && sid[x] in released)
    && (forall i :: 0 <= i < |log| && log[i].Destroy? ==> log[i].sc in gone && gone[log[i].sc] == i)
    && (forall i :: 0 <= i < |log| && Note(log[i]) ==> log[i].sc in sid && (log[i].sc in gone ==> i < gone[log[i].sc]))
  }

  /** The first event of a worker-made context brings bytes, so the drain cannot skip it. */
  ghost predicate Firsts(log: seq<Event>, first: map<Sc, nat>, head: nat, filled: set<Sc>) {
    && (forall x :: x in first ==>
          && first[x] < |log| && (log[first[x]] == Data(x) || log[first[x]] == Fin(x))
          && (first[x] >= head ==> x in filled))
    && (forall i :: 0 <= i < |log| && Note(log[i]) && log[i].sc in first ==> first[log[i].sc] <= i)
  }

  /** The stream's reference of x is with the connection, or in a STREAM_DESTROY whose batch still
      holds it, or comes with an event nobody has routed. */
  predicate Placed(x: Sc, owned: set<Sc>, gone: map<Sc, nat>, first: map<Sc, nat>, base: nat, next: nat) {
    || x in owned
    || (x in gone && gone[x] >= base)
    || (x in first && first[x] >= next)
  }

  ghost predicate Tokens(tokens: set<Sc>, owned: set<Sc>, gone: map<Sc, nat>, first: map<Sc, nat>, base: nat, next: nat) {
    && (forall x :: x in owned ==> x in tokens && (x in gone ==> gone[x] >= next))
    && (forall x :: x in gone && gone[x] >= base ==> x in tokens)
    && (forall x :: x in tokens ==> Placed(x, owned, gone, first, base, next))
  }

  /** Until the connection drops them, a context without its stream's reference went by its batch. */
  ghost predicate Kept(sid: map<Sc, Sid>, tokens: set<Sc>, gone: map<Sc, nat>, base: nat, dropped: bool) {
    && (forall x :: x in tokens ==> x in sid)
    && (!dropped ==> forall x :: x in sid ==> x in tokens || (x in gone && gone[x] < base))
  }

  function B(b: bool): nat { if b then 1 else 0 }

  ghost predicate Places(s: State) {
    && Cursors(s.phase, s.base, s.next, s.head, |s.log|)
    && Queues(s.log, s.cmds, s.sid)
    && Closing(s.log, s.closed, s.closeAt) && (s.closed ==> s.closing)
    && (s.dropped <==> s.closed && s.closeAt < s.next)
    && (s.dropped ==> s.owned == {} && s.ctxs == map[])
    && Slots(s.slot, s.sid, s.released)
    && Ctxs(s.ctxs, s.sid, s.owned)
    && Known(s.resets, s.sid) && Known(s.notes, s.sid)
    && Destroys(s.log, s.gone, s.sid, s.released)
    && Firsts(s.log, s.first, s.head, s.filled)
    && Tokens(s.tokens, s.owned, s.gone, s.first, s.base, s.next)
    && Kept(s.sid, s.tokens, s.gone, s.base, s.dropped)
  }

  /** The reference count of every context is the number of its holders. */
  ghost predicate Balanced(count: multiset<Sc>, events: multiset<Sc>, cmds: multiset<Sc>, chunks: multiset<Sc>,
                           notes: multiset<Sc>, resets: multiset<Sc>, tokens: set<Sc>) {
    forall x :: count[x] == events[x] + cmds[x] + chunks[x] + notes[x] + resets[x] + B(x in tokens)
  }

  ghost predicate Counts(s: State) {
    Balanced(s.count, s.eventRefs, s.cmdRefs, s.chunks, s.notes, s.resets, s.tokens)
  }

  /** The two queues own what the history says. */
  ghost predicate TiedLog(log: seq<Event>, base: nat, refs: multiset<Sc>) {
    base <= |log| && refs == Refs(log, base, |log|)
  }

  ghost predicate TiedCmds(cmds: seq<Event>, refs: multiset<Sc>) {
    refs == Refs(cmds, 0, |cmds|)
  }

  ghost predicate Tied(s: State) {
    TiedLog(s.log, s.base, s.eventRefs) && TiedCmds(s.cmds, s.cmdRefs)
  }

  /** A context is freed once, when its last reference goes. */
  ghost predicate Frees(frees: multiset<Sc>, count: multiset<Sc>, sid: map<Sc, Sid>) {
    && (forall x :: frees[x] == B(x in sid && x !in count))
    && Known(count, sid)
  }

  ghost predicate Freed(s: State) { !s.fault && Frees(s.frees, s.count, s.sid) }

  ghost predicate Books(s: State) { Tied(s) && Counts(s) && Freed(s) }

  ghost predicate Inv(s: State) { Places(s) && Books(s) }

  // ---- pushing, draining and routing, part by part -------------------------------------------

  lemma NotePushed(log: seq<Event>, gone: map<Sc, nat>, sid: map<Sc, Sid>, released: set<Sid>, e: Event)
    requires Destroys(log, gone, sid, released) && Note(e) && e.sc in sid && e.sc !in gone
    ensures Destroys(log + [e], gone, sid, released)
  {
  }

  lemma DestroyPushed(log: seq<Event>, gone: map<Sc, nat>, sid: map<Sc, Sid>, released: set<Sid>, sc: Sc)
    requires Destroys(log, gone, sid, released) && sc in sid && sc !in gone
    ensures Destroys(log + [Destroy(sc)], gone[sc := |log|], sid, released + {sid[sc]})
  {
  }

  lemma ClosePushed(log: seq<Event>, gone: map<Sc, nat>, sid: map<Sc, Sid>, released: set<Sid>)
    requires Destroys(log, gone, sid, released)
    ensures Destroys(log + [Close], gone, sid, released)
  {
  }

  lemma NoteSkipped(log: seq<Event>, gone: map<Sc, nat>, sid: map<Sc, Sid>, released: set<Sid>, i: nat)
    requires Destroys(log, gone, sid, released) && i < |log| && Note(log[i])
    ensures Destroys(log[i := Skipped], gone, sid, released)
  {
  }

  lemma ContextMade(log: seq<Event>, gone: map<Sc, nat>, sid: map<Sc, Sid>, released: set<Sid>, sc: Sc, id: Sid)
    requires Destroys(log, gone, sid, released) && sc !in sid
    ensures sc !in gone && Destroys(log, gone, sid[sc := id], released)
  {
  }

  lemma StreamGone(log: seq<Event>, gone: map<Sc, nat>, sid: map<Sc, Sid>, released: set<Sid>, id: Sid)
    requires Destroys(log, gone, sid, released)
    ensures Destroys(log, gone, sid, released + {id})
  {
  }

  lemma FirstsPush(log: seq<Event>, first: map<Sc, nat>, head: nat, filled: set<Sc>, e: Event, more: set<Sc>)
    requires Firsts(log, first, head, filled) && filled <= more
    ensures Firsts(log, first, head, more) && Firsts(log + [e], first, head, more)
  {
  }

  lemma FirstsNew(log: seq<Event>, first: map<Sc, nat>, head: nat, filled: set<Sc>, e: Event)
    requires Firsts(log, first, head, filled) && (e.Data? || e.Fin?)
    requires forall i :: 0 <= i < |log| && Note(log[i]) ==> log[i].sc != e.sc
    ensures Firsts(log + [e], first[e.sc := |log|], head, filled + {e.sc})
  {
  }

  /** The drain passes an entry, taking the bytes of the context it names. */
  lemma FirstsDrain(log: seq<Event>, first: map<Sc, nat>, head: nat, filled: set<Sc>, sc: Sc)
    requires Firsts(log, first, head, filled) && head < |log|
    requires sc in filled ==> Note(log[head]) && log[head].sc == sc
    ensures Firsts(log, first, head + 1, filled - {sc})
  {
  }

  lemma FirstsSkip(log: seq<Event>, first: map<Sc, nat>, head: nat, filled: set<Sc>, sc: Sc)
    requires Firsts(log, first, head, filled) && head < |log| && log[head] == Data(sc) && sc !in filled
    ensures Firsts(log[head := Skipped], first, head + 1, filled)
  {
  }

  lemma FirstsPass(log: seq<Event>, first: map<Sc, nat>, head: nat, filled: set<Sc>)
    requires Firsts(log, first, head, filled) && head < |log| && !log[head].Data? && !log[head].Fin?
    ensures Firsts(log, first, head + 1, filled)
  {
  }

  /** A context picoquic still names has not been destroyed. */
  lemma SlotNotGone(s: State, id: Sid)
    requires Slots(s.slot, s.sid, s.released) && Destroys(s.log, s.gone, s.sid, s.released) && id in s.slot
    ensures s.slot[id] in s.sid && s.sid[s.slot[id]] == id && s.slot[id] !in s.gone
  {
  }

  lemma NewNeverNamed(log: seq<Event>, gone: map<Sc, nat>, sid: map<Sc, Sid>, released: set<Sid>, sc: Sc)
    requires Destroys(log, gone, sid, released) && sc !in sid
    ensures sc !in gone && forall i :: 0 <= i < |log| && Note(log[i]) ==> log[i].sc != sc
  {
  }

  /** What a larger table of contexts leaves as it was. */
  lemma SidGrows(s: State, sc: Sc, id: Sid)
    requires Queues(s.log, s.cmds, s.sid) && Slots(s.slot, s.sid, s.released) && Ctxs(s.ctxs, s.sid, s.owned)
    requires Known(s.resets, s.sid) && Known(s.notes, s.sid) && sc !in s.sid
    ensures var sid := s.sid[sc := id];
            && Queues(s.log, s.cmds, sid) && Slots(s.slot, sid, s.released) && Ctxs(s.ctxs, sid, s.owned)
            && Known(s.resets, sid) && Known(s.notes, sid)
            && (id !in s.released ==> Slots(s.slot[id := sc], sid, s.released))
            && Ctxs(s.ctxs[id := sc], sid, s.owned + {sc})
  {
  }

  lemma KeptGrows(s: State, sc: Sc, id: Sid)
    requires Kept(s.sid, s.tokens, s.gone, s.base, s.dropped) && sc !in s.sid
    ensures Kept(s.sid[sc := id], s.tokens + {sc}, s.gone, s.base, s.dropped)
  {
  }

  lemma TokensGrow(s: State, sc: Sc)
    requires Tokens(s.tokens, s.owned, s.gone, s.first, s.base, s.next) && sc !in s.gone && s.next <= |s.log|
    ensures Tokens(s.tokens + {sc}, s.owned, s.gone, s.first[sc := |s.log|], s.base, s.next)
    ensures Tokens(s.tokens + {sc}, s.owned + {sc}, s.gone, s.first, s.base, s.next)
  {
  }

  /** STREAM_DESTROY takes the stream's reference along. */
  lemma TokensDestroy(s: State, sc: Sc)
    requires Tokens(s.tokens, s.owned, s.gone, s.first, s.base, s.next) && sc in s.tokens && sc !in s.gone
    requires s.base <= |s.log| && s.next <= |s.log| && Kept(s.sid, s.tokens, s.gone, s.base, s.dropped)
    ensures Tokens(s.tokens, s.owned, s.gone[sc := |s.log|], s.first, s.base, s.next)
    ensures Kept(s.sid, s.tokens, s.gone[sc := |s.log|], s.base, s.dropped)
  {
  }

  lemma SlotsRelease(s: State, id: Sid)
    requires Slots(s.slot, s.sid, s.released)
    ensures Slots(s.slot - {id}, s.sid, s.released + {id})
    ensures id !in s.slot ==> Slots(s.slot, s.sid, s.released + {id})
  {
  }

  /** The context of the event being routed has its stream's reference, and no STREAM_DESTROY yet. */
  lemma RoutedHasToken(s: State, sc: Sc)
    requires s.base <= s.next < |s.log| && Note(s.log[s.next]) && s.log[s.next].sc == sc && !s.dropped
    requires Destroys(s.log, s.gone, s.sid, s.released) && Kept(s.sid, s.tokens, s.gone, s.base, s.dropped)
    ensures sc in s.sid && sc in s.tokens && (sc in s.gone ==> s.next < s.gone[sc])
    ensures forall x :: x in s.gone ==> s.gone[x] != s.next
  {
  }

  lemma FirstIsRouted(s: State, sc: Sc)
    requires s.next < |s.log| && Note(s.log[s.next]) && s.log[s.next].sc == sc
    requires Firsts(s.log, s.first, s.head, s.filled)
    ensures forall x :: x in s.first && s.first[x] == s.next ==> x == sc
  {
  }

  lemma TokensAdopt(s: State, sc: Sc)
    requires Tokens(s.tokens, s.owned, s.gone, s.first, s.base, s.next)
    requires sc in s.tokens && (sc in s.gone ==> s.next < s.gone[sc])
    requires forall x :: x in s.gone ==> s.gone[x] != s.next
    requires forall x :: x in s.first && s.first[x] == s.next ==> x == sc
    ensures Tokens(s.tokens, s.owned + {sc}, s.gone, s.first, s.base, s.next + 1)
  {
  }

  lemma CtxsAdopt(s: State, sc: Sc)
    requires Ctxs(s.ctxs, s.sid, s.owned) && sc in s.sid
    ensures Ctxs(s.ctxs, s.sid, s.owned + {sc}) && Ctxs(s.ctxs[s.sid[sc] := sc], s.sid, s.owned + {sc})
  {
  }

  lemma LogGrows(s: State, e: Event)
    requires Queues(s.log, s.cmds, s.sid) && Closing(s.log, s.closed, s.closeAt) && !IsCommand(e) && !e.Close?
    requires !s.closed
    ensures Queues(s.log + [e], s.cmds, s.sid) && Closing(s.log + [e], s.closed, s.closeAt)
  {
  }

  // ---- every step keeps everything in its place -----------------------------------------------

  lemma ArriveNewKeepsPlaces(s: State, id: Sid, made: Sc, fin: bool)
    requires Places(s) && Enabled(s, Arrive(id, made, fin)) && id !in s.slot
    ensures Places(ArriveNew(s, id, made, fin))
  {
    var e := if fin then Fin(made) else Data(made);
    NewNeverNamed(s.log, s.gone, s.sid, s.released, made);
    SidGrows(s, made, id);
    KeptGrows(s, made, id);
    TokensGrow(s, made);
    LogGrows(s.(sid := s.sid[made := id]), e);
    ContextMade(s.log, s.gone, s.sid, s.released, made, id);
    NotePushed(s.log, s.gone, s.sid[made := id], s.released, e);
    FirstsNew(s.log, s.first, s.head, s.filled, e);
  }

  lemma ArrivePushKeepsPlaces(s: State, id: Sid, fin: bool)
    requires Places(s) && !s.closing && id !in s.released && id in s.slot && (fin || s.slot[id] !in s.armed)
    ensures Places(ArriveMore(s, s.slot[id], fin))
  {
    var sc := s.slot[id];
    var e := if fin then Fin(sc) else Data(sc);
    SlotNotGone(s, id);
    LogGrows(s, e);
    NotePushed(s.log, s.gone, s.sid, s.released, e);
    FirstsPush(s.log, s.first, s.head, s.filled, e, s.filled + {sc});
  }

  lemma CoalescedKeepsPlaces(s: State, id: Sid)
    requires Places(s) && !s.closing && id !in s.released && id in s.slot && s.slot[id] in s.armed
    ensures Places(ArriveMore(s, s.slot[id], false))
  {
    FirstsPush(s.log, s.first, s.head, s.filled, Close, s.filled + {s.slot[id]});
  }

  lemma PeerKeepsPlaces(s: State, id: Sid, fin: bool)
    requires Places(s) && Enabled(s, PeerCall(id, fin))
    ensures Places(PeerStep(s, id, fin))
  {
    var e := if fin then Fin(s.slot[id]) else Peer(s.slot[id]);
    SlotNotGone(s, id);
    NotePushed(s.log, s.gone, s.sid, s.released, e);
    FirstsPush(s.log, s.first, s.head, s.filled, e, s.filled);
  }

  lemma ReleaseNamedKeepsPlaces(s: State, id: Sid)
    requires Places(s) && !s.closing && id !in s.released && id in s.slot
    ensures Places(ReleaseStreamStep(s, id))
  {
    var sc := s.slot[id];
    SlotNotGone(s, id);
    SlotsRelease(s, id);
    TokensDestroy(s, sc);
    LogGrows(s, Destroy(sc));
    DestroyPushed(s.log, s.gone, s.sid, s.released, sc);
    FirstsPush(s.log, s.first, s.head, s.filled, Destroy(sc), s.filled);
  }

  lemma ReleaseStreamKeepsPlaces(s: State, id: Sid)
    requires Places(s) && Enabled(s, ReleaseStream(id))
    ensures Places(ReleaseStreamStep(s, id))
  {
    if id in s.slot {
      ReleaseNamedKeepsPlaces(s, id);
    } else {
      StreamGone(s.log, s.gone, s.sid, s.released, id);
      SlotsRelease(s, id);
    }
  }

  lemma HandleKeepsPlaces(s: State, defer: bool, attach: bool)
    requires Places(s) && s.cmds != []
    ensures Places(HandleStep(s, defer, attach))
  {
  }

  lemma HeldKeepsPlaces(s: State, sc: Sc)
    requires Places(s) && sc in s.resets
    ensures Places(HeldStep(s, sc))
  {
  }

  lemma CloseKeepsPlaces(s: State)
    requires Places(s) && s.closing
    ensures Places(Apply(s, PushClose))
  {
    ClosePushed(s.log, s.gone, s.sid, s.released);
    FirstsPush(s.log, s.first, s.head, s.filled, Close, s.filled);
  }

  lemma OpenKeepsPlaces(s: State, id: Sid, made: Sc)
    requires Places(s) && Enabled(s, Open(id, made))
    ensures Places(OpenStep(s, id, made))
  {
    ContextMade(s.log, s.gone, s.sid, s.released, made, id);
    SidGrows(s, made, id);
    KeptGrows(s, made, id);
    TokensGrow(s, made);
  }

  lemma CommandKeepsPlaces(s: State, id: Sid, mark: bool)
    requires Places(s) && id in s.ctxs
    ensures Places(CommandStep(s, id, mark))
  {
  }

  lemma DrainOtherKeepsPlaces(s: State)
    requires AtDrain(s) && !s.log[s.head].Data? && !s.log[s.head].Fin? && Places(s)
    ensures Places(DrainPast(s))
  {
    FirstsPass(s.log, s.first, s.head, s.filled);
  }

  lemma DrainBytesKeepsPlaces(s: State, sc: Sc)
    requires AtDrain(s) && (s.log[s.head] == Data(sc) || s.log[s.head] == Fin(sc)) && Places(s)
    ensures Places(DrainBytes(s, sc))
  {
    FirstsDrain(s.log, s.first, s.head, s.filled, sc);
  }

  lemma DrainSkipKeepsPlaces(s: State, sc: Sc)
    requires AtDrain(s) && s.log[s.head] == Data(sc) && sc !in s.filled && Places(s)
    ensures Places(DrainSkip(s, sc))
  {
    FirstsSkip(s.log, s.first, s.head, s.filled, sc);
    NoteSkipped(s.log, s.gone, s.sid, s.released, s.head);
  }

  lemma DrainFinKeepsPlaces(s: State, sc: Sc)
    requires AtDrain(s) && s.log[s.head] == Fin(sc) && sc !in s.filled && Places(s)
    ensures Places(DrainFin(s, sc))
  {
    FirstsDrain(s.log, s.first, s.head, s.filled, sc);
  }

  lemma FlushKeepsPlaces(s: State, sc: Sc, push: bool)
    requires Places(s) && sc in s.notes
    ensures Places(FlushStep(s, sc, push))
  {
  }

  /** The STREAM_DESTROY being routed is its context's, and no first event. */
  lemma DestroyIsRouted(s: State, sc: Sc)
    requires s.next < |s.log| && s.log[s.next] == Destroy(sc)
    requires Destroys(s.log, s.gone, s.sid, s.released) && Firsts(s.log, s.first, s.head, s.filled)
    ensures sc in s.sid && sc in s.gone && s.gone[sc] == s.next
    ensures forall x :: x in s.gone && x != sc ==> s.gone[x] != s.next
    ensures forall x :: x in s.first ==> s.first[x] != s.next
  {
    forall x | x in s.gone && x != sc ensures s.gone[x] != s.next {
      assert s.log[s.gone[x]] == Destroy(x);
    }
  }

  lemma TokensForget(s: State, sc: Sc)
    requires Tokens(s.tokens, s.owned, s.gone, s.first, s.base, s.next) && s.base <= s.next
    requires sc in s.gone && s.gone[sc] == s.next
    requires forall x :: x in s.gone && x != sc ==> s.gone[x] != s.next
    requires forall x :: x in s.first ==> s.first[x] != s.next
    ensures Tokens(s.tokens, s.owned - {sc}, s.gone, s.first, s.base, s.next + 1)
  {
  }

  lemma CtxsForget(s: State, sc: Sc)
    requires Ctxs(s.ctxs, s.sid, s.owned) && sc in s.sid
    ensures Ctxs(s.ctxs - {s.sid[sc]}, s.sid, s.owned - {sc})
  {
  }

  lemma RouteDestroyKeepsPlaces(s: State, sc: Sc)
    requires AtRoute(s) && s.log[s.next] == Destroy(sc) && Places(s)
    ensures Places(RouteDestroy(s, sc))
  {
    DestroyIsRouted(s, sc);
    TokensForget(s, sc);
    CtxsForget(s, sc);
  }

  lemma RouteCloseKeepsPlaces(s: State)
    requires AtRoute(s) && s.log[s.next] == Close && Places(s)
    ensures Places(RouteClose(s))
  {
  }

  lemma AdoptKeepsPlaces(s: State, sc: Sc)
    requires AtRoute(s) && Note(s.log[s.next]) && s.log[s.next].sc == sc && Places(s)
    ensures Places(Adopt(s, sc))
  {
    if !s.dropped {
      RoutedHasToken(s, sc);
      FirstIsRouted(s, sc);
      TokensAdopt(s, sc);
      CtxsAdopt(s, sc);
    }
  }

  lemma RouteOtherKeepsPlaces(s: State)
    requires AtRoute(s) && !s.log[s.next].Destroy? && !s.log[s.next].Close? && !Note(s.log[s.next]) && Places(s)
    ensures Places(RoutePast(s))
  {
  }

  lemma TokensRelease(s: State)
    requires Tokens(s.tokens, s.owned, s.gone, s.first, s.base, s.next)
    requires Kept(s.sid, s.tokens, s.gone, s.base, s.dropped)
    requires Destroys(s.log, s.gone, s.sid, s.released) && s.base < s.next <= |s.log|
    ensures s.log[s.base].Destroy? ==>
              var rest := s.tokens - {s.log[s.base].sc};
              Tokens(rest, s.owned, s.gone, s.first, s.base + 1, s.next) && Kept(s.sid, rest, s.gone, s.base + 1, s.dropped)
    ensures !s.log[s.base].Destroy? ==>
              Tokens(s.tokens, s.owned, s.gone, s.first, s.base + 1, s.next) && Kept(s.sid, s.tokens, s.gone, s.base + 1, s.dropped)
  {
  }

  lemma UnrefKeepsPlaces(s: State, e: Event)
    requires AtRelease(s) && s.log[s.base] == e && (e.Destroy? || Owns(e)) && Places(s)
    ensures Places(Unref(s, e.sc, e.Destroy?))
  {
    TokensRelease(s);
  }

  lemma ReleaseOtherKeepsPlaces(s: State)
    requires AtRelease(s) && !s.log[s.base].Destroy? && !Owns(s.log[s.base]) && Places(s)
    ensures Places(ReleasePast(s))
  {
  }

  lemma DropChunkKeepsPlaces(s: State, sc: Sc)
    requires Places(s) && sc in s.chunks
    ensures Places(DropChunkStep(s, sc))
  {
  }

  // ---- references taken and dropped ----------------------------------------------------------

  lemma EventPushed(log: seq<Event>, base: nat, refs: multiset<Sc>, e: Event)
    requires TiedLog(log, base, refs)
    ensures Owns(e) ==> TiedLog(log + [e], base, refs + multiset{e.sc})
    ensures !Owns(e) ==> TiedLog(log + [e], base, refs)
  {
    RefsAppend(log, base, e);
  }

  lemma EventSkipped(log: seq<Event>, base: nat, refs: multiset<Sc>, i: nat)
    requires TiedLog(log, base, refs) && base <= i < |log| && Owns(log[i])
    ensures log[i].sc in refs && TiedLog(log[i := Skipped], base, refs - multiset{log[i].sc})
  {
    RefsSkip(log, base, |log|, i);
    Removed(Refs(log[i := Skipped], base, |log|), log[i].sc, refs);
  }

  lemma EventReleased(log: seq<Event>, base: nat, refs: multiset<Sc>)
    requires TiedLog(log, base, refs) && base < |log|
    ensures Owns(log[base]) ==> log[base].sc in refs && TiedLog(log, base + 1, refs - multiset{log[base].sc})
    ensures !Owns(log[base]) ==> TiedLog(log, base + 1, refs)
  {
    RefsFront(log, base, |log|);
    if Owns(log[base]) { Removed(Refs(log, base + 1, |log|), log[base].sc, refs); }
  }

  lemma CommandPushed(cmds: seq<Event>, refs: multiset<Sc>, e: Event)
    requires TiedCmds(cmds, refs) && Owns(e)
    ensures TiedCmds(cmds + [e], refs + multiset{e.sc})
  {
    RefsAppend(cmds, 0, e);
  }

  lemma CommandPopped(cmds: seq<Event>, refs: multiset<Sc>)
    requires TiedCmds(cmds, refs) && cmds != [] && Owns(cmds[0])
    ensures cmds[0].sc in refs && TiedCmds(cmds[1..], refs - multiset{cmds[0].sc})
  {
    RefsFront(cmds, 0, |cmds|);
    RefsTail(cmds, |cmds|);
    Removed(Refs(cmds, 1, |cmds|), cmds[0].sc, refs);
  }

  lemma Removed(rest: multiset<Sc>, sc: Sc, all: multiset<Sc>)
    requires rest + multiset{sc} == all || multiset{sc} + rest == all
    ensures sc in all && rest == all - multiset{sc}
  {
  }

  lemma FreesUnref(s: State, sc: Sc)
    requires Frees(s.frees, s.count, s.sid) && sc in s.count
    ensures Frees(s.frees + Gone(s, sc), s.count - multiset{sc}, s.sid)
  {
  }

  lemma FreesRef(s: State, sc: Sc)
    requires Frees(s.frees, s.count, s.sid) && sc in s.count
    ensures Frees(s.frees, s.count + multiset{sc}, s.sid) && Frees(s.frees, s.count + multiset{sc, sc}, s.sid)
  {
  }

  lemma FreesNew(s: State, sc: Sc, id: Sid)
    requires Frees(s.frees, s.count, s.sid) && sc !in s.sid
    ensures Frees(s.frees, s.count + multiset{sc}, s.sid[sc := id])
    ensures Frees(s.frees, s.count + multiset{sc, sc}, s.sid[sc := id])
  {
  }

  lemma FreesAll(s: State)
    requires Frees(s.frees, s.count, s.sid) && forall x :: x in s.owned ==> x in s.count
    ensures Frees(s.frees + FreedBy(s.count, s.owned), s.count - multiset(s.owned), s.sid)
  {
  }

  /** A holder keeps its context. */
  lemma HeldIsLive(s: State, x: Sc)
    requires Counts(s)
    ensures x in s.chunks || x in s.notes || x in s.resets || x in s.tokens ==> x in s.count
  {
    assert s.count[x] == s.eventRefs[x] + s.cmdRefs[x] + s.chunks[x] + s.notes[x] + s.resets[x] + B(x in s.tokens);
  }

  lemma QueuedIsLive(s: State, i: nat)
    requires Counts(s) && Tied(s) && s.base <= i < |s.log| && Owns(s.log[i])
    ensures s.log[i].sc in s.count
  {
    RefsHas(s.log, s.base, |s.log|, i);
    var x := s.log[i].sc;
    assert s.count[x] == s.eventRefs[x] + s.cmdRefs[x] + s.chunks[x] + s.notes[x] + s.resets[x] + B(x in s.tokens);
  }

  /** picoquic's context is alive while the cnx is not closing. */
  lemma SlotIsLive(s: State, id: Sid)
    requires Places(s) && Counts(s) && !s.closing && id in s.slot
    ensures s.slot[id] in s.count
  {
    SlotNotGone(s, id);
    HeldIsLive(s, s.slot[id]);
  }

  // ---- ... and the books ----------------------------------------------------------------------

  lemma BalancedNew(count: multiset<Sc>, events: multiset<Sc>, cmds: multiset<Sc>, chunks: multiset<Sc>,
                    notes: multiset<Sc>, resets: multiset<Sc>, tokens: set<Sc>, sc: Sc)
    requires Balanced(count, events, cmds, chunks, notes, resets, tokens) && sc !in tokens
    ensures Balanced(count + multiset{sc}, events, cmds, chunks, notes, resets, tokens + {sc})
    ensures Balanced(count + multiset{sc, sc}, events + multiset{sc}, cmds, chunks, notes, resets, tokens + {sc})
  {
  }

  /** A command's reference goes, or stays with a held reset. */
  lemma BalancedDone(count: multiset<Sc>, events: multiset<Sc>, cmds: multiset<Sc>, chunks: multiset<Sc>,
                     notes: multiset<Sc>, resets: multiset<Sc>, tokens: set<Sc>, sc: Sc)
    requires Balanced(count, events, cmds, chunks, notes, resets, tokens) && sc in cmds
    ensures sc in count
    ensures Balanced(count - multiset{sc}, events, cmds - multiset{sc}, chunks, notes, resets, tokens)
    ensures Balanced(count, events, cmds - multiset{sc}, chunks, notes, resets + multiset{sc}, tokens)
  {
    assert count[sc] == events[sc] + cmds[sc] + chunks[sc] + notes[sc] + resets[sc] + B(sc in tokens);
  }

  lemma ArriveNewKeepsBooks(s: State, id: Sid, made: Sc, fin: bool)
    requires made !in s.sid && made !in s.tokens && Books(s)
    ensures Books(ArriveNew(s, id, made, fin))
  {
    EventPushed(s.log, s.base, s.eventRefs, if fin then Fin(made) else Data(made));
    BalancedNew(s.count, s.eventRefs, s.cmdRefs, s.chunks, s.notes, s.resets, s.tokens, made);
    FreesNew(s, made, id);
  }

  lemma ArrivePushKeepsCounts(s: State, id: Sid, fin: bool)
    requires !s.closing && id in s.slot && (fin || s.slot[id] !in s.armed) && Tied(s) && Counts(s)
    ensures Tied(ArriveMore(s, s.slot[id], fin)) && Counts(ArriveMore(s, s.slot[id], fin))
  {
    EventPushed(s.log, s.base, s.eventRefs, if fin then Fin(s.slot[id]) else Data(s.slot[id]));
  }

  lemma ArrivePushKeepsFreed(s: State, id: Sid, fin: bool)
    requires !s.closing && id in s.slot && (fin || s.slot[id] !in s.armed) && Inv(s)
    ensures Freed(ArriveMore(s, s.slot[id], fin))
  {
    SlotIsLive(s, id);
    FreesRef(s, s.slot[id]);
  }

  lemma CoalescedKeepsBooks(s: State, id: Sid)
    requires !s.closing && id !in s.released && id in s.slot && s.slot[id] in s.armed && Inv(s)
    ensures Books(ArriveMore(s, s.slot[id], false))
  {
    SlotIsLive(s, id);
  }

  lemma PeerKeepsCounts(s: State, id: Sid, fin: bool)
    requires id in s.slot && Tied(s) && Counts(s)
    ensures Tied(PeerStep(s, id, fin)) && Counts(PeerStep(s, id, fin))
  {
    EventPushed(s.log, s.base, s.eventRefs, if fin then Fin(s.slot[id]) else Peer(s.slot[id]));
  }

  lemma PeerKeepsFreed(s: State, id: Sid, fin: bool)
    requires id in s.slot && !s.closing && Inv(s)
    ensures Freed(PeerStep(s, id, fin))
  {
    SlotIsLive(s, id);
    FreesRef(s, s.slot[id]);
  }

  lemma ReleaseStreamKeepsBooks(s: State, id: Sid)
    requires Enabled(s, ReleaseStream(id)) && Inv(s)
    ensures Books(ReleaseStreamStep(s, id))
  {
    if id in s.slot { EventPushed(s.log, s.base, s.eventRefs, Destroy(s.slot[id])); }
  }

  lemma HandleKeepsCounts(s: State, defer: bool, attach: bool)
    requires s.cmds != [] && Owns(s.cmds[0]) && Tied(s) && Counts(s)
    ensures s.cmds[0].sc in s.count
    ensures Tied(HandleStep(s, defer, attach)) && Counts(HandleStep(s, defer, attach))
  {
    CommandPopped(s.cmds, s.cmdRefs);
    BalancedDone(s.count, s.eventRefs, s.cmdRefs, s.chunks, s.notes, s.resets, s.tokens, s.cmds[0].sc);
  }

  lemma HandleKeepsFreed(s: State, defer: bool, attach: bool)
    requires s.cmds != [] && Owns(s.cmds[0]) && s.cmds[0].sc in s.count && Freed(s)
    ensures Freed(HandleStep(s, defer, attach))
  {
    FreesUnref(s, s.cmds[0].sc);
  }

  lemma HandleKeepsBooks(s: State, defer: bool, attach: bool)
    requires s.cmds != [] && Owns(s.cmds[0]) && Books(s)
    ensures Books(HandleStep(s, defer, attach))
  {
    HandleKeepsCounts(s, defer, attach);
    HandleKeepsFreed(s, defer, attach);
  }

  lemma HeldKeepsBooks(s: State, sc: Sc)
    requires sc in s.resets && Inv(s)
    ensures Books(HeldStep(s, sc))
  {
    HeldIsLive(s, sc);
    FreesUnref(s, sc);
  }

  lemma CloseKeepsBooks(s: State)
    requires s.closing && Inv(s)
    ensures Books(Apply(s, PushClose))
  {
    EventPushed(s.log, s.base, s.eventRefs, Close);
  }

  lemma OpenKeepsBooks(s: State, id: Sid, made: Sc)
    requires made !in s.sid && made !in s.tokens && Books(s)
    ensures Books(OpenStep(s, id, made))
  {
    BalancedNew(s.count, s.eventRefs, s.cmdRefs, s.chunks, s.notes, s.resets, s.tokens, made);
    FreesNew(s, made, id);
  }

  lemma CommandKeepsBooks(s: State, id: Sid, mark: bool)
    requires id in s.ctxs && Inv(s)
    ensures Books(CommandStep(s, id, mark))
  {
    CommandPushed(s.cmds, s.cmdRefs, if mark then Mark(s.ctxs[id]) else Cut(s.ctxs[id]));
    HeldIsLive(s, s.ctxs[id]);
    FreesRef(s, s.ctxs[id]);
  }

  lemma DrainOtherKeepsBooks(s: State)
    requires AtDrain(s) && !s.log[s.head].Data? && !s.log[s.head].Fin? && Inv(s)
    ensures Books(DrainPast(s))
  {
  }

  lemma DrainBytesKeepsBooks(s: State, sc: Sc)
    requires AtDrain(s) && (s.log[s.head] == Data(sc) || s.log[s.head] == Fin(sc)) && Inv(s)
    ensures Books(DrainBytes(s, sc))
  {
    QueuedIsLive(s, s.head);
    FreesRef(s, sc);
  }

  lemma DrainSkipKeepsBooks(s: State, sc: Sc)
    requires AtDrain(s) && s.log[s.head] == Data(sc) && sc !in s.filled && Inv(s)
    ensures Books(DrainSkip(s, sc))
  {
    EventSkipped(s.log, s.base, s.eventRefs, s.head);
    QueuedIsLive(s, s.head);
    FreesUnref(s, sc);
  }

  lemma DrainFinKeepsBooks(s: State, sc: Sc)
    requires AtDrain(s) && s.log[s.head] == Fin(sc) && sc !in s.filled && Inv(s)
    ensures Books(DrainFin(s, sc))
  {
    QueuedIsLive(s, s.head);
  }

  /** A note's reference goes, or stays with its credit command. */
  lemma BalancedFlush(count: multiset<Sc>, events: multiset<Sc>, cmds: multiset<Sc>, chunks: multiset<Sc>,
                      notes: multiset<Sc>, resets: multiset<Sc>, tokens: set<Sc>, sc: Sc)
    requires Balanced(count, events, cmds, chunks, notes, resets, tokens) && sc in notes
    ensures sc in count
    ensures Balanced(count - multiset{sc}, events, cmds, chunks, notes - multiset{sc}, resets, tokens)
    ensures Balanced(count, events, cmds + multiset{sc}, chunks, notes - multiset{sc}, resets, tokens)
  {
    assert count[sc] == events[sc] + cmds[sc] + chunks[sc] + notes[sc] + resets[sc] + B(sc in tokens);
  }

  lemma FlushKeepsBooks(s: State, sc: Sc, push: bool)
    requires sc in s.notes && Books(s)
    ensures Books(FlushStep(s, sc, push))
  {
    CommandPushed(s.cmds, s.cmdRefs, Credit(sc));
    BalancedFlush(s.count, s.eventRefs, s.cmdRefs, s.chunks, s.notes, s.resets, s.tokens, sc);
    FreesUnref(s, sc);
  }

  lemma RouteDestroyKeepsBooks(s: State, sc: Sc)
    requires AtRoute(s) && s.log[s.next] == Destroy(sc) && Inv(s)
    ensures Books(RouteDestroy(s, sc))
  {
  }

  lemma RouteCloseKeepsBooks(s: State)
    requires AtRoute(s) && s.log[s.next] == Close && Inv(s)
    ensures Books(RouteClose(s))
  {
    forall x | x in s.owned ensures x in s.count { HeldIsLive(s, x); }
    FreesAll(s);
  }

  lemma AdoptKeepsBooks(s: State, sc: Sc)
    requires AtRoute(s) && Note(s.log[s.next]) && s.log[s.next].sc == sc && Inv(s)
    ensures Books(Adopt(s, sc))
  {
  }

  lemma RouteOtherKeepsBooks(s: State)
    requires AtRoute(s) && !s.log[s.next].Destroy? && !s.log[s.next].Close? && !Note(s.log[s.next]) && Inv(s)
    ensures Books(RoutePast(s))
  {
  }

  lemma UnrefKeepsTied(s: State, e: Event)
    requires AtRelease(s) && s.log[s.base] == e && (e.Destroy? || Owns(e)) && Tied(s)
    ensures Tied(Unref(s, e.sc, e.Destroy?))
    ensures Owns(e) ==> e.sc in s.eventRefs
  {
    EventReleased(s.log, s.base, s.eventRefs);
  }

  lemma UnrefKeepsCounts(s: State, sc: Sc, token: bool)
    requires Counts(s) && (if token then sc in s.tokens else sc in s.eventRefs)
    ensures sc in s.count && Counts(Unref(s, sc, token))
  {
    assert s.count[sc] == s.eventRefs[sc] + s.cmdRefs[sc] + s.chunks[sc] + s.notes[sc] + s.resets[sc] + B(sc in s.tokens);
  }

  lemma UnrefKeepsBooks(s: State, e: Event)
    requires AtRelease(s) && s.log[s.base] == e && (e.Destroy? || Owns(e)) && Inv(s)
    ensures Books(Unref(s, e.sc, e.Destroy?))
  {
    UnrefKeepsTied(s, e);
    UnrefKeepsCounts(s, e.sc, e.Destroy?);
    FreesUnref(s, e.sc);
  }

  lemma ReleaseOtherKeepsBooks(s: State)
    requires AtRelease(s) && !s.log[s.base].Destroy? && !Owns(s.log[s.base]) && Inv(s)
    ensures Books(ReleasePast(s))
  {
    EventReleased(s.log, s.base, s.eventRefs);
  }

  lemma DropChunkKeepsBooks(s: State, sc: Sc)
    requires sc in s.chunks && Inv(s)
    ensures Books(DropChunkStep(s, sc))
  {
    HeldIsLive(s, sc);
    FreesUnref(s, sc);
  }

  // ---- every step keeps the invariant --------------------------------------------------------

  lemma ArriveKeepsInv(s: State, id: Sid, made: Sc, fin: bool)
    requires Inv(s) && Enabled(s, Arrive(id, made, fin))
    ensures id in s.slot ==> Inv(ArriveMore(s, s.slot[id], fin))
    ensures id !in s.slot ==> Inv(ArriveNew(s, id, made, fin))
  {
    if id !in s.slot {
      ArriveNewKeepsPlaces(s, id, made, fin); ArriveNewKeepsBooks(s, id, made, fin);
    } else if !fin && s.slot[id] in s.armed {
      CoalescedKeepsPlaces(s, id); CoalescedKeepsBooks(s, id);
    } else {
      ArrivePushKeepsPlaces(s, id, fin); ArrivePushKeepsCounts(s, id, fin); ArrivePushKeepsFreed(s, id, fin);
    }
  }

  lemma PeerKeepsInv(s: State, id: Sid, fin: bool)
    requires Inv(s) && Enabled(s, PeerCall(id, fin))
    ensures Inv(PeerStep(s, id, fin))
  {
    PeerKeepsPlaces(s, id, fin); PeerKeepsCounts(s, id, fin); PeerKeepsFreed(s, id, fin);
  }

  lemma HandleKeepsInv(s: State, defer: bool, attach: bool)
    requires Inv(s) && s.cmds != []
    ensures Inv(HandleStep(s, defer, attach))
  {
    assert IsCommand(s.cmds[0]);
    HandleKeepsPlaces(s, defer, attach); HandleKeepsBooks(s, defer, attach);
  }

  lemma HeldKeepsInv(s: State, sc: Sc)
    requires Inv(s) && sc in s.resets
    ensures Inv(HeldStep(s, sc))
  {
    HeldKeepsPlaces(s, sc); HeldKeepsBooks(s, sc);
  }

  lemma WorkerKeepsInv(s: State, step: Step)
    requires Inv(s) && Enabled(s, step)
    requires step.Arrive? || step.PeerCall? || step.ReleaseStream? || step.HandleCmd? || step.RunHeld? || step.PushClose?
    ensures Inv(Apply(s, step))
  {
    if step.Arrive? { ArriveKeepsInv(s, step.id, step.made, step.fin); }
    else if step.PeerCall? { PeerKeepsInv(s, step.id, step.fin); }
    else if step.ReleaseStream? { ReleaseStreamKeepsPlaces(s, step.id); ReleaseStreamKeepsBooks(s, step.id); }
    else if step.HandleCmd? { HandleKeepsInv(s, step.defer, step.attach); }
    else if step.RunHeld? { HeldKeepsInv(s, step.sc); }
    else { CloseKeepsPlaces(s); CloseKeepsBooks(s); }
  }

  lemma DrainOtherKeepsInv(s: State)
    requires AtDrain(s) && !s.log[s.head].Data? && !s.log[s.head].Fin? && Inv(s)
    ensures Inv(DrainStep(s))
  {
    DrainOtherKeepsPlaces(s); DrainOtherKeepsBooks(s);
  }

  lemma DrainBytesKeepsInv(s: State, sc: Sc)
    requires AtDrain(s) && (s.log[s.head] == Data(sc) || s.log[s.head] == Fin(sc)) && sc in s.filled && Inv(s)
    ensures Inv(DrainStep(s))
  {
    DrainBytesKeepsPlaces(s, sc); DrainBytesKeepsBooks(s, sc);
  }

  lemma DrainFinKeepsInv(s: State, sc: Sc)
    requires AtDrain(s) && s.log[s.head] == Fin(sc) && sc !in s.filled && Inv(s)
    ensures Inv(DrainStep(s))
  {
    DrainFinKeepsPlaces(s, sc); DrainFinKeepsBooks(s, sc);
  }

  lemma DrainSkipKeepsInv(s: State, sc: Sc)
    requires AtDrain(s) && s.log[s.head] == Data(sc) && sc !in s.filled && Inv(s)
    ensures Inv(DrainStep(s))
  {
    DrainSkipKeepsPlaces(s, sc); DrainSkipKeepsBooks(s, sc);
  }

  lemma DrainKeepsInv(s: State)
    requires AtDrain(s) && Inv(s)
    ensures Inv(DrainStep(s))
  {
    var e := s.log[s.head];
    if !e.Data? && !e.Fin? { DrainOtherKeepsInv(s); }
    else if e.sc in s.filled { DrainBytesKeepsInv(s, e.sc); }
    else if e.Fin? { DrainFinKeepsInv(s, e.sc); }
    else { DrainSkipKeepsInv(s, e.sc); }
  }

  lemma RouteDestroyKeepsInv(s: State, sc: Sc)
    requires AtRoute(s) && s.log[s.next] == Destroy(sc) && Inv(s)
    ensures Inv(RouteStep(s))
  {
    RouteDestroyKeepsPlaces(s, sc); RouteDestroyKeepsBooks(s, sc);
  }

  lemma RouteCloseKeepsInv(s: State)
    requires AtRoute(s) && s.log[s.next] == Close && Inv(s)
    ensures Inv(RouteStep(s))
  {
    RouteCloseKeepsPlaces(s); RouteCloseKeepsBooks(s);
  }

  lemma AdoptKeepsInv(s: State, sc: Sc)
    requires AtRoute(s) && Note(s.log[s.next]) && s.log[s.next].sc == sc && Inv(s)
    ensures Inv(RouteStep(s))
  {
    AdoptKeepsPlaces(s, sc); AdoptKeepsBooks(s, sc);
  }

  lemma RouteOtherKeepsInv(s: State)
    requires AtRoute(s) && !s.log[s.next].Destroy? && !s.log[s.next].Close? && !Note(s.log[s.next]) && Inv(s)
    ensures Inv(RouteStep(s))
  {
    RouteOtherKeepsPlaces(s); RouteOtherKeepsBooks(s);
  }

  lemma RouteKeepsInv(s: State)
    requires AtRoute(s) && Inv(s)
    ensures Inv(RouteStep(s))
  {
    var e := s.log[s.next];
    if e.Destroy? { RouteDestroyKeepsInv(s, e.sc); }
    else if e.Close? { RouteCloseKeepsInv(s); }
    else if Note(e) { AdoptKeepsInv(s, e.sc); }
    else { RouteOtherKeepsInv(s); }
  }

  lemma UnrefKeepsInv(s: State, e: Event)
    requires AtRelease(s) && s.log[s.base] == e && (e.Destroy? || Owns(e)) && Inv(s)
    ensures Inv(ReleaseStep(s))
  {
    UnrefKeepsPlaces(s, e); UnrefKeepsBooks(s, e);
  }

  lemma ReleaseOtherKeepsInv(s: State)
    requires AtRelease(s) && !s.log[s.base].Destroy? && !Owns(s.log[s.base]) && Inv(s)
    ensures Inv(ReleaseStep(s))
  {
    ReleaseOtherKeepsPlaces(s); ReleaseOtherKeepsBooks(s);
  }

  lemma ReleaseKeepsInv(s: State)
    requires AtRelease(s) && Inv(s)
    ensures Inv(ReleaseStep(s))
  {
    var e := s.log[s.base];
    if e.Destroy? || Owns(e) { UnrefKeepsInv(s, e); } else { ReleaseOtherKeepsInv(s); }
  }

  lemma CommandKeepsInv(s: State, id: Sid, mark: bool)
    requires Inv(s) && id in s.ctxs
    ensures Inv(CommandStep(s, id, mark))
  {
    CommandKeepsPlaces(s, id, mark); CommandKeepsBooks(s, id, mark);
  }

  lemma FlushKeepsInv(s: State, sc: Sc, push: bool)
    requires Inv(s) && sc in s.notes
    ensures Inv(FlushStep(s, sc, push))
  {
    FlushKeepsPlaces(s, sc, push); FlushKeepsBooks(s, sc, push);
  }

  lemma PythonKeepsInv(s: State, step: Step)
    requires Inv(s) && Enabled(s, step)
    requires step.Command? || step.FlushNote? || step.DropChunk?
    ensures Inv(Apply(s, step))
  {
    if step.Command? { CommandKeepsInv(s, step.id, step.mark); }
    else if step.FlushNote? { FlushKeepsInv(s, step.sc, step.push); }
    else { DropChunkKeepsPlaces(s, step.sc); DropChunkKeepsBooks(s, step.sc); }
  }

  lemma RestKeepsInv(s: State, step: Step)
    requires Inv(s) && Enabled(s, step)
    requires step.Disconnect? || step.Detach? || step.BeginRoute? || step.BeginRelease? || step.BeginDrain?
    ensures Inv(Apply(s, step))
  {
  }

  lemma StepKeepsInv(s: State, step: Step)
    requires Inv(s) && Enabled(s, step)
    ensures Inv(Apply(s, step))
  {
    if step.Drain? {
      DrainKeepsInv(s);
    } else if step.Route? {
      RouteKeepsInv(s);
    } else if step.Release? {
      ReleaseKeepsInv(s);
    } else if step.Open? {
      OpenKeepsPlaces(s, step.id, step.made); OpenKeepsBooks(s, step.id, step.made);
    } else if step.Command? || step.FlushNote? || step.DropChunk? {
      PythonKeepsInv(s, step);
    } else if step.Disconnect? || step.Detach? || step.BeginRoute? || step.BeginRelease? || step.BeginDrain? {
      RestKeepsInv(s, step);
    } else {
      WorkerKeepsInv(s, step);
    }
  }

  lemma ReachableInv(s: State)
    requires Reachable(s)
    ensures Inv(s)
  {
    forall s, t | Inv(s) && Next(s, t) ensures Inv(t) {
      var step :| Takes(s, step, t);
      StepKeepsInv(s, step);
    }
    Runs.InvariantHolds(Init, Next, Inv, s);
  }

  // ---- what the source promises --------------------------------------------------------------

  /** In every reachable state the reference count of a context is its number of holders: the
      stream's reference while nobody dropped it, the RX events from the batch on, the TX commands,
      the chunks, the credit notes and the held resets that name it. */
  lemma CountIsHolders(s: State, x: Sc)
    requires Reachable(s)
    ensures s.base <= |s.log|
    ensures s.count[x] == B(x in s.tokens) + Refs(s.log, s.base, |s.log|)[x] + Refs(s.cmds, 0, |s.cmds|)[x]
                          + s.chunks[x] + s.notes[x] + s.resets[x]
  {
    ReachableInv(s);
  }

  /** A context is freed exactly once, when its last reference goes, and no step touches or drops
      it afterwards. */
  lemma FreedOnceUntouchedAfter(s: State, x: Sc)
    requires Reachable(s)
    ensures !s.fault && s.frees[x] == B(x in s.sid && x !in s.count)
  {
    ReachableInv(s);
  }

  /** Every context the batch names is alive until release_batch, those of STREAM_DESTROYs the
      batch has already routed included. */
  lemma BatchIsLive(s: State, i: nat)
    requires Reachable(s) && s.base <= i < s.head <= |s.log| && (Note(s.log[i]) || s.log[i].Destroy?)
    ensures s.log[i].sc in s.count
  {
    ReachableInv(s);
    if Note(s.log[i]) { QueuedIsLive(s, i); } else { HeldIsLive(s, s.log[i].sc); }
  }

  /** What Python can write to is alive, and so is what picoquic names until the cnx closes. */
  lemma NamedIsLive(s: State, id: Sid)
    requires Reachable(s)
    ensures id in s.ctxs ==> s.ctxs[id] in s.count
    ensures id in s.slot && !s.closing ==> s.slot[id] in s.count
  {
    ReachableInv(s);
    if id in s.ctxs { HeldIsLive(s, s.ctxs[id]); }
    if id in s.slot && !s.closing { SlotIsLive(s, id); }
  }

  /** Behind a routed CLOSE nothing is left to route, and behind its batch nothing to release. */
  lemma PlacedNowhere(s: State, x: Sc)
    requires Places(s) && s.dropped && s.base == s.head
    ensures !Placed(x, s.owned, s.gone, s.first, s.base, s.next)
  {
  }

  /** CLOSE leaves no stream reference behind, also of a second context on one stream: once it is
      routed and its batch released, the connection owns none and only events, commands, chunks,
      notes and held resets keep a context. */
  lemma CloseDropsEveryStream(s: State)
    requires Reachable(s) && s.dropped && s.base == s.head
    ensures s.tokens == {} && s.owned == {} && s.ctxs == map[]
  {
    ReachableInv(s);
    forall x ensures x !in s.tokens { PlacedNowhere(s, x); }
  }

  /** So with the queues, chunks, notes and held resets gone as well, every context ever made has
      been freed, once. */
  lemma NothingLeaks(s: State, x: Sc)
    requires Reachable(s) && s.dropped && s.base == |s.log| && s.cmds == []
    requires s.chunks == s.notes == s.resets == multiset{} && x in s.sid
    ensures x !in s.count && s.frees[x] == 1
  {
    ReachableInv(s);
    CloseDropsEveryStream(s);
    CountIsHolders(s, x);
  }
}

/** WebTransport stream links (h3wt_callback.h, webtransport.py, connection.py): a link owns the
    stream context of one stream; events and Python's _stream_tx_ctxs name that context without a
    reference. What keeps it alive is order: the link goes in a LINK_RELEASE behind every event
    that names it, and the drain holds the link until the batch has been routed. One session;
    worker and asyncio act in any order. h3zero is an adversary that dispatches nothing for a
    stream whose path_callback was cleared. */
module WtLinks {
  import Runs

  type Link = nat
  type Sid = nat

  /** path_callback_ctx of a stream that dispatches to the session. */
  datatype Ctx = AtSession | AtLink(link: Link)

  datatype Event =
    | Born(link: Link)               // STREAM_CREATED, NEW_STREAM: names the context
    | Bytes(link: Link)              // WT_STREAM_DATA, WT_STREAM_FIN: names the context
    | Cut(sid: Sid)                  // WT_STREAM_RESET, WT_STOP_SENDING
    | Retired(sid: Sid)              // WT_STREAM_DESTROY
    | Release(link: Link)            // WT_STREAM_LINK_RELEASE
    | SessionClosed

  datatype Command = Cleanup | Deregister

  datatype WorkerPc = Idle | Pairing | Walking | Leaving

  datatype Phase = Draining | Routing | Releasing

  datatype State = State(
    // worker
    streams: map<Sid, Ctx>, used: set<Sid>,
    owner: map<Link, Sid>,           // every link ever made, and its stream
    worker: WorkerPc, unlinked: Link,    // Pairing: STREAM_DESTROY is out, LINK_RELEASE is next
    session: bool, cnx: bool,        // the session struct lives; its cnx is not gone
    cmds: seq<Command>,
    // RX queue and batch: log[base..head], routed up to next
    log: seq<Event>, head: nat, next: nat, base: nat, phase: Phase,
    // asyncio
    ctxs: map<Sid, Link>,            // _stream_tx_ctxs, by the link that owns the context
    closed: bool, gone: bool,        // session_closed; the Python session was deallocated
    // history
    rel: map<Link, nat>, ret: map<Sid, nat>,    // where LINK_RELEASE and STREAM_DESTROY are
    leaked: set<Link>,
    freed: multiset<Link>,
    fault: bool)                     // some step touched a freed link or session

  datatype Step =
    | PeerStream(sid: Sid)
    | CreateStream(sid: Sid, link: Link)
    | Arrive(sid: Sid, link: Link)
    | PeerCut(sid: Sid)
    | PeerClose
    | FreeStream(sid: Sid, oom: bool)
    | CnxGone
    | HandleCmd
    | WorkerStep(sid: Sid)
    | Drain | BeginRoute | Route(stash: bool) | BeginRelease | ReleaseOne | BeginDrain
    | Send(sid: Sid)
    | CloseSession(push: bool)
    | LateCleanup
    | Dealloc(push: bool)

  predicate Init(s: State) {
    && s.streams == map[] && s.used == {} && s.owner == map[] && s.worker == Idle
    && s.session && s.cnx && s.cmds == [] && s.log == [] && s.head == s.next == s.base == 0 && s.phase == Draining
    && s.ctxs == map[] && !s.closed && !s.gone
    && s.rel == map[] && s.ret == map[] && s.leaked == {} && s.freed == multiset{} && !s.fault
  }

  /** Some stream still has a link. */
  predicate Linked(s: State, sid: Sid) { sid in s.streams && s.streams[sid].AtLink? }

  /** A walk ends only when it finds no link. */
  predicate NoneLinked(s: State) { forall x :: x in s.streams ==> !Linked(s, x) }

  predicate Walk(pc: WorkerPc) { pc == Walking || pc == Leaving }

  predicate Enabled(s: State, step: Step) {
    match step
    case PeerStream(sid) => s.worker == Idle && s.session && s.cnx && sid !in s.used
    case CreateStream(sid, link) => s.worker == Idle && s.session && s.cnx && sid !in s.used && link !in s.owner
    case Arrive(sid, link) => s.worker == Idle && sid in s.streams && link !in s.owner
    case PeerCut(sid) => s.worker == Idle && sid in s.streams
    case PeerClose => s.worker == Idle && s.session
    case FreeStream(sid, _) => s.worker == Idle && sid in s.streams
    case CnxGone => s.worker == Idle
    case HandleCmd =>                 // the streams of a cnx are gone before a later command is read
      s.worker == Idle && s.cmds != [] && (s.cnx || s.streams == map[])
    case WorkerStep(sid) => s.worker == Pairing || (Walk(s.worker) && (Linked(s, sid) || NoneLinked(s)))
    case Drain => s.phase == Draining && s.head < |s.log|
    case BeginRoute => s.phase == Draining
    case Route(_) => s.phase == Routing && s.next < s.head <= |s.log|
    case BeginRelease => s.phase == Routing && s.next == s.head
    case ReleaseOne => s.phase == Releasing && s.base < s.head <= |s.log|
    case BeginDrain => s.phase == Releasing && s.base == s.head
    case Send(sid) => sid in s.ctxs
    case CloseSession(_) => !s.gone
    case LateCleanup => s.closed && !s.gone
    case Dealloc(_) => !s.gone
  }

  /** TX_WT_CREATE_STREAM: a local stream with its link, announced by STREAM_CREATED. */
  function CreateLink(s: State, sid: Sid, link: Link): State {
    s.(streams := s.streams[sid := AtLink(link)], used := s.used + {sid}, owner := s.owner[link := sid],
       log := s.log + [Born(link)])
  }

  /** The first data on a stream makes the link and announces it: aiopquic_wt_ensure_link and
      NEW_STREAM. */
  function ArriveFirst(s: State, sid: Sid, link: Link): State {
    s.(streams := s.streams[sid := AtLink(link)], owner := s.owner[link := sid], log := s.log + [Born(link)],
       fault := s.fault || !s.session)
  }

  /** Later data names the link's context. */
  function ArriveMore(s: State, l: Link): State {
    s.(log := s.log + [Bytes(l)], fault := s.fault || !s.session || l in s.freed)
  }

  function FreeBare(s: State, sid: Sid): State { s.(streams := s.streams - {sid}) }

  /** picohttp_callback_free out of memory: the pair is skipped and the link leaks. */
  function FreeLeak(s: State, sid: Sid, l: Link): State {
    s.(streams := s.streams - {sid}, leaked := s.leaked + {l}, fault := s.fault || !s.session || l in s.freed)
  }

  /** picohttp_callback_free: STREAM_DESTROY, and LINK_RELEASE next. */
  function FreePair(s: State, sid: Sid, l: Link): State {
    s.(streams := s.streams - {sid}, log := s.log + [Retired(sid)], ret := s.ret[sid := |s.log|],
       worker := Pairing, unlinked := l, fault := s.fault || !s.session || l in s.freed)
  }

  function FreeStep(s: State, sid: Sid, oom: bool): State
    requires sid in s.streams
  {
    if s.streams[sid].AtSession? then FreeBare(s, sid)
    else if oom then FreeLeak(s, sid, s.streams[sid].link)
    else FreePair(s, sid, s.streams[sid].link)
  }

  /** TX_WT_SESSION_CLEANUP: walks while the session has a cnx. */
  function HandleCleanup(s: State): State
    requires s.cmds != []
  {
    s.(cmds := s.cmds[1..], worker := if s.cnx then Walking else Idle, fault := s.fault || !s.session)
  }

  /** TX_WT_DEREGISTER: walks, then frees the session struct. */
  function HandleDeregister(s: State): State
    requires s.cmds != []
  {
    s.(cmds := s.cmds[1..], worker := if s.cnx then Leaving else Idle, session := s.cnx && s.session,
       fault := s.fault || !s.session)
  }

  function PairRelease(s: State): State {
    s.(log := s.log + [Release(s.unlinked)], rel := s.rel[s.unlinked := |s.log|], worker := Idle)
  }

  /** One turn of a walk: the link is taken off its stream and released. */
  function WalkOne(s: State, sid: Sid, l: Link): State {
    s.(streams := s.streams - {sid}, log := s.log + [Release(l)], rel := s.rel[l := |s.log|],
       fault := s.fault || !s.session || l in s.freed)
  }

  function WalkEnd(s: State): State { s.(worker := Idle) }

  /** Behind a deregister walk picoquic forgets the session's streams and the struct is freed. */
  function LeaveEnd(s: State): State {
    s.(worker := Idle, session := false, streams := map[], fault := s.fault || !s.session)
  }

  function WorkerStepOf(s: State, sid: Sid): State {
    if s.worker == Pairing then PairRelease(s)
    else if Linked(s, sid) then WalkOne(s, sid, s.streams[sid].link)
    else if s.worker == Walking then WalkEnd(s)
    else LeaveEnd(s)
  }

  function DrainStep(s: State): State
    requires s.head < |s.log|
  {
    s.(head := s.head + 1, fault := s.fault || (s.log[s.head].Bytes? && s.log[s.head].link in s.freed))
  }

  function SidOf(s: State, l: Link): Sid { if l in s.owner then s.owner[l] else 0 }

  /** STREAM_CREATED and NEW_STREAM in _on_event. A STREAM_CREATED may find its caller gone: then
      the context is not kept. */
  function RouteBorn(s: State, l: Link, stash: bool): State {
    s.(next := s.next + 1,
       ctxs := if s.closed then s.ctxs else if stash then s.ctxs[SidOf(s, l) := l] else s.ctxs - {SidOf(s, l)})
  }

  /** WT_STREAM_DESTROY, _RESET and _STOP_SENDING: _drop_stream_tx. */
  function RouteDrop(s: State, sid: Sid): State { s.(next := s.next + 1, ctxs := s.ctxs - {sid}) }

  /** SESSION_CLOSED: _release_session_resources. */
  function RouteClosed(s: State): State {
    s.(next := s.next + 1, closed := true, ctxs := map[], cmds := if s.gone then s.cmds else s.cmds + [Cleanup])
  }

  function RoutePast(s: State): State { s.(next := s.next + 1) }

  function RouteStep(s: State, stash: bool): State
    requires s.next < |s.log|
  {
    var e := s.log[s.next];
    if e.Born? then RouteBorn(s, e.link, stash)
    else if e.Cut? || e.Retired? then RouteDrop(s, e.sid)
    else if e.SessionClosed? then RouteClosed(s)
    else RoutePast(s)
  }

  /** release_batch: a LINK_RELEASE frees its link. */
  function ReleaseLink(s: State, l: Link): State {
    s.(base := s.base + 1, freed := s.freed + multiset{l}, fault := s.fault || l in s.freed)
  }

  function ReleasePast(s: State): State { s.(base := s.base + 1) }

  function ReleaseStep(s: State): State
    requires s.base < |s.log|
  {
    if s.log[s.base].Release? then ReleaseLink(s, s.log[s.base].link) else ReleasePast(s)
  }

  function CloseStep(s: State, push: bool): State {
    s.(closed := true, ctxs := map[], cmds := if push && !s.gone then s.cmds + [Cleanup] else s.cmds)
  }

  /** WebTransportSessionState.__dealloc__; a full TX ring leaks the session struct. */
  function DeallocStep(s: State, push: bool): State {
    s.(gone := true, closed := true, ctxs := map[], cmds := if push then s.cmds + [Deregister] else s.cmds)
  }

  function Apply(s: State, step: Step): State
    requires Enabled(s, step)
  {
    match step
    case PeerStream(sid) => s.(streams := s.streams[sid := AtSession], used := s.used + {sid})
    case CreateStream(sid, link) => CreateLink(s, sid, link)
    case Arrive(sid, link) =>
      if s.streams[sid].AtSession? then ArriveFirst(s, sid, link) else ArriveMore(s, s.streams[sid].link)
    case PeerCut(sid) => s.(log := s.log + [Cut(sid)])
    case PeerClose => s.(log := s.log + [SessionClosed])
    case FreeStream(sid, oom) => FreeStep(s, sid, oom)
    case CnxGone => s.(cnx := false)
    case HandleCmd => if s.cmds[0] == Cleanup then HandleCleanup(s) else HandleDeregister(s)
    case WorkerStep(sid) => WorkerStepOf(s, sid)
    case Drain => DrainStep(s)
    case BeginRoute => s.(phase := Routing)
    case Route(stash) => RouteStep(s, stash)
    case BeginRelease => s.(phase := Releasing)
    case ReleaseOne => ReleaseStep(s)
    case BeginDrain => s.(phase := Draining)
    case Send(sid) => s.(fault := s.fault || s.ctxs[sid] in s.freed)
    case CloseSession(push) => CloseStep(s, push)
    case LateCleanup => s.(cmds := s.cmds + [Cleanup])
    case Dealloc(push) => DeallocStep(s, push)
  }

  ghost predicate Takes(s: State, step: Step, t: State) {
    Enabled(s, step) && t == Apply(s, step)
  }

  ghost predicate Next(s: State, t: State) {
    exists step :: Takes(s, step, t)
  }

  ghost predicate Reachable(s: State) {
    Runs.Reachable(Init, Next, s)
  }

  // ---- the inductive invariant ---------------------------------------------------------------

  predicate Cursors(phase: Phase, base: nat, next: nat, head: nat, pushed: nat) {
    && base <= next <= head <= pushed
    && (phase == Draining ==> next == base)
    && (phase == Releasing ==> next == head)
  }

  /** A link a stream still points at has not been released. */
  ghost predicate Attached(streams: map<Sid, Ctx>, used: set<Sid>, owner: map<Link, Sid>, rel: map<Link, nat>,
                           leaked: set<Link>, ret: map<Sid, nat>) {
    && (forall sid :: sid in streams ==> sid in used && sid !in ret)
    && (forall sid :: sid in streams && streams[sid].AtLink? ==>
          var l := streams[sid].link; l in owner && owner[l] == sid && l !in rel && l !in leaked)
    && (forall l :: l in owner ==> owner[l] in used)
    && (forall sid :: sid in ret ==> sid in used)
    && (forall l :: l in leaked ==> l in owner && l !in rel)
  }

  /** Where each link is: on its stream, between the two halves of a pair, released or leaked. A
      stream that has no link yet has none elsewhere. */
  ghost predicate Whereabouts(streams: map<Sid, Ctx>, owner: map<Link, Sid>, rel: map<Link, nat>, leaked: set<Link>,
                              worker: WorkerPc, unlinked: Link) {
    && (worker == Pairing ==> unlinked in owner && unlinked !in rel && unlinked !in leaked && owner[unlinked] !in streams)
    && (forall l :: l in owner ==>
          || l in rel || l in leaked || (worker == Pairing && l == unlinked)
          || (owner[l] in streams && streams[owner[l]] == AtLink(l)))
  }

  /** LINK_RELEASE is the last event that names its link, and pushed once. */
  ghost predicate Released(log: seq<Event>, owner: map<Link, Sid>, rel: map<Link, nat>) {
    && (forall l :: l in rel ==> rel[l] < |log| && log[rel[l]] == Release(l) && l in owner)
    && (forall i :: 0 <= i < |log| && log[i].Release? ==> log[i].link in rel && rel[log[i].link] == i)
    && (forall i :: 0 <= i < |log| && (log[i].Born? || log[i].Bytes?) ==>
          log[i].link in owner && (log[i].link in rel ==> i < rel[log[i].link]))
  }

  /** STREAM_DESTROY is pushed once, behind the announcement of its stream. */
  ghost predicate Retirement(log: seq<Event>, owner: map<Link, Sid>, ret: map<Sid, nat>) {
    && (forall sid :: sid in ret ==> ret[sid] < |log| && log[ret[sid]] == Retired(sid))
    && (forall i :: 0 <= i < |log| && log[i].Retired? ==> log[i].sid in ret && ret[log[i].sid] == i)
    && (forall i :: 0 <= i < |log| && log[i].Born? && log[i].link in owner && owner[log[i].link] in ret ==>
          i < ret[owner[log[i].link]])
  }

  /** While Python's session is open every release is paired: STREAM_DESTROY comes first. */
  ghost predicate Paired(owner: map<Link, Sid>, rel: map<Link, nat>, ret: map<Sid, nat>, worker: WorkerPc, unlinked: Link) {
    && (forall l :: l in rel && l in owner ==> owner[l] in ret && ret[owner[l]] < rel[l])
    && (worker == Pairing && unlinked in owner ==> owner[unlinked] in ret)
  }

  ghost predicate Ctxs(ctxs: map<Sid, Link>, owner: map<Link, Sid>, ret: map<Sid, nat>, next: nat) {
    forall sid :: sid in ctxs ==>
      && ctxs[sid] in owner && owner[ctxs[sid]] == sid
      && (sid in ret ==> next <= ret[sid])
  }

  function B(b: bool): nat { if b then 1 else 0 }

  ghost predicate Frees(freed: multiset<Link>, rel: map<Link, nat>, base: nat) {
    forall l :: freed[l] == B(l in rel && rel[l] < base)
  }

  ghost predicate Control(s: State) {
    && Cursors(s.phase, s.base, s.next, s.head, |s.log|)
    && (!s.closed ==> s.cmds == [] && !Walk(s.worker) && s.session && Paired(s.owner, s.rel, s.ret, s.worker, s.unlinked))
    && (s.closed ==> s.ctxs == map[])
    && (s.gone ==> s.closed)
    && (!s.session ==> s.gone && s.cmds == [] && s.streams == map[] && s.worker == Idle)
    && (forall i :: 0 <= i < |s.cmds| && s.cmds[i] == Deregister ==> s.gone && i == |s.cmds| - 1)
    && (s.worker == Leaving ==> s.gone && s.cmds == [])
    && !s.fault
  }

  ghost predicate Inv(s: State) {
    && Control(s)
    && Attached(s.streams, s.used, s.owner, s.rel, s.leaked, s.ret)
    && Whereabouts(s.streams, s.owner, s.rel, s.leaked, s.worker, s.unlinked)
    && Released(s.log, s.owner, s.rel)
    && Retirement(s.log, s.owner, s.ret)
    && Ctxs(s.ctxs, s.owner, s.ret, s.next)
    && Frees(s.freed, s.rel, s.base)
  }

  // ---- pushing an event, part by part --------------------------------------------------------

  lemma ReleasedPush(log: seq<Event>, owner: map<Link, Sid>, rel: map<Link, nat>, e: Event)
    requires Released(log, owner, rel) && !e.Release?
    requires e.Born? || e.Bytes? ==> e.link in owner && e.link !in rel
    ensures Released(log + [e], owner, rel)
  {
  }

  lemma ReleasedNew(log: seq<Event>, owner: map<Link, Sid>, rel: map<Link, nat>, l: Link, sid: Sid)
    requires Released(log, owner, rel) && l !in owner
    ensures l !in rel && Released(log, owner[l := sid], rel)
  {
  }

  lemma ReleasedRelease(log: seq<Event>, owner: map<Link, Sid>, rel: map<Link, nat>, l: Link)
    requires Released(log, owner, rel) && l in owner && l !in rel
    ensures Released(log + [Release(l)], owner, rel[l := |log|])
  {
  }

  lemma RetirementPush(log: seq<Event>, owner: map<Link, Sid>, ret: map<Sid, nat>, e: Event)
    requires Retirement(log, owner, ret) && !e.Retired?
    requires e.Born? ==> e.link in owner && owner[e.link] !in ret
    ensures Retirement(log + [e], owner, ret)
  {
  }

  lemma RetirementNew(log: seq<Event>, owner: map<Link, Sid>, ret: map<Sid, nat>, rel: map<Link, nat>, l: Link, sid: Sid)
    requires Retirement(log, owner, ret) && Released(log, owner, rel) && l !in owner
    ensures Retirement(log, owner[l := sid], ret)
  {
  }

  lemma RetirementRetire(log: seq<Event>, owner: map<Link, Sid>, ret: map<Sid, nat>, sid: Sid)
    requires Retirement(log, owner, ret) && sid !in ret
    ensures Retirement(log + [Retired(sid)], owner, ret[sid := |log|])
  {
  }

  /** A new link's announcement. */
  lemma Announced(s: State, l: Link, sid: Sid)
    requires Released(s.log, s.owner, s.rel) && Retirement(s.log, s.owner, s.ret) && l !in s.owner && sid !in s.ret
    ensures l !in s.rel && Released(s.log + [Born(l)], s.owner[l := sid], s.rel)
    ensures Retirement(s.log + [Born(l)], s.owner[l := sid], s.ret)
  {
    ReleasedNew(s.log, s.owner, s.rel, l, sid);
    ReleasedPush(s.log, s.owner[l := sid], s.rel, Born(l));
    RetirementNew(s.log, s.owner, s.ret, s.rel, l, sid);
    RetirementPush(s.log, s.owner[l := sid], s.ret, Born(l));
  }

  lemma Plainly(s: State, e: Event)
    requires Released(s.log, s.owner, s.rel) && Retirement(s.log, s.owner, s.ret)
    requires e.Cut? || e.SessionClosed? || (e.Bytes? && e.link in s.owner && e.link !in s.rel)
    ensures Released(s.log + [e], s.owner, s.rel) && Retirement(s.log + [e], s.owner, s.ret)
  {
    ReleasedPush(s.log, s.owner, s.rel, e);
    RetirementPush(s.log, s.owner, s.ret, e);
  }

  lemma ReleaseOut(s: State, l: Link)
    requires Released(s.log, s.owner, s.rel) && Retirement(s.log, s.owner, s.ret) && l in s.owner && l !in s.rel
    ensures Released(s.log + [Release(l)], s.owner, s.rel[l := |s.log|])
    ensures Retirement(s.log + [Release(l)], s.owner, s.ret)
  {
    ReleasedRelease(s.log, s.owner, s.rel, l);
    RetirementPush(s.log, s.owner, s.ret, Release(l));
  }

  lemma StreamAppears(s: State, sid: Sid)
    requires Attached(s.streams, s.used, s.owner, s.rel, s.leaked, s.ret) && sid !in s.used
    requires Whereabouts(s.streams, s.owner, s.rel, s.leaked, s.worker, s.unlinked) && s.worker == Idle
    ensures Attached(s.streams[sid := AtSession], s.used + {sid}, s.owner, s.rel, s.leaked, s.ret)
    ensures Whereabouts(s.streams[sid := AtSession], s.owner, s.rel, s.leaked, s.worker, s.unlinked)
  {
  }

  /** Where a new link is. */
  lemma Placed(s: State, l: Link, sid: Sid)
    requires Attached(s.streams, s.used, s.owner, s.rel, s.leaked, s.ret)
    requires Whereabouts(s.streams, s.owner, s.rel, s.leaked, s.worker, s.unlinked) && s.worker == Idle
    requires l !in s.owner && l !in s.rel && (sid !in s.used || (sid in s.streams && s.streams[sid] == AtSession))
    ensures sid !in s.ret
    ensures var streams := s.streams[sid := AtLink(l)];
            && Attached(streams, s.used + {sid}, s.owner[l := sid], s.rel, s.leaked, s.ret)
            && (sid in s.used ==> Attached(streams, s.used, s.owner[l := sid], s.rel, s.leaked, s.ret))
            && Whereabouts(streams, s.owner[l := sid], s.rel, s.leaked, s.worker, s.unlinked)
  {
    if sid in s.used { assert s.used + {sid} == s.used; }
  }

  lemma OwnerGrows(s: State, l: Link, sid: Sid)
    requires Ctxs(s.ctxs, s.owner, s.ret, s.next) && l !in s.owner && l !in s.rel && s.worker != Pairing
    ensures Ctxs(s.ctxs, s.owner[l := sid], s.ret, s.next)
    ensures Paired(s.owner, s.rel, s.ret, s.worker, s.unlinked) ==>
              Paired(s.owner[l := sid], s.rel, s.ret, s.worker, s.unlinked)
  {
  }

  /** LINK_RELEASE is out: the link is where its event is. */
  lemma RelGrows(s: State, l: Link, n: nat)
    requires Attached(s.streams, s.used, s.owner, s.rel, s.leaked, s.ret) && s.worker == Pairing && l == s.unlinked
    requires Whereabouts(s.streams, s.owner, s.rel, s.leaked, s.worker, s.unlinked)
    requires Frees(s.freed, s.rel, s.base) && s.base <= n
    ensures Attached(s.streams, s.used, s.owner, s.rel[l := n], s.leaked, s.ret)
    ensures Whereabouts(s.streams, s.owner, s.rel[l := n], s.leaked, Idle, s.unlinked)
    ensures Frees(s.freed, s.rel[l := n], s.base)
  {
  }

  lemma PairCompleted(s: State, l: Link, n: nat)
    requires Paired(s.owner, s.rel, s.ret, Pairing, l) && l in s.owner
    requires Retirement(s.log, s.owner, s.ret) && n == |s.log|
    ensures Paired(s.owner, s.rel[l := n], s.ret, Idle, l)
  {
  }

  /** A stream goes, and STREAM_DESTROY with it. */
  lemma Unpaired(s: State, sid: Sid, l: Link, n: nat)
    requires Attached(s.streams, s.used, s.owner, s.rel, s.leaked, s.ret)
    requires Whereabouts(s.streams, s.owner, s.rel, s.leaked, s.worker, s.unlinked) && s.worker == Idle
    requires sid in s.streams && s.streams[sid] == AtLink(l)
    ensures sid !in s.ret && l in s.owner && s.owner[l] == sid
    ensures Attached(s.streams - {sid}, s.used, s.owner, s.rel, s.leaked, s.ret[sid := n])
    ensures Whereabouts(s.streams - {sid}, s.owner, s.rel, s.leaked, Pairing, l)
  {
  }

  lemma PairedGrows(s: State, sid: Sid, l: Link, n: nat)
    requires Paired(s.owner, s.rel, s.ret, s.worker, s.unlinked) && sid !in s.ret && l in s.owner && s.owner[l] == sid
    ensures Paired(s.owner, s.rel, s.ret[sid := n], Pairing, l)
  {
  }

  lemma CtxsGrow(s: State, sid: Sid, n: nat)
    requires Ctxs(s.ctxs, s.owner, s.ret, s.next) && s.next <= n
    ensures Ctxs(s.ctxs, s.owner, s.ret[sid := n], s.next)
  {
  }

  // ---- every step keeps the invariant --------------------------------------------------------

  lemma PeerStreamKeepsInv(s: State, sid: Sid)
    requires s.worker == Idle && s.session && sid !in s.used
    requires Inv(s)
    ensures Inv(s.(streams := s.streams[sid := AtSession], used := s.used + {sid}))
  {
    StreamAppears(s, sid);
  }

  lemma CreateStreamKeepsInv(s: State, sid: Sid, link: Link)
    requires s.worker == Idle && s.session && sid !in s.used && link !in s.owner
    requires Inv(s)
    ensures Inv(CreateLink(s, sid, link))
  {
    Announced(s, link, sid);
    Placed(s, link, sid);
    OwnerGrows(s, link, sid);
  }

  lemma ArriveFirstKeepsInv(s: State, sid: Sid, link: Link)
    requires s.worker == Idle && sid in s.streams && s.streams[sid].AtSession? && link !in s.owner
    requires Inv(s)
    ensures Inv(ArriveFirst(s, sid, link))
  {
    Announced(s, link, sid);
    Placed(s, link, sid);
    OwnerGrows(s, link, sid);
  }

  lemma ArriveMoreKeepsInv(s: State, sid: Sid)
    requires s.worker == Idle && Linked(s, sid)
    requires Inv(s)
    ensures Inv(ArriveMore(s, s.streams[sid].link))
  {
    Plainly(s, Bytes(s.streams[sid].link));
  }

  lemma PlainKeepsInv(s: State, e: Event)
    requires e.Cut? || e.SessionClosed?
    requires Inv(s)
    ensures Inv(s.(log := s.log + [e]))
  {
    Plainly(s, e);
  }

  lemma FreeBareKeepsInv(s: State, sid: Sid)
    requires s.worker == Idle && sid in s.streams && s.streams[sid].AtSession?
    requires Inv(s)
    ensures Inv(FreeBare(s, sid))
  {
  }

  lemma FreeLeakKeepsInv(s: State, sid: Sid, l: Link)
    requires s.worker == Idle && sid in s.streams && s.streams[sid] == AtLink(l)
    requires Inv(s)
    ensures Inv(FreeLeak(s, sid, l))
  {
  }

  lemma FreePairKeepsControl(s: State, sid: Sid, l: Link)
    requires s.worker == Idle && sid in s.streams && sid !in s.ret && l in s.owner && s.owner[l] == sid
    requires Control(s) && l !in s.freed
    ensures Control(FreePair(s, sid, l))
  {
    if !s.closed { PairedGrows(s, sid, l, |s.log|); }
  }

  lemma FreePairKeepsInv(s: State, sid: Sid, l: Link)
    requires s.worker == Idle && sid in s.streams && s.streams[sid] == AtLink(l)
    requires Inv(s)
    ensures Inv(FreePair(s, sid, l))
  {
    var n := |s.log|;
    Unpaired(s, sid, l, n);
    CtxsGrow(s, sid, n);
    FreePairKeepsControl(s, sid, l);
    ReleasedPush(s.log, s.owner, s.rel, Retired(sid));
    RetirementRetire(s.log, s.owner, s.ret, sid);
  }

  lemma CleanupKeepsInv(s: State)
    requires s.worker == Idle && s.cmds != [] && s.cmds[0] == Cleanup
    requires Inv(s)
    ensures Inv(HandleCleanup(s))
  {
  }

  lemma DeregisterKeepsInv(s: State)
    requires s.worker == Idle && s.cmds != [] && s.cmds[0] == Deregister && (s.cnx || s.streams == map[])
    requires Inv(s)
    ensures Inv(HandleDeregister(s))
  {
  }

  lemma PairReleaseKeepsControl(s: State)
    requires s.worker == Pairing && s.unlinked in s.owner && Control(s) && Retirement(s.log, s.owner, s.ret)
    ensures Control(PairRelease(s))
  {
    if !s.closed { PairCompleted(s, s.unlinked, |s.log|); }
  }

  lemma PairReleaseKeepsInv(s: State)
    requires s.worker == Pairing
    requires Inv(s)
    ensures Inv(PairRelease(s))
  {
    PairReleaseKeepsControl(s);
    RelGrows(s, s.unlinked, |s.log|);
    ReleaseOut(s, s.unlinked);
  }

  lemma WalkOneKeepsInv(s: State, sid: Sid, l: Link)
    requires Walk(s.worker) && sid in s.streams && s.streams[sid] == AtLink(l)
    requires Inv(s)
    ensures Inv(WalkOne(s, sid, l))
  {
    ReleaseOut(s, l);
  }

  lemma WalkEndKeepsInv(s: State)
    requires s.worker == Walking
    requires Inv(s)
    ensures Inv(WalkEnd(s))
  {
  }

  lemma LeaveEndKeepsInv(s: State)
    requires s.worker == Leaving && NoneLinked(s)
    requires Inv(s)
    ensures Inv(LeaveEnd(s))
  {
  }

  lemma DrainKeepsInv(s: State)
    requires s.phase == Draining && s.head < |s.log|
    requires Inv(s)
    ensures Inv(DrainStep(s))
  {
  }

  lemma RouteBornKeepsInv(s: State, l: Link, stash: bool)
    requires s.phase == Routing && s.next < s.head <= |s.log| && s.log[s.next] == Born(l)
    requires Inv(s)
    ensures Inv(RouteBorn(s, l, stash))
  {
  }

  lemma RouteDropKeepsInv(s: State, sid: Sid)
    requires s.phase == Routing && s.next < s.head <= |s.log|
    requires s.log[s.next] == Cut(sid) || s.log[s.next] == Retired(sid)
    requires Inv(s)
    ensures Inv(RouteDrop(s, sid))
  {
  }

  lemma RouteClosedKeepsInv(s: State)
    requires s.phase == Routing && s.next < s.head <= |s.log|
    requires Inv(s)
    ensures Inv(RouteClosed(s))
  {
  }

  lemma RoutePastKeepsInv(s: State)
    requires s.phase == Routing && s.next < s.head <= |s.log| && (s.log[s.next].Bytes? || s.log[s.next].Release?)
    requires Inv(s)
    ensures Inv(RoutePast(s))
  {
  }

  lemma ReleaseLinkKeepsInv(s: State, l: Link)
    requires s.phase == Releasing && s.base < s.head <= |s.log| && s.log[s.base] == Release(l)
    requires Inv(s)
    ensures Inv(ReleaseLink(s, l))
  {
  }

  lemma ReleasePastKeepsInv(s: State)
    requires s.phase == Releasing && s.base < s.head <= |s.log| && !s.log[s.base].Release?
    requires Inv(s)
    ensures Inv(ReleasePast(s))
  {
  }

  lemma CloseKeepsInv(s: State, push: bool)
    requires !s.gone
    requires Inv(s)
    ensures Inv(CloseStep(s, push))
  {
  }

  lemma LateCleanupKeepsInv(s: State)
    requires s.closed && !s.gone
    requires Inv(s)
    ensures Inv(s.(cmds := s.cmds + [Cleanup]))
  {
  }

  lemma DeallocKeepsInv(s: State, push: bool)
    requires !s.gone
    requires Inv(s)
    ensures Inv(DeallocStep(s, push))
  {
  }

  lemma FreeKeepsInv(s: State, sid: Sid, oom: bool)
    requires s.worker == Idle && sid in s.streams && Inv(s)
    ensures Inv(FreeStep(s, sid, oom))
  {
    if s.streams[sid].AtSession? { FreeBareKeepsInv(s, sid); }
    else if oom { FreeLeakKeepsInv(s, sid, s.streams[sid].link); }
    else { FreePairKeepsInv(s, sid, s.streams[sid].link); }
  }

  lemma WorkerKeepsInv(s: State, sid: Sid)
    requires Enabled(s, WorkerStep(sid)) && Inv(s)
    ensures Inv(WorkerStepOf(s, sid))
  {
    if s.worker == Pairing { PairReleaseKeepsInv(s); }
    else if Linked(s, sid) { WalkOneKeepsInv(s, sid, s.streams[sid].link); }
    else if s.worker == Walking { WalkEndKeepsInv(s); }
    else { LeaveEndKeepsInv(s); }
  }

  lemma RouteKeepsInv(s: State, stash: bool)
    requires s.phase == Routing && s.next < s.head <= |s.log| && Inv(s)
    ensures Inv(RouteStep(s, stash))
  {
    var e := s.log[s.next];
    if e.Born? { RouteBornKeepsInv(s, e.link, stash); }
    else if e.Cut? || e.Retired? { RouteDropKeepsInv(s, e.sid); }
    else if e.SessionClosed? { RouteClosedKeepsInv(s); }
    else { RoutePastKeepsInv(s); }
  }

  lemma ReleaseKeepsInv(s: State)
    requires s.phase == Releasing && s.base < s.head <= |s.log| && Inv(s)
    ensures Inv(ReleaseStep(s))
  {
    if s.log[s.base].Release? { ReleaseLinkKeepsInv(s, s.log[s.base].link); } else { ReleasePastKeepsInv(s); }
  }

  predicate Quiet(step: Step) {
    step.CnxGone? || step.BeginRoute? || step.BeginRelease? || step.BeginDrain?
  }

  lemma QuietKeepsInv(s: State, step: Step)
    requires Inv(s) && Enabled(s, step) && Quiet(step)
    ensures Inv(Apply(s, step))
  {
  }

  lemma SendKeepsInv(s: State, sid: Sid)
    requires Inv(s) && sid in s.ctxs
    ensures s.ctxs[sid] !in s.freed && Inv(s.(fault := s.fault || s.ctxs[sid] in s.freed))
  {
    assert s.freed[s.ctxs[sid]] == B(s.ctxs[sid] in s.rel && s.rel[s.ctxs[sid]] < s.base);
  }

  predicate Picoquic(step: Step) {
    step.PeerStream? || step.CreateStream? || step.Arrive? || step.PeerCut? || step.PeerClose? || step.FreeStream?
  }

  lemma PicoquicKeepsInv(s: State, step: Step)
    requires Inv(s) && Enabled(s, step) && Picoquic(step)
    ensures Inv(Apply(s, step))
  {
    if step.PeerStream? { PeerStreamKeepsInv(s, step.sid); }
    else if step.CreateStream? { CreateStreamKeepsInv(s, step.sid, step.link); }
    else if step.Arrive? {
      if s.streams[step.sid].AtSession? { ArriveFirstKeepsInv(s, step.sid, step.link); }
      else { ArriveMoreKeepsInv(s, step.sid); }
    }
    else if step.PeerCut? { PlainKeepsInv(s, Cut(step.sid)); }
    else if step.PeerClose? { PlainKeepsInv(s, SessionClosed); }
    else { FreeKeepsInv(s, step.sid, step.oom); }
  }

  lemma StepKeepsInv(s: State, step: Step)
    requires Inv(s) && Enabled(s, step)
    ensures Inv(Apply(s, step))
  {
    if Picoquic(step) { PicoquicKeepsInv(s, step); }
    else if Quiet(step) { QuietKeepsInv(s, step); }
    else if step.HandleCmd? { if s.cmds[0] == Cleanup { CleanupKeepsInv(s); } else { DeregisterKeepsInv(s); } }
    else if step.WorkerStep? { WorkerKeepsInv(s, step.sid); }
    else if step.Drain? { DrainKeepsInv(s); }
    else if step.Route? { RouteKeepsInv(s, step.stash); }
    else if step.ReleaseOne? { ReleaseKeepsInv(s); }
    else if step.Send? { SendKeepsInv(s, step.sid); }
    else if step.CloseSession? { CloseKeepsInv(s, step.push); }
    else if step.LateCleanup? { LateCleanupKeepsInv(s); }
    else { DeallocKeepsInv(s, step.push); }
  }

  lemma ReachableInv(s: State)
    requires Reachable(s)
    ensures Inv(s)
  {
    forall s, t | Inv(s) && Next(s, t) ensures Inv(t) {
      var step :| Takes(s, step, t);
      StepKeepsInv(s, step);
    }
    Runs.InvariantHolds(Init, Next, Inv, s);
  }

  // ---- what the source promises --------------------------------------------------------------

  /** Each link is released at most once over the free, cleanup and deregister paths, and freed at
      most once, when the batch with its LINK_RELEASE is done; no step touches a freed link or
      session. */
  lemma ReleasedOnce(s: State, l: Link)
    requires Reachable(s)
    ensures forall i, j :: 0 <= i < |s.log| && 0 <= j < |s.log| && s.log[i] == s.log[j] == Release(l) ==> i == j
    ensures s.freed[l] == B(l in s.rel && s.rel[l] < s.base) && !s.fault
  {
    ReachableInv(s);
  }

  /** No link is lost: it is on its stream, between STREAM_DESTROY and LINK_RELEASE, released, or
      leaked by the out-of-memory branch that skips both events. */
  lemma NoLinkLost(s: State, l: Link)
    requires Reachable(s) && l in s.owner
    ensures || l in s.rel || l in s.leaked || (s.worker == Pairing && l == s.unlinked)
            || (s.owner[l] in s.streams && s.streams[s.owner[l]] == AtLink(l))
  {
    ReachableInv(s);
  }

  /** No event naming a link's context comes behind its LINK_RELEASE. */
  lemma ReleaseIsLast(s: State, i: nat, j: nat)
    requires Reachable(s) && i < |s.log| && j < |s.log| && s.log[i].Release?
    requires (s.log[j].Born? || s.log[j].Bytes?) && s.log[j].link == s.log[i].link
    ensures j < i
  {
    ReachableInv(s);
  }

  /** Every context an event of the batch or of the queue names is alive until the batch has been
      routed. */
  lemma EventNamesLive(s: State, i: nat)
    requires Reachable(s) && s.base <= i < |s.log| && (s.log[i].Born? || s.log[i].Bytes?)
    ensures s.log[i].link !in s.freed
  {
    ReachableInv(s);
    var l := s.log[i].link;
    assert s.freed[l] == B(l in s.rel && s.rel[l] < s.base);
  }

  /** Present in _stream_tx_ctxs means alive. */
  lemma StashedIsLive(s: State, sid: Sid)
    requires Reachable(s) && sid in s.ctxs
    ensures s.ctxs[sid] !in s.freed
  {
    ReachableInv(s);
    SendKeepsInv(s, sid);
  }
}

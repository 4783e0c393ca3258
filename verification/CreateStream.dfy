/** Creating WebTransport streams (webtransport.py, h3wt_callback.h): each create_stream submits
    one request and appends one future; the worker answers requests in order; a reply is paired
    with the oldest future, whether its caller still waits, timed out or was cancelled. Streams
    nobody takes are retired by a queue of reset and stop-sending commands. Callers are numbered by
    submission; asyncio runs one handler at a time and the worker beside it. */
module CreateStream {
  import Runs

  type Sid = nat
  type Caller = nat

  /** A create_stream call and its future. */
  datatype Status =
    | Waiting                      // future not done
    | Abandoned                    // timed out or cancelled: the future is cancelled, its slot stays
    | Delivered(sid: Sid)          // result set, the caller has not resumed
    | Refused                      // result 0 or an exception set, the caller has not resumed
    | Owns(sid: Sid)               // returned the id
    | Raised                       // raised to its caller

  /** SPSC_EVT_WT_STREAM_CREATED. Id 0 is "no stream": the first client stream of a connection is
      the CONNECT stream, never one of these. */
  datatype Reply = Reply(sid: Sid, error: nat)

  datatype Place = InReply(index: nat) | InFuture(caller: Caller) | WithCaller(caller: Caller) | Orphan | LeftToTeardown

  datatype Command = Command(sid: Sid, stop: bool)

  datatype State = State(
    requests: seq<bool>,           // pushed into the TX ring: whether each asked for a bidirectional stream
    attached: bool,                // the session has its cnx and h3 context
    handled: nat,                  // requests the worker has taken from the TX ring
    replies: seq<Reply>, head: nat,     // everything the worker pushed, how much was routed
    pending: seq<Caller>,          // _pending_creates
    callers: seq<Status>,
    commands: seq<Command>,        // _orphan_stream_commands
    closed: bool,
    resets: multiset<Sid>, stops: multiset<Sid>,   // retirement commands pushed
    place: map<Sid, Place>)        // history: every id the worker allocated

  /** What picoquic and the allocator give the handler of a create request. */
  datatype Outcome = NoStream | NoLink(sid: Sid) | Created(sid: Sid)

  datatype Step =
    | Submit(bidi: bool)
    | Handle(outcome: Outcome)
    | Detach                       // the session is deregistered from its cnx
    | Route
    | GiveUp(c: Caller)            // a timeout or a cancellation reaches the caller
    | Resume(c: Caller)
    | Retire(pushed: bool)         // the retry task: one command pushed, or the connection is gone
    | CloseSession

  predicate Bidi(sid: Sid) { sid / 2 % 2 == 0 }

  predicate Init(s: State) {
    && s.handled == s.head == 0 && s.requests == [] && s.attached && s.replies == [] && s.pending == [] && s.callers == [] && s.commands == []
    && !s.closed && s.resets == s.stops == multiset{} && s.place == map[]
  }

  predicate Enabled(s: State, step: Step) {
    match step
    case Submit(_) => !s.closed
    case Handle(outcome) =>        // picoquic allocates fresh ids of the kind asked for
      && s.handled < |s.requests|
      && (outcome.NoStream?
          || (outcome.sid != 0 && outcome.sid !in s.place && Bidi(outcome.sid) == s.requests[s.handled]))
    case Detach => s.attached
    case Route => s.head < |s.replies|
    case GiveUp(c) => c < |s.callers| && !Returned(s.callers[c]) && !s.callers[c].Abandoned?
    case Resume(c) => c < |s.callers| && (s.callers[c].Delivered? || s.callers[c].Refused?)
    case Retire(_) => s.commands != []
    case CloseSession => !s.closed
  }

  predicate Returned(st: Status) { st.Owns? || st.Raised? }

  /** _retire_orphan_stream. */
  function Commands(sid: Sid): seq<Command> {
    if Bidi(sid) then [Command(sid, false), Command(sid, true)] else [Command(sid, false)]
  }

  function SubmitStep(s: State, bidi: bool): State {
    s.(requests := s.requests + [bidi], pending := s.pending + [|s.requests|], callers := s.callers + [Waiting])
  }

  /** The reply of SPSC_EVT_TX_WT_CREATE_STREAM, branch by branch. */
  function Answer(attached: bool, outcome: Outcome): Reply {
    if !attached then Reply(0, 1)
    else
      match outcome
      case NoStream => Reply(0, 1)
      case NoLink(sid) => Reply(sid, 2)
      case Created(sid) => Reply(sid, 0)
  }

  function HandleStep(s: State, r: Reply): State {
    s.(handled := s.handled + 1, replies := s.replies + [r],
       place := if r.sid == 0 then s.place else s.place[r.sid := InReply(|s.replies|)])
  }

  /** A reply after the close: session cleanup ends the stream. */
  function RouteLate(s: State, sid: Sid): State {
    s.(head := s.head + 1, place := if sid == 0 then s.place else s.place[sid := LeftToTeardown])
  }

  /** A reply whose caller waits and which brings a stream. */
  function RouteDeliver(s: State, c: Caller, sid: Sid): State
    requires s.pending != [] && c < |s.callers|
  {
    s.(head := s.head + 1, pending := s.pending[1..], callers := s.callers[c := Delivered(sid)],
       place := s.place[sid := InFuture(c)])
  }

  /** A reply nobody can take, or that brings an error: a stream it names is retired, a caller
      that still waits is refused. */
  function RouteRefuse(s: State, sid: Sid): State {
    s.(head := s.head + 1, pending := if s.pending == [] then [] else s.pending[1..],
       callers := if s.pending != [] && s.pending[0] < |s.callers| && s.callers[s.pending[0]].Waiting?
                  then s.callers[s.pending[0] := Refused] else s.callers,
       commands := if sid == 0 then s.commands else s.commands + Commands(sid),
       place := if sid == 0 then s.place else s.place[sid := Orphan])
  }

  function RouteStep(s: State): State
    requires s.head < |s.replies|
  {
    var r := s.replies[s.head];
    if s.closed then RouteLate(s, r.sid)
    else if r.error != 0 || s.pending == [] || s.pending[0] >= |s.callers| || !s.callers[s.pending[0]].Waiting?
    then RouteRefuse(s, r.sid)
    else RouteDeliver(s, s.pending[0], r.sid)
  }

  /** The except branch of create_stream: a result that arrived just before is retired. */
  function GiveUpStep(s: State, c: Caller): State
    requires c < |s.callers|
  {
    match s.callers[c]
    case Delivered(sid) => Discard(s, c, sid)
    case Waiting => s.(callers := s.callers[c := Abandoned])
    case _ => s.(callers := s.callers[c := Raised])
  }

  function Discard(s: State, c: Caller, sid: Sid): State
    requires c < |s.callers|
  {
    s.(callers := s.callers[c := Raised],
       commands := if s.closed then s.commands else s.commands + Commands(sid),
       place := s.place[sid := if s.closed then LeftToTeardown else Orphan])
  }

  function ResumeStep(s: State, c: Caller): State
    requires c < |s.callers|
  {
    if s.callers[c].Delivered?
    then s.(callers := s.callers[c := Owns(s.callers[c].sid)], place := s.place[s.callers[c].sid := WithCaller(c)])
    else s.(callers := s.callers[c := Raised])
  }

  predicate Commanded(cs: seq<Command>, sid: Sid) { exists i :: 0 <= i < |cs| && cs[i].sid == sid }

  /** What the queue still held is left to session or connection teardown. */
  function Abandon(s: State): map<Sid, Place> {
    map sid | sid in s.place ::
      if s.place[sid].Orphan? && Commanded(s.commands, sid) then LeftToTeardown else s.place[sid]
  }

  /** One turn of _retire_orphan_streams. */
  function RetireStep(s: State, pushed: bool): State
    requires s.commands != []
  {
    var c := s.commands[0];
    if !pushed then s.(commands := [], place := Abandon(s))          // ConnectionError
    else if c.stop then s.(commands := s.commands[1..], stops := s.stops + multiset{c.sid})
    else s.(commands := s.commands[1..], resets := s.resets + multiset{c.sid})
  }

  /** _release_session_resources: the futures get an exception, the commands are dropped. */
  function CloseStep(s: State): State {
    s.(closed := true, pending := [], commands := [], place := Abandon(s),
       callers := seq(|s.callers|, c requires 0 <= c < |s.callers| =>
                        if s.callers[c].Waiting? then Refused else s.callers[c]))
  }

  function Apply(s: State, step: Step): State
    requires Enabled(s, step)
  {
    match step
    case Submit(bidi) => SubmitStep(s, bidi)
    case Handle(outcome) => HandleStep(s, Answer(s.attached, outcome))
    case Detach => s.(attached := false)
    case Route => RouteStep(s)
    case GiveUp(c) => GiveUpStep(s, c)
    case Resume(c) => ResumeStep(s, c)
    case Retire(pushed) => RetireStep(s, pushed)
    case CloseSession => CloseStep(s)
  }

  ghost predicate Takes(s: State, step: Step, t: State) {
    Enabled(s, step) && t == Apply(s, step)
  }

  ghost predicate Next(s: State, t: State) {
    exists step :: Takes(s, step, t)
  }

  ghost predicate Reachable(s: State) {
    Runs.Reachable(Init, Next, s)
  }

  // ---- the inductive invariant ---------------------------------------------------------------

  /** The futures in the deque are those of the requests not yet routed, in order. */
  ghost predicate Slots(pending: seq<Caller>, head: nat, submitted: nat, closed: bool) {
    && head <= submitted
    && (closed ==> pending == [])
    && (!closed ==> |pending| == submitted - head && forall i :: 0 <= i < |pending| ==> pending[i] == head + i)
  }

  ghost predicate Futures(callers: seq<Status>, head: nat, submitted: nat, closed: bool) {
    && |callers| == submitted
    && (forall c :: 0 <= c < |callers| && callers[c].Waiting? ==> !closed && head <= c)
    && (forall c :: 0 <= c < |callers| && !closed && head <= c ==>
          callers[c].Waiting? || callers[c].Abandoned?)
  }

  ghost predicate Whereabouts(replies: seq<Reply>, head: nat, callers: seq<Status>, place: map<Sid, Place>) {
    && (forall i :: 0 <= i < |replies| && replies[i].sid != 0 ==> replies[i].sid in place)
    && (forall i :: head <= i < |replies| && replies[i].sid != 0 ==> place[replies[i].sid] == InReply(i))
    && (forall c :: 0 <= c < |callers| && callers[c].Delivered? ==>
          callers[c].sid in place && place[callers[c].sid] == InFuture(c))
    && (forall c :: 0 <= c < |callers| && callers[c].Owns? ==>
          callers[c].sid in place && place[callers[c].sid] == WithCaller(c))
    && (forall sid :: sid in place ==>
          && sid != 0
          && (place[sid].InReply? ==> head <= place[sid].index < |replies| && replies[place[sid].index].sid == sid)
          && (place[sid].InFuture? ==> place[sid].caller < |callers| && callers[place[sid].caller] == Delivered(sid))
          && (place[sid].WithCaller? ==> place[sid].caller < |callers| && callers[place[sid].caller] == Owns(sid))
          && (place[sid].InFuture? || place[sid].WithCaller? ==>
                place[sid].caller < head <= |replies| && replies[place[sid].caller] == Reply(sid, 0)))
  }

  function Count(cs: seq<Command>, c: Command): nat {
    if cs == [] then 0 else Count(cs[..|cs| - 1], c) + (if cs[|cs| - 1] == c then 1 else 0)
  }

  ghost predicate Retirement(commands: seq<Command>, resets: multiset<Sid>, stops: multiset<Sid>, place: map<Sid, Place>) {
    && (forall sid :: sid in place && place[sid].Orphan? ==>
          && resets[sid] + Count(commands, Command(sid, false)) == 1
          && stops[sid] + Count(commands, Command(sid, true)) == if Bidi(sid) then 1 else 0)
    && (forall sid :: sid !in place || !(place[sid].Orphan? || place[sid].LeftToTeardown?) ==>
          resets[sid] == stops[sid] == Count(commands, Command(sid, false)) == Count(commands, Command(sid, true)) == 0)
  }

  /** A reply brings a stream of the kind its request asked for. */
  ghost predicate Kinds(replies: seq<Reply>, requests: seq<bool>) {
    forall i :: 0 <= i < |replies| && i < |requests| && replies[i].sid != 0 ==> Bidi(replies[i].sid) == requests[i]
  }

  ghost predicate Inv(s: State) {
    && s.head <= |s.replies| == s.handled <= |s.requests|
    && Kinds(s.replies, s.requests)
    && Slots(s.pending, s.head, |s.requests|, s.closed)
    && Futures(s.callers, s.head, |s.requests|, s.closed)
    && Whereabouts(s.replies, s.head, s.callers, s.place)
    && Retirement(s.commands, s.resets, s.stops, s.place)
    && (s.closed ==> s.commands == [])
    && (forall i :: 0 <= i < |s.replies| && s.replies[i].sid == 0 ==> s.replies[i].error != 0)
  }

  // ---- counting commands ---------------------------------------------------------------------

  lemma {:induction false} CountConcat(a: seq<Command>, b: seq<Command>, c: Command)
    ensures Count(a + b, c) == Count(a, c) + Count(b, c)
    decreases |b|
  {
    if b == [] {
      assert a + b == a;
    } else {
      assert (a + b)[..|a + b| - 1] == a + b[..|b| - 1];
      CountConcat(a, b[..|b| - 1], c);
    }
  }

  lemma CountHead(cs: seq<Command>, c: Command)
    requires cs != []
    ensures Count(cs, c) == (if cs[0] == c then 1 else 0) + Count(cs[1..], c)
  {
    assert cs == [cs[0]] + cs[1..];
    CountConcat([cs[0]], cs[1..], c);
    assert [cs[0]][..0] == [];
  }

  lemma {:induction false} CountZero(cs: seq<Command>, c: Command)
    requires !Commanded(cs, c.sid)
    ensures Count(cs, c) == 0
    decreases |cs|
  {
    if cs != [] {
      CountZero(cs[..|cs| - 1], c);
    }
  }

  lemma CountCommands(sid: Sid, x: Sid)
    ensures Count(Commands(sid), Command(x, false)) == if x == sid then 1 else 0
    ensures Count(Commands(sid), Command(x, true)) == if x == sid && Bidi(sid) then 1 else 0
  {
    var a, b := Command(sid, false), Command(sid, true);
    assert Count([a], Command(x, false)) == (if x == sid then 1 else 0) && Count([a], Command(x, true)) == 0 by {
      assert [a][..0] == [];
    }
    assert [a, b][..1] == [a];
  }

  /** A stream nobody takes: its commands are queued. */
  lemma OrphanQueued(commands: seq<Command>, resets: multiset<Sid>, stops: multiset<Sid>, place: map<Sid, Place>, sid: Sid)
    requires Retirement(commands, resets, stops, place)
    requires sid in place && !place[sid].Orphan? && !place[sid].LeftToTeardown?
    ensures Retirement(commands + Commands(sid), resets, stops, place[sid := Orphan])
  {
    forall x, stop ensures Count(commands + Commands(sid), Command(x, stop))
                        == Count(commands, Command(x, stop)) + Count(Commands(sid), Command(x, stop)) {
      CountConcat(commands, Commands(sid), Command(x, stop));
    }
    forall x {
      CountCommands(sid, x);
    }
  }

  /** A command is pushed. */
  lemma CommandPushed(commands: seq<Command>, resets: multiset<Sid>, stops: multiset<Sid>, place: map<Sid, Place>)
    requires Retirement(commands, resets, stops, place) && commands != []
    ensures var c := commands[0];
            Retirement(commands[1..], if c.stop then resets else resets + multiset{c.sid},
                       if c.stop then stops + multiset{c.sid} else stops, place)
  {
    forall x, stop ensures Count(commands, Command(x, stop))
                        == (if commands[0] == Command(x, stop) then 1 else 0) + Count(commands[1..], Command(x, stop)) {
      CountHead(commands, Command(x, stop));
    }
  }

  /** The queue is dropped: what it still named is left to teardown. */
  lemma CommandsDropped(s: State)
    requires Retirement(s.commands, s.resets, s.stops, s.place)
    ensures Retirement([], s.resets, s.stops, Abandon(s))
  {
    forall x, stop | !Commanded(s.commands, x) ensures Count(s.commands, Command(x, stop)) == 0 {
      CountZero(s.commands, Command(x, stop));
    }
  }

  // ---- where a stream is ---------------------------------------------------------------------

  /** The worker pushes a reply, with a fresh stream or without one. */
  lemma ReplyPushed(replies: seq<Reply>, head: nat, callers: seq<Status>, place: map<Sid, Place>, r: Reply)
    requires Whereabouts(replies, head, callers, place) && head <= |replies| && r.sid !in place
    ensures Whereabouts(replies + [r], head, callers,
                        if r.sid == 0 then place else place[r.sid := InReply(|replies|)])
  {
  }

  lemma FreshStream(commands: seq<Command>, resets: multiset<Sid>, stops: multiset<Sid>, place: map<Sid, Place>,
                    sid: Sid, index: nat)
    requires Retirement(commands, resets, stops, place) && sid !in place
    ensures Retirement(commands, resets, stops, place[sid := InReply(index)])
  {
  }

  /** The reply being routed gives its stream up. */
  lemma ReplyTaken(replies: seq<Reply>, head: nat, callers: seq<Status>, place: map<Sid, Place>, p: Place)
    requires Whereabouts(replies, head, callers, place) && head < |replies| && (p.Orphan? || p.LeftToTeardown?)
    ensures replies[head].sid == 0 ==> Whereabouts(replies, head + 1, callers, place)
    ensures replies[head].sid != 0 ==> Whereabouts(replies, head + 1, callers, place[replies[head].sid := p])
  {
  }

  lemma CallerQuits(replies: seq<Reply>, head: nat, callers: seq<Status>, place: map<Sid, Place>, c: Caller, st: Status)
    requires Whereabouts(replies, head, callers, place) && c < |callers|
    requires !callers[c].Delivered? && !callers[c].Owns? && !st.Delivered? && !st.Owns?
    ensures Whereabouts(replies, head, callers[c := st], place)
  {
  }

  /** ... or hands it to the future of its request. */
  lemma ReplyDelivered(replies: seq<Reply>, head: nat, callers: seq<Status>, place: map<Sid, Place>)
    requires Whereabouts(replies, head, callers, place) && head < |replies| && replies[head].sid != 0
    requires replies[head].error == 0 && head < |callers| && callers[head].Waiting?
    ensures var sid := replies[head].sid;
            Whereabouts(replies, head + 1, callers[head := Delivered(sid)], place[sid := InFuture(head)])
  {
    assert replies[head] == Reply(replies[head].sid, 0);
  }

  /** A delivered stream is taken by its caller, or by nobody. */
  lemma ResultTaken(replies: seq<Reply>, head: nat, callers: seq<Status>, place: map<Sid, Place>, c: Caller, st: Status, p: Place)
    requires Whereabouts(replies, head, callers, place) && c < |callers| && callers[c].Delivered?
    requires (st == Owns(callers[c].sid) && p == WithCaller(c)) || (st == Raised && (p.Orphan? || p.LeftToTeardown?))
    ensures callers[c].sid in place && place[callers[c].sid].InFuture?
    ensures Whereabouts(replies, head, callers[c := st], place[callers[c].sid := p])
  {
  }

  lemma PlaceMoves(commands: seq<Command>, resets: multiset<Sid>, stops: multiset<Sid>, place: map<Sid, Place>, sid: Sid, p: Place)
    requires Retirement(commands, resets, stops, place)
    requires sid in place && !place[sid].Orphan? && !place[sid].LeftToTeardown? && !p.Orphan?
    ensures Retirement(commands, resets, stops, place[sid := p])
  {
  }

  /** The oldest slot of the deque goes with its reply; its future is done, or becomes so. */
  lemma FrontRouted(pending: seq<Caller>, callers: seq<Status>, head: nat, submitted: nat, st: Status)
    requires Slots(pending, head, submitted, false) && Futures(callers, head, submitted, false) && head < submitted
    requires !st.Waiting?
    ensures pending != [] && pending[0] == head < |callers| && Slots(pending[1..], head + 1, submitted, false)
    ensures Futures(callers[head := st], head + 1, submitted, false)
    ensures !callers[head].Waiting? ==> Futures(callers, head + 1, submitted, false)
  {
  }

  // ---- every step keeps the invariant --------------------------------------------------------

  lemma SubmitKeepsInv(s: State, bidi: bool)
    requires !s.closed
    requires Inv(s)
    ensures Inv(SubmitStep(s, bidi))
  {
  }

  lemma HandleKeepsInv(s: State, outcome: Outcome)
    requires Enabled(s, Handle(outcome))
    requires Inv(s)
    ensures Inv(HandleStep(s, Answer(s.attached, outcome)))
  {
    var r := Answer(s.attached, outcome);
    ReplyPushed(s.replies, s.head, s.callers, s.place, r);
    if r.sid != 0 { FreshStream(s.commands, s.resets, s.stops, s.place, r.sid, |s.replies|); }
  }

  lemma RouteLateKeepsInv(s: State, sid: Sid)
    requires s.closed && s.head < |s.replies| && s.replies[s.head].sid == sid
    requires Inv(s)
    ensures Inv(RouteLate(s, sid))
  {
    ReplyTaken(s.replies, s.head, s.callers, s.place, LeftToTeardown);
  }

  lemma RouteDeliverKeepsInv(s: State, c: Caller, sid: Sid)
    requires !s.closed && s.head < |s.replies| && s.replies[s.head] == Reply(sid, 0) && sid != 0 && s.pending != []
    requires s.pending[0] == c && c < |s.callers| && s.callers[c].Waiting?
    requires Inv(s)
    ensures Inv(RouteDeliver(s, c, sid))
  {
    assert c == s.head;
    ReplyDelivered(s.replies, s.head, s.callers, s.place);
  }

  lemma RouteRefuseKeepsInv(s: State, sid: Sid)
    requires !s.closed && s.head < |s.replies| && s.replies[s.head].sid == sid
    requires Inv(s)
    ensures Inv(RouteRefuse(s, sid))
  {
    ReplyTaken(s.replies, s.head, s.callers, s.place, Orphan);
    FrontRouted(s.pending, s.callers, s.head, |s.requests|, Refused);
    var place := if sid == 0 then s.place else s.place[sid := Orphan];
    if s.callers[s.head].Waiting? {
      CallerQuits(s.replies, s.head + 1, s.callers, place, s.head, Refused);
    }
    if sid != 0 { OrphanQueued(s.commands, s.resets, s.stops, s.place, sid); }
  }

  lemma DiscardKeepsInv(s: State, c: Caller, sid: Sid)
    requires c < |s.callers| && s.callers[c] == Delivered(sid)
    requires Inv(s)
    ensures Inv(Discard(s, c, sid))
  {
    ResultTaken(s.replies, s.head, s.callers, s.place, c, Raised, if s.closed then LeftToTeardown else Orphan);
    if s.closed {
      PlaceMoves(s.commands, s.resets, s.stops, s.place, sid, LeftToTeardown);
    } else {
      OrphanQueued(s.commands, s.resets, s.stops, s.place, sid);
    }
  }

  lemma QuitKeepsInv(s: State, c: Caller, st: Status)
    requires c < |s.callers| && ((s.callers[c].Waiting? && st == Abandoned) || (s.callers[c].Refused? && st == Raised))
    requires Inv(s)
    ensures Inv(s.(callers := s.callers[c := st]))
  {
    CallerQuits(s.replies, s.head, s.callers, s.place, c, st);
  }

  lemma ResumeKeepsInv(s: State, c: Caller)
    requires c < |s.callers| && (s.callers[c].Delivered? || s.callers[c].Refused?)
    requires Inv(s)
    ensures Inv(ResumeStep(s, c))
  {
    if s.callers[c].Delivered? {
      var sid := s.callers[c].sid;
      ResultTaken(s.replies, s.head, s.callers, s.place, c, Owns(sid), WithCaller(c));
      PlaceMoves(s.commands, s.resets, s.stops, s.place, sid, WithCaller(c));
    } else {
      QuitKeepsInv(s, c, Raised);
    }
  }

  lemma RetireKeepsInv(s: State, pushed: bool)
    requires s.commands != []
    requires Inv(s)
    ensures Inv(RetireStep(s, pushed))
  {
    if pushed { CommandPushed(s.commands, s.resets, s.stops, s.place); } else { CommandsDropped(s); }
  }

  lemma CloseKeepsInv(s: State)
    requires !s.closed
    requires Inv(s)
    ensures Inv(CloseStep(s))
  {
    CommandsDropped(s);
  }

  lemma RouteKeepsInv(s: State)
    requires s.head < |s.replies| && Inv(s)
    ensures Inv(RouteStep(s))
  {
    var r := s.replies[s.head];
    if s.closed { RouteLateKeepsInv(s, r.sid); }
    else if r.error != 0 || s.pending == [] || s.pending[0] >= |s.callers| || !s.callers[s.pending[0]].Waiting? {
      RouteRefuseKeepsInv(s, r.sid);
    } else {
      RouteDeliverKeepsInv(s, s.pending[0], r.sid);
    }
  }

  lemma GiveUpKeepsInv(s: State, c: Caller)
    requires Inv(s) && Enabled(s, GiveUp(c))
    ensures Inv(GiveUpStep(s, c))
  {
    match s.callers[c]
    case Delivered(sid) => DiscardKeepsInv(s, c, sid);
    case Waiting => QuitKeepsInv(s, c, Abandoned);
    case Refused => QuitKeepsInv(s, c, Raised);
  }

  lemma StepKeepsInv(s: State, step: Step)
    requires Inv(s) && Enabled(s, step)
    ensures Inv(Apply(s, step))
  {
    match step
    case Submit(bidi) => SubmitKeepsInv(s, bidi);
    case Handle(outcome) => HandleKeepsInv(s, outcome);
    case Detach =>
    case Route => RouteKeepsInv(s);
    case GiveUp(c) => GiveUpKeepsInv(s, c);
    case Resume(c) => ResumeKeepsInv(s, c);
    case Retire(pushed) => RetireKeepsInv(s, pushed);
    case CloseSession => CloseKeepsInv(s);
  }

  lemma ReachableInv(s: State)
    requires Reachable(s)
    ensures Inv(s)
  {
    forall s, t | Inv(s) && Next(s, t) ensures Inv(t) {
      var step :| Takes(s, step, t);
      StepKeepsInv(s, step);
    }
    Runs.InvariantHolds(Init, Next, Inv, s);
  }

  // ---- what the source promises --------------------------------------------------------------

  /** Requests and futures match in order: while the session is open the deque holds exactly the
      callers whose replies are still to come, oldest first, cancelled ones included, so the next
      reply is paired with the caller whose request it answers. */
  lemma RepliesPairInOrder(s: State)
    requires Reachable(s) && !s.closed
    ensures |s.pending| == |s.requests| - s.head
    ensures forall i :: 0 <= i < |s.pending| ==> s.pending[i] == s.head + i
    ensures s.head < |s.replies| ==> s.pending != [] && s.pending[0] == s.head
  {
    ReachableInv(s);
  }

  /** A caller that returned got the stream its own request made, of the kind it asked for and with
      no error; no other caller has it, and no retirement command was ever sent for it. */
  lemma OwnerIsRequester(s: State, c: Caller)
    requires Reachable(s) && c < |s.callers| && s.callers[c].Owns?
    ensures c < |s.replies| && s.replies[c] == Reply(s.callers[c].sid, 0)
    ensures c < |s.requests| && Bidi(s.callers[c].sid) == s.requests[c]
    ensures forall d: nat :: d < |s.callers| && d != c ==>
              s.callers[d] != s.callers[c] && s.callers[d] != Delivered(s.callers[c].sid)
    ensures s.resets[s.callers[c].sid] == s.stops[s.callers[c].sid] == 0
  {
    ReachableInv(s);
  }

  /** Whatever branch the handler takes, it replies: the worker has pushed one reply for each
      request it took, the k-th for the k-th, and no future waits behind its reply or a close. */
  lemma OneReplyPerRequest(s: State)
    requires Reachable(s)
    ensures s.head <= |s.replies| == s.handled <= |s.requests| == |s.callers|
    ensures forall k: nat :: k < |s.replies| && s.replies[k].sid != 0 ==> Bidi(s.replies[k].sid) == s.requests[k]
    ensures forall c: nat :: c < s.head ==> !s.callers[c].Waiting?
    ensures s.closed ==> forall c: nat :: c < |s.callers| ==> !s.callers[c].Waiting?
  {
    ReachableInv(s);
  }

  /** No stream is forgotten: with every reply routed, every caller resumed and the retirement
      queue empty, a stream is with one caller, or was retired by exactly one reset, plus exactly
      one stop-sending if bidirectional, or is left to the teardown of session or connection. */
  lemma EveryStreamAccounted(s: State, sid: Sid)
    requires Reachable(s) && sid in s.place && s.head == |s.replies| && s.commands == []
    requires forall c: nat :: c < |s.callers| ==> !s.callers[c].Delivered?
    ensures || s.place[sid].LeftToTeardown?
            || (s.place[sid].WithCaller? && s.place[sid].caller < |s.callers|
                && s.callers[s.place[sid].caller] == Owns(sid))
            || (s.place[sid].Orphan? && s.resets[sid] == 1 && s.stops[sid] == if Bidi(sid) then 1 else 0)
  {
    ReachableInv(s);
  }
}

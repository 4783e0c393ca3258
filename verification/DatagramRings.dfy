/** Lifetimes of the datagram record rings (datagram_buf.h, callback.h): asyncio creates a ring
    with one reference, queues MARKs that name it without one, and gives its reference up through
    a RELEASE queued behind them, owed while the TX event ring is full, or dropped in place once no
    worker runs; the worker's cnx table holds one more per entry. The TX event ring is
    taken as the FIFO that EventQueue proves it is. */
module DatagramRings {
  import Runs

  type Ring = nat
  type Cnx = nat

  datatype Event = Mark(ring: Ring) | Release(ring: Ring) | Other

  datatype State = State(
    cap: nat,
    home: map<Ring, Cnx>,            // the cnx each ring was created for; an address may come back
    count: map<Ring, nat>,           // reference counts; 0 is freed
    python: set<Ring>,               // rings a connection still holds
    log: seq<Event>, head: nat,      // TX event ring: everything pushed, and how much of it was popped
    owed: seq<Ring>,                 // dgram_release_owed
    table: map<Cnx, Ring>,
    alive: set<Cnx>,                 // picoquic's cnxs
    running: bool,                   // the worker runs
    // history
    posted: map<Ring, nat>,          // where the RELEASEs are
    swept: set<Ring>,                // RELEASEs the sweep has cleared
    frees: map<Ring, nat>,
    fault: bool)                     // some step touched a freed ring

  datatype Step =
    | Create(r: Ring, c: Cnx)        // dgram_ring_create
    | PushMark(r: Ring)              // dgram_mark_ready
    | PushOther
    | GiveUp(r: Ring)                // aiopquic_dgram_ring_release
    | Flush                          // one turn of aiopquic_dgram_ring_release_flush
    | Stop
    | Sweep(i: nat)                  // aiopquic_dgram_ring_release_undrained, TX ring
    | SweepOwed
    | Pop                            // one entry of the worker's drain loop
    | Close(c: Cnx, called: bool)    // a cnx goes, with a close callback or without one
    | Appear(c: Cnx)                 // a cnx is created, perhaps at an old address
    | Prepare(c: Cnx)                // prepare_datagram
    | Destroy                        // aiopquic_dgram_table_destroy

  predicate Init(s: State) {
    && s.home == s.frees == map[] && s.count == map[] && s.posted == map[] && s.table == map[]
    && s.python == s.swept == {} && s.log == [] && s.owed == [] && s.head == 0
    && s.running && !s.fault
  }

  predicate Room(s: State) { |s.log| < s.head + s.cap }

  predicate Enabled(s: State, step: Step) {
    match step
    case Create(r, _) => r !in s.count
    case PushMark(r) => r in s.python && Room(s)
    case PushOther => Room(s)
    case GiveUp(r) => r in s.python
    case Flush => s.running && s.owed != [] && Room(s)
    case Stop => s.running
    case Sweep(i) => !s.running && s.head <= i < |s.log| && s.log[i].Release?
    case SweepOwed => !s.running && s.owed != []
    case Pop => s.running && s.head < |s.log|
    case Close(c, _) => c in s.alive
    case Appear(c) => c !in s.alive
    case Prepare(c) => s.running && c in s.alive
    case Destroy => !s.running
  }

  function Lookup(m: map<Ring, nat>, r: Ring): nat { if r in m then m[r] else 0 }

  /** aiopquic_dgram_buf_unref, n times. */
  function Unref(count: map<Ring, nat>, r: Ring, n: nat): map<Ring, nat> {
    count[r := if Lookup(count, r) > n then Lookup(count, r) - n else 0]
  }

  function Freed(s: State, r: Ring, n: nat): map<Ring, nat> {
    if n > 0 && 0 < Lookup(s.count, r) <= n then s.frees[r := Lookup(s.frees, r) + 1] else s.frees
  }

  predicate Listed(s: State, r: Ring) { r in s.home && s.home[r] in s.table && s.table[s.home[r]] == r }

  function Holds(b: bool): nat { if b then 1 else 0 }

  /** aiopquic_dgram_ring_drop: the table entry while it still holds this ring, then the caller's
      reference. */
  function DropStep(s: State, r: Ring, log: seq<Event>, head: nat, owed: seq<Ring>, swept: set<Ring>): State {
    s.(log := log, head := head, owed := owed, swept := swept,
       table := if Listed(s, r) then s.table - {s.home[r]} else s.table,
       count := Unref(s.count, r, 1 + Holds(Listed(s, r))),
       frees := Freed(s, r, 1 + Holds(Listed(s, r))),
       fault := s.fault || Lookup(s.count, r) < 1 + Holds(Listed(s, r)))
  }

  /** MARK_DATAGRAM_READY: dropped unread for a dead cnx, else an idempotent table put. */
  function MarkStep(s: State, r: Ring): State {
    if r !in s.home || s.home[r] !in s.alive then s.(head := s.head + 1)
    else if s.home[r] in s.table then s.(head := s.head + 1, fault := s.fault || Lookup(s.count, r) == 0)
    else
      s.(head := s.head + 1, table := s.table[s.home[r] := r],
         count := s.count[r := Lookup(s.count, r) + 1], fault := s.fault || Lookup(s.count, r) == 0)
  }

  function PopStep(s: State): State
    requires s.head < |s.log|
  {
    match s.log[s.head]
    case Mark(r) => MarkStep(s, r)
    case Release(r) => DropStep(s, r, s.log, s.head + 1, s.owed, s.swept)
    case Other => s.(head := s.head + 1)
  }

  function PostRelease(s: State, r: Ring, owed: seq<Ring>): State {
    s.(python := s.python - {r}, owed := owed, log := s.log + [Release(r)], posted := s.posted[r := |s.log|])
  }

  function GiveUpStep(s: State, r: Ring): State {
    if !s.running then
      s.(python := s.python - {r}, count := Unref(s.count, r, 1), frees := Freed(s, r, 1),
         fault := s.fault || Lookup(s.count, r) == 0)
    else if Room(s) then PostRelease(s, r, s.owed)
    else s.(python := s.python - {r}, owed := s.owed + [r])
  }

  /** aiopquic_dgram_table_remove in the close callbacks; a stateless reset has none. */
  function CloseStep(s: State, c: Cnx, called: bool): State {
    if called && c in s.table then
      s.(alive := s.alive - {c}, table := s.table - {c}, count := Unref(s.count, s.table[c], 1),
         frees := Freed(s, s.table[c], 1), fault := s.fault || Lookup(s.count, s.table[c]) == 0)
    else s.(alive := s.alive - {c})
  }

  /** Dropping every entry of the table: each ring listed under its home loses one. */
  function DestroyStep(s: State): State {
    s.(table := map[],
       count := map r | r in s.count :: if s.count[r] > Holds(Listed(s, r)) then s.count[r] - Holds(Listed(s, r)) else 0,
       frees := map r | r in s.count :: Lookup(s.frees, r) + Holds(Listed(s, r) && s.count[r] == 1),
       fault := s.fault || exists c :: c in s.table && Lookup(s.count, s.table[c]) == 0)
  }

  function Apply(s: State, step: Step): State
    requires Enabled(s, step)
  {
    match step
    case Create(r, c) =>
      s.(home := s.home[r := c], count := s.count[r := 1], frees := s.frees[r := 0], python := s.python + {r})
    case PushMark(r) => s.(log := s.log + [Mark(r)])
    case PushOther => s.(log := s.log + [Other])
    case GiveUp(r) => GiveUpStep(s, r)
    case Flush => PostRelease(s, s.owed[0], s.owed[1..])
    case Stop => s.(running := false)
    case Sweep(i) =>
      DropStep(s, s.log[i].ring, s.log[i := Other], s.head, s.owed, s.swept + {s.log[i].ring})
    case SweepOwed => DropStep(s, s.owed[0], s.log, s.head, s.owed[1..], s.swept)
    case Pop => PopStep(s)
    case Close(c, called) => CloseStep(s, c, called)
    case Appear(c) => s.(alive := s.alive + {c})
    case Prepare(c) => s.(fault := s.fault || (c in s.table && Lookup(s.count, s.table[c]) == 0))
    case Destroy => DestroyStep(s)
  }

  ghost predicate Takes(s: State, step: Step, t: State) {
    Enabled(s, step) && t == Apply(s, step)
  }

  ghost predicate Next(s: State, t: State) {
    exists step :: Takes(s, step, t)
  }

  ghost predicate Reachable(s: State) {
    Runs.Reachable(Init, Next, s)
  }

  // ---- the inductive invariant ---------------------------------------------------------------

  /** Python's reference on r is still somewhere: with the connection, owed, or in a RELEASE that
      nobody has handled. */
  predicate Token(s: State, r: Ring) {
    r in s.python || r in s.owed || (r in s.posted && s.posted[r] >= s.head && r !in s.swept)
  }

  ghost predicate Places(s: State) {
    && s.head <= |s.log|
    && (forall r :: r in s.python ==> r in s.count && r !in s.owed && r !in s.posted)
    && (forall r :: r in s.owed ==> r in s.count && r !in s.posted)
    && (forall i, j :: 0 <= i < j < |s.owed| ==> s.owed[i] != s.owed[j])
    && (forall r :: r in s.posted ==> r in s.count && s.posted[r] < |s.log|)
    && (forall r :: r in s.swept ==> r in s.posted && !s.running)
  }

  /** `posted` is where the RELEASEs are, but for the swept ones. */
  ghost predicate Indexed(log: seq<Event>, posted: map<Ring, nat>, swept: set<Ring>) {
    && (forall i :: 0 <= i < |log| && log[i].Release? ==>
          log[i].ring in posted && posted[log[i].ring] == i && log[i].ring !in swept)
    && (forall r :: r in posted && r !in swept ==> posted[r] < |log| && log[posted[r]] == Release(r))
  }

  predicate Covered(r: Ring, at: nat, posted: map<Ring, nat>, python: set<Ring>, owed: seq<Ring>) {
    r in python || r in owed || (r in posted && posted[r] > at)
  }

  /** The reference of every ring a MARK names is given up behind that MARK, if at all. */
  ghost predicate MarksCovered(log: seq<Event>, posted: map<Ring, nat>, python: set<Ring>, owed: seq<Ring>) {
    forall i :: 0 <= i < |log| && log[i].Mark? ==> Covered(log[i].ring, i, posted, python, owed)
  }

  ghost predicate Order(s: State) {
    && Indexed(s.log, s.posted, s.swept)
    && (s.running ==> MarksCovered(s.log, s.posted, s.python, s.owed))
  }

  ghost predicate Counts(s: State) {
    && s.home.Keys == s.count.Keys == s.frees.Keys && !s.fault
    && (forall c :: c in s.table ==> s.table[c] in s.home && s.home[s.table[c]] == c)
    && (forall r :: r in s.count ==> s.count[r] == Holds(Token(s, r)) + Holds(Listed(s, r)))
  }

  /** A ring is freed once, when its count reaches zero, and never comes back. */
  ghost predicate FreedOnce(s: State)
    requires s.count.Keys == s.frees.Keys
  {
    forall r :: r in s.count ==> s.frees[r] == Holds(s.count[r] == 0)
  }

  ghost predicate Inv(s: State) { Places(s) && Order(s) && Counts(s) && FreedOnce(s) }

  // ---- a reference moves, or is dropped ------------------------------------------------------

  /** Only r's reference may have moved. */
  ghost predicate OthersKept(s: State, t: State, r: Ring) {
    forall x :: x != r ==> Token(t, x) == Token(s, x)
  }

  predicate SameCounts(s: State, t: State) {
    t.home == s.home && t.count == s.count && t.frees == s.frees && t.table == s.table && t.fault == s.fault
  }

  lemma CountsFrame(s: State, t: State, r: Ring)
    requires Counts(s) && FreedOnce(s) && SameCounts(s, t) && OthersKept(s, t, r) && Token(t, r) == Token(s, r)
    ensures Counts(t) && FreedOnce(t)
  {
  }

  /** The reference of r is dropped, with the table's while the table still lists r. */
  lemma CountsDrop(s: State, t: State, r: Ring, listed: bool)
    requires Counts(s) && r in s.count && Token(s, r) && !Token(t, r) && OthersKept(s, t, r)
    requires t.home == s.home && (listed ==> Listed(s, r)) && t.frees.Keys == s.frees.Keys
    requires t.table == if listed then s.table - {s.home[r]} else s.table
    requires t.count == Unref(s.count, r, 1 + Holds(listed))
    requires t.fault == (s.fault || Lookup(s.count, r) < 1 + Holds(listed))
    ensures Counts(t)
  {
    forall x | x in t.count ensures t.count[x] == Holds(Token(t, x)) + Holds(Listed(t, x)) {
      if x == r {
        assert !Listed(t, r) || !listed;
      } else if listed && Listed(s, x) {
        assert s.home[x] != s.home[r];
      }
    }
  }

  lemma FreesDrop(s: State, t: State, r: Ring, n: nat)
    requires Counts(s) && FreedOnce(s) && r in s.count && 0 < n <= s.count[r]
    requires t.count == Unref(s.count, r, n) && t.frees == Freed(s, r, n)
    ensures t.count.Keys == t.frees.Keys == s.frees.Keys && FreedOnce(t)
  {
  }

  /** A cnx leaves the table. */
  lemma CountsUnlist(s: State, t: State, c: Cnx)
    requires Counts(s) && c in s.table && OthersKept(s, t, s.table[c]) && Token(t, s.table[c]) == Token(s, s.table[c])
    requires t.home == s.home && t.table == s.table - {c} && t.frees.Keys == s.frees.Keys
    requires t.count == Unref(s.count, s.table[c], 1)
    requires t.fault == (s.fault || Lookup(s.count, s.table[c]) == 0)
    ensures Counts(t) && s.count[s.table[c]] >= 1
  {
    assert Listed(s, s.table[c]);
  }

  /** A cnx enters the table with a live ring. */
  lemma CountsList(s: State, t: State, r: Ring)
    requires Counts(s) && FreedOnce(s) && r in s.count && Token(s, r) && Token(t, r) && OthersKept(s, t, r)
    requires s.home[r] !in s.table && t.home == s.home && t.table == s.table[s.home[r] := r]
    requires t.count == s.count[r := s.count[r] + 1] && t.frees == s.frees && t.fault == s.fault
    ensures Counts(t) && FreedOnce(t)
  {
    assert !Listed(s, r) && Listed(t, r);
  }

  /** aiopquic_dgram_ring_drop on a ring whose reference this is. */
  lemma DropKeepsSound(s: State, r: Ring, log: seq<Event>, head: nat, owed: seq<Ring>, swept: set<Ring>)
    requires Counts(s) && FreedOnce(s) && r in s.count && Token(s, r)
    requires var t := DropStep(s, r, log, head, owed, swept); !Token(t, r) && OthersKept(s, t, r)
    ensures Sound(DropStep(s, r, log, head, owed, swept))
  {
    var t := DropStep(s, r, log, head, owed, swept);
    FreesDrop(s, t, r, 1 + Holds(Listed(s, r)));
    CountsDrop(s, t, r, Listed(s, r));
  }

  // ---- every step keeps the invariant --------------------------------------------------------

  ghost predicate Sound(s: State) { Counts(s) && FreedOnce(s) }

  lemma CreateKeepsOrder(s: State, r: Ring, c: Cnx)
    requires Places(s) && Order(s) && Counts(s) && r !in s.count
    ensures Places(Apply(s, Create(r, c))) && Order(Apply(s, Create(r, c)))
  {
  }

  lemma CountsNew(s: State, t: State, r: Ring, c: Cnx)
    requires Counts(s) && FreedOnce(s) && r !in s.count && Token(t, r) && OthersKept(s, t, r)
    requires t.home == s.home[r := c] && t.count == s.count[r := 1] && t.frees == s.frees[r := 0]
    requires t.table == s.table && t.fault == s.fault
    ensures Counts(t) && FreedOnce(t)
  {
    assert !Listed(t, r);
    forall x | x in s.count ensures Listed(t, x) == Listed(s, x) {
    }
  }

  lemma CreateKeepsCounts(s: State, r: Ring, c: Cnx)
    requires Sound(s) && r !in s.count
    ensures Sound(Apply(s, Create(r, c)))
  {
    CountsNew(s, Apply(s, Create(r, c)), r, c);
  }

  lemma PushKeepsOrder(s: State, e: Event)
    requires Places(s) && Order(s) && Counts(s) && !e.Release? && (e.Mark? ==> e.ring in s.python)
    ensures Places(s.(log := s.log + [e])) && Order(s.(log := s.log + [e]))
  {
  }

  lemma PushKeepsCounts(s: State, e: Event)
    requires Inv(s) && !e.Release? && (e.Mark? ==> e.ring in s.python)
    ensures Sound(s.(log := s.log + [e]))
  {
    CountsFrame(s, s.(log := s.log + [e]), 0);
  }

  lemma PostKeepsPlaces(s: State, r: Ring)
    requires Places(s) && Order(s) && Counts(s) && s.running && r in s.python
    ensures Places(PostRelease(s, r, s.owed))
  {
  }

  lemma PostKeepsOrder(s: State, r: Ring)
    requires Places(s) && Order(s) && Counts(s) && s.running && r in s.python
    ensures Order(PostRelease(s, r, s.owed))
  {
  }

  lemma PostKeepsCounts(s: State, r: Ring)
    requires Inv(s) && s.running && r in s.python
    ensures Sound(PostRelease(s, r, s.owed))
  {
    CountsFrame(s, PostRelease(s, r, s.owed), r);
  }

  lemma FlushKeepsPlaces(s: State)
    requires Places(s) && Order(s) && Counts(s) && s.running && s.owed != []
    ensures Places(PostRelease(s, s.owed[0], s.owed[1..]))
  {
  }

  lemma FlushKeepsOrder(s: State)
    requires Places(s) && Order(s) && Counts(s) && s.running && s.owed != []
    ensures Order(PostRelease(s, s.owed[0], s.owed[1..]))
  {
  }

  lemma FlushKeepsCounts(s: State)
    requires Inv(s) && s.running && s.owed != []
    ensures Sound(PostRelease(s, s.owed[0], s.owed[1..]))
  {
    CountsFrame(s, PostRelease(s, s.owed[0], s.owed[1..]), s.owed[0]);
  }

  lemma OweKeepsOrder(s: State, r: Ring)
    requires Places(s) && Order(s) && Counts(s) && r in s.python
    ensures Places(s.(python := s.python - {r}, owed := s.owed + [r]))
    ensures Order(s.(python := s.python - {r}, owed := s.owed + [r]))
  {
  }

  lemma OweKeepsCounts(s: State, r: Ring)
    requires Inv(s) && r in s.python
    ensures Sound(s.(python := s.python - {r}, owed := s.owed + [r]))
  {
    CountsFrame(s, s.(python := s.python - {r}, owed := s.owed + [r]), r);
  }

  lemma LateUnrefKeepsOrder(s: State, r: Ring)
    requires Places(s) && Order(s) && Counts(s) && r in s.python && !s.running
    ensures Places(GiveUpStep(s, r)) && Order(GiveUpStep(s, r))
  {
  }

  lemma LateUnrefMoves(s: State, r: Ring)
    requires Places(s) && r in s.python && !s.running
    ensures Token(s, r) && !Token(GiveUpStep(s, r), r) && OthersKept(s, GiveUpStep(s, r), r)
  {
  }

  lemma LateUnrefKeepsCounts(s: State, r: Ring)
    requires Places(s) && Sound(s) && r in s.python && !s.running
    ensures Sound(GiveUpStep(s, r))
  {
    LateUnrefMoves(s, r);
    FreesDrop(s, GiveUpStep(s, r), r, 1);
    CountsDrop(s, GiveUpStep(s, r), r, false);
  }

  lemma SweepKeepsOrder(s: State, i: nat)
    requires Places(s) && Order(s) && Counts(s) && Enabled(s, Sweep(i))
    ensures Places(Apply(s, Sweep(i))) && Order(Apply(s, Sweep(i)))
  {
  }

  lemma SweepKeepsCounts(s: State, i: nat)
    requires Inv(s) && Enabled(s, Sweep(i))
    ensures Sound(Apply(s, Sweep(i)))
  {
    var r := s.log[i].ring;
    DropKeepsSound(s, r, s.log[i := Other], s.head, s.owed, s.swept + {r});
  }

  lemma SweepOwedKeepsOrder(s: State)
    requires Places(s) && Order(s) && Counts(s) && !s.running && s.owed != []
    ensures Places(Apply(s, SweepOwed)) && Order(Apply(s, SweepOwed))
  {
  }

  lemma SweptOwedMoves(s: State, t: State)
    requires Places(s) && s.owed != []
    requires t.python == s.python && t.posted == s.posted && t.head == s.head && t.swept == s.swept && t.owed == s.owed[1..]
    ensures s.owed[0] in s.count && Token(s, s.owed[0]) && !Token(t, s.owed[0]) && OthersKept(s, t, s.owed[0])
  {
    forall x | x != s.owed[0] ensures x in t.owed <==> x in s.owed {
      assert s.owed == [s.owed[0]] + t.owed;
    }
  }

  lemma SweepOwedKeepsCounts(s: State)
    requires Inv(s) && !s.running && s.owed != []
    ensures Sound(Apply(s, SweepOwed))
  {
    SweptOwedMoves(s, Apply(s, SweepOwed));
    DropKeepsSound(s, s.owed[0], s.log, s.head, s.owed[1..], s.swept);
  }

  lemma PlacesFrame(s: State, t: State)
    requires Places(s) && t.head <= |t.log| == |s.log| && t.running == s.running
    requires t.python == s.python && t.owed == s.owed && t.posted == s.posted && t.swept == s.swept
    requires forall r :: r in s.count ==> r in t.count
    ensures Places(t)
  {
  }

  lemma MarkKeepsPlaces(s: State, r: Ring)
    requires Places(s) && s.head < |s.log|
    ensures Places(MarkStep(s, r))
  {
    PlacesFrame(s, MarkStep(s, r));
  }

  lemma MarkKeepsOrder(s: State)
    requires Places(s) && Order(s) && Counts(s) && Enabled(s, Pop) && s.log[s.head].Mark?
    ensures Places(MarkStep(s, s.log[s.head].ring)) && Order(MarkStep(s, s.log[s.head].ring))
  {
    var t := MarkStep(s, s.log[s.head].ring);
    MarkKeepsPlaces(s, s.log[s.head].ring);
    assert t.log == s.log && t.posted == s.posted && t.swept == s.swept && t.python == s.python && t.owed == s.owed;
  }

  /** The worker passes an entry: the reference it carries, if it is a RELEASE, is dropped. */
  lemma HeadPasses(s: State, t: State)
    requires Places(s) && Indexed(s.log, s.posted, s.swept) && s.head < |s.log|
    requires t.python == s.python && t.posted == s.posted && t.owed == s.owed && t.swept == s.swept && t.head == s.head + 1
    ensures !s.log[s.head].Release? ==> forall x :: Token(t, x) == Token(s, x)
    ensures s.log[s.head].Release? ==>
              var r := s.log[s.head].ring;
              r in s.count && Token(s, r) && !Token(t, r) && OthersKept(s, t, r)
  {
  }

  lemma MarkLists(s: State, r: Ring)
    requires Inv(s) && Enabled(s, Pop) && s.log[s.head] == Mark(r)
    requires s.home.Keys == s.count.Keys && r in s.home && s.home[r] in s.alive && s.home[r] !in s.table
    ensures Sound(MarkStep(s, r))
  {
    HeadPasses(s, MarkStep(s, r));
    CountsList(s, MarkStep(s, r), r);
  }

  lemma MarkedIsLive(s: State, r: Ring)
    requires Places(s) && Order(s) && Counts(s) && Enabled(s, Pop) && s.log[s.head] == Mark(r)
    ensures Lookup(s.count, r) > 0
  {
    assert Token(s, r);
  }

  lemma MarkSkips(s: State, r: Ring)
    requires Inv(s) && Enabled(s, Pop) && s.log[s.head] == Mark(r)
    requires r in s.home && s.home[r] in s.alive ==> s.home[r] in s.table
    ensures Sound(MarkStep(s, r))
  {
    MarkedIsLive(s, r);
    HeadPasses(s, MarkStep(s, r));
    CountsFrame(s, MarkStep(s, r), r);
  }

  lemma MarkKeepsCounts(s: State, r: Ring)
    requires Inv(s) && Enabled(s, Pop) && s.log[s.head] == Mark(r)
    ensures Sound(MarkStep(s, r))
  {
    if r in s.home && s.home[r] in s.alive && s.home[r] !in s.table {
      MarkLists(s, r);
    } else {
      MarkSkips(s, r);
    }
  }

  lemma ReleaseKeepsOrder(s: State)
    requires Places(s) && Order(s) && Counts(s) && Enabled(s, Pop) && s.log[s.head].Release?
    ensures Places(PopStep(s)) && Order(PopStep(s))
  {
  }

  lemma ReleaseMoves(s: State, r: Ring)
    requires Places(s) && Indexed(s.log, s.posted, s.swept) && s.head < |s.log| && s.log[s.head] == Release(r)
    ensures r in s.count && Token(s, r)
    ensures var t := DropStep(s, r, s.log, s.head + 1, s.owed, s.swept); !Token(t, r) && OthersKept(s, t, r)
  {
    HeadPasses(s, DropStep(s, r, s.log, s.head + 1, s.owed, s.swept));
  }

  lemma ReleaseKeepsCounts(s: State)
    requires Places(s) && Indexed(s.log, s.posted, s.swept) && Sound(s) && s.head < |s.log| && s.log[s.head].Release?
    ensures Sound(PopStep(s))
  {
    var r := s.log[s.head].ring;
    assert PopStep(s) == DropStep(s, r, s.log, s.head + 1, s.owed, s.swept);
    ReleaseMoves(s, r);
    DropKeepsSound(s, r, s.log, s.head + 1, s.owed, s.swept);
  }

  lemma OtherKeepsOrder(s: State)
    requires Places(s) && Order(s) && Counts(s) && Enabled(s, Pop) && s.log[s.head].Other?
    ensures Places(PopStep(s)) && Order(PopStep(s))
  {
  }

  lemma OtherKeepsCounts(s: State)
    requires Inv(s) && Enabled(s, Pop) && s.log[s.head].Other?
    ensures Sound(PopStep(s))
  {
    HeadPasses(s, PopStep(s));
    CountsFrame(s, PopStep(s), 0);
  }

  lemma CloseKeepsOrder(s: State, c: Cnx, called: bool)
    requires Places(s) && Order(s) && Counts(s)
    ensures Places(CloseStep(s, c, called)) && Order(CloseStep(s, c, called))
  {
  }

  lemma CloseKeepsCounts(s: State, c: Cnx, called: bool)
    requires Inv(s)
    ensures Sound(CloseStep(s, c, called))
  {
    if called && c in s.table {
      CountsUnlist(s, CloseStep(s, c, called), c);
      FreesDrop(s, CloseStep(s, c, called), s.table[c], 1);
    } else {
      CountsFrame(s, CloseStep(s, c, called), 0);
    }
  }

  lemma DestroyKeepsOrder(s: State)
    requires Places(s) && Order(s) && Counts(s) && !s.running
    ensures Places(DestroyStep(s)) && Order(DestroyStep(s))
  {
  }

  lemma DestroyKeepsCounts(s: State)
    requires Counts(s) && !s.running
    ensures s.frees.Keys == s.count.Keys ==> Counts(DestroyStep(s))
  {
    forall c | c in s.table ensures Lookup(s.count, s.table[c]) > 0 {
      assert Listed(s, s.table[c]);
    }
  }

  lemma DestroyFreesOnce(s: State)
    requires Counts(s) && FreedOnce(s) && !s.running
    ensures DestroyStep(s).count.Keys == DestroyStep(s).frees.Keys && FreedOnce(DestroyStep(s))
  {
  }

  lemma RestKeepsOrder(s: State, step: Step)
    requires Places(s) && Order(s) && Counts(s) && Enabled(s, step) && (step.Stop? || step.Appear? || step.Prepare?)
    ensures Places(Apply(s, step)) && Order(Apply(s, step))
  {
  }

  lemma RestKeepsCounts(s: State, step: Step)
    requires Inv(s) && Enabled(s, step) && (step.Stop? || step.Appear? || step.Prepare?)
    ensures Sound(Apply(s, step))
  {
  }

  lemma GiveUpKeepsInv(s: State, r: Ring)
    requires Inv(s) && r in s.python
    ensures Inv(GiveUpStep(s, r))
  {
    if !s.running {
      LateUnrefKeepsOrder(s, r); LateUnrefKeepsCounts(s, r);
    } else if Room(s) {
      PostKeepsPlaces(s, r); PostKeepsOrder(s, r); PostKeepsCounts(s, r);
    } else {
      OweKeepsOrder(s, r); OweKeepsCounts(s, r);
    }
  }

  lemma PopKeepsInv(s: State)
    requires Inv(s) && Enabled(s, Pop)
    ensures Inv(PopStep(s))
  {
    match s.log[s.head]
    case Mark(r) => MarkKeepsOrder(s); MarkKeepsCounts(s, r);
    case Release(_) => ReleaseKeepsOrder(s); ReleaseKeepsCounts(s);
    case Other => OtherKeepsOrder(s); OtherKeepsCounts(s);
  }

  lemma StepKeepsInv(s: State, step: Step)
    requires Inv(s) && Enabled(s, step)
    ensures Inv(Apply(s, step))
  {
    match step
    case Create(r, c) => CreateKeepsOrder(s, r, c); CreateKeepsCounts(s, r, c);
    case PushMark(r) => PushKeepsOrder(s, Mark(r)); PushKeepsCounts(s, Mark(r));
    case PushOther => PushKeepsOrder(s, Other); PushKeepsCounts(s, Other);
    case GiveUp(r) => GiveUpKeepsInv(s, r);
    case Flush => FlushKeepsPlaces(s); FlushKeepsOrder(s); FlushKeepsCounts(s);
    case Stop => RestKeepsOrder(s, step); RestKeepsCounts(s, step);
    case Sweep(i) => SweepKeepsOrder(s, i); SweepKeepsCounts(s, i);
    case SweepOwed => SweepOwedKeepsOrder(s); SweepOwedKeepsCounts(s);
    case Pop => PopKeepsInv(s);
    case Close(c, called) => CloseKeepsOrder(s, c, called); CloseKeepsCounts(s, c, called);
    case Appear(_) => RestKeepsOrder(s, step); RestKeepsCounts(s, step);
    case Prepare(_) => RestKeepsOrder(s, step); RestKeepsCounts(s, step);
    case Destroy => DestroyKeepsOrder(s); DestroyFreesOnce(s); DestroyKeepsCounts(s);
  }

  lemma ReachableInv(s: State)
    requires Reachable(s)
    ensures Inv(s)
  {
    forall s, t | Inv(s) && Next(s, t) ensures Inv(t) {
      var step :| Takes(s, step, t);
      StepKeepsInv(s, step);
    }
    Runs.InvariantHolds(Init, Next, Inv, s);
  }

  // ---- what the source promises --------------------------------------------------------------

  /** The worker never handles a MARK for a freed ring: the reference behind it is still out. */
  lemma MarkNamesLiveRing(s: State)
    requires Reachable(s) && Enabled(s, Pop) && s.log[s.head].Mark?
    ensures var r := s.log[s.head].ring; r in s.count && s.count[r] > 0
  {
    ReachableInv(s);
  }

  /** A ring the table hands to prepare_datagram is alive, also under a reused cnx address. */
  lemma ListedRingIsLive(s: State, c: Cnx)
    requires Reachable(s) && c in s.table
    ensures s.table[c] in s.count && s.count[s.table[c]] > 0
  {
    ReachableInv(s);
    assert Listed(s, s.table[c]);
  }

  /** No step touches a freed ring, and the count of a ring is its holders: one for Python's
      reference wherever it is, one for the table. Each ring is freed at most once, exactly when
      neither is left. */
  lemma FreedExactlyOnce(s: State, r: Ring)
    requires Reachable(s) && r in s.count
    ensures !s.fault && s.count[r] == Holds(Token(s, r)) + Holds(Listed(s, r))
    ensures r in s.frees && s.frees[r] == Holds(!Token(s, r) && !Listed(s, r))
  {
    ReachableInv(s);
  }

  /** Nothing leaks at shutdown: with the worker stopped, both release lists swept, Python's rings
      given up and the table destroyed, every ring has been freed, once. */
  lemma ShutdownFreesAll(s: State)
    requires Reachable(s) && !s.running && s.python == {} && s.owed == [] && s.table == map[]
    requires forall i :: s.head <= i < |s.log| ==> !s.log[i].Release?
    ensures forall r :: r in s.count ==> s.count[r] == 0 && r in s.frees && s.frees[r] == 1
  {
    ReachableInv(s);
    forall r | r in s.count ensures !Token(s, r) && !Listed(s, r) {
    }
  }
}

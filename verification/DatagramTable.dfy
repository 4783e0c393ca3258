/** The worker's cnx -> record-ring table (datagram_buf.h): open addressing with linear probing and
    tombstones, grown by rehashing at 70% load, holding one reference per live slot. */
module DatagramTable {
  import opened Modulo

  /** A slot of the array; `cnx` and `db` are pointer values. */
  datatype Slot = Slot(cnx: nat, db: nat)

  const NULL: nat := 0
  const TOMBSTONE: nat := 1
  const EMPTY := Slot(NULL, NULL)

  predicate Live(s: Slot) { s.cnx != NULL && s.cnx != TOMBSTONE }

  /** `index & mask` is `index % cap`. */
  predicate Masked(cap: nat) { PowerOfTwo(cap) }

  /** The d-th slot of a probe that starts at hash h. */
  function At(h: nat, d: nat, n: nat): nat
    requires n > 0
  {
    (h + d) % n
  }

  lemma AtReaches(h: nat, i: nat, n: nat) returns (d: nat)
    requires i < n
    ensures d < n && At(h, d, n) == i
  {
    var r := h % n;
    QuotientForm(h, n);
    if r <= i {
      d := i - r;
      RemainderIs(h + d, h / n, n, i);
    } else {
      d := i + n - r;
      assert (h / n + 1) * n == (h / n) * n + n;
      RemainderIs(h + d, h / n + 1, n, i);
    }
  }

  lemma NextAt(h: nat, d: nat, n: nat)
    requires n > 0
    ensures (At(h, d, n) + 1) % n == At(h, d + 1, n)
  {
    NextRemainder(h + d, n);
  }

  // ---- counting ------------------------------------------------------------------------------

  function Occupied(ss: seq<Slot>): nat {
    if ss == [] then 0
    else Occupied(ss[..|ss| - 1]) + (if ss[|ss| - 1].cnx != NULL then 1 else 0)
  }

  /** The references the live slots own. */
  function Rings(ss: seq<Slot>): multiset<nat> {
    if ss == [] then multiset{}
    else Rings(ss[..|ss| - 1]) + Owned(ss[|ss| - 1])
  }

  function Owned(s: Slot): multiset<nat> { if Live(s) then multiset{s.db} else multiset{} }

  lemma {:induction false} OccupiedUpdate(ss: seq<Slot>, i: nat, s: Slot)
    requires i < |ss|
    ensures Occupied(ss[i := s]) + (if ss[i].cnx != NULL then 1 else 0)
         == Occupied(ss) + (if s.cnx != NULL then 1 else 0)
    decreases |ss|
  {
    var n := |ss| - 1;
    if i == n {
      assert ss[i := s][..n] == ss[..n];
    } else {
      assert ss[i := s][..n] == ss[..n][i := s];
      OccupiedUpdate(ss[..n], i, s);
    }
  }

  lemma RingsLast(ss: seq<Slot>)
    requires ss != []
    ensures Rings(ss) == Rings(ss[..|ss| - 1]) + Owned(ss[|ss| - 1])
  {
  }

  lemma {:induction false} RingsUpdate(ss: seq<Slot>, i: nat, s: Slot)
    requires i < |ss|
    ensures Rings(ss[i := s]) + Owned(ss[i]) == Rings(ss) + Owned(s)
    decreases |ss|
  {
    var n, tt := |ss| - 1, ss[i := s];
    RingsLast(ss);
    RingsLast(tt);
    if i == n {
      assert tt[..n] == ss[..n];
      Swapped(Rings(ss[..n]), Owned(s), Owned(ss[i]));
    } else {
      assert tt[..n] == ss[..n][i := s];
      RingsUpdate(ss[..n], i, s);
      Swapped(Rings(tt[..n]), Owned(ss[n]), Owned(ss[i]));
      Swapped(Rings(ss[..n]), Owned(ss[n]), Owned(s));
    }
  }

  lemma Swapped(a: multiset<nat>, b: multiset<nat>, c: multiset<nat>)
    ensures a + b + c == a + c + b
  {
  }

  lemma {:induction false} OccupiedBounds(ss: seq<Slot>)
    ensures |Rings(ss)| <= Occupied(ss) <= |ss|
    decreases |ss|
  {
    if ss != [] { OccupiedBounds(ss[..|ss| - 1]); }
  }

  lemma {:induction false} NullExists(ss: seq<Slot>) returns (i: nat)
    requires Occupied(ss) < |ss|
    ensures i < |ss| && ss[i].cnx == NULL
    decreases |ss|
  {
    var n := |ss| - 1;
    if ss[n].cnx == NULL {
      i := n;
    } else {
      i := NullExists(ss[..n]);
    }
  }

  // ---- the table as a map --------------------------------------------------------------------

  /** Every key sits `at[k]` slots behind its home, with no NULL before it; live slots hold the
      map's keys and each key once. */
  ghost predicate Holds(ss: seq<Slot>, hash: nat -> nat, m: map<nat, nat>, at: map<nat, nat>) {
    && at.Keys == m.Keys
    && (|ss| == 0 ==> m == map[])
    && (forall k :: k in m ==>
          && k != NULL && k != TOMBSTONE && at[k] < |ss|
          && ss[At(hash(k), at[k], |ss|)] == Slot(k, m[k]))
    && (forall k, j: nat :: k in m && j < at[k] ==> ss[At(hash(k), j, |ss|)].cnx != NULL)
    && (forall i :: 0 <= i < |ss| && Live(ss[i]) ==>
          ss[i].cnx in m && i == At(hash(ss[i].cnx), at[ss[i].cnx], |ss|))
  }

  lemma HoldsNothing(hash: nat -> nat)
    ensures Holds([], hash, map[], map[]) && Occupied([]) == 0 && Rings([]) == multiset{}
  {
  }

  /** A probe for key that has passed d slots. */
  ghost predicate Passed(ss: seq<Slot>, h: nat, d: nat, key: nat) {
    forall j: nat :: j < d && |ss| > 0 ==> ss[At(h, j, |ss|)].cnx != NULL && ss[At(h, j, |ss|)].cnx != key
  }

  /** Where the probe meets the key or NULL, the table has told. */
  lemma ProbeTells(ss: seq<Slot>, hash: nat -> nat, m: map<nat, nat>, at: map<nat, nat>, key: nat, d: nat)
    requires Holds(ss, hash, m, at) && 0 < |ss| && key != NULL && key != TOMBSTONE
    requires Passed(ss, hash(key), d, key)
    ensures var s := ss[At(hash(key), d, |ss|)];
            && (s.cnx == key ==> key in m && m[key] == s.db)
            && (s.cnx == NULL ==> key !in m)
  {
  }

  /** A probe cannot pass all slots while one of them is NULL. */
  lemma ProbeStops(ss: seq<Slot>, h: nat, d: nat, key: nat)
    requires Occupied(ss) < |ss| && Passed(ss, h, d, key)
    ensures d < |ss|
  {
    var i := NullExists(ss);
    var e := AtReaches(h, i, |ss|);
  }

  /** The key goes into a free slot its probe has reached. */
  lemma Inserted(ss: seq<Slot>, hash: nat -> nat, m: map<nat, nat>, at: map<nat, nat>, key: nat, d: nat, db: nat)
    requires Holds(ss, hash, m, at) && key != NULL && key != TOMBSTONE && key !in m
    requires d < |ss| && Passed(ss, hash(key), d, key) && !Live(ss[At(hash(key), d, |ss|)])
    ensures Holds(ss[At(hash(key), d, |ss|) := Slot(key, db)], hash, m[key := db], at[key := d])
  {
  }

  /** The key's slot becomes a tombstone. */
  lemma Removed(ss: seq<Slot>, hash: nat -> nat, m: map<nat, nat>, at: map<nat, nat>, key: nat)
    requires Holds(ss, hash, m, at) && key in m
    ensures Holds(ss[At(hash(key), at[key], |ss|) := Slot(TOMBSTONE, NULL)], hash, m - {key}, at - {key})
  {
  }

  predicate Pointer(p: nat) { p != NULL && p != TOMBSTONE }

  /** The first i slots of the old array have been moved: exactly their keys are in `moved`. */
  ghost predicate Moved(ss: seq<Slot>, i: nat, hash: nat -> nat, m: map<nat, nat>, at: map<nat, nat>, moved: map<nat, nat>)
    requires Holds(ss, hash, m, at)
  {
    forall k :: k in moved <==> k in m && At(hash(k), at[k], |ss|) < i
  }

  lemma MovedNext(ss: seq<Slot>, i: nat, hash: nat -> nat, m: map<nat, nat>, at: map<nat, nat>, moved: map<nat, nat>)
    requires Holds(ss, hash, m, at) && i < |ss| && Moved(ss, i, hash, m, at, moved)
    ensures Live(ss[i]) ==> ss[i].cnx !in moved && Moved(ss, i + 1, hash, m, at, moved[ss[i].cnx := ss[i].db])
    ensures !Live(ss[i]) ==> Moved(ss, i + 1, hash, m, at, moved)
  {
  }

  lemma RingsPrefix(ss: seq<Slot>, i: nat)
    requires i < |ss|
    ensures Rings(ss[..i + 1]) == Rings(ss[..i]) + Owned(ss[i])
    ensures |Rings(ss[..i])| <= i
  {
    assert ss[..i + 1][..i] == ss[..i];
    OccupiedBounds(ss[..i]);
  }

  /** calloc: no key, no reference. */
  lemma {:induction false} AllNull(ss: seq<Slot>)
    requires forall i :: 0 <= i < |ss| ==> ss[i] == EMPTY
    ensures Occupied(ss) == 0 && Rings(ss) == multiset{}
    decreases |ss|
  {
    if ss != [] { AllNull(ss[..|ss| - 1]); }
  }

  /** The rehash probe: the first NULL from the key's home on. */
  method FirstNull(ns: array<Slot>, h: nat, key: nat) returns (j: nat, ghost d: nat)
    requires Occupied(ns[..]) < ns.Length && forall s :: s in ns[..] ==> s.cnx != key
    ensures d < ns.Length && j == At(h, d, ns.Length)
    ensures ns[j].cnx == NULL && Passed(ns[..], h, d, key)
  {
    j, d := h % ns.Length, 0;
    while ns[j].cnx != NULL
      invariant d < ns.Length && j == At(h, d, ns.Length) && Passed(ns[..], h, d, key)
      decreases ns.Length - d
    {
      assert ns[..][j] in ns[..];
      NextAt(h, d, ns.Length);
      d, j := d + 1, (j + 1) % ns.Length;
      ProbeStops(ns[..], h, d, key);
    }
  }

  /** What a fresh entry does to the map, the load and the references. */
  lemma Entered(ss: seq<Slot>, hash: nat -> nat, m: map<nat, nat>, at: map<nat, nat>, s: Slot, d: nat)
    requires Holds(ss, hash, m, at) && Live(s) && s.cnx !in m
    requires d < |ss| && Passed(ss, hash(s.cnx), d, s.cnx) && !Live(ss[At(hash(s.cnx), d, |ss|)])
    ensures var i := At(hash(s.cnx), d, |ss|);
            && Holds(ss[i := s], hash, m[s.cnx := s.db], at[s.cnx := d])
            && Occupied(ss[i := s]) == Occupied(ss) + (if ss[i].cnx == NULL then 1 else 0)
            && Rings(ss[i := s]) == Rings(ss) + multiset{s.db}
            && |Rings(ss[i := s])| == |Rings(ss)| + 1
  {
    var i := At(hash(s.cnx), d, |ss|);
    Inserted(ss, hash, m, at, s.cnx, d, s.db);
    assert s == Slot(s.cnx, s.db);
    OccupiedUpdate(ss, i, s);
    RingsUpdate(ss, i, s);
  }

  /** What a tombstone does to the map, the load and the references. */
  lemma Buried(ss: seq<Slot>, hash: nat -> nat, m: map<nat, nat>, at: map<nat, nat>, i: nat)
    requires Holds(ss, hash, m, at) && i < |ss| && Live(ss[i])
    ensures var key, grave := ss[i].cnx, Slot(TOMBSTONE, NULL);
            && key in m && m[key] == ss[i].db
            && Holds(ss[i := grave], hash, m - {key}, at - {key})
            && Occupied(ss[i := grave]) == Occupied(ss)
            && Rings(ss) == Rings(ss[i := grave]) + multiset{m[key]}
            && |Rings(ss)| == |Rings(ss[i := grave])| + 1
  {
    Removed(ss, hash, m, at, ss[i].cnx);
    OccupiedUpdate(ss, i, Slot(TOMBSTONE, NULL));
    RingsUpdate(ss, i, Slot(TOMBSTONE, NULL));
  }

  /** A loop that drops the references of the first i slots has `left`, the next one included. */
  lemma DropNext(ss: seq<Slot>, i: nat, left: multiset<nat>)
    requires i < |ss| && left + Rings(ss[..i]) == Rings(ss)
    ensures left - Owned(ss[i]) + Rings(ss[..i + 1]) == Rings(ss)
  {
    RingsPrefix(ss, i);
    RingsGrow(ss, i + 1);
    forall x ensures Owned(ss[i])[x] <= left[x] {
      assert Rings(ss)[x] == left[x] + Rings(ss[..i])[x] >= Rings(ss[..i + 1])[x];
    }
  }

  lemma {:induction false} RingsGrow(ss: seq<Slot>, i: nat)
    requires i <= |ss|
    ensures Rings(ss[..i]) <= Rings(ss)
    decreases |ss|
  {
    if i < |ss| {
      var front := ss[..|ss| - 1];
      assert front[..i] == ss[..i];
      RingsGrow(front, i);
    } else {
      assert ss[..i] == ss;
    }
  }

  lemma KeyAbsent(ss: seq<Slot>, hash: nat -> nat, m: map<nat, nat>, at: map<nat, nat>, key: nat)
    requires Holds(ss, hash, m, at) && key !in m && Pointer(key)
    ensures forall s :: s in ss ==> s.cnx != key
  {
  }

  /** One entry of the rehash loop. */
  method Place(ns: array<Slot>, hash: nat -> nat, s: Slot, ghost m: map<nat, nat>, ghost at: map<nat, nat>)
    returns (ghost d: nat)
    requires Live(s) && s.cnx !in m
    requires Holds(ns[..], hash, m, at) && Occupied(ns[..]) < ns.Length
    modifies ns
    ensures Holds(ns[..], hash, m[s.cnx := s.db], at[s.cnx := d])
    ensures Occupied(ns[..]) == old(Occupied(ns[..])) + 1
    ensures Rings(ns[..]) == old(Rings(ns[..])) + Owned(s)
  {
    KeyAbsent(ns[..], hash, m, at, s.cnx);
    var j, e := FirstNull(ns, hash(s.cnx), s.cnx);
    Entered(ns[..], hash, m, at, s, e);
    d := e;
    ghost var ss := ns[..];
    ns[j] := s;
    assert ns[..] == ss[j := s];
  }

  /** The rehash loop at old slot i: which keys and references the new array holds so far. */
  ghost predicate Rehashed(ss: seq<Slot>, i: nat, hash: nat -> nat, m: map<nat, nat>, at: map<nat, nat>,
                           ns: seq<Slot>, moved: map<nat, nat>)
    requires Holds(ss, hash, m, at)
  {
    && i <= |ss|
    && Moved(ss, i, hash, m, at, moved) && (forall k :: k in moved ==> moved[k] == m[k])
    && Rings(ns) == Rings(ss[..i]) && Occupied(ns) == |Rings(ss[..i])|
  }

  lemma RehashSkips(ss: seq<Slot>, i: nat, hash: nat -> nat, m: map<nat, nat>, at: map<nat, nat>,
                    ns: seq<Slot>, moved: map<nat, nat>)
    requires Holds(ss, hash, m, at) && i < |ss| && Rehashed(ss, i, hash, m, at, ns, moved)
    ensures Occupied(ns) <= i
    ensures Live(ss[i]) ==> ss[i].cnx !in moved
    ensures !Live(ss[i]) ==> Rehashed(ss, i + 1, hash, m, at, ns, moved)
  {
    MovedNext(ss, i, hash, m, at, moved);
    RingsPrefix(ss, i);
  }

  lemma RehashMoves(ss: seq<Slot>, i: nat, hash: nat -> nat, m: map<nat, nat>, at: map<nat, nat>,
                    before: seq<Slot>, ns: seq<Slot>, moved: map<nat, nat>)
    requires Holds(ss, hash, m, at) && i < |ss| && Live(ss[i]) && Rehashed(ss, i, hash, m, at, before, moved)
    requires Occupied(ns) == Occupied(before) + 1 && Rings(ns) == Rings(before) + Owned(ss[i])
    ensures Rehashed(ss, i + 1, hash, m, at, ns, moved[ss[i].cnx := ss[i].db])
  {
    MovedNext(ss, i, hash, m, at, moved);
    RingsPrefix(ss, i);
  }

  lemma Finished(ss: seq<Slot>, hash: nat -> nat, m: map<nat, nat>, at: map<nat, nat>,
                 ns: seq<Slot>, moved: map<nat, nat>)
    requires Holds(ss, hash, m, at) && Rehashed(ss, |ss|, hash, m, at, ns, moved)
    ensures moved == m && Rings(ns) == Rings(ss) && Occupied(ns) == |Rings(ss)|
  {
    assert ss[..|ss|] == ss;
  }

  /** A table that grows doubles, from 64 slots up to 2^31. */
  lemma DoubleFits(ss: seq<Slot>, n: nat)
    requires |ss| == 0 || (Masked(|ss|) && |ss| < TWO31 && Occupied(ss) * 10 < |ss| * 7)
    requires n == if |ss| == 0 then 64 else 2 * |ss|
    ensures Masked(n) && n <= TWO31 && |Rings(ss)| <= Occupied(ss) && |Rings(ss)| * 10 < n * 7
  {
    OccupiedBounds(ss);
    if |ss| == 0 {
      ProductOfPowers(8, 8);
      assert PowerOfTwo(2) && PowerOfTwo(4);
    } else {
      DoubledIsPower(|ss|);
      CounterSize();
      PowersApart(|ss|, TWO31);
    }
  }

  // ---- the load test -------------------------------------------------------------------------

  /** Whether one more used slot calls for a larger table, in the source's 32-bit products. */
  predicate Full(used: nat, cap: nat) {
    cap == 0 || (used + 1) * 10 % U32 >= cap * 7 % U32
  }

  /** Up to 2^29 slots the products do not wrap and the test is the 70% load. */
  lemma LoadTestExact(used: nat, cap: nat)
    requires cap <= TWO31 / 4 && (cap == 0 || used * 10 < cap * 7)
    ensures Full(used, cap) <==> (used + 1) * 10 >= cap * 7
  {
  }

  /** The sizes at which they do: there are two. */
  lemma LargestTables(cap: nat)
    requires Masked(cap) && TWO31 / 4 < cap <= TWO31
    ensures cap == TWO31 / 2 || cap == TWO31
  {
    CounterSize();
    if cap < TWO31 { PowersApart(cap, TWO31); }
    if cap < TWO31 / 2 { PowersApart(cap, TWO31 / 2); }
  }

  /** At every size the test keeps the load below 70%: where the products wrap, both lose the same
      multiple of 2^32. */
  lemma LoadTestHolds(used: nat, cap: nat)
    requires cap <= TWO31 / 4 || cap == TWO31 / 2 || cap == TWO31
    requires cap == 0 || used * 10 < cap * 7
    ensures !Full(used, cap) ==> (used + 1) * 10 < cap * 7
  {
  }

  /** The one size from which growing wraps the capacity to 0: a full table of 2^31 slots. */
  predicate Exhausted(used: nat, cap: nat) { cap == TWO31 && Full(used, cap) }

  class Table {
    const hash: nat -> nat
    var slots: array<Slot>
    var live: nat
    var used: nat                    // live slots and tombstones
    ghost var m: map<nat, nat>
    ghost var at: map<nat, nat>
    ghost var refs: multiset<nat>    // the rings the table holds a reference on

    ghost predicate Valid()
      reads this, slots
    {
      && Holds(slots[..], hash, m, at)
      && used == Occupied(slots[..]) && refs == Rings(slots[..]) && live == |refs|
      && (slots.Length == 0 || (Masked(slots.Length) && slots.Length <= TWO31 && used * 10 < slots.Length * 7))
    }

    constructor (hash: nat -> nat)
      ensures Valid() && m == map[] && refs == multiset{} && fresh(slots) && this.hash == hash
    {
      this.hash := hash;
      slots := new Slot[0](_ => EMPTY);
      live, used, m, at, refs := 0, 0, map[], map[], multiset{};
    }

    /** aiopquic_dgram_table_grow: same map, same references, no tombstones. */
    method Grow()
      requires Valid() && slots.Length < TWO31
      modifies this`slots, this`used, this`at
      ensures Valid() && fresh(slots) && used == live <= old(used)
      ensures slots.Length == if old(slots).Length == 0 then 64 else 2 * old(slots).Length
    {
      var n := if slots.Length == 0 then 64 else 2 * slots.Length;
      var ns := new Slot[n](_ => EMPTY);
      ghost var moved, there := Rehash(ns);
      Finished(slots[..], hash, m, at, ns[..], moved);
      DoubleFits(slots[..], n);
      Install(ns, there);
    }

    /** The new array takes the old one's place. */
    method Install(ns: array<Slot>, ghost there: map<nat, nat>)
      requires Holds(ns[..], hash, m, there) && Rings(ns[..]) == refs && Occupied(ns[..]) == live == |refs|
      requires Masked(ns.Length) && ns.Length <= TWO31 && live * 10 < ns.Length * 7
      modifies this`slots, this`used, this`at
      ensures Valid() && slots == ns && used == live
    {
      slots, used, at := ns, live, there;
    }

    method Rehash(ns: array<Slot>) returns (ghost moved: map<nat, nat>, ghost there: map<nat, nat>)
      requires Valid() && ns != slots && ns.Length > slots.Length && forall i :: 0 <= i < ns.Length ==> ns[i] == EMPTY
      modifies ns
      ensures Holds(ns[..], hash, moved, there) && Rehashed(slots[..], slots.Length, hash, m, at, ns[..], moved)
    {
      ghost var ss := slots[..];
      moved, there := map[], map[];
      AllNull(ns[..]);
      var i := 0;
      while i < slots.Length
        invariant slots[..] == ss && Holds(ns[..], hash, moved, there) && Rehashed(ss, i, hash, m, at, ns[..], moved)
      {
        RehashSkips(ss, i, hash, m, at, ns[..], moved);
        if Live(slots[i]) {
          ghost var before := ns[..];
          ghost var d := Place(ns, hash, slots[i], moved, there);
          RehashMoves(ss, i, hash, m, at, before, ns[..], moved);
          moved, there := moved[ss[i].cnx := ss[i].db], there[ss[i].cnx := d];
        }
        i := i + 1;
      }
    }

    /** The probe every operation runs: it ends at the key or at NULL, and remembers the first
        tombstone it passed. */
    method Probe(key: nat) returns (i: nat, tomb: nat, ghost d: nat, ghost t: nat)
      requires Valid() && slots.Length > 0 && Pointer(key)
      ensures d < slots.Length && i == At(hash(key), d, slots.Length) && Passed(slots[..], hash(key), d, key)
      ensures slots[i].cnx == key || slots[i].cnx == NULL
      ensures tomb <= slots.Length
      ensures tomb < slots.Length ==> t < d && tomb == At(hash(key), t, slots.Length) && slots[tomb].cnx == TOMBSTONE
    {
      ghost var h := hash(key);
      OccupiedBounds(slots[..]);
      i, tomb, d, t := hash(key) % slots.Length, slots.Length, 0, 0;
      while slots[i].cnx != key && slots[i].cnx != NULL
        invariant d < slots.Length && i == At(h, d, slots.Length) && Passed(slots[..], h, d, key)
        invariant tomb <= slots.Length
        invariant tomb < slots.Length ==> t < d && tomb == At(h, t, slots.Length) && slots[tomb].cnx == TOMBSTONE
        decreases slots.Length - d
      {
        if slots[i].cnx == TOMBSTONE && tomb == slots.Length {
          tomb, t := i, d;
        }
        NextAt(h, d, slots.Length);
        d, i := d + 1, (i + 1) % slots.Length;
        ProbeStops(slots[..], h, d, key);
      }
    }

    /** aiopquic_dgram_table_get. */
    method Get(cnx: nat) returns (found: bool, db: nat)
      requires Valid() && Pointer(cnx)
      ensures found <==> cnx in m
      ensures found ==> db == m[cnx]
    {
      if slots.Length == 0 {
        return false, NULL;
      }
      ghost var d, t;
      var i, tomb;
      i, tomb, d, t := Probe(cnx);
      ProbeTells(slots[..], hash, m, at, cnx, d);
      found, db := slots[i].cnx == cnx, slots[i].db;
    }

    /** The load test in front of an insertion. */
    method MakeRoom()
      requires Valid() && !Exhausted(used, slots.Length)
      modifies this`slots, this`used, this`at
      ensures Valid() && (slots == old(slots) || fresh(slots))
      ensures 0 < slots.Length && (used + 1) * 10 < slots.Length * 7
    {
      if slots.Length > TWO31 / 4 { LargestTables(slots.Length); }
      LoadTestHolds(used, slots.Length);
      if Full(used, slots.Length) {
        Grow();
      }
    }

    /** aiopquic_dgram_table_put: a new key takes a reference on its ring; a key already there
        keeps the ring it has. */
    method Put(cnx: nat, db: nat)
      requires Valid() && Pointer(cnx) && !Exhausted(used, slots.Length)
      modifies this, slots
      ensures Valid() && (slots == old(slots) || fresh(slots))
      ensures m == if cnx in old(m) then old(m) else old(m)[cnx := db]
      ensures refs == if cnx in old(m) then old(refs) else old(refs) + multiset{db}
    {
      MakeRoom();
      ghost var d, t;
      var i, tomb;
      i, tomb, d, t := Probe(cnx);
      ProbeTells(slots[..], hash, m, at, cnx, d);
      if slots[i].cnx == NULL {
        if tomb < slots.Length {
          Enter(tomb, cnx, db, t);
        } else {
          Enter(i, cnx, db, d);
        }
      }
    }

    /** The new entry goes into slot i: a tombstone, or the NULL that ended the probe. */
    method Enter(i: nat, cnx: nat, db: nat, ghost d: nat)
      requires Valid() && Pointer(cnx) && cnx !in m && (used + 1) * 10 < slots.Length * 7
      requires d < slots.Length && i == At(hash(cnx), d, slots.Length) && Passed(slots[..], hash(cnx), d, cnx)
      requires slots[i].cnx == NULL || slots[i].cnx == TOMBSTONE
      modifies this, slots
      ensures Valid() && slots == old(slots)
      ensures m == old(m)[cnx := db] && refs == old(refs) + multiset{db}
    {
      Entered(slots[..], hash, m, at, Slot(cnx, db), d);
      Store(i, Slot(cnx, db), if slots[i].cnx == NULL then used + 1 else used, live + 1, m[cnx := db], at[cnx := d]);
    }

    /** One slot and the two counts change. */
    method Store(i: nat, s: Slot, nowUsed: nat, nowLive: nat, ghost nowM: map<nat, nat>, ghost nowAt: map<nat, nat>)
      requires i < slots.Length && Masked(slots.Length) && slots.Length <= TWO31 && nowUsed * 10 < slots.Length * 7
      requires Holds(slots[..][i := s], hash, nowM, nowAt)
      requires nowUsed == Occupied(slots[..][i := s]) && nowLive == |Rings(slots[..][i := s])|
      modifies this, slots
      ensures Valid() && slots == old(slots) && m == nowM && refs == Rings(old(slots[..])[i := s])
    {
      ghost var ss := slots[..];
      slots[i] := s;
      assert slots[..] == ss[i := s];
      used, live, m, at, refs := nowUsed, nowLive, nowM, nowAt, Rings(ss[i := s]);
    }

    /** aiopquic_dgram_table_remove_ring: with a ring given, the entry goes only while it holds
        that ring; NULL removes whatever it holds. */
    method RemoveRing(cnx: nat, db: nat)
      requires Valid() && cnx != TOMBSTONE
      modifies this, slots
      ensures Valid() && slots == old(slots)
      ensures cnx in old(m) && (db == NULL || old(m)[cnx] == db) ==>
                m == old(m) - {cnx} && old(refs) == refs + multiset{old(m)[cnx]}
      ensures !(cnx in old(m) && (db == NULL || old(m)[cnx] == db)) ==> m == old(m) && refs == old(refs)
    {
      if slots.Length == 0 || cnx == NULL {
        return;
      }
      ghost var d, t;
      var i, tomb;
      i, tomb, d, t := Probe(cnx);
      ProbeTells(slots[..], hash, m, at, cnx, d);
      if slots[i].cnx == cnx && (db == NULL || slots[i].db == db) {
        Bury(i, cnx);
      }
    }

    /** The entry in slot i becomes a tombstone and its reference is dropped. */
    method Bury(i: nat, cnx: nat)
      requires Valid() && Pointer(cnx) && i < slots.Length && slots[i].cnx == cnx
      modifies this, slots
      ensures Valid() && slots == old(slots)
      ensures cnx in old(m) && m == old(m) - {cnx} && old(refs) == refs + multiset{old(m)[cnx]}
    {
      Buried(slots[..], hash, m, at, i);
      Store(i, Slot(TOMBSTONE, NULL), used, live - 1, m - {cnx}, at - {cnx});
    }

    /** aiopquic_dgram_table_destroy: every live slot's reference is dropped, once. */
    method Destroy()
      requires Valid()
      modifies this
      ensures Valid() && m == map[] && refs == multiset{}
    {
      DropAll();
      slots := new Slot[0](_ => EMPTY);
      live, used, m, at := 0, 0, map[], map[];
      assert slots[..] == [];
      HoldsNothing(hash);
    }

    method DropAll()
      requires refs == Rings(slots[..])
      modifies this`refs
      ensures refs == multiset{}
    {
      ghost var ss, left := slots[..], refs;
      var i := 0;
      while i < slots.Length
        invariant i <= |ss| && left + Rings(ss[..i]) == Rings(ss)
      {
        DropNext(ss, i, left);
        if Live(slots[i]) {
          left := left - multiset{slots[i].db};   // aiopquic_dgram_buf_unref
        }
        i := i + 1;
      }
      assert ss[..i] == ss;
      refs := left;
    }
  }
}

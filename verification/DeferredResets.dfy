/** The list of held RESET_STREAM_ATs of one transport (callback.h): filled by
    aiopquic_defer_reset, run after every send pass, emptied of a cnx when it closes. StreamSend
    proves what one held reset promises; this is the list, its flags and its references. */
module DeferredResets {

  /** One record. `cnx` and `sc` stand for the pointers. */
  datatype Held = Held(cnx: nat, sc: nat, streamId: nat, code: nat, reliable: nat)

  /** What a pass reads of the outside: picoquic's list of cnxs, their state, the ring heads. */
  datatype View = View(alive: set<nat>, closing: set<nat>, heads: map<nat, nat>)

  predicate Ready(v: View, h: Held) { h.sc in v.heads && v.heads[h.sc] >= h.reliable }

  /** A record stays while its cnx lives and its bytes are not out; a dead cnx is looked for
      only in a sweep, or when the bytes are out. */
  predicate Stays(v: View, sweep: bool, h: Held) {
    !Ready(v, h) && (!sweep || h.cnx in v.alive)
  }

  predicate Goes(v: View, sweep: bool, h: Held) {
    !Stays(v, sweep, h) && h.cnx in v.alive && h.cnx !in v.closing
  }

  function Staying(v: View, sweep: bool): Held -> bool { h => Stays(v, sweep, h) }

  function Going(v: View, sweep: bool): Held -> bool { h => Goes(v, sweep, h) }

  function OfOthers(cnx: nat): Held -> bool { (h: Held) => h.cnx != cnx }

  function Select(hs: seq<Held>, p: Held -> bool): seq<Held> {
    if hs == [] then []
    else Select(hs[..|hs| - 1], p) + (if p(hs[|hs| - 1]) then [hs[|hs| - 1]] else [])
  }

  lemma SelectSnoc(hs: seq<Held>, h: Held, p: Held -> bool)
    ensures Select(hs + [h], p) == Select(hs, p) + (if p(h) then [h] else [])
  {
    assert (hs + [h])[..|hs|] == hs;
  }

  /** Selection picks exactly the members that satisfy p. */
  lemma {:induction false} SelectMembers(hs: seq<Held>, p: Held -> bool, h: Held)
    ensures h in Select(hs, p) <==> h in hs && p(h)
    decreases |hs|
  {
    if hs != [] {
      assert hs == hs[..|hs| - 1] + [hs[|hs| - 1]];
      SelectMembers(hs[..|hs| - 1], p, h);
    }
  }

  function Streams(hs: seq<Held>): multiset<nat> {
    if hs == [] then multiset{} else Streams(hs[..|hs| - 1]) + multiset{hs[|hs| - 1].sc}
  }

  lemma {:induction false} StreamsConcat(a: seq<Held>, b: seq<Held>)
    ensures Streams(a + b) == Streams(a) + Streams(b)
    decreases |b|
  {
    if b == [] {
      assert a + b == a;
    } else {
      var n := |b| - 1;
      assert (a + b)[..|a + b| - 1] == a + b[..n];
      StreamsConcat(a, b[..n]);
    }
  }

  /** One reference per record, at most one record per stream, and the flags say which. */
  ghost predicate Accounted(hs: seq<Held>, pending: set<nat>, owned: multiset<nat>) {
    owned == Streams(hs) && owned == multiset(pending)
  }

  lemma AccountedAdd(hs: seq<Held>, pending: set<nat>, owned: multiset<nat>, h: Held)
    requires Accounted(hs, pending, owned) && h.sc !in pending
    ensures Accounted([h] + hs, pending + {h.sc}, owned + multiset{h.sc})
  {
    StreamsOne(h);
    StreamsConcat([h], hs);
  }

  lemma TakeOne(all: multiset<nat>, rest: multiset<nat>, pending: set<nat>, sc: nat)
    requires all == multiset(pending) && all == rest + multiset{sc}
    ensures sc in pending && rest == multiset(pending - {sc}) && rest == all - multiset{sc}
  {
    assert all[sc] == rest[sc] + 1;
    forall x ensures rest[x] == multiset(pending - {sc})[x] {
      assert all[x] == rest[x] + multiset{sc}[x];
    }
  }

  lemma Regrouped(a: multiset<nat>, one: multiset<nat>, b: multiset<nat>)
    ensures a + (one + b) == (a + b) + one
  {
  }

  lemma StreamsOne(h: Held)
    ensures Streams([h]) == multiset{h.sc}
  {
    assert [h][..0] == [];
  }

  lemma StreamsThree(a: seq<Held>, h: Held, b: seq<Held>)
    ensures Streams(a + ([h] + b)) == Streams(a + b) + multiset{h.sc}
  {
    StreamsConcat(a, [h] + b);
    StreamsConcat([h], b);
    StreamsConcat(a, b);
    StreamsOne(h);
    Regrouped(Streams(a), multiset{h.sc}, Streams(b));
  }

  lemma Parted(hs: seq<Held>, i: nat)
    requires i < |hs|
    ensures hs == hs[..i] + ([hs[i]] + hs[i + 1..])
  {
    forall j: nat | j < |hs| ensures hs[j] == (hs[..i] + ([hs[i]] + hs[i + 1..]))[j] {
      if j > i { assert hs[i + 1..][j - i - 1] == hs[j]; }
    }
  }

  lemma StreamsUnlink(hs: seq<Held>, i: nat)
    requires i < |hs|
    ensures Streams(hs) == Streams(hs[..i] + hs[i + 1..]) + multiset{hs[i].sc}
  {
    Parted(hs, i);
    StreamsThree(hs[..i], hs[i], hs[i + 1..]);
  }

  lemma AccountedUnlink(hs: seq<Held>, pending: set<nat>, owned: multiset<nat>, i: nat)
    requires Accounted(hs, pending, owned) && i < |hs|
    ensures hs[i].sc in pending
    ensures Accounted(hs[..i] + hs[i + 1..], pending - {hs[i].sc}, owned - multiset{hs[i].sc})
  {
    StreamsUnlink(hs, i);
    TakeOne(owned, Streams(hs[..i] + hs[i + 1..]), pending, hs[i].sc);
  }

  /** A loop that unlinks what fails p is at cur[i], with all[..k] behind it. */
  ghost predicate Pass(cur: seq<Held>, i: nat, all: seq<Held>, k: nat, p: Held -> bool) {
    k <= |all| && i == |Select(all[..k], p)| && cur == Select(all[..k], p) + all[k..]
  }

  lemma PassStep(cur: seq<Held>, i: nat, all: seq<Held>, k: nat, p: Held -> bool)
    requires Pass(cur, i, all, k, p) && i < |cur|
    ensures k < |all| && cur[i] == all[k] && all[..k + 1] == all[..k] + [all[k]]
    ensures p(cur[i]) ==> Pass(cur, i + 1, all, k + 1, p)
    ensures !p(cur[i]) ==> Pass(cur[..i] + cur[i + 1..], i, all, k + 1, p)
  {
    assert all[..k + 1] == all[..k] + [all[k]];
    SelectSnoc(all[..k], all[k], p);
  }

  class DeferredResets {
    var held: seq<Held>
    var pending: set<nat>             // the streams with tx_reset_pending set
    ghost var owned: multiset<nat>    // references taken and not yet dropped, by stream

    ghost predicate Valid()
      reads this
    {
      Accounted(held, pending, owned)
    }

    constructor ()
      ensures Valid() && held == []
    {
      held, pending, owned := [], {}, multiset{};
    }

    /** aiopquic_defer_reset; its callers have looked at tx_reset_pending. */
    method Defer(h: Held)
      requires Valid() && h.sc !in pending
      modifies this
      ensures Valid() && held == [h] + old(held)
      ensures pending == old(pending) + {h.sc} && owned == old(owned) + multiset{h.sc}
    {
      AccountedAdd(held, pending, owned, h);
      held, pending, owned := [h] + held, pending + {h.sc}, owned + multiset{h.sc};
    }

    /** `*pp = d->next` and aiopquic_deferred_reset_free. */
    method Unlink(i: nat)
      requires Valid() && i < |held|
      modifies this
      ensures Valid() && held == old(held[..i] + held[i + 1..]) && old(held[i].sc in pending)
      ensures pending == old(pending - {held[i].sc}) && owned == old(owned - multiset{held[i].sc})
    {
      AccountedUnlink(held, pending, owned, i);
      var sc := held[i].sc;
      held, pending, owned := held[..i] + held[i + 1..], pending - {sc}, owned - multiset{sc};
    }

    /** aiopquic_run_deferred_resets: what stays keeps its order, what goes is sent once. */
    method Run(v: View, sweep: bool) returns (sent: seq<Held>)
      requires Valid()
      modifies this
      ensures Valid()
      ensures held == Select(old(held), Staying(v, sweep))
      ensures sent == Select(old(held), Going(v, sweep))
    {
      ghost var all, k := held, 0;
      var i := 0;
      sent := [];
      while i < |held|
        invariant Valid() && Pass(held, i, all, k, Staying(v, sweep))
        invariant sent == Select(all[..k], Going(v, sweep))
        decreases |held| - i
      {
        PassStep(held, i, all, k, Staying(v, sweep));
        SelectSnoc(all[..k], all[k], Going(v, sweep));
        var h := held[i];
        if Stays(v, sweep, h) {
          i := i + 1;
        } else {
          if h.cnx in v.alive && h.cnx !in v.closing {
            sent := sent + [h];
          }
          Unlink(i);
        }
        k := k + 1;
      }
      assert all[..k] == all;
    }

    /** aiopquic_deferred_resets_drop_cnx. */
    method DropCnx(cnx: nat)
      requires Valid()
      modifies this
      ensures Valid() && held == Select(old(held), OfOthers(cnx))
    {
      ghost var all, k := held, 0;
      var i := 0;
      while i < |held|
        invariant Valid() && Pass(held, i, all, k, OfOthers(cnx))
        decreases |held| - i
      {
        PassStep(held, i, all, k, OfOthers(cnx));
        if held[i].cnx == cnx {
          Unlink(i);
        } else {
          i := i + 1;
        }
        k := k + 1;
      }
      assert all[..k] == all;
    }
  }

  /** A pass sends no reset early, none for a closing or dead cnx, and forgets none: each record
      is sent, or stays, or belongs to a cnx that is closing or gone. */
  lemma PassOutcome(hs: seq<Held>, v: View, sweep: bool, h: Held)
    requires h in hs
    ensures h in Select(hs, Going(v, sweep)) ==> Ready(v, h) && h.cnx in v.alive && h.cnx !in v.closing
    ensures h in Select(hs, Going(v, sweep)) || h in Select(hs, Staying(v, sweep))
         || h.cnx !in v.alive || h.cnx in v.closing
    ensures sweep && h in Select(hs, Staying(v, sweep)) ==> h.cnx in v.alive
  {
    SelectMembers(hs, Going(v, sweep), h);
    SelectMembers(hs, Staying(v, sweep), h);
  }
}

/** The process-wide TX totals (stream_ctx.h): any number of streams, each run by StreamSend's two
    threads, add what they push, pull and discard to three shared counters. */
module TxLedger {
  import Runs
  import StreamSend

  type Stream = StreamSend.State

  datatype World = World(streams: seq<Stream>, pushed: int, pulled: int, discarded: int)

  predicate Init(w: World) { w == World([], 0, 0, 0) }

  /** One step of stream i: what it adds to its share is a fetch_add on the shared counter. */
  ghost predicate Steps(w: World, u: World, i: nat) {
    && i < |w.streams| == |u.streams|
    && var s, t := w.streams[i], u.streams[i];
       && StreamSend.Next(s, t)
       && u == World(w.streams[i := t], w.pushed + t.pushed - s.pushed, w.pulled + t.pulled - s.pulled,
                     w.discarded + t.discarded - s.discarded)
  }

  /** aiopquic_stream_ctx_create and its first write. */
  ghost predicate Creates(w: World, u: World, s: Stream) {
    StreamSend.Init(s) && u == w.(streams := w.streams + [s])
  }

  ghost predicate Next(w: World, u: World) {
    (exists i :: Steps(w, u, i)) || (exists s :: Creates(w, u, s))
  }

  ghost predicate Reachable(w: World) {
    Runs.Reachable(Init, Next, w)
  }

  function Sum(streams: seq<Stream>, f: Stream -> int): int {
    if streams == [] then 0 else Sum(streams[..|streams| - 1], f) + f(streams[|streams| - 1])
  }

  lemma {:induction false} SumUpdate(streams: seq<Stream>, f: Stream -> int, i: nat, t: Stream)
    requires i < |streams|
    ensures Sum(streams[i := t], f) == Sum(streams, f) - f(streams[i]) + f(t)
    decreases |streams|
  {
    var n := |streams| - 1;
    if i == n {
      assert streams[i := t][..n] == streams[..n];
    } else {
      SumUpdate(streams[..n], f, i, t);
      assert streams[i := t][..n] == streams[..n][i := t];
    }
  }

  lemma SumAppend(streams: seq<Stream>, f: Stream -> int, t: Stream)
    ensures Sum(streams + [t], f) == Sum(streams, f) + f(t)
  {
    assert (streams + [t])[..|streams|] == streams;
  }

  lemma {:induction false} SumOfSums(streams: seq<Stream>, f: Stream -> int, g: Stream -> int, h: Stream -> int, k: Stream -> int)
    requires forall s :: s in streams ==> f(s) == g(s) + h(s) + k(s)
    ensures Sum(streams, f) == Sum(streams, g) + Sum(streams, h) + Sum(streams, k)
    decreases |streams|
  {
    if streams != [] {
      SumOfSums(streams[..|streams| - 1], f, g, h, k);
    }
  }

  const PUSHED: Stream -> int := (s: Stream) => s.pushed
  const PULLED: Stream -> int := (s: Stream) => s.pulled
  const DISCARDED: Stream -> int := (s: Stream) => s.discarded
  const LIVE: Stream -> int := (s: Stream) => StreamSend.Live(s)

  ghost predicate Inv(w: World) {
    && (forall s :: s in w.streams ==> StreamSend.Inv(s))
    && w.pushed == Sum(w.streams, PUSHED)
    && w.pulled == Sum(w.streams, PULLED)
    && w.discarded == Sum(w.streams, DISCARDED)
  }

  lemma StepsKeepInv(w: World, u: World, i: nat)
    requires Inv(w) && Steps(w, u, i)
    ensures Inv(u)
  {
    var s, t := w.streams[i], u.streams[i];
    var step :| StreamSend.Takes(s, step, t);
    StreamSend.StepKeepsInv(s, step);
    SumUpdate(w.streams, PUSHED, i, t);
    SumUpdate(w.streams, PULLED, i, t);
    SumUpdate(w.streams, DISCARDED, i, t);
  }

  lemma AppendedInv(streams: seq<Stream>, s: Stream)
    requires (forall x :: x in streams ==> StreamSend.Inv(x)) && StreamSend.Inv(s)
    ensures forall x :: x in streams + [s] ==> StreamSend.Inv(x)
  {
    forall x | x in streams + [s] ensures x in streams || x == s {
    }
  }

  lemma AppendedSums(streams: seq<Stream>, s: Stream)
    requires StreamSend.Init(s)
    ensures Sum(streams + [s], PUSHED) == Sum(streams, PUSHED)
    ensures Sum(streams + [s], PULLED) == Sum(streams, PULLED)
    ensures Sum(streams + [s], DISCARDED) == Sum(streams, DISCARDED)
  {
    SumAppend(streams, PUSHED, s);
    SumAppend(streams, PULLED, s);
    SumAppend(streams, DISCARDED, s);
  }

  lemma CreatesKeepsInv(w: World, u: World, s: Stream)
    requires Inv(w) && Creates(w, u, s)
    ensures Inv(u)
  {
    StreamSend.InitInv(s);
    AppendedInv(w.streams, s);
    AppendedSums(w.streams, s);
  }

  lemma ReachableInv(w: World)
    requires Reachable(w)
    ensures Inv(w)
  {
    forall w, u | Inv(w) && Next(w, u) ensures Inv(u) {
      if i :| Steps(w, u, i) {
        StepsKeepInv(w, u, i);
      } else {
        var s :| Creates(w, u, s);
        CreatesKeepsInv(w, u, s);
      }
    }
    Runs.InvariantHolds(Init, Next, Inv, w);
  }

  predicate Quiet(s: Stream) { s.worker.pc == StreamSend.KIdle && s.writer.pc == StreamSend.WIdle }

  /** aiopquic_tx_data_bytes_queued. */
  function Queued(w: World): int {
    if w.pushed > w.pulled + w.discarded then w.pushed - (w.pulled + w.discarded) else 0
  }

  /** Whatever was sent, pulled, abandoned or freed, the O(1) total is the number of bytes in the
      rings of the live streams. */
  lemma QueuedIsLive(w: World)
    requires Reachable(w) && forall s :: s in w.streams ==> Quiet(s)
    ensures w.pushed == w.pulled + w.discarded + Sum(w.streams, LIVE)
    ensures Queued(w) == Sum(w.streams, LIVE)
  {
    ReachableInv(w);
    SumOfSums(w.streams, PUSHED, PULLED, DISCARDED, LIVE);
    LiveNotNegative(w.streams);
  }

  lemma {:induction false} LiveNotNegative(streams: seq<Stream>)
    requires forall s :: s in streams ==> StreamSend.Inv(s)
    ensures Sum(streams, LIVE) >= 0
    decreases |streams|
  {
    if streams != [] {
      assert streams[|streams| - 1] in streams;
      LiveNotNegative(streams[..|streams| - 1]);
    }
  }
}

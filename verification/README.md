# aiopquic bridge: a Dafny model

aiopquic runs picoquic on a worker thread and asyncio on another. The two share lock-free rings,
edge-triggered wake flags and manually counted references. This project models that bridge and
proves what it is for: nothing is lost, reordered or delivered twice; no side is left parked with
work waiting; nothing is freed while it is named.

How the modules fit together:

- `Runs` defines runs of a step machine and the one induction used everywhere. Each protocol module
  has a `State`, a `Step`, one function per source function that moves a program counter by one
  atomic load, store, exchange or queue edit, an inductive invariant, and theorems about every
  reachable state. Interleaving is sequentially consistent: the order of atomic steps is the code's,
  fences are no-ops.
- `RxChannel`, `TxChannel`: the event rings with their wake protocols, both threads explicit.
- `StreamSend`, `TxLedger`, `DeferredResets`, `DatagramSend`, `StreamRecv`, `FlowControl`: one
  stream's or connection's data path on top of the rings.
- `StreamContexts`, `WtLinks`, `DatagramRings`: lifetimes. A ghost `fault` is set by any step that
  touches or drops something freed; the theorems show that it never is.
- `ByteRingThreads`: the byte ring's copies, byte by byte, under both threads.
- `EventQueue`, `Circular`, `ByteRing`, `RecordRing`, `DatagramTable`, `TransportTable`: classes over arrays with the
  source's loops, proved against sequences and maps. `Modulo` holds the arithmetic of wrapped
  counters; `Events` the ring entry.
- `CreateStream`, `Http3`, `WtErrorCode`: stream creation under cancellation, and two codecs.

Check it with `dafny verify dfyconfig.toml`.

Where the code and its own comments disagree, the model follows the code:

- `src/aiopquic/_binding/c/callback.h:2249` promises no credit once FIN arrived. A FIN that comes
  without bytes never sets the ring's FIN flag (`:1676-1678`, `:1744`), so a later credit event
  still grants. `FlowControl.LateCreditIff` says which credit events do, `FlowControl.CreditAfterEnd`
  says it with any steps in between, `FlowControl.CreditAfterBareFin` says which streams can get there.
- `src/aiopquic/_binding/c/callback.h:2228-2242` and `stream_ctx.h:57-76` want the grant to count what
  Python holds until its last view goes. `drain_rx` opens a view on every chunk at once
  (`src/aiopquic/_binding/_transport.pyx:2253`), and the first view takes the chunk off
  `bytes_pending_release` (`:870-890`, `:921-938`). So nothing is pending outside that statement and a
  credit event grants the whole free ring (`FlowControl.GrantIgnoresChunks`): what the application holds
  is unbounded on every stream that can receive a byte (`FlowControl.HeldUnboundedIff`). The bytes not yet
  taken off the counter do have a bound, twice the ring, because the pop precedes the add
  (`FlowControl.UnreleasedWithinRing`, `FlowControl.SplitPopOvergrants`,
  `FlowControl.UnreleasedBeyondRingIff`).
- `src/aiopquic/_binding/c/datagram_buf.h:73-78` promises room for a maximum-size record. The doubling is
  32-bit, so from 2^31 bytes on a ring can be too small: `RecordRing.CapacityHoldsARecord` has the exact
  condition.
- `src/aiopquic/_binding/c/callback.h:1150-1152` says the drained event fires below low water. The
  worker looks at the count before it takes the flag, so entries pushed in between can leave the ring
  above low water when the event is posted: `TxChannel.PostAboveLowWaterIff` says when, and
  `TxChannel.MayPostAboveLowWater` that every ring can be full by then.
- `src/aiopquic/_binding/c/stream_ctx.h:11-21` describes a `pending_destroy` flag; the code counts
  references (`:298-404`).
- `spsc_ring_take_data` zeroes an entry's length without taking it off `bytes_pending`, so the count
  stays up for good once a payload was taken: `EventQueue.EventQueue.PendingCountsRing`.
- The promise to a refused writer (`stream_ctx.h:348-351`) holds only while picoquic asks for the
  stream's data. An abandon leaves its drain flag set with nothing left to pull
  (`StreamSend.AbandonForgetsWriter`), and so does a FIN already given, behind which the source still
  takes writes (`StreamSend.FinForgetsWriter`). For such a writer no STREAM_TX_DRAINED is ever posted
  (`StreamSend.ForgottenForGood`); asyncio wakes it only when the stream or the connection goes
  (`src/aiopquic/quic/connection.py:519-532`, `:729-734`). Any other one can still be served:
  `StreamSend.ServedIffAttached`.

## Model

| member | source | states |
|---|---|---|
| RxChannel.DeliversInOrder | src/aiopquic/_binding/c/spsc_ring.h:563-644 | ring plus overflow are one FIFO queue: every entry comes out exactly once, in push order, equal up to the length field of payload-less ones |
| RxChannel.SingleTailOwner | src/aiopquic/_binding/c/spsc_ring.h:516-524 | a producer push and a consumer refill never both own the ring's tail |
| RxChannel.NodePresent | src/aiopquic/_binding/c/spsc_ring.h:615-630 | the overflow list is non-empty wherever the refill dereferences its head |
| RxChannel.NoLostWake | src/aiopquic/_binding/c/callback.h:1195-1287 | producer between pushes, consumer parked, ring or overflow non-empty: the wake fd is readable |
| RxChannel.PendingHasWake | src/aiopquic/_binding/c/callback.h:1187-1287 | a set rx_notify_pending has a readable fd, a write in progress, or a consumer between its read and its exchange |
| RxChannel.QuietMeansDelivered | src/aiopquic/_binding/c/litmus.h:263-292 | an unreadable fd with both sides at rest means everything pushed was delivered |
| EventQueue.EventQueue.constructor | src/aiopquic/_binding/c/spsc_ring.h:539-542 | an empty queue |
| EventQueue.EventQueue.Publish | src/aiopquic/_binding/c/spsc_ring.h:359-392 | the entry joins the ring behind the others and its payload is counted |
| EventQueue.EventQueue.Push | src/aiopquic/_binding/c/spsc_ring.h:563-609 | appends to the queue, in the ring exactly if nothing overflowed and there is room, with the length field the path leaves |
| EventQueue.EventQueue.Peek | src/aiopquic/_binding/c/spsc_ring.h:426-435 | the oldest entry, or that the ring is empty |
| EventQueue.EventQueue.TakeData | src/aiopquic/_binding/c/spsc_ring.h:478-483 | hands the payload out whole, leaves the entry without it, and keeps it in the byte count |
| EventQueue.EventQueue.Pop | src/aiopquic/_binding/c/spsc_ring.h:454-471 | removes exactly the oldest entry and uncounts a payload that is still there |
| EventQueue.EventQueue.Refill | src/aiopquic/_binding/c/spsc_ring.h:615-644 | moves overflow into the ring without changing the queue, until the ring is full or the overflow empty |
| EventQueue.EventQueue.PendingCountsRing | src/aiopquic/_binding/c/spsc_ring.h:454-483 | bytes_pending is the payload bytes in the ring exactly while no payload was taken out, never less |
| EventQueue.TakenPayloadStaysCounted | src/aiopquic/_binding/c/spsc_ring.h:459-483 | pushed, taken and popped, a payload comes out whole and stays counted |
| TxChannel.NeverSleepsOnWork | src/aiopquic/_binding/c/callback.h:836-855 | a worker blocked with TX entries queued has a wake posted or a producer still in its check |
| TxChannel.WaitingWriterKept | src/aiopquic/_binding/c/callback.h:966-973 | once the arm returned 1 the flag stays set until the event is about to be posted, and outside its drain the worker leaves it set only above low water |
| TxChannel.ParkedWriterIsServed | src/aiopquic/_binding/c/callback.h:1905-1952 | a parked ring writer and a sleeping worker never wait for each other |
| TxChannel.FiresAtLowWater | src/aiopquic/_binding/c/callback.h:1153-1185 | at most one event per arm, posted after a look at or below low water |
| TxChannel.PostAboveLowWaterIff | src/aiopquic/_binding/c/callback.h:1150-1185 | the event goes out above low water exactly if more was published since the look than the look left free below it |
| TxChannel.MayPostAboveLowWater | src/aiopquic/_binding/c/callback.h:1150-1185 | for every capacity and low water the ring can be full when the event goes out |
| TxChannel.SendIsAllOrNothing | src/aiopquic/_binding/_transport.pyx:2660-2752 | bytes are committed only if the MARK_ACTIVE push behind them cannot be refused |
| StreamSend.RefusedWriterKept | src/aiopquic/_binding/c/stream_ctx.h:348-351 | a refused writer's event is about to be posted, or the flag is set and the ring holds bytes or a look at the flag is to come; before a FIN was given picoquic will ask for the bytes, behind one they stay and the writer is forgotten |
| StreamSend.BytesAreScheduled | src/aiopquic/_binding/c/callback.h:2082-2108 | bytes or a FIN picoquic may be given find the stream active, a MARK_ACTIVE queued, or the writer before its push |
| StreamSend.WriteIsAllOrNothing | src/aiopquic/_binding/c/stream_ctx.h:533-575 | the ring was given exactly the bytes of the writes that returned 1 |
| StreamSend.FinWithFinalByte | src/aiopquic/_binding/c/callback.h:1463-1479 | FIN ends at or behind every byte written before it was set, and at the last byte if nothing was written after it |
| StreamSend.HeldResetKeepsItsBytes | src/aiopquic/_binding/c/stream_ctx.h:422-430 | while a reset is held no byte past its reliable size is handed over, no FIN is signalled, one reference is held |
| StreamSend.HeldResetSendsExactly | src/aiopquic/_binding/c/callback.h:497-601 | a held reset goes out after exactly min(requested, written) bytes and its reference is dropped once, however it ends |
| StreamSend.BytesConserved | src/aiopquic/_binding/c/stream_ctx.h:378-420 | pushed = pulled + discarded + bytes in the ring, also after an abandon, more pushes and the final free |
| StreamSend.ForgottenForGood | src/aiopquic/_binding/c/callback.h:1474-1522 | a refused writer on a stream that is detached or whose FIN was given, past the worker's last look, gets no drained event and no byte is pulled in any continuation |
| StreamSend.ServedIffAttached | src/aiopquic/_binding/c/stream_ctx.h:348-351 | some continuation serves a refused writer exactly if no reset or close has detached the stream and no FIN was given |
| StreamSend.AbandonForgetsWriter | src/aiopquic/_binding/c/stream_ctx.h:407-420 | an abandon can leave a refused writer so, flag set and ring empty, on every ring that takes a byte |
| StreamSend.FinForgetsWriter | src/aiopquic/_binding/c/stream_ctx.h:533-575 | a write refused behind a given FIN can leave a writer so, ring full and stream never reset, on every ring that takes a byte |
| TxLedger.QueuedIsLive | src/aiopquic/_binding/c/stream_ctx.h:154-196 | over any number of streams the O(1) queued total is the bytes in live TX rings |
| DeferredResets.DeferredResets.Defer | src/aiopquic/_binding/c/callback.h:583-601 | the record goes to the front with one reference and the stream's pending flag |
| DeferredResets.DeferredResets.Unlink | src/aiopquic/_binding/c/callback.h:521-540 | exactly one record goes, with its flag and its one reference |
| DeferredResets.DeferredResets.Run | src/aiopquic/_binding/c/callback.h:1857-1892 | what stays keeps its order; what is sent is exactly the ready records of live, open connections, once each |
| DeferredResets.DeferredResets.DropCnx | src/aiopquic/_binding/c/callback.h:528-540 | a closing connection's records go, all others stay in order |
| DatagramSend.RefusedSenderKept | src/aiopquic/_binding/c/datagram_buf.h:134-167 | a refused datagram sender is never forgotten; accepted = sent + queued, in order |
| DatagramSend.RecordIsScheduled | src/aiopquic/_binding/c/callback.h:1583-1624 | a committed record finds the path ready, or a MARK queued or owed |
| DatagramSend.PopFindsRecord | src/aiopquic/_binding/c/callback.h:1587-1602 | the worker pops only where a record is |
| StreamRecv.DeliversInOrder | src/aiopquic/_binding/c/callback.h:1676-1774 | the application gets a prefix of what arrived, in order, and end of stream only behind the last byte |
| StreamRecv.NoStrandedBytes | src/aiopquic/_binding/c/stream_ctx.h:495-511 | bytes in the RX ring have an event in flight or a side mid-step |
| StreamRecv.OneEventOutstanding | src/aiopquic/_binding/c/callback.h:1758-1774 | at most one STREAM_DATA event is outstanding and STREAM_FIN is the last event |
| FlowControl.LimitWithinRing | src/aiopquic/_binding/c/callback.h:2220-2281 | limit <= head + capacity in every interleaving, so no overflow |
| FlowControl.OverflowIffWindowTooLarge | src/aiopquic/_binding/c/callback.h:1709-1757 | a peer that honours its limit can overflow the ring exactly if the initial window is larger than it |
| FlowControl.UnreleasedWithinRing | src/aiopquic/_binding/c/stream_ctx.h:452-477 | bytes received and not yet taken off bytes_pending_release, and the limit beyond the taken ones, stay within twice the ring as the code has it, within the ring if pop and pending add are seen together |
| FlowControl.SplitPopOvergrants | src/aiopquic/_binding/_transport.pyx:2244-2258 | seen apart, twice the ring is reached with every window but 0 |
| FlowControl.UnreleasedBeyondRingIff | src/aiopquic/_binding/c/callback.h:2220-2267 | bytes not yet taken off bytes_pending_release can exceed the ring exactly if bytes can arrive and the two are seen apart or the window exceeds the ring |
| FlowControl.GrantIgnoresChunks | src/aiopquic/_binding/_transport.pyx:870-938 | outside a chunk's wrapping nothing is pending and a credit event grants all the ring it saw free, whatever chunks are alive |
| FlowControl.HeldUnboundedIff | src/aiopquic/_binding/_transport.pyx:2244-2258 | what live chunks hold is unbounded exactly on the streams that can receive a byte |
| FlowControl.CreditAfterEnd | src/aiopquic/_binding/c/callback.h:2248-2267 | after the end a credit event passes the FIN check exactly if the end came without bytes, and then grants exactly if the room it saw exceeds the pending bytes it loads |
| FlowControl.LateCreditIff | src/aiopquic/_binding/c/callback.h:2248-2267 | an uninterrupted credit event after the end grants exactly if the end came without bytes and free room exceeds pending bytes |
| FlowControl.NoCreditAfterFin | src/aiopquic/_binding/c/callback.h:2249-2267 | credit after the end is granted only if the end came without bytes |
| FlowControl.CreditAfterBareFin | src/aiopquic/_binding/c/callback.h:1676-1745 | it can be granted on exactly the streams that can receive a byte |
| StreamContexts.CountIsHolders | src/aiopquic/_binding/c/callback.h:880-940 | a context's reference count is its holders: the stream's reference, queued events and commands, chunks, credit notes, held resets |
| StreamContexts.FreedOnceUntouchedAfter | src/aiopquic/_binding/c/stream_ctx.h:298-404 | freed exactly once, when the last reference goes; no step touches it afterwards |
| StreamContexts.BatchIsLive | src/aiopquic/quic/connection.py:27-33 | every context a batch names is alive until the batch is released |
| StreamContexts.NamedIsLive | src/aiopquic/quic/connection.py:789-809 | what Python can write to, and what picoquic names before the close, is alive |
| StreamContexts.CloseDropsEveryStream | src/aiopquic/quic/connection.py:811-819 | once CLOSE is routed and its batch released no stream reference is left, second contexts on a stream included |
| StreamContexts.NothingLeaks | src/aiopquic/_binding/c/callback.h:1538-1565 | with queues, chunks, notes and held resets gone, every context ever made was freed once |
| WtLinks.ReleasedOnce | src/aiopquic/_binding/c/h3wt_callback.h:1762-1905 | each link is released at most once over the free, cleanup and deregister paths, and freed with the batch of its LINK_RELEASE |
| WtLinks.NoLinkLost | src/aiopquic/_binding/c/h3wt_callback.h:1220-1281 | a link is on its stream, in the middle of its pair, released, or leaked by the out-of-memory skip |
| WtLinks.ReleaseIsLast | src/aiopquic/_binding/c/h3wt_callback.h:529-576 | no event naming a link's context comes behind its LINK_RELEASE |
| WtLinks.EventNamesLive | src/aiopquic/_binding/_transport.pyx:2059-2077 | every context an unreleased event names is alive |
| WtLinks.StashedIsLive | src/aiopquic/asyncio/webtransport.py:1052-1148 | present in _stream_tx_ctxs means alive |
| DatagramRings.MarkNamesLiveRing | src/aiopquic/_binding/c/callback.h:2110-2127 | the worker never handles a MARK for a freed ring |
| DatagramRings.ListedRingIsLive | src/aiopquic/_binding/c/callback.h:1583-1590 | a ring the table hands out is alive, also under a reused cnx address |
| DatagramRings.FreedExactlyOnce | src/aiopquic/_binding/c/callback.h:1036-1132 | the count is Python's reference, wherever it is, plus the table's; a ring is freed once, exactly when both are gone, and never touched after |
| DatagramRings.ShutdownFreesAll | src/aiopquic/_binding/c/callback.h:1112-1132 | after the sweep every ring was freed, once |
| TransportTable.NewTable | src/aiopquic/_binding/c/datagram_buf.h:219-234 | a transport's table starts empty under the 32-bit pointer hash; its other members are proved for every hash function |
| DatagramTable.ProbeTells | src/aiopquic/_binding/c/datagram_buf.h:287-297 | a probe that meets the key finds its value, one that meets NULL proves the key absent |
| DatagramTable.ProbeStops | src/aiopquic/_binding/c/datagram_buf.h:266-275 | below full load no probe passes all slots |
| DatagramTable.LoadTestExact | src/aiopquic/_binding/c/datagram_buf.h:261 | up to 2^29 slots the 32-bit load test is the 70% load |
| DatagramTable.LoadTestHolds | src/aiopquic/_binding/c/datagram_buf.h:261 | at every size it keeps the load below 70%, wrapped products included |
| DatagramTable.Table.constructor | src/aiopquic/_binding/c/datagram_buf.h:220-226 | an empty map without slots |
| DatagramTable.FirstNull | src/aiopquic/_binding/c/datagram_buf.h:244-247 | the rehash probe ends at the first NULL from the key's home |
| DatagramTable.Table.Grow | src/aiopquic/_binding/c/datagram_buf.h:236-255 | the same map and references in twice the slots, without tombstones |
| DatagramTable.Table.Probe | src/aiopquic/_binding/c/datagram_buf.h:264-275 | ends at the key or at NULL with the first tombstone on the way |
| DatagramTable.Table.Get | src/aiopquic/_binding/c/datagram_buf.h:287-297 | the map's lookup |
| DatagramTable.Table.Put | src/aiopquic/_binding/c/datagram_buf.h:259-285 | inserts a new key with one reference on its ring; a present key keeps its ring |
| DatagramTable.Table.RemoveRing | src/aiopquic/_binding/c/datagram_buf.h:302-319 | removes the key and drops one reference exactly while it holds that ring, or any if none is given |
| DatagramTable.Table.Destroy | src/aiopquic/_binding/c/datagram_buf.h:327-337 | drops each live slot's reference once |
| ByteRing.FnvStep | src/aiopquic/_binding/c/stream_buf.h:49-56 | the FNV-1a hash of the bytes continued from h |
| ByteRing.FnvSplit | src/aiopquic/_binding/c/stream_buf.h:36-56 | hashing does not depend on how the bytes were cut |
| ByteRing.CeilPow2IsLeast | src/aiopquic/_binding/c/stream_buf.h:61-68 | the least power of two that holds n, capped at 1 << 31 |
| ByteRing.ByteRing.constructor | src/aiopquic/_binding/c/stream_buf.h:70-97 | an empty ring of the rounded capacity |
| ByteRing.ByteRing.Used | src/aiopquic/_binding/c/stream_buf.h:156-161 | the queued bytes, exact although the counters wrap at 2^64 and the result is cut to 32 bits |
| ByteRing.ByteRing.Push | src/aiopquic/_binding/c/stream_buf.h:107-129 | accepts what fits, in order, behind what is queued |
| ByteRing.ByteRing.Pop | src/aiopquic/_binding/c/stream_buf.h:132-153 | the oldest bytes in order, at most max |
| ByteRing.ByteRing.HashesAgree | src/aiopquic/_binding/c/stream_buf.h:26-47 | push and pop hash agree once both saw the same bytes |
| ByteRingThreads.RefinesQueue | src/aiopquic/_binding/c/stream_buf.h:107-153 | with both threads copying, in any order of bytes, what was popped is in order the first bytes published, and the ring holds the rest |
| ByteRingThreads.CopiesApart | src/aiopquic/_binding/c/stream_buf.h:107-153 | a slot being written is never one that is queued or being read |
| ByteRingThreads.PopReturnsOldest | src/aiopquic/_binding/c/stream_buf.h:132-153 | a pop returns the oldest published bytes, whatever was copied or published meanwhile |
| Circular.RingWrite | src/aiopquic/_binding/c/datagram_buf.h:112-120 | two copies append to what the circular buffer holds |
| Circular.RingRead | src/aiopquic/_binding/c/datagram_buf.h:122-130 | two copies read back what it holds |
| Modulo.WrappedDistance | src/aiopquic/_binding/c/stream_buf.h:156-161 | the 32-bit difference of wrapped 64-bit counters is the true distance |
| Modulo.WrappedSlot | src/aiopquic/_binding/c/stream_buf.h:114-118 | masking a wrapped counter gives the true slot |
| RecordRing.LengthOfHeader | src/aiopquic/_binding/c/datagram_buf.h:152-157 | the little-endian header reads back |
| RecordRing.CapacityHoldsARecord | src/aiopquic/_binding/c/datagram_buf.h:69-88 | for all 32-bit inputs: an empty ring holds a record of the maximum size exactly below 2^31 bytes with its header, or at 2^31 if that capacity was asked for; it holds two exactly up to 2^30 |
| RecordRing.MisfitIff | src/aiopquic/_binding/c/datagram_buf.h:136-153 | the 32-bit room test lets a record pass that does not fit exactly on rings whose maximum with its header reaches 2^32 |
| RecordRing.PeekTellsEmpty | src/aiopquic/_binding/c/datagram_buf.h:169-179 | a peek of 0 means empty throughout exactly if no empty record is queued |
| RecordRing.RecordRing.constructor | src/aiopquic/_binding/c/datagram_buf.h:69-94 | an empty ring of that capacity, for every 32-bit capacity and maximum |
| RecordRing.Create | src/aiopquic/_binding/c/datagram_buf.h:69-94 | no ring exactly for a maximum of 0 |
| RecordRing.RecordRing.Used | src/aiopquic/_binding/c/datagram_buf.h:193-197 | the bytes of the queued records with their headers |
| RecordRing.RecordRing.PushRecord | src/aiopquic/_binding/c/datagram_buf.h:134-167 | a record is queued whole exactly if it fits, an empty ring takes a record exactly if maximum and capacity allow it, a refusal changes only the drain flag |
| RecordRing.RecordRing.PeekLen | src/aiopquic/_binding/c/datagram_buf.h:170-179 | the length of the oldest record |
| RecordRing.RecordRing.PopInto | src/aiopquic/_binding/c/datagram_buf.h:183-191 | the oldest record, whole |
| CreateStream.RepliesPairInOrder | src/aiopquic/asyncio/webtransport.py:312-320 | while the session is open the deque is exactly the callers whose replies are to come, in order, cancelled ones included |
| CreateStream.OwnerIsRequester | src/aiopquic/asyncio/webtransport.py:1066-1076 | a caller gets the stream its own request made, of the kind it asked for, nobody else has it, it is never retired |
| CreateStream.OneReplyPerRequest | src/aiopquic/_binding/c/h3wt_callback.h:1568-1597 | every branch of the handler replies once, so replies and handled requests match one to one, each stream of the kind asked for; no future is left waiting behind its reply or a close |
| CreateStream.EveryStreamAccounted | src/aiopquic/asyncio/webtransport.py:333-365 | a stream is with one caller, retired by exactly one reset and, if bidirectional, one stop-sending, or left to teardown |
| Http3.DecodeVarint | qns/h3client.py:48-58 | the loop computes the value and the next position |
| Http3.EncodedVarint | qns/h3client.py:35-45 | a value encodes exactly below 2^62, and its encoding decodes to it and to its own length |
| Http3.VarintPrefix | qns/h3client.py:48-58 | no strict prefix of a varint decodes, and what follows does not matter |
| Http3.FrontFrameEncoded | qns/h3client.py:61-62 | an encoded frame is read back from the front of any buffer |
| Http3.Response.Feed | qns/h3client.py:104-120 | the in-place loop takes every complete frame off the buffer |
| Http3.ChunkIndependent | qns/h3client.py:104-120 | feeding a then b is feeding a + b in buffer, headers and body |
| Http3.ParserInvertsEncoder | qns/h3client.py:96-120 | any cut of encoded frames yields the first HEADERS and the joined DATA with nothing left over |
| WtErrorCode.EncodeThenDecode | src/aiopquic/_binding/c/h3wt_callback.h:72-75 | every 32-bit code maps to a non-reserved code of the range and back |
| WtErrorCode.DecodeThenEncode | src/aiopquic/_binding/c/h3wt_callback.h:79-86 | every non-reserved code of the range is such an image |
| WtErrorCode.DecodeMovesExactlyCarriers | src/aiopquic/_binding/c/h3wt_callback.h:77-86 | every other code passes through, and nothing else does |
| WtErrorCode.RoundTripExactly | src/aiopquic/_binding/c/h3wt_callback.h:65-86 | the round trip is the identity except on HTTP/3 codes that lie in the carrying range |

## Left out

- Weak memory: atomic steps keep their order, fences are no-ops, interleaving is sequentially consistent.
- picoquic and h3zero: adversaries under stated assumptions. They call nothing for a stream after releasing it, never hand a released stream back, pull no stream data from a disconnecting connection, dispatch nothing to a cleared path_callback, run a time check before every wait, deliver non-FIN stream data with at least one byte, give a buffer for a length they offered, ask a stream for data only while it is marked active or its last data callback reported more, and never behind its FIN, and, when a connection goes, free its streams before the next TX command is read.
- Allocation failures, except the paired skip of STREAM_DESTROY and LINK_RELEASE and a create request whose link cannot be had; a drain's failed copy buffer likewise.
- QuicConnection.stop(): lifetimes are proved for runs in which CLOSE is routed; dropping contexts after the worker was joined is not modelled.
- Restarting a transport after stop().
- StreamSend, FlowControl, StreamRecv, DatagramSend: ring contents are positions, byte sequences or lengths there; how they sit in slots is what ByteRing, ByteRingThreads and RecordRing prove.
- RxChannel, TxChannel, EventQueue, ByteRingThreads: 64-bit ring counters are unbounded; their wrap-around is proved once, in Modulo, ByteRing and RecordRing.
- RecordRing.RecordRing.PushRecord: takes no record on which the wrapped room test errs (RecordRing.MisfitIff); the source would write past its buffer. PushRecord and PopInto are sequential there; DatagramSend interleaves them.
- RecordRing.RecordRing.PopInto: takes the length its preceding peek returned, as every caller does.
- DatagramTable.Table.Put: takes every table but a full one of 2^31 slots, from which the source's 32-bit capacity would wrap to 0.
- DatagramRings: whether a record of a connection at a reused cnx address is scheduled; only lifetimes are proved there.
- StreamContexts: the drain's clear and pop are one step, and so are the worker's push, arm and event; the interleaving that leaves a STREAM_DATA without bytes is an explicit skip there, and StreamRecv has its single steps.
- TxChannel, StreamSend: Python's clear_tx_event_ring_drain_pending and clear_tx_data_drain_pending, by which a writer takes back its own arm (unsafe beside another waiter, as the first one's comment says), and the arm of a byte budget below a full ring.
- FlowControl: the ring's capacity and the size asked for are independent; the rounding between them is ByteRing.CeilPow2IsLeast.
- FlowControl: the hysteresis that thins out credit events; any credit event may occur at any time.
- WtLinks: chunk references on a link's context, which only keep it longer, and stream resets sent by the cleanup walk.
- CreateStream: a create request for a session pointer of NULL, which the source leaves unanswered; Python sends none.
- CreateStream: the wait for a drained TX ring before a request is submitted, and the byte budget gate.
- Diagnostic counters, timestamps, wake traces, environment flags (AIOPQUIC_FC_RAW off), priorities, congestion control, close deadlines, address formatting, header and protocol negotiation, and the asyncio plumbing around them.

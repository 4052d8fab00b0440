# Pulse outbound packet batching, modelled in Dafny

Pulse is a Paper-based Minecraft server fork. Its networking core does not
flush every packet as it is written. It routes each outbound packet in one
of three ways:

- an immediate send with flush;
- a write without flush, into the batch;
- the block-update queue, which is coalesced per chunk when the batch is flushed.

This project models that core as a functional state machine. Every state
is an immutable datatype, and every step is a pure function. The transport
is an append-only event log (`Transport.Wire`) holding three kinds of event:

- sends with and without flush;
- channel flushes;
- flush notices.

Every property below is stated over views of that log:

- `Queued` is the packets written without flush, in order;
- `Direct` is the packets sent with flush;
- `Flushes` is the number of channel flushes.

The modules follow the program's classes:

- `Packets`: the packet shapes, chunk keys (`x >> 4` as floor division by 16), and the name-based chat/critical tests.
- `Transport`: the connection as an event log plus pending bytes.
- `VirtualView`: `PulseVirtualView`, the per-connection overlay of virtual blocks with its 30-second protection window.
- `Coalescing`: the grouping of the block queue by chunk and the choice between one full-chunk packet and relaying the originals. It is shared by both buffer revisions.
- `PulseBuffer`: the current `PulseBuffer` (pulse-server). It covers `add`, `flush(reason)`, `handleBlockUpdate`, `processBlockQueue`, `queuePacketToNetty` and `restoreVirtualBlocks`. The nested flush that `queuePacketToNetty` can trigger in the middle of coalescing is modelled by mutual recursion.
- `LegacyBuffer`: the older `PulseBuffer` (paper-server). It classifies packets by resolved class sets, and under `BatchingMode.STRICT_TICK` it takes no flush from inside `add`.
- `Metrics` and `LegacyMetrics`: the periodic sampling task of `Metrics.start` and `PulseMetrics.start`, over `real` and `int`.
- `Settings`: `ConfigManager.Setting` (`validateType`, `validate`, `warn`, the report helpers, the mode parser) and the statement chain of `ConfigManager.load`.
- `VersionCheck` and `JavaInt`: `PaperVersionFetcher.extractId` and the classification in `fetchPulseVersion`, with Java's 32-bit `int` made explicit.

The model takes the following as inputs:

- the world and the engine: the encoded size of each packet, whether a block packet differs from the world, loaded chunks, event-listener decisions, the primary-thread flag and the wall clock;
- the HTTP fetch results;
- the parsed YAML document.

### Behaviour worth knowing

- The flush at the end of a server tick comes from outside the buffer, as a call to `flush`.
- In the older revision, under STRICT_TICK, `add` never flushes on the count limit: the count only grows (`LegacyBuffer.StrictAccumulates`).
- `unregisterBlock` does not touch the chunk's timestamp, so protection outlives the block (`VirtualView.UnregisterKeepsProtection`).
- A full-chunk packet produced by coalescing goes through `queuePacketToNetty`, not `add`, so no virtual-block corrections follow it. Once protection has lapsed, a chunk that still has virtual blocks can be overwritten on the client (`PulseBuffer.StaleOverlayIsOverwritten`).
- A non-Integer number (e.g. `2.5`) under an int key makes the unchecked cast in `load` throw. `load` then stops, appends the critical line and returns true, and the fields it has not yet reached keep their previous values (`Settings.Load`).
- The byte guard `maxBatchBytes - safetyMargin` is computed in 32-bit `int`, and `safety-margin-bytes` is not validated, so a large negative margin wraps the guard below zero (`PulseBuffer.WrappedGuardFlushesEveryPacket`).
- The static initialiser of `maxBatchBytes` is 1460, but `load` assigns 32000 when the key is absent (`Settings.Initial` versus `Settings.Defaults`).
- The ping packet is critical in the older revision's class set. The current revision's name test ("KeepAlive", "Disconnect", "Login", "Handshake", "Status") does not match it (`LegacyBuffer.PingLostCriticality`).

## Model

| member | source | states |
|---|---|---|
| PulseBuffer.RouteOf | pulse-server/src/main/java/dev/pulsemc/pulse/network/PulseBuffer.java:44-112 | A full-chunk packet is restored before any other check. Ignored, off-thread, chat-named, disabled and pre-game packets bypass. A cancelled send event drops the packet. Force-immediate wins over every other route. Block updates go to block handling only with explosions on and optimisation allowed. A batched packet is neither critical nor instant-listed, and the instant list is matched on the name as it arrived. |
| PulseBuffer.Add | pulse-server/src/main/java/dev/pulsemc/pulse/network/PulseBuffer.java:49-53 | A full-chunk packet is sent with flush and then followed by the corrections for its chunk. Nothing else in the buffer changes, and nothing is counted. |
| PulseBuffer.AddCountsLogical | pulse-server/src/main/java/dev/pulsemc/pulse/network/PulseBuffer.java:55-84 | `logicalCounter` rises by exactly one for every packet that is neither a restored chunk nor bypassed, cancelled ones included. Otherwise it is unchanged. |
| PulseBuffer.AddRoutes | pulse-server/src/main/java/dev/pulsemc/pulse/network/PulseBuffer.java:56-111 | A bypassed packet is one flushing send and nothing else. A cancelled packet only counts and reaches no transport call. An instant or critical packet first flushes everything, the drained block queue included, and is then the only new direct send. |
| PulseBuffer.AddCountBound | pulse-server/src/main/java/dev/pulsemc/pulse/network/PulseBuffer.java:114-125 | After `add` the buffered count is unchanged, zero, or below `maxBatchSize`. |
| PulseBuffer.AddKeepsQueueShaped | pulse-server/src/main/java/dev/pulsemc/pulse/network/PulseBuffer.java:99-103 | The block queue only ever holds block-update packets. |
| PulseBuffer.SendInstant | pulse-server/src/main/java/dev/pulsemc/pulse/network/PulseBuffer.java:106-111 | `flush(INSTANT)` runs first: count, queue and pending bytes all end at zero, and the queue's resolution is written. The packet is then the last event, sent with flush, and the physical count rises. |
| PulseBuffer.Batch | pulse-server/src/main/java/dev/pulsemc/pulse/network/PulseBuffer.java:114-125 | Pending bytes above the byte guard flush before the write, and the write is unflushed. The guard is `maxBatchBytes - safetyMargin` computed in 32-bit `int`, so it wraps. The count afterwards is 0 or below the batch size. Below both limits the step is exactly one unflushed write and one more count. |
| PulseBuffer.WrappedGuardFlushesEveryPacket | pulse-server/src/main/java/dev/pulsemc/pulse/network/PulseBuffer.java:115 | With `maxBatchBytes` 32000 and a safety margin of -2147483000, the guard wraps to -2147452296. Every batched packet then flushes for the byte limit before it is written, even on an idle connection. |
| PulseBuffer.BatchStep | pulse-server/src/main/java/dev/pulsemc/pulse/network/PulseBuffer.java:119-125 | Below the byte guard one batched packet is written in order. The channel is flushed exactly when the incremented count reaches the batch size, and the count then drops to 0. |
| PulseBuffer.FlushAtCount | pulse-server/src/main/java/dev/pulsemc/pulse/network/PulseBuffer.java:139-159 | A count-limit flush with a positive count and an empty queue flushes the channel exactly once and resets count and pending bytes. It writes nothing new. |
| PulseBuffer.CountLimitFlushes | pulse-server/src/main/java/dev/pulsemc/pulse/network/PulseBuffer.java:119-125 | Over a run of batched packets below the byte guard, every packet is written in order. The flushes and the remaining count are exactly those the count limit dictates. |
| PulseBuffer.BatchAllQueued | pulse-server/src/main/java/dev/pulsemc/pulse/network/PulseBuffer.java:119-120 | A run of batched packets is written unflushed in call order, and the block queue stays empty. |
| PulseBuffer.BatchAllCount | pulse-server/src/main/java/dev/pulsemc/pulse/network/PulseBuffer.java:122-125 | The count after a run is the count-limit remainder of the packets. |
| PulseBuffer.BatchAllFlushes | pulse-server/src/main/java/dev/pulsemc/pulse/network/PulseBuffer.java:122-125 | The channel flushes over a run are exactly the count-limit flushes. |
| PulseBuffer.Counting | pulse-server/src/main/java/dev/pulsemc/pulse/network/PulseBuffer.java:123-125 | Count-limit flushes times `maxBatchSize`, plus the remaining count, equals every packet counted. The remainder stays below the batch size. |
| PulseBuffer.ElevenPacketsOneFlush | pulse-server/src/main/java/dev/pulsemc/pulse/network/PulseBuffer.java:123-125 | With a batch size of 10, eleven ordinary packets cause exactly one flush and leave one packet buffered. |
| PulseBuffer.Flush | pulse-server/src/main/java/dev/pulsemc/pulse/network/PulseBuffer.java:134-160 | The block queue is drained first and its resolution written unflushed. Count, queue and pending bytes end at zero, and no direct send happens. `physicalCounter` rises by exactly the number of channel flushes. `optimizedChunks` rises by the number of coalesced chunks. |
| PulseBuffer.FlushWire | pulse-server/src/main/java/dev/pulsemc/pulse/network/PulseBuffer.java:139-159 | With count and pending both 0 nothing changes. Otherwise: pending bytes are added to `totalBytesSent`; the channel is flushed once, as the last event; count and pending are reset; and `physicalCounter` rises by one. |
| PulseBuffer.IdleFlushIsNoOp | pulse-server/src/main/java/dev/pulsemc/pulse/network/PulseBuffer.java:142 | A flush with nothing buffered, queued or pending returns the buffer unchanged: no event, no counter change, no channel flush. |
| PulseBuffer.Announce | pulse-server/src/main/java/dev/pulsemc/pulse/network/PulseBuffer.java:144-151 | The flush event, carrying reason, count and pending bytes, is logged exactly when the listener is in game, has a player and flush listeners are registered. It never writes or flushes a packet. |
| PulseBuffer.ProcessBlockQueue | pulse-server/src/main/java/dev/pulsemc/pulse/network/PulseBuffer.java:228-251 | Empties the queue and writes its resolution: the queue as is without an in-game player, the coalescing plan otherwise. `optimizedChunks` rises by the coalesced chunks, `physicalCounter` by the channel flushes, and nothing is sent directly. |
| PulseBuffer.CoalesceGroups | pulse-server/src/main/java/dev/pulsemc/pulse/network/PulseBuffer.java:253-295 | Writes each chunk group's output in group order. `optimizedChunks` rises by the number of qualifying groups. |
| PulseBuffer.Group | pulse-server/src/main/java/dev/pulsemc/pulse/network/PulseBuffer.java:256-294 | A group that reaches the threshold, is unprotected and loaded, and is not vetoed becomes one full-chunk packet without a listener and counts one optimised chunk. Every other group relays its members with their own listeners. |
| PulseBuffer.RelayAll | pulse-server/src/main/java/dev/pulsemc/pulse/network/PulseBuffer.java:234-236 | Relays the entries unflushed in order, each with its own listener. |
| PulseBuffer.Relay | pulse-server/src/main/java/dev/pulsemc/pulse/network/PulseBuffer.java:304-311 | `queuePacketToNetty`: the packet is written unflushed with its listener, nothing is sent directly, and only channel flushes may follow. The count afterwards is 0 or below the batch size. The byte guard is the same wrapped 32-bit difference as in `add`. |
| PulseBuffer.HandleBlockUpdate | pulse-server/src/main/java/dev/pulsemc/pulse/network/PulseBuffer.java:190-202 | A real update joins the block queue and nothing else changes. A fake update, or any update in manual fake mode, is relayed at once. A fake single-block update is first registered in the overlay, which protects its chunk. |
| PulseBuffer.Corrections | pulse-server/src/main/java/dev/pulsemc/pulse/network/PulseBuffer.java:324-333 | No virtual blocks means no corrections. Otherwise there is exactly one flushing single-block update per virtual block, with its registered state and no listener, and every virtual block of the chunk is among them. |
| PulseBuffer.RestoreWire | pulse-server/src/main/java/dev/pulsemc/pulse/network/PulseBuffer.java:49-52 | The full-chunk packet is sent with flush, then the chunk's corrections follow, and nothing stays pending. |
| PulseBuffer.FakeBlockIsRestored | pulse-server/src/main/java/dev/pulsemc/pulse/network/PulseBuffer.java:190-199 | After a fake single-block update, the next full-chunk packet given to `add` for that chunk is followed by a correction re-sending that block. |
| PulseBuffer.ProtectedChunkIsRelayed | pulse-server/src/main/java/dev/pulsemc/pulse/network/PulseBuffer.java:258-262 | A queued update in a protected chunk is relayed itself, and no full-chunk packet is produced for its chunk. |
| PulseBuffer.StaleOverlayIsOverwritten | pulse-server/src/main/java/dev/pulsemc/pulse/network/PulseBuffer.java:282-285 | After protection lapses, a qualifying chunk that still holds virtual blocks is coalesced into a full-chunk packet, and the flush sends no direct correction. |
| LegacyBuffer.RouteOf | paper-server/src/main/java/dev/pulsemc/network/PulseBuffer.java:129-184 | A packet bypasses exactly when the engine is disabled, its class is ignored or chat, the send is off-thread, or the listener is not in game. A cancelled event drops it. Explosions on plus a single-block or section update (the replaced packet) routes to the block queue. Otherwise the replaced packet's class decides immediate (critical or instant) versus batched. |
| LegacyBuffer.Add | paper-server/src/main/java/dev/pulsemc/network/PulseBuffer.java:129-165 | A bypassed packet is one flushing send and nothing else. A cancelled packet is only counted. |
| LegacyBuffer.AddCountsLogical | paper-server/src/main/java/dev/pulsemc/network/PulseBuffer.java:132-157 | `logicalCounter` rises by one exactly for the packets that are not bypassed. |
| LegacyBuffer.AddRoutes | paper-server/src/main/java/dev/pulsemc/network/PulseBuffer.java:171-184 | A coalescible update only joins the block queue and is counted. A critical or instant packet becomes the one new direct send. Outside STRICT_TICK it first flushes everything, block queue included. |
| LegacyBuffer.AddUnderStrictTick | paper-server/src/main/java/dev/pulsemc/network/PulseBuffer.java:177-206 | Under STRICT_TICK `add` never flushes the channel. Count, block queue and unflushed writes only grow. |
| LegacyBuffer.AddCountBound | paper-server/src/main/java/dev/pulsemc/network/PulseBuffer.java:186-206 | Outside STRICT_TICK the count after `add` is unchanged, zero, or below `maxBatchSize`. |
| LegacyBuffer.Batch | paper-server/src/main/java/dev/pulsemc/network/PulseBuffer.java:186-206 | Under STRICT_TICK the step is exactly one unflushed write and one more count. Otherwise pending bytes above the wrapped 32-bit `maxBatchBytes - safetyMargin` flush before the write, the write is unflushed, and the count afterwards is 0 or below the batch size. |
| LegacyBuffer.StrictAccumulates | paper-server/src/main/java/dev/pulsemc/network/PulseBuffer.java:198-206 | Under STRICT_TICK a run of batched packets never flushes. The count grows by one per packet, past any batch size, and every packet is written in order. |
| LegacyBuffer.Flush | paper-server/src/main/java/dev/pulsemc/network/PulseBuffer.java:212-228 | Drains and resolves the block queue. Count, queue and pending end at zero, and no direct send happens. `physicalCounter` rises by exactly the number of channel flushes. |
| LegacyBuffer.ProcessBlockQueue | paper-server/src/main/java/dev/pulsemc/network/PulseBuffer.java:254-277 | Empties the queue and writes its resolution: the queue as is without an in-game player, the coalescing plan otherwise. `optimizedChunks` rises by the coalesced chunks, and nothing is sent directly. |
| LegacyBuffer.CoalesceGroups | paper-server/src/main/java/dev/pulsemc/network/PulseBuffer.java:279-300 | Writes each chunk group's output in group order. `optimizedChunks` rises by the number of qualifying groups. |
| LegacyBuffer.Group | paper-server/src/main/java/dev/pulsemc/network/PulseBuffer.java:282-299 | A group that reaches the threshold and is loaded becomes one full-chunk packet. There is no protection or event check. Every other group is relayed. |
| LegacyBuffer.RelayAll | paper-server/src/main/java/dev/pulsemc/network/PulseBuffer.java:260-263 | Relays the entries unflushed in order, each with its own listener. |
| LegacyBuffer.Relay | paper-server/src/main/java/dev/pulsemc/network/PulseBuffer.java:308-320 | The packet is always written unflushed with its listener, nothing is sent directly, and only channel flushes may follow. Outside STRICT_TICK the byte guard is the wrapped 32-bit difference, and the count afterwards is 0 or below the batch size. |
| LegacyBuffer.RelayUnderStrictTick | paper-server/src/main/java/dev/pulsemc/network/PulseBuffer.java:308-320 | Under STRICT_TICK `queuePacketToNetty` is exactly one unflushed write and one more count, with no flush whatever the pending bytes or the count. |
| LegacyBuffer.CurrentCoalescesNoMore | paper-server/src/main/java/dev/pulsemc/network/PulseBuffer.java:284-289 | For the same queue, threshold and loaded chunks, the current revision coalesces no more chunks than the older one. |
| LegacyBuffer.PingLostCriticality | paper-server/src/main/java/dev/pulsemc/network/PulseBuffer.java:87-92 | `ClientboundPingPacket` is in the older critical class set, but the current name test does not classify it as critical. |
| Packets.ChunkCoord | pulse-server/src/main/java/dev/pulsemc/pulse/network/PulseVirtualView.java:16 | `c >> 4` is the chunk coordinate `r` with `16r <= c < 16r + 16`, for negative coordinates too. |
| Packets.HasInfixIsSlice | pulse-server/src/main/java/dev/pulsemc/pulse/network/PulseBuffer.java:166-169 | The name test `contains` holds exactly when the word occurs in the name at some offset. |
| Packets.NotCriticalWithoutCapitals | pulse-server/src/main/java/dev/pulsemc/pulse/network/PulseBuffer.java:172-177 | A name with none of the capitals K, D, L, H, S is not critical. |
| VirtualView.Register | pulse-server/src/main/java/dev/pulsemc/pulse/network/PulseVirtualView.java:15-19 | `getBlock(pos)` then yields the new state, and every other position reads as before. The chunk's timestamp becomes `now`. |
| VirtualView.Unregister | pulse-server/src/main/java/dev/pulsemc/pulse/network/PulseVirtualView.java:21-28 | Only `pos` is removed. Timestamps are untouched, and a chunk without an entry is left unchanged. |
| VirtualView.UnregisterLastDropsChunk | pulse-server/src/main/java/dev/pulsemc/pulse/network/PulseVirtualView.java:26 | Removing a chunk's last block removes its entry, so `getBlocksInChunk` returns none. |
| VirtualView.UnregisterKeepsProtection | pulse-server/src/main/java/dev/pulsemc/pulse/network/PulseVirtualView.java:21-28 | Unregistering never changes whether any chunk is protected. |
| VirtualView.RegisterTwice | pulse-server/src/main/java/dev/pulsemc/pulse/network/PulseVirtualView.java:17-18 | Registering a position twice equals registering only the later state at the later time. |
| VirtualView.BlocksInChunkExact | pulse-server/src/main/java/dev/pulsemc/pulse/network/PulseVirtualView.java:30-32 | A chunk's entry holds exactly the registered positions whose floor-divided coordinates are that chunk, with their registered states. A chunk without an entry has none. |
| VirtualView.RegisterProtects | pulse-server/src/main/java/dev/pulsemc/pulse/network/PulseVirtualView.java:34-37 | After a registration at time `t`, the chunk is protected at `now` exactly when `now - t < 30000` (strict). |
| VirtualView.Clear | pulse-server/src/main/java/dev/pulsemc/pulse/network/PulseVirtualView.java:39-42 | Afterwards no position has a virtual block and no chunk is protected at any time. |
| VirtualView.Sorted | pulse-server/src/main/java/dev/pulsemc/pulse/network/PulseBuffer.java:325-332 | The order in which a chunk's virtual blocks are resent lists every virtual position exactly once. |
| Coalescing.MembersExact | pulse-server/src/main/java/dev/pulsemc/pulse/network/PulseBuffer.java:242-244 | An entry is in a chunk's group exactly when it is queued and its chunk key is that chunk. |
| Coalescing.KeysExact | pulse-server/src/main/java/dev/pulsemc/pulse/network/PulseBuffer.java:239-253 | The groups iterated are exactly the chunks that occur in the queue, each once. |
| Coalescing.GroupingIsPermutation | pulse-server/src/main/java/dev/pulsemc/pulse/network/PulseBuffer.java:239-251 | Concatenating the groups is a permutation of the queue: nothing is lost or duplicated. |
| Coalescing.SingleBlockChanges | pulse-server/src/main/java/dev/pulsemc/pulse/network/PulseBuffer.java:246-250 | `n` single-block updates in one chunk sum to `n` changes. |
| Coalescing.PlanForMembership | pulse-server/src/main/java/dev/pulsemc/pulse/network/PulseBuffer.java:253-295 | An original update is in the output of the given groups exactly when it is queued, its chunk is among them, and that chunk does not qualify. |
| Coalescing.PlanRelaysUnqualified | pulse-server/src/main/java/dev/pulsemc/pulse/network/PulseBuffer.java:287-293 | A queued update survives coalescing, with its own listener, exactly when its chunk does not qualify. |
| Coalescing.PlanSnapshotIff | pulse-server/src/main/java/dev/pulsemc/pulse/network/PulseBuffer.java:282-285 | A full-chunk packet is produced for a chunk exactly when the chunk occurs in the queue and qualifies. |
| Coalescing.SnapshotsCountQualified | pulse-server/src/main/java/dev/pulsemc/pulse/network/PulseBuffer.java:282-285 | The output holds exactly one full-chunk packet per qualifying group, the number `optimizedChunks` rises by. |
| Coalescing.BurstCollapses | pulse-server/src/main/java/dev/pulsemc/pulse/network/PulseBuffer.java:258-285 | A burst confined to one qualifying chunk becomes exactly one full-chunk packet, counted once. |
| Coalescing.BurstRelayed | pulse-server/src/main/java/dev/pulsemc/pulse/network/PulseBuffer.java:292-294 | A one-chunk burst that does not qualify is relayed unchanged and in order. Nothing is counted. |
| Coalescing.QualifiedMonotone | paper-server/src/main/java/dev/pulsemc/network/PulseBuffer.java:284-289 | A stricter qualification never coalesces more groups. |
| Metrics.StartInterval | pulse-server/src/main/java/dev/pulsemc/pulse/metrics/Metrics.java:46 | The sampling interval is the configured one when it is at least 1, else 1. |
| Metrics.Tick | pulse-server/src/main/java/dev/pulsemc/pulse/metrics/Metrics.java:48-91 | Disabled means nothing changes and no event. Otherwise:<br>- rates times the interval are the counter deltas;<br>- bandwidth times 1024 times the interval is the byte delta;<br>- the snapshots become the counters;<br>- `vanillaCpuEst >= cpuUsage`, with equality unless more logical than physical packets were seen, in which case the excess is the avoided sends per second times 8.5/10000;<br>- `totalSavedSyscalls` never decreases and rises by the avoided sends;<br>- `savedAllocationsBytes` moves by the avoided sends times 512, falling when the difference is negative;<br>- the metric event is raised exactly when listeners exist, with non-negative savings. |
| Metrics.Sample | pulse-server/src/main/java/dev/pulsemc/pulse/metrics/Metrics.java:51-77 | The enabled part of the tick: the same rate, snapshot, estimate and running-total relations. |
| Metrics.Rate | pulse-server/src/main/java/dev/pulsemc/pulse/metrics/Metrics.java:56-57 | A rate times the interval is the delta. |
| Metrics.VanillaEstimate | pulse-server/src/main/java/dev/pulsemc/pulse/metrics/Metrics.java:67-75 | The estimate is at least the measured usage. It equals the usage when nothing was saved, and is otherwise the usage plus savings times 8.5/10000. |
| Metrics.SavedTimesInterval | pulse-server/src/main/java/dev/pulsemc/pulse/metrics/Metrics.java:67-69 | The rate difference times the interval is the number of avoided sends. |
| Metrics.Trunc | pulse-server/src/main/java/dev/pulsemc/pulse/metrics/Metrics.java:69 | The `(long)` cast truncates toward zero. |
| Metrics.NextTickSeesOnlyNewIncrements | pulse-server/src/main/java/dev/pulsemc/pulse/metrics/Metrics.java:61-63 | After one tick, the next tick's rates measure only the increments made in between. |
| Metrics.AllocationsCanFall | pulse-server/src/main/java/dev/pulsemc/pulse/metrics/Metrics.java:77 | When more packets are flushed than produced, `savedAllocationsBytes` falls. |
| LegacyMetrics.Tick | paper-server/src/main/java/dev/pulsemc/network/PulseMetrics.java:41-76 | Disabled means nothing changes. Otherwise the rates, bandwidth, snapshots, `vanillaCpuEst >= cpuUsage` (equal when nothing was saved) and the allocation formula hold as in the current tick, for the interval read on each run. `totalSavedSyscalls` never decreases and rises by the avoided sends. |
| LegacyMetrics.AgreesWithCurrent | paper-server/src/main/java/dev/pulsemc/network/PulseMetrics.java:41-76 | For every interval the configuration can hold (at least 1), the older sample equals the current one. |
| Settings.ReportError | paper-server/src/main/java/dev/pulsemc/config/ConfigManager.java:219-224 | Appends exactly four lines: the path, the offending value, the reason with the default, and a spacer. Nothing else changes. |
| Settings.ReportWarning | paper-server/src/main/java/dev/pulsemc/config/ConfigManager.java:226-231 | Appends exactly four lines: the path, the risky value, the message, and a spacer. Nothing else changes. |
| Settings.ValidateType | paper-server/src/main/java/dev/pulsemc/config/ConfigManager.java:163-175 | An absent value, a value of the expected class, or any number for Integer leaves the setting unchanged. Any other present value resets it to the default, sets the error flag and reports a type error. |
| Settings.Validate | paper-server/src/main/java/dev/pulsemc/config/ConfigManager.java:177-185 | Skipped after an error. A passing Integer keeps the setting. A failing one resets to the default, sets the flag and reports. A non-Integer value fails the cast. |
| Settings.Warn | paper-server/src/main/java/dev/pulsemc/config/ConfigManager.java:187-193 | Never changes the value. It is skipped after an error, and four warning lines are appended exactly when the predicate fails. |
| Settings.GetInt | paper-server/src/main/java/dev/pulsemc/config/ConfigManager.java:215-217 | Assigning `get()` to an int field succeeds exactly for an Integer value, and yields that value. |
| Settings.IntSetting | paper-server/src/main/java/dev/pulsemc/config/ConfigManager.java:98-102 | An int key's chain throws exactly when the key holds a non-Integer number. When the default meets the rule, so does the result. An Integer meeting the rule's minimum is taken as is. A non-number yields the default plus one four-line error. |
| Settings.BoolSetting | paper-server/src/main/java/dev/pulsemc/config/ConfigManager.java:66-68 | The result is the document's Boolean if there is one, else the default. A present non-Boolean adds exactly one four-line error. |
| Settings.Upper | paper-server/src/main/java/dev/pulsemc/config/ConfigManager.java:86 | Upper-casing maps each character to its upper case and keeps the length. |
| Settings.ParseMode | paper-server/src/main/java/dev/pulsemc/config/ConfigManager.java:83-91 | Text whose upper case names a mode yields that mode. Any other text or value yields SMART_EXECUTION. |
| Settings.ParseModeIgnoresCase | paper-server/src/main/java/dev/pulsemc/config/ConfigManager.java:86 | The mode text is read case-insensitively. |
| Settings.ParseModeName | paper-server/src/main/java/dev/pulsemc/config/ConfigManager.java:83-91 | Every mode's name, in upper or lower case, reads back as that mode. |
| Settings.IntDefault | paper-server/src/main/java/dev/pulsemc/config/ConfigManager.java:93-131 | Every default `load` passes meets its key's minimum and warning ceiling. |
| Settings.Written | paper-server/src/main/java/dev/pulsemc/config/ConfigManager.java:66-138 | A statement writes only its own field. An int key writes its chain's result. The instant list is never left empty. Native transport is forced off. |
| Settings.Reported | paper-server/src/main/java/dev/pulsemc/config/ConfigManager.java:66-138 | Each statement leaves the report as it was or adds one four-line entry, never the critical line. |
| Settings.StepOnce | paper-server/src/main/java/dev/pulsemc/config/ConfigManager.java:59-146 | A statement throws exactly when its int key holds a non-Integer number. The catch keeps the fields written so far and appends only the critical line. A crashed load runs no further statements. |
| Settings.Load | paper-server/src/main/java/dev/pulsemc/config/ConfigManager.java:56-147 | `load` returns true exactly when its freshly cleared report is non-empty. The critical line is reported exactly when an int key holds a non-Integer number, and the report length is then 1 mod 4, otherwise 0 mod 4. Without such a number: flush interval >= 1, batch size >= 1, batch bytes >= 512, metrics interval >= 1, a non-empty instant list and native transport off, whatever the document says. An empty file loads exactly the documented defaults (batch bytes 32000, the two damage packets as instant), reports nothing and returns false. |
| Settings.RunCrashes | paper-server/src/main/java/dev/pulsemc/config/ConfigManager.java:142-146 | A run ends in the catch block exactly when one of its int keys holds a non-Integer number. |
| Settings.RunCritical | paper-server/src/main/java/dev/pulsemc/config/ConfigManager.java:142-146 | The critical line is in the report exactly when the run crashed. |
| Settings.RunLength | paper-server/src/main/java/dev/pulsemc/config/ConfigManager.java:219-231 | The report is four-line entries, plus the single critical line when the run crashed. |
| Settings.IntFieldMeetsRule | paper-server/src/main/java/dev/pulsemc/config/ConfigManager.java:93-132 | Once its statement has run without a crash, an int field meets its validated minimum. |
| Settings.InstantListSettled | paper-server/src/main/java/dev/pulsemc/config/ConfigManager.java:114-115 | After its statement, the instant list is never empty, and native transport stays off. |
| Settings.LoadCrashIff | paper-server/src/main/java/dev/pulsemc/config/ConfigManager.java:142-146 | The whole chain, from a cleared report, reports the critical line exactly when an int key holds a non-Integer number, and its report length is then 1 mod 4, otherwise 0 mod 4. |
| Settings.ChainValid | paper-server/src/main/java/dev/pulsemc/config/ConfigManager.java:93-132 | A load that does not crash leaves flush interval >= 1, batch size > 0, batch bytes >= 512, metrics interval >= 1, a non-empty instant list and native transport off. |
| Settings.LoadedValuesValid | paper-server/src/main/java/dev/pulsemc/config/ConfigManager.java:93-132 | Unless an int key holds a non-Integer number, the whole chain leaves every validated int field within its bound, the instant list non-empty and native transport off. |
| Settings.RunEmptyDoc | paper-server/src/main/java/dev/pulsemc/config/ConfigManager.java:66-138 | With every key absent, each statement assigns its default and reports nothing. |
| Settings.LoadEmptyDefaults | paper-server/src/main/java/dev/pulsemc/config/ConfigManager.java:56-140 | On an empty file the whole chain assigns exactly the documented defaults, whatever was loaded before, and reports nothing. |
| JavaInt.Wrap | paper-server/src/main/java/com/destroystokyo/paper/PaperVersionFetcher.java:180 | Java int arithmetic yields the int congruent to the exact result modulo 2^32. An in-range result is unchanged. |
| VersionCheck.ParseDecimal | paper-server/src/main/java/com/destroystokyo/paper/PaperVersionFetcher.java:196 | `Integer.parseInt` reads every int's decimal text back to that int. |
| VersionCheck.ParseRejectsOutOfRange | paper-server/src/main/java/com/destroystokyo/paper/PaperVersionFetcher.java:196 | Decimal text of a value outside the int range is a NumberFormatException. |
| VersionCheck.AsString | paper-server/src/main/java/com/destroystokyo/paper/PaperVersionFetcher.java:196 | `getAsString` never raises a NumberFormatException. |
| VersionCheck.AsInt | paper-server/src/main/java/com/destroystokyo/paper/PaperVersionFetcher.java:198-200 | A number keeps its low 32 bits. Text reads exactly when it parses, as the parsed value. Null and objects throw past the catch. |
| VersionCheck.ExtractId | paper-server/src/main/java/com/destroystokyo/paper/PaperVersionFetcher.java:191-205 | Only an object element can throw. With a `build_id`, that key alone decides: a number is its id when it fits an int and -1 otherwise; text is parsed (-1 when it does not parse); a boolean is -1; null or an object throws. Without one, `id` decides: a number keeps its low 32 bits; text is parsed; a boolean is -1; null or an object throws. With neither key the result is -1. A bare number keeps its low 32 bits and bare text is parsed; a bare boolean, null or array is -1. |
| VersionCheck.BuildIdPreferred | paper-server/src/main/java/com/destroystokyo/paper/PaperVersionFetcher.java:195-198 | When `build_id` is present, `id` is never consulted. |
| VersionCheck.BuildIdAndIdDisagree | paper-server/src/main/java/com/destroystokyo/paper/PaperVersionFetcher.java:196-198 | An out-of-range number is -1 under `build_id` but its low 32 bits under `id`. |
| VersionCheck.NumericBuildId | paper-server/src/main/java/com/destroystokyo/paper/PaperVersionFetcher.java:196 | A numeric in-range `build_id` is the id. |
| VersionCheck.CollectSpec | paper-server/src/main/java/com/destroystokyo/paper/PaperVersionFetcher.java:150-156 | The loop gathers exactly the ids other than -1 of the elements before the first one whose read throws. It throws exactly when such an element exists. The maximum is the greatest of -1 and those ids. |
| VersionCheck.Gather | paper-server/src/main/java/com/destroystokyo/paper/PaperVersionFetcher.java:147-174 | A failed fetch gathers nothing and counts as thrown. A null array gathers nothing. |
| VersionCheck.GatherSpec | paper-server/src/main/java/com/destroystokyo/paper/PaperVersionFetcher.java:147-157 | A fetched list yields exactly the ids other than -1 before the first throwing element, with their running maximum. |
| VersionCheck.GatheredRunningMax | paper-server/src/main/java/com/destroystokyo/paper/PaperVersionFetcher.java:143-171 | A gathered maximum is -1 or one of the ids, and bounds them all. |
| VersionCheck.Classify | paper-server/src/main/java/com/destroystokyo/paper/PaperVersionFetcher.java:133-189 | No build number gives UNKNOWN with distance -2 and current and latest -1. With a build number the verdict always carries it as `current`. A throwing dev fetch gives UNKNOWN with distance -1. STABLE requires release membership, and DEV requires dev-only membership, each with `max - current` (or 0) against that list's maximum. Otherwise, exactly when the build is in neither list, the verdict is UNKNOWN with distance -2 and latest -1. |
| VersionCheck.ReleaseFailureIgnored | paper-server/src/main/java/com/destroystokyo/paper/PaperVersionFetcher.java:175-177 | A failed release fetch classifies exactly like an empty release list. |
| VersionCheck.DistanceNonNegative | paper-server/src/main/java/com/destroystokyo/paper/PaperVersionFetcher.java:179-186 | For a non-negative running build, a STABLE or DEV verdict has `latest >= build` and a non-negative distance: `latest - build`, or 0 when `latest` is not positive. |
| VersionCheck.NegativeIdDistanceWraps | paper-server/src/main/java/com/destroystokyo/paper/PaperVersionFetcher.java:180 | A running build of -2 listed as a release next to build 2147483647 is STABLE with a negative, wrapped distance. |

## Left out

- `add` returning at once for a null packet is not modelled: packets are never null here.
- Netty internals (`getPendingBytes`, `connection.send`, `flushChannel`) are an event log. Pending bytes are the sum of the oracle sizes written since the last flushing send or channel flush.
- Bukkit event dispatch (send, chunk-optimisation, flush and metric events) is not modelled. Each event is an oracle decision or a logged notice.
- `isPrimaryThread`, `isFakeBlock`, `getChunkIfLoaded`, building the chunk packet and the wall clock are inputs. `isFakeBlock` swallowing exceptions becomes "no player means not fake".
- The interval flusher (`setupIntervalTask`, `stop`), `synchronized`, the atomics and the schedulers are left out: they are concurrency. `flush` and a metrics tick are atomic steps, and a tick-end or interval flush is a call to `Flush`.
- `initializeClasses` and `resolveClasses` resolve names through `Class.forName` reflection. The resolved class sets are given as sets of simple names.
- `reload`, `setManualFakeMode` and `getVirtualView` are trivial accessors. The manual fake flag is a buffer field.
- `Metrics.recordSavedPacket` is called but its definition is not part of this model; the model treats it as having no effect.
- HashMap iteration orders are unspecified. Chunk groups are coalesced in order of first appearance, and virtual blocks are resent in lexicographic position order.
- IEEE doubles are modelled as exact reals. `osBean` CPU sampling is an input.
- Metrics.Tick: models a single scheduled sampling task. `start` cancels `currentTask`, which is never assigned, so each `reload` leaves the earlier task running and schedules another. All running tasks share the `last*` snapshots, so after a reload each sample sees only the increments since some task's last run, divided by the full interval, and the running totals grow once per task. Repeated reloads are left out. The `try`/`catch` around the metric event is not modelled either: it does not change the sample.
- The YAML file I/O, `createDefaultConfig`, the brand name and MiniMessage rendering are left out. Report lines are tokens. The document is a map from dotted paths to untyped values.
- `Setting.onError` is never called by `load`. The `parser` catch cannot fire, because the mode lambda catches everything itself.
- `toUpperCase` and `Integer.parseInt` are modelled on ASCII only, and `toUpperCase` is assumed to run under a default locale that maps `i` to `I`. Non-ASCII letters and digits are not covered. Under a Turkish locale `interval` would upper-case to `İNTERVAL` and read as SMART_EXECUTION, so `Settings.ParseModeName`'s lower-case clause depends on that assumption.
- `fetchJsonArray` (HTTP, Gson, timeouts) and the version message formatting are left out. A fetch result is failed, no array, or the parsed elements. JSON numbers are integers, and `build_id` text is their plain decimal spelling. Fractional numbers and other spellings are not covered.
- The UI and command surface (`PulseBar`, `PulseCommand`, `PulseMessages`) and the thin API wrappers are not part of this model.
- PulseBuffer.CountLimitFlushes: stated for runs that stay below the byte guard. The count limit alone then decides the flushes, and `Counting` turns them into one flush per `maxBatchSize` packets. Runs that cross the byte guard are covered only step by step by `Batch`.
- VersionCheck.DistanceNonNegative: requires a non-negative running build. For negative ids the `int` subtraction can wrap, so the distance can be negative (`NegativeIdDistanceWraps`).
- LegacyMetrics.Tick: takes an interval of at least 1. The configured interval starts at 1 and `load` resets anything below 1 to the default, so no other value reaches the task.
- Metrics.Tick: the rates and estimates are exact reals rather than rounded doubles. `(long)` truncation is applied where the source casts.
- PulseBuffer.Flush: its ensures that pending bytes end at 0 rests on the model's accounting, which resets pending on every flushing send or channel flush. Netty's pending count is asynchronous and can stay positive after a flush on a channel that is not writable. So after a flush the byte guard cannot fire until new bytes are written, which the source does not promise.
- PulseBuffer.FlushWire: the same: pending is 0 after the channel flush.
- PulseBuffer.SendInstant: the same: pending is 0 after the flushing send.
- PulseBuffer.RestoreWire: the same: pending is 0 after the flushing sends.
- PulseBuffer.IdleFlushIsNoOp: its precondition "no pending bytes" is read from that accounting, not from Netty's live count.
- PulseBuffer.FlushAtCount: the same: pending is 0 after the count-limit flush.
- LegacyBuffer.Flush: the same: pending is 0 after the flush.

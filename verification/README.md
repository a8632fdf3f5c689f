# A Dafny model of PgCache's consistency protocols

PgCache is a caching proxy for PostgreSQL. It answers queries from cached rows, memoized wire bytes and materialized
views, and it promises that none of these is stale: change data capture (CDC) from the origin invalidates them commit
by commit. The code that keeps the promise is a set of small concurrent protocols and derived indexes. This project
models them and proves what they keep over every interleaving, every run and every input.

`dafny verify dfyconfig.toml` checks all files. Each file covers one component:

- `ResultMemo.dfy`, `MemoProtocol.dfy`: the memo of finished results, and its seqlock against commit frames.
- `UpdateQueries.dfy`, `Invalidation.dfy`: the per-relation update-query index and its derived structures; the check of
  which queries a changed row invalidates, its narrowed pass, and the limit window it keeps answerable.
- `CoalesceQueue.dfy`: the coalescing wait queue, its forward deadline, and the enqueue/notify/drain protocol.
- `ReplySlot.dfy`: the reusable reply slot over a single-permit notify.
- `Mv.dfy`, `MvFreshness.dfy`, `MvTables.dfy`, `MvBackoff.dfy`: the materialized-view state machine, its freshness against
  CDC frames, the ownership of its tables, and its rebuild rate.
- `ParameterList.dfy`, `LogReader.dfy`, `LogStatements.dfy`: the parameter-list parser with its printer, the log
  demultiplexer, and what it makes of statements, parameters and their further lines.
- `PopulationPool.dfy`: the worker pool's ids and counters, and concurrent retirement.
- `Replay.dfy`, `ReplayCounters.dfy`: the serve decision, the offline replay over it, and what its counters count.
- `RegBucket.dfy`, `CountCap.dfy`, `CdcCursors.dfy`: the registration token bucket, the query-count cap and memory
  throttle, and the replication cursors.
- `Common.dfy`: options and sums over finite maps.

Objects that the source updates in place are classes whose methods are proved against functions on values; loops are
loops with invariants. Concurrent protocols are step machines over those same value functions, and their main results
quantify over all runs.

## What the model takes as given

- Memo: the writer's candidate index misses no stored, live entry whose result a frame changes (`FrameSound`), the cache
  database changes only through frames, and a result depends only on the relations its query reads (`ReadsOnly`). A
  frame raises and releases its bracket one slot per step, in any order, and a capture stamps one slot per step. Every
  interleaving is a run; the safety theorem rules out the three steps below, each by a condition on the state before it
  that is proved exact. Versions do not wrap, and one call of `gc` is one step.
- Materialized views: replaying a frame's row events dirty-marks every view whose result they change, and the relevant
  contents of the cache database change only through frames. A dispatch's decision and its scheduling are one step.
- Invalidation: the constraint index returns every query whose constraints the new row meets (`ProbeSound`), the row
  comparison names every column that differs (`Describes`), and a query's constraints and order look at window and
  predicate columns only (`Constrains`, `Orders`). Values are integers and NULL.
- View tables: only a first build is gated, and a failed build rolls back to the table it found (`Reports`).
- Floating point is `real`, clocks and random outcomes are parameters, hash maps are finite maps, and the relaxed atomics
  of the worker pool are single steps.
- Byte offsets in strings are character positions, and white space is the ASCII kind.

## Where the code does less than its documentation says

The model follows the code in each case; a lemma gives the failing case and another the exact condition.

- The memo's frame bracket leaves out the relation slots when the store is empty. A capture in flight then stores an
  outdated result unless the frame is harmless (`EmptyStoreStale`, `UnguardedFrameStale`, `BracketGateExact`).
- A frame's scan sees stored entries only, so it misses a capture between its check and its insert
  (`OverlappedScanStale`), and a check may pass under a frame that has scanned and not yet committed
  (`OverlappedCheckStale`). A scan or a check is safe if and only if no such capture's result is changed and its
  fingerprint not evicted (`OverlapExact`).
- A sweep between a capture's check and its insert leaves a stale entry that later sweeps skip (`UnsafeSweepReached`),
  if and only if the flag is up and the capture's fingerprint stamp is outdated (`SweepExact`).
- A limit bump writes a query's limit bit past the update-query index, so the limit carve-out is no longer what a
  recomputation gives (`ReindexExact`), and a delete misses the query if the bump set the bit (`ReindexedDeleteExact`).
- A frame long enough to be replayed in parts marks views before it commits. A build that begins in between, over a
  result the frame has changed, becomes fresh with outdated rows (`SplitFrameStale`, `BeginExact`).
- A build command that finds its query's source rows not ready, or the completion of an orphaned build that finds them
  so after the new command was consumed, leaves the view scheduled with no command behind it, and nothing but eviction or
  a new registration builds it again (`StrandedExact`, `StrandedByCommand`, `StrandedByCompletion`, `StrandedForever`).
- A first build thrown away because the source rows left their ready state is not counted as wasted, so such builds are
  not rate-limited (`FlipsUnbounded`); every other start is (`RebuildRate`).
- A query can see two empty wakeups when a sender's notify lands late (`TwoEmptyWakes`); how many it can see is the permit
  left in the slot plus the notifies still owed at its start (`EmptyWakesExact`).
- The memory throttle stops only cold fingerprints and waits; a pending or invalidated fingerprint is still admitted
  (`ThrottleExact`).
- A continuation line behind a detail without parameters, behind an unrecognized line, or behind a parameter detail of a
  backend with no open statement, extends the last open message, whichever backend that is of (`LinesMisread`). It joins
  its own message if and only if that is not so or no message is open (`JoinExact`), and a backend reads as from its own
  lines if and only if the line finds the same message of it open (`ContinuationExact`).
- A parameter value with a line break is not read back: the break, and white space behind it, become one space
  (`LineBreakLost`).
- A new token bucket holds a full burst only from 8 registrations per second on (`FirstCall`).
- A sampled count cap is still unlimited when the computed room saturates the index type (`CapSaturates`, `CapFinite`).
- A keep-alive whose hand-off to the writer fails has already advanced the decoded position; what is acknowledged to the
  server has not moved (`RefusedExact`, `AcknowledgedWasAccepted`).

## Model

| member | source | states |
|---|---|---|
| `MemoStore.ResultMemo.constructor` | src/cache/memo.rs:198-208 | an empty memo satisfies every accounting invariant |
| `MemoStore.ResultMemo.SlotDirtyBegin` | src/cache/memo.rs:219-226 | moves one slot's version by one, arms the sweep flag, and leaves entries, index and byte total alone |
| `MemoStore.ResultMemo.SlotDirtyEnd` | src/cache/memo.rs:228-233 | moves one slot's version by one and nothing else; the flag is not armed |
| `MemoStore.ResultMemo.SlotsStamp` | src/cache/memo.rs:241-253 | returns the slots' versions, or nothing exactly when some version is odd |
| `MemoStore.ResultMemo.SlotsCheck` | src/cache/memo.rs:255-261 | true exactly when every stamped slot is at its stamped version |
| `MemoStore.ResultMemo.Get` | src/cache/memo.rs:263-287 | returns the stored bytes exactly when the entry is live; afterwards every lookup, of this key too, returns what it would have before, and the key is stored if and only if it was stored and live |
| `MemoStore.ResultMemo.Insert` | src/cache/memo.rs:289-327 | accepts exactly what the size limits and budget allow, and then stores the entry as given and changes no other; keeps the index and the byte total exact and the total within the larger of its old value and the budget |
| `MemoStore.ResultMemo.RelIncr` | src/cache/memo.rs:329-339 | adds one to the fingerprint's count under each listed relation |
| `MemoStore.ResultMemo.RelDecr` | src/cache/memo.rs:341-357 | takes one off each, dropping zero counts and empty buckets |
| `MemoStore.ResultMemo.FingerprintsForRelations` | src/cache/memo.rs:359-373 | the fingerprints with a stored entry over any of the relations, by the exactness of the index |
| `MemoStore.ResultMemo.CandidatesMemoizedInto` | src/cache/memo.rs:375-398 | adds exactly the candidates with a stored entry over the relation |
| `MemoStore.ResultMemo.Remove` | src/cache/memo.rs:411-417 | removes the entry and its share of index and byte total, which never grows |
| `MemoStore.ResultMemo.Gc` | src/cache/memo.rs:435-452 | when armed, leaves exactly the live entries, unchanged, and disarms; otherwise changes nothing; no lookup changes and the byte total never grows |
| `MemoStore.MemoCapture.Begin` | src/cache/memo.rs:490-516 | stamps the relation slots and the fingerprint slot, and begins only if all are even |
| `MemoStore.MemoCapture.Append` | src/cache/memo.rs:518-529 | what is buffered is what was relayed, until it is over the size limit and given up for good |
| `MemoStore.MemoCapture.RowDescriptionPush` | src/cache/memo.rs:531-537 | appends the row description's length to the buffered prefix |
| `MemoStore.MemoCapture.Finish` | src/cache/memo.rs:549-573 | stores the relayed bytes, their row-description length and the fingerprint stamp only, exactly when every stamp still matches and the result fits |
| `MemoSpec.RefsCountEntries` | src/cache/memo.rs:329-357 | an exact index counts, for each relation and fingerprint, the stored entries, and has a bucket exactly when there is one |
| `MemoSpec.DropKeepsExact` | src/cache/memo.rs:341-357 | taking an entry's relations back keeps the index exact |
| `MemoSpec.PutKeepsExact` | src/cache/memo.rs:289-327 | adding an entry's relations keeps the index exact |
| `MemoProtocol.StepKeepsInv` | src/cache/memo.rs:219-573 | every step of captures, frames, evictions, lookups and sweeps, slot by slot, keeps the protocol invariant, but for a scan or check that overlaps and a harmful frame past the empty-store gate |
| `MemoProtocol.NoStaleServe` | src/cache/memo.rs:24-51 | over every interleaving without those three steps, what a lookup returns is the key's result on the committed database |
| `MemoProtocol.OverlapExact` | src/cache/writer/cdc/frame.rs:364-401 | a frame's scan is safe for every continuation if and only if no capture past its check, still to be stored live, has its result changed and not evicted; a capture's check is, if and only if no frame scanned and not committed does that to it |
| `MemoProtocol.OverlappedScanStale` | src/cache/memo.rs:549-573 | a run from the start reaches a scan between a capture's check and insert that opens the way to a stale serve |
| `MemoProtocol.OverlappedCheckStale` | src/cache/writer/cdc/frame.rs:364-401 | another reaches a check between a frame's scan and commit that does |
| `MemoProtocol.RunWithinBudget` | src/cache/memo.rs:289-327 | in every reachable state, through inserts, replacements, rejections, lazy evictions, removals and sweeps, the stored bytes are within the fixed budget |
| `MemoProtocol.UnguardedFrameStale` | src/cache/writer/cdc/frame.rs:518-545 | with the store empty and a memoizable result about to change, the frame's begin opens the way to a stale serve |
| `MemoProtocol.EmptyStoreStale` | src/cache/writer/cdc/frame.rs:518-545 | the first frame from the start state can be one |
| `MemoProtocol.BracketGateExact` | src/cache/writer/cdc/frame.rs:518-557 | opening the bracket is safe for every continuation if and only if the store is not empty or the frame is harmless |
| `MemoProtocol.GcSkipLosesNothing` | src/cache/memo.rs:435-452 | in every run, unless a sweep comes while a capture about to be stored has an outdated stamp, whenever the flag is down every stored entry is live |
| `MemoProtocol.SweepExact` | src/cache/memo.rs:435-452 | a sweep keeps that for every continuation if and only if the flag is down already or no capture past its check, fit to be stored, has an outdated fingerprint stamp |
| `MemoProtocol.UnsafeSweepReached` | src/cache/writer/eviction.rs:526-539 | a run from the start reaches a sweep that does not: an eviction inside a finish, then the sweep |
| `MemoProtocol.StaleStaysStale` | src/cache/memo.rs:255-261 | a stale entry is never live again, whatever follows |
| `MemoProtocol.SweepsKeepLookups` | src/cache/memo.rs:263-287 | a lookup's lazy eviction and a sweep change no lookup, and drop exactly the entry asked for, or all when armed, that is not live |
| `MemoProtocol.HitPersists` | src/cache/memo.rs:263-287 | a memoized result is served, the same bytes, through any run that does not move its fingerprint's slot, remove or replace it |
| `MemoProtocol.ReachedStamps` | src/cache/memo.rs:549-573 | in every reachable state entries carry their own fingerprint's stamp, as that asks |
| `UpdateQueryIndex.ColumnRefcountsAccount` | src/cache/update_query.rs:301-318 | counts each listed column up or down once per occurrence |
| `UpdateQueryIndex.RemoveCounts` | src/cache/update_query.rs:301-318 | where the counts cover what is taken off, the saturating subtraction never bites and no zero stays |
| `UpdateQueryIndex.UpdateQueries.CarveoutAccount` | src/cache/update_query.rs:257-299 | moves a query in or out of the carve-outs; every column count moves by exactly its share |
| `UpdateQueryIndex.UpdateQueries.ChangeDependentAccount` | src/cache/update_query.rs:390-403 | counts change-dependent queries and never underflows |
| `UpdateQueryIndex.UpdateQueries.QueryInsert` | src/cache/update_query.rs:356-376 | every derived structure stays equal to its recomputation from the queries; each insert has a new epoch, and equal epochs saw the same population, limit bits aside if one was rewritten in place meanwhile |
| `UpdateQueryIndex.UpdateQueries.QueryRemove` | src/cache/update_query.rs:378-388 | the same for removal, epochs included; an absent fingerprint changes nothing, not even the epoch |
| `UpdateQueryIndex.UpdateQueries.LimitPredicateChanged` | src/cache/update_query.rs:334-341 | agrees with a full scan of the limit queries while exact, and never misses one while the structures only cover |
| `UpdateQueryIndex.UpdateQueries.NeedsChangeEval` | src/cache/update_query.rs:343-354 | true exactly when some stored query is change-dependent |
| `UpdateQueryIndex.UpdateQueries.LimitReindex` | src/cache/writer/registration/lifecycle.rs:19-57 | rewrites one limit bit and nothing derived, and does not move the epoch; coverage survives clearing it |
| `UpdateQueryIndex.ReindexExact` | src/cache/writer/registration/lifecycle.rs:19-57 | the index stays exact if and only if the limit membership does not move, and covering if and only if no from-clause query becomes limited |
| `UpdateQueryIndex.Grows` | src/cache/update_query.rs:356-376 | accounting one more query in everywhere keeps coverage and exactness |
| `UpdateQueryIndex.Shrinks` | src/cache/update_query.rs:378-388 | accounting one query out everywhere keeps coverage and exactness |
| `UpdateQueryIndex.OrderColumnExact` | src/cache/update_query.rs:317-330 | while exact, the columns compared for direction are the sort columns of the limited from-clause queries |
| `CdcInvalidation.NarrowingComplete` | src/cache/writer/cdc/invalidation.rs:300-330 | while the index covers, the narrowed pass misses no query that a look at every query would invalidate |
| `CdcInvalidation.CheckInvalidate` | src/cache/writer/cdc/invalidation.rs:357-382 | the pass returns exactly the queries that a look at every query would invalidate |
| `CdcInvalidation.ReindexedDeleteExact` | src/cache/writer/registration/lifecycle.rs:19-57 | after a limit bit is rewritten in place, the pass over a deleted row is complete if and only if no unlimited from-clause query became limited |
| `CdcInvalidation.GateSound` | src/cache/update_query.rs:160-195 | an insert or update invalidates only queries flagged change-dependent at registration, also after a limit bump, so with none flagged the pass may be skipped |
| `CdcInvalidation.ExpandsExact` | src/cache/writer/cdc/invalidation.rs:112-129 | a row of an inclusion or exclusion subquery counts exactly where writing it can add to the result |
| `CdcInvalidation.WrittenInPlace` | src/cache/writer/cdc/invalidation.rs:131-211 | a single-table query without a limit is never invalidated by a row; a subquery's table is by every update of a cached row; the terminal side of an outer join only by a moved join column |
| `LimitWindow.ForwardExact` | src/cache/writer/cdc/row_match.rs:104-162 | what is taken for a promotion does sort earlier, and with every key compared a row that sorts earlier is recognized, for any keys, directions and NULL placement |
| `LimitWindow.KeysOrder` | src/cache/writer/cdc/row_match.rs:104-162 | plain sort keys give a strict order on the window columns |
| `LimitWindow.WindowKept` | src/cache/writer/cdc/invalidation.rs:207-238 | an update of a cached row that the window check lets pass leaves the cache able to answer for the first n rows |
| `LimitWindow.UncachedKept` | src/cache/writer/cdc/invalidation.rs:160-175 | so does writing a row that was not cached, new or from behind the window |
| `LimitWindow.DemotionOpensGap` | src/cache/writer/cdc/invalidation.rs:207-238 | a demotion can leave a gap that only an uncached row fills |
| `LimitWindow.JoinKept` | src/cache/writer/cdc/row_match.rs:194-218 | an update that kept the key leaves a join on key columns where it was |
| `LimitWindow.JoinStill` | src/cache/writer/cdc/invalidation.rs:240-259 | so does one that moves no join column, one not compared counting as moved |
| `WaitingQueue.CoalesceQueue.constructor` | src/cache/coalesce_queue.rs:110-114 | an empty queue has accepted nothing |
| `WaitingQueue.CoalesceQueue.EnqueueIfLoading` | src/cache/coalesce_queue.rs:123-149 | parks the request exactly when the query is loading: at the end of the group of its own fingerprint and key, every other group unchanged; accepted requests stay parked, drained or expired, one of them only |
| `WaitingQueue.CoalesceQueue.Drain` | src/cache/coalesce_queue.rs:151-157 | takes every waiter of one fingerprint and no other |
| `WaitingQueue.CoalesceQueue.DrainExpired` | src/cache/coalesce_queue.rs:159-176 | takes exactly the waiters whose deadline has passed, as often as they were parked, out of each group, in order, and leaves no empty group |
| `WaitingQueue.CoalesceQueue.RetainAll` | src/cache/coalesce_queue.rs:163-176 | the outer retain loop: what is kept and what is due, for the whole queue |
| `WaitingQueue.CoalesceQueue.RetainGroups` | src/cache/coalesce_queue.rs:166-173 | the inner retain loop over one fingerprint's groups |
| `WaitingQueue.CoalesceQueue.ExtractDue` | src/cache/coalesce_queue.rs:168-170 | splits one group into its due and remaining waiters, each in order |
| `WaitingQueue.CoalesceQueue.WaiterCount` | src/cache/coalesce_queue.rs:178-185 | accepted minus drained minus expired |
| `WaitingQueue.KeptCounts` | src/cache/coalesce_queue.rs:163-176 | a sweep keeps every request that is not due as often as before, and none that is |
| `WaitingQueue.SweepKeepsOrder` | src/cache/coalesce_queue.rs:168-170 | sweeping a concatenation is concatenating the sweeps: no waiter passes another |
| `WaitingQueue.PushBalanced` | src/cache/coalesce_queue.rs:142-148 | a push keeps the multiset equation of accepted, parked, drained and expired requests |
| `WaitingQueue.DrainBalanced` | src/cache/coalesce_queue.rs:151-157 | a drain keeps it |
| `WaitingQueue.SweepBalanced` | src/cache/coalesce_queue.rs:159-176 | a deadline sweep keeps it |
| `WaitingQueue.PushedAt` | src/cache/coalesce_queue.rs:142-148 | a push adds one request at the end of its own group and touches no other |
| `ForwardDeadline.DeadlineTracksHistory` | src/cache/coalesce_queue.rs:34-53 | over any history of population times the estimate stays within their range, and the deadline within the range's deadlines |
| `ForwardDeadline.EstimateConverges` | src/cache/coalesce_queue.rs:34-42 | populations that keep taking x pull the estimate three tenths of the way towards x each time |
| `ForwardDeadline.DeadlineCrossover` | src/cache/coalesce_queue.rs:44-53 | the deadline exceeds the estimate exactly below 500 ms, is at its floor exactly for an estimate of zero and at its ceiling exactly from 12.375 s on; 200 ms without one |
| `CoalesceProtocol.AttendanceKept` | src/cache/coalesce_queue.rs:95-157 | only the drain step ends a query's attendance, and it takes the query's waiters with it |
| `CoalesceProtocol.NoOrphanedWaiter` | src/cache/coalesce_queue.rs:95-157 | in every reachable state a parked request's query is loading, or its notify is owed, queued or received |
| `CoalesceProtocol.FlushServesEveryone` | src/cache/runtime/setup.rs:227-273 | from any reachable state, finishing the enqueue under way and delivering the owed notifies leaves only waiters of loading queries |
| `CoalesceProtocol.StepAt` | src/cache/coalesce_queue.rs:123-176 | what each step does to one group: its own pushes, its fingerprint's drain, a sweep of the due, nothing else |
| `CoalesceProtocol.GroupsShareKey` | src/cache/coalesce_queue.rs:55-69 | in every run the requests answered together arrived under the same fingerprint and key, and stand in order of arrival |
| `ReplyChannel.ReplySlot.Sender` | src/cache/reply.rs:60-69 | mints an armed sender; no earlier delivery survives in the cell |
| `ReplyChannel.ReplySlot.Take` | src/cache/reply.rs:80-83 | returns the delivery once and empties the cell |
| `ReplyChannel.ReplySlot.Notify` | src/cache/reply.rs:110-110 | wakes the registered waiter or leaves the single permit |
| `ReplyChannel.ReplySender.Send` | src/cache/reply.rs:101-112 | delivers and notifies while the connection is there, otherwise hands the reply back and touches nothing |
| `ReplyChannel.ReplySender.Disarm` | src/cache/reply.rs:114-123 | leaves the slot untouched |
| `ReplyChannel.ReplySender.Drop` | src/cache/reply.rs:126-138 | an armed sender delivers that it was dropped and notifies; a disarmed one does nothing |
| `ReplyProtocol.TakeIsOwn` | src/cache/reply.rs:11-24 | in every run a take yields nothing or what the current query's own sender delivered |
| `ReplyProtocol.DeliveryAnnounced` | src/cache/reply.rs:101-138 | an untaken delivery always has a permit, a wakeup or its notify pending |
| `ReplyProtocol.EmptyWakesBounded` | src/cache/reply.rs:15-21 | a query's empty wakeups number at most one plus the late notifies that landed during it |
| `ReplyProtocol.EmptyWakesExact` | src/cache/reply.rs:104-112 | a query can see k empty wakeups if and only if k is at most the permit left in the slot plus the late notifies owed when it starts |
| `ReplyProtocol.OneEmptyWake` | src/cache/reply.rs:15-21 | with send and drop as single steps, no query sees more than one |
| `ReplyProtocol.TwoEmptyWakes` | src/cache/reply.rs:104-112 | with write and notify split, a run with two exists |
| `MvSpec.CooldownShape` | src/cache/mv.rs:91-111 | cooldowns grow, double up to the cap and end at 300 s; saturating the waste counter loses nothing |
| `RowLimit.SufficientExact` | src/cache/query/limit.rs:26-32 | a cap covers a need exactly when, however large the result, no less is cached than needed |
| `MvTracking.MvMeta.constructor` | src/cache/mv.rs:153-163 | registration starts with no table, plan, waste or cooldown |
| `MvTracking.MvMeta.BackoffRemaining` | src/cache/mv.rs:175-184 | a cooldown remains exactly while a build is not permitted, and ends when it says |
| `MvTracking.MvMeta.WasteRecord` | src/cache/mv.rs:191-196 | counts one wasted build, saturating, and arms the cooldown from the second on |
| `MvTracking.MvMeta.DirtyApply` | src/cache/mv.rs:198-220 | a view fresh for five seconds or more starts over with no waste and no cooldown, a build permitted at once; a younger one is one more waste with its cooldown; a running build is marked; other states are left alone |
| `MvTracking.CacheStateView.ServeDecide` | src/cache/fast_path.rs:96-161 | a view is served exactly when fresh, planned and wide enough; a build is asked for exactly when pending and permitted |
| `MvTracking.CacheStateView.Schedule` | src/cache/fast_path.rs:163-177 | claims a build exactly when still pending as seen; other entries do not change |
| `MvFreshness.StepKeepsInv` | src/cache/writer/mv.rs:82-263 | every step but a build begun over a result the open frame has changed keeps a fresh view equal to its query's result and a clean build on course to be |
| `MvFreshness.FreshIsCurrent` | src/cache/mv.rs:26-57 | in every run that begins no build over a result the open frame has changed, a fresh view's table is the query's result on the committed database and its plan is installed |
| `MvFreshness.WholeFramesSettle` | src/cache/writer/cdc/frame.rs:364-401 | frames that replay whole leave no moment for such a build to begin |
| `MvFreshness.WholeFramesCurrent` | src/cache/writer/cdc/frame.rs:364-401 | so with whole frames a fresh view is current in every run |
| `MvFreshness.BeginsIsBuilding` | src/cache/writer/mv.rs:82-163 | the guard on build starts names exactly the steps that take a view into a clean build |
| `MvFreshness.BeginExact` | src/cache/writer/mv.rs:82-105 | beginning a build is safe for every continuation that begins no other such build if and only if no open frame has changed the view's result |
| `MvFreshness.UnsettledBuildStale` | src/cache/writer/mv.rs:211-241 | a build begun over a changed result runs on to a stale view that is served |
| `MvFreshness.SplitFrameStale` | src/cache/writer/cdc/frame.rs:350-362 | such a run exists from the start state |
| `MvFreshness.DirtiedBuildDiscarded` | src/cache/writer/mv.rs:107-180 | a build dirtied, or orphaned by eviction or re-registration, never makes its view fresh |
| `MvFreshness.StrandedExact` | src/cache/writer/mv.rs:82-163 | a step strands the view if and only if it is the last build command with no build in flight, or a completion with no command left, and finds the view scheduled with its source rows not ready |
| `MvFreshness.StrandedByCommand` | src/cache/writer/mv.rs:82-92 | a run from the start strands a view by its command |
| `MvFreshness.StrandedByCompletion` | src/cache/writer/mv.rs:154-163 | another by the completion of an orphaned build |
| `MvFreshness.StrandedForever` | src/cache/fast_path.rs:163-177 | a stranded view stays so until its query is evicted or registered anew |
| `MvTables.StepOwnedExact` | src/cache/writer/mv.rs:107-263 | a step leaves a table behind without a view that owns it if and only if it is a registration over a view that still has one |
| `MvTables.NoTableLeak` | src/cache/writer/mv.rs:107-180 | through evictions mid-build and dirtied, failed, gated and orphaned builds, whenever no build is in flight a table belongs to a view whose state says so |
| `MvBackoff.StepKeepsInv` | src/cache/mv.rs:191-220 | each event keeps the waste count equal to the wasted starts since the last payoff and the cooldown in force; a source flip takes its start back |
| `MvBackoff.RebuildRate` | src/cache/mv.rs:91-111 | in every run, payoffs and flips included: after each payoff start k and k+1 are the k-th cooldown apart, payoffs are five seconds apart, and a window of `span` seconds holds at most 11 + floor(span / 300) starts for each payoff in it and once more, plus its flips |
| `MvBackoff.PayoffPermits` | src/cache/mv.rs:198-220 | a payoff wipes waste and cooldown: a hit may schedule a build from that moment on |
| `MvBackoff.NeverBuilt` | src/cache/mv.rs:26-57 | a skipped or ineligible view is never built again |
| `MvBackoff.SkippedNeverBuilt` | src/cache/mv.rs:153-163 | a view whose shape is skipped at registration is never built |
| `MvBackoff.IneligibleExact` | src/cache/writer/mv.rs:201-263 | a view becomes ineligible exactly by a failed gate or a clean build without a plan |
| `MvBackoff.MinSpanClosed` | src/cache/mv.rs:104-111 | the least time for g gaps is 2^(g-1) - 1 seconds up to ten gaps, then 300 more each |
| `MvBackoff.FlipsUnbounded` | src/cache/writer/mv.rs:201-208 | source flips during first builds let any number of builds start and flip at one instant |
| `ParameterSpec.UnquoteEscape` | fit/src/input.rs:261-283 | an escaped value, closed, is read back together with what follows it |
| `ParameterSpec.RoundTrip` | fit/src/input.rs:204-259 | every list of optional strings is read back from its printed form, whatever the strings contain |
| `ParameterSpec.ParseExact` | fit/src/input.rs:221-259 | a list is refused if and only if a quote stays open or an index is zero; otherwise it is as long as its largest index, each position holding what was bound to it last |
| `ParameterSpec.OpenQuoteRefused` | fit/src/input.rs:261-283 | a value whose quote is never closed refuses the list |
| `ParameterParser.QuotedValueParse` | fit/src/input.rs:261-283 | the value and length of a leading quoted literal, or nothing exactly when it does not end; the index rises every iteration |
| `ParameterParser.FindBindings` | fit/src/input.rs:221-248 | the bindings of a list, left to right; the scan index rises every iteration, for any input |
| `ParameterParser.ParameterListParse` | fit/src/input.rs:221-259 | the list the bindings denote; index zero or an open quote refuses it |
| `LogReader.StderrLogRead` | fit/src/input.rs:285-398 | the loop computes the reader's fold over the lines, then flushes by ascending backend |
| `LogReader.LeastKey` | fit/src/input.rs:388-393 | the smallest pending backend |
| `LogReader.Attribution` | fit/src/input.rs:289-398 | for any interleaving of messages, one backend's output is its settled statements, its open one with the detail to come, and what its remaining messages mean |
| `LogReader.JoinExact` | fit/src/input.rs:323-344 | a continuation line joins the message right before it if and only if that message anchors it or no earlier message is open |
| `LogReader.ReadsMessages` | fit/src/input.rs:323-387 | on a log whose continuation lines all do, the reader of lines is the reader of whole messages |
| `LogReader.Demultiplex` | fit/src/input.rs:289-398 | on such a log, messages of any number of lines, however interleaved: a backend's output is the declarative reading of its messages, the same as from its messages alone |
| `LogReader.ContinuationExact` | fit/src/input.rs:323-344 | a continuation line keeps the reader in agreement, on one backend, with the reader of that backend's lines if and only if it finds the same message of it open in both (its own line), or none (another's) |
| `LogReader.DemultiplexBlocks` | fit/src/input.rs:323-387 | on every log whose continuation lines do so, a backend's output is that of its own lines read alone |
| `LogReader.DemultiplexAnchored` | fit/src/input.rs:323-387 | in particular on every log whose continuation lines follow only messages that anchor them |
| `LogReader.ForeignLineTaken` | fit/src/input.rs:345-387 | every log of a statement, another backend's detail without parameters and its second line puts that line into the statement |
| `LogReader.OwnLineLost` | fit/src/input.rs:345-387 | every log of two backends' statements, then the first's detail without parameters and its second line, puts that line into the other's statement |
| `LogReader.LinesMisread` | fit/src/input.rs:323-387 | two concrete logs of which a backend's own lines do not give its output |
| `LogReader.OneOutputPerStatement` | fit/src/input.rs:345-393 | exactly one output per statement line, continuation lines or not |
| `LogReader.PrintedDetail` | fit/src/input.rs:204-219 | a detail the server printed gives its parameters back with nothing dropped |
| `LogStatements.DetailRead` | fit/src/input.rs:308-387 | a statement, any lines of other backends and its parameter list: output with the list's values if it parses, with none and one more dropped if not |
| `LogStatements.ParametersRead` | fit/src/input.rs:208-219 | so every list the server printed comes back whole, nothing dropped for it |
| `LogStatements.DetailAfterEnd` | fit/src/input.rs:364-386 | any other message of the backend ends its statement; a list after it is nobody's |
| `LogStatements.DroppedExact` | fit/src/input.rs:208-219 | over a whole log, what is dropped is the number of statements whose last detail is a list that does not parse |
| `LogStatements.LinesJoined` | fit/src/input.rs:323-332 | a statement logged over several lines is read back with its line breaks |
| `LogStatements.LineBreakLost` | fit/src/input.rs:333-341 | a value with a line break comes back with one space for it and the white space behind it |
| `LogStatements.EndAscends` | fit/src/input.rs:388-393 | what is open at the end comes last, by ascending backend |
| `WorkerPool.HeldAndFree` | src/cache/population_pool.rs:130-144 | held and free ids together are the ids handed out |
| `WorkerPool.PopulationPool.constructor` | src/cache/population_pool.rs:70-87 | an empty pool satisfies every accounting invariant |
| `WorkerPool.PopulationPool.WorkerReserve` | src/cache/population_pool.rs:130-144 | hands out an id nobody holds, fresh only when none is free; ids never exceed the peak number of holders |
| `WorkerPool.PopulationPool.PendingConnectDone` | src/cache/population_pool.rs:146-154 | the pending count stays the number of connecting workers; the subtraction never saturates |
| `WorkerPool.PopulationPool.WorkerExit` | src/cache/population_pool.rs:169-177 | a worker leaves; the live count stays connecting plus running, and its id is free |
| `WorkerPool.PopulationPool.RetireClaim` | src/cache/population_pool.rs:179-198 | claims a unit exactly when there is a surplus, never below the target |
| `WorkerPool.PopulationPool.ParkClaim` | src/cache/population_pool.rs:200-207 | succeeds exactly when nobody is parked |
| `WorkerPool.PopulationPool.ParkRelease` | src/cache/population_pool.rs:209-215 | frees the park slot; nothing else moves |
| `WorkerPool.PopulationPool.UnparkComplete` | src/cache/population_pool.rs:249-253 | the parked worker is live again and the slot free |
| `WorkerPool.PopulationPool.RetiredIdReturn` | src/cache/population_pool.rs:260-269 | the id is free and the live count, already lowered, does not move |
| `RetireProtocol.RetireKeepsTarget` | src/cache/population_pool.rs:182-198 | with the target fixed, any interleaving of compare-exchange attempts never takes the pool below it |
| `RetireProtocol.RetireUndershoots` | src/cache/population_pool.rs:182-198 | a successful attempt undershoots if and only if the target was meanwhile raised to the live count |
| `RetireProtocol.WorkersConserved` | src/cache/population_pool.rs:182-198 | over any interleaving every worker that joined is live, retired or gone |
| `ServeDecisions.ThrottleExact` | src/cache/serve_decision.rs:144-223 | under the throttle nothing waits, and a request registers if and only if its entry is pending or invalidated |
| `ServeDecisions.DecisionSources` | src/cache/serve_decision.rs:140-185 | exactly when a request hits, bumps the limit, waits, is throttled, is rate-limited, or is admitted; the budget matters for an unthrottled cold fingerprint only |
| `ServeDecisions.AdmittedAtThreshold` | src/cache/serve_decision.rs:154-212 | a cold fingerprint is admitted on exactly its max(threshold, 1)-th sighting, on its first under first-in-first-out |
| `Replay.HitrateReplay` | fit/src/hitrate.rs:92-192 | the nested loop computes the fold of serve decisions over the trace |
| `Replay.ReplayCall` | fit/src/hitrate.rs:147-188 | one call's effect on counters, entries and registry |
| `Replay.Conservation` | fit/src/hitrate.rs:98-192 | over any trace calls split by verdict and cacheable calls by outcome, none for pressure; ready entries are cold misses plus subsumption hits; entries agree with their histories |
| `Replay.NeverLoading` | fit/src/hitrate.rs:92-97 | no entry is ever loading or invalidated |
| `Replay.AdmissionShape` | src/cache/serve_decision.rs:140-223 | a fingerprint never subsumed is forwarded max(threshold, 1) - 1 times, misses once, then only hits or bumps, each bump strictly wider |
| `Replay.CallAgrees` | src/cache/serve_decision.rs:144-223 | one call keeps an entry equal to what its history says, and makes it ready exactly when it is admitted |
| `ReplayCounters.OutcomesCounted` | fit/src/hitrate.rs:147-188 | over any trace each outcome counter is the number of outcomes of its kind in all histories together |
| `ReplayCounters.VerdictsCounted` | fit/src/hitrate.rs:104-137 | over any trace each verdict counter is the calls of its items, in a transaction or not as the session's last boundary said |
| `ReplayCounters.OneOutcomePerCall` | fit/src/hitrate.rs:137-188 | a fingerprint has one outcome for each of its calls outside transactions |
| `ReplayCounters.AdmissionCounts` | src/cache/serve_decision.rs:140-223 | a fingerprint never subsumed, called n times: min(n, threshold - 1) forwards, one cold miss if n reaches the threshold, hits or bumps after |
| `ReplayCounters.ReplayCounts` | fit/src/hitrate.rs:98-192 | with nothing subsumed the whole replay's forwards and cold misses follow from how often each fingerprint is called |
| `BucketSpec.TokensConserved` | src/cache/reg_bucket.rs:46-71 | tokens stay between zero and the current burst, and admissions plus tokens left never exceed tokens held plus accrued |
| `BucketSpec.AdmissionBound` | src/cache/reg_bucket.rs:46-71 | after call i through call j at most the burst at i plus rate times elapsed time is admitted |
| `BucketSpec.TokensExact` | src/cache/reg_bucket.rs:46-71 | tokens held and accrued are, to the last, left, spilled over the cap, or spent, one per admission |
| `BucketSpec.DeniedWhenSpent` | src/cache/reg_bucket.rs:62-70 | a denial means all but a fraction of a token has been admitted or spilled |
| `BucketSpec.SteadyAdmissions` | src/cache/reg_bucket.rs:46-71 | at a steady rate what is admitted is bounded by, and with rest and spill equals, tokens held plus rate times time gone by |
| `BucketSpec.IdleFills` | src/cache/reg_bucket.rs:46-71 | left alone, a bucket holds half a second's worth, eight at the least |
| `BucketSpec.FirstCall` | src/cache/reg_bucket.rs:31-41 | a new bucket holds a full burst if and only if the rate is at least 8, and admits at once if and only if it is at least 1 |
| `RegBucket.RegRateBucket.constructor` | src/cache/reg_bucket.rs:22-44 | starts with no tokens and the refill clock a second in the past |
| `RegBucket.RegRateBucket.TryTake` | src/cache/reg_bucket.rs:46-71 | admits all while unset, none at zero or below, else takes a token or counts exactly one denial |
| `CountCap.TickSane` | src/memory.rs:130-181 | the peak stays at or above the average, and without a sample neither rises |
| `CountCap.AverageWithinSamples` | src/memory.rs:144-157 | over any run the average lies within the range of its samples |
| `CountCap.PeakNeverRisesWithoutGrowth` | src/memory.rs:94-157 | without growth past the high-water mark the peak never rises, however long |
| `CountCap.PeakKnown` | src/memory.rs:144-157 | over any run the peak is positive if and only if some tick has taken a sample |
| `CountCap.MarkIsLastSample` | src/cache/runtime/memory_monitor.rs:98-121 | the high-water mark is the last reading sampled, or the first; a sample covers 2000 new queries or more, and more memory, since it |
| `CountCap.AverageConverges` | src/memory.rs:144-157 | samples of one size pull the average three tenths of the way towards it each time |
| `CountCap.PeakDecays` | src/memory.rs:144-157 | without samples the peak decays by 0.06 percent a tick, down to the average and no further |
| `CountCap.CapFinite` | src/memory.rs:156-174 | on every tick of any run the cap is at least 1000, and finite if and only if a sample has been taken and the room, at the larger of the decayed last peak and the new average, fits the index type |
| `CountCap.CapSaturates` | src/memory.rs:156-174 | a sampled cap that is not finite, on a one-tebibyte ceiling |
| `CountCap.CapAgainstBudget` | src/memory.rs:117-174 | the cap is at most the count or the floor once the budget is used, and at least that before |
| `CountCap.CapIsLargest` | src/memory.rs:158-174 | a finite cap above the floor is the largest count whose modelled memory, shared buffers included, stays within the ceiling |
| `CountCap.LiveAnchorIsBaseline` | src/memory.rs:117-120 | when memory grows as modelled, anchoring on the live reading equals the fixed-baseline form |
| `CountCap.LimitStep` | src/memory.rs:183-201 | one tick upward never overshoots, never grows past 1.5 times, and moves if and only if the cap is at least 2 |
| `CountCap.LimitFollows` | src/memory.rs:183-201 | downwards, and from no cap or an unlimited one, the target is taken at once |
| `CountCap.RampReaches` | src/memory.rs:183-201 | from 2 on the target is reached within one tick per missing query and kept; below 2 never |
| `CountCap.RampGeometric` | src/memory.rs:183-201 | until the target is reached the cap grows by at least a third each tick |
| `CountCap.ThrottleHysteresis` | src/memory.rs:26-53 | the flag changes only outside the band under the ceiling, which is the configured limit or else, to within rounding, four fifths of memory, and never more than either |
| `CursorSpec.CursorsOrdered` | src/cache/cdc.rs:261-472 | over any order of messages flushed <= decoded <= shared, none goes back, and forwarded marks strictly increase |
| `CursorSpec.AcknowledgedWasAccepted` | src/cache/cdc.rs:341-472 | nothing beyond what the writer accepted is ever acknowledged, and until a failure decoded is exactly that |
| `CursorSpec.AcknowledgedExact` | src/cache/cdc.rs:341-383 | what is acknowledged is all the writer had accepted at the last update that reached the server |
| `CursorSpec.MarksExact` | src/cache/cdc.rs:385-432 | while the writer accepts everything, decoded is the furthest position and the marks are exactly the keep-alives with news |
| `CursorSpec.SharedExact` | src/cache/cdc.rs:261-271 | the published cursor is the furthest position on any message |
| `CursorSpec.RefusedExact` | src/cache/cdc.rs:393-432 | a refused message leaves decoded unmoved if and only if it is a data message; acknowledgements and marks never move |
| `CdcCursors.CdcConsumer.UpdateLsn` | src/cache/cdc.rs:261-271 | the received position is the message's; the shared cursor never goes back |
| `CdcCursors.CdcConsumer.MarkLsnDecoded` | src/cache/cdc.rs:307-315 | the decoded position advances or stays |
| `CdcCursors.CdcConsumer.SendStandbyStatusUpdate` | src/cache/cdc.rs:341-383 | a sent update acknowledges the decoded position; a failed one changes nothing |
| `CdcCursors.CdcConsumer.HandleKeepAlive` | src/cache/cdc.rs:385-432 | advances and forwards only a later position, and keeps the cursors ordered even when the hand-off fails |
| `CdcCursors.CdcConsumer.ProcessData` | src/cache/cdc.rs:434-472 | decodes only what was handed over, and keeps the cursors ordered |

## Left out

- Network, TLS, admin, telemetry, metrics and process plumbing: input and output with nothing to prove.
- SQL parsing, resolution, deparsing, constraint indexes and the subsumption test: taken as functions where a protocol needs them.
- The invalidation of updates with values left out of the replication stream, and of truncates: conservative unions of the modelled checks.
- The coalescing key's derivation from a request: a field-by-field copy.
- The wire framing of memoized replies: the memo stores the bytes it is given.
- Population merges into the cache database: the view model takes frames as the only relevant change of its contents.
- The grants that unpark a worker, and the reconcile loop that requests them: only the park slot is modelled.
- Demultiplex: only for logs that meet `JoinExact` at every continuation line. Where one does not, the reader's state
  differs after it; that the output then differs too is shown for two families of logs only, since a later detail of the
  same statement can hide it.
- DemultiplexBlocks: likewise for `ContinuationExact`.
- RoundTrip: not for lists longer than the largest index, whose last values no index can name.
- The csvlog, plain SQL and statistics readers: driven by library parsers.
- The log-line and message splitters of the stderr reader: parameters of the model.
- The probe that overrides the published count cap after a pool recycle: the reset of the estimate is a start state of the modelled runs.
- Counter overflow in replay statistics and slot versions: numbers are unbounded.
- The memory taken by a parameter list with a huge index: sequences are unbounded.

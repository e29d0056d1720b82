# SparkCache: restoring cached model state only after proving it is the right state

SparkCache gives a model back state that another request computed earlier, and
only after checking that it is exactly the state of the same prefix. This project
models the parts of that check that are plain state and arithmetic, and proves
what they promise over every input, every history and every interleaving.

- **Quorum of physical ranks** (`Quorum*.dfy`, `HeldInventory.dfy`). Workers stream
  bounded deltas and rolling checkpoint chunks of their inventories; the scheduler
  puts them together again despite loss, repetition, reordering, gaps, overflow
  and restarts. A system of workers, a bag of reports in flight and the scheduler
  takes steps; each worker carries the history of the inventories it observed.
- **Page deltas** (`Pages`, `LayerRanges`, `PageDelta*`, `PageCapture`,
  `PageHistory*`, `PageReconstruction`). A snapshot is a header and the pages of
  every layer; a stage keeps leading pages and brings a tail. Applying stages one
  by one is the reference. The range-ownership composer and the in-place
  reconstruction are proved to give the same bytes, and both encoders to be
  undone by application.
- **CUDA placement** (`Cuda*.dfy`, `PageSlabs`, `PageCopies`). The same history as
  ordered spans of macro objects or tail extents, the packing of the spans into
  arena batches, and the loop that loads, caches, digests and submits them, chained
  until every page buffer holds its own layer; and the slabs of a flat snapshot,
  submitted until every page buffer is full.
- **Single-flight base reads** (`BaseRead*.dfy`). Every locked region of the
  coordinator is one step; request threads interleave freely.
- **Restore flights** (`Restore*.dfy`). Leaders, followers, common row-prefix trunks
  and bounded leases under every scheduler callback.
- **Rows, slabs, digests, capture leases** (`RowCodec`, `RowRestore`,
  `NativeSlabs`, `PrefixDigests`, `CaptureLeases`).

Objects that the code updates in place are classes here (`Scheduler`, `Worker`,
`Inventory`, `PageHistoryReconstruction`, `PageDeltaExecutor`,
`PageBaseReadFlights`, `RestoreScheduler`, `CaptureReadLeases`). Each method is
specified by a function of the state before it; the theorems are about those
functions.

Reading notes:

- SHA-256, the header encodings and the struct packings are function parameters.
  `Faithful` says that a canonical header reads back as what was written; `Exact`
  says that fixed-width fields determine their values. No result assumes that the
  hash is free of collisions.
- The connector keeps one dictionary per fact and rank; the model keeps one
  dictionary of records per rank. A missing key and a record's default coincide.
- Page groups are flattened into one list of layers that name their group.
- The search for a lease is documented to return the longest live one (lines
  2055-2118). It prefers a root that its own flight published, so a longer trunk
  published by another flight is passed over: `ShorterLeasePreferred` is such an
  input, and `LongestLeaseExactly` says for all inputs when the promise holds.
- Candidates of a lookup come shortest first (`Ascend`), as the prefixes of one
  prompt do. `Orderly` says so of a run.
- A report is harmless to the cycle being collected if it brings no chunk of a
  later cycle and none of the older state that a synchronised rank is at: such a
  chunk makes the scheduler forget the chunks it has, and the cycle starts again.
- `compose_page_history` never compares boundaries, the in-place reconstruction
  does. `InPlaceIsSteps` therefore carries the condition that boundaries meet.
- The executor's cache is keyed by path. That two sources with one path are the
  same bytes is `PathsAgree`, proved by `PathsNameFiles` for everything a planned
  placement may read: objects are named by content, and two stages cannot share a
  first object, because each was planned from the header in its own and boundaries
  ascend. `Chained` states those two facts, which the planner checks while it walks
  back to the base (lines 750-774). The number of arenas is a parameter.
- Keys of leases agree because worker completions name restores that were sent to
  the workers, which is the discipline `Dispatched` states of a run. One completion
  keeps the invariant exactly when its flight was dispatched or its leader has
  finished, so that the flight is only retired (`CompletionExact`);
  `CompletionBeforeDispatchBreaksKeys` is an input outside that condition, which
  workers that answer only what they were sent never produce. A finished request
  id never recurs.
- `PageBaseReadFlights` assumes that a request's own thread calls `finish`, and
  only outside `resolve`.

## Model

| member | source | states |
|---|---|---|
| `QuorumTheorems.HeldIsTheNamedState` | sparkcache/spark_context_cache_connector.py:6517-6716 | in every run with lost, duplicated and reordered reports, overflow and restarts, a synchronised or lagging rank's held set is the worker's observed inventory at exactly the sequence the scheduler reports |
| `QuorumTheorems.FullQuorumIsReal` | sparkcache/spark_context_cache_connector.py:1866-1877 | a full quorum on a digest means every physical rank is synchronised and its worker's inventory at the named sequence holds the digest |
| `QuorumTheorems.TableIsExact` | sparkcache/spark_context_cache_connector.py:6457-6476 | a rank confirms a digest exactly when it is synchronised, holds it and no load failure dropped it; a desynchronised rank confirms nothing |
| `QuorumTheorems.ReportNamesTheInventory` | sparkcache/spark_context_cache_connector.py:6867-6942 | the revision shortcut hides nothing: every report names the worker's current inventory under its own sequence |
| `QuorumTheorems.RetiredAreTheNewestReplaced` | sparkcache/spark_context_cache_connector.py:6478-6492 | the retired list is exactly the last 64 replaced generations, newest last |
| `QuorumTheorems.RetiredReportsAreInert` | sparkcache/spark_context_cache_connector.py:6494-6515 | a report of a replaced generation among the last 64 retired changes nothing at all |
| `QuorumTheorems.CycleCompletes` | sparkcache/spark_context_cache_connector.py:6620-6716 | with a stable inventory, one full cycle of delivered reports brings the rank to the newest state |
| `QuorumTheorems.StaysNewest` | sparkcache/spark_context_cache_connector.py:6560-6716 | once on the newest state, further exchanges of a stable inventory keep it there |
| `QuorumTheorems.Recovery` | sparkcache/spark_context_cache_connector.py:6560-6716 | from any reachable state, wherever the worker is in its cycle and even after overflow demanded a checkpoint, two cycles' worth of reports delivered as they are sent leave the rank synchronised on the worker's inventory and confirmed for every held digest not dropped |
| `QuorumRecovery.OneCycleRecovers` | sparkcache/spark_context_cache_connector.py:6560-6716 | in any run, the chunks of one checkpoint cycle in order are enough, whatever other actions and harmless reports come in between: the rank then holds exactly the worker's newest state, is synchronised and confirms every held digest not dropped |
| `QuorumRecovery.ChunkKeptExactly` | sparkcache/spark_context_cache_connector.py:6620-6716 | among honest chunks of no later cycle, one leaves the chunks collected for the newest state in place (or completes them) if and only if it is not a chunk of the older state a synchronised rank is at |
| `QuorumCatchUp.DeltasRecover` | sparkcache/spark_context_cache_connector.py:6535-6618 | deltas alone suffice: from any point of a run where the rank lags at most sixty-four states without overflow, if every missing change arrives at least once, in any order and with any repetition, the rank ends synchronised on the newest state |
| `QuorumCatchUp.NextStateTaken` | sparkcache/spark_context_cache_connector.py:6535-6618 | in every run, a report with the delta next in sequence moves a synchronised rank at least to that state, and exactly there, synchronised, unless the report carries a later checkpoint |
| `QuorumProgress.AbsorbDeltaExact` | sparkcache/spark_context_cache_connector.py:6593-6618 | a new delta joins those waiting, and the rank then stands as far as they reach without a gap, holding exactly what they make of its state; with sixty-four waiting, a checkpoint is required and the furthest is given up |
| `QuorumProgress.NextDeltaApplies` | sparkcache/spark_context_cache_connector.py:6593-6618 | a delta in sequence is applied: with nothing pending the rank is at its number, holding its state less the removed plus the added, synchronised unless a checkpoint is required |
| `QuorumProgress.EarlyDeltaWaits` | sparkcache/spark_context_cache_connector.py:6593-6618 | a delta beyond the next waits, the state stays and the rank is desynchronised |
| `QuorumProgress.OtherDeltas` | sparkcache/spark_context_cache_connector.py:6560-6606 | malformed, old and repeated deltas change nothing; a contradicting one demands a checkpoint and moves nothing |
| `QuorumProgress.WellFormedExactly` | sparkcache/spark_context_cache_connector.py:6560-6592 | a delta is accepted exactly when it leads from one number to the next, names at most sixty-four values, all of them digests, and none twice |
| `QuorumProgress.NothingDue` | sparkcache/spark_context_cache_connector.py:6535-6558 | in every run no rank has a delta waiting that could be applied |
| `QuorumProgress.RestartIsHeard` | sparkcache/spark_context_cache_connector.py:6494-6515 | in every run, delivering a report makes its rank follow its process exactly if that is not among the last 64 replaced |
| `QuorumProgress.NewGenerationHeard` | sparkcache/spark_context_cache_connector.py:6478-6515 | a new generation not among the retired starts at sequence 0 with nothing held or pending, the old one is retired and its confirmations withdrawn, and then the report is absorbed |
| `QuorumHistory.HistoryIsRecent` | sparkcache/spark_context_cache_connector.py:6867-6900 | in every run a worker keeps exactly the last 64 changes that fit a report |
| `QuorumHistory.EveryChangeIsResent` | sparkcache/spark_context_cache_connector.py:6926-6942 | every kept change is sent again within one turn of the history |
| `QuorumProtocol.RunKeeps` | sparkcache/spark_context_cache_connector.py:6456-6761 | the protocol invariant holds after every run of observations, mutations, reports, deliveries, restarts and load failures |
| `QuorumSafety.AbsorbReportKeeps` | sparkcache/spark_context_cache_connector.py:6517-6716 | whatever any report contains, honest or not, pending deltas or a required checkpoint imply desynchronised and the table stays exact |
| `QuorumSafety.DropKeeps` | sparkcache/spark_context_cache_connector.py:6804-6829 | a load failure drops one digest for all ranks and leaves the rest of the table exact |
| `QuorumHonesty.DrainStaysHonest` | sparkcache/spark_context_cache_connector.py:6535-6558 | draining buffered deltas in any order of arrival lands on a state of the worker's history |
| `QuorumHonesty.AbsorbDeltaStaysHonest` | sparkcache/spark_context_cache_connector.py:6560-6618 | a delta that is early, late, repeated, overflowing or in sequence never makes the held set differ from the named state |
| `QuorumHonesty.AssembledIsState` | sparkcache/spark_context_cache_connector.py:6677-6716 | a complete set of chunks of one checkpoint assembles to exactly the state it was cut from |
| `QuorumHonesty.AbsorbCheckpointStaysHonest` | sparkcache/spark_context_cache_connector.py:6620-6716 | chunks of different cycles and states, in any order, never mix into a held set |
| `QuorumTypes.ChunksSpell` | sparkcache/spark_context_cache_connector.py:6901-6923 | the first n chunks of an inventory, one after another, are its leading items, and all chunks together are the inventory |
| `QuorumScheduler.Scheduler.AbsorbWorkerDelta` | sparkcache/spark_context_cache_connector.py:6560-6618 | the in-place update of the rank's record and the quorum table equals the absorption that `AbsorbDeltaExact` and `OtherDeltas` characterise |
| `QuorumScheduler.Scheduler.AbsorbWorkerCheckpoint` | sparkcache/spark_context_cache_connector.py:6620-6716 | the in-place chunk bookkeeping equals the specified absorption |
| `QuorumScheduler.Scheduler.DrainWorkerDeltas` | sparkcache/spark_context_cache_connector.py:6535-6558 | the draining loop equals the specified drain |
| `QuorumScheduler.Scheduler.AcceptWorkerGeneration` | sparkcache/spark_context_cache_connector.py:6494-6515 | acceptance and the switch to a new generation, with its epoch and retirement rules |
| `QuorumScheduler.Scheduler.AbsorbQuorum` | sparkcache/spark_context_cache_connector.py:6718-6750 | a list of reports is absorbed in order, each malformed or foreign one skipped |
| `QuorumScheduler.Scheduler.HasFullQuorum` | sparkcache/spark_context_cache_connector.py:1866-1877 | true exactly when every physical rank confirms the digest |
| `QuorumWorker.Worker.BuildQuorumReport` | sparkcache/spark_context_cache_connector.py:6867-6942 | one report: observe, fix the next state, then the delta and the checkpoint chunk that are due |
| `HeldInventory.Inventory.Update` | sparkcache/held_inventory.py:56-63 | the contents are the union and the revision advances exactly when something was added |
| `HeldInventory.Inventory.IntersectionUpdate` | sparkcache/held_inventory.py:74-79 | the contents are the intersection and the revision advances exactly when something was removed |
| `HeldInventory.Inventory.SymmetricDifferenceUpdate` | sparkcache/held_inventory.py:81-85 | the contents are the symmetric difference and the revision advances exactly when they changed |
| `Pages.SnapshotRoundTrip` | sparkcache/spark_context_cache_hybrid.py:333-369 | decoding an encoded snapshot returns its layers |
| `Pages.PlanPageSnapshot` | sparkcache/spark_context_cache_hybrid.py:253-330 | the planning loop accepts exactly the headers and lengths that match, with the spans where the layers lie |
| `Pages.LayersOfJoin` | sparkcache/spark_context_cache_hybrid.py:333-369 | splitting joined layers at the planned offsets gives the layers back |
| `PageDelta.PlanPageDelta` | sparkcache/spark_context_cache_hybrid.py:395-576 | a delta header is accepted exactly when identity, bounds, reuse counts, tail descriptors and total length agree |
| `PageDelta.ApplyVerifiedPageDelta` | sparkcache/spark_context_cache_hybrid.py:986-1036 | joining base prefixes and authenticated tails equals the layerwise application, with its errors in order |
| `PageDeltaEncode.DeltaRoundTrip` | sparkcache/spark_context_cache_hybrid.py:595-690 | applying the delta of two snapshots to the base gives the result in canonical form exactly when that form hashes as the result does; for a canonical result that is the result itself |
| `PageDeltaEncode.DeltaIsSmallest` | sparkcache/spark_context_cache_hybrid.py:622-650 | the encoded delta reuses in every group the largest number of leading base pages that all its layers share with the result |
| `PageDeltaEncode.EncodePageDelta` | sparkcache/spark_context_cache_hybrid.py:595-690 | the page-comparing loops produce the specified delta |
| `PageCapture.CaptureRoundTrip` | sparkcache/spark_context_cache_hybrid.py:693-857 | a delta made from captured pages applies to the base and gives exactly the materialised extension, under the digest it binds |
| `PageCapture.MaterializedLayers` | sparkcache/spark_context_cache_hybrid.py:1241-1307 | each layer of the completed snapshot is the base layer's reused pages followed by its own part of the capture, and those parts in order are the capture |
| `PageCapture.EncodePageDeltaFromCapture` | sparkcache/spark_context_cache_hybrid.py:693-857 | with or without materialising, the encoder binds the same result and returns it only when asked |
| `PageCapture.MaterializePageExtensionCapture` | sparkcache/spark_context_cache_hybrid.py:1241-1307 | the range-reading loop builds the specified extension and rejects truncated or trailing captures |
| `LayerRanges.OverlayMeaning` | sparkcache/spark_context_cache_hybrid.py:1173-1196 | laying a tail over a layer's ranges succeeds whenever the prefix is there, and means the kept prefix followed by the tail |
| `LayerRanges.OverlaySurvivors` | sparkcache/spark_context_cache_hybrid.py:1173-1196 | the owners of a layer's ranges are exactly the tails that still write a byte, oldest first, each once |
| `PageHistory.ComposePageHistory` | sparkcache/spark_context_cache_hybrid.py:1131-1238 | for any planned stages and any reader, the range-ownership composer equals linking, checking the surviving tails, stacking and checking the newest digest; coverage errors never occur, only surviving tails are asked for, each once, and all of them before the final digest |
| `PageHistory.StackSize` | sparkcache/spark_context_cache_hybrid.py:1173-1196 | in a linked history no stage keeps a prefix that is not there |
| `PageHistoryTheorems.SurvivorsDecide` | sparkcache/spark_context_cache_hybrid.py:1131-1238 | tails that agree on the survivors stack to the same layer: superseded tails leave no trace |
| `PageHistoryTheorems.ComposeRefinesSteps` | sparkcache/spark_context_cache_hybrid.py:1131-1238 | for every base and non-empty chain that stage-by-stage application accepts, composing returns the very same verified snapshot, with no assumption on the hash |
| `PageReconstruction.PageHistoryReconstruction.Apply` | sparkcache/spark_context_cache_hybrid.py:1068-1123 | overwriting through a view and then growing equals one verified stage; any refusal leaves the object unusable |
| `PageReconstruction.PageHistoryReconstruction.Finish` | sparkcache/spark_context_cache_hybrid.py:1125-1128 | only a proved history yields bytes, and yields its verified payload |
| `PageReconstruction.InPlaceIsSteps` | sparkcache/spark_context_cache_hybrid.py:1068-1128 | an in-place run ends proved if and only if every stage is accepted in turn and the boundaries meet, and then holds the same bytes |
| `PageReconstruction.BrokenForever` | sparkcache/spark_context_cache_hybrid.py:1068-1128 | after a rejected stage no later stage is ever proved |
| `CudaSources.PageObjects` | sparkcache/spark_context_cache_cuda_hybrid_restore.py:198-261 | descriptors are accepted exactly when they tile the payload in objects within the arena and prefetch bounds |
| `CudaSources.TailExtents` | sparkcache/spark_context_cache_cuda_hybrid_restore.py:290-337 | every tail gets its extent exactly when none is empty or over the bound; tiled objects never leave a tail uncovered |
| `CudaSources.ExtentCarries` | sparkcache/spark_context_cache_cuda_hybrid_restore.py:290-337 | reading an extent piece by piece gives the tail's own bytes |
| `CudaSources.FragmentsRead` | sparkcache/spark_context_cache_cuda_hybrid_restore.py:513-550 | the fragments cut from tiled sources read exactly the requested range |
| `CudaPlan.CutContent` | sparkcache/spark_context_cache_cuda_hybrid_restore.py:893-915 | cutting a layer's logical ranges, empty ones included, keeps exactly its first bytes |
| `CudaSpans.SplitFills` | sparkcache/spark_context_cache_cuda_hybrid_restore.py:513-550 | splitting a range at its sources' boundaries covers it, reads its bytes and places them densely |
| `CudaRestore.PlanCudaPageDeltaRestore` | sparkcache/spark_context_cache_cuda_hybrid_restore.py:837-980 | the planner accepts exactly the linked histories it should, never meets a coverage gap, and its spans read in order are the stacked layers byte for byte, by extents or whole objects; each span's destination is the layer its snapshot offset lies in, each layer is covered to its full size without gap, and only the history's own sources are named |
| `CudaRestore.PlacementRefinesComposition` | sparkcache/spark_context_cache_cuda_hybrid_restore.py:864-957 | over the same files, header and spans are the composed snapshot, and composing succeeds exactly when surviving tails and those bytes check out |
| `CudaBatches.DeltaSubmissionBatches` | sparkcache/spark_context_cache_cuda_hybrid_restore.py:1526-1585 | an order-preserving greedy partition within arena, distinct-source and 4096-span bounds |
| `CudaBatches.PackPlanned` | sparkcache/spark_context_cache_cuda_hybrid_restore.py:1526-1585 | the packer never refuses what the planner hands on |
| `CudaExecutor.PageDeltaExecutor.MakeRoom` | sparkcache/spark_context_cache_cuda_hybrid_restore.py:1842-1846 | evicting oldest first keeps the byte count equal to the cached sizes and makes room |
| `CudaExecutor.PageDeltaExecutor.RunBatch` | sparkcache/spark_context_cache_cuda_hybrid_restore.py:1717-1860 | one batch: load, fill the arena after digesting what still lies in it, digest the previous batch, submit exactly the batch's bytes, retire sources |
| `CudaExecutor.PageDeltaExecutor.Execute` | sparkcache/spark_context_cache_cuda_hybrid_restore.py:1657-1870 | a run submits each batch's own bytes whatever was evicted, digests header and payload once in order, leaves nothing cached, and succeeds exactly on the promised digest |
| `CudaPlacement.BuffersHoldLayers` | sparkcache/spark_context_cache_cuda_hybrid_restore.py:1657-1870 | whatever the page buffers held and however the planned spans are batched, submitting the batches leaves every buffer equal to its own layer |
| `CudaPlacement.PathsNameFiles` | sparkcache/spark_context_cache_cuda_hybrid_restore.py:290-337 | of all objects and tail extents a history may read, two with the same path are the same bytes, with no assumption on the hash |
| `CudaPlacement.RestorePageDelta` | sparkcache/spark_context_cache_cuda_hybrid_restore.py:837-980 | planner, packer and executor in sequence: success leaves every page buffer equal to its layer of the history's result, which has the declared digest; when every source checks out it happens exactly for accepted histories with that digest |
| `CudaPlacement.RestoredIsComposed` | sparkcache/spark_context_cache_cuda_hybrid_restore.py:864-957 | the layers so restored are the composed snapshot, and composing succeeds exactly when surviving tails and the result digest check out |
| `PageSlabs.PlanPageSlabs` | sparkcache/spark_context_cache_cuda_hybrid_restore.py:999-1033 | the window-by-layer loop gives the specified slabs and never meets a slab without copies |
| `PageSlabs.EachByteOnce` | sparkcache/spark_context_cache_cuda_hybrid_restore.py:999-1033 | every byte of every layer is in exactly one copy of exactly one slab |
| `PageSlabs.WindowFills` | sparkcache/spark_context_cache_cuda_hybrid_restore.py:1007-1029 | no copy of a slab is out of bounds, and submitting it moves every layer's filled front to the slab's end |
| `PageSlabs.PlaceSnapshot` | sparkcache/spark_context_cache_cuda_hybrid_restore.py:1092-1112 | whatever the page buffers held, submitting all slabs of an accepted snapshot leaves in them exactly the layers that decoding finds |
| `BaseReadTheorems.SingleFlight` | sparkcache/page_base_read_flights.py:229-346 | in every interleaving each flight starts its reader at most once |
| `BaseReadTheorems.ObtainedIsOwn` | sparkcache/page_base_read_flights.py:229-346 | whoever obtains a value obtains what its own flight's leader read, of exactly the declared length; no thread finds a result already released |
| `BaseReadTheorems.FollowersProgress` | sparkcache/page_base_read_flights.py:317-346 | a waiting follower can go on or its leader's reader is still running |
| `BaseReadTheorems.BoundsHold` | sparkcache/page_base_read_flights.py:127-200 | request map and member sets are inverse, stored flights have members, and twice the declared and twice the retained bytes, flights and participants stay within their limits |
| `BaseReadSharing.RegisterExactly` | sparkcache/page_base_read_flights.py:127-200 | a registration is refused exactly for no ids, an empty id, closing, a rejected flight, the four opening limits, or nobody who can join; otherwise the free requests join the standing flight in order while there is room, or open one led by the first of them |
| `BaseReadSharing.WaitersObtain` | sparkcache/page_base_read_flights.py:317-346 | in every interleaving, once the reader has returned every member still waiting and not cancelled can go on and obtains exactly that value, and fails only if the reader did |
| `BaseReadSharing.ReaderObtains` | sparkcache/page_base_read_flights.py:262-315 | the reader obtains what it read unless cancelled or closed, and fails exactly on a value not of the declared positive length |
| `BaseReadSharing.RegisteredEnter` | sparkcache/page_base_read_flights.py:229-260 | a registered request that resolves under its key becomes the one reader if it is the first, and otherwise waits for it |
| `BaseReadProtocol.RunInv` | sparkcache/page_base_read_flights.py:107-421 | the coordinator invariant holds after every sequence of register, resolve regions, cancel, finish and close |
| `BaseReadFlights.PageBaseReadFlights.RegisterCohort` | sparkcache/page_base_read_flights.py:127-200 | registration with its limits, joins, refusals and roll-back equals the step that `RegisterExactly` characterises |
| `BaseReadFlights.PageBaseReadFlights.PublishRead` | sparkcache/page_base_read_flights.py:262-315 | the leader's region after its reader returned or raised equals the specified step |
| `BaseReadFlights.PageBaseReadFlights.Close` | sparkcache/page_base_read_flights.py:369-383 | closing cancels every member and empties the table, in whatever order the members are dropped |
| `RestoreTheorems.FlightsConsistent` | sparkcache/spark_context_cache_connector.py:1879-2135 | after any callbacks bindings and follower sets are inverse, every follower waits for the one key its flight would publish or has published, and followers, leases, unpublished flights and the loads awaiting allocation stay bounded |
| `RestoreTheorems.LeasesAreVerified` | sparkcache/spark_context_cache_connector.py:2002-2135 | a lease is named or handed out only after every worker finished, under the key its flight published |
| `RestoreTheorems.NoFlightStranded` | sparkcache/spark_context_cache_connector.py:1941-1953 | every stored flight is still led or is a published lease left by its finished leader |
| `RestoreTheorems.CompletionBeforeDispatchBreaksKeys` | sparkcache/spark_context_cache_connector.py:1879-1935 | without completions following dispatch a follower can be bound to a key its flight did not publish |
| `RestoreCallbacks.CompletionExact` | sparkcache/spark_context_cache_connector.py:6833-6846 | one worker completion keeps the whole invariant if and only if its flight was dispatched or its leader has finished |
| `RestoreCallbacks.StaleAreOldest` | sparkcache/spark_context_cache_connector.py:2039-2049 | a lease is evicted only if every kept lease is at least as new |
| `RestoreCallbacks.MatchSound` | sparkcache/spark_context_cache_connector.py:2254-2451 | a lookup, whether following, leading, joining a trunk or starting, keeps the whole invariant |
| `RestoreAnswers.LookupExactly` | sparkcache/spark_context_cache_connector.py:2309-2451 | a request that neither follows nor leads takes the longest root every rank offers: it follows that root's flight, else the best common trunk, else leads its own flight and is offered exactly the root's span, with its load asked for; it is skipped, and nothing changes, just when none of these applies |
| `RestoreAnswers.SegmentExactly` | sparkcache/spark_context_cache_connector.py:1879-1935 | the trunk joined is the longest common prefix over all flights that can still be joined, of the first such flight, and it is joined exactly if that flight has room |
| `RestoreAnswers.ShareableExactly` | sparkcache/spark_context_cache_connector.py:2426-2432 | a new flight lists the shorter roots every rank offers, the longest 64 of them, in order |
| `RestorePromises.LookupInRuns` | sparkcache/spark_context_cache_connector.py:2309-2451 | the same in every run whose lookups bring candidates shortest first |
| `RestoreOutcomes.LeaderLookup` | sparkcache/spark_context_cache_connector.py:2282-2308 | a leader's lookup retires a promoted restore, waits while its load is on the way, repeats the offer while the quorum stands, and otherwise gives the flight up and looks up anew |
| `RestoreOutcomes.FollowerLookup` | sparkcache/spark_context_cache_connector.py:2266-2281 | a follower leaves once tokens are computed locally and otherwise waits for its flight |
| `RestorePromises.NoRestoreForgotten` | sparkcache/spark_context_cache_connector.py:2434-2475 | in every run, each led flight not yet sent to the workers has its load waiting, for blocks under exactly its root and span or to be sent under its root |
| `RestoreLoads.DispatchExactly` | sparkcache/spark_context_cache_connector.py:2646-2677 | dispatch sends exactly the pending loads and marks exactly the flights their requests lead, with their blocks |
| `RestoreLoads.WorkersExactly` | sparkcache/spark_context_cache_connector.py:6763-6846 | a flight goes exactly if an admission of its root or its own blocks were hit or it completes for a finished leader; the others stay, finished by the workers exactly if their leader's load was received |
| `RestoreOutcomes.NamedExactly` | sparkcache/spark_context_cache_connector.py:2002-2018 | a lease is named exactly for a live leader whose restore every worker has finished and that is not published, under the trunk if there is one, else the root |
| `RestoreOutcomes.PublishExactly` | sparkcache/spark_context_cache_connector.py:2020-2050 | publication succeeds exactly for such a restore under that key, and of all leases the newest two are kept |
| `RestoreOutcomes.ExpireExactly` | sparkcache/spark_context_cache_connector.py:1975-1981 | exactly the leases whose time has come end |
| `RestoreOutcomes.LeaseForExactly` | sparkcache/spark_context_cache_connector.py:2090-2118 | a lease is found exactly if a candidate is published: the longest root published by its own flight, and only without one the longest published key |
| `RestoreOutcomes.LongestLeaseExactly` | sparkcache/spark_context_cache_connector.py:2052-2118 | the lease found is the longest live one if and only if no longer published trunk stands behind a root that published itself |
| `RestoreOutcomes.ShorterLeasePreferred` | sparkcache/spark_context_cache_connector.py:2052-2118 | the promise of the longest lease fails on two leases: a short root is preferred to a longer trunk |
| `RestoreOutcomes.AttachExactly` | sparkcache/spark_context_cache_connector.py:2065-2135 | a follower gets its flight's lease once published under its key; another request follows the lease found unless it leads that flight or the flight is full |
| `RestoreOutcomes.ScopeRejectedExactly` | sparkcache/spark_context_cache_connector.py:1515-1539 | a rejected scope ends the request's following and its flight unless that was sent to the workers |
| `RestoreOutcomes.LeaseRejectedExactly` | sparkcache/spark_context_cache_connector.py:2237-2253 | a rejected lease ends its follower's binding and the flight the request leads |
| `RestoreOutcomes.LeaveExactly` | sparkcache/spark_context_cache_connector.py:1955-1973 | a follower that leaves frees an unpublished trunk exactly if nobody else of the flight waits for that key |
| `RestoreCallbacks.FinishedSound` | sparkcache/spark_context_cache_connector.py:5425-5471 | a finished request leaves its flight retired, published or draining, according to whether it ran and whether it holds a lease; it follows and waits for nothing any more, and the invariant is intact |
| `RestoreCallbacks.WorkerOutputSound` | sparkcache/spark_context_cache_connector.py:6763-6846 | failures and completions of workers keep the invariant |
| `RestoreScheduler.RestoreScheduler.GetNumNewMatchedTokens` | sparkcache/spark_context_cache_connector.py:2254-2451 | the in-place lookup equals the one that `LookupExactly`, `LeaderLookup` and `FollowerLookup` characterise, answer included |
| `RestoreScheduler.RestoreScheduler.JoinSegmentFlight` | sparkcache/spark_context_cache_connector.py:1879-1935 | the search over flights and prefixes and the rebinding of earlier followers equal the specified join |
| `RestoreScheduler.RestoreScheduler.RemoveRestoreFollower` | sparkcache/spark_context_cache_connector.py:1955-1973 | a leaving follower frees the trunk exactly when no binding still needs it and nothing is published |
| `RestoreScheduler.RestoreScheduler.LeasePublished` | sparkcache/spark_context_cache_connector.py:2020-2050 | publishing stamps the lease and retires all but the newest two |
| `RowCodec.OwnedPartition` | sparkcache/spark_context_cache_codec.py:148-156 | a position belongs to exactly the rank that is its remainder |
| `RowCodec.LocalSlots` | sparkcache/spark_context_cache_codec.py:159-178 | slots are computed exactly when every position is below the degree times the blocks' rows, and the row with local ordinal `j * size + o` gets slot `blocks[j] * size + o` |
| `RowCodec.SlotsDistinct` | sparkcache/spark_context_cache_codec.py:159-178 | distinct blocks give distinct rows distinct slots |
| `RowCodec.UnpackRecord` | sparkcache/spark_context_cache_codec.py:397-424 | splitting succeeds exactly on payloads of the exact size and gives each layer its own part |
| `RowCodec.SplitOfPacked` | sparkcache/spark_context_cache_codec.py:367-424 | splitting a packed record gives every layer of the kind its rows back, and nothing else |
| `RowCodec.PackedInOrder` | sparkcache/spark_context_cache_codec.py:370-395 | a record is its layers' rows one after another, in plan order |
| `RowCodec.PacksExactly` | sparkcache/spark_context_cache_codec.py:370-395 | packing succeeds exactly when the kind has a layer and every layer of it has rows of the full length |
| `RowRestore.StoreChunks` | sparkcache/spark_context_cache_connector.py:433-498 | a snapshot of whole rows is always stored, chunk after chunk |
| `RowRestore.Reassemble` | sparkcache/spark_context_cache_connector.py:5081-5107 | stored chunks reassemble to every layer's bytes, and a chunk with other positions is refused |
| `RowRestore.RowsSurvive` | sparkcache/spark_context_cache_connector.py:5889-5919 | for any rank and distinct new blocks, scattering gathered rows puts the row of a position's old slot at its new slot and changes no other row |
| `RowRestore.StoreThenRestore` | sparkcache/spark_context_cache_connector.py:433-498 | for any degree dividing the chunk length, any rank and distinct new blocks, gathering, chunking, packing, unpacking, reassembling and scattering put, for every layer, row `o` of the `j`-th old block of each owned position into row `o` of the `j`-th new one and change no other row; it fails exactly when the span does not fit the blocks, and then writes nothing |
| `RowRestore.OwnedWhole` | sparkcache/spark_context_cache_connector.py:436-455 | every rank owns the same number of rows of a chunk-aligned span |
| `PrefixDigests.ChunkPrefixDigests` | sparkcache/spark_context_cache_codec.py:234-273 | every digest of the single pass is the digest of that prefix alone, and exactly the invalid inputs are refused |
| `PrefixDigests.PreimageUnambiguous` | sparkcache/spark_context_cache_codec.py:100-122 | for one salt and token count, hashed bytes are equal exactly if the leading tokens are equal and the same features start inside the prefix |
| `PrefixDigests.ActiveExactly` | sparkcache/spark_context_cache_codec.py:100-107 | the hashed media are exactly the features whose offset is below the count, even if they end beyond it, in order |
| `NativeSlabs.PlanNativeRestore` | sparkcache/spark_context_cache_native_restore.py:143-256 | planning succeeds exactly on contiguous, divisible, fitting chunks ending at the span, and places them in order |
| `NativeSlabs.ChunksApart` | sparkcache/spark_context_cache_native_restore.py:207-243 | chunks of one slab are disjoint, inside the arena and aligned |
| `NativeSlabs.RowsTotal` | sparkcache/spark_context_cache_native_restore.py:187-256 | first slots are the exact prefix sums of rows, totalling the rank's share of the span |
| `CaptureLeases.LeasesConserve` | sparkcache/capture_read_leases.py:34-83 | in every run each block's count is what others hold plus the live leases naming it, live leases stay within the bound, and no lease is released twice |
| `CaptureLeases.CompleteConserves` | sparkcache/capture_read_leases.py:55-73 | a lease is released exactly when all distinct ranks have acknowledged, and then its references go back |
| `CaptureLeases.GrantExactly` | sparkcache/capture_read_leases.py:34-53 | a reservation is declined exactly when disabled or full and otherwise granted exactly for proven blocks inside the pool, one new lease holding each named block once |
| `CaptureLeases.CompleteExactly` | sparkcache/capture_read_leases.py:55-73 | an acknowledgement adds exactly its ranks until all are there, and then gives back exactly the lease's references |
| `CaptureLeases.QuarantineExactly` | sparkcache/capture_read_leases.py:75-83 | a failed read stays pinned and every later reservation is declined |
| `CaptureLeases.CaptureReadLeases.ReserveBlocks` | sparkcache/capture_read_leases.py:34-53 | one reference per distinct valid block, or a decline, or a refusal |

## Left out

- The startup handshake: it truncates the inventory and may name a sequence before the worker fixes its first state, so only the report stream is modelled.
- The legacy report path that sends whole inventories; current workers never use it.
- Report fields of the wrong type are treated as missing; digests are opaque values, and order among them stands for string order.
- `ManifestStore`, capacity maintenance, prefix aliases and streaming commits are not part of this model.
- JSON, SHA-256 and CRC-32 arithmetic, and the `fast` and `none` integrity modes: only `sha256` stages are modelled.
- Page dtype, page shape and reuse policy of a layout, which no offset depends on; the sliding-window block selection.
- The order in which the comparing encoder visits layers: it finishes one group before the next and the model runs the two passes over flattened layers, with the same result.
- A capture is a byte string; a range reader that misbehaves is not modelled.
- Buffers that grow (`bytearray`) and objects held by several dictionaries are values inside their class: aliasing between them is not modelled.
- `split_snapshot`, `apply_page_delta` without verification reuse, and the one-copy-per-layer spans of a snapshot: easy beside what is proved.
- Arena reuse while the device still reads: a page slab is submitted before the next one is filled.
- Manifest and graph validation, the shared base reader and the hot snapshot of the CUDA planner; chain depth is unbounded here.
- Threads inside the CUDA executor run one after another; a failed read ends the run, and what the arena then holds is not stated.
- Counters, summaries, traces, timings and log lines.
- Wall-clock time is an arbitrary input.
- Tail publication of row snapshots: stores start at position 0. Position words are integers, not bytes.
- RestoreTheorems.FlightsConsistent: a request may be both a leader and a follower; that it is not is never claimed, because the lease lookup checks only the flight it joins.
- RestoreTheorems.FlightsConsistent: says nothing about the spans of bindings, because one digest may be offered with different spans.
- BaseReadTheorems.FollowersProgress: states that a waiting follower is enabled or its reader runs, not that a scheduler eventually runs it.

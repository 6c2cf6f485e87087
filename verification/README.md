# A verified model of the HAL 9000 machine-self

HAL keeps a persistent, crash-tolerant picture of itself under
`src/hal9000/sentience/`: state machines over SQLite tables, bounded indexes that must
keep agreeing with an unbounded history, and an append-only ledger that everything
else is committed with. The Hermes client and service under `src/hal9000/hermes/`
carry its requests and prompts. This project models those state machines in Dafny
and proves what every run of them keeps.

Each part has the same three layers. A *specification* says, as functions on an
immutable state, what each transaction of the source does: same branches, same
constants, same error cases. *Lemmas* prove the properties over whole runs of such
steps: any order, any length, crashes between transactions where the source can
crash. *Classes* have the source's fields and methods; each method updates its own
fields and is proved equal to the specification function of the same step; those of the
RPC client, which handlers re-enter, to follow a run of such steps. Tables are maps or sequences, a transaction is one atomic step, time is a parameter that never
goes back.

| file | what it models |
|---|---|
| `Capabilities.dfy`, `Degradation.dfy` | the capability registry and the degradation engine: tables, transactions, steps |
| `CapabilityHistory.dfy` | what the registry tables say of the steps of a run |
| `DegradationInvariants.dfy`, `DegradationTheorems.dfy`, `DegradationReactions.dfy` | what every step keeps; whole-run results; every reaction and tick, told by the rows |
| `DegradationEngine.dfy` | registry and engine as objects over a shared store |
| `Sampling.dfy`, `SamplingRestore.dfy` | the bottom-k exemplar sampler, and reading it back from its rows |
| `Coalescer.dfy`, `CoalescerInvariants.dfy`, `CoalescerTheorems.dfy`, `CoalescerRuns.dfy`, `CoalescerOrder.dfy`, `CoalescerEngine.dfy` | the LRU coalescer over committed event runs |
| `Bytes.dfy`, `Envelope.dfy`, `HybridDistinct.dfy`, `SketchFile.dfy` | byte encodings, the checksum envelope, the exact/HLL distinct bucket, and its bytes |
| `Buckets.dfy`, `SketchTiers.dfy`, `SketchTiersInvariants.dfy`, `SketchTiersPass.dfy`, `SketchTiersTheorems.dfy`, `SketchTiersLate.dfy`, `SketchRetention.dfy`, `SketchRegistry.dfy` | time buckets and the hot/warm/cold roll-up of sketches |
| `Ledger.dfy`, `LedgerTheorems.dfy`, `Checkpoints.dfy` | the exact ledger, its hash chain, projection checkpoints |
| `Lease.dfy`, `Consolidation.dfy`, `EventBus.dfy`, `EventBusQueue.dfy` | the writer lease, watermark consolidation, the bounded event bus and its exact writer |
| `RpcClient.dfy`, `PromptWorkflow.dfy`, `PromptFates.dfy` | the JSON-RPC client and the prompt/preference workflow of Hermes |
| `Baselines.dfy` | the rolling median/MAD baselines |

## Assumptions

- **Degradation.** One boot and one clock. A step is a batch of registry transitions
  followed by the engine's reactions to them in order, or a tick; steps do not
  interleave. Timers are in the clock's unit, so the wall-clock fallback and the
  millisecond text of stored stamps do not show.
- **Coalescer and sampler.** The run id is a function of the key that never collides;
  an absent task and an empty one are the same key; the sample capacity is the same
  across restarts; scores are an arbitrary function of the ordinal. Seconds are cut off
  towards zero. Every transaction
  commits or leaves its tables alone, and which it does is an argument.
- **Sketch tiers.** One metric, scope and key version; the sketch library is installed;
  hot width divides warm width and warm divides cold (`Buckets.NestingNeedsDivision`
  shows that nesting fails otherwise). An update may carry any instant; the results ask
  that accepted ones are in time (`SketchTiers.Timely`), which `TimelyIsExact` shows to be
  needed. An update's read and its write are one step, and so are those of a roll-up. The
  row limits of the maintenance queries are not reached. The library's sketch is a
  function of the digests it was given. Updates and crashes may fall between any two
  transactions of a pass.
- **Ledger and checkpoints.** The hash is an arbitrary function; the tamper-evidence
  lemmas ask only that it does not collide among the rows of the two tables compared. The sequence counter rolls back with its transaction.
- **Consolidation.** One consolidator at a time; appends and crashes may fall between
  its transactions.
- **Lease.** A shared, non-decreasing clock in microseconds; owners have distinct ids.
- **Event bus.** The ledger of earlier boots has one first-occurrence event a fingerprint.
- **RPC.** A handler may call the client again inside any emission, to any depth.
- **Baselines.** Samples are real numbers; rounding is not modelled.

## Results that are not what one would expect

- A degraded episode need not have announced itself: a loss, its recovery inside the
  aggregation window and a second loss inside the flap window go straight to DEGRADED
  (`DegradationTheorems.SilentDegradation`; the exact condition is
  `AnnouncedExactlyWhenAggregationClosed`).
- The committed severity of an event run is its true maximum if and only if that
  maximum is WARNING or worse, or the first committed batch reached it
  (`CoalescerTheorems.SeverityIsMaximum`, `BelowWarningIsNotRaised`).
- When the flush of an evicted run fails, its pending observations are lost
  (`CoalescerTheorems.FailedEvictionLoses`; exactly when, `LossExactlyWhen`).
- A late observation is safe only while its cold window has not ended and no hot bucket of
  its warm window can have expired. Later, a roll-up overwrites what only the warm bucket
  still knew (`SketchTiersLate.LateChildOverwrites`), or, the row of the warm bucket
  staying marked as rolled up, never reaches the cold one (`LateNeverReachesCold`).
  `TimelyIsExact` proves the guard both ways.
- Without the sketch library, two exact buckets can merge into one that is refused when
  read back (`HybridDistinct.MergedCanBeUnreadable`, for which limits), and merging an
  unavailable bucket drops its update count (`MergeCountsUpdates`).
- Two lease owners can both believe in an unexpired grant for less than a millisecond,
  because the stored expiry is cut off (`Lease.OverlapHappens`, `OverlapIsShort`; exactly
  when, `DisplacedExactlyWhen`).
- Only the first drop summary of a bus whose append does not raise reaches the ledger:
  every summarised drop is told of if and only if no summary was emitted, or exactly one
  whose append did not raise (`EventBus.LedgerKeepsFirstSummary`).
- A severe fingerprint can end without its first-occurrence event (`EventBus.MissingFirst`):
  once the writer has drained, exactly when no earlier boot recorded it and every append
  made for it raised (`MissingExactlyWhen`). A further append is made exactly when it is
  observed after it has left the cache (`TriedExactlyWhenUncached`).
- Requests made by handlers while a disconnect is being reported are accepted and stay
  pending (`RpcClient.ReentrantRequestOutlivesDisconnect`).
- A model reply handled while the link is down leaves the preference workflow pending
  on a request that is never answered (`PromptWorkflow.ReplyIntoDeadLinkSticks`; exactly
  when, `DeadExactlyWhen`; until when, `StuckExactlyUntil`). Connecting anew leaves pending
  requests in place (`src/hal9000/hermes/client.py:161-179`), so such a reply can come.
- The columns `idempotency_key`, `observed` and `internal` are outside the hash chain
  (`LedgerTheorems.UnhashedColumnsAreFree`).

## Model

| member | source | states |
|---|---|---|
| Capabilities.ImpactMeaning | src/hal9000/sentience/capabilities/task_impact.py:16-33 | a loss degrades if and only if the task needs the capability or it is required for thinking or acting; it is critical if and only if the task needs it and losing it is unsafe |
| Degradation.ActiveIsLatest | src/hal9000/sentience/degradation/engine.py:146-151 | the active row is the latest started among the non-nominal ones |
| Degradation.RecoveredIsLatest | src/hal9000/sentience/degradation/engine.py:153-167 | the flap query picks the nominal row that recovered last |
| Degradation.StatusIsLatest | src/hal9000/sentience/degradation/engine.py:52-57 | status reports the row that started last |
| DegradationInvariants.StepKeeps | src/hal9000/sentience/degradation/engine.py:59-129 | every legal step keeps the invariant of episodes, outbox, causes and spacing, and leaves the open episode settled with its capabilities |
| DegradationInvariants.RunStable | src/hal9000/sentience/degradation/engine.py:59-129 | so every state of every run satisfies it |
| DegradationInvariants.OnTransitionKeeps | src/hal9000/sentience/degradation/engine.py:59-93 | reacting to one recorded transition keeps the invariant |
| DegradationTheorems.PhrasesAreSpaced | src/hal9000/sentience/degradation/engine.py:83-92 | on any run an episode gets at most one phrase of each kind, and two degradation phrases are created at least aggregation + stability + flap apart |
| DegradationTheorems.OpenEpisode | src/hal9000/sentience/degradation/engine.py:103-129 | at most one episode is open, the latest; DEGRADING and DEGRADED mean some required capability is not ready, RECOVERING that all are; status reports it for a positive flap window |
| DegradationTheorems.LossesArePartitioned | src/hal9000/sentience/degradation/engine.py:261-327 | the cause lists of the episodes, in order, are exactly the material transitions in order; lost sets, tasks and severity are explained by them |
| DegradationTheorems.EpisodesOnlyGrow | src/hal9000/sentience/degradation/engine.py:261-327 | severity, lost, affected, required and cause sets never shrink within an episode, and a phrase stays |
| DegradationTheorems.RecoveryHistory | src/hal9000/sentience/degradation/engine.py:414-442 | a recovering episode has been in that one recovery since a state of the run, all its required capabilities ready in every state since |
| DegradationTheorems.ClosedOnlyWhenStable | src/hal9000/sentience/degradation/engine.py:115-129 | an episode closes only as a phrase-less transient or by a tick after a recovery that lasted the stability window with everything ready throughout |
| DegradationTheorems.LossIsWaitedFor | src/hal9000/sentience/degradation/engine.py:76-93 | every material loss of a batch is charged to an episode that names it and waits for every ready required capability and all the task needs; that episode stands open if and only if something it waits for is not ready |
| DegradationTheorems.TickAnnounces | src/hal9000/sentience/degradation/engine.py:103-114 | the first tick at or after the aggregation window makes the episode DEGRADED with one phrase; an earlier one changes nothing |
| DegradationTheorems.TickEndsRecovery | src/hal9000/sentience/degradation/engine.py:115-129 | a tick ends a recovery if and only if it has lasted the stability window, and then there is a recovery phrase |
| DegradationTheorems.AnnouncedExactlyWhenAggregationClosed | src/hal9000/sentience/degradation/engine.py:103-114 | on any run an episode has a degradation phrase if and only if some tick found it DEGRADING at or after the end of its aggregation window |
| DegradationTheorems.SilentDegradation | src/hal9000/sentience/degradation/engine.py:306-308 | a run that ends DEGRADED with an empty outbox |
| DegradationReactions.LossStartsOrReopens | src/hal9000/sentience/degradation/engine.py:76-93 | on any run, a material loss while no episode is open starts a DEGRADING episode now if and only if every earlier one recovered at least the flap window ago, and otherwise re-opens the last one as DEGRADED; while one is open it is added to it; the causes, lost and required capabilities, tasks and severity are those given by the tables |
| DegradationReactions.OtherRowsReconsider | src/hal9000/sentience/degradation/engine.py:69-79 | on any run, every other transition only closes a transient, starts a recovery or ends one, as the readiness of what the episode waits for says |
| DegradationReactions.TickSpelledOut | src/hal9000/sentience/degradation/engine.py:95-129 | on any run, a tick announces at the end of the aggregation window, finishes at the end of the stability window, and otherwise changes nothing but the clock |
| DegradationReactions.TellingIsTheStep | src/hal9000/sentience/service.py:772-783 | the row-by-row states of a report begin with the episodes before it and end with its result |
| CapabilityHistory.ReportedRows | src/hal9000/sentience/capabilities/registry.py:219-341 | on any run, a report appends one row an update with the state before, the impact and the materiality that the definition and the needs of the task give, or, naming an undefined capability, changes nothing |
| CapabilityHistory.CurrentIsLastRow | src/hal9000/sentience/capabilities/registry.py:295-341 | on any run, the present state of a capability is that of its last row |
| CapabilityHistory.DefinitionIsLastGiven | src/hal9000/sentience/capabilities/registry.py:110-150 | on any run, a capability has the definition it was last given |
| CapabilityHistory.StepNeeds | src/hal9000/sentience/capabilities/registry.py:389-435 | what one step makes of the need of a task for a capability and of its strictness |
| CapabilityHistory.NeedsAreWhatWasAsked | src/hal9000/sentience/capabilities/registry.py:174-217 | on any run, a task needs a capability if and only if an accepted request has said so, and its loss is unsafe if and only if one of them has said that |
| DegradationEngine.CapabilityRegistry.RecordTransition | src/hal9000/sentience/capabilities/registry.py:219-341 | appends one transition row with its impact and materiality and upserts the current state; raises for an undefined capability |
| DegradationEngine.CapabilityRegistry.NewTask | src/hal9000/sentience/capabilities/registry.py:174-217 | adds a task with its requirements, once; raises if and only if the task is new and a requirement names an undefined capability, and then writes nothing |
| DegradationEngine.CapabilityRegistry.SetTaskRequirement | src/hal9000/sentience/capabilities/registry.py:389-435 | upserts a task need, unsafe-if-lost being sticky; raises for an unknown task or capability, and recognises a request made before by its idempotency key |
| DegradationEngine.Engine.GatherRequired | src/hal9000/sentience/degradation/engine.py:176-198 | collects exactly the ready required capabilities, the needs of the task and the lost one |
| DegradationEngine.Engine.Restored | src/hal9000/sentience/degradation/engine.py:329-343 | true if and only if every required capability is ready |
| DegradationEngine.Engine.Start | src/hal9000/sentience/degradation/engine.py:200-259 | appends a DEGRADING episode for the transition |
| DegradationEngine.Engine.Aggregate | src/hal9000/sentience/degradation/engine.py:261-327 | widens the episode in place and re-opens it |
| DegradationEngine.Engine.InsertPhrase | src/hal9000/sentience/degradation/engine.py:370-392 | an outbox row is inserted unless its idempotency key is taken |
| DegradationEngine.Engine.CloseAggregation | src/hal9000/sentience/degradation/engine.py:358-392 | DEGRADED, window closed, one phrase |
| DegradationEngine.Engine.Finish | src/hal9000/sentience/degradation/engine.py:467-509 | NOMINAL with one recovery phrase |
| DegradationEngine.Engine.ReconcileRecovery | src/hal9000/sentience/degradation/engine.py:345-356 | the episode follows the readiness of its capabilities |
| DegradationEngine.Engine.HandleTransition | src/hal9000/sentience/degradation/engine.py:59-93 | the new tables are those of the specified reaction |
| DegradationEngine.Engine.RunTick | src/hal9000/sentience/degradation/engine.py:95-129 | the new tables are those of the specified tick |
| DegradationEngine.ReportBatch | src/hal9000/sentience/service.py:772-783 | a batch of registry transitions followed by the reactions to them is one specified step |
| DegradationEngine.TickStep | src/hal9000/sentience/degradation/engine.py:95-129 | reading the clock and ticking is one specified step, and keeps every invariant of a run |
| Sampling.UpdateRefines | src/hal9000/sentience/sketches/sampling.py:44-63 | one update keeps: first, latest and highest of the stream, and the k smallest ordinals by (score, ordinal) in order |
| Sampling.LevelsRise | src/hal9000/sentience/events/coalescer.py:25-32 | the levels rise from DEBUG to CRITICAL |
| Sampling.FedRepresents | src/hal9000/sentience/sketches/sampling.py:44-63 | so after any stream the exemplars are the bottom-k of its ordinals |
| Sampling.RepresentationUnique | src/hal9000/sentience/sketches/sampling.py:44-68 | a sampler is determined by the history it represents |
| Sampling.StreamingIsBatch | src/hal9000/sentience/sketches/sampling.py:56-63 | streaming selection equals sorting all ordinals by score and cutting at k |
| Sampling.BottomKUnique | src/hal9000/sentience/sketches/sampling.py:56-63 | the bottom-k list is unique |
| SamplingRestore.SaveRestore | src/hal9000/sentience/sketches/sampling.py:70-94 | restoring a sampler from its committed rows gives the sampler back |
| SamplingRestore.SavedTableShows | src/hal9000/sentience/events/coalescer.py:228-256 | the exemplar table holds one row per exemplar, with the observation of its ordinal |
| CoalescerInvariants.AddKeeps | src/hal9000/sentience/events/coalescer.py:105-174 | counting an observation, after loading the run if it is not open, keeps the description of the key by its surviving history |
| CoalescerInvariants.CommitKeeps | src/hal9000/sentience/events/coalescer.py:184-257 | a flush transaction keeps it and covers everything pending |
| CoalescerInvariants.DropKeeps | src/hal9000/sentience/events/coalescer.py:106-108 | a run that is dropped cuts its history back to what was committed |
| CoalescerInvariants.LoadKeeps | src/hal9000/sentience/events/coalescer.py:109-166 | a run read back from its row and exemplars stands where the evicted one stood |
| CoalescerTheorems.RunKeeps | src/hal9000/sentience/events/coalescer.py:80-264 | along every run of adds, flushes, evictions, closes and crashes each key is described by its surviving history |
| CoalescerTheorems.CountsAreConserved | src/hal9000/sentience/events/coalescer.py:80-264 | accepted adds of a key = committed + pending + what was pending whenever its run was destroyed by a crash or by an eviction that could not be flushed |
| CoalescerTheorems.LossExactlyWhen | src/hal9000/sentience/events/coalescer.py:105-108 | a key has lost observations if and only if its run was destroyed with some pending |
| CoalescerTheorems.FailedEvictionLoses | src/hal9000/sentience/events/coalescer.py:105-108 | a run in which the flush of an evicted run fails: its observation is gone, and the add that evicted it is not counted |
| CoalescerTheorems.CalmLosesNothing | src/hal9000/sentience/events/coalescer.py:80-264 | without those the surviving history is every accepted observation, in order |
| CoalescerTheorems.CommittedRowDescribes | src/hal9000/sentience/events/coalescer.py:184-257 | count, first-seen, severity and exemplars of a committed row are those of its prefix of the history; open runs never exceed max_open_runs |
| CoalescerTheorems.RefinesCountingMap | src/hal9000/sentience/events/coalescer.py:176-182 | after a successful flush of a calm run, the row of every key describes exactly its accepted observations |
| CoalescerTheorems.SeverityIsMaximum | src/hal9000/sentience/events/coalescer.py:200-204 | the stored severity is the true maximum if and only if that is WARNING or worse or in the first batch |
| CoalescerTheorems.BelowWarningIsNotRaised | src/hal9000/sentience/events/coalescer.py:200-204 | a NOTICE after a committed DEBUG leaves DEBUG |
| CoalescerTheorems.FlushReaches | src/hal9000/sentience/events/coalescer.py:176-182 | a flush with enough successful transactions leaves nothing pending |
| CoalescerTheorems.AddedBounded | src/hal9000/sentience/events/coalescer.py:106-108 | an add keeps the LRU order a listing of the open runs within the limit |
| CoalescerRuns.CountedUnderItsKey | src/hal9000/sentience/events/coalescer.py:80-104 | on any run, what an operation counts under a key is one observation with the source, type, subject, task and fingerprint of the key, in the second of its epoch |
| CoalescerRuns.SameRunExactlyWhen | src/hal9000/sentience/events/coalescer.py:88-104 | two counted observations are in the same run if and only if these agree and their seconds lie in the same epoch |
| CoalescerRuns.AcceptedExactlyWhen | src/hal9000/sentience/events/coalescer.py:80-108 | an observation is counted if and only if the coalescer is not closed and is not full of other runs the oldest of which cannot be flushed |
| CoalescerRuns.HistoryIsOfTheKey | src/hal9000/sentience/events/coalescer.py:80-174 | the surviving history of a key is that of the items held under it, all of which agree with the key |
| CoalescerOrder.LeastRecentlyUsedGivesWay | src/hal9000/sentience/events/coalescer.py:105-108 | an open run gives way to an observation if and only if the coalescer is full, no open run agrees with it, and this run is the one least recently added to |
| CoalescerOrder.OtherwiseRunsStay | src/hal9000/sentience/events/coalescer.py:176-264 | no other operation but a crash or a successful close takes a run away |
| CoalescerOrder.ClosedSince | src/hal9000/sentience/events/coalescer.py:259-264 | on any run, the coalescer is closed if and only if a close flushed everything and no crash came after, and then nothing is open |
| CoalescerOrder.FlushedOldestFirst | src/hal9000/sentience/events/coalescer.py:176-182 | a flush commits the runs with something pending oldest first, exactly as many as transactions succeed |
| CoalescerOrder.LastSeenIsLatestCommitted | src/hal9000/sentience/events/coalescer.py:192-204 | on any run, a committed row was last seen at the latest of the instants that ended a committed batch |
| CoalescerEngine.BoundedRepresentativeSampler.Update | src/hal9000/sentience/sketches/sampling.py:44-63 | append, stable sort, cut off in place |
| CoalescerEngine.BoundedRepresentativeSampler.Restore | src/hal9000/sentience/sketches/sampling.py:70-94 | rebuild from rows, first row of each fixed kind |
| CoalescerEngine.BoundedRepresentativeSampler.Exemplars | src/hal9000/sentience/sketches/sampling.py:65-68 | first, latest, highest, then the uniform ones in order |
| CoalescerEngine.SortByScore | src/hal9000/sentience/sketches/sampling.py:61-62 | an insertion loop computes the stable sort |
| CoalescerEngine.EventRunCoalescer.Add | src/hal9000/sentience/events/coalescer.py:80-174 | raises if and only if closed or the eviction cannot be flushed; otherwise the specified state |
| CoalescerEngine.EventRunCoalescer.FlushOne | src/hal9000/sentience/events/coalescer.py:184-257 | upserts the row and rebuilds its exemplars, or leaves both tables alone |
| CoalescerEngine.EventRunCoalescer.Flush | src/hal9000/sentience/events/coalescer.py:176-182 | commits open runs oldest first until a transaction fails; raises if and only if something stays pending |
| CoalescerEngine.EventRunCoalescer.Close | src/hal9000/sentience/events/coalescer.py:259-264 | closes if and only if the flush succeeded |
| Bytes.BigEndianRoundTrip | src/hal9000/sentience/sketches/serialization.py:31-40 | a packed length is read back |
| Bytes.SplitJoin | src/hal9000/sentience/sketches/hybrid_distinct.py:290-292 | 16-byte members joined and cut again are the same list |
| Envelope.PackUnpack | src/hal9000/sentience/sketches/serialization.py:18-54 | for any nesting of JSON values, unpacking a packed envelope gives the metadata with version and checksum, and the payload; packing fails if and only if the header is over the limit |
| Envelope.UnpackAcceptsOnlyPacked | src/hal9000/sentience/sketches/serialization.py:37-54 | whatever is accepted has exactly the packed layout |
| Envelope.PayloadIsBound | src/hal9000/sentience/sketches/serialization.py:50-53 | behind a packed header another payload passes if and only if it has the same digest |
| HybridDistinct.BuildIsCanonical | src/hal9000/sentience/sketches/hybrid_distinct.py:111-139 | however a bucket was built from updates and merges, its members are all digests, its count all updates, and it is EXACT if and only if the members fit both limits |
| HybridDistinct.RollUpIsDirectFeed | src/hal9000/sentience/sketches/registry.py:930-947 | merging any split of a stream into buckets, in any order, equals feeding one bucket |
| HybridDistinct.ModeNeverReturns | src/hal9000/sentience/sketches/hybrid_distinct.py:123-139 | no call brings a bucket back to EXACT |
| HybridDistinct.PlausibleNeverRaises | src/hal9000/sentience/sketches/hybrid_distinct.py:133-136 | only an implausible estimate of some of the digests it was given makes a bucket raise |
| HybridDistinct.UpdateInNumbers | src/hal9000/sentience/sketches/hybrid_distinct.py:111-139 | an exact bucket counts the update and holds the digest; with too many digests it is promoted, and raises if and only if the estimate is off by more than a factor of two |
| HybridDistinct.MergeInNumbers | src/hal9000/sentience/sketches/hybrid_distinct.py:206-235 | the same for a merge, with whose estimate it checks |
| HybridDistinct.UpdateWithoutLibrary | src/hal9000/sentience/sketches/hybrid_distinct.py:111-129 | without the library a bucket with too many digests becomes unavailable with them and never raises |
| HybridDistinct.MergeUnavailable | src/hal9000/sentience/sketches/hybrid_distinct.py:206-221 | a merge with an unavailable side leaves an unavailable bucket with its own exact digests and count |
| HybridDistinct.BucketRoundTrip | src/hal9000/sentience/sketches/hybrid_distinct.py:237-302 | a written payload is read back, unless the size guard or a missing library refuses it |
| HybridDistinct.ExactWithinGuard | src/hal9000/sentience/sketches/hybrid_distinct.py:293-297 | the guard never refuses a reachable EXACT bucket |
| HybridDistinct.FedWithinGuard | src/hal9000/sentience/sketches/hybrid_distinct.py:118-129 | nor, without the library, one that was only fed |
| HybridDistinct.MergedCanBeUnreadable | src/hal9000/sentience/sketches/hybrid_distinct.py:212-216 | for all limits: without the library a bucket that is refused when read back can come about if and only if two full EXACT buckets exceed the threshold by more than one |
| HybridDistinct.MergeCountsUpdates | src/hal9000/sentience/sketches/hybrid_distinct.py:206-212 | a merge adds the update counts if and only if neither side is unavailable, or there is nothing to add |
| SketchFile.FileRoundTrip | src/hal9000/sentience/sketches/hybrid_distinct.py:237-302 | from bucket to envelope bytes and back: every field, member and count is the same, unless the header is too long, the library is gone or the guard refuses the set |
| SketchFile.ReachableRoundTrip | src/hal9000/sentience/sketches/hybrid_distinct.py:237-302 | every bucket that can come about with the library, and every EXACT one at all, is read back from its bytes whole |
| HybridDistinct.HybridDistinctBucket.Update | src/hal9000/sentience/sketches/hybrid_distinct.py:111-121 | the object follows the specified update |
| HybridDistinct.HybridDistinctBucket.Promote | src/hal9000/sentience/sketches/hybrid_distinct.py:123-139 | promotion, its plausibility check, and the missing library |
| HybridDistinct.HybridDistinctBucket.MergeFrom | src/hal9000/sentience/sketches/hybrid_distinct.py:189-235 | incompatible buckets are refused; others follow the specified merge |
| HybridDistinct.HybridDistinctBucket.Serialize | src/hal9000/sentience/sketches/hybrid_distinct.py:237-264 | the payload is the ascending list of members, or the library blob |
| Buckets.StartIsModulo | src/hal9000/sentience/sketches/buckets.py:23-31 | the start of a window is the instant less its remainder, as the code computes it |
| Buckets.StartIsUnique | src/hal9000/sentience/sketches/buckets.py:23-31 | the window of an instant is the only aligned one around it |
| Buckets.ChildInParent | src/hal9000/sentience/sketches/buckets.py:23-31 | with dividing widths every child window lies in its parent window |
| Buckets.NestingNeedsDivision | src/hal9000/sentience/sketches/registry.py:919-924 | child windows nest in parent windows if and only if the width divides |
| SketchTiersInvariants.UpdateKeeps | src/hal9000/sentience/sketches/registry.py:224-246 | an accepted update in time, punctual or late, keeps every row equal to the bucket of its window or marked stale; a refused one changes nothing |
| SketchTiersInvariants.NeverRefused | src/hal9000/sentience/sketches/registry.py:262-264 | the bucket of the present or later is never sealed |
| SketchTiersPass.RolledUpIsWhole | src/hal9000/sentience/sketches/registry.py:930-947 | merging the children of a covered window gives the bucket of all its updates |
| SketchTiersPass.PersistKeeps | src/hal9000/sentience/sketches/registry.py:907-949 | persisting a parent keeps the invariant; a raising merge ends the pass |
| SketchTiersPass.MarkKeeps | src/hal9000/sentience/sketches/registry.py:950-967 | recording a roll-up keeps it |
| SketchTiersPass.ExpireKeeps | src/hal9000/sentience/sketches/registry.py:969-1021 | expiring a verified child or a cold bucket keeps it |
| SketchTiersPass.StepKeeps | src/hal9000/sentience/sketches/registry.py:797-863 | every transaction does, whatever falls between, as long as accepted updates are in time |
| SketchTiersTheorems.UpdatesAreConserved | src/hal9000/sentience/sketches/registry.py:797-1021 | if accepted updates come in time, each is in a retained hot, warm or cold bucket that stands for exactly the updates of its window, until its cold bucket is past the cold retention |
| SketchTiersTheorems.BucketsAreComplete | src/hal9000/sentience/sketches/registry.py:279-331 | every retained bucket counts exactly the updates of its window and is exact if and only if they fit; except a warm one that a late update reached since its roll-up, below which a hot bucket is left to roll up |
| SketchTiersTheorems.PunctualNeverStale | src/hal9000/sentience/sketches/registry.py:279-331 | when no update is dated before the last pass, there is no such bucket |
| SketchTiersTheorems.UpdatesAreAccepted | src/hal9000/sentience/sketches/registry.py:248-278 | an update of the present is refused if and only if it makes its bucket promote and the estimate of that bucket is implausible |
| SketchTiersTheorems.PassBoundsTable | src/hal9000/sentience/sketches/registry.py:797-897 | a pass that ends leaves only buckets within their retention or whose parent window has not ended |
| SketchRetention.RemovedOnlyAfterRetention | src/hal9000/sentience/sketches/registry.py:853-1021 | on any run, late or crashing, a bucket is removed only when the retention of its tier is over, and below the cold tier only while a sealed bucket made from it is there |
| SketchRetention.ColumnsOfRun | src/hal9000/sentience/sketches/registry.py:899-905 | on any run, only ended windows are sealed, only sealed buckets rolled up, and the roll-up column tells the tier |
| SketchRetention.UpdateReachesItsBucket | src/hal9000/sentience/sketches/registry.py:224-278 | an update goes to the hot bucket of its instant and to no other row; it is refused if and only if that is sealed or its promotion is off by more than a factor of two |
| SketchRetention.WhereUpdatesAre | src/hal9000/sentience/sketches/registry.py:797-1021 | conservation in seconds: a bucket whose start is a multiple of its width tells the number and the digests of exactly the updates of its window, until a cold retention after the cold window |
| SketchTiersLate.LateChildOverwrites | src/hal9000/sentience/sketches/registry.py:300-305 | a run in which a late update whose siblings have expired makes the roll-up overwrite the warm bucket, and an earlier update is in no retained row |
| SketchTiersLate.LateNeverReachesCold | src/hal9000/sentience/sketches/registry.py:300-305 | a run in which a late update below a rolled-up cold window reaches the warm bucket, never the cold one, and is gone when the warm one expires |
| SketchTiersLate.TimelyIsExact | src/hal9000/sentience/sketches/registry.py:797-1021 | the guard on late updates is exact: whatever else a run does in time, an update of that instant after a pass leaves every update conserved if and only if its cold window has not ended, and its warm window has not either or none of its hot buckets can have expired |
| SketchRegistry.SketchRegistry.UpdateDistinct | src/hal9000/sentience/sketches/registry.py:224-278 | counts an observation of any instant into its hot bucket, or raises; the tables stay sound if it is refused or in time |
| SketchRegistry.SketchRegistry.SealDue | src/hal9000/sentience/sketches/registry.py:899-905 | seals every bucket whose window has ended |
| SketchRegistry.SketchRegistry.MergeChildren | src/hal9000/sentience/sketches/registry.py:916-943 | the children of a parent's window, merged |
| SketchRegistry.MergeWindow | src/hal9000/sentience/sketches/registry.py:930-943 | merges the sealed children of a window in order of their start |
| SketchRegistry.SketchRegistry.PersistParent | src/hal9000/sentience/sketches/registry.py:907-949 | first transaction of a roll-up |
| SketchRegistry.SketchRegistry.MarkChildren | src/hal9000/sentience/sketches/registry.py:950-967 | second transaction of a roll-up |
| SketchRegistry.SketchRegistry.RollTier | src/hal9000/sentience/sketches/registry.py:806-851 | leaves no ended window with an unverified child, unless a merge raises |
| SketchRegistry.SketchRegistry.ExpireTier | src/hal9000/sentience/sketches/registry.py:865-897 | removes everything of a tier that may expire, and no bucket whose retention lies ahead |
| SketchRegistry.SketchRegistry.Maintain | src/hal9000/sentience/sketches/registry.py:797-863 | a whole pass: no update forgotten; every ended bucket sealed; every bucket within its retention still there; unless a merge raises, only those and buckets whose next window has not ended |
| Ledger.SentienceDatabase.AppendExactEvent | src/hal9000/sentience/storage/database.py:286-363 | event, hash and projection commit together or not at all; replays are recognised |
| Ledger.VerifyControlChain | src/hal9000/sentience/storage/database.py:401-448 | accepts if and only if every chained row has the right predecessor and hash; otherwise stops at the first wrong one |
| Ledger.VerifySequenceContinuity | src/hal9000/sentience/storage/database.py:450-470 | accepts if and only if the tail above the watermark has no gap |
| LedgerTheorems.LedgerIsFold | src/hal9000/sentience/storage/database.py:286-363 | on any run sequences are exactly 1..n, no event replays another, and the projected tables are the projections of exactly the inserted events, each applied once |
| LedgerTheorems.AppendKeeps | src/hal9000/sentience/storage/database.py:304-363 | one append inserts one numbered row, or changes nothing |
| LedgerTheorems.ReplayIsNoOp | src/hal9000/sentience/storage/database.py:304-311 | appending an event again names its row and changes nothing; a raising call leaves nothing behind |
| LedgerTheorems.IdsAndKeysAreUnique | src/hal9000/sentience/storage/database.py:303-309 | on any run no two rows share an event id or an idempotency key |
| LedgerTheorems.ReplayedExactlyWhenTaken | src/hal9000/sentience/storage/database.py:303-363 | on any run an append is not inserted, names the first row with its id or its key and changes nothing, if and only if there is one; otherwise it is stored as the next row with its projection, or raises and changes nothing, if and only if its hash is taken or its projection raises |
| LedgerTheorems.VerifiersAccept | src/hal9000/sentience/storage/database.py:401-470 | both verifiers accept every reachable ledger in full |
| LedgerTheorems.LastHashFixesChain | src/hal9000/sentience/storage/database.py:365-448 | two accepted chains with the same last hash, among whose rows the hash does not collide, agree on every hashed column |
| LedgerTheorems.TamperEvidence | src/hal9000/sentience/storage/database.py:365-448 | two accepted tables, among whose chained rows the hash does not collide, end in the same hash if and only if those rows agree |
| LedgerTheorems.ChainPrefix | src/hal9000/sentience/storage/database.py:401-448 | a cut-off chain is still accepted |
| LedgerTheorems.UnhashedColumnsAreFree | src/hal9000/sentience/storage/database.py:366-398 | columns outside the hash can be changed unnoticed |
| Checkpoints.Restore | src/hal9000/sentience/storage/checkpoints.py:127-172 | on any tables returns the newest sound one of the 32 newest checkpoints, fresh if and only if there is none at all, with the distance to the head, which for a verified one, the rows being in the order of their key, is the exact number of later events |
| Checkpoints.DistanceIsCount | src/hal9000/sentience/storage/checkpoints.py:137-166 | when the events after a sequence have no gap, the distance from it to the greatest sequence is how many they are |
| Checkpoints.SoundExactlyWhen | src/hal9000/sentience/storage/checkpoints.py:142-158 | a checkpoint passes the checks if and only if the ledger reaches it, its checksum and text are right, and no event after it is missing |
| Checkpoints.RunKept | src/hal9000/sentience/storage/checkpoints.py:94-125 | the table is always the pruned list of all checkpoints ever written |
| Checkpoints.PruneStep | src/hal9000/sentience/storage/checkpoints.py:117-123 | pruning after every write equals pruning once |
| Checkpoints.RestoreIsNewest | src/hal9000/sentience/storage/checkpoints.py:127-172 | untampered, and with well-formed snapshots written, the newest checkpoint is sound and first in line, and every later event is present |
| Checkpoints.RecentAndCleanSurvive | src/hal9000/sentience/storage/checkpoints.py:117-123 | the 32 newest and every clean checkpoint always survive |
| Checkpoints.KeptIsCleanOrRecent | src/hal9000/sentience/storage/checkpoints.py:117-123 | and a retained checkpoint is clean or among the 32 newest |
| Checkpoints.WriteOutcome | src/hal9000/sentience/storage/checkpoints.py:55-125 | on any run a write answers with the newest checkpoint if and only if it is not clean and that is the last event; it fails if and only if the snapshot is too large or its event cannot be appended |
| Checkpoints.UncleanWriteIsIdle | src/hal9000/sentience/storage/checkpoints.py:55-75 | an unclean write creates nothing if and only if no event followed the newest checkpoint |
| Checkpoints.ProjectionCheckpointService.Write | src/hal9000/sentience/storage/checkpoints.py:55-125 | reuses the prior checkpoint, or appends event and row together |
| Checkpoints.ProjectionCheckpointService.RestoreLatest | src/hal9000/sentience/storage/checkpoints.py:127-172 | if the newest checkpoint is sound it is the result, otherwise an older sound one, or none; with the exact number of later events |
| Lease.RunKeeps | src/hal9000/sentience/identity/lease.py:48-99 | a grant that is unexpired as stored is the one in the row |
| Lease.MutualExclusion | src/hal9000/sentience/identity/lease.py:48-99 | no two owners both hold a grant that is unexpired as stored |
| Lease.OverlapIsShort | src/hal9000/sentience/identity/lease.py:48-90 | by their own clocks two owners overlap for less than a millisecond |
| Lease.DisplacedExactlyWhen | src/hal9000/sentience/identity/lease.py:57-78 | a holder whose row is in the table can be displaced if and only if its cut-off grant has passed, and then overlaps with the other until its grant has |
| Lease.OverlapHappens | src/hal9000/sentience/identity/lease.py:48-78 | and they can |
| Lease.HolderKeepsLease | src/hal9000/sentience/identity/lease.py:57-90 | an unexpired holder cannot be displaced and can renew |
| Lease.GrantedExactlyWhen | src/hal9000/sentience/identity/lease.py:48-99 | on any run an acquire is refused if and only if another owner has an unexpired row, a renewal if and only if the row is not its own; what is granted runs for the time to live, cut off to milliseconds |
| Lease.CanonicalLease.Acquire | src/hal9000/sentience/identity/lease.py:48-78 | takes the lease, or raises if and only if another unexpired owner has it |
| Lease.CanonicalLease.Renew | src/hal9000/sentience/identity/lease.py:80-90 | renews whenever the row is its own, expired or not |
| Lease.CanonicalLease.Release | src/hal9000/sentience/identity/lease.py:92-99 | deletes the row if and only if it is its own |
| Consolidation.RunKeeps | src/hal9000/sentience/memory/consolidation.py:19-139 | every run keeps the partition of each task's history |
| Consolidation.HistoryIsPartitioned | src/hal9000/sentience/memory/consolidation.py:19-139 | episode ranges are disjoint and increasing, their references are exactly the task's events up to the watermark, and no completed job is met again |
| Consolidation.CallDrainsPage | src/hal9000/sentience/memory/consolidation.py:22-36 | a call takes exactly one page off the backlog, and does nothing if and only if the task is unknown or has none |
| Consolidation.CallsDrainBacklog | src/hal9000/sentience/memory/consolidation.py:22-36 | without new events as many calls as the backlog has pages, and no fewer, bring a task to rest |
| Consolidation.CreateKeepsPartition | src/hal9000/sentience/memory/episodes.py:101-148 | creating the episode of a page extends the partition |
| Consolidation.CompleteJobIsBelow | src/hal9000/sentience/memory/consolidation.py:57-65 | the completed-job branch is never taken |
| Consolidation.MemoryConsolidator.ConsolidateTask | src/hal9000/sentience/memory/consolidation.py:19-139 | the object follows the specified call and returns the new episode |
| EventBus.DropsAreCounted | src/hal9000/sentience/event_bus.py:91-111 | publishes = enqueued + drop table + emitted summaries; the table never exceeds 131 groups |
| EventBus.FirstExactlyOnce | src/hal9000/sentience/event_bus.py:130-169 | over any ledger of earlier boots there is exactly one first-occurrence event for a fingerprint that such a boot recorded or an append of which did not raise, and none for any other; once the writer has drained, every severe fingerprint that passed the allocation gate and was not recorded before has been tried |
| EventBus.MissingExactlyWhen | src/hal9000/sentience/event_bus.py:130-169 | once the writer has drained, a severe fingerprint has no event if and only if no earlier boot recorded it and every append made for it, at least one, raised |
| EventBus.TriedSomewhere | src/hal9000/sentience/event_bus.py:130-169 | a fingerprint was tried if and only if some step of the run made its append, and landed if and only if one of these did not raise |
| EventBus.TriedExactlyWhenUncached | src/hal9000/sentience/event_bus.py:136-149 | a severe observation let through, with no event in the ledger, is appended or queued to be if and only if its fingerprint is not cached |
| EventBus.MissingFirst | src/hal9000/sentience/event_bus.py:136-149 | a run in which the one append raises, the fingerprint is observed again, and no event remains |
| EventBus.LedgerKeepsFirstSummary | src/hal9000/sentience/event_bus.py:205-240 | the ledger holds the first summary whose append did not raise; it tells of every summarised drop if and only if none was emitted, or exactly one and its append did not raise |
| EventBus.CacheIsBounded | src/hal9000/sentience/event_bus.py:146-149 | the fingerprint cache never exceeds its capacity |
| EventBusQueue.PublishedExactlyWhen | src/hal9000/sentience/event_bus.py:91-111 | on any run a published observation is queued, and nothing dropped, if and only if no gate stops it; otherwise it is dropped once for the reason of the first gate that does, in its own group, or in that of the reason once the table has 128 |
| EventBusQueue.QueueIsBounded | src/hal9000/sentience/event_bus.py:106-111 | the queue never exceeds its limit and is taken from in order |
| EventBusQueue.ClosedExactlyWhen | src/hal9000/sentience/event_bus.py:91-93 | the bus is closed if and only if it was told to close |
| EventBusQueue.RememberedExactlyWhen | src/hal9000/sentience/event_bus.py:136-149 | a fingerprint is remembered if and only if it was let through and fewer than 1024 others have been since |
| EventBus.BoundedEventBus.Publish | src/hal9000/sentience/event_bus.py:91-111 | gates, first-occurrence write, queue or drop, in the order of the code |
| EventBus.BoundedEventBus.RecordDrop | src/hal9000/sentience/event_bus.py:171-185 | counts into the group, or into the group of the reason when the table is full |
| EventBus.BoundedEventBus.PersistFirst | src/hal9000/sentience/event_bus.py:130-169 | LRU cache, ledger lookup, submit |
| EventBus.BoundedEventBus.Submit | src/hal9000/sentience/storage/writer.py:48-65 | queued, or written at once when the queue is full; what the append raises stays in its future |
| EventBus.BoundedEventBus.FlushWriter | src/hal9000/sentience/storage/writer.py:67-89 | drains the queue into the ledger, losing nothing but appends that raise |
| EventBus.BoundedEventBus.EmitDropSummary | src/hal9000/sentience/event_bus.py:205-240 | sums the table, clears it, then appends under the one key, which may raise or find the key taken |
| RpcClient.RunKeeps | src/hal9000/hermes/client.py:189-289 | every issued request is in exactly one place, once |
| RpcClient.ResolvedExactlyOnceOrPending | src/hal9000/hermes/client.py:189-289 | every issued id is resolved exactly once, or still pending or in a running rejection, under any order of replies, timeouts, disconnects and calls from handlers |
| RpcClient.ResolvedWasIssued | src/hal9000/hermes/client.py:232-275 | nothing is resolved that was not issued, and each with its own method |
| RpcClient.ClosedHasNoPending | src/hal9000/hermes/client.py:181-187 | a client without a worker has nothing pending |
| RpcClient.PendingSinceReject | src/hal9000/hermes/client.py:216-220 | after a disconnect or close, whatever handlers do, exactly what was issued since and is neither resolved nor being rejected is pending |
| RpcClient.PendingWasConnected | src/hal9000/hermes/client.py:189-214 | what is pending was issued while the link read connected |
| RpcClient.StepSpelledOut | src/hal9000/hermes/client.py:161-289 | on any run, what each step answers and with which outcome, and what the link is then |
| RpcClient.ReentrantRequestOutlivesDisconnect | src/hal9000/hermes/client.py:216-220 | requests made by handlers while a disconnect is being reported are accepted, and exactly they are pending when it ends, in their order |
| RpcClient.HermesGatewayClient.Request | src/hal9000/hermes/client.py:189-214 | issues the next id and leaves it pending; without a connection its error is the first thing emitted |
| RpcClient.HermesGatewayClient.Resolve | src/hal9000/hermes/client.py:232-275 | pops a pending id and emits, or ignores an unknown one |
| RpcClient.HermesGatewayClient.RejectAll | src/hal9000/hermes/client.py:277-283 | takes everything pending and rejects each item, in order, whatever the handlers do; nothing else when they do nothing |
| RpcClient.HermesGatewayClient.Close | src/hal9000/hermes/client.py:181-187 | drops the worker, rejects everything pending in order, and goes offline; exactly that when handlers do nothing |
| RpcClient.HermesGatewayClient.OnTransportState | src/hal9000/hermes/client.py:216-221 | enters the new state; leaving the connected one rejects everything pending first |
| RpcClient.HermesGatewayClient.ConnectTo | src/hal9000/hermes/client.py:161-179 | a new worker and the connecting state; pending requests stay |
| RpcClient.HermesGatewayClient.OnTransportError | src/hal9000/hermes/client.py:222-230 | emits the error, then fails the link unless it is reconnecting |
| PromptWorkflow.PromptsAreAccountedFor | src/hal9000/hermes/service.py:242-277 | every sent prompt is exactly one of submitted, undelivered, refused, merged or waiting |
| PromptFates.SentPromptFate | src/hal9000/hermes/service.py:242-268 | on any run a sent prompt is refused if and only if preferences have failed; otherwise it waits, merging or replacing, if and only if there is no session or preferences are pending; otherwise it is submitted |
| PromptFates.QueuedPromptFate | src/hal9000/hermes/service.py:850-889 | on any run a waiting prompt is submitted if and only if its workflow ends applied or passed over with a session, undelivered if and only if it fails or is cancelled or stopped, and waits on otherwise |
| PromptFates.WaitsForSomething | src/hal9000/hermes/service.py:255-263 | a prompt waits only while there is no session or preferences are pending, and never after a failure |
| PromptFates.WorkflowMoves | src/hal9000/hermes/service.py:321-445 | on any run, how each step moves the workflow, which request it issues with which flags, and what route is wanted then |
| PromptWorkflow.PendingHasOneRequest | src/hal9000/hermes/service.py:355-445 | while preferences are pending exactly one request of the current generation is out, otherwise none |
| PromptWorkflow.WorkflowEndsOnlyBy | src/hal9000/hermes/service.py:355-445 | on any run a pending workflow ends only by the answer to its one request, a stop, an unknown effort, or another workflow that ends at once |
| PromptWorkflow.ReplyEnds | src/hal9000/hermes/service.py:725-796 | a reply ends the workflow if and only if it answers its one request, unless the effort is asked for next |
| PromptWorkflow.StaleReplyIsIgnored | src/hal9000/hermes/service.py:725-796 | on any run a reply that does not answer the one current request leaves the workflow, its generation, the queued prompt and every fate as they were |
| PromptWorkflow.NothingIsDead | src/hal9000/hermes/service.py:760-763 | if model replies are handled while connected, no request is issued into a dead link |
| PromptWorkflow.DeadExactlyWhen | src/hal9000/hermes/service.py:760-763 | a request was issued into a dead link if and only if some model was reported applied while the link was down and an effort was wanted |
| PromptWorkflow.ReplyIntoDeadLinkSticks | src/hal9000/hermes/service.py:429-445 | a run from the start that ends pending on such a request |
| PromptWorkflow.StuckExactlyUntil | src/hal9000/hermes/service.py:429-445 | that workflow stays stuck until, and only until, a step starts a new generation |
| PromptWorkflow.HermesService.SendPrompt | src/hal9000/hermes/service.py:242-268 | refuse, queue, replace, merge or submit |
| PromptWorkflow.HermesService.Cancel | src/hal9000/hermes/service.py:270-278 | reports the queued prompt undelivered |
| PromptWorkflow.HermesService.Stop | src/hal9000/hermes/service.py:186-210 | new generation, no requests, queued prompt reported |
| PromptWorkflow.HermesService.BeginPreferenceWorkflow | src/hal9000/hermes/service.py:355-383 | new generation and its first request, or its immediate end |
| PromptWorkflow.HermesService.FinishSessionPreferences | src/hal9000/hermes/service.py:850-889 | ends the current generation only, and hands the queued prompt over |
| PromptWorkflow.HermesService.OnModelReply | src/hal9000/hermes/service.py:725-763 | model applied, refused or passed over |
| PromptWorkflow.HermesService.OnReasoningReply | src/hal9000/hermes/service.py:764-796 | reasoning effort applied, refused or passed over |
| Baselines.MedianSplits | src/hal9000/sentience/interoception/baselines.py:48-53 | at least half of the values are at most the median and at least half at least it |
| Baselines.MedianIsRobust | src/hal9000/sentience/interoception/baselines.py:48-53 | with fewer than half of the samples replaced, the median lies between two that were not |
| Baselines.MedianIsMiddle | src/hal9000/sentience/interoception/baselines.py:48-53 | a number is the median if and only if it is the mean of the two values in the middle |
| Baselines.StoredAnswer | src/hal9000/sentience/interoception/baselines.py:76-179 | on any run the stored answer is learning below the minimum of samples; from there on it is the median of the latest counted samples and the median of their distances from it |
| Baselines.StoreRefinesLearner | src/hal9000/sentience/interoception/baselines.py:76-179 | the persistent window and result are those of a new in-memory learner fed the counted calls; the sources are the latest of theirs, the incidents distinct ones of theirs and all of them up to 128 |
| Baselines.LearnerWindow | src/hal9000/sentience/interoception/baselines.py:34-46 | the learner's window is the latest of its samples that were no incidents |
| Baselines.ReplayIsNoOp | src/hal9000/sentience/interoception/baselines.py:107-121 | a call changes nothing if and only if its source is among the latest sources of the counted calls |
| Baselines.BaselineLearner.Update | src/hal9000/sentience/interoception/baselines.py:34-46 | rolling window of the last samples; incidents only counted |
| Baselines.PersistentBaselineStore.Update | src/hal9000/sentience/interoception/baselines.py:76-179 | read, add unless replayed, write back with the learner's result |
| Baselines.PersistentBaselineStore.Restart | src/hal9000/sentience/interoception/baselines.py:199-236 | a new empty version |

## Left out

- Profiles, the router's fallback model and the task-checkpoint column that an episode also writes: they never feed back into the episode machine.
- Several boots, and the wall-clock fallback between them: one boot is modelled.
- Registry writes interleaved with engine reactions of other threads: a batch and its reactions are one step.
- Revalidation of capabilities and dependency edges: bookkeeping beside the transitions modelled.
- The stream sketches (frequency, quantiles, Theta) and their roll-up: same control flow, opaque library state.
- HMAC, SHA-256, BLAKE2, UUIDs and JSON: arbitrary functions, injective or round-tripping only where a lemma says so.
- Retention tombstones, verification JSON and checksum re-reads of sketch rows: written, never read back by the modelled code.
- Row limits of the maintenance queries, several metrics, key rotation: outside the stated assumptions.
- SketchTiersTheorems.UpdatesAreConserved: promises nothing for runs with an accepted update out of time, because the code then loses updates (SketchTiersLate.TimelyIsExact); an update whose cold bucket is already past its retention counts as out of time.
- SketchFile.FileRoundTrip: header fields of another JSON type are refused here, where the code converts them with str and int.
- CoalescerEngine.EventRunCoalescer.Add: open runs are values here, so aliasing of run objects between calls is not modelled; nor are templates, retention class and sensitivity of a row.
- `connectTo` with an address that is no WebSocket URL, which only reports an error, and server events without an id.
- RpcClient.HermesGatewayClient.RejectAll: timers are not objects here; a timeout may come at any moment for any id.
- The outbox dispatcher, backups, migrations, WAL, permissions, redaction, full-text search: not state machines of this model.
- `consolidate_due`, which always takes the oldest terminal tasks first: results are per task.
- Checkpoint snapshots: the encoded state is an argument of a write.
- The self-MCP registration, backend process, probing and restart budget of the Hermes service.

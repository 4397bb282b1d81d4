# Verified model of the kaspa graph inspector's replication engine

The kaspa graph inspector keeps a canonical view of a block DAG, changes it in place as
blocks and virtual-selected-parent-chain (VSPC) transitions are committed, and replicates
it: every change emits a delta, deltas compose, a bounded history retains them, and a
ladder of replay targets, a single-flight cache and a wakeup scheduler decide what each
client replays. This project models that engine in Dafny and proves that its parts agree.

Run `dafny verify dfyconfig.toml` in this directory to check every file.

## How the model is laid out

| area | files |
|---|---|
| shared vocabulary | `Maps`, `Words`, `Publication`, `Graph` |
| graph view on values: mutators, deltas, replay | `Core`, `ReplayLaws`, `Outcomes`, `Extract` |
| composition of deltas | `Compose` |
| graph view in place: indexes, counts, captures | `Indexes`, `ViewState`, `Mutation`, `GraphView`, `Replica` |
| history and whole publications | `History`, `Lineage` |
| replay targets and continuation | `Ladder`, `Continuation` |
| single-flight caches and their jobs | `Cache`, `CacheProtocol` |
| SSE mailboxes, registries and schedules | `Mailbox`, `Registry`, `Delivery`, `Schedules`, `Exactness`, `Effects` |
| notification subscription protocol | `Subscription` |
| graph-update ingress | `Ingress` |

Code that updates fields in place is a class with loops (`GraphView`, `GraphHistory`,
`DeltaCache`, `HeadCache`, `SseMailbox`, `SseClientRegistry`, `GraphUpdateChannel`); each
method is proved against a function on values, and the laws are proved about those
functions. Concurrent code is a state machine whose steps are the sections that its locks
make atomic, and its laws hold over every run.

## Assumptions

- A seeded view is coherent: map keys are the values' own identities and every edge's
  parent level is present.
- Storage commits a block hash once, puts parents on lower levels, adds at most one level
  above the current high, and supplies level snapshots for the block's level and every known
  parent's level (`ReplayLaws.Stored`).
- Publication timestamps do not decrease, so a later source has a later first timestamp.
- One owner drives the notification subscription: it awaits a disable before activating
  again, but a disable may overlap an activation and an activation may be abandoned.
- The exact wakeup laws suppose that a connection's mailbox is handed to `register` once;
  the laws of delivery order and of no missed wakeup hold without it.

## Findings

- A Head view whose extent is shallower than its maximum depth does not replay a VSPC
  transition to the mutator's state: replay recomputes the lower bound and the mutator does
  not. `ReplayLaws.HeadVspcReplays` gives the exact condition.
- Composition is not meaning-preserving for arbitrary adjacent deltas: a field change followed
  by a re-insertion of the same hash survives into the composed delta.
  `Compose.ComposePreservesIffCompatible` gives the exact condition, and deltas emitted along
  one lineage always meet it.
- A disable that reads Disabled and then clears the router may clear the destinations of an
  activation that began in between; that activation starts both streams and is then refused
  at publication while the generation is active. The refusal is reported as the error of an
  inactive generation (`crates/kgi-node/src/rpc.rs:315-316`, `695-697`), which an active one
  does not have, so the task ends by panicking and the caller disables routing and asks for
  retirement. `Subscription.PublishRefusal` gives the exact condition.

## Model

| member | source | states |
|---|---|---|
| Lineage.EndToEnd | crates/kgi-api-core/src/publication/mod.rs:1044-1070 | after every run of committed updates, appends, barriers and prunes, a requested range either names the exact reason it cannot be served or carries the log between its boundaries, whose replay, one by one or composed, takes the view at the source to the view at the nearer of target and current revision |
| Lineage.StepKeepsInv | crates/kgi-api-core/src/publication/mod.rs:1044-1070 | every update keeps view, log and history in step: the emitted delta links consecutive views, the window only moves up, and history is the tail of the log cut exactly at the replay floor or the window |
| Lineage.StartInv | crates/kgi-api-core/src/publication/mod.rs:1044-1070 | a revision-zero Head window with an empty history satisfies that invariant |
| Lineage.EmitAdvances | crates/kgi-api-core/src/publication/mod.rs:1044-1070 | a committed update either changes nothing or advances the revision by one along a link of the lineage, with neither bound of the window falling |
| Lineage.HeadCommitLinks | crates/kgi-api-model/src/graph.rs:431-485 | the delta of a block commit is an exact interval of the lineage: replay reaches the new view, level changes are exact, and a hash that left never returns |
| Lineage.HeadVspcLinks | crates/kgi-api-model/src/graph.rs:495-508 | the same for the delta of a VSPC transition |
| Lineage.ChainReplays | crates/kgi-api-model/src/graph.rs:334-418 | replaying a contiguous run of emitted deltas one at a time reaches the run's last view |
| Lineage.ChainComposes | crates/kgi-api-model/src/delta.rs:151-191 | the composition of a whole contiguous run replays to that same last view |
| Lineage.ChainBrackets | crates/kgi-api-model/src/delta.rs:151-191 | splitting a run anywhere and composing the two halves gives the same delta as folding it left to right |
| Lineage.RetentionStep | crates/kgi-api-model/src/history.rs:210-256 | appending a delta and pruning at the new window leaves exactly the log entries at or above both the floor and the window |
| Lineage.PruneRetention | crates/kgi-api-model/src/history.rs:250-256 | because emitted Head levels never fall, dropping a prefix removes exactly the entries below the window |
| Lineage.RangeServes | crates/kgi-api-model/src/history.rs:263-306 | the entries a range returns are the log between source and reached revision; a start is reported pruned only when its Head level has left the window |
| Lineage.RangeIsSound | crates/kgi-api-model/src/history.rs:263-306 | every answer of a range over a reachable publication is the right one, with its payload |
| Outcomes.HeadCommitOutcome | crates/kgi-api-model/src/graph.rs:431-485 | a Head commit key by key, from the update and the old graph alone: the window as arithmetic on levels; the new block with every committed field and the old ones not below it; the new block's edges exactly to its known parents not above the window, and old edges exactly while their child stays; retained levels with the last snapshot's size and the kept or first supplied score; and a delta under the next revision exactly when a map changed |
| Outcomes.FixedCommitOutcome | crates/kgi-api-model/src/graph.rs:519-539 | a Fixed commit key by key: it freezes untouched exactly when the extents are disjoint; otherwise the block is stored exactly inside the extent, its edges that meet the extent join the old ones, recorded levels take their snapshots' values, and a delta is emitted exactly when a map changed |
| Outcomes.HeadVspcOutcome | crates/kgi-api-model/src/graph.rs:495-508 | a Head VSPC transition key by key: membership by added and removed, colour by the last known added block whose own merge sets name the hash (red over blue), Gray when only removed, unchanged otherwise; scores by the last snapshot; nothing else changes, and a delta is emitted exactly on a change |
| Outcomes.FixedVspcOutcome | crates/kgi-api-model/src/graph.rs:550-578 | the same for a Fixed view, resolving added blocks in its own graph first and Head's second, and freezing untouched exactly when extents are disjoint or an added block is known to neither |
| Outcomes.MaterializedValue | crates/kgi-api-model/src/graph.rs:756-761 | after any sequence of admitted snapshots a level has the last one's size, and the score it had or, where it was absent, the first one's |
| Outcomes.BroughtEdge | crates/kgi-api-model/src/graph.rs:587-598 | a commit brings an edge exactly for a known direct parent not above the upper bound, while the block is not below the lower one |
| Outcomes.RecoloredBy | crates/kgi-api-model/src/graph.rs:654-667 | the last added block that is known and names a hash decides its colour from its own merge sets |
| Extract.ExtractedExactly | crates/kgi-api-model/src/graph.rs:809-874 | the extraction key by key as arithmetic on levels: blocks inside the extent, edges whose child is not below and parent not above it, nominal and endpoint levels, with their values |
| Lineage.StepFollows | crates/kgi-api-core/src/publication/mod.rs:1044-1070 | an event moves the view as its mutator does and is logged, with its timestamp, exactly when a block, an edge or a level changed |
| Lineage.BarriersStopReplay | crates/kgi-api-model/src/history.rs:210-247 | over every run from a fresh publication, the replay floor is the revision the last emitting barrier event produced and zero without one; a range is never served across such a revision, and is refused for the floor exactly when one lies beyond its source |
| Lineage.RunsPriceTheirEvents | crates/kgi-api-model/src/history.rs:210-247 | over every run, the log has one stamped delta per emitting event, the absolute cost is the sum of their estimates, and each retained entry carries its own event's estimate |
| Lineage.RunTold | crates/kgi-api-model/src/history.rs:210-256 | every run's effect on floor, absolute cost, retained prices and log is told by the events that changed the graph |
| History.PricesCarry | crates/kgi-api-model/src/history.rs:210-256 | appending and pruning leave every retained entry its price, give the new one its own, and a barrier leaves none |
| ReplayLaws.HeadCommitReplays | crates/kgi-api-model/src/graph.rs:431-485 | for a normalised Head view, replaying the delta of a block commit gives the mutator's whole observable state, and no delta means nothing changed, extent included |
| ReplayLaws.HeadVspcReplays | crates/kgi-api-model/src/graph.rs:495-508 | for a VSPC transition on any Head view, replay agrees with the mutator if and only if the extent is normalised to the maximum depth |
| ReplayLaws.UnnormalisedVspcDiverges | crates/kgi-api-model/src/graph.rs:334-418 | a concrete shallow Head view on which a score update and its replay end with different lower bounds |
| ReplayLaws.FixedCommitReplays | crates/kgi-api-model/src/graph.rs:519-539 | a Fixed view's block commit replays exactly, or freezes the view untouched when Head has left its extent |
| ReplayLaws.FixedVspcReplays | crates/kgi-api-model/src/graph.rs:550-578 | a Fixed view's VSPC transition replays exactly, or freezes it untouched exactly when extents are disjoint or an added block is known to neither view |
| ReplayLaws.FixedMetadataResolves | crates/kgi-api-model/src/graph.rs:550-578 | the metadata of a transition resolves if and only if every added block is known to the view or to Head |
| ReplayLaws.BlockDeltaReplays | crates/kgi-api-model/src/graph.rs:973-1016 | patching the difference of two states into the first gives the second, and an empty difference means equal graphs |
| ReplayLaws.FieldDeltaReplays | crates/kgi-api-model/src/graph.rs:973-1016 | the same for differences in membership, colour and level scores, with the extent a replay recomputes |
| ReplayLaws.RecolorIsLastWriter | crates/kgi-api-model/src/graph.rs:654-667 | the last added block naming a hash decides its colour, red over blue |
| ReplayLaws.HeadCommitKeepsWindow | crates/kgi-api-model/src/graph.rs:441-484 | after every block commit the window has not fallen, retained blocks are exactly those inside it, edges belong to retained children, and levels are the window plus the parent levels of retained edges |
| ReplayLaws.HeadVspcKeepsWindow | crates/kgi-api-model/src/graph.rs:630-677 | a VSPC transition keeps that window invariant |
| ReplayLaws.CommitLevel | crates/kgi-api-model/src/graph.rs:472-484 | a level survives a commit if and only if it is in the new window or is a retained edge's parent level |
| ReplayLaws.CommitBlocks | crates/kgi-api-model/src/graph.rs:441-457 | the blocks after a commit are the old ones and the new one, filtered by the new window |
| ReplayLaws.StoredIsAdmissible | crates/kgi-api-model/src/graph.rs:580-628 | what storage promises about a committed block suffices for every lookup its projection makes |
| ReplayLaws.HeadWindowGrounded | crates/kgi-api-model/src/graph.rs:763-771 | inside the window invariant every edge's parent level is present |
| Compose.ComposedLink | crates/kgi-api-model/src/delta.rs:151-191 | adjacent intervals of a lineage compose to an interval of the same lineage with the same replayed state |
| Compose.ComposeAssociative | crates/kgi-api-model/src/delta.rs:151-203 | composition is associative along a lineage although it drops changes that cancel at every step |
| Compose.ComposePreservesIffCompatible | crates/kgi-api-model/src/delta.rs:151-191 | for any two adjacent deltas with exact before-values, composed replay equals stepwise replay if and only if no inserted hash inherits a stale field change |
| Compose.ReinsertionDiverges | crates/kgi-api-model/src/delta.rs:151-203 | a concrete recolouring followed by a re-insertion of the same hash for which composition loses meaning |
| Compose.LinkReplays | crates/kgi-api-model/src/graph.rs:334-418 | replaying an interval of a lineage from its source reaches its target |
| Compose.ComposedLevelsExact | crates/kgi-api-model/src/delta.rs:165-173 | composing exact level changes gives the exact level difference of the two ends |
| Compose.ComposeDeltas | crates/kgi-api-model/src/delta.rs:151-190 | the loop-based composition returns the pointwise composition, or nothing for a revision gap |
| Compose.FoldChanges | crates/kgi-api-model/src/delta.rs:193-203 | folding right changes into left ones and dropping cancelled ones keeps, per key, the earliest before-value and latest after-value when they differ |
| Compose.ComposeChangesAt | crates/kgi-api-model/src/delta.rs:193-203 | what composition leaves for one key, in terms of that key alone |
| Mutation.FinishedIsBlockDelta | crates/kgi-api-model/src/graph.rs:973-1016 | captured before-values of a materialization finish to exactly the difference it made |
| Mutation.FinishedIsFieldDelta | crates/kgi-api-model/src/graph.rs:973-1016 | captured before-values of a VSPC transition finish to exactly the difference it made |
| Mutation.ChangesAreDiff | crates/kgi-api-model/src/graph.rs:973-1016 | captures that hold original values and miss no changed key determine the difference |
| Mutation.CaptureStep | crates/kgi-api-model/src/graph.rs:937-971 | capturing a key before its first change keeps captures complete and original |
| ViewState.CoherentDecides | crates/kgi-api-model/src/graph.rs:877-899 | a coherent view's indexes and counts are determined by its primary maps, so equal observable states are equal stored states |
| ViewState.IndexEdges | crates/kgi-api-model/src/graph.rs:773-781 | indexing a new edge keeps both edge indexes equal to a rebuild |
| ViewState.UnindexEdges | crates/kgi-api-model/src/graph.rs:783-807 | unindexing a retained edge keeps both edge indexes equal to a rebuild without empty buckets |
| ViewState.CountEdge | crates/kgi-api-model/src/graph.rs:763-766 | counting a new edge keeps every level's usage equal to the retained edges whose parent lies there |
| ViewState.UncountEdge | crates/kgi-api-model/src/graph.rs:768-771 | a retained edge's parent level has a positive count, so the checked decrement cannot underflow |
| Indexes.IndexBlock | crates/kgi-api-model/src/graph.rs:735-747 | inserting a block keeps the level index equal to a rebuild |
| Indexes.UnindexBlock | crates/kgi-api-model/src/graph.rs:721-733 | removing a block keeps the level index equal to a rebuild without empty buckets |
| Indexes.UsagePositive | crates/kgi-api-model/src/graph.rs:472-481 | a level's usage is positive exactly when it is some retained edge's parent level |
| GraphView.GraphView.ApplyDelta | crates/kgi-api-model/src/graph.rs:334-418 | in-place replay, phase by phase, equals replay on values; a frozen view refuses, and a revision mismatch only freezes a Fixed view |
| GraphView.GraphView.ApplyHeadBlockCommitted | crates/kgi-api-model/src/graph.rs:431-485 | the in-place commit with its captures, pruning and counting produces the specified state and delta and keeps every index and count |
| GraphView.GraphView.ApplyHeadVspcCommitted | crates/kgi-api-model/src/graph.rs:495-508 | the in-place VSPC transition produces the specified state and delta and keeps every index and count |
| GraphView.GraphView.ApplyFixedBlockCommitted | crates/kgi-api-model/src/graph.rs:519-539 | the same for a Fixed view, with the freezing branch |
| GraphView.GraphView.ApplyFixedVspcCommitted | crates/kgi-api-model/src/graph.rs:550-578 | the same for a Fixed view's VSPC transition, with both freezing branches |
| GraphView.GraphView.ApplyBlockProjection | crates/kgi-api-model/src/graph.rs:580-628 | projecting a block, its snapshots and its edges on an extent captures every changed key once with its original value |
| GraphView.GraphView.ApplyVspcProjection | crates/kgi-api-model/src/graph.rs:630-677 | clearing, marking, recolouring and rescoring emit the net change only |
| GraphView.GraphView.PruneBelow | crates/kgi-api-model/src/graph.rs:448-481 | raising the lower bound removes exactly the blocks below it, the edges they own and the levels nothing uses |
| GraphView.GraphView.PruneEdges | crates/kgi-api-model/src/graph.rs:459-470 | pruning through the child index removes exactly the edges of pruned children and their counts |
| GraphView.GraphView.PruneLevels | crates/kgi-api-model/src/graph.rs:472-481 | exactly the unused levels below the bound are removed |
| GraphView.GraphView.FinishMutation | crates/kgi-api-model/src/graph.rs:679-702 | a non-empty mutation is published under the next revision; an empty one publishes nothing |
| GraphView.GraphView.ApplyEdgeChanges | crates/kgi-api-model/src/graph.rs:356-375 | delta edges are stored and reindexed, with the released and taken parent levels balancing the change in usage |
| GraphView.GraphView.DecrementUsage | crates/kgi-api-model/src/graph.rs:391-395 | every recorded release lowers its level's count and none passes below zero |
| GraphView.GraphView.IncrementUsage | crates/kgi-api-model/src/graph.rs:396-399 | every recorded use raises its level's count |
| GraphView.GraphView.ApplyLevelChanges | crates/kgi-api-model/src/graph.rs:377-389 | level changes replace values and keep the counts of surviving levels |
| GraphView.GraphView.RetainEdge | crates/kgi-api-model/src/graph.rs:611-627 | a new edge is stored, indexed and counted once; a known one changes nothing |
| GraphView.GraphView.Derive | crates/kgi-api-model/src/graph.rs:877-899 | a view rebuilt from primary maps has every index and count right |
| GraphView.GraphView.FromDatabaseProjection | crates/kgi-api-model/src/graph.rs:219-254 | a seeded view is coherent and starts at revision zero |
| GraphView.GraphView.SelectBlocks | crates/kgi-api-model/src/graph.rs:814-820 | selection through the level index equals the filter over all blocks |
| GraphView.GraphView.SelectSpans | crates/kgi-api-model/src/graph.rs:822-832 | selection through the span index equals the filter over all edges |
| GraphView.GraphView.ExtractSubview | crates/kgi-api-model/src/graph.rs:837-874 | indexed extraction equals the naive filter, and is refused exactly for an extent outside the view |
| Extract.ExtractedComplete | crates/kgi-api-model/src/graph.rs:749-754 | extraction never misses a level: the result holds exactly the nominal and endpoint levels |
| Extract.ExtractedNests | crates/kgi-api-model/src/graph.rs:837-874 | extracting an inner extent from an extracted outer view equals extracting it directly |
| Extract.HeadWindowComplete | crates/kgi-api-model/src/graph.rs:749-754 | every view inside the Head window invariant has every level an extraction looks up |
| Extract.FixedCommitKeepsComplete | crates/kgi-api-model/src/graph.rs:519-539 | a Fixed view stays complete under block commits whose snapshots cover the levels they touch |
| Extract.FixedVspcKeepsComplete | crates/kgi-api-model/src/graph.rs:550-578 | a Fixed view stays complete under VSPC transitions |
| Replica.ReplicateBlock | crates/kgi-api-model/src/graph.rs:334-418 | a replica that applies the emitted delta keeps its complete stored state, indexes and counts included, equal to the writer's |
| Replica.ReplicateVspc | crates/kgi-api-model/src/graph.rs:334-418 | the same for a VSPC transition |
| Replica.Follow | crates/kgi-api-model/src/graph.rs:334-418 | a replica at the source of any interval of a lineage, single or composed, reaches its target |
| History.GraphHistory.AppendDelta | crates/kgi-api-model/src/history.rs:210-247 | append accepts exactly the next atomic delta, a barrier empties the log and moves the floor to the revision it produces, and the log stays gapless |
| History.GraphHistory.PruneBelow | crates/kgi-api-model/src/history.rs:250-256 | the loop drops exactly the longest prefix below the window |
| History.GraphHistory.FindBoundaryIndex | crates/kgi-api-model/src/history.rs:392-405 | the binary search finds a retained left boundary exactly when it exists |
| History.GraphHistory.RangeTo | crates/kgi-api-model/src/history.rs:263-306 | the loop-based range returns the specified reason or slice |
| History.GraphHistory.FittingRange | crates/kgi-api-model/src/history.rs:320-390 | the fitting search returns the farthest accepted candidate with its exact summed cost, or the reason no range exists |
| History.GraphHistory.OfferTargets | crates/kgi-api-model/src/history.rs:353-384 | candidates are priced by absolute costs, and the first accepted one is the farthest that fits |
| History.CumulativeIsSum | crates/kgi-api-model/src/history.rs:118-126 | a difference of absolute costs is the sum of the estimates in between, after any pruning or barrier |
| History.PruneIsExact | crates/kgi-api-model/src/history.rs:250-256 | when Head levels never fall, the dropped prefix is exactly the entries below the bound |
| History.Priced | crates/kgi-api-model/src/history.rs:353-384 | a candidate is a retained atomic boundary and its price is its summed cost |
| History.PruneKeepsValid | crates/kgi-api-model/src/history.rs:250-256 | pruning keeps the log atomic, contiguous and correctly priced |
| History.AppendKeepsValid | crates/kgi-api-model/src/history.rs:210-247 | appending keeps the log atomic, contiguous and correctly priced |
| Ladder.LadderShape | crates/kgi-api-core/src/delta.rs:181-198 | every ladder descends strictly from the successor to the next revision, has at most eight targets, and interior ones are next multiples of powers of two |
| Ladder.SuccessorsConverge | crates/kgi-api-core/src/delta.rs:200-213 | after six successor steps every cursor is on a nonzero multiple of 128 and stays there |
| Ladder.SuccessorDoubles | crates/kgi-api-core/src/delta.rs:200-213 | a step from a revision aligned to at most 64 doubles its alignment |
| Ladder.BoundariesAre | crates/kgi-api-core/src/delta.rs:181-198 | the ladder of every source in closed form |
| Ladder.SpanIsLargest | crates/kgi-api-core/src/delta.rs:200-213 | the span of an aligned source is the largest power of two up to 128 that divides it |
| Ladder.SuccessorAhead | crates/kgi-api-core/src/delta.rs:200-213 | the successor lies 4 to 128 revisions ahead |
| Ladder.TargetBoundaries | crates/kgi-api-core/src/delta.rs:181-198 | the loop returns the ladder, and nothing in it overflows 64 bits unless the successor does |
| Continuation.ContinuationAgrees | crates/kgi-api-core/src/service.rs:664-713 | a response continues exactly when a fresh selection at the returned cursor yields a range and waits exactly for that selection's boundary; a Stale publication never waits, and an installed unsent schedule lies beyond Head |
| Continuation.RetryIsBounded | crates/kgi-api-core/src/service.rs:664-713 | an unregistered client that must wait is told 1000 ms by a finished Stale publication and 75 to 9600 ms otherwise, and the subtraction never underflows |
| Continuation.SelectDecides | crates/kgi-api-core/src/delta.rs:114-136 | selection yields a range exactly when the next eligible boundary is within Head or the publication is Stale, and otherwise waits for that boundary; the range reaches the farthest target within Head that is the successor or at least one interval away, and any target when Stale |
| Continuation.NextEligibleBounds | crates/kgi-api-core/src/delta.rs:138-148 | the next eligible boundary is the nearest target that is the successor or at least one interval away, for every interval |
| Continuation.LeastBeyondIs | crates/kgi-api-core/src/delta.rs:114-148 | the waiting boundary is the least eligible target beyond the bound, and is missing only if there is none |
| Continuation.FirstReachableIs | crates/kgi-api-core/src/delta.rs:114-136 | the selected target is eligible and within Head, is the farthest such on a descending ladder, and is missing only if there is none |
| Continuation.FittingTargetsAre | crates/kgi-api-core/src/delta.rs:157-173 | the candidates are exactly the ladder's targets from the selected one down to what is already cached |
| Continuation.FittingTargetsDescend | crates/kgi-api-core/src/delta.rs:157-173 | candidates for a target within history meet every demand of the fitting search, start at the target, and without cached coverage end at the next revision |
| Continuation.SingleEntryAlwaysFits | crates/kgi-api-model/src/history.rs:320-390 | fitting cannot fail for a retained source without cached coverage when every entry fits on its own |
| Cache.DeltaAnswersAdequate | crates/kgi-api-core/src/cache.rs:544-604 | every completed answer from lookup or election covers the requested target and keeps its source; a job answer is held by that source's slot |
| Cache.DeltaFoundAgain | crates/kgi-api-core/src/cache.rs:544-633 | a recorded delta answers every later lookup and election that its target or size limit satisfies, and no other source notices |
| Cache.DeltaSingleFlight | crates/kgi-api-core/src/cache.rs:562-604 | while an elected job runs, every request for the same or a later target joins it and changes nothing |
| Cache.DeltaReclassifies | crates/kgi-api-core/src/cache.rs:569-578 | a size-limited request for the completed target turns that value into the answer to every farther request |
| Cache.DeltaFailureUndoes | crates/kgi-api-core/src/cache.rs:606-633 | a failed construction leaves the slots as they were before its election |
| Cache.DeltaRemovals | crates/kgi-api-core/src/cache.rs:447-460 | age removes exactly the slots at least 300 seconds old and a floor exactly the sources below it, leaving the others as they are |
| Cache.HeadFoundAgain | crates/kgi-api-core/src/cache.rs:463-536 | a recorded snapshot is served exactly while it is at or above floor and oldest revision and younger than 90 seconds, and is forgotten afterwards |
| Cache.HeadSingleFlight | crates/kgi-api-core/src/cache.rs:488-507 | while a Head job runs, every request for its depth joins it and changes nothing |
| Cache.HeadRemovals | crates/kgi-api-core/src/cache.rs:447-460 | a floor keeps exactly the snapshots at or above it, without their running jobs |
| Cache.ElectGrows | crates/kgi-api-core/src/cache.rs:562-604 | election keeps completed targets from falling and running targets strictly beyond them |
| Cache.FinishGrows | crates/kgi-api-core/src/cache.rs:606-633 | recording a result keeps that invariant and leaves the result in the slot it was built for |
| Cache.Probe | crates/kgi-api-core/src/cache.rs:655-664 | the first actual source at or after a midpoint decides the midpoint's side |
| Cache.DeltaCache.SplitPoint | crates/kgi-api-core/src/cache.rs:653-666 | the numeric binary search over sparse keys always finds a candidate and ends within 64 rounds |
| Cache.DeltaCache.PruneExpired | crates/kgi-api-core/src/cache.rs:635-668 | with timestamps nondecreasing in source, exactly the expired slots are removed, within 64 rounds for any 64-bit keys |
| Cache.DeltaCache.LookupAt | crates/kgi-api-core/src/cache.rs:544-560 | a lookup prunes by age and then answers from what is left |
| Cache.DeltaCache.Elect | crates/kgi-api-core/src/cache.rs:562-604 | in-place election matches its specification and keeps the slot invariant and growth |
| Cache.DeltaCache.Finish | crates/kgi-api-core/src/cache.rs:606-633 | in-place completion matches its specification, its assertions hold, and growth is kept |
| Cache.DeltaCache.DetachBefore | crates/kgi-api-core/src/cache.rs:447-460 | a newer floor takes exactly the slots below it and reports exactly their running jobs |
| Cache.HeadCache.LookupAt | crates/kgi-api-core/src/cache.rs:463-486 | a served snapshot is admitted by the boundary and has the requested depth |
| Cache.HeadCache.Elect | crates/kgi-api-core/src/cache.rs:488-507 | an elected answer is an admitted snapshot or a job held by that depth's slot |
| Cache.HeadCache.Finish | crates/kgi-api-core/src/cache.rs:509-536 | only the job a slot runs can write it |
| Cache.HeadCache.DetachBefore | crates/kgi-api-core/src/cache.rs:538-541 | a newer floor takes every running Head job and every snapshot below it |
| CacheProtocol.StepKeepsInv | crates/kgi-api-core/src/cache.rs:343-349 | every interleaved step keeps: each running slot holds a Pending job still building for exactly that slot, and only a job's own builder completes it |
| CacheProtocol.JobsTerminateOnce | crates/kgi-api-core/src/cache.rs:823-844 | over every run the invariant holds and a terminal job keeps that exact state to the end |
| CacheProtocol.AssertionsHold | crates/kgi-api-core/src/cache.rs:823-844 | completion never meets a completed job, invalidation meets only pending ones, and a recorded result matches the slot's running target |
| CacheProtocol.JobInOneSlot | crates/kgi-api-core/src/cache.rs:447-460 | a job runs in at most one slot of either cache |
| CacheProtocol.DetachedWritesNothing | crates/kgi-api-core/src/cache.rs:886-908 | a job that no slot holds writes no slot when its builder finishes |
| CacheProtocol.TerminalIsDetached | crates/kgi-api-core/src/cache.rs:835-844 | a completed or invalidated job is in no slot |
| CacheProtocol.StepGrows | crates/kgi-api-core/src/cache.rs:606-633 | no step of any party lowers the completed target of a slot that lives on |
| CacheProtocol.SlotsStayOrdered | crates/kgi-api-core/src/cache.rs:635-668 | nondecreasing publication timestamps keep the slots ordered as the age pruning needs |
| Mailbox.SseMailbox.AdmitBatch | crates/kgi-api-core/src/client.rs:76-85 | a batch of required messages is admitted whole or not at all, and a refusal changes nothing |
| Mailbox.SseMailbox.AdmitGraphWakeup | crates/kgi-api-core/src/client.rs:87-98 | an ordinary wakeup replaces the queued one of its publication, or takes a free place, or is refused without effect |
| Mailbox.SseMailbox.CoalesceGraphWakeup | crates/kgi-api-core/src/client.rs:100-119 | a queued wakeup moves to the back with the new revision; without one nothing is queued |
| Mailbox.SseMailbox.RemoveGraphWakeup | crates/kgi-api-core/src/client.rs:121-130 | the queued wakeup of a publication is taken out and every other item keeps its place |
| Mailbox.SseMailbox.FindWakeup | crates/kgi-api-core/src/client.rs:107-115 | the search returns the first queued wakeup of the publication |
| Mailbox.SseMailbox.Poll | crates/kgi-api-core/src/client.rs:206-223 | a receive yields the front of the queue, and finishes only when closed and drained |
| Mailbox.AdmitRequiredKeeps | crates/kgi-api-core/src/client.rs:76-85 | admission keeps a mailbox bounded, complete, and its reported revisions moving forward |
| Mailbox.CoalesceKeeps | crates/kgi-api-core/src/client.rs:107-119 | coalescing never disturbs required messages and never makes a publication's revisions go backwards |
| Mailbox.AdmitWakeupKeeps | crates/kgi-api-core/src/client.rs:87-98 | the same for admitting an ordinary wakeup, with at most one queued per publication |
| Mailbox.RemoveKeeps | crates/kgi-api-core/src/client.rs:121-130 | the same for taking a wakeup out |
| Registry.SseClientRegistry.AdvanceHead | crates/kgi-api-core/src/client.rs:410-449 | the retain loop visits every client once, in some order, with the specified effect on its mailbox and schedule |
| Registry.SseClientRegistry.PublishState | crates/kgi-api-core/src/client.rs:384-407 | the retain loop announces the new state to every client once, in some order, dropping those it cannot reach |
| Registry.SseClientRegistry.Register | crates/kgi-api-core/src/client.rs:525-584 | registration purges dead clients, respects the bound of 1024, and greets the mailbox atomically |
| Registry.SseClientRegistry.CompleteDelta | crates/kgi-api-core/src/client.rs:452-514 | completion validates or replaces one schedule, or removes a registration it cannot serve |
| Registry.SseClientRegistry.ReplaceRegistrationInto | crates/kgi-api-core/src/client.rs:265-320 | in-place replacement across two registries matches its specification on mailboxes and both client maps |
| Registry.SseClientRegistry.Purge | crates/kgi-api-core/src/client.rs:535-542 | exactly the registrations with a dead mailbox go |
| Exactness.DeliveryOrder | crates/kgi-api-core/src/client.rs:76-131 | over every run, a mailbox holds at most eight items, required messages are delivered then queued exactly as admitted, and the revisions reported for one publication never go backwards or past its Head |
| Exactness.NoMissedWakeup | crates/kgi-api-core/src/client.rs:410-514 | over every run, each client has been sent its wakeup or Head is still below its boundary |
| Exactness.WakeupsExact | crates/kgi-api-core/src/client.rs:410-514 | with one registration per mailbox, the ordinary wakeups since a schedule was installed number exactly what it owes, at most one, and a queued one belongs to a sent schedule and carries the current Head |
| Exactness.OneRegistryEach | crates/kgi-api-core/src/client.rs:265-320 | with one registration per mailbox, no connection is ever in two registries |
| Exactness.StepExtends | crates/kgi-api-core/src/client.rs:265-320 | no step, replacement included, takes back a message admitted or delivered earlier |
| Exactness.StepKeepsExact | crates/kgi-api-core/src/client.rs:410-584 | every step keeps the exact accounting of wakeups for every client |
| Delivery.StepKeepsSound | crates/kgi-api-core/src/client.rs:265-584 | every step of connections and publications keeps every mailbox in order and complete and every client woken or ahead of Head |
| Delivery.ReplacingIs | crates/kgi-api-core/src/client.rs:265-320 | a replacement is a removal, a cleared wakeup and a registration at the new Head |
| Schedules.OrderIrrelevant | crates/kgi-api-core/src/client.rs:410-449 | with one registration per mailbox, the outcome of a visit does not depend on the hash map's iteration order |
| Schedules.VisitAllAt | crates/kgi-api-core/src/client.rs:417-446 | a client's outcome in a visit of all is that of its own visit alone |
| Schedules.AdvanceExact | crates/kgi-api-core/src/client.rs:424-440 | a Head advance changes what a mailbox holds by exactly what the schedule comes to owe |
| Effects.HeadReachesClients | crates/kgi-api-core/src/client.rs:410-449 | a Head advance wakes exactly the clients it is due for, moves a queued wakeup to the back with the new Head, leaves all other mailboxes alone, and drops exactly the clients it cannot reach |
| Effects.StateReachesClients | crates/kgi-api-core/src/client.rs:384-407 | a lifecycle change is the next thing every reachable client is sent, and exactly the unreachable ones are dropped |
| Effects.RegistrationGreets | crates/kgi-api-core/src/client.rs:525-584 | registration succeeds exactly when fewer than 1024 live clients remain and the open mailbox has three free places; identifier, state and Head then arrive together, and dead clients and no others are dropped |
| Effects.CompletionInstalls | crates/kgi-api-core/src/client.rs:452-514 | an accepted schedule is the one asked for, already sent if Head has reached it, and is refused exactly when the registration, connection or room is missing |
| Effects.ReplacementMoves | crates/kgi-api-core/src/client.rs:265-320 | replacement leaves the old registry with its queued wakeup, and succeeds exactly when the new one and the open mailbox have room; the same mailbox is then registered at the new Head and greeted after everything it was owed |
| Effects.ValidationLooks | crates/kgi-api-core/src/client.rs:452-514 | validation accepts exactly a registration whose connection is there and open, and then changes nothing |
| Subscription.DisableReturns | crates/kgi-node/src/rpc.rs:330-382 | a disable of an active generation that was not already Disabled returns only with the state Disabled, both streams down and routing off, unless a stop failed and retirement was asked for |
| Subscription.ActivationReturns | crates/kgi-node/src/rpc.rs:260-327 | every activation of an active generation ends routed with both streams up, at rest with both down, handed over to a disable in progress, waiting for retirement, or refused because it was overtaken |
| Subscription.EnablesOnlyWanted | crates/kgi-node/src/rpc.rs:310-320 | routing is enabled only by publishing an activation that is still wanted, with its destinations installed and both streams up |
| Subscription.ActivationCompletes | crates/kgi-node/src/rpc.rs:232-327 | from every quiet Disabled state, an undisturbed activation whose calls succeed ends routed with both streams up |
| Subscription.DisableCompletes | crates/kgi-node/src/rpc.rs:330-382 | from every quiet Enabled state, an undisturbed disable whose calls succeed ends Disabled with both streams down and the router cleared |
| Subscription.SubscriptionSafety | crates/kgi-node/src/rpc.rs:232-446 | over every interleaving, routing is enabled only while both remote streams are up, an active generation at rest in Disabled has stopped whatever it started, and both state machines retire together |
| Subscription.StepKeepsInv | crates/kgi-node/src/rpc.rs:232-446 | every step of caller, activation task, disable, router fault and retirement keeps the protocol invariant |
| Subscription.RetiredForever | crates/kgi-node/src/rpc.rs:670-721 | once both state machines are Retired, no run leaves that state |
| Subscription.TaskNext | crates/kgi-node/src/rpc.rs:260-327 | no step of the activation task undoes retirement |
| Subscription.DisablerNext | crates/kgi-node/src/rpc.rs:330-382 | no step of a disable undoes retirement |
| Subscription.RouterDisable | crates/kgi-node/src/notification.rs:70-75 | disabling the router never undoes retirement |
| Subscription.PublishRefusal | crates/kgi-node/src/rpc.rs:313-320 | an active activation is refused at publication exactly when an overlapping disable has cleared its destinations |
| Subscription.OvertakenActivation | crates/kgi-node/src/notification.rs:46-82 | a reachable run in which a disable that saw Disabled clears a younger activation's destinations, so that both streams run without routing |
| Subscription.TaskKeepsInv | crates/kgi-node/src/rpc.rs:260-327 | each of the activation task's steps, with every call outcome, keeps the invariant |
| Subscription.DisablerKeepsInv | crates/kgi-node/src/rpc.rs:330-382 | each of a disable's steps, with every call outcome, keeps the invariant |
| Ingress.IngressConservation | crates/kgi-api-ingress/src/channel.rs:171-270 | over every interleaving, Catchup is the first value ever queued and only the first, earlier offers leave no value and no gap, the published generation counts the offers dropped as full, nothing is lost or reordered on the way to a living receiver, occupancy lags by at most one dequeue, and every finished offer is accounted for |
| Ingress.NeverPanics | crates/kgi-api-ingress/src/channel.rs:203-270 | Catchup never finds the channel full, a reserved send always has its permit, and the occupancy decrement never underflows |
| Ingress.OpenChannelLosesNothing | crates/kgi-api-ingress/src/channel.rs:171-193 | through an open gate and up to the receiver's closing, every offer that finishes was queued or published as a gap, over every run |
| Ingress.StepFated | crates/kgi-api-ingress/src/channel.rs:171-193 | an offer is suppressed only before the gate opens, refused only after closing, dropped only when 1024 places are taken, and a queued value goes to the back |
| Ingress.OfferDelivers | crates/kgi-api-ingress/src/channel.rs:171-193 | an undisturbed offer through an open gate with room is queued and counted |
| Ingress.FullOfferReports | crates/kgi-api-ingress/src/gap.rs:24-27 | an undisturbed offer without room is dropped and published as one more gap |
| Ingress.EarlyOfferVanishes | crates/kgi-api-ingress/src/channel.rs:178-180 | an undisturbed offer before the gate opens leaves nothing behind but its own count |
| Ingress.CatchupOpens | crates/kgi-api-ingress/src/channel.rs:203-222 | an undisturbed Catchup is the first value and opens the gate |
| Ingress.LiveDelivers | crates/kgi-api-ingress/src/channel.rs:229-271 | an undisturbed live marker is queued and gives back its place |
| Ingress.StepKeepsInv | crates/kgi-api-ingress/src/channel.rs:171-298 | every step of producers and receiver keeps the channel invariant |
| Ingress.CatchupKeeps | crates/kgi-api-ingress/src/channel.rs:203-222 | before the gate opens nobody holds a reservation, so Catchup always finds room |
| Ingress.GraphUpdateChannel.TrySendUpdate | crates/kgi-api-ingress/src/channel.rs:247-260 | a send enqueues and counts one value, or reports full or closed without effect |
| Ingress.GraphUpdateChannel.SendWithPermit | crates/kgi-api-ingress/src/channel.rs:262-271 | a reserved send gives back its permit, and delivers unless the receiver has closed |
| Ingress.GraphUpdateChannel.DropReceiver | crates/kgi-api-ingress/src/channel.rs:379-385 | dropping the receiver closes once and clears the occupancy |
| Ingress.GraphUpdateChannel.ReportGap | crates/kgi-api-ingress/src/gap.rs:24-27 | a report raises the generation by one and publishes it |
| Ingress.GraphUpdateChannel.TakePending | crates/kgi-api-ingress/src/gap.rs:57-61 | a pending generation is returned exactly when it was not observed before |

## Left out

- Level changes of a delta: kept as a map with one entry per level; the order of the emitted vector is not modelled.
- Integer widths in the graph view: levels, usage counts and revisions are unbounded naturals, so their overflow checks are not modelled; the ladder and the age pruning do model 64 bits.
- GraphView.GraphView.SelectSpans: walks the span index row by row, where the source ranges over ordered keys; the selected edges are the same.
- GraphView.GraphView.SelectBlocks: walks the level index bucket by bucket, where the source ranges over ordered keys; the selected blocks are the same.
- History.GraphHistory.FittingRange: takes the size policy as a pure predicate on bytes; the encoder that supplies it is not modelled.
- History.GraphHistory.AppendDelta: supposes that the absolute cost fits 64 bits, where the source panics.
- Active interval membership in the ladder: not assumed; the continuation laws hold for every interval.
- Cache jobs and mailboxes: identities only; reference counts, waiting, cancellation tokens and panicking builders are not modelled, and a cache dropped before its builder ends is not a step.
- Cached bodies, ETags, gzip and JSON encoding, base64 identifiers and random generation: bodies are opaque numbers and identifiers are fresh keys.
- Registry.SseClientRegistry.Register: takes the first unused sampled identifier as a parameter; the sampling loop is not modelled.
- Registry.SseClientRegistry.ReplaceRegistrationInto: the address-ordered acquisition of the two registry locks is not modelled; both are held throughout.
- Subscription calls: a remote call takes effect when it returns, and closing a generation and retiring it are two steps that may come at any time; retirement requests and their channel are not modelled.
- Notification routing and its bounded destinations: a routing fault is one step that disables the router.
- Ingress.GraphUpdateChannel.SendWithPermit: Tokio's semaphore is a permit count; the order in which waiting reservations are granted is not modelled.
- Selecting between gap and update observations, and closing of the gap reporter: waiting logic only.
- Publication runtime, encoding scheduler, request orchestration, reset and shutdown, storage, node connection, configuration and the web client: outside the replication engine.

# Verified model of the forklift HA layer and the health-event poller

A Dafny model of the stateful core of this repository, with proofs over every
input, every interleaving or every reachable state:

- **Leader election** (`LeaseRecord`, `LeaseElection`, `LeaseFencing`, `LeaseTiming`,
  `LeaseTightness`, `LeaseHandOff`, `LeaseAttempt`, `LeaderElector`): any number of electors, one
  Lease with compare-and-swap writes, requests that are lost, acknowledged late or
  never, terms that are cancelled, and time.
- **Standby replication** (`BlobPages`, `BlobMerge`, `Replication`, `Replicator`,
  `Promotion`): paging, the streaming merge, completeness of committed snapshots,
  and the interleaving of sync cycles with promotion and demotion.
- **Connection pool** (`ConnectionPool`): permits, leases, waiting, closing.
- **Durations** (`Digits`, `Arithmetic`, `DurationParser`, `DurationFormatter`,
  `DurationLaws`, `DurationShape`): the byte-level parser and printer with explicit 64-bit bounds.
- **Migration** (`Migration`, `Migrator`): plan, concurrent copy, verify, metadata
  last, postflight and clean-up, over repeated runs.
- **Health-event poller** (`Dedup`, `Poller`, `Reminders`, `PollerLoop`, `Region`):
  the bounded memory, reminders, and the region recogniser.

Protocols are state machines: a `State`, a `Step` per atomic action, `Enabled`, `Do`,
and runs as sequences of states and steps. Objects that the program updates in place
are classes whose methods are proved against functions of the model. Clocks, random
numbers and the answers of stores, servers and the network are parameters or steps.

`dafny verify dfyconfig.toml` checks the whole project.

## Where a promise does not hold as stated

For each there is a concrete counterexample and the exact condition.

- Timed exclusion does not follow from a lease longer than one request plus retry
  period plus renew deadline; three requests are needed
  (`OneRequestIsNotEnough`; the exact bound for every limit is `ExclusionExactly`).
- "No further acquisitions succeed" after closing a pool has one race
  (`CloseRaceIsReachable`, `CloseIsFinalExactly`).
- A promoted instance can be disturbed by a sync cycle when a demotion overtakes the
  promotion (`PromotionCanBeOvertaken`, `ReturnProtectsExactly`).
- The removal of a wrongly served body can remove a blob the standby needs
  (`WrongBodyLosesBlob`, `Replication.CompleteExactly`).
- The clean-up after a failed postflight removes blobs before metadata and can leave
  dangling metadata (`CleanUpCanDangle`, `EndsCompleteExactly`).
- Posts of one event can go back in time when an update is dated ahead of the clock.
  This needs a service that answers outside the range asked for: `list_events`
  requests `[from, to)`, box/addons/aws-health-event-notifier/src/aws/health.rs:64-80
  (`FutureUpdateBreaksOrder`, `OrderIsSafeExactly`, `UntimedKeepsCoverExactly`).

## Model

| member | source | states |
|---|---|---|
| LeaseRecord.ToI32 | box/addons/forklift/src/cluster.rs:314-323 | the `as i32` cast of both counters: always in range, the identity exactly on 32-bit values, congruent modulo 2^32 |
| LeaseRecord.WireRoundTrip | box/addons/forklift/src/cluster.rs:300-323 | a record written to the Lease reads back unchanged if and only if both counters fit 32 bits |
| LeaseRecord.AbsentIsVacant | box/addons/forklift/src/cluster.rs:300-312 | a Lease without a spec or without fields reads as one nobody holds |
| LeaseRecord.LeaseIsRoundedDown | box/addons/forklift/src/cluster.rs:529-535 | the duration written is the lease in whole seconds, rounded down |
| LeaseRecord.AcceptedExactly | box/addons/forklift/src/cluster.rs:257-274 | which configurations are accepted, as an equivalence |
| LeaseRecord.Jitter | box/addons/forklift/src/cluster.rs:627-630 | every jittered sleep lies between the period and 2.2 times the period |
| LeaseRecord.JitterReaches | box/addons/forklift/src/cluster.rs:627-630 | every sleep in that range below its upper end occurs |
| LeaseFencing.Fencing | box/addons/forklift/src/cluster.rs:111-127 | over every interleaving of any number of electors, with lost acknowledgements, cancelled attempts, releases and new terms: transition counts never decrease, two versions with different non-empty holders have strictly increasing counts, the count rises exactly when the Lease passes to somebody else, and versions of one count and a holder have the same holder and time of acquisition |
| LeaseFencing.ChainOrdersHolders | box/addons/forklift/src/cluster.rs:527-608 | adjacent-version links imply the order of counts and holders at any distance |
| LeaseFencing.StepInv | box/addons/forklift/src/cluster.rs:497-608 | every protocol step keeps the invariant relating Lease history, requests in flight and each elector's belief |
| LeaseFencing.TakeoverCountsExactly | box/addons/forklift/src/cluster.rs:313-323 | a take-over stores exactly one more, except at the largest 32-bit count, where the stored token wraps to the smallest; the reason Fencing assumes no wrap |
| LeaseFencing.ObserveKeepsBelief | box/addons/forklift/src/cluster.rs:576-580 | observing a read version leaves the elector's belief consistent with the Lease history, although `observed_record` and `observed_raw` may differ |
| LeaseFencing.SlowPathKnowsHolder | box/addons/forklift/src/cluster.rs:576-607 | in every reachable state the slow path writes as leader if and only if the version it just read names this identity, and then keeps that version's count; otherwise what it observed is exactly that version |
| LeaseFencing.OnlyCurrentElectorsWrite | box/addons/forklift/src/cluster.rs:363-375 | every change of the Lease is one compare-and-swap on its newest version by an elector whose cached version has not been superseded, and follows the rules for renewal, take-over or release |
| LeaseTiming.RunningLoopIsFresh | box/addons/forklift/src/cluster.rs:453-492 | while a holder's renew loop runs, the newest record is no older than `Slack` |
| LeaseTiming.TimedExclusion | box/addons/forklift/src/cluster.rs:426-492 | with requests answered within a limit and a whole-second lease above `Slack`, no take-over of an unreleased Lease is applied while the holder's renew loop runs |
| LeaseTightness.ExclusionBoundIsTight | box/addons/forklift/src/cluster.rs:527-608 | for every accepted configuration and every request limit, a lease at or below `Slack` admits a timely run that breaks exclusion |
| LeaseTightness.ExclusionExactly | box/addons/forklift/src/cluster.rs:257-274 | for every accepted configuration and every request limit, timed exclusion holds in all timely runs if and only if the whole-second lease exceeds `Slack` |
| LeaseTightness.SlackInFull | box/addons/forklift/src/cluster.rs:426-492 | `Slack` is three requests plus retry period plus renew deadline while three requests fit in the deadline, and beyond that the larger of two deadlines plus retry period and three requests plus one deadline |
| LeaseTightness.OneRequestIsNotEnough | box/addons/forklift/src/cluster.rs:527-608 | a single request in the bound is not enough: with 15s/10s/2s and 1.5s requests, a lost acknowledgement followed by a read and a rewrite lets a contender in |
| LeaseHandOff.RetryBeforeRecontending | box/addons/forklift/src/cluster.rs:217-229 | for every configuration `validate` accepts, the pause after stepping down exceeds the longest jittered retry |
| LeaseHandOff.TermEndsWithPause | box/addons/forklift/src/cluster.rs:187-206 | the pause between two terms: the retry period, after a step-down the lease as well |
| LeaseHandOff.StepDownHandsOver | box/addons/forklift/src/cluster.rs:187-206 | after a successful release on step-down, with an equally configured standby anywhere in its acquire loop and instantaneous requests, another identity holds the Lease with the next count before the stepping-down instance contends again |
| LeaseAttempt.AttemptWrites | box/addons/forklift/src/cluster.rs:527-608 | whatever is lost, an attempt only appends versions of its own holder with its whole-second duration and the time of the attempt; after a version of the same holder time of acquisition and count stay, after any other the count goes up and the time is the attempt's, or what was last observed if a renewal was tried first; success means the newest version is what is observed, since now |
| LeaseAttempt.AttemptOutcome | box/addons/forklift/src/cluster.rs:527-608 | without faults an attempt fails only against an unexpired Lease of another holder |
| LeaseAttempt.StaleTimeOfAcquisition | box/addons/forklift/src/cluster.rs:539-542 | a take-over that keeps the time of acquisition of an earlier tenure, because the renewal tried first already filled it in |
| LeaseAttempt.AttemptIsSteps | box/addons/forklift/src/cluster.rs:527-608 | an undisturbed attempt, for every fault of each request, is a run of the protocol's steps |
| LeaseAttempt.ReleaseWrites | box/addons/forklift/src/cluster.rs:497-523 | a release writes at most one record: vacant, one second, stamped now, the count of the holder's last version |
| LeaseAttempt.ReleaseIsSteps | box/addons/forklift/src/cluster.rs:497-523 | an undisturbed release is a run of the protocol's steps |
| LeaderElectorObject.LeaseServer.Get | box/addons/forklift/src/cluster.rs:336-344 | a read returns the newest version or an error, and changes nothing |
| LeaderElectorObject.LeaseServer.Put | box/addons/forklift/src/cluster.rs:346-375 | a write takes effect only on the version it is based on, whether or not its reply arrives |
| LeaderElectorObject.LeaderElector.Update | box/addons/forklift/src/cluster.rs:363-375 | without a cached Lease an error; otherwise Lease and elector are exactly those of a conditional write, observed only if acknowledged |
| LeaderElectorObject.LeaderElector.ObserveRead | box/addons/forklift/src/cluster.rs:556-580 | after a read the elector believes to be leader if and only if the version read names it |
| LeaderElectorObject.LeaderElector.CreateLease | box/addons/forklift/src/cluster.rs:556-566 | Lease and elector are exactly those of a create, observed only if acknowledged |
| LeaderElectorObject.LeaderElector.SlowPath | box/addons/forklift/src/cluster.rs:556-608 | read, decide, write: Lease, elector and result exactly as the protocol's steps give them, for every fault |
| LeaderElectorObject.LeaderElector.TryAcquireOrRenew | box/addons/forklift/src/cluster.rs:527-608 | Lease, elector and result exactly as the protocol's steps give them, for every fault, obeying the law of an attempt; belief and history stay consistent |
| LeaderElectorObject.LeaderElector.Release | box/addons/forklift/src/cluster.rs:497-523 | Lease, elector and result exactly as the protocol's steps give them; the only possible change is a vacant record with the same count |
| BlobPages.NextKeepsAhead | box/addons/forklift/src/replication.rs:535-555 | one call of the cursor moves strictly forward and loses no digest the leader holds at that moment |
| BlobPages.ListingIsComplete | box/addons/forklift/src/replication.rs:525-555 | while digests come and go between page reads the listing is strictly increasing and contains every digest present throughout |
| BlobPages.YieldedWasListed | box/addons/forklift/src/replication.rs:400-417 | a listed digest was on the leader when its page was read |
| BlobPages.RemotePages.NextDigest | box/addons/forklift/src/replication.rs:535-555 | the fetch-and-retry loop computes one step of the cursor |
| BlobMerge.FetchKeeps | box/addons/forklift/src/replication.rs:352-398 | fetching the next remote digest keeps the merge invariant and the fetch log |
| BlobMerge.DeleteKeeps | box/addons/forklift/src/replication.rs:352-398 | deleting the next local digest keeps them, and the digest is not listed at all |
| BlobMerge.SkipKeeps | box/addons/forklift/src/replication.rs:352-398 | stepping over a digest on both sides keeps them |
| BlobMerge.MergedIsMirrored | box/addons/forklift/src/replication.rs:352-398 | what a merge of a complete listing leaves is the mirror of it |
| BlobMerge.SharedSurvives | box/addons/forklift/src/replication.rs:352-398 | wherever a merge stops, a digest both local and listed is still stored, except exactly when the failing fetch received that very blob and removed it |
| BlobMerge.BeyondIsUntouched | box/addons/forklift/src/replication.rs:352-398 | what lies beyond the stop is untouched, with the same exception |
| BlobMerge.BlobStore.FetchBlob | box/addons/forklift/src/replication.rs:419-448 | a body is kept under its own digest; one that hashes to something else is an error and removed again under the digest it hashes to, or left if that removal fails; a 404 is no error |
| BlobMerge.BlobStore.MergeBlobs | box/addons/forklift/src/replication.rs:352-398 | the merge stops at the first digest that fails, if the listing reaches one; on every exit the store is what dealing with everything before that point makes of it, and what was fetched and deleted is exactly what was due before it, each once; success if and only if listing, fetches and deletes all succeed, and then the store is the exact mirror |
| Replication.StepInv | box/addons/forklift/src/replication.rs:303-346 | every step of a cycle, of its failures and of the leader keeps the completeness invariant |
| Replication.CommittedSnapshotIsComplete | box/addons/forklift/src/replication.rs:303-346 | in every run of cycles failing anywhere, under a leader that adds, references, unreferences and sweeps after the grace period, all blobs of the committed snapshot are stored while it is younger than the grace period |
| Replication.CompleteExactly | box/addons/forklift/src/replication.rs:419-448 | the one exception is exact: a step breaks completeness if and only if it is a wrong body that hashes to a blob the committed snapshot references |
| Replication.WrongBodyLosesBlob | box/addons/forklift/src/replication.rs:419-448 | a reachable state in which such a body has removed a needed blob |
| ReplicatorObject.Replicator.Sync | box/addons/forklift/src/replication.rs:310-346 | one cycle: a leader or a standby without one does nothing; success if and only if snapshot, walk, listing, fetches, deletes and rename succeed; the snapshot is committed exactly on success, after the merge made the exact mirror; on failure the store is what the merge left where it stopped |
| ReplicatorObject.Replicator.Promote | box/addons/forklift/src/replication.rs:504-517 | the committed snapshot is used up, and becomes the database if the swap works |
| Promotion.ProtectedExactly | box/addons/forklift/src/replication.rs:504-522 | after a promotion returns, no cycle touches blobs or commits before the next demotion if and only if the flag is still set at that moment |
| Promotion.FlagIsLastTouch | box/addons/forklift/src/replication.rs:504-522 | in every interleaving the flag is set if and only if the last promotion or demotion to touch it was a promotion |
| Promotion.ReturnProtectsExactly | box/addons/forklift/src/replication.rs:504-522 | so a returning promotion protects its instance until the next demotion if and only if no demotion came after the last promotion's first step |
| Promotion.PromotionIsSafe | box/addons/forklift/src/replication.rs:285-314 | promotion safety for every interleaving in which no demotion overtakes the promotion |
| Promotion.PromotionCanBeOvertaken | box/addons/forklift/src/replication.rs:504-522 | a run in which a demotion overtakes a promotion |
| Promotion.OvertakenPromotionIsDisturbed | box/addons/forklift/src/replication.rs:285-314 | and after which a cycle works on the blobs of a promoted instance |
| Promotion.AppliedAtMostOnce | box/addons/forklift/src/replication.rs:504-517 | in every interleaving each committed snapshot is applied at most once |
| Promotion.NoStaleSnapshot | box/addons/forklift/src/replication.rs:504-517 | what was committed before a promotion returned is never applied after it |
| ConnectionPool.Conservation | box/addons/forklift/src/meta.rs:248-318 | in every interleaving of acquires, timeouts, cancellations, panics and releases: no connection leased twice, `in_use` and `waiting` exact, no more closures than connections, and on an open pool a permit always finds a connection and none is lost |
| ConnectionPool.NeverExhausted | box/addons/forklift/src/meta.rs:270-308 | on an open pool the pop after a permit never fails |
| ConnectionPool.SingleWriter | box/addons/forklift/src/meta.rs:248-268 | a pool of one connection runs at most one closure |
| ConnectionPool.AllReturned | box/addons/forklift/src/meta.rs:310-318 | at quiescence on an open pool all connections and permits are back |
| ConnectionPool.CloseIsFinalExactly | box/addons/forklift/src/meta.rs:320-327 | after close a further acquire can succeed if and only if a caller holds a permit while a release that saw the pool open has yet to push its connection |
| ConnectionPool.CloseRaceIsReachable | box/addons/forklift/src/meta.rs:320-327 | that race is reachable |
| ConnectionPool.ReleaseUndoesAcquire | box/addons/forklift/src/meta.rs:270-318 | lease and return leave an open pool as it was |
| ConnectionPool.AcquireIsSteps | box/addons/forklift/src/meta.rs:270-308 | an undisturbed acquire is the caller's four steps of the interleaved model |
| ConnectionPool.ReleaseIsSteps | box/addons/forklift/src/meta.rs:310-318 | an undisturbed release is four more |
| ConnectionPool.RefusalIsSteps | box/addons/forklift/src/meta.rs:270-308 | an undisturbed acquire that is refused is steps of its caller, with the same outcome |
| ConnectionPool.DropIsSteps | box/addons/forklift/src/meta.rs:310-318 | a lease returned to a closed pool is dropped |
| ConnectionPool.OutcomeMeans | box/addons/forklift/src/meta.rs:270-308 | in every interleaving: refused as closed or exhausted only by a closed pool, timed out or cancelled only after queueing, finished only after running |
| ConnectionPool.Pool.Acquire | box/addons/forklift/src/meta.rs:270-308 | closed, busy, exhausted or the last connection, with the counters that go with each |
| ConnectionPool.Pool.Release | box/addons/forklift/src/meta.rs:310-318 | a closed pool drops the connection, an open one takes it and its permit back |
| ConnectionPool.Pool.RunClosure | box/addons/forklift/src/meta.rs:248-268 | after a closure the open pool is as it was |
| DurationParser.LeadingInt | box/addons/forklift/src/config.rs:824-841 | reads all leading digits; fails if and only if their value exceeds 2^63; no 64-bit operation wraps |
| DurationParser.LeadingFraction | box/addons/forklift/src/config.rs:843-870 | skips all leading digits and keeps the longest prefix that stays within 2^63, with its power of ten |
| DurationParser.ParseNumber | box/addons/forklift/src/config.rs:895-914 | the number of a segment, or failure exactly on overflow or without any digit |
| DurationParser.ParseSegment | box/addons/forklift/src/config.rs:891-942 | one segment's nanoseconds and the rest of the text, or the error |
| DurationParser.Combine | box/addons/forklift/src/config.rs:933-942 | fails if and only if the segment exceeds 2^63, without any 64-bit wrap on the way |
| DurationParser.UnitLength | box/addons/forklift/src/config.rs:915-924 | the unit ends at the next digit or dot |
| DurationParser.ParseSegments | box/addons/forklift/src/config.rs:889-947 | the accumulating loop, equal to its specification on all inputs |
| DurationParser.ParseDurationNanos | box/addons/forklift/src/config.rs:872-956 | sign, bare zero, segments and range, equal to its specification on all inputs |
| DurationLaws.AccumulateIsBoundedSum | box/addons/forklift/src/config.rs:889-947 | the loop accepts exactly the well-formed texts whose unbounded sum stays within 2^63 |
| DurationLaws.NanosRoundsDown | box/addons/forklift/src/config.rs:933-942 | a segment is its rational value (of the kept digits) times the unit, rounded down |
| DurationLaws.ParseIsAdditive | box/addons/forklift/src/config.rs:872-956 | parsing a concatenation of unsigned durations gives the sum when it fits 64 bits and an error otherwise |
| DurationLaws.MicrosecondsParseAlike | box/addons/forklift/src/config.rs:811-822 | the three spellings of microseconds parse alike, whatever follows |
| DurationLaws.SignLaws | box/addons/forklift/src/config.rs:872-884 | a plus changes nothing, a minus negates, and alone admits the magnitude 2^63 |
| DurationLaws.UnknownUnitIsReported | box/addons/forklift/src/config.rs:925-932 | a number with an unknown unit gives that error |
| DurationLaws.MissingUnitIsReported | box/addons/forklift/src/config.rs:915-924 | a number without a unit gives that error |
| DurationFormatter.PopZeros | box/addons/forklift/src/config.rs:958-970 | trailing zeros are removed, nothing else |
| DurationFormatter.SplitFrac | box/addons/forklift/src/config.rs:958-970 | whole part and trimmed fraction |
| DurationFormatter.FormatSmall | box/addons/forklift/src/config.rs:978-992 | the sub-second units |
| DurationFormatter.FormatLarge | box/addons/forklift/src/config.rs:993-1004 | hours, minutes and seconds |
| DurationFormatter.FormatDurationNanos | box/addons/forklift/src/config.rs:972-1005 | the printed text, equal to its specification on all 64-bit values |
| DurationLaws.FormatThenParse | box/addons/forklift/src/config.rs:811-1005 | every 64-bit duration, down to the smallest and in every sub-second unit, parses back from its text |
| DurationShape.FormatExactly | box/addons/forklift/src/config.rs:958-1005 | the printed text is exactly the one text with this shape: hours exactly from an hour on, minutes exactly from a minute on, minutes and seconds below 60, below a second ns, µs or ms by range, a fraction without trailing zeros, parts adding up to the magnitude, sign in front, and 0s |
| DurationShape.DecimalExactly | box/addons/forklift/src/config.rs:972-1005 | a printed number is exactly the digit string without leading zeros that denotes it |
| Migration.StepInv | box/addons/forklift/src/migrate.rs:182-297 | every step of runs, failures, writers on the source and others adding to the target keeps the invariant |
| Migration.MetadataIsLast | box/addons/forklift/src/migrate.rs:236-259 | at every metadata write all named blobs are in the target, except those missing in the source and explicitly allowed; existing metadata is replaced only when asked for |
| Migration.UploadIsRechecked | box/addons/forklift/src/migrate.rs:245-256 | every metadata write comes after a step of the same run, later than all its copying and verifying, at which the source's metadata had the planned version and the lease was held |
| Migration.CopiesAreBounded | box/addons/forklift/src/migrate.rs:214-235 | never more copies in flight than the options allow, at least one; a copy begins only while the lease is held |
| Migration.OnlyUploadsPublish | box/addons/forklift/src/migrate.rs:345-369 | no other step makes migrated metadata appear |
| Migration.EarlyEndKeepsMeta | box/addons/forklift/src/migrate.rs:182-256 | a run that fails while planning, copying, verifying or before its upload takes effect leaves the target's metadata as it was |
| Migration.CompleteExactly | box/addons/forklift/src/migrate/postflight.rs:383-397 | published metadata stays complete exactly until the clean-up removes a blob it names |
| Migration.EndsCompleteExactly | box/addons/forklift/src/migrate/postflight.rs:383-397 | a run whose postflight failed, with nobody else writing since its upload, leaves a complete target if and only if its clean-up got as far as removing the metadata or removed no blob |
| Migration.CleanUpCanDangle | box/addons/forklift/src/migrate/postflight.rs:383-397 | a reachable ended run whose failed clean-up leaves metadata naming a removed blob, because blobs are removed before the metadata |
| Migration.TargetOnlyGrows | box/addons/forklift/src/migrate.rs:299-313 | over any runs stopped short of the clean-up the target only grows, keeps its bytes, and files what is added under the hash of its bytes |
| Migration.PlansOnlyAbsent | box/addons/forklift/src/migrate/preflight.rs:351-355 | a run plans to copy nothing that was in the target before it began |
| Migration.CopiedIsNotCopiedAgain | box/addons/forklift/src/migrate.rs:214-235 | what one run copied no later run copies again |
| Migration.SkippedIsPresentOrBroken | box/addons/forklift/src/migrate.rs:199-205 | `skipped` counts the blobs already present plus those missing on both sides |
| Migration.Conservation | box/addons/forklift/src/migrate.rs:232-259 | every successful run reports copied + skipped = required, each planned digest copied once, and the sum of the copied sizes |
| Migration.DryRunPredicts | box/addons/forklift/src/migrate.rs:206-212 | a dry run reports the counts and recorded sizes of what a run would copy |
| Migration.DryRunWritesNothing | box/addons/forklift/src/migrate.rs:206-212 | no step of a dry run changes the target's blobs or metadata |
| MigratorObject.Target.CopyBlob | box/addons/forklift/src/migrate.rs:299-313 | succeeds if and only if the bytes are read, stored and hash to the digest; other bytes stay under their own hash |
| MigratorObject.Target.CopyAll | box/addons/forklift/src/migrate.rs:214-235 | succeeds if and only if every copy lands; on every exit the target is what the copies up to the first failure make of it; the counters match what was copied |
| MigratorObject.Target.VerifyTarget | box/addons/forklift/src/migrate.rs:315-340 | succeeds if and only if every name not allowed to be missing is there and readable |
| MigratorObject.Target.UploadMeta | box/addons/forklift/src/migrate.rs:345-369 | a conditional put, confirmed by reading the size back |
| MigratorObject.Target.RemoveBad | box/addons/forklift/src/migrate/postflight.rs:383-397 | removes bad blobs in order, then the metadata, stopping at the first failure |
| MigratorObject.Target.Prepare | box/addons/forklift/src/migrate.rs:214-256 | the stages before the upload: which of them stops a run, and that passing them means all needed blobs are there |
| MigratorObject.Target.Run | box/addons/forklift/src/migrate.rs:182-297 | where a run ends, as an equivalence over copies, verification, source version, lease, upload and postflight; metadata changes only when complete, rechecked and under the lease; a dry run changes nothing; the report adds up; after a failed postflight, which blobs are gone, when the metadata is, and when what is left is complete |
| DedupMemory.PruneIsInvisibleExactly | box/addons/aws-health-event-notifier/src/dedup.rs:38-42 | pruning changes no decision about updates from a time on if and only if everything pruned is older than that time |
| DedupMemory.UntimedMarkIsSafeExactly | box/addons/aws-health-event-notifier/src/dedup.rs:33-36 | after an update without a time nothing older is handled again if and only if the clock is not behind the last handled update |
| DedupMemory.Dedup.Fresh | box/addons/aws-health-event-notifier/src/dedup.rs:26-31 | new, strictly newer, or without a time |
| DedupMemory.Dedup.PruneOlderThan | box/addons/aws-health-event-notifier/src/dedup.rs:38-42 | keeps exactly the entries within the time to live |
| Poller.PrunedDecidesAsUnbounded | box/addons/aws-health-event-notifier/src/poller.rs:78-123 | with a monotone clock, listings that start where the last cycle's ended, and cycles of at most 72 hours, every decision is the one a memory that forgets nothing would make |
| Poller.PostsIncrease | box/addons/aws-health-event-notifier/src/poller.rs:144-194 | then the timed posts of one event carry strictly increasing update times, when listings stay below the end of the range asked for |
| Poller.PostedExactly | box/addons/aws-health-event-notifier/src/poller.rs:144-194 | in every run the log has one entry per listed item, and an item is posted exactly if it is new at that moment, is published, and its cycle is not a suppressed cold start |
| Poller.ColdStartPostsNothing | box/addons/aws-health-event-notifier/src/poller.rs:161-165 | a suppressed cold start posts nothing |
| Poller.OnlyPublishedIsPosted | box/addons/aws-health-event-notifier/src/poller.rs:167-194 | what is denied, or could not be looked up or posted, is not posted |
| Poller.RemembersExactly | box/addons/aws-health-event-notifier/src/poller.rs:152-194 | which items change the memory, and to what time |
| Poller.FailedStaysNew | box/addons/aws-health-event-notifier/src/poller.rs:167-194 | an item whose look-up or post fails leaves the memory as it was |
| Poller.HandledIsOld | box/addons/aws-health-event-notifier/src/poller.rs:152-194 | a timed item that is posted, denied or suppressed is not new afterwards, and other events are not affected |
| Poller.FutureUpdateBreaksOrder | box/addons/aws-health-event-notifier/src/poller.rs:144-194 | when a listing answers outside the range it was asked for the order can break: an update dated ahead, an untimed one that the filter denies, an update in between |
| Poller.OrderIsSafeExactly | box/addons/aws-health-event-notifier/src/dedup.rs:26-31 | for every memory: no timed update from a time on can break the order if and only if the stamps cover the posts from that time on |
| Poller.OrderIsAlwaysSafeExactly | box/addons/aws-health-event-notifier/src/dedup.rs:26-31 | for every memory: no timed update at all can break the order if and only if the stamps cover all posts |
| Poller.UntimedKeepsCoverExactly | box/addons/aws-health-event-notifier/src/dedup.rs:33-36 | an untimed update, posted, denied or suppressed, keeps the posts covered if and only if the clock is not behind any posted update time of its event |
| Poller.TimedKeepsCover | box/addons/aws-health-event-notifier/src/dedup.rs:33-36 | a timed update always keeps them covered |
| Reminders.ReminderIsUnique | box/addons/aws-health-event-notifier/src/poller.rs:200-236 | between two posts for the same event and offset lies a completed poll whose listing lacks the event |
| Reminders.PostsAreInWindow | box/addons/aws-health-event-notifier/src/poller.rs:238-301 | every post happens with 0 < start - now <= offset, in a poll that is not suppressed |
| Reminders.PostsAreGenuine | box/addons/aws-health-event-notifier/src/poller.rs:238-301 | every post is for an event its poll listed, with start and end, that the filter allows |
| Reminders.FailedStaysDue | box/addons/aws-health-event-notifier/src/poller.rs:277-299 | a due reminder whose look-up or post fails stays due; only a failed look-up ends the event's turn |
| Reminders.SilentIsRemembered | box/addons/aws-health-event-notifier/src/poller.rs:266-276 | a suppressed or denied reminder is remembered without a post |
| Reminders.ForgetsExactlyUnlisted | box/addons/aws-health-event-notifier/src/poller.rs:228-234 | a completed poll forgets exactly the events it did not list |
| Reminders.DueIsPosted | box/addons/aws-health-event-notifier/src/poller.rs:238-301 | a poll that is not suppressed, whose events pass the filter and whose attempts succeed, posts every due reminder not remembered from before |
| PollerObject.ReminderTracker.RetainRelevant | box/addons/aws-health-event-notifier/src/dedup.rs:69-73 | keeps exactly the reminders of listed events |
| PollerObject.Poller.PollOnce | box/addons/aws-health-event-notifier/src/poller.rs:128-196 | the loop over listed updates, equal to its specification |
| PollerObject.Poller.EvaluateReminder | box/addons/aws-health-event-notifier/src/poller.rs:238-301 | the loop over offsets, equal to its specification, including the early return |
| PollerObject.Poller.PollReminders | box/addons/aws-health-event-notifier/src/poller.rs:200-236 | the loop over upcoming events and the forgetting after it |
| PollerObject.Poller.Turn | box/addons/aws-health-event-notifier/src/poller.rs:88-123 | one turn of the loop: the cursor advances whether or not the cycle failed, then the memory is pruned |
| PollerObject.RunLoop | box/addons/aws-health-event-notifier/src/poller.rs:71-125 | the whole loop leaves both memories and all posts as the specifications give them |
| Region.MatchIsShaped | box/addons/aws-health-event-notifier/src/filter.rs:171-206 | a string of the regular expression splits into parts of the accepted shape |
| Region.ShapedMatches | box/addons/aws-health-event-notifier/src/filter.rs:171-206 | a string whose parts have the accepted shape matches the regular expression |
| Region.SplitOnDash | box/addons/aws-health-event-notifier/src/filter.rs:183-194 | splitting on dashes, equal to its specification |
| Region.IsRegionShaped | box/addons/aws-health-event-notifier/src/filter.rs:171-206 | accepts exactly `global` in any letter case and the language of `^[a-z]{2}(-[a-z]+)+-\d$` |

## Left out

- Kubernetes, S3, HTTP, Slack and AWS clients, TLS, metrics, logging, routers, command line and configuration loading: only the atomic answers they give the core are modelled.
- SQLite, `VACUUM INTO`, schema migrations: a database is the set of blobs it references.
- Authentication, filesystem cleaner, audit batching, garbage collection of records: easier than the chosen core.
- `EventFilter::evaluate` and list validation: the filter's verdict on an event is a parameter of the poller.
- The acquire, renew and term loops of the elector are steps of the state machine, not methods with loops, because their iterations interleave with other electors and with time; single attempts and the release are methods as well.
- Lease deletion by somebody else, and microsecond truncation of Lease times, are not modelled.
- Floating point: jitter, the 1.2 factor in `validate` and the fraction of a duration are exact rationals; the rounding of a 64-bit float on long fractions is not captured (the fractions the printer produces need none).
- Digests are the numbers their hexadecimal digits spell; bytes are identified by their hash, so hash collisions are excluded.
- The leader's blob record and its bytes appear and disappear together in `Replication`.
- LeaseFencing.Fencing: assumes that no version reaches the largest 32-bit count, because the next take-over would wrap (`TakeoverCountsExactly`).
- LeaseHandOff.StepDownHandsOver: assumes that the standby is not cancelled or restarted, that its requests do not fail spuriously during the hand-over, and that it is not still waiting for the answer to a write that took effect before the release.
- LeaseRecord.WireRoundTrip: the truncation of times to microseconds on the wire is not part of it.
- DurationParser.Combine: the fraction is an exact rational, without the rounding of a 64-bit float.
- DurationLaws.NanosRoundsDown: the same.
- LeaderElectorObject.LeaderElector.TryAcquireOrRenew: one elector's attempt against a server nobody else uses meanwhile; interleavings are in the step model.
- MigratorObject.Target.CopyAll: copies one at a time; concurrent copies are in `Migration`.
- MigratorObject.Target.Run: copies one at a time and takes the plan and what postflight finds as given; concurrent copies are in `Migration`.
- ConnectionPool.Pool.Acquire: with nobody else around, a wait always ends in a timeout; interleavings are in the step model.
- Migration: the checks of preflight other than blob presence and existing metadata only fail or pass, as the `Fail` step; the history record written after a run is not modelled.
- Poller: at-least-once delivery is not claimed, because the cursor advances after a failed cycle too.
- Strings in `Region` are character sequences; lengths in bytes and characters differ only on strings both reject.

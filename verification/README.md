# Verified model of the release tooling

This Dafny project models the parts of OMP Session Gateway that decide whether a release may go out, and proves what
they are relied on for. `dafny verify dfyconfig.toml` checks all of it.

- **Release driver** (`scripts/release-driver.ts`, `scripts/release-policy.ts`, the guards of `perform` in
  `scripts/release-driver-runtime.ts`). `Versions`, `ReleasePolicy` and `ReleaseDriver` are its pure functions;
  `PlanGuards` says when each operation is due; `DriverRuns` cuts `tick` at its awaits and lets snapshots, effects and
  crashes be arbitrary; `DriverTick` is `tick` as one imperative call and shows each call to be such a run.
  `DriverHistory`, `DriverSafety`, `CrashRefinement`, `OrderLanding`, `CommentHistory` and `CandidateHistory` prove what
  holds of all runs; `RepeatedComment` is one run.
- **Campaign receipt** (`scripts/stable-qualification.ts`). `LaneContract` is what a resource-owning lane promises.
  `ReceiptEngine` runs such a lane and its cleanup lane over any number of invocations, with the receipt in memory and
  the receipt file apart, and the most general module that keeps the contract. `MacBinding` is the receipt's binding to
  one Mac. `PixelLease` is the device lease as a chain of promises under any scheduler, and `Restoration` the error trees
  that poison it.
- **Device-cloud lane** (`scripts/device-cloud-qualification.ts`): `DeviceCloudProgress` is its parser and
  `DeviceCloud` the lane, which is shown to keep the contract.
- **Host lease** (`scripts/release-host-lease.ts`): `HostLease`, as the steps of several processes.
- **Archive** (`scripts/build-release.ts`, `scripts/release-runtime-compare.ts`): `ArchiveWriter`, `ArchiveReader`,
  `RuntimeComparison`. Entries are in the ustar Interchange Format of the pax utility in POSIX.1-2017.
- **Dependency closure** (`scripts/build-release.ts`): `DependencyClosure`.
- **Streaming metrics** (`scripts/endurance-metrics.ts`, with the two-pass fit of `scripts/relay-soak.ts`):
  `LatencyDistribution`, `SampleSeries`, `SseFrames`. Event streams are those of section 9.2 of the WHATWG HTML standard.
- **Finally check** (`scripts/check-repository.ts`): `SourceTokens` specifies the scanner, `SourceScanner` is the
  scanner, `FinallyChecker` the check.

`Wrappers`, `Characters` and `Ordering` are shared. Code that changes things step by step is a class or a method held to
a specification; a crash, an error from outside and an interleaving are arbitrary choices, and what is proved holds
for all of them.

Four properties are false without a condition, and each is proved with its exact one:

- A commit's comment can be left out when an earlier commit had the same marker: `RepeatedComment.CommentLeftOut` is
  such a run. `CommentHistory.CommentsPostedOnceInOrder` says that all are posted exactly when no two markers are equal,
  `CommentHistory.ReleaseMarkersDiffer` that this always holds within a release, and
  `CandidateHistory.VisibleTagsKeepMarkersApart` that it holds throughout while published tags stay visible.
- Pushing an event stream in chunks can throw where pushing it whole would not: `SseFrames.SplitSeparatorRefused` names
  the chunks, and `SseFrames.ChunksAgree` says when the two agree.
- A latency histogram loses a bucket that wraps at 2^32: `LatencyDistribution.FullBucketIsLost`, with the exact
  condition of the error in `LatencyDistribution.Distribution.Percentile`.
- Progress of the cloud lane can be saved exactly when the vendor's session ids are well formed and no more than the
  targets: `DeviceCloud.SavableIffSessionsFit`.

Assumed of the outside world: a repository snapshot reports an authority failure only in an approve phase; posting a
comment deduplicates by its marker; UUIDs are fresh; for `CandidateHistory`, a published tag stays visible to later
snapshots; a killed process releases its SQLite lock and a committed row survives it.

## Model

| member | source | states |
|---|---|---|
| Versions.ParsePrint | scripts/release-driver.ts:133-138 | A candidate number printed in decimal reads back as itself, for every number. |
| Versions.PrintParse | scripts/release-driver.ts:118-121 | Every decimal text without a leading zero is what printing its value gives, so no two candidate tags share a number. |
| Versions.ParsePrintVersion | scripts/release-driver.ts:117-125 | A version printed as `major.minor.patch`, with or without the leading `v`, parses back to the same version. |
| Versions.CompareVersionsIsOrder | scripts/release-driver.ts:117-125 | Comparing throws exactly on a text that is no version; on versions it is zero only between equal ones, opposite when turned around, and transitive. |
| Versions.SelectRequestHighest | scripts/release-driver.ts:126-132 | The selected tracking issue is a valid request that no valid request outranks by version and then number; none is selected exactly when none is valid. |
| Versions.NextCandidateIsNew | scripts/release-driver.ts:133-138 | The next prealpha tag is numbered above every published prealpha of that version, and is not among the tags. |
| ReleasePolicy.GeneratedFilesAreControlled | scripts/release-policy.ts:25-50 | A generated change matches exactly when every touched path, old names of renames included, is on its list and is no protected control, but for the prepare change's own build script. |
| ReleasePolicy.SourceHoldExact | scripts/release-policy.ts:84-91 | Source authority is granted exactly when there is an authority with no protected change, the expected policy, a reviewed patch release and a fresh source. |
| ReleasePolicy.ReleaseHoldExact | scripts/release-policy.ts:93-116 | A promotion is let through exactly when one policy, head, tree and candidate are named by the subject, the authority, the evidence and the pull request, and a merge of it has that tree; anything absent holds it. |
| ReleaseDriver.PlannedStepInTable | scripts/release-driver.ts:169-279 | Every step planned for a state without a saved intent is one of the transitions of the phase table. |
| ReleaseDriver.RetryIsNew | scripts/release-driver.ts:185-198 | A retry is planned only for a new request and a main other than the failed one, under the next prealpha. |
| PlanGuards.PlanIsExact | scripts/release-driver.ts:169-279 | For every state, snapshot and operation but a hold or stop: the operation is planned if and only if it is due, by an account organised by operation instead of by phase, and is pinned to the pull request it was judged by. |
| PlanGuards.OrderExact | scripts/release-driver.ts:200-217 | An order is updated, made ready or merged exactly when it is open, in scope, checked, first seen as a draft, and neither held nor overtaken by main. |
| PlanGuards.ReleasePrExact | scripts/release-driver.ts:218-226 | A prepare or record pull request is updated or merged exactly when its identity stands, its base is the selected main, and it is merged already or checked and not behind. |
| OrderLanding.NoLandingAfter | scripts/release-driver.ts:203-209 | In every run: once a release is held or past its order, no order is updated, made ready or merged before a retry or a new selection, whatever later snapshots show; a held one goes on only by preparing the release. |
| OrderLanding.MergedOrderWasReadied | scripts/release-driver.ts:204-210 | In every run: an intent to merge an order, or to update one that is no draft, is for a pull request that the same attempt itself made ready by an earlier commit, and for one that was open, in scope, checked and by the order's author. |
| OrderLanding.RunIsPlanned | scripts/release-driver.ts:303-307 | In every run, each intent on file but the first was planned for the save right before it from some snapshot. |
| OrderLanding.OrderWasReadied | scripts/release-driver.ts:209-210 | The recorded order number is set by a ready-order commit of the same attempt and by nothing else. |
| DriverTick.Driver.Tick | scripts/release-driver.ts:293-331 | One call, dying at any awaits, is a run from the file it found: each step at most once and in order, at most one new comment called for and at most one transition. A call that does not die settles a pending comment and does nothing else, or does nothing if nothing is planned, or carries the planned step out. |
| DriverTick.Driver.CarryOut | scripts/release-driver.ts:307-331 | The saved intent is performed once; unless the call dies, its outcome decides what is on file: the commit of its result or of the hold, with the comment posted and cleared, the intent dropped as stale, or the intent left after an error. |
| DriverTick.Driver.Settle | scripts/release-driver.ts:313-330 | What was performed is committed, held instead, or dropped, by its outcome, and at most one comment is called for. |
| DriverTick.Driver.Reconcile | scripts/release-driver.ts:296-302 | The pending comment is posted unless the call dies before that, and the file is cleared of it exactly when the call survives the posting too; no other comment is called for. |
| DriverTick.Ticks | scripts/release-driver.ts:293-331 | Any sequence of calls, each dying anywhere, is one run that calls for at most one comment per call. |
| DriverRuns.RunAppend | scripts/release-driver.ts:294-331 | A run continues from where an earlier run stopped. |
| DriverHistory.RunIsSound | scripts/release-driver.ts:294-331 | In every run with arbitrary snapshots, crashes and replays, each change of the state file is one durable step, every saved state keeps its shape, and every signing was checked against the state it signs. |
| DriverHistory.DurableStepKeepsState | scripts/release-driver.ts:303-330 | Planning, committing, holding, dropping and announcing keep the shape of the state: a subject exists once checks started, a stable commit only after approval. |
| DriverHistory.PlannedIntentFollows | scripts/release-driver.ts:303-307 | What a tick is about to save is the file unchanged, or a planned step from it, or a new selection. |
| DriverHistory.IntentIsIdempotent | scripts/release-driver.ts:170-170 | Saving a saved intent again after a crash changes nothing. |
| DriverHistory.UnheldPromotionMatches | scripts/release-driver.ts:161-168 | When no hold applies to a merged promotion, merge tree, approved tree and evidence tree are one tree, the merge commit is the stable commit, and candidate, digest and policy match the state. |
| DriverHistory.AttemptFits | scripts/release-driver-runtime.ts:511-583 | `perform` returns the partial state of its operation, and sets out to sign a stable tag only for `tag-stable` on a matching promotion. |
| DriverSafety.PromotionSafety | scripts/release-driver.ts:161-168 | Over whole runs: every stable tag is signed on a matching promotion, and all signings for one selected release name one version, one commit and one subject. |
| DriverSafety.StableCommitFrozen | scripts/release-driver.ts:265-273 | Once set, the stable commit never changes until the next selection. |
| DriverSafety.SubjectFrozen | scripts/release-driver.ts:255-264 | Approved head, tree, policy, candidate, its commit and digest never change within an attempt once checks first start. |
| DriverSafety.StableStatesAreFinal | scripts/release-driver.ts:185-186 | No retry follows a state with a stable commit. |
| DriverSafety.ReleaseIsOneAttemptOnceStable | scripts/release-driver.ts:183-198 | From the first stable commit on, a release stays with one candidate attempt. |
| DriverSafety.IntentCarriedOut | scripts/release-driver.ts:303-322 | `perform` is only ever called with the intent on file, and the next change of the file after a saved intent commits it, holds it or drops it. |
| CrashRefinement.CrashesChangeNothing | scripts/release-driver.ts:294-331 | Crash refinement: for every run with crashes and failures there is one without any that writes the same history of the state file and posts the same comments. |
| CrashRefinement.AttemptAgain | scripts/release-driver-runtime.ts:429-462 | Performing an intent again where an earlier attempt may have left its tag returns what a single attempt returns. |
| CrashRefinement.EventAnswered | scripts/release-driver.ts:294-331 | Each step of an interrupted run is answered by steps of an uninterrupted one that keep the two in agreement. |
| CommentHistory.CommentsPostedOnceInOrder | scripts/release-driver.ts:296-302 | Whatever the snapshots and crashes: the comments on the issue are those the commits called for, in order and without later repeats of a marker, short of at most the pending one; with none pending they are all of them if and only if no two commits share a marker. |
| CommentHistory.ReleaseMarkersDiffer | scripts/release-driver.ts:322-326 | Within a release no two commits share a marker, so each of its comments is posted exactly once. |
| CommentHistory.SequenceRises | scripts/release-driver.ts:322-323 | Within a release the sequence never falls, and each commit raises it. |
| CommentHistory.OnceIsAllIffDistinct | scripts/release-driver.ts:296-302 | Leaving out repeated markers drops a comment exactly when two markers are equal. |
| RepeatedComment.CommentLeftOut | scripts/release-driver.ts:322-328 | Under every configuration there is a run with no comment pending that posted fewer comments than it called for. In it a closed release's issue is selected again from snapshots that show neither its tags nor the new stable version. |
| CandidateHistory.VisibleTagsKeepMarkersApart | scripts/release-driver.ts:133-138 | If published tags stay visible, no two commits of a run share a marker at all, across releases too. |
| CandidateHistory.CandidatesNeverRepeat | scripts/release-driver.ts:133-138 | If published tags stay visible, the prealpha number of one release never falls along a run, and each change of candidate raises it and follows a diagnosed failure, a new request and a changed main. |
| CandidateHistory.RetryFollowsFix | scripts/release-driver.ts:185-198 | A candidate changes within a release only by a retry that has a new request and another main than the failed one. |
| CandidateHistory.TagsGrow | scripts/release-driver-runtime.ts:543-548 | Performing an intent only adds tags, and a candidate counts as tagged only once its own tag is there. |
| HostLease.OneActionAtATime | scripts/release-host-lease.ts:37-68 | However processes interleave, throw and die, at most one action runs, and it runs under its own committed owner row. |
| HostLease.NoOwnerIsOvertaken | scripts/release-host-lease.ts:47-67 | Between one owner's action and another owner's, one of the first owner's actions returned and its delete was committed. |
| HostLease.ReleaseBetween | scripts/release-host-lease.ts:59-67 | The delete in between belongs to a process of that owner whose action had started. |
| HostLease.RunKeepsInv | scripts/release-host-lease.ts:37-68 | The lock, the row and the positions of all processes stay consistent over every run. |
| Restoration.PixelUnrestoredAtAnyDepth | scripts/restoration.ts:34-37 | The flag is seen exactly when some error in the tree carries it, at whatever depth. |
| Restoration.EveryErrorAtAnyDepth | scripts/restoration.ts:27-31 | Every collected error satisfies a predicate exactly when each leaf does and no aggregate is empty, at whatever depth. |
| Restoration.RunWithRestoration | scripts/restoration.ts:2-24 | The body is called once and then every step once, in order, whatever any of them throws; the body's value or error comes back unchanged when no step fails, and otherwise one aggregate holds the body's error and every failure in order. |
| Restoration.FailuresAre | scripts/restoration.ts:13-17 | The collected failures are exactly the errors the steps threw. |
| Restoration.RestorationKeepsTheFlag | scripts/restoration.ts:18-22 | The aggregate carries the flag exactly when the body's error or some step's error does. |
| PixelLease.OneActionAtATime | scripts/stable-qualification.ts:564-581 | However the reactions of the promises are scheduled, at most one action runs. |
| PixelLease.EnabledInOrder | scripts/stable-qualification.ts:567-581 | A waiting turn can begin if and only if the turn before it has ended, by value or by error, and if and only if all earlier ones have. |
| PixelLease.SomeTurnIsEnabled | scripts/stable-qualification.ts:564-581 | While any turn waits, it or an earlier one is running or can begin. |
| PixelLease.ActionsRunAloneInOrder | scripts/stable-qualification.ts:564-581 | For every scheduling, actions start in request order and each ends before the next starts. |
| PixelLease.PoisonIsFinal | scripts/stable-qualification.ts:555-572 | After an error carrying the flag at any nesting depth, no later action ever starts. |
| PixelLease.OrdinaryFailureNeverBlocks | scripts/stable-qualification.ts:568-580 | The turn behind one that ended, in whatever way, begins when its reaction runs: its action starts, or is refused if and only if an error with the flag was seen before. |
| PixelLease.NoTurnIsPassedOver | scripts/stable-qualification.ts:567-580 | Every turn that is no longer waiting did begin: none is rejected for an earlier turn's error. |
| PixelLease.RunIsChained | scripts/stable-qualification.ts:561-580 | Each turn waits for the caught promise of the turn before it, which is what orders them. |
| PixelLease.Lease.Ask | scripts/stable-qualification.ts:564-581 | A request takes its place behind the promise that is the tail, which becomes its own caught promise. |
| PixelLease.Lease.Begin | scripts/stable-qualification.ts:567-573 | A reaction on a fulfilled promise starts its action, or refuses it if the device was left unrestored. |
| PixelLease.Lease.End | scripts/stable-qualification.ts:574-579 | Only an error that carries the flag poisons the lease; any end frees the holder and settles the turn. |
| LaneContract.ConformingIsAccounted | scripts/stable-qualification.ts:271-281 | Under the module contract, held resources always belong to an attempt whose saved checkpoint owes their cleanup. |
| LaneContract.ConformsMore | scripts/stable-qualification.ts:271-281 | A conforming attempt extended by an allowed event conforms. |
| LaneContract.CleanupConforms | scripts/stable-qualification.ts:271-281 | A conforming cleanup is a conforming attempt that uses no new epoch. |
| ReceiptEngine.Campaign.Persist | scripts/stable-qualification.ts:483-502 | A persist saves the receipt in memory, or throws or dies with the old or the new file in place; other lanes may save it at any await. |
| ReceiptEngine.Campaign.ExternalCheckpoint | scripts/stable-qualification.ts:617-624 | A checkpoint replaces the whole progress and keeps the result, and the receipts stay safe whether or not it is saved. |
| ReceiptEngine.Campaign.ModuleRun | scripts/stable-qualification.ts:678-688 | A module's run starts with no resources held, or with those of the one attempt it resumes; whatever its contract allows it to do keeps the receipts safe. |
| ReceiptEngine.Campaign.ModuleCleanup | scripts/stable-qualification.ts:635-641 | A module's cleanup keeps the attempt's epoch and the lane's result, and keeps the receipts safe. |
| ReceiptEngine.Campaign.CleanExternalLane | scripts/stable-qualification.ts:627-645 | A cleanup that passes leaves no resources on record or held, and is bound to the epoch of the attempt it cleaned. |
| ReceiptEngine.Campaign.RunExternalLane | scripts/stable-qualification.ts:657-697 | A lane that returns normally gives the verdict no reason to fail and holds no resources, whatever was loaded and whatever throws on the way. |
| ReceiptEngine.Campaign.Invoke | scripts/stable-qualification.ts:2204-2282 | One invocation, driving the lane, only cleaning it, or failing before either, keeps both receipts safe; a pass it reports is on file and nothing is held. |
| ReceiptEngine.Campaign.Invocations | scripts/stable-qualification.ts:514-697 | Over any number of invocations that crash anywhere, resources always belong to the single attempt recorded, every start of a run was orderly, and a passed receipt on file means nothing is held. |
| ReceiptEngine.PassedMeansReleased | scripts/stable-qualification.ts:606-712 | A passed receipt holds no resources, and its last attempt was cleaned under its own epoch; an earlier attempt's cleanup never vouches for it. |
| ReceiptEngine.CheckpointKeepsSafe | scripts/stable-qualification.ts:606-624 | A checkpoint allowed by the contract never lets a stale cleanup vouch for a new attempt. |
| MacBinding.MacCampaign.MarkMacCleanupRequired | scripts/stable-qualification.ts:1886-1914 | Marking binds the Mac, reopens a passed cleanup, and refuses another Mac or unbound effects without changing anything. |
| MacBinding.MacCampaign.RequireMacCleanup | scripts/stable-qualification.ts:2009-2013 | After it, the file itself names the Mac and does not say its cleanup passed. |
| MacBinding.MacCampaign.DriveMacLanes | scripts/stable-qualification.ts:2093-2147 | Mac lanes and the Mac fixture act only on the bound Mac whose owed cleanup is already on file. |
| MacBinding.MacCampaign.RunCleanup | scripts/stable-qualification.ts:2227-2235 | The cleanup passes only when the Mac holds nothing. |
| MacBinding.MacCampaign.Invoke | scripts/stable-qualification.ts:1978-2282 | One invocation never rebinds a bound receipt, and an invocation with another Mac changes nothing. |
| MacBinding.MacCampaign.Invocations | scripts/stable-qualification.ts:1880-1914 | Over any invocations with any configured Macs and crashes anywhere: every recorded effect is on a bound Mac, which never changes, and a Mac that holds campaign state is the bound one and its cleanup is owed on file. |
| MacBinding.LaneChange | scripts/stable-qualification.ts:1895-1900 | No change of a lane drops an owed cleanup, unless it passes the cleanup of a clean Mac. |
| DeviceCloudProgress.ParseEncode | scripts/device-cloud-qualification.ts:214-239 | Progress is accepted exactly when every part of it fits its grammar, and is then read back as it was. |
| DeviceCloudProgress.ParseIsExact | scripts/device-cloud-qualification.ts:214-239 | The parser accepts nothing else: what it accepts is exactly the saved form of what it returns. |
| DeviceCloudProgress.AuditIsSafe | scripts/device-cloud-qualification.ts:126-132 | The audit's own observations are always safe evidence. |
| DeviceCloudProgress.NoSecret | scripts/device-cloud-qualification.ts:109-132 | A name of which no place starts like a secret word passes the secret-name rule. |
| DeviceCloud.SavableIffSessionsFit | scripts/device-cloud-qualification.ts:214-239 | An attempt as the lane builds it can be saved exactly when its vendor session ids are well formed and no more than the targets. |
| DeviceCloud.CloudAttempt.Save | scripts/device-cloud-qualification.ts:406-407 | A save refuses only misfit session ids, and otherwise tells the campaign the attempt's epoch and whether its cleanup is owed. |
| DeviceCloud.CloudAttempt.Verify | scripts/device-cloud-qualification.ts:325-338 | Each created session is recorded behind the earlier ones and only then driven, in order and on every path, and only safe observations join the results. |
| DeviceCloud.CloudAttempt.DriveAll | scripts/device-cloud-qualification.ts:325-333 | All sessions a target creates are recorded and driven one behind the other. |
| DeviceCloud.CloudAttempt.AuditRecords | scripts/device-cloud-qualification.ts:266-298 | The audit passes only if there is a record of every session, and none of them shows any of the live links, whole or by a long part, or keeps media. |
| DeviceCloud.CloudAttempt.Drive | scripts/device-cloud-qualification.ts:305-352 | A drive that returns normally has results for every target and the audit; however it ends, the attempt is still open and its sessions are on record. |
| DeviceCloud.CloudAttempt.EndAllSessions | scripts/device-cloud-qualification.ts:367-378 | Every recorded session's end is attempted, and the step succeeds only if none is left. |
| DeviceCloud.CloudAttempt.Release | scripts/device-cloud-qualification.ts:358-388 | All four release steps are attempted in order whatever the others do, and the attempt is marked restored if and only if all succeeded, when nothing is held. |
| DeviceCloud.CloudAttempt.RunAttempt | scripts/device-cloud-qualification.ts:401-421 | Once the first checkpoint is saved, the attempt is released on every exit, and it keeps the module contract. |
| DeviceCloud.RunDeviceCloud | scripts/device-cloud-qualification.ts:390-424 | A run keeps the module contract from whatever progress it is given, and does nothing when that progress is unreadable or owes a cleanup. |
| DeviceCloud.CleanupDeviceCloud | scripts/device-cloud-qualification.ts:427-433 | A cleanup keeps the cleanup contract, and returns normally only with the restored checkpoint of the same attempt saved, or nothing to release. |
| DeviceCloud.CountsAreExact | scripts/device-cloud-qualification.ts:290-297 | The exposure and media counts are zero exactly when no record shows either. |
| ArchiveWriter.WriteText | scripts/build-release.ts:548-552 | Text is copied into the buffer in place when it fits its field, and the buffer is otherwise unchanged. |
| ArchiveWriter.WriteOctal | scripts/build-release.ts:554-556 | A number is written as zero-padded octal with a NUL, exactly when its digits fit. |
| ArchiveWriter.OctalLength | scripts/build-release.ts:554-556 | A number fits a number of octal digits exactly when it is below that power of eight. |
| ArchiveWriter.TarEntry | scripts/build-release.ts:558-578 | The in-place writing of one header gives the ustar header, content and padding, and fails exactly when path or size does not fit. |
| ArchiveWriter.ChecksumFits | scripts/build-release.ts:570-572 | The header checksum always fits six octal digits. |
| ArchiveWriter.StoredChecksum | scripts/build-release.ts:566-572 | The stored checksum is the sum of the header's bytes with its own field taken as spaces. |
| ArchiveWriter.CreateTarArchive | scripts/build-release.ts:580-583 | The archive is the entries in order and the end blocks, and fails exactly when some file does not fit. |
| ArchiveReader.ReadReleaseArchive | scripts/release-runtime-compare.ts:29-48 | The reader ends on every byte string, malformed ones and negative sizes included, with the members or the first refusal. |
| ArchiveReader.OctalFieldReads | scripts/release-runtime-compare.ts:36-36 | A written octal field parses back to its number. |
| ArchiveReader.HeaderReads | scripts/release-runtime-compare.ts:33-41 | A written header is recognised and gives back path, mode and size. |
| ArchiveReader.EntryReads | scripts/release-runtime-compare.ts:43-46 | A written entry is read as its file and the reader goes on exactly behind its padding, whatever the content. |
| ArchiveReader.WrittenArchiveReads | scripts/release-runtime-compare.ts:29-48 | Reading any written archive with legal paths collects its files and refuses only a repeated path. |
| ArchiveReader.ReadPathsLegal | scripts/release-runtime-compare.ts:37-41 | Whatever the archive, the reader returns only nonempty, NUL-free paths. |
| ArchiveReader.ArchiveRoundTrip | scripts/release-runtime-compare.ts:29-48 | Reading a written archive gives exactly the map from path to mode and content if and only if every path is nonempty and NUL-free and none repeats, whatever the contents. |
| ArchiveReader.ChecksumReads | scripts/build-release.ts:570-572 | The stored checksum field parses back to the sum it was written for. |
| RuntimeComparison.CompareReleaseRuntime | scripts/release-runtime-compare.ts:51-67 | The report lists, ascending and once each, exactly the paths that differ, counts exactly the shared members outside promotion metadata, and reports the first unreadable archive. |
| RuntimeComparison.ComparisonIsExact | scripts/release-runtime-compare.ts:51-67 | Comparing two written archives reports no difference if and only if their path sets are equal and every member outside promotion metadata has equal mode and bytes. |
| Ordering.Sort | scripts/release-runtime-compare.ts:56-56 | Sorting a set gives exactly its members in strictly ascending order. |
| Ordering.NoDuplicates | scripts/release-runtime-compare.ts:56-66 | A strictly ascending report has no duplicates. |
| DependencyClosure.RuntimeDependenciesFromLock | scripts/build-release.ts:282-317 | On success the list is exactly the external packages reachable from the bundled workspaces, each once and ascending by name; it fails exactly when a bundled workspace or a reachable entry is missing, and names that one. |
| DependencyClosure.Visit | scripts/build-release.ts:288-312 | The stack search ends on every graph, cycles included, and visits exactly what is reachable. |
| DependencyClosure.NextReachable | scripts/build-release.ts:297-311 | What a reachable package needs is reachable. |
| DependencyClosure.ClosedHoldsChain | scripts/build-release.ts:291-312 | A closed set that holds the roots holds every chain of needs. |
| DependencyClosure.SearchEnds | scripts/build-release.ts:291-314 | When the stack is empty, the visited names are exactly the reachable ones. |
| LatencyDistribution.Distribution.Observe | scripts/endurance-metrics.ts:57-62 | A latency in range adds one to the bucket of its ceiling; any other is refused and changes nothing. |
| LatencyDistribution.Distribution.Percentile | scripts/endurance-metrics.ts:64-74 | Each percentile below 2^32 latencies is the nearest-rank one; the "invalid latency histogram" error is thrown exactly when wrapped buckets sum to less than the rank. |
| LatencyDistribution.Distribution.Summarize | scripts/endurance-metrics.ts:63-76 | Below 2^32 latencies, p50, p95 and p99 are the elements at rank ceil(n * fraction) of the sorted rounded-up samples, and p50 <= p95 <= p99 <= ceil(max). |
| LatencyDistribution.RankElement | scripts/endurance-metrics.ts:66-72 | In a sorted list the element at a rank is at most v exactly when that many elements are. |
| LatencyDistribution.SortedIsSorted | scripts/endurance-metrics.ts:52-76 | The reference list is ascending and a permutation of the samples. |
| LatencyDistribution.BucketsSum | scripts/endurance-metrics.ts:54-62 | Below 2^32 latencies the buckets sum to the count. |
| LatencyDistribution.FullBucketIsLost | scripts/endurance-metrics.ts:54-61 | 2^32 equal latencies wrap their bucket to nothing, so the bound on the count is needed. |
| LatencyDistribution.PercentilesOrdered | scripts/endurance-metrics.ts:64-75 | A lower fraction never gives a higher percentile. |
| SampleSeries.Series.Observe | scripts/endurance-metrics.ts:90-106 | Samples with strictly increasing finite times are added and any others refused; the centered update keeps means, sums of squares and products those of all samples. |
| SampleSeries.Series.Summarize | scripts/endurance-metrics.ts:107-112 | The reported mean and slope are the two-pass ones, and the reported bounds and ends those of the samples. |
| SampleSeries.ProductsStep | scripts/endurance-metrics.ts:99-104 | One centered update gives the sum of products about the new means. |
| SampleSeries.SquaresStep | scripts/endurance-metrics.ts:99-103 | One centered update gives the sum of squares about the new mean. |
| SampleSeries.VariancePositive | scripts/endurance-metrics.ts:90-103 | Two samples are enough for a positive sum of squares, about any centre. |
| SampleSeries.BatchFit | scripts/relay-soak.ts:140-155 | The two-pass loops compute the slope that the online fit is held to. |
| SampleSeries.FitIsOptimal | scripts/endurance-metrics.ts:78-112 | The line through the means with the reported slope has the least sum of squared residuals of all lines. |
| SampleSeries.ResidualsExpand | scripts/endurance-metrics.ts:78-112 | The squared residuals of any line, from the sums of the samples. |
| SseFrames.SseFrames.Push | scripts/endurance-metrics.ts:138-157 | A push returns the frames of the pending text and keeps the rest, or throws on a block or remainder over the bound. |
| SseFrames.SseFrames.ParseBlock | scripts/endurance-metrics.ts:147-153 | The line loop gives the last event and the joined data lines of a block. |
| SseFrames.ChunksAgree | scripts/endurance-metrics.ts:135-158 | Chunk independence, exactly: pushes of the chunks succeed if and only if one push of the whole does and each boundary's remainder fits; then frames, order and pending text are the same. |
| SseFrames.DrainExtends | scripts/endurance-metrics.ts:141-155 | Parsing a longer text goes on from where parsing its start stopped, even when a separator straddles the boundary. |
| SseFrames.FirstStays | scripts/endurance-metrics.ts:142-146 | More text never moves the first separator. |
| SseFrames.StartAccepted | scripts/endurance-metrics.ts:144-156 | Where a whole text is accepted, so is each start of it whose remainder fits. |
| SseFrames.RemainderSlack | scripts/endurance-metrics.ts:144-156 | Where the whole is accepted, a boundary's remainder exceeds the bound by at most three. |
| SseFrames.SplitSeparatorRefused | scripts/endurance-metrics.ts:144-156 | A block at the bound whose separator is split across two chunks is refused, though the whole is accepted. |
| SseFrames.WrittenReadBack | apps/gateway/src/http.ts:182-182 | Frames of one-line event and data, as the gateway writes them, are read back as they were, in order, with whatever follows, if every block is within the bound, and are refused otherwise. |
| SseFrames.BlockReadBack | apps/gateway/src/http.ts:182-182 | The two lines of a written frame parse to exactly that frame. |
| SourceTokens.CodeBalance | scripts/check-repository.ts:116-191 | An interpolation's brace tokens never close more than they open before the last one, and it closes exactly when the balance falls below where it began, at any nesting depth. |
| SourceTokens.TemplateBalance | scripts/check-repository.ts:145-158 | The tokens of every completed template literal are brace-balanced, however deep its interpolations nest. |
| SourceTokens.CodePlaced | scripts/check-repository.ts:103-107 | Every token that is no literal is a piece of the source, reported on its line, and they come in source order. |
| SourceTokens.TemplatePlaced | scripts/check-repository.ts:148-157 | The same of the tokens inside a template. |
| SourceTokens.EscapedEnd | scripts/check-repository.ts:108-115 | A quoted text ends right behind its own closing quote, whatever escaped text it holds. |
| SourceTokens.QuotedIsOneLiteral | scripts/check-repository.ts:142-144 | A quoted text, whatever it says, is one literal, and scanning goes on right after it. |
| SourceScanner.Scanner.Advance | scripts/check-repository.ts:103-107 | The place moves by one, beyond the end too, and the line stays one more than the lines ended before it. |
| SourceScanner.Scanner.SkipTrivia | scripts/check-repository.ts:124-139 | White space and comments are skipped exactly. |
| SourceScanner.Scanner.Regex | scripts/check-repository.ts:159-171 | A regular expression ends at its unescaped slash outside a class, or its line, and then its flags. |
| SourceScanner.Scanner.TakeLexeme | scripts/check-repository.ts:142-179 | One word, operator, character, string or regular expression is taken as a token. |
| SourceScanner.Scanner.TakeTemplate | scripts/check-repository.ts:146-157 | A template yields the tokens of its interpolations. |
| SourceScanner.Scanner.TakeCode | scripts/check-repository.ts:116-189 | The loop with its depth, regex and parenthesis state yields exactly the specified tokens. |
| SourceScanner.ScanSource | scripts/check-repository.ts:100-191 | Scanning ends on every source with its tokens. |
| FinallyChecker.CheckTokens | scripts/check-repository.ts:193-219 | The check reports exactly the unsafe tokens, in source order. |
| FinallyChecker.CheckSource | scripts/check-repository.ts:193-219 | The same for a source from its text. |
| FinallyChecker.UnsafeTokensAreAll | scripts/check-repository.ts:201-217 | A token is reported exactly when it is a throw or return inside a brace the word finally opened, not behind a dot and not before a colon. |
| FinallyChecker.StackIsExact | scripts/check-repository.ts:206-211 | The brace stack holds exactly the braces that are open, by balance, with stray closing braces ignored. |
| FinallyChecker.FlagsShowFinally | scripts/check-repository.ts:206-213 | `finallyDepth`, the number of finally-opened braces on the stack, is positive exactly inside a finally block. |
| FinallyChecker.TemplateLeavesStack | scripts/check-repository.ts:145-158 | After a completed template the brace stack is what it was before it. |

## Left out

- The external effects themselves (git, gh, ssh, tmux, adb, WebDriver, fetch, cosign): each is an arbitrary result, or what its caller's contract promises.
- How evidence and authority are computed, and signatures and attestations: a snapshot carries them as given.
- Comment wording, links, dates and the read-only plan flag of the driver; the SHA-256 marker of a comment is taken to keep different fields apart.
- Operator recovery from a routine hold: a state with a hold reason is only ever left by hand.
- DriverTick.Driver.Tick: two ticks never overlap, which the caller's mutex promises, and a snapshot that breaks its contract is not given to it.
- UTF-8 decoding: archive paths are their bytes; an archive path that is not UTF-8 would be read back changed.
- SseFrames.SseFrames.Push: text is Unicode scalar values, as the decoder gives them; the bound counts them in UTF-16 code units, as the source does, but a chunk never ends inside a surrogate pair.
- SourceTokens.CodePlaced: source text is Unicode scalar values, so a character beyond the Basic Multilingual Plane is one token, where the source makes one of each surrogate; neither is a word, a brace or a quote.
- RuntimeComparison.CompareReleaseRuntime: paths are ordered by their bytes, not by UTF-16 code units, which differ only beyond the Basic Multilingual Plane.
- ArchiveReader.ReadReleaseArchive: white space that `parseInt` skips is the ASCII one, because a field is read as bytes.
- DependencyClosure.RuntimeDependenciesFromLock: a lock file is maps, so keys inherited from Object.prototype are not looked up.
- SampleSeries.Series.Observe: arithmetic is exact; rounding of floating-point sums is not modelled.
- LatencyDistribution.Distribution.Percentile: milliseconds and n * fraction are exact reals, so a rank never suffers from rounding.
- SourceScanner.ScanSource: which characters beyond ASCII continue an identifier is a parameter, not the Unicode table.
- FinallyChecker.CheckSource: the rule for which file paths are checked, and the path in a report, are left out; a report is the token with its line.
- ReceiptEngine.Campaign.Invocations: one external lane with its cleanup lane; the other lanes appear as saves of the same receipt at any await, and as their verdict. Timestamps, error texts and secret-field checks are left out.
- MacBinding.MacCampaign.Invocations: only the lanes that concern the Mac; the order of the lanes that run side by side is arbitrary.
- DeviceCloud.RunDeviceCloud: the pixel lease appears as being granted or not; sessions count as held from when they are recorded, so one the vendor created just before a crash and never reported is not accounted for.
- DeviceCloud.CloudAttempt.AuditRecords: a record is its text and whether it keeps media; device attestation is left out.
- HostLease.RunKeepsInv: SQLite is one lock and one optional row; directory and file permission checks come before it and are left out.
- PixelLease.Lease.Ask: the log line of a waiting owner is only the fact that it waits.
- The preflight probes, Android Push and Windows lanes, argument parsing, document generation and leak rules: single guards or device plumbing with no deeper invariant.

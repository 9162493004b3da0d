# diffah in Dafny

diffah builds a delta bundle from pairs of container images (baseline, target) and later rebuilds the
targets from the bundle and the baselines.  This project models the parts of it that carry its two
promises, that the bundle does not depend on scheduling and that apply undoes diff, and proves them.

`dafny verify dfyconfig.toml` checks everything.

## What is modelled

* **Schedulers.**  `Admission` is the pool behind singleflight, a worker semaphore and a memory semaphore;
  `WorkerPool` the bounded pool without estimates.  Each is a transition system with one step per atomic
  section, and a class whose methods are proved to be those steps.  Semaphores serve waiters in order of
  arrival, which is a step of its own; whether an acquire wins against cancellation is left open.
* **Concurrent stores.**  `ImportSpool` (temporary file, hash, verify, rename, list), `ExportSpool` (tee into
  the final file, drain, list), `TargetSpool` (one spooled stream) and `BlobPool` (first write wins).  The file
  system is a map from paths to bytes, the hash a function parameter, and the claims concern every interleaving.
* **Planning and encoding.**  `Diff` (plan partition, sidecar), `Fingerprint`, `Sorting`, `Planner`, `Budget`
  (memory estimates and guards), `Encode` (the machine that interleaves the submission loop, the admission pool
  and the steps of every running encode, spill by spill), `Encoder` (the same phase as one worker
  executes it) and `Exporter` (the whole export from parsed pairs to a sidecar).  Planning may also fail for a reason
  outside the input, such as a full disk or a killed encoder; the layer then goes in full.  `SpillLoss`, `LostPatch`,
  `Divergence` and `Fallback` say exactly when a payload is lost and when exports agree.
* **Applying.**  `Compose` (verifying reader, blob serving), `Preflight`, `Report`, `Invariant`, `Retry`.
* **The whole way.**  `RoundTrip` joins planning, encoding, sidecar, preflight and serving; `Restored` adds the
  check that ends an apply; `SharedImport` lets the blob requests of all images interleave on the one spool;
  `CrossImage` and `SizeClash` are bundles that break.

Files are named by the encoded half of a digest, as in the program, and the proofs use that this half
identifies a canonical digest (the digest grammar and the registered algorithms are those of the "Digests"
section of the OCI Image Specification's content-descriptor document).

## Hypotheses

The codec is a pair of abstract functions with the law that decoding undoes encoding and no frame is empty.
Contents are one table: equal digests name equal bytes, which replaces any claim that the hash is injective.
The theorems need the following, and each need is shown, with the exact condition.

* Confluence, and it alone, needs that a digest that is not a manifest or config has one size and one media type in
  all pairs.  Of several tuples of a digest any can be first (`Divergence.AnyTupleCanBeFirst`), so exports agree
  exactly under this condition or when none completes (`Divergence.ConfluentIff`); `Divergence.TwoSizesDiverge` is
  an export that can end in two ways.  The round trip holds whichever tuple came first.
* Confluence also needs that planning meets no error from outside the input, because such an error is swallowed and
  the layer shipped in full.  Without that, exports agree exactly when nothing would be patched anyway
  (`Fallback.AgreeAnywayIff`, `LostPatch.SlipShows`).  The round trip holds wherever planning slipped.
* The payload of a plan survives planning.  For given candidates it always does exactly when their spill names
  differ pairwise, short of two trivial cases (`SpillLoss.AlwaysKeptIff`, `SpillLoss.WholeBaselineDecides`); an
  export without outside planning errors can complete exactly when no payload is lost (`Encode.CompleteRunIff`); a
  baseline that lists its layer twice loses one, so that export never completes (`LostPatch.RepeatNeverFinishes`,
  `LostPatch.ConcreteExportFails`).  With such errors every export can (`Fallback.EveryExportCanFinish`).
* The primed baselines are complete.  The export spool leaves a committed file complete exactly when no write of
  its flight was lost while the fingerprinter read (`ExportSpool.FileIsStream`, `Exporter.PrimedSpoolFits`);
  `ExportSpool.LostWriteCommits` is a run that commits an empty file.
* For bundles, an image comes back exactly when every patch it meets has its source in its own baseline or in the
  spool by then (`RoundTrip.RoundTripIff`); only layers it reuses while another pair ships them matter
  (`RoundTrip.OnlyCrossedMatter`).  In one concrete bundle the second image is refused when it comes first and
  served after the first one (`CrossImage.ConcreteBundleBreaks`).  For one image nothing is needed.  The same
  example shows that the hypotheses of the round-trip theorems can be met together.
* An Ok verdict of preflight holds against every spool; any other holds exactly until the spool has what it lists
  (`Preflight.PreflightExact`).  Images imported together must be accepted ones, because a caller shares its
  flight leader's fate (`SharedImport.LeaderDecides`).
* The check that ends an apply passes on an exactly restored image when the manifests agree on the size of every
  shipped layer, and for a whole bundle exactly then (`Restored.EveryImagePassesIff`): the table has one size per
  digest, so of two manifests that disagree one describes an image that is refused although it is right
  (`SizeClash.ConcreteRefusal`).
* A larger K costs bytes exactly when its search meets an error and the smaller one planned a patch
  (`Planner.LargerKWorseIff`, `LostPatch.ConcreteSecondHurts`).
* The backoff of an exponential retry stays within [0, 30 s] for every operation exactly when times <= 37
  (`Retry.ExponentialModeSafeIff`); the attempts that leave it are listed by `Retry.BackoffExactSet`.

## Where code and comments differ

* `pkg/exporter/intralayer.go:151-168` promises that losing spill files are cleaned up and the payload is
  returned; with two candidates of one spill name the winner's file is the one removed.
* `pkg/exporter/baselinespool.go:148-151` promises a spool file byte-identical to the stream; a write that fails
  while the fingerprinter reads is reported to the fingerprinter alone, whose error is dropped.
* `pkg/exporter/encode.go:46-51` promises byte-identical output across worker counts; that needs one descriptor
  per digest, since the first writer's entry stays, and no swallowed planning error
  (`pkg/exporter/encode.go:225-235`).
* `pkg/importer/retry.go:10-14` calls 30 s a cap; it caps from above only.

## Model

| member | source | states |
|---|---|---|
| RoundTrip.ApplyUndoesDiff | pkg/importer/compose.go:94-220 | for every consistent input, every error-free export of it under any schedule, whichever descriptor of a digest came first and wherever planning slipped, every image, and whatever agreeing bytes the images before it left in the shared spool: the copy returns the target's layers and config byte for byte if and only if that spool holds everything preflight listed as missing for this image, and the verdict is Ok if and only if that is nothing |
| Restored.RestoredImagePasses | pkg/importer/importer.go:437-457 | and then the check that ends an apply passes too, given manifests that agree on the sizes of what they list: after any error-free export the image comes back byte for byte and the sidecar's manifest, table sizes and media type hold of it |
| Restored.EveryImagePassesIff | pkg/importer/invariant.go:101-124 | for manifests that list each of their own layers with one positive size: every exactly restored image of a bundle passes that check if and only if no two manifests disagree on the size of a layer that some image ships |
| SizeClash.ExactButRefused | pkg/importer/invariant.go:105-122 | a family of exports where they do disagree: both images come back byte for byte, from whatever agreeing spool, and not both pass |
| SizeClash.ConcreteRefusal | pkg/importer/invariant.go:105-122 | one such bundle on concrete blobs, which can be exported under every worker count and budget |
| Restored.RestoredPassesIff | pkg/importer/invariant.go:28-69 | image by image: it passes if and only if the table's positive sizes are the ones its manifest lists |
| Restored.ReadsTarget | pkg/importer/manifest.go:64-75 | the manifest the check reads out of the bundle, under the media type and digest the sidecar names, is the stored target manifest |
| RoundTrip.SafeExportsRoundTrip | pkg/exporter/encode.go:194-247 | for a single image always, and for bundles in mode off, with no layer crossing pairs, or with baselines holding the same blobs, the copy is exact whatever agreeing bytes other images spooled before |
| RoundTrip.RoundTripIff | pkg/importer/compose.go:94-220 | whatever agreeing bytes the shared spool holds, the copy is exact if and only if every patch the image meets has its source in the image's own baseline or in the spool, and the spool it leaves agrees again |
| RoundTrip.OnlyCrossedMatter | pkg/exporter/exporter.go:129-133 | that condition concerns only layers the image reuses from its own baseline while another pair ships them as a patch |
| RoundTrip.SafeBundles | pkg/exporter/pool.go:119-129 | four situations known before exporting in which the condition holds for every image |
| CrossImage.ConcreteBundleBreaks | pkg/importer/compose.go:97-115 | a concrete two-image bundle that exports without error under every worker count and budget, whose second image, taken first, ends in a missing patch source for a layer its own baseline holds, and, taken after the first image, is served |
| CrossImage.SecondImageBreaks | pkg/exporter/exporter.go:129-133 | the whole family: whenever the first pair finds a cheap patch and the second reuses that layer without having the source, the second image is refused exactly when the layer was shipped as a patch and no image before it has spooled the source; and it was shipped as a patch unless its planning slipped |
| CrossImage.FirstImageWorks | pkg/importer/compose.go:94-220 | from the very same bundle the first image comes back byte for byte, and after it the second one is served |
| CrossImage.ExportFinishes | pkg/exporter/encode.go:129-187 | such an export always can finish without error |
| SharedImport.ImportUndoesExport | pkg/importer/importer.go:140-145 | the whole way with all images together: after any error-free export, the images preflight accepts, imported at once on one spool under any interleaving of their blob requests and any choice of flight leaders, each end with exactly the blobs of their targets |
| SharedImport.EveryImageComesBack | pkg/importer/compose.go:72-79 | the same for any bundle whose entries decode to the stored bytes, from any agreeing spool |
| SharedImport.NothingRefused | pkg/importer/compose.go:94-118 | at no point of any such run is a request of an accepted image refused |
| SharedImport.LeaderDecides | pkg/importer/baselinespool.go:96-107 | a request that joins a flight succeeds exactly when the digest is spooled or in the flight leader's baseline, whatever its own baseline holds: why rejected images must not take part |
| SharedImport.InvStep | pkg/importer/compose.go:145-180 | every step keeps the spool agreeing and every answered request exact |
| SharedImport.Progresses | pkg/importer/baselinespool.go:93-107 | such an import is never stuck |
| SharedImport.RunsAreBounded | pkg/importer/compose.go:94-118 | and takes at most two steps per request |
| SharedImport.OutcomesAreFixed | pkg/importer/importer.go:284-303 | an image's report row is the same in every finished run, so the outcomes the report theorems take as fixed are |
| Encode.Confluence | pkg/exporter/encode.go:46-51 | any two error-free exports of one input in which planning met no error from outside the input, under any interleavings, worker counts and memory budgets, end with the same entries and the same bytes for every digest |
| Encode.FinalPool | pkg/exporter/encode.go:129-247 | the finished pool of any such schedule is the reference result: seeded digests as seeded, every shipped digest as its first tuple determines |
| Encoder.EveryScheduleIsSerial | pkg/exporter/encode.go:46-51 | a finished pool of any such schedule equals a pool that is the serial result, entries and bytes |
| Encode.CompleteRunIff | pkg/exporter/encode.go:129-187 | for every worker count and budget, some run without an outside planning error completes without error if and only if planning loses no payload of a digest that was not seeded |
| Fallback.EveryExportCanFinish | pkg/exporter/encode.go:225-235 | with such errors every export, lost payloads or not, has a complete run without error: what cannot be planned goes in full |
| Fallback.AgreeAnywayIff | pkg/exporter/encode.go:46-51 | exactly when any two error-free exports agree whatever errors planning met: when every digest that was not seeded has one descriptor and none would be shipped as a patch |
| LostPatch.SlipShows | pkg/exporter/encode.go:225-235 | a family of exports that end in two ways because one planning error is swallowed |
| Encode.SteadyRuns | pkg/exporter/encode.go:225-235 | a state is free of outside planning errors exactly when its run took no such step |
| Divergence.ConfluentIff | pkg/exporter/encode.go:46-51 | exactly when any two error-free exports of one input without an outside planning error agree: when none completes, or when every digest that was not seeded is listed with one descriptor |
| Divergence.AnyTupleCanBeFirst | pkg/exporter/encode.go:169-183 | every tuple of a digest can be the one that registers it: for each there is a complete error-free run, without an outside planning error, that ends with its entry |
| Divergence.TwoSizesDiverge | pkg/exporter/pool.go:87-110 | a concrete export, one digest listed with two sizes, that can end in two ways |
| Admission.SafetyEveryRun | internal/admission/admission.go:43-97 | in every reachable state at most the clamped worker count runs, running estimates fit a positive budget, no two running functions share a key, and both semaphores hold exactly what live tasks hold |
| Admission.Reservations | internal/admission/admission.go:65-71 | in every run each submission is one task, in order, and what is reserved for it is its own estimate when that is at least 1 and within a positive budget or the budget is not positive; 1 when it is below 1; the budget when it is above it |
| Admission.GatesOpen | internal/admission/admission.go:85-95 | nothing but want of room keeps the oldest waiter out: it can get a worker exactly while fewer than the clamped count are taken, and memory whenever its estimate fits the budget beside the estimates of the holders, all as submitted |
| Admission.FirstComeFirstServed | internal/admission/admission.go:86-94 | as long as a task waits at a gate, no task that came to that gate later gets through it |
| Admission.CancelledWaiterLeaves | internal/admission/admission.go:86-93 | after cancellation a task waiting at a gate can return an error by its own steps alone, and its function never runs |
| Admission.FirstErrorIsReturn | internal/admission/admission.go:99-101 | the error kept is that of the goroutine that has just returned without success, and keeping it cancels the group |
| Admission.FirstErrorStays | internal/admission/admission.go:99-101 | and it is never replaced |
| Admission.WaitReturns | internal/admission/admission.go:65-101 | once submission stops every run is finite with an explicit bound, it is stuck exactly when every goroutine has returned, and then every permit and flight is released |
| Admission.WaitVerdict | internal/admission/admission.go:99-101 | no error is kept exactly when every submission's flight ran its function and it returned nil |
| ImportSpool.SafetyEveryRun | pkg/importer/baselinespool.go:75-178 | over every interleaving and arbitrary fetched bytes, writers that bypass the flight included, a listed or returned path is the digest's own file and its contents hash to the digest |
| ExportSpool.CommittedForever | pkg/exporter/baselinespool.go:65-86 | a committed entry never changes and its file keeps, byte for byte, what it held, whatever later callers do |
| Report.PooledIsSerial | pkg/importer/importer.go:284-303 | in partial mode, for every interleaving, worker count and budget, the pooled report after the final sort equals the serial report row for row |
| Preflight.PreflightExact | pkg/importer/preflight.go:102-149 | against every spool: no target layer can end in a missing-patch-source or missing-reuse-layer error if and only if everything the report lists as missing is spooled; and the verdict is Ok if and only if both lists are empty, a missing patch source if and only if that list is not |
| Planner.PlanIsSound | pkg/exporter/intralayer.go:169-238 | a plan is full with the target as payload, or a patch against a listed, primed baseline, strictly smaller than the declared size, whose bytes are what the codec made of that baseline and the target; only spills of this layer are touched |
| Planner.PlanDescribesLayer | pkg/exporter/intralayer.go:204-229 | a planned entry, in full or a patch, has the layer's own size and media type; a patch carries the codec's tag |
| Planner.PlanIsBest | pkg/exporter/intralayer.go:204-237 | a planned patch comes from the first of the smallest patches over the candidates, made with the window log of this layer, and beats the plain compressed size and the declared size; the layer goes in full only if no candidate does |
| Planner.PlanFailsIff | pkg/exporter/intralayer.go:181-219 | planning fails exactly when the target is not on disk, or there are candidates and the plain compression fails or some baseline was not fetched, is gone, or cannot be encoded |
| Admission.InvStep | internal/admission/admission.go:65-97 | every scheduler step keeps exact holdings, exact flights, per-task conditions, the kept error and the completion log |
| Admission.RunningKeysDiffer | internal/admission/admission.go:78-80 | two running functions never share a key |
| Admission.QuiescenceReleasesAll | internal/admission/admission.go:85-97 | when every goroutine has returned, after errors and panics too, both semaphores and the flight table are empty |
| Admission.Progress | internal/admission/admission.go:65-97 | every non-final reachable state has an enabled step of some goroutine without cancellation: the oldest waiter of a gate can be granted |
| Admission.RankDecreases | internal/admission/admission.go:65-97 | every step but a new submission lowers a rank over task phases |
| Admission.RunsAreBounded | internal/admission/admission.go:99-101 | no run without new submissions is longer than the rank |
| Admission.DistinctKeysAllRun | internal/admission/admission.go:78-82 | with distinct keys nothing is collapsed: every function ran once |
| Admission.AdmissionPool.constructor | internal/admission/admission.go:43-58 | workers clamped to at least one; nothing held |
| Admission.AdmissionPool.Submit | internal/admission/admission.go:65-83 | one new goroutine, exactly the machine's step; what that step reserves is `Admission.Reservations` |
| Admission.AdmissionPool.EnterFlight | internal/admission/admission.go:78-80 | joins a registered flight or registers a new one |
| Admission.AdmissionPool.ReachWorkerGate | internal/admission/admission.go:85-86 | a flight leader queues on the worker semaphore behind everyone already there |
| Admission.AdmissionPool.AcquireWorker | internal/admission/admission.go:86-89 | the oldest waiter takes one worker permit; without a memory gate its function starts |
| Admission.AdmissionPool.ReachMemGate | internal/admission/admission.go:90-91 | a permit holder queues on the memory semaphore behind everyone already there |
| Admission.AdmissionPool.AcquireMem | internal/admission/admission.go:90-94 | takes the clamped estimate and starts the function |
| Admission.AdmissionPool.AbandonAcquire | internal/admission/admission.go:86-93 | a cancelled acquire gives up holding only what it had |
| Admission.AdmissionPool.FunctionReturns | internal/admission/admission.go:73-77 | success, error or panic of the function, recorded once |
| Admission.AdmissionPool.LeaderReturns | internal/admission/admission.go:78-82 | the flight ends and its leader's result reaches the group |
| Admission.AdmissionPool.JoinerReturns | internal/admission/admission.go:78-82 | a joiner returns its leader's result |
| Admission.AdmissionPool.Wait | internal/admission/admission.go:99-101 | reports the first kept error |
| WorkerPool.EveryRun | internal/admission/workerpool.go:37-86 | over every run at most n functions run, a Submit begun after cancellation never runs its function, slots are back at the end and the verdict is nil exactly when every submission ran and succeeded |
| WorkerPool.Verdict | internal/admission/workerpool.go:71-86 | each slot is returned even on panic, and no error is held exactly when all ran and succeeded |
| WorkerPool.Progress | internal/admission/workerpool.go:60-80 | a Submit blocked on a full pool waits for a running function, so some goroutine can always step |
| WorkerPool.SlotIsFree | internal/admission/workerpool.go:65-71 | a waiting Submit can take a slot exactly while fewer than the clamped capacity are held |
| WorkerPool.Pool.constructor | internal/admission/workerpool.go:37-47 | capacity clamped to at least one |
| WorkerPool.Pool.CheckContext | internal/admission/workerpool.go:61-64 | cancellation seen first refuses the function deterministically |
| WorkerPool.Pool.TakeSlot | internal/admission/workerpool.go:65-71 | a free slot is taken and the function starts |
| WorkerPool.Pool.ReturnSlot | internal/admission/workerpool.go:72-77 | the deferred slot release |
| WorkerPool.Pool.Wait | internal/admission/workerpool.go:82-86 | nil exactly when every submission ran and succeeded |
| Encode.ExportWithinBudget | pkg/exporter/exporter.go:136-145 | once the guard has passed, at every point of every export each task was submitted with its own layer's estimate, unclamped, and those of the running layers together fit the budget |
| Budget.RunWithinBudget | internal/admission/admission.go:65-71 | when every submitted estimate is within the budget the clamp never lowers one |
| Budget.ImportWithinBudget | pkg/importer/admission.go:28-69 | each image decodes one layer at a time and reserves its maximum, so live decoders' estimates fit the budget |
| Budget.EstimateMonotoneIff | pkg/exporter/admission.go:27-32 | the estimate drops between two window logs exactly when stepping from below the table into its rows 27 to 30 |
| Budget.WindowCovers | pkg/exporter/intralayer.go:28-40 | a window log the user names is taken as it is; otherwise the window is the smallest of the three on offer that covers the layer, up to 2 GiB, and 31 beyond |
| Budget.EstimateIsTwoWindows | pkg/exporter/admission.go:12-32 | the estimate is twice the window for window logs 27 to 31 and 4 GiB for any other |
| Budget.EstimateMonotoneAuto | pkg/exporter/intralayer.go:28-40 | in automatic mode a larger layer never has a smaller estimate |
| Budget.CheckSingleLayerFits | pkg/exporter/exporter.go:169-191 | accepts exactly when every shipped layer fits and otherwise names a layer with the largest estimate |
| Budget.EstimatePerImage | pkg/importer/admission.go:45-69 | the running maximum over the layers the bundle ships |
| Budget.ImageEstimateIsMax | pkg/importer/admission.go:45-69 | the estimate covers every shipped layer and is attained unless it is zero |
| Budget.CheckSingleImageFits | pkg/importer/admission.go:83-109 | names the first image that cannot fit; a non-positive budget disables the guard |
| Diff.ComputePlan | pkg/diff/plan.go:50-72 | required and shipped are the target layers whose digest is, or is not, in the baseline |
| Diff.PlanPartitions | pkg/diff/plan.go:45-50 | both parts are subsequences of the target and together lose and repeat nothing |
| Diff.SelectMembers | pkg/diff/plan.go:64-70 | exactly which layers land on each side |
| Diff.ValidateBlobEntry | pkg/diff/sidecar.go:103-134 | accepts exactly the well-formed full and patch entries, and reports each fault exactly when its condition is the first to hold |
| Diff.ValidateImage | pkg/diff/sidecar.go:71-94 | accepts an image exactly when its name is well formed and new and both manifests are named, the target one in the table, and reports each fault exactly when it is the first |
| Diff.NameLetters | pkg/diff/sidecar.go:14-14 | the letters of a name, one by one: exactly the ASCII lower-case and upper-case letters, digits, dot, dash and underscore |
| Diff.Validate | pkg/diff/sidecar.go:60-101 | accepts exactly the well-formed sidecars; an image fault is that of the first bad image and precedes entry faults |
| Diff.RequiresZstd | pkg/diff/sidecar.go:136-146 | true exactly when some entry is a patch |
| Fingerprint.Score | pkg/exporter/fingerprint.go:27-40 | the byte-weighted intersection, zero when either fingerprint is missing |
| Fingerprint.OverlapIsBytes | pkg/exporter/fingerprint.go:27-40 | the score file by file: a further target file of n bytes adds n when the candidate has its content and nothing otherwise, from zero; and a missing fingerprint scores zero |
| Fingerprint.SumOverDraw | pkg/exporter/fingerprint.go:34-38 | the sum does not depend on the order the map is walked |
| Fingerprint.PerfectScore | pkg/exporter/fingerprint.go:27-40 | a score never exceeds the target's own weight and reaches it exactly when the candidate holds every file |
| Fingerprint.FingerprintTar | pkg/exporter/fingerprint.go:104-135 | fails exactly on an unreadable entry, else maps each distinct regular-file content to its size |
| Fingerprint.PrintContents | pkg/exporter/fingerprint.go:120-132 | the digests in a fingerprint are exactly those of the regular files |
| Fingerprint.PrintIsOrderFree | pkg/exporter/fingerprint.go:104-135 | the fingerprint does not depend on the order of the entries when no two contents share a digest |
| Sorting.StableSort | pkg/exporter/intralayer.go:130-140 | the sort the ranking and the report use, equal to the specified one |
| Sorting.SortIsStable | pkg/exporter/intralayer.go:130-140 | elements the comparator does not separate keep their order |
| Sorting.SortIgnoresOrder | pkg/exporter/intralayer.go:130-140 | when the comparator decides every pair, the result does not depend on the input order |
| Planner.RankingIsStrictWeak | pkg/exporter/intralayer.go:129-140 | the comparator is a strict weak order, as the sort needs; which order is `Planner.RankedInOrder` |
| Planner.RankedInOrder | pkg/exporter/intralayer.go:121-140 | in the ranking the number of shared bytes never rises; among equal numbers the distance to the size of the target never falls; among equal distances the digests ascend |
| Planner.LeftOutComesLater | pkg/exporter/intralayer.go:141-148 | whatever the choice leaves out comes after everything it takes in that order; in particular it shares no more bytes with the target |
| Planner.ChosenAreNearest | pkg/exporter/intralayer.go:188-188 | the same of the candidates a layer's planning tries, with the layer's own fingerprint and size, min(k, n) of them |
| Planner.TopKIgnoresOrder | pkg/exporter/intralayer.go:102-149 | the choice is invariant under permuting baselines in which equal digests describe the same layer |
| Planner.OrderFreeIff | pkg/exporter/intralayer.go:102-149 | exactly when the choice, for every K, is invariant under every permutation of the baselines: when no two different ones tie in score, size distance and digest |
| Planner.TiesFollowListOrder | pkg/exporter/intralayer.go:130-140 | two repeats of a digest that tie in every key are chosen by list order, unless they are equal |
| Planner.TopKIsPrefix | pkg/exporter/intralayer.go:141-148 | min(k, n) long, and the result for k is a prefix of that for any larger k |
| Planner.TopKIsBest | pkg/exporter/intralayer.go:129-148 | the choice is the head of the ranking |
| Planner.ScanFailsIff | pkg/exporter/intralayer.go:208-219 | the search fails exactly when some candidate could not be read or encoded |
| Planner.ScanIsArgmin | pkg/exporter/intralayer.go:204-237 | the winner is the first smallest patch strictly below the plain compressed size and the raw size, if there is one |
| Planner.WinnerSurvivesIff | pkg/exporter/intralayer.go:220-236 | on one search: the winner's file survives exactly when no later removal uses its name |
| Planner.NamesSafeIff | pkg/exporter/intralayer.go:213-236 | the spill names alone decide: every error-free search over them keeps its winner's file if and only if no name repeats |
| SpillLoss.AlwaysKeptIff | pkg/exporter/intralayer.go:151-168 | what can be told before encoding: whatever the codec does and whatever the baselines hold, the planned payload is there, if and only if the chosen baselines' spill names differ, or the layer has at most one byte, or a chosen baseline was never fetched |
| SpillLoss.WholeBaselineDecides | pkg/exporter/intralayer.go:213-214 | the choice for every K has distinct spill names if and only if the whole baseline has |
| SpillLoss.SpillsShared | pkg/exporter/intralayer.go:213-214 | two baselines share a spill name exactly when the first eight letters of their encoded digests are equal |
| LostPatch.PlansLostPatch | pkg/exporter/intralayer.go:208-236 | a baseline that lists its layer twice: with K of two or more the plan is a patch whose payload is not on disk |
| LostPatch.RepeatNeverFinishes | pkg/exporter/encode.go:237-240 | and no schedule, worker count or budget ever finishes that export without error, unless the planning of that layer meets an outside error |
| LostPatch.ConcreteExportFails | pkg/exporter/encode.go:237-240 | one such export on concrete blobs, without outside errors |
| Planner.DistinctNamesLeaveWinner | pkg/exporter/intralayer.go:213-236 | with distinct spill names exactly the winner's spill is left |
| Planner.RepeatDeletesWinner | pkg/exporter/intralayer.go:213-235 | two candidates sharing a spill name, the first worth keeping: the winner's file is deleted whichever wins |
| Planner.PlanIsDeterministic | pkg/exporter/encode.go:49-49 | the plan depends only on the target's and the baselines' bytes, not on stale files |
| Planner.PlanOwnsItsFiles | pkg/exporter/intralayer.go:151-168 | with distinct spill names the payload exists with its recorded size and is the only spill left |
| Planner.LargerKNeverWorse | pkg/exporter/intralayer.go:204-237 | an error-free larger search never plans a larger archive size |
| Planner.LargerKWorseIff | pkg/exporter/encode.go:225-235 | for k <= l, with the fallback to full counted: l costs more than k if and only if its search fails and that of k planned a patch |
| LostPatch.SecondCandidateHurts | pkg/exporter/encode.go:225-235 | a family of inputs where it does: the second-ranked candidate was never fetched |
| LostPatch.ConcreteSecondHurts | pkg/exporter/encode.go:225-235 | one such input on concrete blobs |
| Planner.LiveStep | pkg/exporter/intralayer.go:220-236 | a written candidate weighed on a disk other encodes are changing: running best and its file come out as in the search alone |
| Planner.FilledHonoursSeeds | pkg/exporter/intralayer.go:265-306 | priming honours every seeded fingerprint, failed ones included, and leaves no baseline without an entry |
| Planner.FilledMeans | pkg/exporter/intralayer.go:265-306 | after priming, a listed baseline has its seeded fingerprint; without one, that of its fetched bytes under a media type it is listed with; and without those, none |
| Planner.LayerPlanner.constructor | pkg/exporter/intralayer.go:82-100 | the baselines, nothing lost, by ascending digest, as some sort, not necessarily a stable one, leaves them |
| Planner.LayerPlanner.SeedBaselineFingerprints | pkg/exporter/intralayer.go:251-263 | only this planner's baselines are seeded, failures preserved |
| Planner.LayerPlanner.EnsureBaselineFP | pkg/exporter/intralayer.go:274-306 | fills the missing fingerprints once |
| Planner.LayerPlanner.PickTopK | pkg/exporter/intralayer.go:112-149 | primes once and returns the first min(k, n) of the ranking, whose order is `Planner.RankedInOrder` |
| Planner.LayerPlanner.PlanShippedTopK | pkg/exporter/intralayer.go:169-238 | outcome and files are those of the specified search, which `Planner.PlanDescribesLayer`, `Planner.PlanIsBest` and `Planner.PlanFailsIff` pin down |
| Planner.LayerPlanner.TryCandidates | pkg/exporter/intralayer.go:204-237 | the candidate loop equals the specified scan, files included |
| Planner.LayerPlanner.TryOne | pkg/exporter/intralayer.go:209-235 | one candidate: its spill stays only if it is the strict running best, and then the previous best goes |
| BlobPool.Pool.AddEntryIfAbsent | pkg/exporter/pool.go:52-76 | first write wins: an existing entry and its file are left alone |
| BlobPool.Pool.AddEntryFromPath | pkg/exporter/pool.go:87-110 | adoption by rename; a later writer's file is removed and the entry kept |
| BlobPool.Pool.CountShipped | pkg/exporter/pool.go:119-123 | one more reference for that digest only |
| BlobPool.Pool.SortedDigests | pkg/exporter/pool.go:145-154 | every registered digest once, strictly ascending |
| Encode.CanonIsPerDigest | pkg/exporter/encode.go:215-223 | tuples of one digest have the same canonical entry and bytes, because a digest shipped twice is forced to full |
| Encode.CanonDescribes | pkg/exporter/intralayer.go:204-229 | whatever a tuple becomes, it is listed with the size and media type of its own descriptor |
| Encode.DescriptorsMustAgree | pkg/exporter/pool.go:100-108 | two tuples of one digest have the same canonical entry exactly when their size and media type agree |
| Encode.RefsSeparate | pkg/exporter/pool.go:119-129 | two tuples of one digest give it a count above one, so a patched digest has one submission |
| Encode.PlanIsCanonical | pkg/exporter/encode.go:225-237 | the plan made on any disk that keeps the baselines is the one its tuple determines |
| Encode.TryAgrees | pkg/exporter/intralayer.go:208-219 | amid other encodes, a candidate tried writes the patch the tuple alone determines, or fails when it does, and touches only spills of its target |
| Encode.WeighAgrees | pkg/exporter/intralayer.go:220-236 | and weighing it against the running best removes what the tuple alone would have removed |
| Encode.SettleAgrees | pkg/exporter/intralayer.go:237-237 | and when all are tried, entry, payload and its presence are the canonical ones |
| Encode.InvStep | pkg/exporter/encode.go:129-247 | every interleaved step of the submission loop, scheduler and encodes, spill by spill and outside planning errors included, keeps every listed digest as seeded, canonical, or in full where planning slipped |
| Encode.CompleteMeansKept | pkg/exporter/encode.go:237-240 | an error-free export lost no planned payload of a digest whose planning did not slip |
| Encode.ExportProgress | pkg/exporter/encode.go:169-186 | an unfinished export that loses no payload always has an error-free step |
| Encode.RankDecreases | pkg/exporter/encode.go:169-186 | every step of an export lowers a rank, so every export ends |
| Encoder.SeedManifestAndConfig | pkg/exporter/pool.go:131-143 | two first-write-wins registrations of full entries |
| Encoder.RegisterKeeps | pkg/exporter/pool.go:45-51 | registering bytes that match their digest keeps every listed file honest and touches nothing else |
| Encoder.CountAllShipped | pkg/exporter/exporter.go:129-133 | the reference count of a digest is its number of tuples |
| Encoder.EncodeOneShipped | pkg/exporter/encode.go:194-247 | registers the tuple's canonical entry and bytes, touching only that digest's files; fails exactly when the planned payload was lost |
| Encoder.EncodeNext | pkg/exporter/encode.go:169-183 | one turn of the loop; a digest already in the pool is skipped, and a turn that loses no payload succeeds |
| Encoder.EncodeTargets | pkg/exporter/encode.go:129-187 | the loop with one worker succeeds if and only if no payload is lost, and ends with every digest as its first tuple determines |
| Exporter.PrimeList | pkg/exporter/encode.go:92-122 | each distinct baseline digest of the bundle is primed exactly once, with the descriptor it is first listed with |
| Exporter.PlanPairs | pkg/exporter/exporter.go:119-133 | the submission order: every pair's missing layers, pair by pair |
| Exporter.SeedAll | pkg/exporter/exporter.go:119-128 | the pool holds exactly the manifests and configs, in full, with their own bytes, each with the size and media type some pair gives it |
| Exporter.Guard | pkg/exporter/exporter.go:136-145 | stops exactly when some layer that would be submitted does not fit a positive budget, and names one with the largest estimate |
| Exporter.BuildBundle | pkg/exporter/exporter.go:101-164 | plan, seed, count, guard, encode and assemble, with planners seeded from the priming's fingerprints: over budget it names the largest layer; past the guard it succeeds if and only if planning loses no payload; then every digest is as its first tuple determines, and the sidecar lists a bundle from which every digest is the stored bytes or decodes to them |
| RoundTrip.JobsExact | pkg/exporter/encode.go:148-178 | a tuple is submitted exactly for the target layers its own baseline lacks |
| RoundTrip.JobsInOrder | pkg/exporter/exporter.go:129-133 | tuples are submitted pair by pair, and of each pair the layers its baseline lacks, in the manifest's order |
| RoundTrip.WantedAre | pkg/importer/compose.go:419-432 | what a copy reads: the manifest's layers in order, then the config |
| RoundTrip.ExportMeans | pkg/exporter/encode.go:194-263 | every blob of an error-free export, whatever its schedule and wherever planning slipped, is the stored bytes, or a patch against a baseline layer of the one pair that ships it, decoding to them; and its entry has the size and media type that some pair shipping the layer, or listing the manifest or config, gives it |
| RoundTrip.AssembleSidecar | pkg/exporter/assemble.go:31-64 | the pool's entries and one image row per pair in order |
| RoundTrip.SidecarLists | pkg/exporter/assemble.go:31-64 | row i carries pair i's name, its baseline's manifest digest, its target's manifest digest and media type |
| RoundTrip.ExportedSidecarValid | pkg/diff/sidecar.go:60-134 | an exported sidecar validates if and only if there is a platform, at least one pair and well-formed distinct names |
| RoundTrip.AllEntriesValid | pkg/exporter/pool.go:131-143 | every entry is well formed, and in mode off every one is full |
| RoundTrip.PatchProvenance | pkg/exporter/encode.go:215-263 | a patch entry's source is a baseline layer of a pair that ships the digest, and 0 < archive size < size |
| ImportSpool.EntriesPersist | pkg/importer/baselinespool.go:173-177 | a committed entry stays, with a file that still hashes to its digest |
| ImportSpool.SmoothRunsSucceed | pkg/importer/baselinespool.go:75-178 | a call comes back empty-handed only after a fetch, copy or rename failed or some bytes did not hash to their digest: without one every returned call has the digest's verified path |
| ImportSpool.NoFetchAfterCommit | pkg/importer/baselinespool.go:93-103 | once a flight has committed a digest no flight fetches it again |
| ImportSpool.Quiescence | pkg/importer/baselinespool.go:134-139 | when every call is back no temporary file or flight is left, and a digest is listed exactly when some call succeeded |
| ImportSpool.Progress | pkg/importer/baselinespool.go:96-107 | a joined caller's leader can always move |
| ImportSpool.RankStep | pkg/importer/baselinespool.go:115-178 | every step of a call but a chunk of its stream lowers its rank |
| ImportSpool.InvStep | pkg/importer/baselinespool.go:75-178 | every step keeps entries verified, temporary files owned and separate, and flights led |
| ImportSpool.StaysPublished | pkg/importer/baselinespool.go:166-171 | a rename over a published file brings bytes with the same digest |
| ImportSpool.BaselineSpool.Lookup | pkg/importer/baselinespool.go:60-67 | a committed path, whose file hashes to the digest |
| ImportSpool.BaselineSpool.EnterFlight | pkg/importer/baselinespool.go:96-96 | joins or leads the flight of the digest |
| ImportSpool.BaselineSpool.RecheckInFlight | pkg/importer/baselinespool.go:97-102 | a digest committed meanwhile is not fetched again |
| ImportSpool.BaselineSpool.OpenTmp | pkg/importer/baselinespool.go:127-132 | a temporary file of its own |
| ImportSpool.BaselineSpool.CopyChunk | pkg/importer/baselinespool.go:142-153 | each chunk reaches the file and the hasher |
| ImportSpool.BaselineSpool.VerifyDigest | pkg/importer/baselinespool.go:161-164 | only a matching hash goes on to the rename |
| ImportSpool.BaselineSpool.Publish | pkg/importer/baselinespool.go:166-171 | the atomic rename |
| ImportSpool.BaselineSpool.Record | pkg/importer/baselinespool.go:173-177 | the entry is listed after the rename |
| ImportSpool.BaselineSpool.RemoveTmp | pkg/importer/baselinespool.go:134-140 | a failed call removes its temporary file and lists nothing |
| ImportSpool.BaselineSpool.LeaveFlight | pkg/importer/baselinespool.go:104-107 | the returned path names a file that hashes to the digest |
| ExportSpool.FileIsStream | pkg/exporter/baselinespool.go:116-174 | in every run, every committed file is exactly the fetched stream, whatever prefix the fingerprinter consumed, if and only if no tee write of its flight was lost during fingerprinting; otherwise it is strictly shorter |
| ExportSpool.LostWriteCommits | pkg/exporter/baselinespool.go:143-157 | for every canonical digest and non-empty stream a run that commits an empty file without an error to anyone: the one write fails while the fingerprinter reads, and its error is dropped |
| ExportSpool.ConcreteLostWrite | pkg/exporter/baselinespool.go:143-157 | one such run spelled out |
| ExportSpool.TornExactly | pkg/exporter/baselinespool.go:143-147 | the lost writes recorded are those of the run |
| Exporter.PrimedSpoolFits | pkg/exporter/encode.go:92-122 | with sources that serve the stored bytes, the primed baselines are complete, as an export needs them, if and only if no committing flight lost a tee write |
| ExportSpool.NoSecondFetch | pkg/exporter/baselinespool.go:74-81 | after the commit no call fetches the digest or opens its file |
| ExportSpool.SmoothRunsSucceed | pkg/exporter/baselinespool.go:65-174 | a call comes back empty-handed only after some fetch, drain, sync or close failed |
| ExportSpool.PrintIsReported | pkg/exporter/baselinespool.go:148-171 | in every run a committed entry carries the fingerprint its own flight's fingerprinter reported |
| ExportSpool.InvStep | pkg/exporter/baselinespool.go:65-174 | every step, lost tee writes included, keeps committed files whole or marked torn, and partial files equal to what was written of the stream so far |
| ExportSpool.OtherFile | pkg/exporter/baselinespool.go:120-141 | no step changes the file of another digest, or of a digest already committed |
| ExportSpool.NonCanonicalDigestsCollide | pkg/exporter/baselinespool.go:55-58 | two malformed digests may name one file, so the spool needs canonical ones |
| ExportSpool.BaselineSpool.Arrive | pkg/exporter/baselinespool.go:71-73 | the fast path is taken exactly when the digest is committed |
| ExportSpool.BaselineSpool.EnterFlight | pkg/exporter/baselinespool.go:74-74 | joins or leads the flight of the digest |
| ExportSpool.BaselineSpool.RecheckInFlight | pkg/exporter/baselinespool.go:75-79 | the re-check that keeps a committed file from being truncated |
| ExportSpool.BaselineSpool.CreateFile | pkg/exporter/baselinespool.go:127-130 | creates or truncates the final file |
| ExportSpool.BaselineSpool.TearTee | pkg/exporter/baselinespool.go:143-147 | a tee write that stores less than was read: the reader has moved on and only the fingerprinter hears of it |
| ExportSpool.BaselineSpool.DrainAll | pkg/exporter/baselinespool.go:146-165 | the drain completes the file to the whole stream, less what a lost tee write left out, in any chunk size, touching no other file |
| ExportSpool.BaselineSpool.Record | pkg/exporter/baselinespool.go:167-171 | the entry with its fingerprint, possibly the failure mark |
| ExportSpool.BaselineSpool.RemovePartial | pkg/exporter/baselinespool.go:136-141 | a partial file is removed |
| ExportSpool.BaselineSpool.SnapshotFingerprints | pkg/exporter/baselinespool.go:176-189 | one fingerprint, possibly the failure mark, per committed digest |
| TargetSpool.Dir.SpoolReader | pkg/exporter/perpair.go:223-278 | the destination changes only by a rename of the complete stream; on any fault it is what it was; no temporary file stays; success exactly when the stream ends cleanly and nothing strikes |
| TargetSpool.JoinedInOrder | pkg/exporter/perpair.go:223-278 | the complete stream is the bytes of its reads, first to last |
| Common.EncodedInjective | pkg/exporter/baselinespool.go:55-58 | the encoded half of a canonical digest, which names its files, identifies it |
| Common.CanonicalMeans | pkg/exporter/baselinespool.go:55-58 | a canonical digest is one of the three registered algorithms, a colon and 64, 96 or 128 letters |
| Common.MatchIsCanonical | pkg/importer/baselinespool.go:161-164 | only a canonical digest can match content |
| Common.MatchMeans | pkg/importer/baselinespool.go:161-164 | content matches a digest exactly when sha256, sha384 or sha512 of it, under that prefix, is the digest |
| Common.LexExact | pkg/exporter/intralayer.go:139-139 | the order of digests: the first differing letter decides, and a proper prefix comes first |
| Common.SetSlice | pkg/importer/preflight.go:88-94 | a set's elements, each once |
| Compose.VerifyingReader.Read | pkg/importer/compose.go:248-260 | end of file is reported only when everything delivered is the whole file and hashes to the digest; a mismatch is an error of the reader's kind |
| Compose.ReadAll | pkg/importer/compose.go:233-277 | in any chunking the reader delivers the whole file and ends cleanly exactly when it matches |
| Compose.ServedMatches | pkg/importer/compose.go:94-220 | for arbitrary bundle files, decoder and baseline, served bytes hash to the requested digest and the spool stays verified |
| Compose.ReuseOutcomes | pkg/importer/compose.go:307-322 | a blob the bundle lacks: served exactly when spooled, or when the baseline answers with matching bytes; each refusal exactly when its cause holds |
| Compose.FullOutcomes | pkg/importer/compose.go:124-139 | a blob shipped in full: served exactly when its file is there and matches; each refusal exactly when its cause holds |
| Compose.PatchOutcomes | pkg/importer/compose.go:160-220 | a patched blob: served exactly when the source can be had and the file decodes against it to matching bytes; missing source, unreadable source, mismatching source, failed decode and mismatching result each exactly when its cause holds |
| Compose.CopiedMatches | pkg/importer/compose.go:94-118 | a finished copy has every blob, each matching its digest |
| Compose.ImageSource.GetOrSpool | pkg/importer/baselinespool.go:75-108 | as one caller sees it: spooled bytes, or what the baseline answers; only verified bytes are kept |
| Compose.ImageSource.FetchVerifiedBaselineBlob | pkg/importer/compose.go:307-322 | the reuse path with its distinct errors |
| Compose.ImageSource.ServeFull | pkg/importer/compose.go:124-139 | a verifying reader over the bundle file |
| Compose.ImageSource.ServePatch | pkg/importer/compose.go:160-220 | missing source, mismatch, decode failure or a verifying reader over a scratch file of its own, kept only inside the reader |
| Compose.ImageSource.GetBlob | pkg/importer/compose.go:94-118 | dispatch on the table entry; unlisted digests come from the baseline |
| Compose.ImageSource.CopyBlob | pkg/importer/compose.go:239-285 | open, read in any chunking, close: the specified result, and no scratch file left |
| Compose.ImageSource.CopyImage | pkg/importer/compose.go:419-432 | one blob at a time, stopping at the first refusal |
| Preflight.ComputeRequired | pkg/importer/preflight.go:64-86 | reuse layers and patch sources exactly as the table and the target manifest imply |
| Preflight.AbsentExact | pkg/importer/preflight.go:151-159 | exactly the wanted digests the set lacks, without repeats |
| Preflight.DigestsNotIn | pkg/importer/preflight.go:151-159 | the filter, in order |
| Preflight.ScanOneImage | pkg/importer/preflight.go:102-149 | exact missing lists, the config counting as held, and patch sources dominating the verdict; unparseable manifests have their own verdicts |
| Preflight.RunPreflight | pkg/importer/preflight.go:167-210 | one report per image in sidecar order: with distinct names each image is scanned against its own baseline; an image no baseline was resolved for is a scan error with empty lists; an unparseable target manifest of an image with a baseline, and nothing else, is fatal and ends the scan there |
| Preflight.ResolvedFinds | pkg/importer/preflight.go:173-187 | with distinct names the look-up by name finds each image its own baseline |
| Preflight.MissingSetsExact | pkg/importer/preflight.go:131-148 | against every spool: the reported sets, less what is spooled, are exactly the digests whose absence a copy would run into |
| Preflight.OkNeverMisses | pkg/importer/preflight.go:134-136 | from every spool: after an Ok verdict, or when everything reported is spooled, a copy never stops for a missing digest |
| Preflight.RejectedAlwaysStops | pkg/importer/preflight.go:137-148 | from every spool that lacks something reported as missing, a copy of the layers always stops |
| Preflight.SharedSpoolHides | pkg/importer/compose.go:307-313 | against a spool of the image's own baseline the verdict alone decides; one more digest spooled by another image can hide a rejection |
| RoundTrip.PreflightDecides | pkg/importer/preflight.go:102-149 | for an exported bundle no reuse layer is ever reported; the reported sources are all spooled if and only if every source is at hand, and the verdict is Ok if and only if the baseline alone has them |
| RoundTrip.ServeExact | pkg/importer/compose.go:94-220 | a wanted blob comes back exactly or its patch source is missing; nothing else can happen |
| RoundTrip.CopyExact | pkg/importer/compose.go:419-432 | from every agreeing spool a copy returns the stored bytes in order if and only if every patch source is held or spooled, and otherwise stops at a missing source; the spool grows by own baseline digests and still agrees |
| RoundTrip.CopyLeavesSources | pkg/importer/compose.go:163-180 | a finished copy leaves every patch source it used in the spool |
| Report.SplitPreflight | pkg/importer/importer.go:197-208 | accepted names in order and the rejected reports by name |
| Report.MergePreflightSkips | pkg/importer/importer.go:163-181 | one skip row per rejected image, in sidecar order |
| Report.ImportSerial | pkg/importer/importer.go:248-282 | the budget sentinel alone when an image cannot fit; else a prefix of the apply list, all of it in partial mode without cancellation, up to the first failure in strict mode |
| Report.SortResults | pkg/importer/importer.go:396-413 | stable sort by position in the apply list |
| Report.RankFinds | pkg/importer/importer.go:397-400 | the rank map gives each listed name its position |
| Report.ArrivalOrderVanishes | pkg/importer/importer.go:391-413 | sorted by the apply list, rows in any arrival order give the serial report |
| Report.InvStep | pkg/importer/importer.go:344-389 | every step of submission, scheduling, recording and return keeps each image recorded at most once |
| Report.AllRecorded | pkg/importer/importer.go:371-379 | when the pool is done every image has been recorded exactly once |
| Report.PooledProgress | pkg/importer/importer.go:284-294 | the pooled import is never stuck before every image is recorded |
| Report.FinalOrder | pkg/importer/importer.go:139-147 | applied images first in preflight order, then skipped ones in theirs |
| Report.EveryImageOnce | pkg/importer/importer.go:139-208 | with distinct image names the final report names every image exactly once |
| Report.SkipReasons | pkg/importer/importer.go:163-181 | every rejected image has a row in the report that names it and says whether its baseline lacks a patch source or a reuse layer |
| Invariant.LayerSetDiff | pkg/importer/invariant.go:71-94 | exactly the two set differences, without repeats |
| Invariant.VerifyPerLayerSize | pkg/importer/invariant.go:101-124 | the first expected layer whose destination size is not the wanted one; what is wanted is said by `Invariant.HoldsMeans` and `Invariant.PassesAgainstItself` |
| Invariant.VerifyApplyInvariant | pkg/importer/invariant.go:28-69 | nil exactly when digest sets agree, every wanted size is met and, for equal media types, the manifest digests agree; what that says layer by layer is `Invariant.HoldsMeans` |
| Invariant.HoldsMeans | pkg/importer/invariant.go:105-122 | after a nil result the destination lists each expected layer with the table's size when that is positive and with the manifest's own otherwise, and lists no other layer |
| Invariant.PassesAgainstItself | pkg/importer/invariant.go:105-122 | an image that lists each digest with one size passes against itself exactly when the table's positive sizes are the listed ones |
| Invariant.SoundForEverySize | pkg/importer/invariant.go:105-122 | a nil result pins every listed size exactly when the destination lists each digest with one size |
| Invariant.RepeatedDigestSlipsThrough | pkg/importer/invariant.go:105-108 | for every canonical digest and any two sizes: a destination listing it twice passes with a wrong first size |
| Invariant.ConversionSkipsManifest | pkg/importer/invariant.go:62-67 | a nil result pins the destination's manifest digest exactly when the media types agree |
| Retry.WithRetry | pkg/importer/retry.go:19-43 | at most times + 1 calls, the first success returned, a stop at the first non-retryable error or cancelled wait, exactly the waits the specification counts, and the delays asked for: a fixed delay, when given, every time |
| Retry.BackoffInRange | pkg/importer/retry.go:30-36 | up to attempt 36 the delay is 100 ms times a power of two, capped at 30 s from attempt 9 on |
| Retry.BackoffExactSet | pkg/importer/retry.go:30-36 | the delay of an attempt leaves [0, 30 s] precisely for attempts 37, 39 to 43, 45, 47 to 50 and 55, by going negative |
| Retry.BackoffInRangeIff | pkg/importer/retry.go:30-36 | the delays of the first n attempts are all in range if and only if n <= 37 |
| Retry.CallInRangeIff | pkg/importer/retry.go:19-43 | in exponential mode the delays one call asks for are all in range exactly when it waits at most 37 times |
| Retry.ExponentialModeSafeIff | pkg/importer/retry.go:19-43 | in exponential mode every delay is in range for every operation and every cancellation if and only if times <= 37 |

## Left out

- Registries, transports, `copy.Image`, manifest JSON, tar reading and writing: manifests are parsed records, sources are functions from digests to bytes, the archive is a table plus a map from digests to bytes.
- zstd itself and its temporary files: abstract encode, size and decode functions with the round-trip law.
- Commands, configuration, progress, logging, signing, inspection, dry runs and error texts: easy members or wiring.
- The semaphore, errgroup and singleflight libraries: modelled by their documented steps, first in first out for the semaphores.
- Compression of layers before fingerprinting (`pkg/exporter/fingerprint.go:85-102`) and context cancellation inside a fingerprint: the fingerprinter is a function of media type and bytes that may fail.
- Digests of an algorithm the process does not know make the Go hasher panic; here they simply never match.
- Cancellation between the two checks of one image's scan (`pkg/importer/preflight.go:108-110`, `pkg/importer/preflight.go:184-186`), strict-mode abort after a complete scan, and partially written destinations.
- Planner.TopKIgnoresOrder: asks that equal digests describe the same layer; `Planner.OrderFreeIff` is the exact statement for every list.
- Planner.LargerKNeverWorse: holds for error-free larger searches; `Planner.LargerKWorseIff` is the exact statement with errors.
- ExportSpool.FileIsStream: is about calls with canonical digests; `ExportSpool.NonCanonicalDigestsCollide` shows why.
- ImportSpool.NoFetchAfterCommit: is about commits by flights; a writer that bypasses the flight may commit while a flight that has already re-checked is about to fetch.
- Report.PooledIsSerial: takes each image's outcome as fixed, with no cancellation, no panic and partial mode; `SharedImport.OutcomesAreFixed` shows it fixed for accepted images of an exported bundle whose sources answer faithfully, not for failing sources or destinations.
- Compose.ImageSource.GetOrSpool: is what one caller sees; the interleavings of its steps are in `ImportSpool`, those of whole requests in `SharedImport`.
- SharedImport.EveryImageComesBack: takes a fetch and a read as one step each; that a listed file keeps its verified bytes between them is `ImportSpool.EntriesPersist`.
- BlobPool.Pool.AddEntryIfAbsent: is atomic here; the interleaving of its look-up, write and registration is not modelled since seeding is sequential. The interleaving of AddEntryFromPath is, in `Encode`.
- An encoder's output stream is one write of its spill.
- A read error while the target is fingerprinted, or a baseline while it is primed, only costs a fingerprint and so changes a ranking: fingerprints are functions of media type and bytes here.
- Restored.RestoredPassesIff: is about destinations that take the target manifest unconverted and manifests that can be read back and parsed; after a conversion the digest is not compared (`Invariant.ConversionSkipsManifest`).
- Encoder.EncodeOneShipped: the one-worker phase meets no outside planning errors; `Encode` has them.
- Encode.Confluence: a failed rename or spool is an arbitrary failure of that encode, after which the export is not error-free and nothing is claimed.

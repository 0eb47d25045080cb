# Equipment decommission: a model of the wipe, lease and approval protocols

The program wipes the disks of retired equipment, proves to itself that it did, and keeps records that can be
trusted afterwards. This project models the parts that have to be right:

* the overwrite and verify engine, which resumes from checkpoints across any number of power losses;
* the job lease by which several worker processes share one store without fencing;
* the life of approvals, assets, disks, jobs, certificates and disposal rows, and the audit log over them.

Check everything with `dafny verify dfyconfig.toml`.

## How the model is laid out

| file | contents |
|---|---|
| `Domain.dfy` | statuses, transition tables, the built-in standards |
| `Keystream.dfy` | `streamAt` and `pad16` over buffers, and the closed form of the random stream |
| `CrashMachine.dfy` | device, checkpoint row and process as a machine that can stop, tear a write or lose power anywhere |
| `Counting.dfy`, `Sampling.dfy` | sums over ranges as sizes of sets, and the windows of a sampled verification |
| `Engine.dfy` | `overwrite`, `verify` and `Run` as loops over a device; they return the run of the crash machine they performed |
| `StoreModel.dfy`, `Memory.dfy` | the store as a value with one function per operation, and the class that updates its maps in place |
| `CertNumber.dfy` | certificate numbers |
| `History.dfy` | what holds after any interleaving of store operations |
| `ServiceRules.dfy`, `Service.dfy` | each service call as one function, and the class that performs its checks and store calls |
| `CallEffects.dfy` | when exactly each service call is accepted, and the whole difference it makes |
| `Gate.dfy`, `HalfWay.dfy`, `Versions.dfy` | the approval gate, its exception, and the approval history |
| `Interleaving.dfy` | service calls that are not one step: exactly when their last write still keeps gate and history |
| `Runner.dfy`, `Finality.dfy` | the store calls of one job run, one step each, and what the finalize order leaves behind |
| `Upkeep.dfy`, `System.dfy`, `Guarantees.dfy` | all of it as one state machine with a clock, instances, deaths and restarts; the theorems about every run of it |
| `DiskHistory.dfy`, `Scrapping.dfy`, `Continuations.dfy` | what every step writes to a disk, why a retired disk stays scrapped, and how the system can go on otherwise |
| `Verdicts.dfy`, `Starts.dfy`, `Tags.dfy` | over every run: what a verdict on a request means from then on, when execution begins, that tags are unique |
| `Lifecycle.dfy` | that the protocol can be carried through from every reachable state, from registration to disposal |
| `Reverifications.dfy`, `Outcomes.dfy` | a whole re-verification as steps of the state machine, and the ways in which an undisturbed run ends |
| `Wipe.dfy` | the state machine with the crash machine of every job's device beside it |
| `Worker.dfy` | `fillSlots`, `runJob`, `Reverify` and the finalize calls, tied to the crash machine and to the runner |

A store operation is one atomic step because the store holds one lock. A process may die, and others may act, between
any two of them; only a service call is taken as a whole.
Clock readings, generated ids, random draws, failures of devices and uploads, and cancellation are arbitrary. Where a
theorem says that something comes to its end, it names what must not get in the way: a steady device is one on which no
call fails, a calm run one that is neither cancelled nor killed.

## Assumptions, and where they stand

* **Timing.** Time passes only while every live run's heartbeat is within the timeout (`Tick` in `System.dfy`).
* **Restart.** An instance in its starting window claims only while no other instance is live (`ClaimJob` in
  `System.dfy`). `StolenIff` shows that these two conditions are the only ways in which a live run can lose its job.
* **Fresh ids.** Generated ids do not repeat (`Issued` in `History.dfy`, `Permitted` in `ServiceRules.dfy`).
* **Service calls are atomic** in `Gate`, `Versions`, `Finality` and `System`; `History` needs no such assumption.
  For the two promises that interleaving can break, `LatePullIff` and `LateVersionIff` say exactly when they are kept.
* **One open job per disk** for the statements about device contents: creating a job does not reserve its disk. What
  a job did to its device holds until the next job of the disk starts.
* **Reliable devices** in `Wipe.dfy`; `Engine.dfy` and `Worker.dfy` say what verification proves on any device.
* **Fixed chunk size** over all lifetimes of a job (`Plan` in `CrashMachine.dfy`).

## Where the code differs from its comments

* `device.go:68-70` says that any offset can be derived independently, and names ChaCha8. The code uses ChaCha20 and
  never clears its block buffer, so a byte is the XOR of all keystream blocks since the start of the call.
  `AgreeUnderEveryKey` gives the exact condition under which two calls agree.
* `service.go:283-285` says that a scrapped disk is never wiped again. `ScrapIsFinal` gives the exact condition, at the
  moment of scrapping: no live run on the disk still has a disk update ahead, no job of the disk is verifying (scrapping
  ends pending and running jobs only), and no re-verification of the disk is waiting or reading. Where it fails, the
  disk can come back, also by a run that starts later: the next instance takes up a verifying job.
* `worker.go:343-345` says that an asset moves on once all its disks are verified or scrapped. The disks are listed by
  one store call and the asset is moved by another. `EntersErasureVerified` says what holds at the listing, and exactly
  when it still holds at the move; `FailsBetweenListingAndMove` is a run in which it does not.
* `service.go:182-183` describes pulling disks as one change. It records disks before it has checked all inputs.
  `PullStopsHalfWay` and `CallKeepsBoundIff` say exactly when that happens and what it costs, and
  `HalfWayPullBreaksTerms` follows the damage to a job with other than the approved standard.
* `domain.go:236-238` promises a higher version with every submission. The version is read before it is written;
  `LateVersionIff` says that it is right if and only if nobody filed for the asset in between.

## Model

All source paths are relative to the root of the repository's sources.

| member | source | states |
|---|---|---|
| Domain.BuiltInStandards | decommission/internal/domain/standards.go:7-40 | every built-in standard numbers its passes by position, uses known patterns, and has full verification if its last pass is random |
| Domain.HistoryNeverReturns | decommission/internal/domain/domain.go:26-34 | along any legal history the lifecycle stage never drops, and a status that was left is never entered again |
| Keystream.StreamAt | decommission/internal/erasure/device.go:71-110 | fills exactly the first n bytes: with 0x00 for a zeros pass, 0xFF for a ones pass, else with the stream at that offset; an unknown pattern is an error, and an exhausted counter, on which the cipher panics, ends the process |
| Keystream.RandomAt | decommission/internal/erasure/device.go:83-106 | byte i is the XOR of one column over all keystream blocks from the block of the offset to the block of the byte |
| Keystream.Pad16 | decommission/internal/erasure/device.go:113-122 | column c of the key prefix is the XOR of every byte of the job id at a position congruent to c |
| Keystream.KeyCollision | decommission/internal/erasure/device.go:113-122 | two 32-byte job ids give one key prefix if and only if their folded halves agree at all 16 positions |
| Keystream.AgreeUnderEveryKey | decommission/internal/erasure/device.go:68-106 | two calls agree on a shared position under every key if and only if they start in the same 64-byte block |
| Keystream.SplitAgrees | decommission/internal/erasure/device.go:92-105 | under a given key, a call split at a later block yields the same byte if and only if the skipped blocks cancel out in its column |
| Keystream.GridFits | decommission/internal/erasure/device.go:92-94 | a chunk of a grid whose width divides 2^38 never runs the 32-bit counter past its end |
| CrashMachine.ChunkIsExpected | decommission/internal/erasure/engine.go:109-116 | from an aligned offset the engine writes what the chunk grid expects, byte for byte |
| CrashMachine.FreshImage | decommission/internal/erasure/engine.go:91-139 | an uninterrupted run leaves the final pass on the chunk grid at every byte |
| CrashMachine.LastPassShows | decommission/internal/erasure/engine.go:91-139 | at the end every byte of the device is 0x00, 0xFF, or the XOR of the keystream blocks from the start of its chunk, as the pattern of the last pass says |
| CrashMachine.ZeroStandards | decommission/internal/domain/standards.go:7-40 | three of the built-in standards leave nothing but zero bytes |
| CrashMachine.StepKeepsInv | decommission/internal/erasure/engine.go:91-188 | every action, stop, torn write and power loss keeps the resume invariant, in which a checkpoint at the end of a pass only bounds what the next pass may already have replaced |
| CrashMachine.RunInv | decommission/internal/erasure/engine.go:91-188 | that invariant holds in every state of every run, whatever earlier writes were not yet synced when the job began |
| CrashMachine.CrashRefinement | decommission/internal/erasure/engine.go:63-188 | whatever the schedule of stops and power losses, when overwriting is over the device equals one uninterrupted run from scratch, also after a further power loss |
| CrashMachine.EveryPassReachesEveryByte | decommission/internal/erasure/engine.go:93-137 | the passes written to a byte never go back, every earlier pass is durable everywhere before a pass begins, and at the end all are durable everywhere |
| CrashMachine.PowerLossReveals | decommission/internal/erasure/engine.go:122-132 | after a power loss a byte below the resume offset holds the resumed pass, any other holds it or what that pass found |
| CrashMachine.CheckpointSpacing | decommission/internal/erasure/engine.go:122-132 | consecutive checkpoints of a pass lie at least a step apart unless the pass ends, and less than a step plus a chunk |
| CrashMachine.BoundedLoss | decommission/internal/erasure/engine.go:102-133 | a lifetime cut short makes the next one write again at most a step plus a chunk minus one byte, in the same pass |
| CrashMachine.RowsOnGrid | decommission/internal/erasure/engine.go:154-181 | in full mode every checkpoint of every lifetime is a multiple of the chunk size or the device size |
| CrashMachine.CounterRange | decommission/internal/erasure/device.go:92-105 | no call of a pass exhausts the counter if and only if the device has at most 2^38 bytes or the chunk size divides 2^38 |
| CrashMachine.WritesStayInRange | decommission/internal/erasure/engine.go:105-119 | under that condition no write of any run, fresh or resumed, whole or torn, fails in the stream |
| CrashMachine.VerifyStaysInRange | decommission/internal/erasure/engine.go:146-169 | nor does a call of a full or sampled verification |
| CrashMachine.UninterruptedFinishes | decommission/internal/erasure/engine.go:91-139 | from every state in which a lifetime can begin, one that nothing interrupts finishes all passes |
| CrashMachine.ExpectedStreamRepeats | decommission/internal/erasure/device.go:92-94 | the expected stream of a pass then has period 2^38 |
| Sampling.Target | decommission/internal/erasure/engine.go:196-206 | the target is the asked-for fraction (1 percent by default) to the byte, but at least one window and at most the device |
| Sampling.SampleRanges | decommission/internal/erasure/engine.go:195-237 | for every outcome of the draws: head and tail present, every further span a whole window where the draw puts it, at most 4097 spans, target reached if and only if 4097 windows can, and by less than a window too much |
| Engine.Device.WriteAt | decommission/internal/erasure/device.go:48 | a failed write may leave any prefix of its data |
| Engine.Device.Sync | decommission/internal/erasure/device.go:51 | a successful fsync makes the present contents what a power loss leaves |
| Engine.ProgressSink.Report | decommission/internal/worker/worker.go:206-219 | a saved report becomes the checkpoint row, other jobs' rows stay, and only overwrite progress counts as wiped bytes |
| Engine.Overwrite | decommission/internal/erasure/engine.go:91-139 | started at the checkpoint, it performs a run of the crash machine on the device and the checkpoint row; it completes only when all passes are over, and does complete on a steady device in a calm run within the counter's range |
| Engine.OverwritePass | decommission/internal/erasure/engine.go:102-136 | one pass ends with the machine in the next pass, its last chunk checkpointed and the device synced |
| Engine.Checkpoint | decommission/internal/erasure/engine.go:122-132 | the row moves only after the data it vouches for was forced to the device |
| Engine.ReportVerify | decommission/internal/erasure/engine.go:176-181 | a report of the verify phase moves the row into the final pass, at an aligned offset |
| Engine.CountMismatches | decommission/internal/erasure/engine.go:239-247 | counts the positions of a chunk that differ from what the range expects there |
| Engine.DiffCountCounts | decommission/internal/erasure/engine.go:239-247 | the running count of differences over a range is the number of positions of the range that differ |
| Engine.VerifySpan | decommission/internal/erasure/engine.go:154-182 | over one range the chunk loop finds exactly the positions that differ |
| Engine.VerifyDevice | decommission/internal/erasure/engine.go:141-188 | bytes and mismatches are the sums over the ranges, overlaps counted once per range, and samples list exactly the ranges |
| Engine.Verify | decommission/internal/erasure/engine.go:40-55 | standalone verification gives the same exact result, saves nothing, and comes to a result on a steady device if it is not cancelled |
| Engine.VerifyDecides | decommission/internal/erasure/engine.go:141-188 | in full mode or sampled, the byte count is the number of pairs of a range and a position in it, the mismatch count the number of those at which the device differs from an uninterrupted run, zero if and only if every byte of every range is right |
| Engine.DefaultsStayInRange | decommission/internal/erasure/engine.go:63-69 | with the default chunk size no pass over a device of any size exhausts the counter |
| Engine.LeavesZeros | decommission/internal/erasure/engine.go:63-89 | after a completed run by one of three built-in standards a reliable device holds nothing but zero bytes |
| Engine.NothingDiffers | decommission/internal/erasure/engine.go:141-188 | on a device that holds the image of an uninterrupted run no range has a mismatch, in full mode or sampled |
| Engine.FullVerifyDecides | decommission/internal/erasure/engine.go:141-188 | full verification covers every byte, counts exactly the bytes that differ from an uninterrupted run, and finds none if and only if there are none |
| Engine.Device.HandOver | decommission/internal/erasure/device.go:35-51 | the next job on a device starts its own record of it and inherits every write that is not yet synced |
| Engine.NextJobCanStart | decommission/internal/worker/worker.go:193-203 | however an earlier job was cut short, the state it leaves is one from which the next job's guarantees hold |
| Engine.RunEngine | decommission/internal/erasure/engine.go:63-89 | a completed run has wiped a reliable device; on any device a full verification without mismatch proves that it was wiped, and a sampled one that every byte of its windows is right; on a steady device a calm run within the counter's range completes |
| MemoryStore.Memory.CreateAsset | decommission/internal/store/memory.go:51-70 | tags are unique; the new asset is logged |
| MemoryStore.Memory.TransitionAsset | decommission/internal/store/memory.go:116-133 | moves and logs an asset if the table allows it, else changes nothing |
| MemoryStore.Memory.UpdateDiskStatus | decommission/internal/store/memory.go:174-188 | sets any status of a known disk and logs it |
| MemoryStore.Memory.CreateJob | decommission/internal/store/memory.go:192-210 | stores and logs a job of a known disk; the disk is not touched |
| MemoryStore.Memory.AcquireNextJob | decommission/internal/store/memory.go:238-303 | claims nothing if and only if nothing is eligible; what it claims was eligible; the oldest pending job when there is no orphan, in whatever order the map is visited |
| MemoryStore.Memory.Reclaims | decommission/internal/store/memory.go:258-276 | decides the orphan condition: in flight, held by somebody else, and stale or at a start |
| MemoryStore.Memory.MarkJobRunning | decommission/internal/store/memory.go:305-323 | refreshes the lock time, keeps the owner |
| MemoryStore.Memory.SaveProgress | decommission/internal/store/memory.go:325-341 | writes job progress and checkpoint together, whoever calls |
| MemoryStore.Memory.CompleteJob | decommission/internal/store/memory.go:343-356 | sets the status and appends a run with the job's attempt number |
| MemoryStore.Memory.SaveCertificate | decommission/internal/store/memory.go:388-403 | never overwrites a certificate |
| MemoryStore.Memory.SaveDisposal | decommission/internal/store/memory.go:430-458 | signs once, together with the move to disposed |
| MemoryStore.Memory.GetActiveApproval | decommission/internal/store/memory.go:510-519 | finds an active request of the asset if there is one |
| MemoryStore.Memory.CreateApproval | decommission/internal/store/memory.go:472-498 | refuses a second active request |
| MemoryStore.Memory.ReviewApproval | decommission/internal/store/memory.go:534-559 | decides as the transition table allows and logs the verdict |
| MemoryStore.Memory.WithdrawApproval | decommission/internal/store/memory.go:561-585 | an approved request is withdrawn only while its asset is pending |
| CertNumber.Sanitize | decommission/internal/worker/worker.go:425-440 | keeps letters and digits, at most twelve, never an empty field |
| CertNumber.SanitizedIsFirst | decommission/internal/worker/worker.go:425-440 | a cleaned field is the first letters and digits of the text, in order, all of them up to twelve, or X if there is none |
| CertNumber.NumberParses | decommission/internal/worker/worker.go:417-423 | a printed number can be taken apart into its prefix, day, cleaned tag, cleaned last eight characters of the serial, and attempt with three digits or more and no needless zeros |
| CertNumber.NumbersCollide | decommission/internal/worker/worker.go:417-447 | two numbers are equal if and only if these four agree |
| History.OpKeepsSound | decommission/internal/store/memory.go:51-603 | every single store operation keeps: log replay, at most one active request, reviews by somebody else with a note on rejection, a disposal row exactly for disposed assets |
| History.EveryHistoryIsSound | decommission/internal/store/memory.go:51-603 | so all of that holds after any interleaving of operations |
| History.EveryHistoryGrows | decommission/internal/store/memory.go:388-603 | an earlier log is a prefix of every later one; certificates, disposal rows, runs and the terms of requests and jobs are never rewritten |
| ServiceCalls.Service.RegisterAsset | decommission/internal/service/service.go:33-49 | the checks and the effect, as one rule |
| ServiceCalls.Service.NextVersion | decommission/internal/service/service.go:94-101 | one more than the highest version of the asset's earlier requests |
| ServiceCalls.Service.SubmitApproval | decommission/internal/service/service.go:65-111 | only by the owner, only while pending, only with a known standard and route and no active request |
| ServiceCalls.Service.ReviewApproval | decommission/internal/service/service.go:116-138 | only pending requests, not by the applicant, a note with every rejection |
| ServiceCalls.Service.WithdrawApproval | decommission/internal/service/service.go:142-154 | only by the applicant |
| ServiceCalls.Service.ApprovedApproval | decommission/internal/service/service.go:158-170 | the gate: the active request exists and is approved |
| ServiceCalls.Service.PullDisks | decommission/internal/service/service.go:184-227 | records disks up to the first incomplete input, and moves the asset only if there is none |
| ServiceCalls.Service.CreateErasureJob | decommission/internal/service/service.go:232-281 | only with the approved standard; the attempt number counts the disk's earlier jobs |
| ServiceCalls.Service.ScrapDisk | decommission/internal/service/service.go:286-324 | scraps, ends the disk's pending and running jobs, and scraps its asset |
| ServiceCalls.Service.ConfirmDisposal | decommission/internal/service/service.go:336-380 | only the approved route, or destroy for a scrapped asset |
| CallEffects.RegisterEffect | decommission/internal/service/service.go:33-49 | accepted if and only if tag and operator are given and the tag is free; one pending asset more, and nothing else |
| CallEffects.SubmitEffect | decommission/internal/service/service.go:65-111 | accepted if and only if the asset is pending, the operator is its owner if it has one, standard and route are known, and every earlier request was rejected or withdrawn; one waiting request more, by these terms |
| CallEffects.ReviewEffect | decommission/internal/service/service.go:116-138 | accepted if and only if the request waits, the reviewer is somebody else, and a rejection has a note; the request is then approved or rejected as the reviewer said, with reviewer and note, and nothing else changes |
| CallEffects.WithdrawEffect | decommission/internal/service/service.go:142-154 | accepted if and only if the applicant asks, the request was not rejected, and an approved one is for a pending asset |
| CallEffects.PullAccepted | decommission/internal/service/service.go:184-227 | accepted if and only if the asset is pending, one of its requests is approved, and every input is complete |
| CallEffects.PullEffect | decommission/internal/service/service.go:198-227 | every disk is then on record as given, and the asset has moved on |
| CallEffects.HalfPullEffect | decommission/internal/service/service.go:203-219 | otherwise exactly the disks before the first incomplete input are on record |
| CallEffects.OrderAccepted | decommission/internal/service/service.go:232-258 | accepted if and only if the disk is pulled or failed and its asset has an approved request for this standard |
| CallEffects.OrderEffect | decommission/internal/service/service.go:259-281 | one pending job more, numbered by its predecessors; for a pulled disk of a pulled or erasing asset the asset is erasing afterwards, and the log says so |
| CallEffects.ScrapAccepted | decommission/internal/service/service.go:286-297 | accepted if and only if the disk is pulled or failed |
| CallEffects.ScrapEffect | decommission/internal/service/service.go:298-324 | the disk is scrapped, its asset too if it was pulled or erasing, each with its row, and apart from jobs nothing else changes |
| CallEffects.ScrapEndsJobs | decommission/internal/service/service.go:302-313 | of the jobs exactly the pending and running ones of this disk fail, each with one more run |
| CallEffects.ConfirmAccepted | decommission/internal/service/service.go:336-371 | accepted if and only if the asset is erasure verified or scrapped and an approved request has this route, or it was scrapped and is destroyed |
| CallEffects.ConfirmEffect | decommission/internal/service/service.go:372-380 | the row is signed and the asset disposed, and nothing else changes |
| Gate.ExactlyOneApproved | decommission/internal/service/service.go:156-170 | an asset past pending has exactly one active request, and it is approved |
| Gate.ScrappedHasRow | decommission/internal/service/service.go:319-322 | an asset that the log shows as scrapped has a scrap row |
| Gate.CallKeeps | decommission/internal/service/service.go:33-380 | every atomic service call keeps soundness and the gate, and the bound terms unless it is a pull that stops half-way |
| Gate.PullStopsHalfWay | decommission/internal/service/service.go:203-226 | a pull past the gate leaves disks on a pending asset if and only if the first input is complete and a later one is not |
| Gate.PullKeepsBound | decommission/internal/service/service.go:203-226 | a complete pull binds its disks to an asset past pending |
| Gate.ScrapKeepsBound | decommission/internal/service/service.go:298-323 | a scrapped disk forces its asset out of the erasure path in the same call |
| Gate.MoveAssetKeeps | decommission/internal/store/memory.go:116-133 | moves of an asset by workers keep the gate |
| Gate.ApprovalFrozen | decommission/internal/store/memory.go:561-585 | once execution has begun no service call changes the approved request |
| HalfWay.CallKeepsBoundIff | decommission/internal/service/service.go:203-226 | a call keeps the invariant behind the bound terms if and only if it is not a pull that stops half-way |
| HalfWay.HalfWayPullBreaksTerms | decommission/internal/service/service.go:203-226 | from every state with an approved pending asset five permitted calls, the first a pull that stops half-way, lead to a job with another than the approved standard |
| Interleaving.LatePullIff | decommission/internal/service/service.go:195-222 | whatever others did since a pull found its approved request, its last write keeps the gate if and only if that request is still approved, or one filed since is, or the asset is no longer pending |
| Interleaving.InterleavedPullEscapesGate | decommission/internal/service/service.go:195-222 | one withdrawal in between lets the asset leave pending without an approved request |
| Versions.VersionsAreExact | decommission/internal/service/service.go:94-106 | the versions of an asset's requests are exactly 1 to their number, each once |
| Versions.CallKeepsOrdered | decommission/internal/service/service.go:94-138 | every atomic call keeps that, the filing order, and that only the newest request can be active |
| Interleaving.FilingKeepsOrder | decommission/internal/service/service.go:94-107 | filing a request keeps the approval history if and only if its version is one more than the number filed |
| Interleaving.LateVersionIff | decommission/internal/service/service.go:94-107 | whatever others did since a submission read its version, filing keeps the history if and only if none of them filed for the asset |
| Interleaving.InterleavedVersionsRepeat | decommission/internal/service/service.go:94-107 | from every store two submissions that read one version are both stored when the first is withdrawn in between |
| Finality.CreateJobCalm | decommission/internal/service/service.go:259-268 | numbering a job by its predecessors keeps attempts of a disk distinct |
| Finality.SaveVerifiedStep | decommission/internal/worker/worker.go:262-263 | the first finalize call leaves a verified job with its checkpoint at the end |
| Finality.MarkVerifiedStep | decommission/internal/worker/worker.go:264-273 | the second marks the disk, which then has a verified job |
| Finality.RecordStep | decommission/internal/worker/worker.go:274-278 | the third records a clean run of a job whose disk was marked |
| Finality.CertifyStep | decommission/internal/worker/worker.go:346-388 | the last issues a certificate that rests on all of these, or meets a taken number and changes nothing |
| Finality.CertifiedMeansVerified | decommission/internal/worker/worker.go:262-281 | a certificate stands for a verified job |
| Finality.MoveKeepsFinal | decommission/internal/worker/worker.go:160-282 | every store call of a run keeps the whole chain, keeps the run in step with the store, and disturbs no other job |
| Finality.CallKeepsFinal | decommission/internal/service/service.go:33-380 | so does every service call, whatever runs are in progress |
| Upkeep.MoveKeeps | decommission/internal/worker/worker.go:160-407 | every store call of a run keeps the complete store invariant and the bound terms |
| Upkeep.CallKeepsAll | decommission/internal/service/service.go:33-380 | every service call keeps the complete store invariant |
| Upkeep.CallNeverEntersDone | decommission/internal/service/service.go:33-380 | no service call moves an asset to erasure verified or changes a disposal row |
| Upkeep.MoveEntersDone | decommission/internal/worker/worker.go:390-407 | a run changes an asset only in its last move, after its listing of the disks, and from erasing |
| SystemModel.MoveKeepsLease | decommission/internal/store/memory.go:305-356 | no call of a run lets go of its lock or lets its heartbeat go stale |
| SystemModel.LiveRunNotEligible | decommission/internal/store/memory.go:246-276 | a job with a live run is not eligible for any instance that may claim |
| SystemModel.StolenIff | decommission/internal/store/memory.go:258-276 | whatever the clock says, another instance can claim a live run's job if and only if it is starting or the heartbeat is over the timeout |
| SystemModel.LeaseLasts | decommission/internal/store/memory.go:258-276 | after a claim, a mark or a saved report, another instance that is not starting can take the job exactly when more than the timeout has passed since |
| SystemModel.SlotsAfterMove | decommission/internal/worker/worker.go:152-156 | a slot is given back exactly when its run is over |
| SystemModel.SlotsAfterDeath | decommission/internal/worker/worker.go:116-126 | the death of an instance leaves the counts of the others right |
| SystemModel.NextKeepsInv | decommission/internal/worker/worker.go:70-341 | every step of the whole system keeps store, lease and slot invariants |
| SystemModel.EveryStateKept | decommission/internal/worker/worker.go:70-341 | they hold in every reachable state, and the bound terms too while no pull has stopped half-way |
| Guarantees.OneRunPerJob | decommission/internal/worker/worker.go:128-158 | at most one live run per job, its instance holds the lock, and runs plus re-verifications never exceed the workers |
| Guarantees.ClaimIsExclusive | decommission/internal/store/memory.go:238-303 | a claimed job has no live run, is not finished, and is not the claimant's own; the claim locks it, starts it if it was pending, and else leaves it and its checkpoint where they were |
| Guarantees.VerifiedDiskIsEarned | decommission/internal/worker/worker.go:262-273 | a disk that counts as verified has a verified job with its checkpoint at the end of the last pass |
| Guarantees.CertificateIsEarned | decommission/internal/worker/worker.go:262-281 | a certificate implies a clean run with its byte count, a verified job, and a disk marked before it was issued, and names that job's attempt and operator |
| Guarantees.CertificatesOfOneDiskDiffer | decommission/internal/worker/worker.go:417-423 | two certificates of one disk are for different jobs and attempts |
| Guarantees.NumberIsFreeForItsDisk | decommission/internal/store/memory.go:388-395 | a run never finds its certificate number taken by an earlier certificate of its own disk |
| Guarantees.EntersErasureVerified | decommission/internal/worker/worker.go:390-407 | an asset becomes erasure verified only from erasing, by a run that had listed all its disks as done, with complete pulls as verified by jobs of their own; at the move all are still done if and only if the last status written to each since the listing is a done one |
| Guarantees.FailsBetweenListingAndMove | decommission/internal/worker/worker.go:390-407 | a re-verification between the two calls leaves an erasure verified asset with a failed disk |
| Guarantees.CertificateFollowsApproval | decommission/internal/service/service.go:250-258 | with complete pulls a certificate's standard is that of the one active request, approved by somebody else |
| Guarantees.JobFollowsApproval | decommission/internal/service/service.go:250-258 | with complete pulls so is every job's |
| Guarantees.DisposalFollowsApproval | decommission/internal/service/service.go:360-371 | disposed if and only if the row exists; its route is the approved one, or destroy after a scrap |
| Guarantees.LaterStates | decommission/internal/store/memory.go:388-603 | between any two moments the log only grows, certificates and disposal rows stay, assets only advance, and the approved request of a begun asset is frozen |
| Guarantees.LogTellsStatus | decommission/internal/store/memory.go:587-603 | replaying the log gives the status of every asset, disk and request |
| Guarantees.RequestHistory | decommission/internal/service/service.go:94-138 | in every reachable state requests are numbered 1 to k in filing order and only the newest can be active |
| Verdicts.RejectionIsFinal | decommission/internal/service/service.go:116-138 | after a review that rejects a request it is rejected in every later state, with that reviewer and note, and no lookup for a pull, an order or a disposal finds it |
| Verdicts.WithdrawalIsFinal | decommission/internal/service/service.go:142-154 | likewise after a withdrawal |
| Verdicts.ApprovedByReview | decommission/internal/service/service.go:116-138 | behind every approved request in every reachable state stands an approving review of it while it waited, by the reviewer on record, who is not the applicant |
| Verdicts.RequestsAreProper | decommission/internal/service/service.go:79-88 | in every reachable state every request names a built-in standard and a known route |
| Starts.OrderStartsErasing | decommission/internal/service/service.go:270-275 | the first job of a pulled disk takes the asset from pulled to erasing, with a row in the log |
| Starts.JobsAssetHasBegun | decommission/internal/service/service.go:232-281 | while no pull has stopped half-way, the asset of every job is being erased or has left erasing behind |
| Tags.TagsAreUnique | decommission/internal/store/memory.go:51-70 | in every reachable state no two assets share a tag, and registration refuses a tag exactly when an asset carries it |
| Lifecycle.GetsRun | decommission/internal/store/memory.go:238-303 | whatever else is waiting, a pending job can get its run |
| Lifecycle.RunWipes | decommission/internal/worker/worker.go:160-407 | a run can go from the claim to the end: its disk verified, certified under a number not yet taken, and its asset erasure verified if all its disks are done |
| Lifecycle.PulledAssetCanBeDisposed | decommission/internal/service/service.go:232-380 | from every reachable state an approved asset whose disks are pulled, failed or verified can be brought to disposal by the approved route, every disk wiped and newly certified |
| Lifecycle.NewAssetCanBeDisposed | decommission/internal/service/service.go:33-380 | from every reachable state, for every free tag, owner, standard, route, applicant the owner allows, other reviewer and number of disks, an asset can be registered, approved, pulled, wiped disk by disk, certified and disposed as asked |
| DiskHistory.StepWrites | decommission/internal/store/memory.go:174-188 | exactly which steps of the system write a disk's status, and which status |
| DiskHistory.StatusIsLastWritten | decommission/internal/store/memory.go:174-188 | over any stretch of a run a disk has the status last written to it, or keeps the one it had |
| Scrapping.RetiredStep | decommission/internal/service/service.go:286-324 | a scrapped disk with nothing under way stays so in every step: no run, job or re-verification of it can start again |
| Continuations.RunRevives | decommission/internal/worker/worker.go:184-273 | a live run with its disk update ahead can perform it on a scrapped disk |
| Continuations.VerifyingJobRevives | decommission/internal/store/memory.go:246-276 | a verifying job of a scrapped disk can be claimed by a new instance, whose run updates the disk |
| Continuations.WaitingCheckRevives | decommission/internal/worker/worker.go:289-341 | a re-verification that waits for a slot can get one and fail its disk |
| Continuations.RunEnds | decommission/internal/worker/worker.go:152-282 | every run can come to its end and give back its slot |
| Guarantees.ScrapIsFinal | decommission/internal/service/service.go:283-324 | a disk that is scrapped stays scrapped in every continuation if and only if, at the call, no live run on it has a disk update ahead, no job of it is verifying and no re-verification of it is waiting or reading |
| Guarantees.ScrappedDiskStays | decommission/internal/service/service.go:283-324 | the same for every scrap in every run from the empty store |
| WipeModel.NextKeepsWorld | decommission/internal/worker/worker.go:160-282 | every step of system and devices keeps store rows, live runs and crash machines in step with each other |
| WipeModel.MarkedRunCanBoot | decommission/internal/worker/worker.go:184-229 | when a run begins to work, no other engine is on its device |
| WipeModel.EveryCertificateRestsOnAWipedDevice | decommission/internal/worker/worker.go:174-281 | over every interleaving with deaths and power losses, a certificate's job has wiped its device durably, and a full verification's byte count is the device size |
| WipeModel.CertifiedDeviceIsZero | decommission/internal/worker/worker.go:174-281 | so a certificate by one of three built-in standards means that its device holds only zero bytes, also after a power loss |
| WipeModel.EveryVerifiedDiskIsWiped | decommission/internal/worker/worker.go:262-273 | so has a job of every disk that counts as verified |
| WorkerModel.Worker.FillSlots | decommission/internal/worker/worker.go:128-158 | claims different jobs, each then locked by this worker, never more than the free slots, and stops early only when nothing is eligible |
| WorkerModel.Worker.RunJob | decommission/internal/worker/worker.go:160-282 | its store calls are a path of the runner, its device actions continue the crash machine of earlier lifetimes, and it passes verification only on a wiped device; a refused or unavailable device fails the job, and a calm run on a steady device ends verified, or with job and disk failed if an unreliable device shows a difference |
| WorkerModel.Worker.Conclude | decommission/internal/worker/worker.go:232-282 | each outcome of the engine leads to the calls that belong to it, and in a calm run to all of them |
| WorkerModel.Worker.Interrupted | decommission/internal/worker/worker.go:233-248 | a cancelled run is recorded, another error fails the job; the checkpoint stays |
| WorkerModel.Worker.Mismatched | decommission/internal/worker/worker.go:249-259 | the job fails with its run, then the disk |
| WorkerModel.Worker.Finalize | decommission/internal/worker/worker.go:262-281 | the verdict is saved first, with the device size and the verified bytes |
| WorkerModel.Worker.MarkAndRecord | decommission/internal/worker/worker.go:264-281 | disk, run and certificate follow in this order, cut short anywhere |
| WorkerModel.Worker.Certificate | decommission/internal/worker/worker.go:346-388 | the certificate is stored under its number before the asset is looked at |
| WorkerModel.Worker.AllDone | decommission/internal/worker/worker.go:390-402 | decides whether every disk of the asset is verified or scrapped, in whatever order they are listed |
| WorkerModel.Worker.FinishRun | decommission/internal/worker/worker.go:390-407 | the listing first, then the move if all were done, as two steps of the runner |
| WorkerModel.Worker.FailJob | decommission/internal/worker/worker.go:409-414 | ends the job, keeps the checkpoint, does not touch the disk |
| WorkerModel.Worker.LastJob | decommission/internal/store/memory.go:222-233 | the newest job of a disk, if it has one |
| WorkerModel.Worker.Reverify | decommission/internal/worker/worker.go:289-341 | compares a verified or failed disk with what its newest job should have left, never writes the device, gives its slot back, fails the disk exactly when a difference was found, changes nothing else but the log, and is to the rest of the system the steps of a re-verification; left alone with a free slot and a steady device it comes to a result |
| Reverifications.CheckSteps | decommission/internal/worker/worker.go:289-341 | these steps lead from any state with a free slot to the store in which the disk has failed, if it has, and the rows are logged, with slots and runs as before |
| WorkerModel.VerdictBefore | decommission/internal/worker/worker.go:262-281 | past verification a run carries the byte count of an earlier saved verdict |
| WorkerModel.CertificateMeansWiped | decommission/internal/worker/worker.go:262-281 | a run that nobody interferes with and that stores a certificate has wiped its device, reliable or fully verified, or at least every byte of its windows, and the certificate's byte count is that of the verification |
| WorkerModel.RunKeepsStore | decommission/internal/worker/worker.go:160-282 | a run keeps the store invariant at every point where it can be cut short |
| Outcomes.MoveShows | decommission/internal/worker/worker.go:160-407 | how far an undisturbed run has come can be read off the rows of its job, its disk and its asset |
| WorkerModel.RunOutcome | decommission/internal/worker/worker.go:160-407 | and it ends in exactly one of these ways: refused; interrupted or failed with the disk still erasing; job and disk failed with a run that says so; verified without a certificate; verified and certified, with the asset moved on if all its disks are done |

## Left out

* PostgreSQL store and its claim query: SQL and transactions are outside the language; the in-process store is modelled. The query also treats a caller's own stale jobs differently.
* HTTP handlers, command line, configuration loading, logging, demo seeding: plumbing.
* S3 signing, file-system objects, JSON and HTML reports, digests: storing the report is a step that succeeds or fails.
* ChaCha20 itself: a keystream is any function from a counter to 64-byte blocks.
* Float rounding in the sample target: taken over the reals.
* Short reads, and devices that change size during a run.
* Listing, filtering, pagination, sort order of listings: they add no property.
* Fields that no rule looks at: names, models, times of events, detail texts. Actions and statuses are datatypes where the source has strings; text is a sequence of bytes.
* The verification mode of a run that ended before verification is empty in the source and shown as full.
* Progress after a failed job, or after a crash between two finalize calls: the code leaves such disks erasing, and by `OrderAccepted` and `ScrapAccepted` no call takes them up. `PulledAssetCanBeDisposed` is for assets without such a disk.
- Overwrite: requires a progress callback; the source also accepts none.
- Reverify: the method gives up when no slot is free; the wait is part of the state machine in `System.dfy`.
- Draw: a draw is an arbitrary number reduced to its range, not the generator's own sequence.
- RunJob: a run that is killed may stop after any of its calls; the contract then says only what it has done so far.

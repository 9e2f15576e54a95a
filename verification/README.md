# Compute Relay: a verified model of its state machines

Compute Relay runs jobs on providers it does not control. A response may be lost at any moment, and
losing one must not cost a second run: recovery looks at what was started and starts nothing. This
project models the code behind that rule, and the other state machines beside it, and proves what
holds of every run.

## What is modelled

**Dispatch.** `AttemptState` holds the six state dimensions with their transition graphs, `Journal` the
durable dispatch journal and its validity, `Dispatch` the transition function `Apply` with its fourteen
action kinds. `Engine.Session` is one pass of a worker: commits and provider calls in order, with the
repository's and provider's answers given in advance. `DispatchRun` runs any number of workers that
commit, lose acknowledgements, call, crash, while the operator, cancellation and publication act; a run
is an arbitrary list of events and an event that is not enabled changes nothing. `Fleet` puts the two
together: logs of sessions interleave step by step against that store, which acknowledges only what it
committed, and a call counts because a worker makes it. `DispatchSafety` proves the step invariants.
`DispatchMeaning` gives a second account of `Apply`, by what is changed instead of by action, and shows that it
leaves nothing open; `DispatchAcceptance` says exactly when an action is accepted. `DispatchHistory` is about
the list of accepted commits, `DispatchEvidence` about where each piece of evidence in a journal comes from.
`Job` is the growing list of attempts of one job, and `JobFleet` that job with sessions at work on every
attempt. `Rejection` is one run, `Completion` a family of them that ends in published results.

**Cleanup.** `Cleanup` is one worker's sweep over a claimed ledger of any length, as an automaton and as
the loop that follows it; `CleanupRun` lets workers overtake each other under fenced leases.
`StorageCleanup` is the one-target sibling.

**Blobs.** `Blobs` is the store as a state machine with crashes that lose unsynced data; `BlobStore.Store`
is the object whose methods take exactly those steps, `Put`, `Delete` and `Recover` among them.

**Fast forms against simple ones.** `PathSets` (incremental index against a pairwise rule), `Collisions`
(sort and look back against all pairs), `Ignore` (table against recursive `**`), `Packaging` (pruned walk
against the full tree), `Limiter` (evicting against never-evicting), `Health` and `HealthService`
(120 newest rows against the whole history).

**Round trips and fixpoints.** `Bundle` (writer and inspector of the ustar stream), `Encodings` and
`Vault` (the vault file), `Snapshots` (building and re-validating a collected result), `SnapshotContents`
(the one snapshot a manifest and a listing determine).

`Optional`, `Pairwise`, `Sums`, `Sorting` and `Names` are shared vocabulary. Every lemma turns automatic induction
off, so each induction is written out where it happens.

Modelling choices:
- Times are integers in nanoseconds (seconds as reals in `Limiter`); rates, temperatures and charges are reals.
- SHA-256 digests, derived object names, JSON documents, tar header blocks, gzip streams and shell patterns of
  one component are parameters, or injective tags, of which only the round-trip facts named in the contracts
  are assumed.
- Case folding is ASCII, which is what the validated path alphabets contain.
- What the SQL store does between journal commits (cancellation requests, collection claims, scheduling,
  expiry) is one relation, `DispatchSafety.Control`, that allows every such movement and more.

Where the code and a natural reading of it disagree, the model follows the code:
- A definite rejection is refused when a stop was already invoked or left to the operator
  (`RejectionRecordedExactlyWhen`, with the run `RejectionRefused`).
- Giving up a local attempt while a stop is requested, and recording an uncertain start without a resource name
  while an inventory absence is being timed, are drafted and then refused (`AcceptedExactlyWhen`: its
  `StatePasses` and `JournalPasses` are these conditions and the missing graph edges).
- A cleanup operation whose resources are all confirmed is still reported failed when the store closes it as no
  longer eligible before a worker finishes it (`OutcomeIsTheLedgers`, with the instance `ConfirmedYetIneligible`).
- The storage sibling keeps a recovered verdict as the adapter gave it, so a recovered target ends retained exactly
  when the adapter answers so (`RecoveredEndsAsAnswered` and `RecoveredIsNotRetained`, with the instance
  `RetainedAfterRecovery`).

## Model

| member | source | states |
|---|---|---|
| AttemptState.TerminalIsFinal | internal/domain/transition.go:6-41 | along a legal transition a terminal orchestration or execution never changes, terminal execution means inactive compute, and a terminal orchestration has no unresolved activity |
| AttemptState.FinalStateMeaning | internal/collection/model.go:176-206 | publication keeps execution, cancellation, activity and release; of an attempt nobody effectively stopped it makes succeeded exactly for succeeded execution of a completed runner, failed exactly for failed execution or an uncompleted runner, timed out for timed out; cancelled exactly for a confirmed stop; anything else goes to the operator |
| AttemptState.PublishedExactly | internal/collection/model.go:176-180 | results are published of a finished execution whose results are being collected, and of nothing else |
| AttemptState.FinalStateLegality | internal/collection/model.go:176-206 | publication is a legal transition exactly when it does not take a reconciling attempt to succeeded |
| AttemptState.PublicationIsLegal | internal/store/sqlite/collection.go:245-302 | publication from a collecting attempt, or one put aside for attention, is always possible and legal |
| DispatchSafety.StepKeeps | internal/dispatch/transition.go:15-475 | for all action kinds: evidence is written once, journal and state still fit each other, no success is invented, and absence times, owner claims and observations come only from the actions that carry them |
| DispatchSafety.ApplyIsLawful | internal/dispatch/transition.go:15-485 | every accepted action keeps the joint invariant of journal and state, moves the state along a legal transition, counts one version, rewrites no evidence, and turns an intent durable only by its own begin action; which evidence it writes is ApplyMeans |
| DispatchMeaning.ApplyMeans | internal/dispatch/transition.go:15-537 | of every journal and state: where each piece of evidence, clock, name and first doubt comes from, how the failure count and the phase move, what the shown problem says, and what becomes of each dimension of the state; so an accepted submission leaves exactly its own remote and submitted, a rejected one rejected, an unknown one phase and remote as they were |
| DispatchMeaning.LawsDetermine | internal/dispatch/transition.go:15-537 | these laws leave one journal and one state for every journal, state and action |
| DispatchAcceptance.AcceptedExactlyWhen | internal/dispatch/transition.go:15-485 | an action is accepted if and only if it is due in that phase, the orchestration and cancellation graphs have the edge it asks for, and the plan, authorization or name it brings is sound |
| DispatchSafety.BeginsOnce | internal/dispatch/transition.go:124-209 | an intent becomes durable by its begin action and no other, and a begin action commits only while its intent is not yet durable |
| DispatchSafety.FrozenRefusesEveryAction | internal/dispatch/transition.go:15-485 | rejected, failed, prevented, collectible and proven-absent attention journals refuse all actions |
| DispatchSafety.ApplyFollowsPhases | internal/dispatch/transition.go:15-485 | the journal phase moves only along the recovery graph |
| DispatchSafety.RejectionRecordedExactlyWhen | internal/dispatch/transition.go:210-295 | a resolved rejection is committed if and only if cancellation is not requested or only requested |
| Rejection.RejectionRefused | internal/store/sqlite/operations_actions.go:194-207 | a concrete feasible run of sessions to a stop left to the operator, after which the owner's "never submitted", naming the recorded resource as the store demands, is drafted as a rejection and refused |
| DispatchSafety.ControlKeepsJoint | internal/store/sqlite/operations_actions.go:19-48 | state changes made outside the journal keep the joint invariant |
| DispatchSafety.PublicationKeepsJoint | internal/collection/model.go:176-206 | publication keeps the joint invariant |
| Engine.Session.CommitAction | internal/dispatch/engine.go:542-563 | a commit reaches the store unless it begins work during shutdown, succeeds exactly when it does so and is acknowledged, and only then changes the session, to the acknowledged journal |
| Engine.Session.PrepareLocal | internal/dispatch/engine.go:250-305 | Prepare is called exactly when every check passes and this worker's own preparation intent was acknowledged; otherwise the one report is exactly the one the failed check calls for |
| Engine.Session.Submit | internal/dispatch/engine.go:343-403 | Start is called exactly when gate, secrets, revalidation and guard pass and this worker's own start intent was acknowledged; it is then always recorded, as unknown unless the outcome fits the staged identity; otherwise the one report is the failed check's |
| Engine.Session.CancelOnce | internal/dispatch/cancellation.go:49-72 | Cancel is called exactly once for an acknowledged stop intent on a submitted, recorded remote, and its answer is what is reported |
| Engine.Session.ObserveStaging | internal/dispatch/engine.go:306-342 | the one commit is exactly the answer's: a preparation that fits the plan, a mismatch, its failure under its own code, or the end of the grace, longer where nothing answered |
| Engine.Session.ReconcileSubmission | internal/dispatch/engine.go:404-423 | an uncertain submission is only looked up, and the one commit is exactly the answer's: accepted on the remote found, absent on an inventory no owner contradicts, unknown on a contradicted one or on no answer, mismatch on a foreign one, and a failure under its own code or else as unknown |
| Engine.Session.ObserveRemote | internal/dispatch/engine.go:424-441 | the one commit is exactly the answer's: a valid observation, a proven absence, a mismatch, or a failure under its own code |
| Engine.Session.EndUnconfirmed | internal/dispatch/engine.go:656-682 | one commit unless interrupted or a local fault: the end exactly when the grace, or the longer limit if unanswered, is over, and otherwise a staging fault with its cause |
| Engine.Session.Refuse | internal/dispatch/engine.go:478-493 | a refusal is committed exactly when the journal does not show it yet, and is what the pass fails with unless that commit failed for more than a changed policy |
| Engine.Session.Process | internal/dispatch/engine.go:143-445 | the exact condition for each provider mutation in a pass, each directly after this worker's acknowledged intent; an overdue attempt is expired; in every phase the commit made is exactly the one the answers call for, with its code, reason and evidence |
| Engine.PermanentFaultsAreEarned | internal/dispatch/engine.go:306-441 | a pass that only observes commits a permanent fault only where the provider showed something foreign or itself failed with a permanent code: silence, lateness and an empty lookup never do |
| DispatchRun.AtMostOneCallEach | internal/dispatch/engine.go:279-403 | in the store's account, over every run, each of Prepare, Start and Cancel is made under a permit at most once, and only after the durable journal or operation says so |
| DispatchRun.RunKeeps | internal/dispatch/transition.go:15-485 | the joint invariant and the one-permit invariant hold in every reachable state |
| Fleet.AtMostOneCallEver | internal/dispatch/engine.go:143-445 | however any number of sessions interleave, crash, restart and lose acknowledgements, Prepare, Start and Cancel are called at most once each in all, every call counted whatever the store holds, and by then the store says so |
| Fleet.IntentComesFirst | internal/dispatch/engine.go:279-403 | at the moment of each call its intent is already durable |
| Fleet.PartOfASession | internal/dispatch/engine.go:143-445 | a session cut short at any point is as disciplined as the whole of it, so every prefix of a pass is a log these runs admit |
| DispatchHistory.EvidenceIsWriteOnce | internal/dispatch/transition.go:136-386 | between any two points of a run plan, preparation, remote, authorization, submission problem and staged resource never change once set, observation times grow, finished attempts stay finished |
| DispatchHistory.InventoryAbsenceIsJustified | internal/dispatch/transition.go:210-241 | an inventory absence resolves a submission only a full grace after one was recorded in the same run, with no owner claim of presence before |
| DispatchHistory.NoFalseSuccess | internal/collection/model.go:176-206 | a succeeded attempt has an accepted succeeded observation of its one remote, a completed publication, and no effective cancellation |
| DispatchHistory.VersionCountsCommits | internal/dispatch/transition.go:480-480 | the journal version is the number of accepted commits |
| DispatchEvidence.EvidenceIsTraced | internal/dispatch/transition.go:124-378 | along every run the plan and its identifier, the preparation, the authorization, the remote and the observation in the journal are exactly what an accepted commit of that run carried |
| DispatchEvidence.ReachableAcceptance | internal/dispatch/transition.go:15-485 | in every reachable state every action is accepted exactly when it is due and its edges exist |
| DispatchEvidence.RecordedExactlyWhen | internal/dispatch/engine.go:542-563 | over every run a commit is recorded, once and as asked, exactly when it is due, its edges exist and it comes from whom it may; otherwise nothing changes |
| DispatchEvidence.DoubtIsOnlyObserved | internal/dispatch/engine.go:404-423 | in every reachable state with a start in doubt, a pass that is shown nothing foreign takes the attempt to submitted only on the remote it found, to rejected only on an inventory past its grace, and aside only as the fifth trouble in a row |
| Completion.AttemptsComplete | internal/dispatch/engine.go:143-445 | for all sound evidence, stopped or not, there is a feasible run of sessions with one Prepare, one Start and one Cancel exactly if a stop was asked for, which records that remote and that ending and whose published results are what execution, stop and runner make of it |
| Job.RetryExactlyWhenClosed | internal/operations/model.go:239-256 | in every state of a run an attempt may be retried if and only if it is closed: finished, not successful compute, remote work accounted for, and its journal refusing every action |
| Job.RefusedRetryMeans | internal/operations/model.go:239-256 | a refused retry says collect instead exactly for succeeded compute, and unresolved otherwise |
| Job.RetryAddsOne | internal/store/sqlite/operations_admission.go:336-402 | over every run of a job a retry adds exactly one fresh attempt when the newest is closed, and none otherwise |
| Job.ClosedStays | internal/dispatch/transition.go:15-485 | a closed attempt stays closed with the same journal under every later event |
| Job.AtMostOneUnresolved | internal/operations/model.go:239-256 | over every run of a job at most one attempt, the newest, has unresolved remote activity |
| Job.SuccessEndsTheJob | internal/operations/model.go:239-256 | after succeeded compute no further attempt is ever created |
| Job.SupersededJournalIsFrozen | internal/store/sqlite/operations_admission.go:336-402 | a superseded attempt keeps its journal for good |
| JobFleet.OneCallPerAttempt | internal/dispatch/engine.go:143-445 | in every run of a job whose attempts are worked on by interleaving sessions, each call is made at most once per attempt, and Start only where that attempt's journal says so |
| JobFleet.StartsComeInOrder | internal/operations/model.go:239-256 | whenever Start is called on an attempt, its intent is durable, it is that attempt's first start, and every earlier attempt of the job is closed |
| JobFleet.SitesAreTheJob | internal/store/sqlite/operations_admission.go:336-402 | the stores of such a job are exactly the attempts of the job model, so all its theorems hold of them |
| Cleanup.CallVerdict | internal/cleanup/resource_engine.go:160-216 | deletion or absence exactly from one clean flag, retained exactly from a refusal and failed exactly from denied access without contradictory evidence, nothing exactly from a fault of the worker itself, and unknown otherwise |
| Cleanup.Inspect | internal/cleanup/resource_engine.go:122-158 | cleared exactly when described and verified, aborted exactly when the worker's own state failed |
| Cleanup.ActsOnlyWhenClear | internal/cleanup/resource_engine.go:39-99 | in every sweep an intent or call for an item happens only if it was open, described, verified and before the deadline, with every earlier item confirmed, a call only under its acknowledged intent and recover-only exactly when it was running |
| Cleanup.ResultsAreEarned | internal/cleanup/resource_engine.go:39-119 | in every sweep settled items stay, an acted-on item ends as its call says, every other ends retained, and of one that was running only a confirmation is believed |
| Cleanup.Decide | internal/cleanup/resource_engine.go:49-99 | one item does exactly the deeds its answers call for, calls only after its own acknowledged intent, and decides unless disturbed; what each item ends as is ResultsAreEarned |
| Cleanup.ApplyResources | internal/cleanup/resource_engine.go:12-120 | the sweep obeys the automaton throughout, finishes unless disturbed, and reports the ledger's aggregate with its first unconfirmed item; by ActsOnlyWhenClear and ResultsAreEarned that fixes every deed and result |
| CleanupRun.CleanupIsSafe | internal/cleanup/resource_engine.go:39-119 | over every run with crashes and takeovers: one destructive call per resource, none while an earlier one is durably unconfirmed or before its own intent, and a recovered running resource ends deleted, absent or unknown |
| CleanupRun.OutcomeIsTheLedgers | internal/store/sqlite/cleanup_work.go:140-245 | a closed operation succeeds exactly when all are confirmed and it was not closed as ineligible, and says already absent exactly when, besides, all are absent |
| CleanupRun.ConfirmedYetIneligible | internal/store/sqlite/cleanup_work.go:140-170 | a run in which every resource is confirmed and the operation is reported failed |
| CleanupRun.LiveWorkerIsNeverRefused | internal/store/sqlite/cleanup_resources.go:129-204 | the store's row and aggregate guards never refuse the worker that holds the lease |
| CleanupRun.SweepFinishes | internal/cleanup/resource_engine.go:12-120 | from any point of any run, a worker that claims an open operation and completes a sweep finishes it with its results as rows and their aggregate as outcome |
| CleanupRun.ClosingIsHonest | internal/store/sqlite/cleanup_work.go:140-170 | closing an open operation as ineligible keeps settled rows, makes a row unknown exactly where an intent was stored and retained exactly where none was, and never calls retained what may have been deleted |
| CleanupRun.LostIntentIsRecovered | internal/store/sqlite/cleanup_resources.go:129-204 | from any point of any run, an intent stored without its worker being told is found running by the next claim and from then on only recovered |
| CleanupRun.RunMovesOn | internal/store/sqlite/cleanup_resources.go:129-204 | settled rows, closed operations and the record of calls are final along every run |
| StorageCleanup.Worker.Decide | internal/cleanup/storage_engine.go:127-167 | a started deletion is only observed; a fresh one is observed, then begun, then deleted; undisturbed it decides as the answers say |
| StorageCleanup.Worker.RunOnce | internal/cleanup/storage_engine.go:79-183 | one pass obeys the automaton and its answers; undisturbed it defers exactly a started deletion it cannot reach, and otherwise ends the target as the adapter answers, unknown if that fails, absent when seen so, and retained in all other cases |
| StorageCleanup.StorageCleanupIsSafe | internal/store/sqlite/storage_cleanup_work.go:37-233 | over every run at most one destructive call, only under a durable intent; a recovered target closes only as a recover-only call reported |
| StorageCleanup.RecoveredIsNotRetained | internal/cleanup/storage_engine.go:129-183 | without a retained answer to a recover-only call a recovered target ends deleted, absent or unknown |
| StorageCleanup.RecoveredEndsAsAnswered | internal/cleanup/storage_engine.go:129-183 | wherever the lease holder of a recovered target stands ready, over all runs, the row ends as the recover-only call answers, hence retained exactly when the adapter says retained |
| StorageCleanup.RetainedAfterRecovery | internal/cleanup/storage_engine.go:129-183 | a run in which a recovered target ends retained |
| StorageCleanup.PassFinishes | internal/store/sqlite/storage_cleanup_work.go:37-233 | from any point of any run, a worker that claims an open operation and comes to a verdict closes it with that verdict |
| Blobs.CountersAreSums | internal/blobfs/store.go:151-354 | over every interleaving the counters equal the sums over published and staged objects and stay within the limits |
| Blobs.VisibleIsComplete | internal/blobfs/store.go:225-271 | every visible object is exactly what its metadata describe at every step, crashes included |
| Blobs.RecoveryAgrees | internal/blobfs/store.go:484-542 | after a crash anywhere, recovery succeeds with counters equal to the published set |
| Blobs.RecoveryIsReached | internal/blobfs/store.go:484-542 | after a crash anywhere the leftovers can be removed one by one in any order, and the store then opens on exactly the published set |
| Blobs.ObjectsAreImmutable | internal/blobfs/store.go:253-266 | no event replaces or alters a visible object; only its own retirement removes it |
| BlobStore.Store.Put | internal/blobfs/store.go:151-273 | succeeds exactly under the stated conditions with the complete object under a free name; otherwise nothing changes, or a leftover stays counted, or the published object is kept |
| BlobStore.Store.WriteChunk | internal/blobfs/store.go:328-354 | a chunk is written exactly when object, total and free-space bounds allow; partial writes are counted |
| BlobStore.Store.BeginPut | internal/blobfs/store.go:164-194 | a slot is taken exactly when count, declared size and free headroom allow |
| BlobStore.Store.Discard | internal/blobfs/store.go:197-210 | an abandoned upload is uncounted exactly when its directory is gone |
| BlobStore.Store.CountPublished | internal/blobfs/store.go:519-540 | succeeds exactly when every object is plausible and all fit the limits, with exact counters |
| BlobStore.Store.Recover | internal/blobfs/store.go:484-542 | recovery succeeds exactly when the leftovers of uploads and of retirements can be removed and the published set is recoverable |
| BlobStore.Store.Delete | internal/blobfs/delete.go:24-148 | only a whole, verified object is retired; success leaves nothing under either name; repeating after a failed removal finishes it |
| PathSets.PathSet.Add | internal/packaging/types.go:97-124 | a name is accepted exactly when admissible and compatible with all accepted names |
| PathSets.AcceptAll | internal/packaging/types.go:89-124 | a list is accepted exactly when all names are admissible and pairwise compatible |
| PathSets.OrderIsIrrelevant | internal/packaging/types.go:89-124 | acceptance does not depend on the order of the names |
| PathSets.DisjointRunnerPaths | internal/dispatch/inputs.go:303-324 | the runner's check decides the same pairwise rule |
| Collisions.Overlaps | internal/admission/spec.go:276-285 | finds an overlap exactly when some listed path overlaps |
| Collisions.CollisionFree | internal/collection/manifest.go:37-69 | accepts exactly the lists of safe printable paths of which no two overlap |
| Ignore.MatchParts | internal/packaging/ignore.go:85-111 | the table decides whether the whole pattern matches some prefix of the components |
| Ignore.AppendAny | internal/packaging/ignore.go:91-95 | one more `**` matches exactly when a shorter stretch already matched |
| Ignore.AppendOne | internal/packaging/ignore.go:96-101 | one more ordinary token takes exactly the last component |
| Ignore.IsExcluded | internal/packaging/source.go:43-53 | decides exclusion by private names, rules and host directories |
| Ignore.ExclusionIsInherited | internal/packaging/ignore.go:67-111 | whatever excludes a directory excludes everything below it |
| Packaging.PrunedIsEmpty | internal/packaging/source.go:129-132 | pruning an excluded directory drops no file the policy keeps |
| Packaging.AllFilesMean | internal/packaging/source.go:117-190 | what a walk may carry is exactly what lies in the tree, path, content and mode, with its true size and digest |
| Packaging.Walker.Screen | internal/packaging/source.go:118-136 | an entry is refused exactly when the walk no longer fits with it, and pruned exactly when it is excluded |
| Packaging.Walker.TakeFile | internal/packaging/source.go:171-189 | a file is taken exactly when the bundle still fits with it |
| Packaging.Walker.WalkInclude | internal/packaging/source.go:191-197 | an include is screened before it is opened, so a missing one is an error exactly when it is not excluded |
| Packaging.Walker.Walk | internal/packaging/source.go:117-190 | a walk completes exactly when every entry it looks at and every file it takes stays within the limits, and has then taken exactly the non-excluded files of the full subtree, contents included, in order |
| Packaging.Prepare | internal/packaging/source.go:105-216 | a plan is made exactly for a preparable selection, and holds exactly the non-excluded files of the included subtrees, once each, ascending and within every limit |
| Bundle.Write | internal/packaging/archive.go:27-67 | emits exactly the framed stream, and reports it exactly when it fits the compressed limit |
| Bundle.BoundReader.ReadFull | internal/packaging/types.go:128-153 | reads all bytes asked for exactly when both data and bound suffice |
| Bundle.NextHeader | internal/packaging/archive.go:199-224 | distinguishes a header block, two zero blocks, and anything else |
| Bundle.ReadMembers | internal/packaging/archive.go:143-186 | accepts exactly the well-framed members and end; the expanded bound never cuts them short |
| Bundle.CheckManifest | internal/packaging/archive.go:127-142 | accepts exactly the manifests whose files satisfy the pairwise and ordering rules and bounds |
| Bundle.Inspect | internal/packaging/archive.go:72-198 | returns exactly the report of a well-formed bundle, and nothing for any other bytes |
| Bundle.WrittenIsABundle | internal/packaging/archive.go:27-67 | the stream written from a prepared plan carries that plan's manifest |
| Bundle.WrittenIsInspected | internal/packaging/archive.go:27-198 | inspecting a written bundle gives the writer's own report |
| Limiter.KeyedLimiter.Allow | internal/api/limit.go:37-65 | one call makes exactly the step of the bounded limiter |
| Limiter.KeyedLimiter.EvictIdle | internal/api/limit.go:43-47 | exactly the buckets idle past the refill time are dropped |
| Limiter.EvictionIsUnobservable | internal/api/limit.go:37-65 | over every ordered run the answers are those of a never-evicting limiter that is not charged for refusals for lack of room |
| Limiter.WindowBound | internal/api/limit.go:54-64 | from any request on, a key is allowed at most the burst plus the refill of the elapsed time |
| Limiter.RefusalIsEarned | internal/api/limit.go:54-64 | that bound is attained: a key refused for its rate was, since some earlier request, allowed more than the burst less one plus the refill |
| Limiter.CallDecides | internal/api/limit.go:37-64 | there is no room exactly when the key is new and live keys fill the limiter; otherwise a call is allowed exactly when the key has a token |
| Limiter.WaitIsExact | internal/api/limit.go:58-61 | a refused key is allowed after a whole number of seconds exactly when that is at least the returned wait |
| Health.Assess | internal/hosthealth/guard.go:122-175 | each level exactly from its readings: critical on confirmed low battery or a critical metric, warning and fine only with core readings known, unknown without, unsupported by platform; stops alone on low battery, and refuses new work unless fine or unsupported |
| Health.Evaluate | internal/hosthealth/guard.go:67-121 | stops exactly on low battery or a measured unbroken critical chain of the policy's duration, refuses new work as the newest row does, and dates the danger by the oldest row of the longest chain |
| Health.TruncationIsHarmless | internal/hosthealth/policy.go:12-14 | on rows a demand-cache apart the newest 120 decide as the full history does |
| HealthService.Service.TryBegin | internal/hosthealth/service.go:101-133 | waits, uses the cache or becomes the one prober exactly by the gate, and forgets only idle other machines |
| HealthService.Service.End | internal/hosthealth/service.go:135-176 | records the trusted row and publishes continuity, leaving other machines alone |
| HealthService.ProbesAreSingleAndSpaced | internal/hosthealth/service.go:93-181 | over every run one probe is in flight and recorded rows are a demand-cache apart |
| HealthService.CurrentExactly | internal/hosthealth/service.go:203-250 | over every run a view is current exactly when this process's latest probe confirmed its row and that is not stale; it then shows that row, and a window that opens where the unbroken streak of confirmed probes began |
| HealthService.ForgettingIsUnobservable | internal/hosthealth/service.go:126-132 | dropping an idle machine changes no view, no gate and no later continuity |
| HealthService.StopIsExact | internal/hosthealth/service.go:203-250 | over every run the stop decision on the cached view equals the one on the whole history in the re-observed window |
| Encodings.DecodeEncode | internal/credentials/file.go:191-223 | strict base 64 decoding undoes encoding |
| Encodings.EncodeDecode | internal/credentials/file.go:191-195 | whatever the strict decoder accepts is the encoding of its result |
| Encodings.UnhexHex | internal/credentials/file.go:184-221 | base 16 decoding undoes encoding |
| Vault.DecodeFile | internal/credentials/file.go:163-201 | reads exactly the entries its lines spell, refusing anything malformed, repeated or past the entry limit |
| Vault.EncodeFile | internal/credentials/file.go:203-226 | writes the entries in ascending key order, refuses exactly past the entry or size limit, and what it writes reads back as the same map |
| Vault.OneFileEach | internal/credentials/file.go:203-226 | equal maps give equal files, byte for byte |
| Vault.WrittenReadsBack | internal/credentials/file.go:163-226 | for every valid map, in any key order, the written file decodes to that map |
| Vault.ParsedIsWritten | internal/credentials/file.go:163-201 | an accepted text is the writer's own lines, up to their order |
| Snapshots.BuildSnapshot | internal/collection/manifest.go:73-189 | returns exactly the snapshot a listing supports, which BuiltExactly and RefusedExactly describe |
| SnapshotContents.BuiltExactly | internal/collection/manifest.go:73-189 | a snapshot is returned if and only if it holds the manifest as read, each declared artifact once under its output path with declared size, digest and media type, each listed control file within its size bound, nothing else, identities and workspace from listing and work, ascending, and within the limits |
| SnapshotContents.OneSnapshotEach | internal/collection/manifest.go:73-189 | a manifest and a listing leave room for one such snapshot |
| SnapshotContents.SuppliedExactly | internal/collection/manifest.go:97-183 | there is one exactly when manifest and declared artifacts are listed unchanged and no control file is too large |
| SnapshotContents.RefusedExactly | internal/collection/manifest.go:73-189 | nothing is returned exactly for inputs that are no attempt's, a listing that lacks or contradicts what the manifest promises, or a snapshot over a limit |
| Snapshots.TallyOutputs | internal/collection/manifest.go:125-146 | every artifact belongs to a declared output and fits it, with exact sizes and counts |
| Snapshots.DeclaresMeans | internal/collection/manifest.go:125-146 | fitting one by one is all belonging somewhere and no bounded output overfull |
| Snapshots.RequiredMeans | internal/collection/manifest.go:158-166 | a completed run is accepted exactly with an artifact for every required output |
| Snapshots.ValidateSnapshot | internal/collection/manifest.go:193-209 | accepts exactly the snapshots whose objects are properly described and whose own files rebuild them |
| Snapshots.BuiltIsBelieved | internal/collection/manifest.go:73-209 | every snapshot built for a valid work from any listing under any valid limits is later accepted |

## Left out

- HTTP handlers, routing, CLI, authentication and tokens: branch-level plumbing.
- Scheduler selection, worker heartbeats, the poll backoff between passes, lease renewal: leases appear only as generations that fence stale workers.
- Problem messages, recommended text and public details beyond the reason, cause, resource name and the two timestamps that transitions read.
- Provider adapters, host metric parsing, host image normalisation, secret scanning, keychains: foreign or text-level code.
- Reordering of directory operations by a crash: renames are atomic and take effect in order; only unsynced file data is lost.
- Unicode case folding, which can change a string's length, is not modelled; paths are ASCII.
- Floating-point rounding in the limiter and in health readings.
- A wall clock that runs backwards, in `Limiter` and `HealthService`.
- CleanupRun.CleanupIsSafe: speaks of one cleanup operation; a later operation for the same attempt starts from new rows and may call again where the earlier outcome was unknown.
- Engine.Session.Process: states when each provider call happens and what is committed; the delay before the next pass, the preparation's progress samples and the value of the returned error are not modelled.
- Engine.Session.Submit: which secret material reaches Start, and the store's own check of the start authorization, are not modelled.
- JobFleet.StartsComeInOrder: says nothing of later attempts; a session that is held up between its acknowledged start intent and its call is cut off in the code by deadlines and leases, and time is not modelled there.
- Fleet.AtMostOneCallEver: a stop report is not tied to the state change it makes; that change may happen at any time.
- Snapshots.BuildSnapshot: checks the declared outputs in a pass of their own before it selects files, so which of several errors is reported first is not modelled.
- Snapshots.ValidateSnapshot: compares snapshots where the code compares their digests.
- Preparation's cancellation, unreadable files and secret findings, which refuse a plan for reasons outside the tree.
- `checkTree` and the change detection of a source tree between preparation and writing: the tree is taken as unchanged.

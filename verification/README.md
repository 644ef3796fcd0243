# ALOS backend: a verified model of its authoritative state machines

The backend is a set of authorities, each a small state machine over dictionaries, an audit
trail and sometimes a store. This project models six of them in Dafny and proves what their
code promises over whole runs.

- **Releases** (`Release*.dfy`). A release passes through 17 states with human gates, supersession, a kill
  switch and rollback. Every coroutine is cut where it lets go of the lock or awaits the audit
  sink. `ReleaseModel` runs these sections; `ReleaseGates` lets any number of tasks take turns
  in any order, which is more than the event loop can do; `ReleaseTasks` suspends tasks in the
  audit append only, which is what it does. `ReleaseRuns`, `ReleaseReplay` and the class in `ReleaseAuthority`
  are about callers that await each call. `ReleaseWitnesses` holds the runs that break what does not hold.
- **Sources** (`Chunking`, `Citations`, `SourceModel`, `Retrieval*`, `SourceRegistry`). A greedy
  splitter, citations made distinct, a ranked retrieval under an item and a character budget,
  and the append-only evidence registry that retrieval writes into.
- **Jobs** (`Job*.dfy`). A queue with leases, bounded retries, recovery and an idempotency index.
  Every operation is one critical section, so any interleaving of workers and recoveries is a
  sequence of operations, and the theorems quantify over all sequences.
- **Definition registries** (`Splitting`, `SemVer`, `Registry*.dfy`). A parser of semantic versions with its
  order key, and versioned registries that write through to a store which several of them
  share. Saves may fail at any point. The SQL store, which assigns only four columns of an
  existing row, runs beside the overwriting one.
- **Skills and runs** (`AuthorityView`, `Assignment*`, `AgentRuns`, `RunRecords`, `RunAuthority`). The checks
  made when a skill is attached to an agent, those made when a run starts, and the rows that run
  records are stored in.
- **Tools** (`Tool*.dfy`). The tool lifecycle with its maker/checker rule and kill switch, and the
  execution pipeline with idempotent replay; `ToolTasks` interleaves lifecycle calls.

Services that change dictionaries are classes whose methods are proved to do what the functions of
the model say; the theorems are about those functions. `Prelude`, `Identity`, `Text`, `Decimal` and `Sorting`
hold Python's dictionaries, strings, numerals and stable sort. The clock, fresh ids, the outcome
of an adapter and the failure of a save are parameters.

## What the code does not keep

Some promises hold only under a condition. The exact condition is proved where there is one, and a run
shows that the promise fails without it.

- One ACTIVE release per subject: `clear_kill_switch` does not look at the index. In awaited runs it
  holds throughout if and only if every cleared kill switch belongs to a subject with nothing in
  the index. It also fails without any kill switch if two activations overlap while a third
  release is indexed: one supersedes that release, and the other one raises and stays ACTIVE.
- A kill switch goes off if and only if it is cleared or the guards of `rollback` let a rollback
  through to the release that it stopped; they look at the kill switch of the release that is left.
- An approval with an empty decision id passes the gates and leaves no id on the release. Over the
  decision ids of a set, every release past its gates carries the ids of its approvals in every
  schedule if and only if the empty id is not in the set.
- The evidence registry is shared by all tenants. Over the names and requests that the request
  models let in, retrieval never conflicts if and only if different source versions have different
  stems `source_id@version#`; two tenants that use the same id and version have the same one.
- A worker whose lease was recovered can still finish the job while another worker holds it.
- `register` never replaces a stored definition if and only if every stored version of the type is in
  the cache; a version that is not cached is overwritten, and the two stores then differ
  unless the definitions are the same.
  `hydrate` reads the store before it takes the lock: the cache that it installs mirrors the store
  if and only if no entry of the type was saved in between.
- `register` does not look at the version. Once a schema has accepted an invalid one, every
  listing of its scope raises.
- `assign` can be answered with another organization's version of the same workspace. It is answered
  with one of the principal's own organization if and only if the version that the draft will get is, before
  the call, free or already that organization's; every fitting run of the other one is refused.
- An adapter success whose result is invalid is neither audited nor stored, and a retry runs the
  adapter again. An adapter succeeds at most once per key in every run if and only if the result
  schema accepts every output for every keyed request that can pass the gates.
- Lifecycle calls of tools write back the copy that they read before their audit append. A suspended
  or retired tool stays so in every continuation if and only if no call in flight is about to write
  it back otherwise, and a kill switch stays on until it is cleared under the same condition on the switch.
- The idempotency policy NONE is treated exactly like OPTIONAL.

## Model

| member | source | states |
|---|---|---|
| ReleaseGates.HumanGatesHold | src/alos/releases/service.py:181-251 | Under every interleaving at the awaits, a release that was ever released, or is ACTIVE, SUSPENDED or ROLLED_BACK, rests on an approving IT decision for its own review, and a MATERIAL one also on an approving Director decision. |
| ReleaseGates.TakeAllKeepsGates | src/alos/releases/service.py:331-374 | The gates hold for all stored releases and for the sections still pending, stale snapshots of rollback included. |
| ReleaseGates.NamedApprovalsAreCarried | src/alos/releases/service.py:418-432 | If no approval for a release's own review had an empty id, the release carries the ids of its approvals once it is past its gates, under every interleaving. |
| ReleaseGates.AwaitedRunIsASchedule | src/alos/releases/service.py:394-442 | Runs of awaited calls are among the interleavings. |
| ReleaseTasks.RealRunIsASchedule | src/alos/releases/service.py:394-442 | What the event loop can do, suspending tasks in audit appends only, is among the interleavings. |
| ReleaseTasks.AwaitedRunIsReal | src/alos/releases/service.py:394-442 | And every run of awaited calls is something that it can do. |
| ReleaseRuns.PerformIsDirect | src/alos/releases/service.py:253-374 | The sections of a call, run back to back, compute its straight-line meaning. |
| ReleaseRuns.CallKeepsIndex | src/alos/releases/service.py:253-329 | From a sound index, a call leaves it sound, the supersede step never fails, and a raising call changes nothing. |
| ReleaseRuns.IndexAgreesInEveryRun | src/alos/releases/service.py:253-374 | In every awaited run each indexed id names an ACTIVE release of its subject. |
| ReleaseRuns.RaisingChangesNothing | src/alos/releases/service.py:394-442 | In every awaited run a call that raises leaves releases, index, audit trail and ledger alone. |
| ReleaseRuns.GuardedRunKeepsActiveIndexed | src/alos/releases/service.py:304-329 | If every clear is for a subject that is not indexed, ACTIVE means indexed. |
| ReleaseRuns.UnguardedClearDoublesActive | src/alos/releases/service.py:304-329 | One unguarded clear makes two ACTIVE releases of one subject. |
| ReleaseRuns.OneActiveIffClearsGuarded | src/alos/releases/service.py:253-329 | A run has at most one ACTIVE release per subject throughout if and only if all its clears are guarded. |
| ReleaseRuns.KillSwitchGoesOff | src/alos/releases/service.py:280-374 | A kill switch goes off exactly by being cleared, or by a rollback whose guards hold for the release it leaves and whose target is the release that was stopped. |
| ReleaseReplay.AuditTrailIsComplete | src/alos/releases/service.py:480-507 | Folding the audit trail gives back every state, kill switch and ever-released flag and the whole index, and each `from` is the previous outcome. |
| ReleaseWitnesses.IdsAreCarriedIffNamed | src/alos/releases/service.py:418-432 | For any set of decision ids: all schedules, and all runs of the event loop, whose decisions have ids in the set leave every release past its gates with the ids of its approvals, if and only if the empty id is not in the set. |
| ReleaseWitnesses.EmptyDecisionIdIsLost | src/alos/releases/service.py:181-199 | A run that releases with an approval of empty id and keeps no id. |
| ReleaseWitnesses.ClearingAfterSuccessionDoublesActive | src/alos/releases/service.py:304-329 | Activate v1, stop it, activate v2, clear v1: both are ACTIVE. |
| ReleaseWitnesses.RollbackTakesOffAKillSwitch | src/alos/releases/service.py:331-374 | Activate v1, stop it, activate v2, roll back to v1: v1 is ACTIVE and its kill switch is off, though it was never cleared. |
| ReleaseWitnesses.ConcurrentActivationsDoubleActive | src/alos/releases/service.py:253-278 | A run of the event loop, suspended in audit appends only, in which two activations overlap while a third release is indexed; two releases end ACTIVE. |
| ReleaseAuthority.InMemoryReleaseAuthority.Create | src/alos/releases/service.py:79-112 | A release enters as DRAFT under a fresh id, with its event. |
| ReleaseAuthority.InMemoryReleaseAuthority.MarkImplemented | src/alos/releases/service.py:114-123 | A DRAFT or a release sent back for revision becomes IMPLEMENTED with one event; any other state raises and nothing changes. |
| ReleaseAuthority.InMemoryReleaseAuthority.RecordAutomatedAssurance | src/alos/releases/service.py:125-141 | An IMPLEMENTED release advances on a passed report; a failed one raises and nothing changes. |
| ReleaseAuthority.InMemoryReleaseAuthority.RecordAiReviewPackage | src/alos/releases/service.py:143-168 | Only a package in the context of the release advances it; another raises and nothing changes. |
| ReleaseAuthority.InMemoryReleaseAuthority.SubmitForIt | src/alos/releases/service.py:170-179 | An AI_REVIEWED release becomes READY_FOR_IT, or the call raises and nothing changes. |
| ReleaseAuthority.InMemoryReleaseAuthority.RecordItDecision | src/alos/releases/service.py:181-199 | Only an IT decision in the context of the release moves it, to the state that its outcome names, and its id is kept. |
| ReleaseAuthority.InMemoryReleaseAuthority.DecisionContextProblem | src/alos/releases/service.py:444-460 | Reports exactly the decisions that belong to another review, tenant, workspace, release or subject. |
| ReleaseAuthority.InMemoryReleaseAuthority.SubmitForDirector | src/alos/releases/service.py:201-213 | Only an IT-approved MATERIAL release goes to the Director. |
| ReleaseAuthority.InMemoryReleaseAuthority.RecordDirectorDecision | src/alos/releases/service.py:215-233 | Only a Director decision in the context of the release moves it, and its id is kept. |
| ReleaseAuthority.InMemoryReleaseAuthority.Release | src/alos/releases/service.py:235-251 | A release is let out only past the gates of its materiality, and is marked as ever released. |
| ReleaseAuthority.InMemoryReleaseAuthority.Activate | src/alos/releases/service.py:253-278 | A RELEASED release becomes ACTIVE, the indexed one of its subject is suspended and the index points at the new one, with an event for each; any other state raises. |
| ReleaseAuthority.InMemoryReleaseAuthority.ActivateKillSwitch | src/alos/releases/service.py:280-302 | An ACTIVE release is suspended with its kill switch on and leaves the index; a blank reason raises. |
| ReleaseAuthority.InMemoryReleaseAuthority.ClearKillSwitch | src/alos/releases/service.py:304-329 | A stopped release becomes ACTIVE again and is indexed, whatever the index held before. |
| ReleaseAuthority.InMemoryReleaseAuthority.Rollback | src/alos/releases/service.py:331-382 | The release is rolled back and the snapshot of the target, taken before the awaits, is written back as ACTIVE and indexed. |
| Chunking.BlocksAreACut | src/alos/sources/service.py:280-296 | The blocks are non-empty, within both limits, and concatenate to the parts. |
| Chunking.GreedyIsOptimal | src/alos/sources/service.py:280-296 | No cut of the parts into blocks within the limits has fewer blocks. |
| Citations.ChunkTexts | src/alos/sources/service.py:308-316 | Each chunk text is its block joined by newlines, at most eight parts and at most `max_characters` long. |
| Citations.ChunksKeepTheContent | src/alos/sources/service.py:277-296 | Every non-blank stripped line is in the chunks in full and in order, and the anchors run from line 1 to the last without a gap. |
| Citations.ChunksAreFewest | src/alos/sources/service.py:270-306 | No other cut gives fewer chunks. |
| Citations.CitationsAreDistinct | src/alos/sources/service.py:298-306 | After the `-P` suffixes all citations of one version differ. |
| Citations.ChunkContent | src/alos/sources/service.py:270-306 | The loops over lines and parts compute the chunks of the model. |
| Citations.PlacePart | src/alos/sources/service.py:288-294 | One turn of the inner loop, with the running size equal to the joined length. |
| Citations.NumberOccurrences | src/alos/sources/service.py:298-306 | The loop over `occurrences` renames repeated citations as the model does. |
| Retrieval.RetrievalKeepsTheBudget | src/alos/sources/service.py:134-204 | Item lengths stay within the budget, items within the limit, and the items are the best by score, time and chunk index, each a non-empty prefix of a chunk of a VERIFIED version in scope and within clearance. |
| Retrieval.EqualChunksComeInOrder | src/alos/sources/service.py:154-154 | Equally scored chunks of one version are ranked in the order of the text, each once. |
| Retrieval.TiesKeepTheStoreOrder | src/alos/sources/service.py:154-154 | Candidates that tie in all three sort keys stay in the order of the store. |
| Retrieval.OneClassificationPerSource | src/alos/sources/service.py:79-89 | In every run all versions of one source have one classification. |
| Retrieval.EveryRunIsFiled | src/alos/sources/service.py:50-117 | In every run each version is stored under its key, hash and classification. |
| Retrieval.EvidenceIdDeterminesRef | src/alos/sources/service.py:146-190 | With safe names an evidence id determines the whole payload. |
| Retrieval.SafeNamesNeverConflict | src/alos/evidence/registry/service.py:23-30 | With safe names no request of any run makes the evidence registry raise. |
| RetrievalConflicts.SharedStemConflicts | src/alos/sources/service.py:146-190 | For two admissible names with one stem: a run of admissible requests whose second search raises. |
| RetrievalConflicts.NeverConflictsIffSafe | src/alos/evidence/registry/service.py:23-30 | A set of admissible names is free of conflicts on every admissible run if and only if different versions have different stems. |
| RetrievalConflicts.OneWorkspaceWithoutAtIsSafe | src/alos/sources/service.py:314-316 | In one workspace it is enough that no source id contains an at sign. |
| RetrievalConflicts.SharedNamesAcrossTenantsAreUnsafe | src/alos/evidence/registry/service.py:18-30 | The same id and version in two tenants is unsafe. |
| SourceRegistry.EvidenceRegistry.Register | src/alos/evidence/registry/service.py:23-30 | Evidence is only ever added; a known id with other content raises and changes nothing. |
| SourceRegistry.Registry.Register | src/alos/sources/service.py:50-91 | Stores the version or raises as the model does. |
| SourceRegistry.Registry.Verify | src/alos/sources/service.py:93-117 | Marks the version VERIFIED by the caller, or raises as the model does. |
| SourceRegistry.Registry.CollectCandidates | src/alos/sources/service.py:136-153 | The nested loops find the scored chunks that the caller may read. |
| SourceRegistry.Registry.GatherItems | src/alos/sources/service.py:156-204 | The budget loop computes the gathering of the model, evidence included. |
| SourceRegistry.Registry.SearchContext | src/alos/sources/service.py:119-229 | The whole retrieval, with its state and its answer. |
| JobRuns.EveryRunKeepsTheQueue | src/alos/jobs/repository.py:25-130 | In every run the idempotency index is a bijection onto the jobs, attempts stay within their bound, a QUEUED job has an attempt left, and a RUNNING one has a lease. |
| JobRuns.StepMoves | src/alos/jobs/repository.py:51-130 | A step moves jobs only along the allowed edges and returns exactly those that it changed. |
| JobRuns.FinishMoves | src/alos/jobs/repository.py:79-102 | `succeed` and `fail` are accepted exactly for a RUNNING job and change no other. |
| JobTermination.LoadFalls | src/alos/jobs/repository.py:51-130 | Each change of a job lowers its measure. |
| JobTermination.EveryRunEnds | src/alos/jobs/repository.py:51-130 | The changes of any run plus the load still open never exceed twice the attempts that were enqueued. |
| JobTermination.ClaimsAreBounded | src/alos/jobs/repository.py:66-76 | A job was claimed exactly as often as its counter says, at most `max_attempts` times, and ended exactly once if it is over. |
| JobTermination.SameKeySameJob | src/alos/jobs/repository.py:25-49 | Two enqueues of one run answer with the same job exactly when organization, type and key agree. |
| JobChoice.NoneIffNoneEligible | src/alos/jobs/repository.py:51-77 | `claim` answers None exactly when no job is eligible. |
| JobChoice.ClaimTakesTheOldest | src/alos/jobs/repository.py:59-76 | The claimed job is the eligible one created first, and of equals the one enqueued first. |
| JobChoice.RecoveredAreClaimable | src/alos/jobs/repository.py:104-130 | Exactly the stale RUNNING jobs are recovered; those with attempts left are claimable at any time from `stale_before` on. |
| JobChoice.FailedJobWaits | src/alos/jobs/repository.py:82-102 | After `fail` a job is over exactly when its attempts are used up, and otherwise claimable exactly from the end of its delay. |
| JobChoice.AnyoneMayFinish | src/alos/jobs/repository.py:158-162 | Acceptance of a result depends on the status alone, never on the lease. |
| JobChoice.LateWorkerFinishesAnothersLease | src/alos/jobs/repository.py:138-156 | A run in which a worker without lease finishes the job and the holder is refused. |
| JobRepository.TurnEndsItsAttempt | src/alos/jobs/worker/__init__.py:25-36 | Uninterrupted, a worker is never refused, ends the attempt it began, and succeeds exactly when its handler does. |
| JobRepository.InMemoryJobRepository.Enqueue | src/alos/jobs/repository.py:25-49 | A new key adds one QUEUED job, a known one answers with its job and changes nothing; it never raises. |
| JobRepository.InMemoryJobRepository.Claim | src/alos/jobs/repository.py:51-77 | The loop over the ordered jobs computes the step of the model. |
| JobRepository.InMemoryJobRepository.Succeed | src/alos/jobs/repository.py:79-80 | Accepted exactly for a RUNNING job, which becomes SUCCEEDED with the result and loses its lease. |
| JobRepository.InMemoryJobRepository.Fail | src/alos/jobs/repository.py:82-102 | Accepted exactly for a RUNNING job, which is put back with its delay or FAILED if its attempts are used up. |
| JobRepository.InMemoryJobRepository.RecoverStale | src/alos/jobs/repository.py:104-130 | The loop over the snapshot computes the step of the model. |
| JobRepository.InMemoryJobRepository.RequireRunning | src/alos/jobs/repository.py:158-162 | An error for an unknown job and for one that is not RUNNING. |
| JobRepository.JobWorker.RunOnce | src/alos/jobs/worker/__init__.py:25-36 | Claims, runs the handler of the type and reports; the new state and the answer are those of an uninterrupted turn. |
| SemVer.ParsesTheGrammar | src/alos/registry.py:452-471 | Exactly the strings of the grammar are accepted, and each is read in one way. |
| SemVer.SemverKey | src/alos/registry.py:448-478 | The loop over the prerelease builds the key of the model or raises. |
| SemVer.KeyOrder | src/alos/registry.py:472-478 | The key order is total and transitive, and only equal keys tie. |
| SemVer.KeyOrderIsPrecedence | src/alos/registry.py:448-478 | On valid versions the key order is precedence as section 11 of Semantic Versioning 2.0.0 defines it. |
| SemVer.KeysTieUpToBuild | src/alos/registry.py:472-478 | Keys are equal exactly for versions that differ at most in build metadata (section 10). |
| SemVer.KeyRoundTrip | src/alos/registry.py:448-478 | A key printed as a version is read back as the same key. |
| SemVer.NextMinorIsGreater | src/alos/skills/assignment.py:251-258 | On a valid version a proposal exists exactly if build metadata is absent or behind a prerelease; it is valid and strictly above. |
| RegistryRuns.MirrorsIffHydrated | src/alos/registry.py:356-362 | A cache mirrors the store exactly when it is what `hydrate` builds. |
| RegistryRuns.PartialSaveIsEnoughIff | src/alos/persistence/registry.py:18-51 | A save that assigns four columns equals an overwriting one exactly when the key is new or the rest of the row agrees. |
| RegistryRuns.EveryRunMirrorsTheStore | src/alos/registry.py:116-155 | Starting hydrated, in every run with any saves failing, each cache holds its subject type's entries of the store, and both stores hold the same entries. |
| RegistryRuns.HydrateIsIdentity | src/alos/registry.py:356-362 | After any such run `hydrate` changes nothing. |
| RegistryRuns.RegistriesDoNotInterfere | src/alos/registry.py:70-89 | On a shared store each registry has the cache that its own calls alone would give. |
| RegistryRuns.AnswersDoNotInterfere | src/alos/registry.py:70-89 | And it answers as if it had the store to itself. |
| RegistryRuns.DefinitionsAreImmutable | src/alos/registry.py:132-155 | A registered version keeps payload, digest, organization, author and date for ever, and its lifecycle goes one way. |
| RegistryRuns.VersionIsTaken | src/alos/registry.py:132-137 | After any run, the same payload is answered with the stored entry and another is a conflict. |
| RegistryRuns.IdsAreSetOnce | src/alos/registry.py:386-395 | The approving decision and the activating release are set once. |
| RegistryRuns.NeverClobbersIffAllCached | src/alos/registry.py:132-155 | For any cache over a sound store: no `register` ever replaces a stored definition if and only if every stored version of the type is cached. |
| RegistryRuns.UncachedVersionIsOverwritten | src/alos/registry.py:132-155 | A stored version that is not cached is overwritten by any accepted payload, and the two stores then agree exactly if the definitions are the same. |
| RegistryRuns.DefinitionsComeFromRegister | src/alos/registry.py:126-153 | In every run the stored definitions are ones that the schema accepts in their contexts. |
| RegistryRuns.InstalledMirrorsIffNothingSaved | src/alos/registry.py:356-362 | Whatever runs between loading and installing, the installed cache mirrors the store if and only if no entry of the type was saved. |
| RegistryListing.ListingIsSorted | src/alos/registry.py:300-318 | A listing raises exactly if an entry of the scope has an invalid version; else it is a permutation in subject and precedence order. |
| RegistryListing.ScopedHolds | src/alos/registry.py:308-315 | Exactly the entries of the scope are listed. |
| RegistryListing.LatestIsMaximum | src/alos/registry.py:338-354 | The latest entry is a maximum of precedence, and of the maxima the one that came last. |
| RegistryListing.InvalidVersionBlocksListings | src/alos/registry.py:300-318 | Once an invalid version is registered, every listing of its scope raises after any further run. |
| RegistryListing.DotlessVersionIsLetIn | src/alos/registry.py:126-155 | A first registration without dots in its version, which the schema accepts, is answered with its draft, and the scope can no longer be listed. |
| RegistryService.RowsKeepEntries | src/alos/persistence/registry.py:66-84 | An entry survives its row, and a readable row is the row of its entry. |
| RegistryService.InMemoryRegistryStore.Save | src/alos/registry.py:74-82 | Overwrites the record, or fails and changes nothing. |
| RegistryService.InMemoryRegistryStore.LoadSubjectType | src/alos/registry.py:84-89 | The records of the type, in order. |
| RegistryService.SqlRegistryStore.Save | src/alos/persistence/registry.py:18-51 | Read as entries, the rows change by a partial save. |
| RegistryService.VersionedContractRegistry.Register | src/alos/registry.py:116-155 | Refuses an invalid or foreign payload, answers a known version with its entry if the payload is the same, and otherwise saves a DRAFT before it caches it. |
| RegistryService.VersionedContractRegistry.Approve | src/alos/registry.py:157-190 | Only IT and DIRECTOR move a DRAFT to APPROVED, with the decision id; cache and store change together or not at all. |
| RegistryService.VersionedContractRegistry.Activate | src/alos/registry.py:192-214 | An APPROVED version becomes ACTIVE with the release id; cache and store change together or not at all. |
| RegistryService.VersionedContractRegistry.Suspend | src/alos/registry.py:216-236 | An ACTIVE version becomes SUSPENDED; cache and store change together or not at all. |
| RegistryService.VersionedContractRegistry.Transition | src/alos/registry.py:364-395 | Saves first; the cache changes only if the save worked. |
| RegistryService.VersionedContractRegistry.Hydrate | src/alos/registry.py:356-362 | The cache becomes what the store holds of the type. |
| RegistryService.VersionedContractRegistry.ListEntries | src/alos/registry.py:300-318 | The loops find the entries of the scope and raise at the first invalid version; the answer is the listing of the model. |
| RegistryService.VersionedContractRegistry.LatestEntry | src/alos/registry.py:338-354 | The last of the listing, or an error if it is empty or raises. |
| AuthorityView.ViewIsWithinThePrincipal | src/alos/registry_contracts.py:31-86 | A view is handed out only for an ACTIVE entry of the principal's place, and grants nothing that the principal lacks. |
| Assignment.AssignKeepsCoverage | src/alos/skills/assignment.py:125-210 | The draft has the base's grants and its skills with the new one. It is of the principal's organization, and covered if the base is, exactly if the version it gets was free or that organization's own before the call. |
| Assignment.AttachedSkillIsOwn | src/alos/skills/assignment.py:68-125 | The skill that was attached is stored and is of the principal's organization. |
| Assignment.CoverageIsPermanent | src/alos/registry.py:364-395 | Coverage survives every further run of the registries. |
| Assignment.ChecksCoverTheSkill | src/alos/skills/assignment.py:40-184 | Passing the checks means: both ACTIVE, in the principal's organization, no duplicate, and the skill covered by the agent. |
| AssignmentWitness.ForeignVersionIsAnswered | src/alos/registry.py:132-137 | An assignment, outside the guard, that is answered with another organization's version and is not covered. |
| AssignmentWitness.DraftGoesOnToRun | src/alos/skills/assignment.py:185-210 | A run from assignment over approval and activation to an admitted request. |
| AssignmentService.SkillAssignmentService.Assign | src/alos/skills/assignment.py:29-216 | The ordered checks, the registration and the one audit line of each outcome. |
| AgentRuns.SortedSetIsTheSet | src/alos/agents/lifecycle/runs.py:277-277 | The authorized references are the set of the references in strictly increasing order. |
| AgentRuns.AuthorizedSkillsAreWithinGrants | src/alos/agents/lifecycle/runs.py:202-277 | Every authorized skill was assigned, is ACTIVE, and stays within what context and agent both grant. |
| AgentRuns.CoveredAgentIsAuthorized | src/alos/agents/lifecycle/runs.py:202-277 | With defaulted references and a covering context, a covered agent is authorized exactly if all its skills are ACTIVE. |
| AgentRuns.AssignmentImpliesAuthorization | src/alos/agents/lifecycle/runs.py:110-129 | Take any accepted assignment to a covered agent and any further run, with the draft and its skills ACTIVE: every fitting request is admitted with exactly the draft's references if the draft's version was free or the principal's own before the assignment, and refused if not. |
| RunAuthority.AgentRunAuthority.AuthorizeSkills | src/alos/agents/lifecycle/runs.py:202-277 | The loop stops at the first refused reference with its error, and otherwise answers the ordered set. |
| RunAuthority.AgentRunAuthority.Begin | src/alos/agents/lifecycle/runs.py:110-158 | Checks, record, store and event: the state and the answer of the step of the model, nothing stored on any error. |
| RunAuthority.AgentRunAuthority.Complete | src/alos/agents/lifecycle/runs.py:160-182 | Only a matching terminal result ends a RUNNING run; anything else raises and changes nothing. |
| RunAuthority.InMemoryAgentRunStore.Create | src/alos/agents/lifecycle/runs.py:73-77 | Adds the record unless the id is taken. |
| RunAuthority.InMemoryAgentRunStore.Update | src/alos/agents/lifecycle/runs.py:79-83 | Replaces the record if there is one. |
| RunRecords.StartedRunsHaveTheirTools | src/alos/agents/lifecycle/runs.py:130-155 | A started run has exactly the tools it asked for, and the identity and digest of its registry entry. |
| RunRecords.RowRoundTripIff | src/alos/agents/lifecycle/repository.py:43-95 | A record survives its row exactly when its request repeats its skill references. |
| RunRecords.SqlStoreRefinesMemory | src/alos/agents/lifecycle/repository.py:19-41 | For all begins and completions every record survives its row, and the SQL store answers like the in-memory store. |
| RunRecords.RunsEndOnce | src/alos/agents/lifecycle/runs.py:160-182 | The trail has one start for each run and one end for each run that is over. |
| RunRecords.TerminalIsFinal | src/alos/agents/lifecycle/runs.py:163-172 | A run that is over stays as it is through all further begins and completions. |
| ToolRuns.AnswerTellsWhatHappened | src/alos/tools/executor/service.py:110-356 | An answer echoes its request, and its status tells which way the pipeline took. |
| ToolRuns.SameKeySameAnswer | src/alos/tools/executor/service.py:223-273 | In every run the successful answers of one tenant, tool and key have one output, and their requests agree in all that the digest covers. |
| ToolRuns.KeyIsNeverTaken | src/alos/tools/executor/service.py:78-87 | `put` never raises in sequential runs. |
| ToolRuns.AuditTellsAdapterSuccesses | src/alos/tools/executor/service.py:244-273 | SUCCESS lines less IDEMPOTENT_REPLAY lines are the adapter successes with a valid result. |
| ToolRuns.OneAcceptedSuccessPerKey | src/alos/tools/executor/service.py:235-273 | For each key one success was let out if the key is stored, and none otherwise. |
| ToolRuns.AdapterSucceedsOnce | src/alos/tools/executor/service.py:275-310 | If the result schema accepts every output for every keyed request that can pass the gates, an adapter succeeds once for a stored key and never for another. |
| ToolRuns.DiscardedSuccessIsRepeated | src/alos/tools/executor/service.py:335-343 | If it rejects one, a run from nothing registers a tool, sends the request twice and has the adapter succeed twice for the key. |
| ToolRuns.OncePerRunIff | src/alos/tools/executor/service.py:335-343 | In one run an adapter succeeded at most once for a key exactly if no success was discarded, or one was and the key is not stored. |
| ToolRuns.AlwaysOnceIffOutputsAccepted | src/alos/tools/executor/service.py:260-273 | At most once per key in every run, if and only if every output for every keyed request that can pass the gates is accepted. |
| ToolRuns.CallsNeedAnOpenGate | src/alos/tools/executor/service.py:132-172 | An adapter is reached only for an ACTIVE, allowlisted tool without a kill switch. |
| ToolRuns.DormantToolsNeverRun | src/alos/tools/registry/registry.py:112-134 | After a suspension or retirement no later call of any run reaches the adapter. |
| ToolRuns.KilledToolsNeverRun | src/alos/tools/registry/registry.py:136-184 | From a kill switch until it is cleared no call reaches the adapter. |
| ToolRuns.DraftsRunOnlyWhenChecked | src/alos/tools/registry/registry.py:58-99 | If the adapter of a drafted tool was ever called, somebody other than its owner had approved the tool on record. |
| ToolTasks.DraftsAreCheckedAnyway | src/alos/tools/registry/registry.py:58-134 | The same under every interleaving of lifecycle calls at their audit appends. |
| ToolTasks.FinalIffNothingInFlight | src/alos/tools/registry/registry.py:112-134 | A suspended or retired tool stays so in every continuation exactly if no call in flight is about to write it back otherwise, and then its adapter is never called again. |
| ToolTasks.RetirementCanBeUndone | src/alos/tools/registry/registry.py:101-134 | A run in which an activation in flight puts a retired tool back to ACTIVE, and its adapter is called. |
| ToolTasks.KillHoldsIffNothingInFlight | src/alos/tools/registry/registry.py:136-184 | A kill switch stays on in every continuation without a clear exactly if no call in flight is about to write the tool back with the switch off, and then its adapter is not called. |
| ToolTasks.KillSwitchCanBeUndone | src/alos/tools/registry/registry.py:101-159 | A run in which an activation in flight takes a recorded kill switch off, no clear was ever called, and the adapter is called. |
| ToolRuns.NonePolicyIsOptional | src/alos/tools/executor/service.py:223-233 | With the policy NONE a call has the same answer, stored records and audit lines as with OPTIONAL, keyed or not. |
| ToolServices.ToolRegistry.Register | src/alos/tools/registry/registry.py:53-56 | Adds a tool under a free id in whatever state it is, without an event. |
| ToolServices.ToolRegistry.RegisterDraft | src/alos/tools/registry/registry.py:58-79 | Adds a DRAFT that its owner registers under a free id, with its event, or raises and changes nothing. |
| ToolServices.ToolRegistry.Approve | src/alos/tools/registry/registry.py:84-99 | A DRAFT becomes APPROVED by an actor who is not its owner, on record, or the call raises and changes nothing. |
| ToolServices.ToolRegistry.Activate | src/alos/tools/registry/registry.py:101-110 | Only an APPROVED tool becomes ACTIVE. |
| ToolServices.ToolRegistry.Suspend | src/alos/tools/registry/registry.py:112-121 | Only an ACTIVE tool becomes SUSPENDED. |
| ToolServices.ToolRegistry.Retire | src/alos/tools/registry/registry.py:123-134 | A tool is retired once, and is no longer allowlisted. |
| ToolServices.ToolRegistry.ActivateKillSwitch | src/alos/tools/registry/registry.py:136-159 | Only on an ACTIVE tool and with a reason; without an audit sink or a tenant context it raises and the switch stays off. |
| ToolServices.ToolRegistry.ClearKillSwitch | src/alos/tools/registry/registry.py:161-184 | Only on a stopped tool and with a reason; its lifecycle state stays as it is. |
| ToolServices.InMemoryToolIdempotencyStore.Put | src/alos/tools/executor/service.py:78-87 | Stores the record unless the key belongs to another request. |
| ToolServices.ToolExecutor.Execute | src/alos/tools/executor/service.py:110-273 | The pipeline computes the execution of the model. |
| ToolServices.ToolExecutor.Replay | src/alos/tools/executor/service.py:244-258 | Replays the stored output or rejects the request. |
| ToolServices.ToolExecutor.ExecuteAdapter | src/alos/tools/executor/service.py:260-310 | Calls the adapter once and stores what was let out. |
| ToolServices.ToolExecutor.Finish | src/alos/tools/executor/service.py:335-343 | Validates before it audits. |

## Left out

- HTTP, settings, middleware, identity directories, permission registries, memory, documents,
  research, factory and assurance evaluation: transport, or filters and guards with easy properties.
- JSON Schema validation is a predicate on requests, results, definitions and evidence; fields that a
  schema requires are fields of the datatypes, so a missing one is not modelled.
- SHA-256 is an injective constructor; `_canonical_id` cuts its digest to 24 characters, and
  collisions of that prefix are not modelled.
- Unicode case folding is a parameter of retrieval. `isdigit` in `_next_minor` is read for ASCII digits,
  and the limit that Python puts on the length of a numeral is not modelled.
- The time stamps of audit events, the audit events of the definition registries, and the reasons of
  rejected assignments are not modelled. The automated assurance report is a boolean.
- Shallow and deep copies are values; sharing between the returned objects and the stores is not modelled.
- SQL sessions, commits and row order: a save happens as a whole or not at all. Loading from the SQL store
  has no order to speak of, so order is stated for the overwriting store only.
- `EvidenceRegistry.bundle` and other clients of the evidence registry, `list_authorized_entries`,
  `versions`, `list_versions` and `runtime_authorization` add nothing to what is proved.
- Calls of the definition registries are atomic, except for `hydrate`, whose gap is modelled. Completions of runs
  and executions of tools are sequential, because the code reads and writes there in separate steps.
- The audit sink records an event when the suspended call goes on; a sink that records it earlier only
  changes the order of the trail.
- Getters (`get` of the job, run, tool and definition registries and of the idempotency store) return what is
  stored; they have methods but no row.
- Skill references have their two fields only; further keys of the JSON objects are not modelled.
- Tool timeouts are an outcome of the adapter, and exceptions of an adapter's input check other than
  its own error are not modelled.
- Job payloads, results and handler results are opaque strings.

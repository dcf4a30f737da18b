# Verification of the research subsystem

The research subsystem ingests filings into a vector store under atomic Redis scripts, answers
questions from what is published, and meters the paid calls. This project models it in Dafny and
proves what it relies on. `dafny verify dfyconfig.toml` checks everything.

What is modelled, one group of modules each:

- **Generation lifecycle** (`Domain`, `RedisKeys`, `Lifecycle`, `Fencing`, `FencedRuns`,
  `FencingTheorems`, `StepFrame`, `LeaseSafety`, `LeaseTheorems`, `Reachability`, `LeaseNeeded`, `Undisturbed`,
  `Reversion`, `Compensation`, `DriverFailures`, `Recovery`, `Listing`, `PendingListing`, `ListingRace`). Any number of workers
  run the ingestion driver; one step is one script, one read or one vector call. Leases, CLEANED markers
  and completed-cleanup markers expire, replies are lost before or after the effect, workers crash by
  taking no further step. A cancelled worker is one whose remaining commands are dropped.
  `Run(None, ...)` allows every interleaving at any time; `Run(Some(cap), ...)` adds the clock: deadlines at
  most `cap` away, no command after its deadline, no lease gone before its time to live.
- **In-memory control plane** (`MemoryControl`, `Refinement`, `DriverRefinement`, `DriverRuns`): the simple
  specification the Redis plane is related to, call by call and over whole runs of the driver.
- **Reservations and budget** (`Budget`, `BudgetTheorems`, `RequestTheorems`): the counter scripts with the expiry of every key,
  and the reserve, commit, pay, release bracket of a request.
- **Checkpoints and retries** (`Ledger`, `LedgerTheorems`, `LedgerRuns`, `CheckpointRun`): racing runners of one
  job, undisturbed runs and retries, and one run as the loop it is.
- **Vector verification and inspection** (`VectorVerify`).
- **Symbol index** (`SymbolIndex`, `SymbolSearch`, `SymbolRanking`): agreement with a full scan, snapshot search,
  and what a page lists.
- **Visible text** (`VisibleText`), **chunker** (`Chunker`, `ChunkerText`), **hit classifier and grounding** (`Grounding`).

Each object that updates its fields is a class whose methods are proved against a specification
function; the theorems are about that function and its runs.

## Assumptions

- Digests are injective and canonical JSON is faithful, so a digest is modelled by what it digests and a
  record comparison by equality. Corpus keys are distinct: `canonical_key` joins its parts with a colon
  that a version may contain (app/research/domain.py:20, app/research/domain.py:305-307), so the code
  itself does not guarantee it.
- A command takes effect at most once, and before its issuer's next command. The vector store is
  linearizable: a fetch sees every completed upsert and delete.
- There is one clock. Under a deadline cap a worker's commands take effect before its deadline, and a lease
  expires no earlier than its time to live. A budget or reservation key is gone once its time to live is
  over, and TTL answers within one second of what remains.
- Random owner, attempt and reservation digests are fresh.
- The tests the code makes with patterns on text and records (attribute hiding, headings, record
  checks, prompt injection, personal advice, conflict, lexical support) are parameters; the theorems hold for all of them.

## Where the code differs from what one would expect

- A symbol query made only of one-letter words can miss records that a full scan matches
  (`SymbolIndex.AgreementExact`).
- Vector deletes are not fenced: safety of active points rests on the lease outliving the deadline. With the
  one-hour cap on leases it holds for all runs exactly when deadlines are at most an hour
  (`LeaseNeeded.DeadlineCapExact`, `LeaseSafety.LeaseCoversDeadline`); for every longer deadline there is a
  run that loses them (`LeaseNeeded.LateDeleteRemovesActivePoints`). Every deadline made in the repository is
  short enough: the policy allows at most 3600 seconds (app/research/service.py:178) and the runner at most
  900 (app/ingest_research.py:192-197). Only a caller that passes its own deadline to an ingestion can exceed it.
- A failed ingestion is not undone when the command that failed had taken effect as its verification or its
  publication and only the reply was lost: exactly then (`Compensation.CompensationCompletes`). A verified
  generation then keeps its record and its points, and a recovery refuses it for lack of a CLEANED marker; a
  staging whose reply was lost likewise leaves its STAGED record (`DriverFailures.EarlyFailureLeavesNothing`).
  An ordinary ingestion of the same content takes either up again.
- Listing pending cleanups fails closed when another ingestion completes one of them between its two
  commands: exactly then (`PendingListing.LoadFailsExactly`). The ingestion then leaves its own cleanup
  undone, and a recovery is given up (`ListingRace.OvertakenListingFails`, `PendingListing.RefusedLoad`).
  The in-memory plane, whose listing is one call, has no such failure.
- A recovery's look for its CLEANED marker finds none in Redis once the marker expired, where the in-memory
  plane still has it (`DriverRuns.DriverRunsInMemory`).
- An authorization in the last second of its counter can fail closed although the budget has room
  (`BudgetTheorems.AuthorizeRefusedExactly`, `BudgetTheorems.LastSecondRefusesAuthorize`).
- A generation that was superseded can never become active again, not even when the filing's content
  reverts to it: its staging is refused for good (`Undisturbed.UndisturbedIngestion`,
  `FencingTheorems.NoReactivation`; a run for every pair of generations in `Reversion.RevertedContentIsRefused`).
- A refund can be refused within the day: windows are cut to whole seconds, so a later reservation can outlive
  the counter it is charged to. Release fails exactly when the record is still AUTHORIZED and the counter is
  below its units (`BudgetTheorems.ReleaseRefusedExactly`, `BudgetTheorems.CutWindowsRefuseRelease`); it
  cannot happen when windows end together (`BudgetTheorems.AlignedWindowsNeverRefuse`).

## Model

| member | source | states |
|---|---|---|
| Domain.RecoverableExactly | app/research/control.py:245-266 | the six recoverable records are exactly the canonical unpublished records of the manifest: a fresh staging may overwrite every such record and nothing else |
| RedisKeys.RedisControl.constructor | app/providers/redis_research.py:237-269 | a new control plane has no keys |
| RedisKeys.RedisControl.AcquireLease | app/providers/redis_research.py:426-447 | a lease is granted only for a filing without one, and nothing else changes |
| RedisKeys.RedisControl.ReleaseLease | app/providers/redis_research.py:449-464 | only the holder removes a lease; any other caller leaves every key as it was |
| RedisKeys.RedisControl.StageGeneration | app/providers/redis_research.py:466-488 | the loop over the six recoverable records decides exactly as the stage script: refused without the lease or over an unrecoverable record, otherwise the STAGED record replaces it |
| RedisKeys.RedisControl.MarkVerified | app/providers/redis_research.py:490-521 | a proof of another manifest, a record not STAGED and a foreign lease are refused before any command; otherwise the exact staged record becomes VERIFIED under the lease or nothing changes |
| RedisKeys.RedisControl.PublishGeneration | app/providers/redis_research.py:523-593 | publication happens only under the lease, over the exact VERIFIED record, with the expected active ID and a free or equal cleanup key, and then writes record, pointer, index, cleanup record and cleanup index together |
| RedisKeys.RedisControl.AbortGeneration | app/providers/redis_research.py:595-619 | only the exact STAGED or VERIFIED record is replaced by its ABORTED form, so a published record cannot be aborted |
| RedisKeys.RedisControl.CleanGeneration | app/providers/redis_research.py:621-648 | only the exact ABORTED record becomes a CLEANED marker that may expire |
| RedisKeys.RedisControl.Swap | app/providers/redis_research.py:50-54 | the compare-and-set shared by verify, abort and clean: under the lease, exactly the given record, all or nothing |
| RedisKeys.RedisControl.MarkSupersededCleaned | app/providers/redis_research.py:809-844 | a PENDING cleanup becomes a CLEANED marker and leaves its index only under the lease and while its generation is not active |
| StepFrame.OnlyWritesWrite | app/research/service.py:250-472 | a command that is lost before its effect, and every read, changes nothing |
| StepFrame.KeysWritten | app/research/service.py:250-512 | a command touches keys of its own filing and of its own generation only, everything but a lease only under its own lease, and each kind of key only in its own phases |
| StepFrame.PointsWritten | app/research/service.py:340-512 | points are added only by an upsert, to the worker's own generation and only its chunk IDs, and removed only by the two deletes, from the generation each is about |
| StepFrame.UpsertIsBounded | app/providers/upstash_vector.py:242-262 | one upsert adds at most a hundred points |
| Lifecycle.LoadPending | app/providers/redis_research.py:763-807 | the pending list is answered exactly when every listed record is present, PENDING and stored under its own key, and then holds exactly those records |
| Lifecycle.ForFiling | app/research/service.py:488-491 | exactly the records of the driver's own filing, in the order listed |
| Fencing.WorkerKnowledgeStable | app/research/service.py:297-421 | what a worker has read of published records stays true whatever other workers do |
| Fencing.StageKeeps | app/providers/redis_research.py:43-49 | staging keeps every invariant of the keys and never touches a PUBLISHED record |
| Fencing.SwapKeeps | app/providers/redis_research.py:50-77 | verify, abort and clean keep every invariant and never touch a PUBLISHED record |
| Fencing.PublishKeeps | app/providers/redis_research.py:55-67 | a successful publish keeps every invariant: the history stays duplicate-free, ends in the active generation, and the superseded generation has its record |
| Fencing.CleanSupersededKeeps | app/providers/redis_research.py:78-84 | completing a cleanup keeps every invariant; the completed generation is never again awaited |
| Fencing.MarkerExpiryKeeps | app/providers/redis_research.py:73-77 | the expiry of a CLEANED marker keeps every invariant |
| Fencing.CleanupExpiryKeeps | app/providers/redis_research.py:78-84 | the expiry of a completed cleanup's marker loses no pending cleanup |
| FencedRuns.StepKeeps | app/research/service.py:250-512 | every command of the driver, answered, dropped or with its reply lost, keeps the key invariants and the worker's knowledge |
| FencedRuns.RunKeeps | app/research/service.py:250-512 | the invariants hold in every state of every run of any number of workers, with leases and markers expiring at any moment, and published records and histories only grow between any two states |
| FencedRuns.TimedRunsAreRuns | app/research/service.py:280-285 | runs under a deadline cap are runs, so the theorems without timing hold of them too |
| FencingTheorems.ActivePointersProven | app/providers/redis_research.py:43-67 | in every run every active pointer names a permanent PUBLISHED record whose verification proves its manifest, and a filing is in its scope's index exactly when it has a pointer |
| FencingTheorems.PublishedNeverChanges | app/providers/redis_research.py:43-77 | a PUBLISHED record is never rewritten, removed or given a time to live |
| FencingTheorems.NoReactivation | app/providers/redis_research.py:55-67 | an active pointer is never removed and never returns to a generation it has left, so comparing active IDs cannot be fooled |
| FencingTheorems.HistoryRecordsPublications | app/providers/redis_research.py:55-67 | the publication history used in the theorems is exactly the list of changes of the active pointer |
| FencingTheorems.PublishNeverMeetsForeignCleanup | app/providers/redis_research.py:55-67 | publish never answers -4 in any run |
| FencingTheorems.SupersededNeverActive | app/providers/redis_research.py:78-84 | completing a cleanup never answers -2 in any run |
| FencingTheorems.ActiveReadNeverFailsClosed | app/providers/redis_research.py:650-676 | the record read through an active pointer always passes the reader's checks, even when the pointer moves between the two reads |
| FencingTheorems.CleanupConservation | app/providers/redis_research.py:55-84 | once a filing is published its PUBLISHED generations split into the active one, those with a pending cleanup and those whose cleanup was completed, so publications are one plus pending plus completed |
| LeaseSafety.LeaseCoversDeadline | app/research/service.py:280-285 | a lease of the computed time to live covers the deadline for every moment of granting exactly when the deadline is at most an hour from the request |
| LeaseTheorems.StepIsSafe | app/research/service.py:294-512 | under the lease rule every command of a worker keeps the points of every active generation and orphans none, and touches only its own filing |
| LeaseTheorems.OthersGuarded | app/research/service.py:280-285 | a command of one worker leaves what every other live worker relies on untouched |
| LeaseTheorems.TimedRunKeeps | app/research/service.py:250-512 | the point invariants hold in every state of every run whose deadlines are at most an hour away |
| LeaseTheorems.ActivePointsPresent | app/research/service.py:421-459 | in every such run every point of every active generation is present: neither compensation nor cleanup ever removes one |
| LeaseTheorems.NoOrphanedPoints | app/research/service.py:421-512 | in every such run a generation with points is active, awaits a pending cleanup, or has a STAGED, VERIFIED or ABORTED record |
| LeaseTheorems.LostPublishReplyIsNotAborted | app/research/service.py:421-448 | once published, a worker whose reply was lost cannot abort: the abort changes nothing and the vector delete is never reached |
| LeaseNeeded.DeadlineCapExact | app/research/service.py:280-285 | for every cap on deadlines: all active generations keep all their points in all runs under it exactly when it is at most an hour |
| LeaseNeeded.LateDeleteRemovesActivePoints | app/research/service.py:421-442 | for every cap above an hour a run that acts only before its deadlines and keeps every lease for its time to live: a compensation delete comes after its lease and an active generation loses its points |
| Undisturbed.UndisturbedIngestion | app/research/service.py:294-472 | an undisturbed ingestion succeeds exactly when its generation is active already or was never published: it is then active, with all its points if it was not active before or had them before, its predecessor's points are gone and nothing of the filing awaits cleanup; otherwise it changes nothing; either way its lease is released |
| Undisturbed.UndisturbedAdvances | app/research/service.py:294-472 | every answered command brings an undisturbed run closer to its end, so it ends |
| Reversion.IngestionEnds | app/research/service.py:294-472 | from every reachable state an undisturbed ingestion has a run to its end, under every deadline cap |
| Reversion.RevertedContentIsRefused | app/research/service.py:250-472 | for any two generations of a filing there is a run that publishes the first, then the second, and then ingests the first again: it is refused, changes nothing, and the second stays active |
| Undisturbed.NoOtherPhase | app/research/service.py:421-448 | undisturbed, the driver never reaches its failure handler or the confirmation of a refused publish |
| Compensation.RunSecured | app/research/service.py:294-398 | in every run, while a worker holds its lease, what it read as active is still active and its record is still the one it wrote, up to publication |
| Compensation.PublishSecured | app/research/service.py:382-403 | a publish under its lease is always accepted, so only a worker that lost its lease comes to confirm |
| Compensation.GivesUpExactly | app/research/service.py:340-421 | in every run, under its lease, a staged worker goes to its failure handler exactly on an unanswered command or on a verification that misses a point and is not polled again |
| Compensation.CompensationCompletes | app/research/service.py:421-472 | from every reachable state, whatever the filing had before: a worker that gives up between staging and publication under its lease undoes its generation with its next four answered commands: only an expiring CLEANED marker stays, no point, pointers, cleanups and all else are as they were and the lease is free; this fails exactly when the failed command was a verification or publication that took effect unnoticed, and then the generation stays verified with its points, or published |
| DriverFailures.EarlyFailureLeavesNothing | app/research/service.py:294-345 | from every reachable state an unanswered command before the upserts ends the run with the release of its lease and changes nothing else, but for a staging whose reply was lost |
| DriverFailures.CleanupsAreIndependent | app/research/service.py:474-512 | whatever becomes of the commands, when a worker comes to give up its lease it has tried every cleanup it loaded, and one is completed exactly when its own delete was answered and its own mark not lost; a completed one has no points left |
| DriverFailures.RunsEndWithRelease | app/research/service.py:460-472 | no worker that got its lease ends without issuing its release, whatever failed in between |
| Recovery.UndisturbedRecovery | app/research/service.py:301-331 | an undisturbed recovery is let through exactly when nothing of the filing is active or awaits cleanup, the generation has the CLEANED marker of this manifest and none of its points is left; then it publishes the generation with all its points, otherwise it changes nothing |
| Recovery.RecoveryAdvances | app/research/service.py:294-472 | every answered command brings an undisturbed recovery closer to its end, so it ends |
| Recovery.LoadedIsAwaited | app/research/service.py:304-314 | the listing of pending cleanups holds one of the filing exactly when one awaits |
| Recovery.CompensatedIsRecoverable | app/research/service.py:421-448 | what a compensation leaves of a filing that has nothing active is exactly what a recovery needs |
| PendingListing.LoadFailsExactly | app/providers/redis_research.py:763-807 | in every run the second command of listing pending cleanups fails closed exactly when a listed cleanup was completed after the first one, that is when a listed key has left the index; completed by a mark of some worker in between and by nothing else |
| PendingListing.RefusedLoad | app/research/service.py:294-484 | a recovery whose listing fails closed is given up, an ingestion releases its lease without cleaning up |
| ListingRace.OvertakenListingFails | app/research/service.py:474-512 | for any supersessions of two filings in one scope there is a run in which one ingestion's listing is overtaken by the other's cleanup, and its own superseded generation keeps its points and its pending record |
| Listing.ReadPointers | app/providers/redis_research.py:719-735 | the pointer read answers exactly when every listed filing has a pointer, and then the generation of each |
| Listing.ReadRecords | app/providers/redis_research.py:736-761 | the record read answers exactly when every named record is published and its own, and then the manifest of each |
| Listing.ListActiveIsSnapshot | app/providers/redis_research.py:696-761 | however its three reads interleave with other workers, the listing never fails closed and returns exactly the manifests active together at the middle read for the filings indexed at the first |
| MemoryControl.InMemoryControlPlane.constructor | app/research/memory.py:240-245 | a new plane holds nothing |
| MemoryControl.InMemoryControlPlane.SetStage | app/research/memory.py:535-541 | the record of a generation is replaced and every other kept |
| MemoryControl.InMemoryControlPlane.Acquire | app/research/memory.py:250-271 | the call refines the specification of a lease call |
| MemoryControl.InMemoryControlPlane.Release | app/research/memory.py:514-524 | the call refines the specification of a release |
| MemoryControl.InMemoryControlPlane.StageManifest | app/research/memory.py:273-299 | the call refines the specification of staging |
| MemoryControl.InMemoryControlPlane.Verify | app/research/memory.py:301-323 | the call refines the specification of verification |
| MemoryControl.InMemoryControlPlane.Publish | app/research/memory.py:378-432 | the call refines the specification of publication, clause by clause of its refusals |
| MemoryControl.InMemoryControlPlane.MarkCleaned | app/research/memory.py:450-477 | the call refines the specification of completing a cleanup |
| MemoryControl.InMemoryControlPlane.Abort | app/research/memory.py:479-491 | the call refines the specification of an abort |
| MemoryControl.InMemoryControlPlane.Clean | app/research/memory.py:493-512 | the call refines the specification of a cleaned marker |
| Refinement.AcquireAgrees | app/providers/redis_research.py:426-447 | both planes grant the same leases and stay related |
| Refinement.ReleaseAgrees | app/providers/redis_research.py:449-464 | both planes release the same leases and stay related |
| Refinement.ReadCallsAgree | app/providers/redis_research.py:650-807 | both planes answer every read alike, lists as sets, and no Redis read fails closed |
| Refinement.StageCallAgrees | app/providers/redis_research.py:466-488 | both planes stage alike and stay related |
| Refinement.SwapCallsAgree | app/providers/redis_research.py:490-648 | both planes verify, abort and clean alike and stay related |
| Refinement.PublishCallAgrees | app/providers/redis_research.py:523-593 | both planes accept the same publications, and their active lists, stages and pending cleanups stay related |
| Refinement.MarkCleanedAgrees | app/providers/redis_research.py:809-844 | both planes complete the same cleanups and stay related |
| Refinement.PlanesAnswerAlike | app/providers/redis_research.py:466-844 | related planes answer every sequence of driver-disciplined calls alike, and no Redis call is refused or fails closed |
| Refinement.EmptyPlanesAnswerAlike | app/research/memory.py:237-541 | the same from empty planes |
| Refinement.DriverIsDisciplined | app/research/service.py:294-512 | in every run whatever call a worker is about to make has the discipline the refinement assumes, provided its generation ID names one manifest |
| Refinement.DeliveredStepIsCall | app/research/service.py:340-512 | a delivered write of the driver has exactly the effect of that call on the Redis plane |
| DriverRefinement.CallReaction | app/research/service.py:294-512 | what the worker does after a call is decided by the answer, and after the first command of a read what it needs for the second is known; where it goes when it gives up is in Compensation.GivesUpExactly and DriverFailures.EarlyFailureLeavesNothing |
| DriverRefinement.LoadReaction | app/research/service.py:294-512 | the second command of a read leads where the answer given at the first one says, and fails closed exactly when a listed cleanup was completed since |
| DriverRuns.StepRestored | app/research/service.py:250-512 | a command does the same whether or not expired markers are still stored, but for a recovery that looks for its own marker |
| DriverRuns.DriverRunsInMemory | app/research/service.py:250-512 | in every run, until a lease expires and however workers interleave, commands and replies are lost and records expire, Redis answers every call as the in-memory plane that makes the calls one by one, none is refused, every worker goes on as that answer says, and the planes stay related; the exceptions are exactly a worker without an answer, a listing of which a cleanup was completed since, and a recovery whose marker expired |
| DriverRuns.ExpiredLeaseDiffers | app/research/memory.py:250-271 | once a lease expires the planes differ: Redis grants the filing, the in-memory plane still refuses it |
| Budget.ReservationControl.constructor | app/providers/redis_research.py:237-269 | a new ledger is empty |
| Budget.ReservationControl.Authorize | app/providers/redis_research.py:1099-1133 | an over-limit reservation is declined without a command; otherwise counter and reservation move as the script says, a missing time to live is unavailable, and only an update is an authorization |
| Budget.ReservationControl.Commit | app/providers/redis_research.py:1135-1140 | only the exact AUTHORIZED record becomes COMMITTED; the counter is untouched |
| Budget.ReservationControl.Release | app/providers/redis_research.py:1142-1165 | only the exact AUTHORIZED record is refunded, the counter vanishing at zero; an impossible refund is unavailable |
| BudgetTheorems.ChargedWrite | app/providers/redis_research.py:118-140 | writing one reservation changes the units charged to a budget by the difference of its charges |
| BudgetTheorems.BudgetConserved | app/providers/redis_research.py:118-140 | in every run a counter plus what expired counters of its budget held equals the units of AUTHORIZED and COMMITTED reservations plus those of expired ones, and it never exceeds the limit |
| BudgetTheorems.AuthorizeRefusedExactly | app/providers/redis_research.py:118-127 | authorize answers -2 exactly when a new reservation meets a counter in use and TTL answers zero; such a counter has an expiry less than a second away |
| BudgetTheorems.AuthorizeMayRefuseExactly | app/providers/redis_research.py:118-127 | before the command: some TTL answer makes it -2 exactly when the reservation is new and its counter is in its last second |
| BudgetTheorems.LastSecondRefusesAuthorize | app/providers/redis_research.py:118-127 | for any two reservations that fit the budget a run refuses the second one in the last second of the counter |
| BudgetTheorems.ReleaseRefusedExactly | app/providers/redis_research.py:132-140 | release answers -1 exactly when the record is still the AUTHORIZED one and the counter is below its units; this needs a counter that expired while a reservation charged to it had longer to live |
| BudgetTheorems.AlignedWindowsNeverRefuse | app/providers/redis_research.py:118-140 | when all windows of a budget end at one moment no release is ever refused |
| BudgetTheorems.CutWindowsRefuseRelease | app/api.py:203-206 | windows cut to whole seconds do not: any two reservations made within a second give a run in which the second one's release is refused |
| BudgetTheorems.TerminalStatesFinal | app/providers/redis_research.py:128-140 | a reservation is refunded at most once, never after its commit, and never committed after its refund |
| BudgetTheorems.CommitBeforePay | app/services/research.py:238-262 | every paid call is preceded by an applied commit of that request's own reservation, whatever replies are lost and wherever the request is cancelled |
| RequestTheorems.AuthorizeDecides | app/providers/redis_research.py:118-127 | in every run an answered authorization of a readable counter lets its request through exactly when its units fit under the limit, and then counts them and holds the AUTHORIZED record; one that is lost, does not fit or fails closed writes nothing |
| RequestTheorems.UsedIdRefused | app/providers/redis_research.py:118-127 | in every state of the ledger a reservation ID used before lets nobody through and changes nothing |
| RequestTheorems.CommitDecides | app/services/research.py:238-262 | in every run a commit leads to the paid call exactly when it is answered and the ledger held exactly that AUTHORIZED record; then the ledger holds the COMMITTED one and is otherwise as it was; every other commit leads to the release |
| RequestTheorems.AnsweredRequestIsServed | app/api.py:348-380 | in every run, whatever other requests do: an admitted request whose commands are all answered and that nothing stops makes the embedding call and the generation call and ends with its reservation COMMITTED and charged, unless its key expired |
| RequestTheorems.UndisturbedRequest | app/services/research.py:222-262 | a request that fits the budget and is not disturbed ends after six steps, both paid calls made in turn, its reservation COMMITTED, its units counted and nothing else changed |
| RequestTheorems.StoppedRequestOnlyReleases | app/research/service.py:514-573 | a request stopped at its checks is never committed, and one stopped after its embedding call never generates: from then on it only releases |
| BudgetTheorems.ChargedIffCommitted | app/services/research.py:163-280 | once a request's release is answered its reservation is charged exactly when its commit was applied |
| BudgetTheorems.AdmittedReleases | app/api.py:348-380 | a request that ended either was never admitted to the ledger or issued the release of its reservation |
| Ledger.PlanIsDistinct | app/research/domain.py:113-211 | the accession numbers of an accepted page are distinct, because pairs of CIK and accession number are and every accession number starts with its CIK |
| Ledger.PositionOf | app/research/ingestion.py:205-216 | the position behind the first reference with this accession number, and none exactly when the plan has no such reference |
| Ledger.CursorsLeadBack | app/research/ingestion.py:198-216 | every saved cursor leads back to the position it was saved at exactly when accession numbers are distinct |
| LedgerTheorems.StepGood | app/research/ingestion.py:508-736 | every step of every runner keeps the ledger's invariants, claims only under its own attempt, counts each attempt as it went and records of a claimed attempt what it reported |
| LedgerTheorems.CheckpointAccounting | app/research/ingestion.py:603-736 | for every page a discovery can return: at every durable checkpoint processed plus failed is the cursor's position, and the references before it were attempted with outcomes of which exactly that many were ingested and that many failed, whatever crashed, resumed or raced |
| LedgerTheorems.LedgerOnlyGrows | app/providers/redis_research.py:85-117 | checkpoints only advance, a complete checkpoint is never replaced, claims and results are immutable, for every plan |
| LedgerTheorems.ReturnedRunIsComplete | app/research/ingestion.py:710-736 | for every page a discovery can return: an ordinary run that returns has skipped, processed and newly failed exactly the plan, every reference was attempted, and its complete record stays the stored checkpoint forever |
| LedgerTheorems.RecoveriesBounded | app/research/ingestion.py:738-845 | at most two recovery ingests ever run for a job, each under its own claim, the second only after the first was recorded FAILED at vector verification |
| LedgerTheorems.RecoveryHoldsClaim | app/research/ingestion.py:774-845 | a runner about to recover holds the ledger's claim for its own attempt, which has not run before, and the checkpoint that claim pins is still stored |
| LedgerTheorems.ResultsAreTrue | app/research/ingestion.py:674-690 | in every run a stored first result is SUCCEEDED with exactly the counts the recovery under its claim reported or FAILED with the stage at which it broke, and so is a stored second result, which may also be FAILED at fetching when nothing was discovered and at checkpointing when the job had changed |
| LedgerRuns.RetryDecides | app/research/ingestion.py:738-787 | in every run a retry replays exactly a recorded success, claims exactly a one-filing job that failed and was never claimed, and otherwise stops |
| LedgerRuns.SecondDecides | app/research/ingestion.py:789-845 | in every run a second attempt that names the first one replays what was recorded, claims exactly when the first failed at vector verification and nobody claimed the second, and otherwise stops |
| LedgerRuns.DiscoveryDecides | app/research/ingestion.py:529-566 | in every run a claimed second attempt recovers exactly when its job is discovered unchanged; otherwise it records FAILED at fetching or at checkpointing |
| LedgerRuns.UnansweredStops | app/research/ingestion.py:484-507 | a runner whose command is not answered stops, counts nothing and reports nothing |
| LedgerRuns.FinishRepeats | app/providers/redis_research.py:96-101 | in every state of the keys a finish succeeds exactly under its own claim when its result is then the stored one, never replaces a result, and can be repeated after a lost reply |
| LedgerRuns.ClaimedOnce | app/providers/redis_research.py:91-95 | in every state of the keys a claim is granted exactly for the stored checkpoint when nothing was claimed or recorded before, and once |
| LedgerRuns.ClaimedSecondOnce | app/providers/redis_research.py:102-108 | the same for the second claim, which also needs the first claim and its result as they are stored |
| LedgerRuns.FinishSecondRepeats | app/providers/redis_research.py:109-117 | the same for the second finish |
| LedgerRuns.UndisturbedRun | app/research/ingestion.py:603-736 | an undisturbed ordinary run resumes behind the stored checkpoint, goes on whatever fails, and returns with a complete record that counts exactly the references ingested and failed before and in it |
| LedgerRuns.UndisturbedRetry | app/research/ingestion.py:590-690 | an undisturbed retry of a job whose only filing failed recovers once under the claim it made, records what that recovery did, and returns |
| LedgerRuns.UndisturbedSecondAttempt | app/research/ingestion.py:524-690 | so does an authorized second attempt whose job is discovered unchanged |
| LedgerTheorems.SnapshotsAccepted | app/research/control.py:478-623 | every reachable combination of keys satisfies the retry snapshot, and the attempt-two snapshot exactly when the first result is FAILED at vector verification |
| LedgerTheorems.AccountingIffDistinct | app/research/domain.py:119-126 | why the constructors' checks matter: the accounting holds in all runs of a plan exactly when its accession numbers are distinct |
| CheckpointRun.CheckpointControl.Save | app/providers/redis_research.py:883-910 | a checkpoint that loses progress is not sent; otherwise it replaces exactly the expected one |
| CheckpointRun.CheckpointControl.constructor | app/providers/redis_research.py:237-269 | no checkpoints at first |
| CheckpointRun.ControlCheckpointStore.constructor | app/ingest_research.py:204-206 | nothing is remembered at first |
| CheckpointRun.ControlCheckpointStore.Load | app/ingest_research.py:208-227 | the loaded record is remembered as the next expected one |
| CheckpointRun.ControlCheckpointStore.Save | app/ingest_research.py:229-249 | a save succeeds exactly when the remembered record is still stored and no progress is lost, and only then is the new one remembered |
| CheckpointRun.RunPlan | app/research/ingestion.py:603-736 | the loop counts every outcome from the resume position on, saves after each reference, and a returning run leaves the complete record with the summed counts and touches no other job |
| VectorVerify.OrderlyNext | app/providers/upstash_vector.py:340-357 | one more record is in order exactly when it fits its slot, passes its check and comes after the last visible one |
| VectorVerify.CompleteIffAllVisible | app/providers/upstash_vector.py:337-381 | an orderly response shows every point of its batch exactly when it lists the whole batch intact |
| VectorVerify.ReadBatch | app/providers/upstash_vector.py:337-381 | the inner loop finds no fault exactly when the response is orderly, nulls and compaction included, and then collects the visible IDs |
| VectorVerify.CompleteIsListed | app/providers/upstash_vector.py:297-415 | every batch being complete is the same as the concatenated responses listing every manifest chunk ID in order with passing records |
| VectorVerify.BatchesCover | app/providers/upstash_vector.py:308-309 | the batches are the manifest's points in order, all but the last a hundred and the last not empty |
| VectorVerify.VerifyOnce | app/providers/upstash_vector.py:297-415 | an attempt is VERIFIED exactly when the responses list every chunk ID in order with passing checks, its proof then proves the manifest, the last ordering comparison cannot fail, the counts are the visible and null records, and it raises exactly at a failed command that every readable response before let it reach, and no outcome is refused by its constructor |
| VectorVerify.Verify | app/providers/upstash_vector.py:263-295 | polling gets to an attempt only through fully readable attempts that lacked points, with time left after each; it raises exactly when it gets to an attempt whose command fails, times out exactly when time runs short after such an attempt, and otherwise settles, on VERIFIED exactly for a complete attempt |
| VectorVerify.Subset | app/providers/upstash_vector.py:206-208 | the expected subset: a subsequence of the batch, the whole batch only when all were seen |
| VectorVerify.Inspect | app/providers/upstash_vector.py:172-240 | inspection is EXACT, ABSENT or INCONSISTENT exactly when the responses list all points, list none, or break order, membership or metadata; its constructor never refuses it |
| SymbolIndex.RunLength | app/services/symbols.py:20-20 | the longest run of letters and digits at the start |
| SymbolRanking.TokensAreWords | app/services/symbols.py:20-20 | the tokens of a text are exactly its maximal runs of letters and digits |
| SymbolIndex.RankCorrect | app/services/symbols.py:348-365 | the ranking lists exactly the matching records, each before every later one by rank and symbol |
| SymbolRanking.RankMeans | app/services/symbols.py:348-365 | the ranking lists exactly the records whose symbol starts with the query or whose name has, for each word of the query, a word beginning with it; those whose symbol starts with the query stand before all others, and within each kind symbols ascend by their first difference |
| SymbolRanking.FullScanMeans | app/services/symbols.py:348-365 | the full scan answers the first of them, up to the limit |
| SymbolRanking.PageMeans | app/services/symbols.py:123-138 | a page lists only such records, in that order and within the limit; with a word of two characters in the query it is the first of all of them, and for every query the first with respect to the records whose symbol starts with it |
| SymbolRanking.AnsweredPageMeans | app/services/symbols.py:92-191 | the same of every search answered in any run with concurrent refreshes and expiry, for the directory whose manifest it read |
| SymbolIndex.OrderUnique | app/services/symbols.py:348-365 | an ordered ranking is determined by its records, whatever order they were read in |
| SymbolIndex.Bucket | app/services/symbols.py:266-289 | a bucket holds exactly the directory's records with that prefix |
| SymbolIndex.CollectElements | app/services/symbols.py:158-171 | merging buckets by symbol keeps one record per symbol and loses none |
| SymbolIndex.MatchIsIndexed | app/services/symbols.py:292-312 | a record the scan matches is in one of the query's buckets when the query has a token of two characters or its symbol matches |
| SymbolIndex.IndexAgrees | app/services/symbols.py:149-181 | bucket search equals the full ranked scan cut to the limit whenever the query has a token of two characters, and otherwise returns only records the scan matches |
| SymbolIndex.AgreementExact | app/services/symbols.py:305-312 | the index agrees with the scan on every directory exactly for queries with a token of two characters or with no token; for one-letter words a directory is given where it misses a match |
| SymbolSearch.WrittenBucketAccepted | app/services/symbols.py:233-264 | a bucket written by a refresh passes every check of a search |
| SymbolSearch.WrittenManifestAccepted | app/services/symbols.py:202-231 | the manifest a refresh writes passes every check of a search |
| SymbolSearch.AnswerMeansFullScan | app/services/symbols.py:123-138 | an answer from one directory's buckets is that directory's full scan for such queries |
| SymbolSearch.SymbolSearchService.constructor | app/services/symbols.py:68-83 | the cache starts empty |
| SymbolSearch.SymbolSearchService.RefreshDirectory | app/services/symbols.py:92-121 | a refresh writes every bucket of its generation, then the manifest, keeps other generations, and writes nothing for an invalid directory |
| SymbolSearch.SymbolSearchService.SearchSymbols | app/services/symbols.py:123-181 | a search fails closed exactly when the manifest or a needed bucket is missing, and otherwise ranks exactly the query's buckets of the directory the manifest names, within the limit, with its source and date, flagged stale exactly when an entry it needed was |
| SymbolSearch.SearchIsSnapshot | app/services/symbols.py:92-191 | with any number of concurrent refreshes and any expiry an answered search comes from exactly the directory its manifest read named, never a mixture, and none fails on a malformed manifest or bucket |
| SymbolSearch.SearchDecides | app/services/symbols.py:123-181 | in every run each read of a search decides: it fails exactly when there is no manifest or the bucket read is missing, it answers exactly when every bucket it needs was read, and otherwise one bucket fewer is left, so searches end |
| SymbolSearch.DurableSearchSucceeds | app/services/symbols.py:92-121 | when nothing expires a search fails only if no manifest was there: the manifest is written last |
| VisibleText.Clean | app/providers/sec_filing_parser.py:208-216 | control-like characters become spaces, all others and the length stay |
| VisibleText.Nearest | app/providers/sec_filing_parser.py:158-168 | the topmost open element with the tag |
| VisibleText.FindNearest | app/providers/sec_filing_parser.py:158-168 | the search from the top finds exactly that element |
| VisibleText.Examine | app/providers/sec_filing_parser.py:169-177 | the scan above it finds whether a hidden active container is buried and counts the hidden entries removed |
| VisibleText.VisibleTextParser.constructor | app/providers/sec_filing_parser.py:119-127 | the parser starts empty |
| VisibleText.VisibleTextParser.AppendText | app/providers/sec_filing_parser.py:208-216 | text is cleaned and appended within four times the maximum, and dropped once failed closed |
| VisibleText.VisibleTextParser.HandleStartTag | app/providers/sec_filing_parser.py:133-141 | a start tag moves the parser as its specification step |
| VisibleText.VisibleTextParser.HandleStartEndTag | app/providers/sec_filing_parser.py:143-156 | a self-closing tag moves the parser as its specification step |
| VisibleText.VisibleTextParser.Close | app/providers/sec_filing_parser.py:158-177 | closing removes the nearest element and all above it, with their hidden depth, and fails closed over a buried hidden active container |
| VisibleText.VisibleTextParser.HandleEndTag | app/providers/sec_filing_parser.py:158-178 | an end tag moves the parser as its specification step |
| VisibleText.VisibleTextParser.HandleText | app/providers/sec_filing_parser.py:180-197 | data and references move the parser as their specification step |
| VisibleText.FeedSound | app/providers/sec_filing_parser.py:119-216 | on every stream the skip depth counts the hidden entries, which form a suffix of the stack; text only grows, stays within the bound, and is frozen once failed closed |
| VisibleText.HiddenTextIrrelevant | app/providers/sec_filing_parser.py:180-197 | erasing every text event inside hidden elements leaves the final state unchanged |
| VisibleText.TreeText | app/providers/sec_filing_parser.py:119-216 | on the events of any well-nested tree the parser appends exactly the tree's recursive visible text, or raises exactly when it does not fit |
| VisibleText.DocumentText | app/providers/sec_filing_parser.py:119-216 | a fresh parser on a well-nested document answers exactly its visible text, exactly when that fits |
| ChunkerText.TokensExact | app/research/chunker.py:7-7 | the tokens are exactly the maximal stretches of characters other than white space that the pattern joins: neighbouring word characters, and a connector between two of them |
| Chunker.Spans | app/research/chunker.py:7-7 | one span per token, in order and disjoint |
| Chunker.TokensJoin | app/research/chunker.py:7-7 | tokens never cross white space |
| Chunker.SliceTokens | app/research/chunker.py:69-79 | re-tokenizing the text from one token to another gives exactly the tokens between them |
| Chunker.SectionChunks | app/research/chunker.py:68-82 | the loop over one section cuts the specified chunks, stripping changes none of them, and it ends because its start strictly advances |
| Chunker.SectionRoundTrip | app/research/chunker.py:68-82 | every chunk has at most the maximum tokens, neighbours share exactly the configured overlap, and dropping overlaps restores the section's tokens |
| ChunkerText.StripExact | app/research/chunker.py:55-55 | stripping takes exactly the white space at both ends |
| ChunkerText.SplitExact | app/research/chunker.py:55-55 | splitting cuts at every line feed, white space, line feed, leftmost and longest, and the pieces with those gaps between them make up the text |
| ChunkerText.JoinedSplits | app/research/chunker.py:54-66 | joining paragraphs by blank lines and splitting again gives the same paragraphs |
| Chunker.Sections | app/research/chunker.py:54-66 | the grouping loop closes a section exactly at a heading that follows other paragraphs |
| ChunkerText.SectionsExact | app/research/chunker.py:54-66 | re-splitting the sections gives exactly the document's paragraphs in order; every section but the first begins with a heading and none has another |
| Chunker.SplitTokens | app/research/chunker.py:55-55 | splitting into paragraphs loses no token |
| Chunker.Chunk | app/research/chunker.py:31-43 | the chunks of all sections in order, or an error exactly when there are none or too many |
| Chunker.DocumentRoundTrip | app/research/chunker.py:31-82 | dropping the overlaps of all chunks and concatenating restores the document's own token sequence |
| Grounding.ManifestOf | app/research/retrieval.py:150-150 | the last active manifest with that generation ID |
| Grounding.AcceptedNext | app/research/retrieval.py:161-187 | a candidate extends the accepted hits exactly when its verdict is acceptance |
| Grounding.AcceptedExactly | app/research/retrieval.py:150-187 | the accepted hits are exactly the candidates of this scope, filing type, embedding and last active manifest of their generation, above the threshold, without injected prompt and first to show their chunk, in their order up to the limit |
| Grounding.Classify | app/research/retrieval.py:150-201 | the accepted hits are the first results among first-occurrence eligible candidates in order, and every candidate is counted in exactly one class |
| Grounding.SafeManifests | app/research/service.py:575-594 | the loop with its two seen sets keeps the specified manifests |
| Grounding.SafeOfCorrect | app/research/service.py:575-594 | kept manifests are in scope and clash with none of each other, each dropped one in scope clashes with a kept one, and a clash-free list is kept whole |
| Grounding.SelectedCorrect | app/research/service.py:618-618 | each selected chunk is found under its own ID and no evidence is lost |
| Grounding.ClaimsAreGrounded | app/research/service.py:611-632 | claims are accepted exactly when there are some and each quotes selected chunks verbatim, cites only selected chunks and passes the text tests |
| Grounding.ContainsMeans | app/research/service.py:625-625 | a quote is found exactly when it stands somewhere in the text character by character |
| Grounding.CitationsInOrder | app/research/service.py:654-659 | citations are in the order in which the claims first refer to them |
| Grounding.Unique | app/research/service.py:654-659 | each ID once, none lost |
| Grounding.QueryResearch | app/research/service.py:514-573 | the whole decision: answered exactly for an impersonal question with a kept manifest, a matching embedding, accepted evidence free of conflict and generated claims that are all grounded; refused exactly for a personal question or a generator refusal behind those gates; corpus unavailable exactly for an impersonal question without a kept manifest; insufficient otherwise. An answer rests only on accepted chunks of listed active manifests of its symbol and corpus: every claim quotes them verbatim and cites only them, and the citations are exactly the cited chunks in order |

## Left out

- HTTP transport, wire decoding, response limits, logging and secret scrubbing: no deep state.
- Routing, sessions, CSRF, headers, templates and the dashboard script: framework code.
- Configuration and URL, user-agent and token validators: one-branch checks.
- Embedding and generation adapters and the text patterns: the generator's output is arbitrary and the tests are parameters.
- The budget digest names a day; here it is any name, and windows are any positive number of seconds unless stated.
- Market data, quota cache, history paging, the SEC throttle and discovery paging: weaker or easier forms of properties proved here.
- Embedding values and floating point: scores are only compared; score ranges of a classification are not modelled.
- The in-memory vector store: its set of points is what the worlds of the lifecycle already hold.
- Diagnostic, smoke and evaluation commands: straight-line drivers over the same ports.
- Staleness of cache entries in concurrent searches: it changes only the flag of a page, which is in SymbolSearchService.SearchSymbols.
- RedisKeys.RedisControl.AcquireLease: the expiry moment is an argument; the rounding rule that computes it is in LeaseSafety.LeaseCoversDeadline.
- Lifecycle.Step: its contract says only that the run's identity, the clock and, but for a publish, the histories stay; what each command writes is in StepFrame. The counts and stages the driver reports to its caller are not modelled.
- SymbolIndex.RankCorrect: the name and exchange tie-breakers are not modelled, because a directory has one record per symbol.
- SymbolIndex.Bucket: grouping by sorting pairs is modelled by filtering, which yields the same buckets in the same order.
- SymbolSearch.SymbolSearchService.SearchSymbols: a generation is the directory it digests, so the checks on the digest's form and on the order of the prefix list are not modelled; the buckets of a query are read in any order.
- Grounding.QueryResearch: commit before the paid calls is in the budget modules; display excerpts of citations are not modelled.
- DriverRuns.DriverRunsInMemory: it ends at the first expiry of a lease, because the in-memory plane lets none expire (DriverRuns.ExpiredLeaseDiffers).
- Refinement.EmptyPlanesAnswerAlike: the cleanup lists and active lists are compared as sets, and no key expires between the calls.
- CheckpointRun.RunPlan: errors and failure stages collected for the report are not modelled.

# Verified model of the HomeOps pipeline

This project models, in Dafny, the parts of HomeOps whose correctness depends on several
functions, several processes or several crashes, and proves what they keep.

Four durable state machines:

- **Promotion and rollback store** (`deployment.dfy`, `promotion_disk.dfy`,
  `promotion_store.dfy`). `active.json`, the rollback journal, the commit journals, the
  promotion history, the projection and the result files are the cells of one disk; each
  durable write is one step that may be done, fail before or after taking effect, or be
  the one the process is killed at. Rollbacks by other processes happen wherever the
  deployment lock is not held. The pure transitions `select_deployment` and
  `rollback_transition` are the abstract machine the store refines; recovery is the code's
  own recovery path.
- **Publication protocol** (`publication_state.dfy`, `publication.dfy`). The workstation's
  pending attempt runs through its phases against the receiver's write-once directories
  and markers and the processor's results. The environment moves the source, loses calls
  and replies and kills the workstation; what each look at the vault found is recorded.
- **Retention planner** (`ordering.dfy`, `retention_order.dfy`, `retention_store.dfy`,
  `retention_planner.dfy`, `retention_theorems.dfy`). The passes that fill the reference
  object, the decisions, the delete targets, and the store after the plan is carried out.
- **Write broker** (`write_broker.dfy`, `write_text.dfy`). Durable intents and results and
  create-only publication into a vault other programs edit, with every outside edit and
  publication in one history; and the JSON texts its bounds are about.

The receiver's own concurrency (`receiver.dfy`) is a state machine whose steps are single
file operations of any number of submit, status and commit processes. `protocol.dfy` joins
the parts: those runs are runs of the atomic calls the publication protocol is proved over,
and the promotion store promotes only where that protocol's processor may.

Four groups of algorithms: the agreement of validating, loading and verifying a build
(`relations.dfy`, `documents.dfy`, `build_store.dfy`, `build_theorems.dfy`,
`document_ids.dfy`, `build_pipeline.dfy`) with link reachability (`reachability.dfy`);
Markdown sections and links (`markdown_sections.dfy`), joined to the build by
`document_parser.dfy`, and the context compiler (`context_compiler.dfy`); vault migration
(`migration_transform.dfy`, `migration.dfy`); and the USTAR accounting shared by the Python
writer, the Go reader and the processor (`ustar.dfy`, `ustar_receiver.dfy`,
`ustar_writer.dfy`).

`dafny verify dfyconfig.toml` checks the whole project.

## What is assumed

- A digest stands for the bytes it is taken of, a deployment, policy or snapshot ID for its
  content: SHA-256 is treated as injective.
- JSON, YAML, Markdown and frontmatter encoders are parameters that read back what they
  wrote (requests: those that pass the request's own checks, and as long whatever 64-digit
  hexadecimal token they carry); case folding is a parameter for which equal folded titles
  have equal title keys; reading an ID as a UUID is a parameter, of which nothing is assumed
  but that a run ID drawn as a UUID is its own canonical text.
- One durable write, rename or link is one atomic step. The source's exclusive-create
  helpers can leave a partial file when killed in mid-write; recovery theorems do not
  cover that.
- `process_remote` passes are serialised; the commit journal is written outside the
  deployment lock. Rollbacks are not: they interleave.
- A call to the receiver takes effect before it returns or fails, or never. Request IDs
  and run IDs drawn as UUIDs are new.
- Receipts and markers arrive between passes. A pass lists each directory once, so one
  that arrives later is as if it had arrived after the pass.

## Where the code decides otherwise than its words

- A release-policy change between a crash and its recovery is rejected before the journal
  is looked at, and the rejection is terminal: the commit is never taken up again, under
  whatever policy, and the selected record stays out of history
  (`PromotionStore.Store.OtherPolicyLosesCommit`; `PromotionDisk.KilledCommitCanBeLost`
  gives a store where this happens). Recovery is promised under the same policy only.
- A receipt is written without a bound and read back under one, so identical bytes can
  conflict (`Receiver.OversizeReceiptConflicts`); `Receiver.Resubmission` gives the exact
  condition. An attempt published with such a receipt cannot get further than SUBMITTED
  (`Publication.Coordinator.Resume`).
- The write broker bounds the frame of a capture, stores a longer intent without a bound
  and reads that back under the frame's bound; results have the same gap. So a capture can
  be applied and every later capture or question about it be an error, and one that ended
  pending can never be retried: `WriteBroker.IntentOutgrowsFrame` gives the exact condition,
  `WriteBroker.LongCaptureIsLost` an input, and `WriteBroker.Broker.Capture` says what is
  promised.
- Counts include repeated tags and categories which the relations key away, and validation
  compares IDs as texts while the relations are keyed by UUIDs, so documents that validate
  can fail to load or to verify; `DocumentIds.BuildsIff` gives the exact condition, and
  `DocumentIds.RepeatedTagFails` and `DocumentIds.SharedUuidFails` give inputs.
- A vault write that raises after it took effect is not undone: the file stays migrated.
  `Migration.Workspace.Apply` says exactly when, `Migration.MigratedAllTheSame` gives an
  input.
- The migration warns that an unknown status was preserved, yet replaces it when the
  lifecycle tags agree on one (`MigrationTransform.UnreadableStatusReplaced`).
- The configuration admits the largest integer as archive limit, but the reader is given
  that limit plus one, which wraps around, so every archive is refused
  (`UstarReceiver.ReceiveArchive`, `UstarWriter.LargestLimitRefuses`).

## Model

| member | source | states |
|---|---|---|
| `Deployment.ReachableStates` | src/homeops_ai/deployment.py:604-655 | From a valid state every sequence of compare-and-swaps and rollbacks keeps the state valid and current and previous distinct; every step selects its candidate, or the previous deployment, at its own time, keeps the deployment selected before as the previous one, and is what the projection shows |
| `Deployment.CommitSelects` | src/homeops_ai/deployment.py:604-634 | The compare-and-swap in full: unchanged exactly if the candidate is selected, a conflict exactly if something else than expected is, and otherwise the candidate selected with the old selection as previous deployment |
| `Deployment.RollbackUndoes` | src/homeops_ai/deployment.py:604-655 | A promotion over a selected deployment followed by one rollback selects that deployment again, and the promoted one becomes the previous |
| `Deployment.RollbacksAlternate` | src/homeops_ai/deployment.py:637-655 | Any run of rollbacks alternates between the two deployments it started with: after an even number the same pair, after an odd number the pair swapped |
| `Deployment.OtherCommitsKept` | src/homeops_ai/deployment.py:604-634 | A stretch of the transition log made of one request's commits and rollbacks leaves every other request's commit count as it was |
| `Deployment.RollbacksKeepCommits` | src/homeops_ai/deployment.py:637-655 | Rollbacks count as nobody's commit |
| `PromotionDisk.SelectKeepsInv` | src/homeops_ai/build.py:783-797 | The one write by which a commit replaces active.json keeps the whole store invariant, provided its journal exists, it never committed before, and no rollback is pending |
| `PromotionDisk.MoveKeepsInv` | src/homeops_ai/build.py:741-749 | The one write by which a rollback replaces active.json keeps the store invariant and is counted against its own journal |
| `PromotionDisk.SafeKeepsRecoverable` | src/homeops_ai/pipeline.py:1980-2038 | Steps that leave the selection alone, leave a rollback journal, or leave the selected record in history never lose the information recovery needs |
| `PromotionDisk.CommitChecks` | src/homeops_ai/pipeline.py:1938-1979 | A commit reaches its journal exactly when its marker repeats the ready result field by field and the candidate passes every release-policy, deployment and evaluation check; with the store invariant no file it reads can be missing |
| `PromotionDisk.PromotableMeans` | src/homeops_ai/pipeline.py:1938-1979 | The release checks field by field: both policies, the seven build fields of the identity, and an evaluation that passed under exactly this policy |
| `PromotionDisk.OnlySamePolicyResumes` | src/homeops_ai/pipeline.py:1952-1960 | Of all release policies only its own takes an interrupted commit up again; any other is refused before the journal is looked at |
| `PromotionDisk.RefusedIsLost` | src/homeops_ai/pipeline.py:2128-2155 | Once every listed commit became a terminal conflict, a selection that is not in history cannot be recovered under any release policy |
| `PromotionDisk.KilledCommitCanBeLost` | src/homeops_ai/pipeline.py:2003-2017 | A commit killed right after its swap satisfies the invariant, is recoverable under its own policy, and meets every premise under which a pass under another policy loses it |
| `PromotionDisk.InvRefines` | src/homeops_ai/build.py:681-763 | The store invariant says: active.json is the replay of the pure transitions; each request committed at most once and only with a journal and a marker; each rollback journal moved active.json at most once; current and previous differ; a pending rollback journal has active.json at its source or target |
| `PromotionDisk.HistoryStays` | src/homeops_ai/build.py:620-633 | Over any run no record of the promotion history is changed or removed |
| `PromotionDisk.ArrivalKeepsRecoverable` | internal/receiver/server.go:306-324 | A receipt or marker that arrives write-once never takes away what recovery needs |
| `PromotionDisk.CommitIsPassStep` | src/homeops_ai/pipeline.py:1931-2038 | One commit keeps every other request's journal and commit count, and its own if it was journaled already |
| `PromotionStore.CalmCommitEnds` | src/homeops_ai/build.py:766-801 | An undisturbed first commit ends as failed while a rollback is pending, the build does not verify or it was not evaluated, as unchanged if its candidate is selected, as promoted if exactly what it expects is, and as a conflict otherwise |
| `PromotionStore.Store.StorePromotedRecord` | src/homeops_ai/build.py:620-633 | Create-only history write: an identical record is accepted, afterwards the selected record is in history, and at most that one entry was added |
| `PromotionStore.Store.RepairSelectedBookkeepingLocked` | src/homeops_ai/build.py:636-655 | If the expected deployment is selected, history and then the projection are completed; if not, nothing is written and the error says so |
| `PromotionStore.Store.FinishRollbackLocked` | src/homeops_ai/build.py:741-752 | With faults at any write: active.json moves to the journal's target at most once, and wherever it stops the journal is gone only if history and projection are complete; success leaves a settled store at the target |
| `PromotionStore.Store.Rollback` | src/homeops_ai/build.py:1095-1127 | A pending rollback is finished; otherwise nothing changes unless a new journal became durable first, and success leaves exactly the rollback transition of the old state; without faults it succeeds unless the lock is taken, there is no previous deployment or it does not verify; whatever stops it, the journal is still there or the store is settled |
| `PromotionStore.Store.PromoteLocked` | src/homeops_ai/build.py:766-801 | Refuses, without a write, exactly while a rollback is pending, the build does not verify, there is no passing evaluation, or something else than expected is selected; otherwise at most one commit of this request is logged, which selects the candidate with the old selection as previous, and success leaves it recorded and projected; if only the swap is disturbed, its fate decides |
| `PromotionStore.Store.PromoteCandidate` | src/homeops_ai/pipeline.py:2003-2038 | A swap that fails after taking effect is completed all the same and the commit concludes as promoted; one that fails before it escapes as an error; undisturbed the commit ends as CalmCommitEnds says |
| `PromotionStore.Store.ResumeCommit` | src/homeops_ai/pipeline.py:1980-2002 | A commit that finds its journal never moves active.json: it confirms the candidate while it is selected and rejects it otherwise |
| `PromotionStore.Store.FirstCommit` | src/homeops_ai/pipeline.py:2003-2038 | The journal is durable before the swap; an undisturbed first commit promotes, confirms or refuses exactly as the compare-and-swap says, and a disturbed one leaves either a safe store or an unfinished commit with its journal |
| `PromotionStore.Store.ProcessCommit` | src/homeops_ai/pipeline.py:1931-2038 | Logs at most commits of its own request, none at all if its journal existed; a concluded commit reports a selected, recorded deployment; whatever happens, recovery under the same policy keeps all it needs; undisturbed it ends as the selection, the journal and the checks decide (CommitOutcome) |
| `PromotionStore.Store.ProcessSubmission` | src/homeops_ai/pipeline.py:1713-1811 | A ready candidate passes every release check a commit under the same policy will make; a build is offered only if its evaluation passed and with the identity built; builds, deployments and evaluations are only added; every fault but a kill becomes a result, and undisturbed the result is the one its submission determines |
| `PromotionStore.Store.ProcessSubmissions` | src/homeops_ai/pipeline.py:2068-2126 | One pass over the incoming requests: if it returns, every listed submission that waited has its answer and no other result changed |
| `PromotionStore.Store.ProcessCommits` | src/homeops_ai/pipeline.py:2128-2156 | One pass over the markers: if it returns, every listed commit on offer has ended for good; undisturbed, under the same policy and with every marker listed, it leaves the selected record in history |
| `PromotionStore.Store.RecoverPendingRollback` | src/homeops_ai/build.py:755-763 | Finishes a journaled rollback and starts none |
| `PromotionStore.Store.ProcessRemote` | src/homeops_ai/pipeline.py:2041-2161 | Every pass keeps journals, terminal results, the history and the commit counts of all requests journaled before it, keeps recovery possible under its policy, and every new result that reports a promotion names a record in history; if it returns, every listed submission that waited is answered and every listed commit on offer has ended, as a conflict where its policy refuses it; an undisturbed pass that lists every marker ends with no rollback journal, the selected record in history and the projection equal to current_projection(active) |
| `PromotionStore.Store.Run` | src/homeops_ai/pipeline.py:2041-2161 | Over every run of serialised passes, rollbacks and arrivals, with a fault possible at every durable write and rollbacks interleaved: the refinement statement of InvRefines holds, requests journaled at the start never commit again, the promotion history only grows, and every new result that reports a promotion names a record in it |
| `PromotionStore.Store.RunThenRecover` | src/homeops_ai/pipeline.py:2041-2161 | However a run under one release policy was interrupted, one uninterrupted pass under that policy settles the store, whether or not builds still verify |
| `PromotionStore.Store.OtherPolicyLosesCommit` | src/homeops_ai/pipeline.py:1952-2155 | An uninterrupted pass under a policy that refuses every commit it lists turns each into a terminal PROMOTION_CONFLICT; no later pass takes one up, under whatever policy, and the selected record stays out of history |
| `PromotionStore.CommittedIsRecoverable` | src/homeops_ai/pipeline.py:2003-2038 | A first commit that stops anywhere leaves either nothing to recover or its own journal matching its ready result |
| `PromotionStore.ResumedIsRecoverable` | src/homeops_ai/pipeline.py:1980-2002 | A resumed commit that stops anywhere leaves recovery possible, and once it concluded it is not needed for it any more |
| `PublicationState.InvIsSound` | src/homeops_ai/pipeline.py:1117-1251 | An attempt recorded as LOCAL_SOURCE_CHANGED has no commit marker and was never promoted, one recorded as promoted has a marker, and the pending attempt and archive always load |
| `PublicationState.SubmitKeepsInv` | internal/receiver/archive.go:221-247 | The pending archive is accepted exactly when it passes the receiver's own checks and either was not published yet or left a receipt that can be read back |
| `PublicationState.CommitKeepsInv` | internal/receiver/server.go:233-324 | A commit call by the pending attempt keeps attempt and receiver in agreement, and an accepted one leaves a marker for exactly its candidate |
| `PublicationState.UpdateKeepsInv` | src/homeops_ai/pipeline.py:1004-1008 | Rewriting the pending attempt one phase on keeps the agreement and moves no attempt back |
| `PublicationState.FirstAttemptKeepsInv` | src/homeops_ai/pipeline.py:1338-1361 | The archive is durable before the attempt that names it |
| `PublicationState.ProgressComposes` | src/homeops_ai/pipeline.py:947-1027 | Phases only advance and a terminal attempt is final, over any number of steps |
| `PublicationState.MayCommit` | src/homeops_ai/pipeline.py:1184-1190 | Before the COMMITTING phase is durable there is no marker for the attempt |
| `PublicationState.LoadsExactly` | src/homeops_ai/pipeline.py:959-978 | Which attempt and archive files load, and what is wrong with the others |
| `PublicationState.CommitAnswers` | internal/receiver/server.go:233-324 | What a commit call is answered with, by receipt, marker and result |
| `Publication.Coordinator.Resolve` | src/homeops_ai/pipeline.py:1018-1027 | Wherever it stops: a report was written only for a durably terminal attempt, nothing was removed before the report, and the attempt not before the archive; undisturbed it ends with that report |
| `Publication.Coordinator.Retire` | src/homeops_ai/pipeline.py:1011-1015 | Wherever it stops, the attempt is gone only if the archive is, and only the archive and the attempt change |
| `Publication.Coordinator.Poll` | src/homeops_ai/pipeline.py:720-758 | Returns a result the receiver published, with the acceptance of its commit read from the marker; otherwise raises |
| `Publication.Coordinator.ValidateTerminal` | src/homeops_ai/pipeline.py:1072-1096 | A promoted or unchanged result is believed only if it repeats the attempt's identities and the receiver's current deployment matches them |
| `Publication.Coordinator.SubmitPhase` | src/homeops_ai/pipeline.py:1137-1148 | Wherever it stops, the receiver was not called before SUBMITTING was durable, and SUBMITTED is durable only after it accepted; undisturbed it gets through exactly when the receiver takes the archive |
| `Publication.Coordinator.SubmittedPhase` | src/homeops_ai/pipeline.py:1150-1190 | Ends with a terminal report or with a durable COMMITTING attempt that names the ready candidate; given up only if the policy differs or a look found the vault changed, gone on only if one found it unchanged; undisturbed the vault and policy decide |
| `Publication.Coordinator.LearnCommit` | src/homeops_ai/pipeline.py:1193-1228 | In COMMITTING the attempt is given up only when the marker is known to be absent, and goes on without one only while policy and vault still match |
| `Publication.Coordinator.CommittingPhase` | src/homeops_ai/pipeline.py:1193-1239 | Ends with a terminal report or with a durable COMMIT_REQUESTED attempt whose marker exists; what it ends with has its grounds in the looks at the vault, and undisturbed policy, vault and receiver decide |
| `Publication.Coordinator.Resume` | src/homeops_ai/pipeline.py:1099-1251 | A terminal attempt is reported with its own recorded result; any other ends in a report that the marker justifies, or stays resumable; it is given up, or its promotion reported as overtaken, only if the policy differs or a look found the vault changed, and undisturbed exactly as vault, policy and receiver decide; one whose published receipt cannot be read back never gets past SUBMITTED and can end in nothing but LOCAL_SOURCE_CHANGED |
| `Publication.Coordinator.Export` | src/homeops_ai/pipeline.py:247-277 | The vault is looked at before and after its copy; going on means all three agree, and undisturbed it goes on exactly when the vault is valid |
| `Publication.Coordinator.Reconcile` | src/homeops_ai/pipeline.py:1254-1405 | One run, with faults, lost replies and kills anywhere: earlier attempts never change identity or move back, a pending terminal attempt is reported as recorded, whatever ended had its grounds in what was seen of the vault, and a failure is recorded as LOCAL_SOURCE_CHANGED only by a run that found no attempt and began none; undisturbed a pending attempt is given up exactly if policy or vault differ and otherwise its commit is asked for |
| `Publication.Coordinator.Run` | src/homeops_ai/pipeline.py:1254-1405 | Over any number of runs and interleavings the statement of InvIsSound holds, no attempt moves back, and every attempt that was given up or overtaken ended after a policy change or a look that found the vault changed, every promoted one after a look that found it unchanged |
| `RetentionOrder.TopKCounts` | src/homeops_ai/retention.py:1327-1340 | Of n candidates exactly min(k, n) are kept, and each kept one is newer than each one that is not, or as new with a smaller ID |
| `RetentionOrder.TopKIsMonotone` | src/homeops_ai/retention.py:1327-1340 | Fewer candidates or a larger keep count never push out a candidate that stays one |
| `RetentionOrder.TopKIsStable` | src/homeops_ai/retention.py:1327-1340 | Dropping only candidates that were not kept leaves the kept ones as they are |
| `RetentionOrder.PrefixIsTopK` | src/homeops_ai/retention.py:1327-1340 | The first k of the sorted candidates are exactly those with fewer than k ahead of them |
| `RetentionTheorems.BundlesSurvive` | src/homeops_ai/retention.py:1382-1423 | A deployment that stays keeps its own build, its snapshot and its history |
| `RetentionTheorems.ProtectedStay` | src/homeops_ai/retention.py:409-466 | Every deployment and build a pipeline file names is still there after the removal, and so are the current and previous ones |
| `RetentionTheorems.StoreStaysSound` | src/homeops_ai/retention.py:1283-1423 | Carrying out an unblocked plan leaves a store in which nothing blocks: bundles whole, active state, pins and all pipeline references resolving; planning again with the same inputs deletes nothing |
| `RetentionTheorems.SharedSnapshotsSurvive` | src/homeops_ai/retention.py:1403-1422 | A snapshot copy outlives the plan exactly when a remaining deployment owns it or a protecting pipeline file names it |
| `RetentionTheorems.OlderDeploymentGoes` | src/homeops_ai/retention.py:1309-1422 | The premise of StoreStaysSound is met by a store from which something is removed: of two promoted deployments sharing a snapshot the older one goes when no extras are kept |
| `RetentionTheorems.NothingLeftRemovable` | src/homeops_ai/retention.py:1309-1370 | Once the removable deployments are gone, none of the rest is removable |
| `RetentionTheorems.RemovalIsAntitone` | src/homeops_ai/retention.py:1294-1370 | More pins, more references or a larger keep count never add a removed deployment |
| `RetentionTheorems.MoreProtectionRemovesLess` | src/homeops_ai/retention.py:1283-1370 | Of two stores with the same deployments, the one with more live pins, more pipeline mentions or a larger keep count loses no deployment the other keeps |
| `RetentionTheorems.NewFilesOnlyAdd` | src/homeops_ai/retention.py:755-969 | Further requests, markers and journals only ever add mentions |
| `RetentionTheorems.SuccessOnlyReleases` | src/homeops_ai/retention.py:755-969 | A successful result adds no mention and releases the files of its own request |
| `RetentionTheorems.ExtrasAreTheNewest` | src/homeops_ai/retention.py:1327-1340 | The kept extras number min(k, candidates), and each is newer than every removed deployment, or as new with a smaller ID |
| `RetentionTheorems.NewerOfTwoStays` | src/homeops_ai/retention.py:1327-1370 | Of two candidates with one place the newer stays, and the older goes unless a pipeline file names it |
| `RetentionTheorems.OldestOfThreeGoes` | src/homeops_ai/retention.py:1327-1370 | With one extra kept beside the selected deployment the oldest of three is removed |
| `RetentionTheorems.WhatIsDeleted` | src/homeops_ai/retention.py:1382-1423 | The delete targets take away exactly the removable records with their histories and builds, the abandoned snapshots, and the stale builds and uploads |
| `RetentionPlanner.Ledger.AddIdentity` | src/homeops_ai/retention.py:720-752 | Adds one file's identities to the right reference sets; an expected deployment counts as a reference even in a failed result |
| `RetentionPlanner.InventoryDeployments` | src/homeops_ai/retention.py:330-383 | The inventory is exactly the records whose bundle is whole; any other record blocks |
| `RetentionPlanner.ValidateBuildOwnership` | src/homeops_ai/retention.py:386-406 | Blocks exactly when two deployments own one build |
| `RetentionPlanner.CollectPipeline` | src/homeops_ai/retention.py:755-969 | Blocks exactly on an invalid pipeline file, a rollback journal or quarantined input, and otherwise collects exactly what results, requests, markers and journals without a final result mention |
| `RetentionPlanner.ValidateReferenceIntegrity` | src/homeops_ai/retention.py:409-466 | Blocks exactly when a referenced deployment or build is missing or an identity disagrees |
| `RetentionPlanner.InventoryOrphans` | src/homeops_ai/retention.py:1095-1220 | Blocks exactly on what cannot be accounted for, and ages out exactly the stale unreferenced failed builds and interrupted uploads |
| `RetentionPlanner.SelectAdditional` | src/homeops_ai/retention.py:1327-1340 | Sorting and slicing yields min(k, candidates) of the candidates, each newer than every other, or as new with a smaller ID, and that is the top-k set |
| `RetentionPlanner.Decide` | src/homeops_ai/retention.py:1342-1380 | Each deployment's reasons to stay are exactly those that hold of it, and it is removable exactly when it has none |
| `RetentionPlanner.PlanDeploymentRetention` | src/homeops_ai/retention.py:1245-1423 | The plan is blocked exactly when something blocks, deletes nothing then, and otherwise has exactly the determined delete targets |
| `WriteBroker.NothingIsOverwritten` | src/homeops_ai/write_broker.py:781-825 | No publication changes or removes a file that was in the vault; what it adds is the intent's own note at the intent's own path |
| `WriteBroker.PublishedOnceUnlessRemoved` | src/homeops_ai/write_broker.py:664-779 | However often a capture is retried, its note is published a second time only after somebody else removed it |
| `WriteBroker.Broker.WriteIntent` | src/homeops_ai/write_broker.py:556-573 | An intent becomes durable once, before anything of it reaches the vault, and exactly if its one write takes effect |
| `WriteBroker.Broker.PublishResult` | src/homeops_ai/write_broker.py:631-640 | A result becomes durable once, exactly if its one write takes effect, and an applied one only if the vault did hold exactly the intent's bytes at its path |
| `WriteBroker.Broker.PublishNote` | src/homeops_ai/write_broker.py:781-825 | Adds at most one file, only where there is none, and exactly if the link takes effect |
| `WriteBroker.Broker.Rehearse` | src/homeops_ai/write_broker.py:719-756 | Goes on only if a copy of the vault with the note validated and the vault is as it was before the rehearsal; an invalid copy is recorded as rejected with its problems |
| `WriteBroker.Broker.Work` | src/homeops_ai/write_broker.py:664-779 | At most one publication per attempt, only after a rehearsal that validated, at most this request's result recorded; undisturbed the outcome is the one the vault determines |
| `WriteBroker.Broker.Capture` | src/homeops_ai/write_broker.py:533-573 | Durable intents and results never change; a request ID conflicts exactly if its readable intent is for another actor or note, and whatever is stored or pending is for this actor and note; one for the same gets the durable result with no vault write, or an error exactly where that is too long to read; nothing is published without a rehearsal that validated; with an intent too long to read it always fails and does nothing; undisturbed, a first or unfinished capture ends as the vault determines |
| `WriteBroker.Broker.Status` | src/homeops_ai/write_broker.py:575-616 | Reads only; a durable result is returned to its actor, others find nothing, an intent too long to read is an error to everyone, and undisturbed a capture without a result is reported as the vault shows it |
| `WriteBroker.Broker.Run` | src/homeops_ai/write_broker.py:478-531 | Over any number of requests, kills and outside edits: publications are faithful to their first intents, results stay as recorded, applied results were true, and a capture whose intent cannot be read back is never worked on again |
| `WriteBroker.IntentOutgrowsFrame` | src/homeops_ai/write_broker.py:556-573 | How much longer the stored intent is than the frame that asked for it, and so exactly which frames leave an intent that can be read back |
| `WriteBroker.LongCaptureIsLost` | src/homeops_ai/write_broker.py:147-175 | For any body of 65,256 to 65,421 quotes the frame is within its bound and the first capture is applied, while the same capture again and any question about it fail |
| `WriteText.FrameLength` | src/homeops_ai/write_broker.py:388-403 | The canonical JSON line of a capture's frame, escapes and UTF-8 included, has as many bytes as the bound on it counts |
| `WriteText.IntentLength` | src/homeops_ai/write_broker.py:558-572 | The canonical JSON line of a stored intent has as many bytes as the bound on reading it back counts |
| `WriteText.ResultLength` | src/homeops_ai/write_broker.py:631-640 | So has that of every stored result |
| `Receiver.StepsKeep` | internal/receiver/server.go:151-324 | Over every interleaving with failures and kills, published receipts and commit markers only ever grow |
| `Receiver.AcceptedAgree` | internal/receiver/server.go:233-324 | All COMMIT_ACCEPTED replies for one request name the same candidate, expected deployment and archive, those of the one marker, whose candidate was read as ready |
| `Receiver.MarkedAfterReady` | internal/receiver/server.go:281-320 | A marker appears only after its candidate was read as CANDIDATE_READY, and that only where the result file said so |
| `Receiver.AcceptanceNeverReverts` | internal/receiver/server.go:151-231 | Once a reply said a commit was accepted, every status of that request that starts later and replies without refusing says so too |
| `Receiver.StatusIsRead` | internal/receiver/server.go:166-211 | A status reply says accepted exactly if the marker was there at some moment between its request and the reply |
| `Receiver.RepliesAnswerRequests` | internal/receiver/server.go:326-338 | Over every run each process answers its own request, and neither is a commit accepted nor a status reported without the capability of the published receipt |
| `Receiver.StatusAlone` | internal/receiver/server.go:151-231 | What a status left alone replies, for every marker and result file: not found, an internal error, or whether there is a marker |
| `Receiver.CommitAlone` | internal/receiver/server.go:233-324 | What a commit left alone replies and writes, for every receipt, marker and result file |
| `Receiver.StoredAgree` | internal/receiver/archive.go:221-247 | All ACCEPTED submissions of one request report the archive that is published under it |
| `Receiver.Resubmission` | internal/receiver/archive.go:221-247 | Left alone with the lock free a submission ends: first as stored, then identical bytes as idempotent exactly when the stored receipt fits the read bound, anything else as a conflict |
| `Receiver.OversizeReceiptConflicts` | internal/receiver/archive.go:204-235 | A receipt larger than its read bound makes identical bytes conflict with themselves |
| `Receiver.PutKeeps` | internal/receiver/fs.go:145-157 | A step of one process disturbs nothing another process has read, and the lock has one holder |
| `Protocol.LinkIsCommit` | internal/receiver/server.go:306-324 | Linking a marker is an accepted atomic commit call of the publication protocol |
| `Protocol.FoundIsCommit` | internal/receiver/server.go:266-272 | Finding the same marker is an accepted atomic commit call that changes nothing |
| `Protocol.RenameIsSubmit` | internal/receiver/archive.go:239-242 | Renaming a staged submission into place is an accepted atomic submit call |
| `Protocol.RunsAreCalls` | internal/receiver/server.go:151-324 | Over every interleaving of receiver processes, with failures and kills anywhere, the published requests and markers change only as accepted atomic submit and commit calls change them |
| `Protocol.RepliesAreCalls` | internal/receiver/server.go:233-324 | Every reply of acceptance is the reply of the very call it names, made atomically at that moment: the commit of its request, candidate and archive, or the submit of its archive, idempotent exactly when it was published already; a status reply changes nothing and reports no commit without its marker |
| `Protocol.StatusIsCall` | internal/receiver/server.go:151-231 | Every status reply is that of an atomic status call made between request and reply: the request was known then, and accepted exactly if its marker was there |
| `Protocol.StorePromotesMarked` | src/homeops_ai/pipeline.py:2128-2155 | The promotion store promotes only requests that have a marker, each once, which is what the protocol lets its processor do |
| `Documents.NeverAmbiguous` | src/homeops_ai/loader.py:98-129 | With titles unique within each kind no link resolves as ambiguous |
| `Documents.ResolvesInside` | src/homeops_ai/loader.py:98-129 | A resolved link leads to a selected document, an unresolved one nowhere, a document-internal one to its own document |
| `Documents.LinksResolve` | src/homeops_ai/loader.py:98-129 | What every link resolves to over documents with unique titles: an internal one to the knowledge note with its title, to the category only where there is no such note, and to nothing, as excluded or unresolved, where there is neither |
| `Documents.FlattenDistinct` | src/homeops_ai/loader.py:217-326 | Rows of different documents never share a key, so a key repeats exactly when one document repeats it |
| `Relations.PutAllCounts` | src/homeops_ai/loader.py:23-59 | A relation has as many rows as were put exactly when no key was put twice |
| `Relations.PutAllCountsIf` | src/homeops_ai/loader.py:23-59 | With distinct keys a relation holds as many rows of a kind as were put |
| `BuildTheorems.RelationCount` | src/homeops_ai/build.py:201-228 | A relation keyed by document IDs has the expected count exactly when no document repeats one of its keys, the IDs being distinct |
| `BuildTheorems.CategoryByKey` | src/homeops_ai/loader.py:230-251 | Two titles lead to one category exactly when their title keys are equal |
| `BuildTheorems.LinksHold` | src/homeops_ai/verifier.py:116-132 | Every loaded link passes the verifier's link checks |
| `BuildStore.LinksAgreeMeans` | src/homeops_ai/verifier.py:116-132 | The link checks one by one |
| `BuildTheorems.StateRelation` | src/homeops_ai/verifier.py:79-87 | The relation holds as many links of each state as validation counted |
| `BuildTheorems.ReferencesHold` | src/homeops_ai/verifier.py:91-115 | Loaded documents pass the uniqueness, reference and parent checks |
| `BuildTheorems.VerifiedIffNoRepeats` | src/homeops_ai/verifier.py:79-132 | Relations of documents with distinct IDs pass every count, reference, parent and link check exactly when no note repeats a tag or names one category twice |
| `DocumentIds.StoredResolves` | src/homeops_ai/loader.py:98-129 | Links resolve the same whatever IDs the documents carry, up to the conversion of the target ID |
| `DocumentIds.LoadsStored` | src/homeops_ai/loader.py:23-326 | Loading succeeds exactly when IDs and paths are unique as texts and every ID is a UUID, and then stores the relations of the documents under their UUIDs |
| `DocumentIds.CountsStored` | src/homeops_ai/build.py:201-228 | The expected counts do not depend on how IDs are written |
| `DocumentIds.SharedUuidLosesRow` | src/homeops_ai/loader.py:40-56 | Two IDs that spell one UUID lose a row of the source relation |
| `DocumentIds.BuildsIff` | src/homeops_ai/verifier.py:79-132 | Documents that validate load and pass every check exactly when no two share a path, every ID is a UUID, no two IDs are one UUID, and no note repeats a tag or names one category twice |
| `DocumentIds.RepeatedTagFails` | src/homeops_ai/build.py:217-217 | One note with a UUID and a repeated tag validates and loads, and does not verify |
| `DocumentIds.SharedUuidFails` | src/homeops_ai/loader.py:40-47 | Two notes whose different IDs spell one UUID validate, repeat nothing and load, and do not verify |
| `BuildPipeline.ValidateDocuments` | src/homeops_ai/build.py:104-198 | No errors exactly when IDs are present and unique, titles unique per kind and categories resolve; the link counts are those of the manifest |
| `BuildPipeline.LoadDocuments` | src/homeops_ai/loader.py:132-326 | The loops, with every ID column converted to a UUID, load exactly what LoadsStored is about, or raise |
| `BuildPipeline.CheckLoadable` | src/homeops_ai/loader.py:62-79 | The loader's own check passes exactly when IDs are present and unique and paths are unique |
| `BuildPipeline.Verify` | src/homeops_ai/verifier.py:29-148 | No errors exactly when the one ingestion run is the manifest's, the manifest names its directory, and counts, references and links agree |
| `BuildPipeline.VerifyTwice` | src/homeops_ai/build.py:968-1008 | The look after the run was replaced by a verified one never overturns the look at the candidate run |
| `BuildPipeline.BuildDocuments` | src/homeops_ai/build.py:825-1060 | A build of documents that validate is verified exactly under the condition of BuildsIff |
| `BuildPipeline.TitlesUniqueIff` | src/homeops_ai/build.py:139-154 | Titles are unique within each kind exactly when no title key has two paths |
| `DocumentParser.SectionsInOrder` | src/homeops_ai/markdown_parser.py:215-264 | Section ordinals count up from zero and a parent comes before its child |
| `DocumentParser.ParsedIsWellParsed` | src/homeops_ai/markdown_parser.py:341-389 | What the build theorems ask of a document, distinct section and link ordinals and parents that exist, holds of whatever is parsed |
| `DocumentParser.ParseSource` | src/homeops_ai/markdown_parser.py:341-389 | The document has the source's own fields and exactly the sections and links of its body |
| `DocumentParser.BuildSources` | src/homeops_ai/build.py:825-1060 | From tokenised sources on: the build is verified exactly under the condition of BuildsIff, with nothing asked of the parsed documents |
| `MarkdownSections.BuildSections` | src/homeops_ai/markdown_parser.py:215-264 | Ordinals are consecutive, each heading's parent is the latest earlier heading of strictly lower level, each body is the lines up to the next heading, and a preamble exists exactly when there is something before the first heading or no heading |
| `MarkdownSections.NestingMeans` | src/homeops_ai/markdown_parser.py:241-263 | The levels of the records are those of the headings, and each parent is the nearest earlier section of lower level |
| `MarkdownSections.PreambleMeans` | src/homeops_ai/markdown_parser.py:226-239 | There is a preamble exactly if there is text before the first heading, or lines and no heading at all, and it holds those lines |
| `MarkdownSections.TopIsParent` | src/homeops_ai/markdown_parser.py:248-251 | What is left on the stack after popping is the parent |
| `MarkdownSections.LineBelongs` | src/homeops_ai/markdown_parser.py:244-285 | Each line is a heading line, in exactly one section's body, or a blank line before the first heading, and the search returns the section it belongs to |
| `MarkdownSections.BodyHoldsLine` | src/homeops_ai/markdown_parser.py:244-263 | The section that owns a line holds its text at the right place |
| `MarkdownSections.SectionStarts` | src/homeops_ai/markdown_parser.py:267-280 | The starts pair every heading line with its section's ordinal |
| `MarkdownSections.InlineLinks` | src/homeops_ai/markdown_parser.py:150-212 | Exactly the wikilinks and the closes of an open link make one link each, in token order, with the raw target, the text since the opening, consecutive ordinals and the given section |
| `MarkdownSections.LinkOccurrences` | src/homeops_ai/markdown_parser.py:288-306 | The links of a document are in one-to-one correspondence with the tokens that make one, in order, ordinals counting up from zero, each in the section of its own inline token's line |
| `MarkdownSections.LinksDetermined` | src/homeops_ai/markdown_parser.py:288-306 | Only one list of links answers that description: the tokens and section starts determine it |
| `ContextCompiler.BudgetsHold` | src/homeops_ai/context_compiler.py:141-201 | For every candidate list the selection stays within all three budgets and its accumulators are what the selected sections add up to |
| `ContextCompiler.EveryCandidateCounts` | src/homeops_ai/context_compiler.py:141-201 | Selected plus omitted equals the candidates |
| `ContextCompiler.TermsAreCovered` | src/homeops_ai/context_compiler.py:147-201 | Every informative term of a permitted candidate no budget dropped is covered by the selection |
| `ContextCompiler.CanonicalOnlyLostToBudgets` | src/homeops_ai/context_compiler.py:157-201 | Canonical current state is missing only if each permitted candidate for it hit a budget |
| `ContextCompiler.EmptyIff` | src/homeops_ai/context_compiler.py:141-206 | Nothing is selected exactly when every permitted candidate exceeds the character budget by itself |
| `ContextCompiler.Insert` | src/homeops_ai/context_compiler.py:81-91 | Insertion by the sort key keeps the order and the candidates |
| `ContextCompiler.InsertIsStable` | src/homeops_ai/context_compiler.py:81-91 | Candidates with one sort key keep their order |
| `ContextCompiler.Compile` | src/homeops_ai/context_compiler.py:135-206 | The order offered is the candidate list stably sorted by the four ranks of the sort key, written out, and the selection is the greedy one over it |
| `Reachability.ReachableFrom` | src/homeops_ai/query.py:249-263 | Terminates on every link graph, cycles included, with exactly the documents joined to the root by a chain of resolved links, the least set closed under the verifier's rule |
| `Reachability.ReachableIsLeast` | src/homeops_ai/verifier.py:151-161 | A set closed under the rule that holds only chain ends is the least fixpoint |
| `MigrationTransform.TransformIsIdempotent` | src/homeops_ai/migration.py:123-245 | Transforming its own output proposes no change, whatever ID is proposed then |
| `MigrationTransform.TagsSettle` | src/homeops_ai/migration.py:74-120 | After the tag pass neither it nor status normalisation has anything left to do |
| `MigrationTransform.UnreadableStatusReplaced` | src/homeops_ai/migration.py:95-100 | A status that is not an approved value is replaced, although reported as preserved, exactly when the lifecycle tags agree on one status |
| `MigrationTransform.StatusesMap` | src/homeops_ai/migration.py:26-37 | Which statuses are approved and stay, and what each other one becomes |
| `MigrationTransform.TransformNote` | src/homeops_ai/migration.py:123-245 | The in-place changes and the change list are those of the transformation the idempotence theorem is about |
| `Migration.FileSettles` | src/homeops_ai/migration.py:123-245 | A migrated file is left byte for byte alone by every later plan |
| `Migration.FileRefused` | src/homeops_ai/migration.py:123-185 | A file is refused exactly if it cannot be parsed or carries an ID that is no canonical UUIDv4 string |
| `Migration.ReplanIsQuiet` | src/homeops_ai/migration.py:248-290 | Planning again over the migrated vault finds no errors and changes no file |
| `Migration.PlanMigration` | src/homeops_ai/migration.py:248-290 | One entry a readable source, and no errors exactly when none was skipped and no ID is shared |
| `Migration.Workspace.WriteAll` | src/homeops_ai/migration.py:377-405 | The faults and the reviewed IDs decide how the loop ends (EndsAs): it goes through exactly when every file has a reviewed ID and every write is done; the one file it reaches whose write raises after taking effect stays migrated, and otherwise whatever raised leaves every byte as before |
| `Migration.Workspace.Undo` | src/homeops_ai/migration.py:399-404 | Putting back what was written leaves a file whose own write raised as that write left it |
| `Migration.Workspace.Apply` | src/homeops_ai/migration.py:330-407 | Refuses exactly when the review no longer describes the vault or a snapshot exists; otherwise the snapshot is kept and EndsAs says exactly when it completes, when it raises, and which file then stays migrated, every other byte being as before; when it completes, the originals of all changed files are kept and all of them were reviewed |
| `Migration.UndisturbedEnds` | src/homeops_ai/migration.py:377-405 | Without faults the write loop goes through exactly when every changed file has a reviewed ID, and leaves nothing behind otherwise |
| `Migration.MigratedAllTheSame` | src/homeops_ai/migration.py:302-405 | One reviewed note whose only write raises after taking effect: apply raises and the note stays migrated |
| `Migration.Workspace.Restore` | src/homeops_ai/migration.py:410-436 | Refuses exactly when a migrated file changed afterward; otherwise it completes exactly when every write is done and then has put back every original; when it raises it has put back those before the failing one |
| `Migration.Workspace.ApplyThenRestore` | src/homeops_ai/migration.py:330-436 | Applying and then restoring returns every byte of the vault; apply ends as EndsAs says, undisturbed it completes exactly when every changed file has a reviewed ID, and where it raised all but the file it left migrated is as before |
| `Migration.ReviewedAreApplied` | src/homeops_ai/migration.py:410-436 | Putting the originals back over the migrated vault gives the vault the plan was made over |
| `UstarReceiver.Header` | internal/receiver/archive.go:89-103 | The counters after one header in 64-bit integers without overflow, exactly the headers that pass, and exactly those refused for exceeding a limit |
| `UstarReceiver.Finish` | internal/receiver/archive.go:162-185 | The checks after the entry loop accept exactly canonical ends: two zero blocks, then nothing or the zero bytes of the last record |
| `UstarReceiver.ReceiveArchive` | internal/receiver/archive.go:67-203 | Accepts exactly the acceptable archives, on every input stream and with every counter in wrapping 64-bit arithmetic, unless the archive limit is the largest integer, where it accepts none; a refusal blames a limit only if some limit is exceeded, and always if that is the first thing wrong |
| `UstarReceiver.WrapsHarmlessly` | internal/receiver/archive.go:97-97 | The byte counter is exact while the archive limit leaves room for one more header; above that a wrapped counter is negative and equals no stream position |
| `UstarReceiver.ManyEntriesAreLong` | internal/receiver/archive.go:89-97 | Every entry takes a block at least, which is why the file counter cannot overflow before the reader's limit ends the stream |
| `UstarWriter.LargestLimitRefuses` | internal/receiver/archive.go:67-67 | Under the largest limits, an archive of one request, its manifest and one vault file is admitted by every check and refused all the same |
| `UstarWriter.SmallArchiveAcceptable` | internal/receiver/archive.go:81-203 | That archive is acceptable under the largest limits |
| `UstarWriter.WriteSubmission` | src/homeops_ai/snapshot.py:382-424 | Request, manifest, then the vault entries strictly sorted, then the end marker and zeros to a full record; refused exactly when the request is not valid or request and manifest disagree |
| `UstarWriter.WrittenIsAcceptable` | src/homeops_ai/snapshot.py:382-424 | The receiver accepts what the writer emits exactly when the vault is not empty and everything is within the limits |
| `UstarWriter.ReceiptPasses` | src/homeops_ai/pipeline.py:1520-1620 | The receipt of every accepted submission passes the processor's identity, path, count and byte checks |
| `UstarWriter.VaultPathSafe` | internal/receiver/archive.go:300-318 | A path is safe in the inventory exactly when it is safe under the vault prefix |
| `UstarWriter.LessUnderPrefix` | src/homeops_ai/snapshot.py:410-418 | Sorting prefixed names sorts the paths |
| `UstarWriter.Submit` | src/homeops_ai/snapshot.py:382-424 | End to end: received exactly when it fits, and then confirmed |
| `Ordering.LessIsTotal` | internal/receiver/archive.go:280-282 | Byte-wise order on names is a strict total order |

## Left out

- SSH, subprocesses, sockets, argument parsing, the MCP server, OAuth and JWKS loading: plumbing over libraries that are not part of this model.
- CozoDB and Datalog: each relation is a map from its key columns.
- Hashing, JSON, YAML, Markdown tokenising and Unicode folding: parameters or stand-ins, as said above.
- Partial file writes and directory syncs: a write is one step; `fsync` of a directory is no step of its own.
- The manual `db promote`, `cleanup_failed` and legacy schema-v1 adoption: outside the commit and history theorems; adoption writes no history record.
- Symlink, ownership, mode and UID checks, field-by-field schema validators and timestamp parsing: records come validated or as invalid.
- Evaluation suites, query scores, excerpts and provenance comparisons: their outcomes are inputs.
- PromotionStore.Store.PublishCurrentProjection: states what it writes only when nothing interferes, because the source reads active.json outside the lock and may publish a projection that is out of date.
- PromotionStore.Store.RunThenRecover: wants a pass that lists every marker, which is what the directory listing of the source yields when no marker arrives during it.
- Building inside `rebuild`: which build results from a snapshot is an input; the model keeps the order of its durable writes.
- Publication.Coordinator.Status: a marker that is unreadable or disagrees with its receipt is not reported as an error there; `receiver.dfy` treats those branches.
- PublicationState.Commit: handleCommit is one step of the protocol; its interleavings are in `receiver.dfy`.
- RetentionPlanner.PlanDeploymentRetention: the order of the delete targets and the texts of unresolved entries are not modelled, and while a plan is blocked its decisions are not described.
- WriteBroker.Broker.PublishNote: the temporary partial file linked into place is not a separate file of the vault, so a kill that leaves one behind is not shown.
- WriteBroker.Broker.Capture: takes the note normalised and the subject allowed; `_normalize_note` is not modelled, and which waiting state a pending reply names is stated only where nothing interferes.
- WriteBroker.Broker.Status: a response longer than its own bound, which the server does not send, is not shown.
- Receiver.Next: payload files, staging directories and JSON envelopes are not modelled; one result file stands for its parsed identity.
- BuildPipeline.Verify: the names of the relations are not compared, and time stamps of the ingestion run are left out; which of two rows with one key survives is taken to be the later one, on which no check depends.
- MarkdownSections.InlineLinks: how a raw target splits into kind, title, heading and block is not modelled.
- ContextCompiler.Compile: retrieval and the assembly of the bundle after the selection are not modelled.
- Migration.Workspace.Apply: directory creation and the copying of originals are taken to succeed, a kill in the middle is not covered, and undo writes succeed.
- UstarReceiver.ReceiveArchive: of an archive with several faults, some beyond the limits, which verdict it gets is left open but where a limit is the first thing wrong.
- UstarWriter.WriteSubmission: names too long for the USTAR name and prefix fields are refused by the source before writing and are not modelled.
- The read-only status, listing and query commands: single-branch members over validated state.

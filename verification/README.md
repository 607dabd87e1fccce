# MandoForge control plane: a verified model

MandoForge is an agent control plane written in Rust. This project models the parts of
`crates/mandoforge-api` that are protocols, loops and recursive transformations, and proves
what they keep. It is checked with `dafny verify dfyconfig.toml`.

## What is modelled

**Approvals and commit tokens** (`ApprovalProtocol`, `ApprovalSafety`, `ApprovalTheorems`,
`ApprovalFrames`, `ApprovalTiming`, `ApprovalStore`). Every store call and every execution-queue
call is one atomic step: opening and editing calls, declining, the approve handler's check, win,
reads, token creation and enqueueing, the queue's claim, lease, commit point, finalisation,
recovery and retry, and a worker's validate, consume and write. Any number of handlers and workers interleave freely,
and the theorems are about every sequence of steps from the empty state. Two facts about the
code shape the proof:

- The store's consume call is an unconditional update, not a compare-and-set from `issued`
  (`store_approvals.rs:276-306`, shown by `StoreConsumeIsNotCompareAndSet`). Single use of a
  token therefore follows from the queue: one approval has one winner, one token and one job, a
  job of a consuming tool passes the `running` to `executing` transition at most once, and only
  the run that did so consumes.
- The expiry is tested when the token is validated and not again when it is consumed.
  `ConsumptionIsAuthorised` proves the validation precedes the expiry. The consumption precedes it
  too exactly if the clock advances, between the two steps, by less than the token had left
  (`ConsumedInTimeIff`); a whole run is in time exactly if a test of the expiry at the consume call
  would refuse none of its steps (`AllInTimeIff`); with that test added every run is in time
  (`GuardedIsInTime`); without it `LateConsumptionIsPossible` exhibits a run that is not.

`ControlPlane` is the same store as an object with fields that the handlers update.
`DecideApproval` shows that a refused token leaves the approval approved, without token or job.

**Migration ledger** (`MigrationLedger`, `MigrationRuns`). The migration and verification loops
over one transaction, and any number of migrator and verifier sessions interleaving statement
by statement under the advisory lock. A session sees what is committed at that moment together
with its own pending writes. Interleavings are proved to have the effect of the committed runs
executed whole, one after the other.

**Context packets** (`ContextRetrieval`, `ContextRendering`, `JsonCompaction`, `SemanticRefs`,
`ActionSchema`). Retrieval by scope and rank, the grant's memory filter, search, greedy rendering
under a token budget, truncation, null compaction and layer projection, the collection of
semantic references, and the recursive parameter validator.

**Notifications and escalation** (`NotificationRouting`, `NotificationRuns`, `NotificationOverlap`,
`Escalation`). The routing summary, the delivery it predicts, the daily limiter over a sequence of
runs and over runs that overlap, and the escalation ladder, climbed by due runs and by hand. Found
on the way, each with its exact condition and an example:

- A delivery that reaches one channel and fails on a later one leaves no log entry
  (`PartialDeliveryIsNotLogged`, `PartialDeliveryHappens`), and the next run tries it again
  (`FailedIsTriedAgain`, `PartialDeliveryIsRepeated`).
- Two runs less than a day apart both deliver an approval if the later one read the log before the
  earlier one had written to it, and nothing else holds either back (`BothDeliverIff`,
  `OverlapDeliversTwice`).
- Escalating by hand sets the ladder's record aside, so that orders can repeat
  (`ManualEscalationRestartsLadder`, `RisesThroughoutIff`, `LadderIsClimbedTwice`).
- The age of an approval is cut to 32 bits and read as signed. A rule that has come due stops being
  due after 2^31 seconds and is due again once its own seconds have passed after 2^32, and so on
  (`AgeWrapsAround`, `DueAgainAfterWrapping`).

**Release automation** (`ReleaseAutomation`, `ReleaseSummary`). The due run over the release store,
with the store's own begin, complete, fail and reject checks, and the rollout summary. A release
that is due can still be refused by the store at the start of its promotion, which ends the whole
run without a report: a promotion someone else has in progress, or a release requested by `system`
(`HeldOrOwnEndsTheRun`). `DueButRefusedIff` lists every such case. One of them, an approver's name
with white space around it, passes the due decision, which trims, and not the store, which does
not; the request handler trims the name before it is stored
(`handlers/agent_releases.rs:424`), so that case needs a row written some other way.

**Codex supervision** (`CodexTraces`, `CodexPolling`), **artifact walk** (`ArtifactWalk`), **dataset
profiles** (`DatasetProfile`) and **evidence checklists** (`EvidenceChecklist`).

`Sequences`, `Text`, `Json` and `Wrappers` hold what these share. `StableSortIsUnique` shows that
the list sort used in the model is what any stable sort must return.

## How the model reads the code

- Times are integers, scores and rates are reals, ids are numbers or opaque texts.
- The digest of arguments and the connector target are one function of tool and arguments that
  may fail; nothing is assumed about it, injectivity least of all.
- Writing an id and reading it back gives the same id, and its text has no outer white space.
- Answers from networks, controllers, connectors and failing store calls are arbitrary inputs.
- JSON objects are finite maps. A JSON number is an integer or a real.
- Where a proof concerns only the order of decisions, a component takes its reading of texts as
  a parameter (`Standard` in `ActionSchema`, `CodexTraces` and `DatasetProfile`, `ScriptOf` in
  `ReleaseAutomation`, `PassOf` in `NotificationRuns`) and is used with the definition given there.

## Model

| member | source | states |
|---|---|---|
| `ApprovalSafety.StepKeepsInv` | crates/mandoforge-api/src/execution_queue.rs:872-1113 | every step of every handler, worker and queue call keeps the layered invariant: one winner, token and job per approval, committed jobs sealed, live runs own the commit |
| `ApprovalSafety.InvAlways` | crates/mandoforge-api/src/approval_runtime.rs:9-279 | the invariant holds after every sequence of steps from the empty state |
| `ApprovalSafety.RunFactsHold` | crates/mandoforge-api/src/execution.rs:847-890 | what a run past the commit point owns: its job's commit and, once validated, an issued token of the same approval |
| `ApprovalSafety.ConsumeTokenKeeps` | crates/mandoforge-api/src/store_approvals.rs:276-306 | the unconditional consume keeps the invariant because only the committed run can reach it |
| `ApprovalTheorems.TokenConsumedAtMostOnce` | crates/mandoforge-api/src/approval_runtime.rs:174-215 | no two consumptions in any run are of the same token |
| `ApprovalTheorems.OneTokenAndOneJobPerApproval` | crates/mandoforge-api/src/approval_runtime.rs:84-172 | however many approvers race, an approval has at most one token and one job |
| `ApprovalTheorems.ConsumptionIsAuthorised` | crates/mandoforge-api/src/approval_runtime.rs:174-279 | behind each consumption stands an approval won while pending and unexpired, a validation before the token's expiry, and arguments with the digest and target recorded at issue |
| `ApprovalTheorems.WriteOncePerApproval` | crates/mandoforge-api/src/execution.rs:1010-1140 | external writes happen at most once per approval, after a consumption by the same run, with arguments bound to the token |
| `ApprovalTheorems.ClaimableJobIsUncommitted` | crates/mandoforge-api/src/execution_queue.rs:1389-1435 | a queued or running job of a consuming tool never passed the commit point before |
| `ApprovalTheorems.OnlyConsumingToolsConsume` | crates/mandoforge-api/src/execution.rs:1064-1140 | a step that consumes belongs to a consuming tool and to the run that committed its job |
| `ApprovalTheorems.LateConsumptionIsPossible` | crates/mandoforge-api/src/approval_runtime.rs:174-279 | a concrete run consumes a token at the instant it expires |
| `ApprovalTiming.ConsumedInTimeIff` | crates/mandoforge-api/src/approval_runtime.rs:174-279 | every consumption of every run goes back to a validation step and a consume step, and is before the expiry exactly if the clock advances between them by less than was left at validation, that is, exactly if a test at the consume call would have passed |
| `ApprovalTiming.AllInTimeIff` | crates/mandoforge-api/src/store_approvals.rs:276-306 | a run consumes every token in time exactly if that test would refuse none of its steps |
| `ApprovalTiming.GuardedIsInTime` | crates/mandoforge-api/src/approval_runtime.rs:174-279 | with the test added to the consume step, every consumption of every run is in time |
| `ApprovalTiming.GuardedIsRun` | crates/mandoforge-api/src/approval_runtime.rs:174-279 | a run with the test is a run of the code over the steps let through, so all else that is proved of runs holds of it |
| `ApprovalTiming.TimesAreOrdered` | crates/mandoforge-api/src/approval_runtime.rs:18-279 | the approval was found unexpired no later than its token was validated, and that no later than it was consumed |
| `ApprovalFrames.StepTimes` | crates/mandoforge-api/src/execution_queue.rs:872-1113 | what every step of the protocol does to the clock, to a token's expiry and issue, to the consumptions, to a validated run and to a handler's check |
| `ApprovalStore.VerdictIsTheDecidersPath` | crates/mandoforge-api/src/approval_runtime.rs:84-172 | the handler's decision about a token is the path of the step model: same token, none needed, or stop |
| `ApprovalStore.BoundInvocationNeverRunsInline` | crates/mandoforge-api/src/context_packet_runtime.rs:3642-3694 | an invocation that binds to a token never runs inline and its call records exactly the binding of its arguments |
| `ApprovalStore.ControlPlane.StoreDecide` | crates/mandoforge-api/src/store_approvals.rs:394-450 | compare-and-set from pending to approved |
| `ApprovalStore.ControlPlane.StoreDecline` | crates/mandoforge-api/src/store_approvals.rs:452-560 | declining denies the waiting call with the approval, and declining again the same way repairs a call left waiting and changes nothing else |
| `ApprovalStore.ControlPlane.MaybeIssueToken` | crates/mandoforge-api/src/approval_runtime.rs:84-172 | issues the one token the grant asks for, or refuses without writing |
| `ApprovalStore.ControlPlane.DecideApproval` | crates/mandoforge-api/src/approval_runtime.rs:9-82 | the whole new state for each outcome: not pending, expired, rejected, approved with, without or refused a token |
| `ApprovalStore.ControlPlane.ConsumeValidToken` | crates/mandoforge-api/src/approval_runtime.rs:174-279 | succeeds exactly when the approval's token passes every check, and then only that token changes |
| `ApprovalStore.ControlPlane.ExecuteToolInvocation` | crates/mandoforge-api/src/context_packet_runtime.rs:3622-3892 | records the call, opens an approval or runs inline exactly as binding, policy and gate decide |
| `MigrationLedger.ApplyPathKeeps` | crates/mandoforge-api/src/db_bootstrap.rs:218-246 | one turn of the loop keeps scripts executed once and ledger entries as they were |
| `MigrationLedger.MigrateEstablishesVerified` | crates/mandoforge-api/src/db_bootstrap.rs:188-254 | a committed run leaves a database that verification accepts for the same files |
| `MigrationLedger.VerifiedIffRunIsIdle` | crates/mandoforge-api/src/db_bootstrap.rs:86-137 | verification accepts exactly when the next run would succeed without executing or recording anything |
| `MigrationLedger.ExtensionKeepsVerified` | crates/mandoforge-api/src/db_bootstrap.rs:110-134 | what verified still verifies in any extension of the database |
| `MigrationLedger.Database.RunMigrations` | crates/mandoforge-api/src/db_bootstrap.rs:188-254 | the loop commits all of the run or nothing: a failed run leaves ledger and database untouched |
| `MigrationLedger.Database.VerifyMigrations` | crates/mandoforge-api/src/db_bootstrap.rs:86-137 | the verification loop accepts exactly the files recorded with their checksums |
| `MigrationRuns.StepKeepsInv` | crates/mandoforge-api/src/db_bootstrap.rs:184-254 | every statement of every session keeps the lock and progress invariants |
| `MigrationRuns.CommitIsOneRun` | crates/mandoforge-api/src/db_bootstrap.rs:248-252 | the lock holder's commit equals the whole run done at once on the committed state |
| `MigrationRuns.EachFileExecutedOnce` | crates/mandoforge-api/src/db_bootstrap.rs:208-246 | under any interleaving no filename is executed twice and the ledger lists exactly what was executed |
| `MigrationRuns.LedgerOnlyGrows` | crates/mandoforge-api/src/db_bootstrap.rs:184-254 | nothing recorded is changed or removed by any later steps |
| `MigrationRuns.InterleavingIsSequential` | crates/mandoforge-api/src/db_bootstrap.rs:184-254 | the database is the replay of the committed runs in order; failed sessions are not among them |
| `MigrationRuns.FinishedStaysVerified` | crates/mandoforge-api/src/db_bootstrap.rs:86-137 | once a migrator or verifier finished, its files verify in every later state |
| `MigrationRuns.VerifiedFilesAreNotRunAgain` | crates/mandoforge-api/src/db_bootstrap.rs:208-246 | a migrator starting on verified files executes and records nothing, whatever others do meanwhile |
| `Sequences.FilterCommutesWithSort` | crates/mandoforge-api/src/context_packet_runtime.rs:739-758 | filtering commutes with stable sorting |
| `Sequences.StableSortIsUnique` | crates/mandoforge-api/src/context_packet_runtime.rs:748-756 | a list is the stable rearrangement of another exactly when it is what the sort returns |
| `ContextRetrieval.CheckScope` | crates/mandoforge-api/src/context_packet_runtime.rs:906-934 | the field-by-field loop decides the scope match |
| `ContextRetrieval.MatchesIffFullySpecific` | crates/mandoforge-api/src/context_packet_runtime.rs:906-978 | an object is in scope exactly when its specificity is the number of scopes it declares, and that is positive |
| `ContextRetrieval.OrderIsTotalPreorder` | crates/mandoforge-api/src/context_packet_runtime.rs:747-756 | the comparison by rank, specificity and key is a total preorder |
| `ContextRetrieval.RetrievedBestFirst` | crates/mandoforge-api/src/context_packet_runtime.rs:747-758 | retrieved objects come by descending rank, then descending specificity, then ascending key; none comes before a fresher one of equal trust or a verified one of equal freshness |
| `ContextRetrieval.StricterGrantAdmitsFewer` | crates/mandoforge-api/src/context_packet_runtime.rs:471-530 | of two grants that differ in the trust they ask for, the stricter admits from any list a part of what the laxer admits |
| `ContextRetrieval.BatchFilterIsSingleTest` | crates/mandoforge-api/src/context_packet_runtime.rs:421-514 | the grant's batch filter is a prefix of filtering by the single-object test, and all of it without a cap |
| `ContextRetrieval.PacketIsPrefixOfCandidates` | crates/mandoforge-api/src/context_packet_runtime.rs:421-469 | a grant-built packet's objects are a prefix of the scoped-lookup candidates |
| `ContextRetrieval.PacketIsAllCandidates` | crates/mandoforge-api/src/context_packet_runtime.rs:729-760 | if neither cap bites the two lists are equal |
| `ContextRetrieval.Search` | crates/mandoforge-api/src/context_packet_runtime.rs:1383-1480 | the handler searches the packet, or under a scoped-lookup grant the store, and refuses another packet's id |
| `ContextRetrieval.PacketSearchIsPrefix` | crates/mandoforge-api/src/context_packet_runtime.rs:1413-1475 | for any query, type and limit the packet-bounded result is a prefix of the scoped one |
| `ContextRetrieval.ScopedSearchIsSoundAndComplete` | crates/mandoforge-api/src/context_packet_runtime.rs:1413-1475 | results are sorted, active, in scope, allowed and wanted, and nothing such is missing unless the limit is reached |
| `ContextRendering.TruncateWithinBoundIff` | crates/mandoforge-api/src/context_packet_runtime.rs:1294-1303 | truncation is within its bound exactly for bounds of three or more, or when nothing is cut |
| `ContextRendering.TruncateAgain` | crates/mandoforge-api/src/context_packet_runtime.rs:1294-1303 | truncating twice is truncating once to the smaller bound; in particular it is idempotent for every bound |
| `ContextRendering.Bounded` | crates/mandoforge-api/src/context_packet_runtime.rs:1273-1280 | a requested budget is brought into its range and kept when already there |
| `ContextRendering.ChoiceConserves` | crates/mandoforge-api/src/context_packet_runtime.rs:1028-1060 | taken, too dear and over the cap add up to the objects offered, in order and without overlap |
| `ContextRendering.ChoiceStaysInBudget` | crates/mandoforge-api/src/context_packet_runtime.rs:1051-1056 | usage is the base plus the cost of what was taken, within the budget if anything was |
| `ContextRendering.TooDearStaysTooDear` | crates/mandoforge-api/src/context_packet_runtime.rs:1051-1056 | an object omitted for tokens would not fit at the final usage |
| `ContextRendering.EachIsDecidedInTurn` | crates/mandoforge-api/src/context_packet_runtime.rs:1028-1060 | each object's fate depends exactly on what was taken before it, the cap before the budget |
| `ContextRendering.SmallerCapIsPrefix` | crates/mandoforge-api/src/context_packet_runtime.rs:1028-1034 | a smaller object cap yields the first objects of the larger cap's choice |
| `ContextRendering.EverythingTakenIff` | crates/mandoforge-api/src/context_packet_runtime.rs:1028-1060 | nothing is omitted exactly when all objects fit under the cap and in the budget |
| `ContextRendering.ChooseObjects` | crates/mandoforge-api/src/context_packet_runtime.rs:1028-1060 | the loop renders the chosen objects in order and counts the others |
| `ContextRendering.Render` | crates/mandoforge-api/src/context_packet_runtime.rs:981-1110 | reminders, rendered objects, usage and omissions under the clamped budgets; rendered plus omitted is retrieved |
| `JsonCompaction.CompactIsNormalForm` | crates/mandoforge-api/src/context_packet_runtime.rs:1160-1176 | compaction leaves alone exactly the null-free values and is idempotent |
| `JsonCompaction.CompactHasNoNull` | crates/mandoforge-api/src/context_packet_runtime.rs:1160-1176 | it yields nothing exactly for null and leaves no null at any depth |
| `JsonCompaction.CompactKeepsStructure` | crates/mandoforge-api/src/context_packet_runtime.rs:1160-1176 | objects keep their non-null fields and arrays their non-null items in order, each compacted |
| `JsonCompaction.CompactKeepsLeaves` | crates/mandoforge-api/src/context_packet_runtime.rs:1160-1176 | a leaf is found in the compacted value exactly if it is found before and is not null |
| `JsonCompaction.ProjectLayersTwice` | crates/mandoforge-api/src/context_packet_runtime.rs:1133-1158 | the layer projection is null-free and idempotent |
| `JsonCompaction.ProjectLayersKeepsLeaves` | crates/mandoforge-api/src/context_packet_runtime.rs:1133-1158 | a layer keeps exactly its non-null leaves outside the withheld fields |
| `SemanticRefs.Collect` | crates/mandoforge-api/src/context_packet_runtime.rs:1854-1877 | the walk adds exactly the references of the value to the set it is given |
| `SemanticRefs.RefsExactly` | crates/mandoforge-api/src/context_packet_runtime.rs:1848-1889 | an id is collected exactly if some text naming it has a reference key as nearest enclosing key, looking through arrays |
| `SemanticRefs.CompactionKeepsRefs` | crates/mandoforge-api/src/context_packet_runtime.rs:1848-1877 | compacting the arguments first collects the same ids |
| `ActionSchema.AcceptsIffAllPartsOk` | crates/mandoforge-api/src/context_packet_runtime.rs:2913-3014 | a value is accepted exactly when every part reached through properties and items has the type and enumeration asked for, no undeclared field and every required one |
| `ActionSchema.ShorthandIsObjectSchema` | crates/mandoforge-api/src/context_packet_runtime.rs:2853-2911 | the shorthand map accepts exactly what the object schema built from it accepts, unless the map reads as an object schema |
| `ActionSchema.ObjectParameterCalledTypeBreaksShorthand` | crates/mandoforge-api/src/context_packet_runtime.rs:2861-2868 | declaring a parameter called `type` by the bare name of the object type makes the shorthand accept nothing, whatever else is declared, while the built schema accepts exactly what is declared |
| `ActionSchema.BrokenShorthandWitness` | crates/mandoforge-api/src/context_packet_runtime.rs:2861-2868 | such a declaration, of which the built schema accepts any object as the parameter |
| `ActionSchema.StandardNamesObjects` | crates/mandoforge-api/src/ontology_sdk_catalog.rs:861-908 | the type names as they are read name objects |
| `NotificationRouting.RoutingPredictsDelivery` | crates/mandoforge-api/src/approval_runtime.rs:1399-1570 | an approval counts as unroutable exactly when delivering it returns an undelivered reserved result; a routable one is delivered on some channel within its attempts or the delivery fails |
| `NotificationRouting.DeliveryFailsIff` | crates/mandoforge-api/src/approval_runtime.rs:1520-1533 | a delivery fails exactly when there are targets and some addressed channel gets no success within its attempts |
| `NotificationRouting.ReadyIffSomeUrl` | crates/mandoforge-api/src/approval_runtime.rs:1581-1694 | the summary's channel test holds exactly when the deliverer's configuration has an address |
| `NotificationRouting.NoChannelNothingRoutable` | crates/mandoforge-api/src/approval_runtime.rs:1334-1353 | with a channel count of zero nothing pending is routable |
| `NotificationRouting.Summarise` | crates/mandoforge-api/src/approval_runtime.rs:1315-1475 | the counts are the numbers of pending approvals of each kind, the attention items the general ones and one for each unroutable approval |
| `NotificationRouting.TallyPending` | crates/mandoforge-api/src/approval_runtime.rs:1399-1442 | the loop over pending approvals counts and raises exactly as asked |
| `NotificationRouting.ReadyIffNothingToAttendTo` | crates/mandoforge-api/src/approval_runtime.rs:1444-1454 | the status is ready exactly when the attention list is empty |
| `NotificationRouting.DeliverChannel` | crates/mandoforge-api/src/approval_runtime.rs:1703-1794 | the attempt loop stops at the first success within the limit, or fails |
| `NotificationRouting.DeliverNotification` | crates/mandoforge-api/src/approval_runtime.rs:1477-1570 | reserved without targets or channels, otherwise the channels in order until one fails |
| `NotificationRuns.Notifier.ExecuteDeliveryRun` | crates/mandoforge-api/src/approval_runtime.rs:640-722 | the run's log entries, counts and status for every candidate, or an aborted run without a report |
| `NotificationRuns.EveryCandidateCounted` | crates/mandoforge-api/src/approval_runtime.rs:650-690 | delivered, reserved, failed and skipped add up to the candidates for any limit |
| `NotificationRuns.StatusTellsOutcomes` | crates/mandoforge-api/src/approval_runtime.rs:650-697 | a finished run reports delivered, partial_failure, failed, reserved or no_pending exactly according to which outcomes occurred among the unexpired candidates not notified recently |
| `NotificationRuns.DeliveredIff` | crates/mandoforge-api/src/approval_runtime.rs:647-690 | a run delivers exactly the candidates within its limit that have not expired, are sent, were not notified in the day before, and come before any refused expiry |
| `NotificationRuns.DeliveredAtMostOnceADay` | crates/mandoforge-api/src/approval_runtime.rs:647-734 | in any sequence of runs, two that deliver the same approval start more than 24 hours apart |
| `NotificationRuns.PartialDeliveryIsNotLogged` | crates/mandoforge-api/src/approval_runtime.rs:1520-1568 | a delivery gets through to some channel and leaves the log as it was exactly if the first channel with an address answers in time and a later one does not; it counts as failed |
| `NotificationRuns.PartialDeliveryHappens` | crates/mandoforge-api/src/approval_runtime.rs:1520-1568 | a run over two channels of which the first answers: the approvers are told, the log stays empty and the approval counts as failed |
| `NotificationRuns.FailedIsTriedAgain` | crates/mandoforge-api/src/approval_runtime.rs:647-734 | unless someone else logs a notification of it, an approval whose delivery failed is tried by every later run that reaches it unexpired |
| `NotificationRuns.PartialDeliveryIsRepeated` | crates/mandoforge-api/src/approval_runtime.rs:647-734 | after that run, one whose channels all answer delivers the approval, the first channel's approvers being told twice |
| `NotificationOverlap.StepKeepsInv` | crates/mandoforge-api/src/approval_runtime.rs:640-722 | under any interleaving a session is as far as a whole run on the log it read, its deliveries are in the log after that reading, and its entries are of its deliveries |
| `NotificationOverlap.SessionIsOneRun` | crates/mandoforge-api/src/approval_runtime.rs:640-722 | a session that overlaps others delivers what the whole run on the log it read delivers |
| `NotificationOverlap.BothDeliverIff` | crates/mandoforge-api/src/approval_runtime.rs:646-734 | of two sessions that start within 24 hours both deliver an approval exactly if nothing else holds either back and neither read the other's entry, which only the one that read later can |
| `NotificationOverlap.OverlapDeliversTwice` | crates/mandoforge-api/src/approval_runtime.rs:646-648 | two runs that both read the log before either writes to it both deliver the same approval |
| `Escalation.NextRuleIsLeastDue` | crates/mandoforge-api/src/approval_runtime.rs:307-336 | the chosen rule is due and no due rule comes before it by order and creation time; none is chosen only if none is due |
| `Escalation.LeastIsLeast` | crates/mandoforge-api/src/approval_runtime.rs:326-335 | the minimum is the first of the least rules |
| `Escalation.AgeIsWaitIff` | crates/mandoforge-api/src/approval_runtime.rs:322-325 | the age is the time waited exactly if that is below 2^31 seconds |
| `Escalation.AgeWrapsAround` | crates/mandoforge-api/src/approval_runtime.rs:322-333 | a rule waited for long enough passes the time test exactly if the low 32 bits of the wait are at least its seconds and below 2^31 |
| `Escalation.DueAgainAfterWrapping` | crates/mandoforge-api/src/approval_runtime.rs:322-333 | a rule of five seconds is not due after 2^31 seconds and due again ten seconds past 2^32 |
| `Escalation.EscalationRecordsRule` | crates/mandoforge-api/src/approval_runtime.rs:577-604 | the evidence written by an escalation reads back as its rule |
| `Escalation.EscalationRoutesToGroup` | crates/mandoforge-api/src/approval_runtime.rs:577-604 | an escalated approval is notified to the group it was handed to, whatever its evidence said before |
| `Escalation.EscalationKeepsOtherEvidence` | crates/mandoforge-api/src/approval_runtime.rs:489-501 | an escalation overwrites the group's id, its name and the escalation itself, keeps every other field, and keeps what was no object as details |
| `Escalation.Escalator.EscalateByHand` | crates/mandoforge-api/src/handlers/approvals.rs:139-193 | a request hands an approval on exactly if it is pending and unexpired and the group asked for, or that of the level's first active rule, exists and is active; the whole new state for every outcome |
| `Escalation.ManualEscalationRestartsLadder` | crates/mandoforge-api/src/approval_runtime.rs:312-321 | after an escalation by hand the order on record is none if the caller named the group, and that of the level's first rule otherwise |
| `Escalation.Escalator.TakeTurn` | crates/mandoforge-api/src/approval_runtime.rs:512-553 | one listed approval is expired, skipped, or escalated and notified, with its whole new state |
| `Escalation.Escalator.ExecuteDueRun` | crates/mandoforge-api/src/approval_runtime.rs:503-575 | each turn is decided on the approval as listed at the start, which the run's own turns have left as it was; expired, escalated and skipped add up to the approvals listed and deliveries equal escalations in a finished run |
| `Escalation.EscalationClimbs` | crates/mandoforge-api/src/approval_runtime.rs:307-336 | each escalation by a rule is above the order on record and becomes the record |
| `Escalation.EscalationsClimbAndAreBounded` | crates/mandoforge-api/src/approval_runtime.rs:503-575 | over any history of due runs, finished or cut short, and requests by hand, orders strictly increase from one escalation by hand to the next, starting above what it recorded, and each such stretch is no longer than the level has distinct active orders |
| `Escalation.RisesThroughoutIff` | crates/mandoforge-api/src/approval_runtime.rs:307-336 | all of an approval's orders increase exactly if across every escalation by hand the next rule's order exceeds the one set aside |
| `Escalation.LadderIsClimbedTwice` | crates/mandoforge-api/src/approval_runtime.rs:312-321 | a history in which the same rule escalates an approval before and after an escalation by hand |
| `ReleaseAutomation.PromotionIsJustified` | crates/mandoforge-api/src/agent_release_automation.rs:32-175 | over the turns of a run a release becomes promoted exactly if it was listed, and as it stood in the store at its turn no human was asked, its policy approved it, its window was open and not over, its score sufficed, any required controller was configured, a configured one confirmed and the store let it begin, and no later promotion of its target superseded it |
| `ReleaseAutomation.DueButRefusedIff` | crates/mandoforge-api/src/store_releases.rs:1131-1169 | when a due release is refused at the start of its promotion, which ends the run |
| `ReleaseAutomation.HeldOrOwnEndsTheRun` | crates/mandoforge-api/src/store_releases.rs:1131-1169 | a due release in progress under another approver, or requested by the system itself, ends any run that lists it without a report |
| `ReleaseAutomation.ReleaseStore.StoreBegin` | crates/mandoforge-api/src/store_releases.rs:560-650 | begins or takes up a promotion exactly when the decider may |
| `ReleaseAutomation.ReleaseStore.StoreComplete` | crates/mandoforge-api/src/store_releases.rs:652-772 | promotes the release and supersedes whatever was promoted for the same target |
| `ReleaseAutomation.ReleaseStore.StoreReject` | crates/mandoforge-api/src/store_releases.rs:1023-1128 | rejects a release that is pending or failed, and no other |
| `ReleaseAutomation.ReleaseStore.TakeTurn` | crates/mandoforge-api/src/agent_release_automation.rs:32-190 | one release's turn: its kind and the whole new store |
| `ReleaseAutomation.ReleaseStore.ExecuteDueRun` | crates/mandoforge-api/src/agent_release_automation.rs:14-208 | a run finishes exactly if no turn is refused, and reports the turns in order with their numbers; otherwise it leaves the store as the turns before the first refused one made it |
| `ReleaseAutomation.CountsPartition` | crates/mandoforge-api/src/agent_release_automation.rs:22-190 | a finished run puts every listed release in exactly one of promoted, rejected and skipped |
| `ReleaseAutomation.RunSettlesEverything` | crates/mandoforge-api/src/agent_release_automation.rs:88-175 | every begun promotion is completed or failed by the end of its turn, and stays so |
| `ReleaseAutomation.RunLeavesTheRest` | crates/mandoforge-api/src/store_releases.rs:678-692 | releases that were not listed are untouched, except promoted ones that were superseded |
| `ReleaseAutomation.RunKeepsOnePromoted` | crates/mandoforge-api/src/store_releases.rs:652-772 | no run leaves two promoted releases for one agent, version and environment |
| `ReleaseSummary.BuildSummary` | crates/mandoforge-api/src/agent_release_automation.rs:1161-1300 | the loop's maps, counters and sorted items |
| `ReleaseSummary.PendingKindsAddUp` | crates/mandoforge-api/src/agent_release_automation.rs:1186-1249 | automatic plus manual is pending is the number of attention items |
| `ReleaseSummary.PendingIsCounted` | crates/mandoforge-api/src/agent_release_automation.rs:1187-1189 | the pending count is the number of releases in a pending status |
| `ReleaseSummary.ExpiredIsCounted` | crates/mandoforge-api/src/agent_release_automation.rs:1203-1215 | the expired count is the number of pending releases not in progress whose expiry has passed |
| `ReleaseSummary.StatusCountsAddUp` | crates/mandoforge-api/src/agent_release_automation.rs:1181-1186 | the counts by status add up to the releases |
| `ReleaseSummary.EnvironmentCountsAddUp` | crates/mandoforge-api/src/agent_release_automation.rs:1181-1186 | the counts by environment add up to the releases |
| `ReleaseSummary.LatestIsFirstLatest` | crates/mandoforge-api/src/agent_release_automation.rs:1250-1270 | each environment's record is its first promotion of the latest time |
| `ReleaseSummary.AttentionInOrder` | crates/mandoforge-api/src/agent_release_automation.rs:1277-1283 | the items are a rearrangement in order of priority, environment and id |
| `ReleaseSummary.UrgentComesFirst` | crates/mandoforge-api/src/agent_release_automation.rs:1277-1317 | no item precedes a more urgent one, and the expired precede all others |
| `ReleaseSummary.NotesPredictPromotion` | crates/mandoforge-api/src/agent_release_automation.rs:1203-1234 | a release not in progress reaches the promotion branch exactly when it is noted ready and not expired |
| `ReleaseSummary.ExpiredAreRejected` | crates/mandoforge-api/src/agent_release_automation.rs:32-70 | a finished run at the same instant over the same releases rejects as many as the summary counts expired |
| `CodexTraces.SummariseTraces` | crates/mandoforge-api/src/codex_app_server_ops.rs:236-303 | grouping, sorting and recording yields one trace for each key |
| `CodexTraces.TracesPartitionRuns` | crates/mandoforge-api/src/codex_app_server_ops.rs:242-300 | the traces' run counts add up to the number of runs, over distinct keys |
| `CodexTraces.TracesAreListedByRecency` | crates/mandoforge-api/src/codex_app_server_ops.rs:302-302 | the listed traces are those traces, most recently seen first |
| `CodexTraces.TraceSpansItsRuns` | crates/mandoforge-api/src/codex_app_server_ops.rs:252-300 | a trace spans from its earliest to its latest run, so durations are never negative |
| `CodexTraces.DashboardsCountFailures` | crates/mandoforge-api/src/codex_app_server_ops.rs:236-303 | the failures on the traces' dashboards add up to the runs that failed |
| `CodexTraces.LatestErrorIsLast` | crates/mandoforge-api/src/codex_app_server_ops.rs:278-278 | a trace's latest error is that of the last run with one, and absent exactly when no run has one |
| `CodexTraces.TraceDetail` | crates/mandoforge-api/src/codex_app_server_ops.rs:1188-1268 | the detail exists exactly for keys present, carries the summary's own record, and splits its runs into terminal and not |
| `CodexTraces.DetailFindsTheTrace` | crates/mandoforge-api/src/codex_app_server_ops.rs:1194-1208 | filtering, sorting and summarising again gives the very record of the full summary |
| `CodexTraces.DetailIsTheSummarysRecord` | crates/mandoforge-api/src/codex_app_server_ops.rs:1188-1208 | looking a key up in the re-summarised runs and in the full summary gives the same result, found exactly for the keys of some run |
| `CodexPolling.SelectStaleRuns` | crates/mandoforge-api/src/codex_app_server_ops.rs:198-228 | the selection loop computes the specified candidates |
| `CodexPolling.SelectionIsExact` | crates/mandoforge-api/src/codex_app_server_ops.rs:198-228 | one candidate for each turn with an eligible run, the first of its most recent ones, in order of time |
| `CodexPolling.PollRun` | crates/mandoforge-api/src/codex_app_server_ops.rs:10-100 | between one and ten attempts, stopping at the first terminal status, terminal otherwise only after a failed last attempt, keeping the last response |
| `CodexPolling.PollStale` | crates/mandoforge-api/src/codex_app_server_ops.rs:102-196 | polled, failed and skipped add up to the candidates |
| `ArtifactWalk.Walk` | crates/mandoforge-api/src/artifact_files.rs:36-84 | visited directories and what waits cover the tree until the walk ends at a limit or with everything found |
| `ArtifactWalk.TakeEntries` | crates/mandoforge-api/src/artifact_files.rs:52-83 | one directory's entries keep the cover: directories wait, files are taken, links are passed |
| `ArtifactWalk.Discover` | crates/mandoforge-api/src/artifact_files.rs:36-89 | all files sorted by path if there are fewer than the limit, otherwise exactly the limit of them (one for a limit of zero); errors exactly for too many directories or an oversized file when the limit is not reached |
| `ArtifactWalk.DistinctPathsStayDistinct` | crates/mandoforge-api/src/artifact_files.rs:36-89 | where every path occurs once no path is returned twice |
| `DatasetProfile.PrimaryKeyIff` | crates/mandoforge-api/src/ontology_dataset_profile.rs:47-49 | a key candidate is a non-empty column, all present and pairwise different as texts |
| `DatasetProfile.EnumIff` | crates/mandoforge-api/src/ontology_dataset_profile.rs:50-52 | an enumeration candidate has at most eight values and a repeated one, and is never a key candidate |
| `DatasetProfile.CountIsLengthIffDistinct` | crates/mandoforge-api/src/ontology_dataset_profile.rs:100-107 | as many distinct elements as elements exactly when none repeats |
| `DatasetProfile.RatesAreFractions` | crates/mandoforge-api/src/ontology_dataset_profile.rs:34-45 | both rates lie between zero and one, with the exact meaning of their ends |
| `DatasetProfile.JoinRateEnds` | crates/mandoforge-api/src/ontology_dataset_profile.rs:169-196 | the join rate is one exactly when every present value occurs in the referenced column, and positive exactly when one does |
| `DatasetProfile.ProfileDataset` | crates/mandoforge-api/src/ontology_dataset_profile.rs:16-91 | the loop lists each field where its measurements put it |
| `DatasetProfile.KeysAndEnumsAreDisjoint` | crates/mandoforge-api/src/ontology_dataset_profile.rs:47-52 | no field is listed both as a key and as an enumeration |
| `EvidenceChecklist.StringArrayEqualsIff` | crates/mandoforge-api/src/enterprise_product_readiness.rs:1150-1157 | for a duplicate-free expectation the check holds exactly for its rearrangements |
| `EvidenceChecklist.AcceptedLanesAreExact` | crates/mandoforge-api/src/enterprise_product_readiness.rs:640-671 | an accepted list has no result that is extra, repeated or unready |
| `EvidenceChecklist.LanesAreDistinct` | crates/mandoforge-api/src/enterprise_product_readiness.rs:640-661 | the ten expected lanes are ten different ones |
| `EvidenceChecklist.AcceptedRoleGrantsExactly` | crates/mandoforge-api/src/enterprise_product_readiness.rs:1290-1324 | an accepted role grants exactly the listed verbs on the listed resources |
| `EvidenceChecklist.SandboxRulesAreDistinct` | crates/mandoforge-api/src/enterprise_product_readiness.rs:1306-1324 | the sandbox role's rules meet the conditions of that theorem |
| `EvidenceChecklist.CheckPath` | crates/mandoforge-api/src/enterprise_product_readiness.rs:805-823 | the component loop computes the clean relative path |
| `EvidenceChecklist.CheckedPathIsClean` | crates/mandoforge-api/src/enterprise_product_readiness.rs:805-823 | an accepted path is relative, made of names only, and passes again unchanged |

## Left out

- HTTP handlers, authentication, roles, permissions and request parsing: single-branch decisions.
- SQL, connection pools, row-level security and the migration role checks; a migration script is an opaque action that succeeds or fails.
- The event, loop-projection and session-status side effects of deciding, declining and invoking; a terminated session's refusal of new calls; the failure of those writes after a decision.
- The connector policy's verdict on an invocation and the semantic context gate are arbitrary inputs.
- The remote-computer assignments and lease pool behind an execution job, and the publication of outcomes after a job is closed.
- ApprovalTheorems.ConsumptionIsAuthorised: the recorded time of use may reach the expiry; `ApprovalTiming.ConsumedInTimeIff` states when it does not.
- The serialised texts inside a rendered context are given; the list of available tools, the ontology scope and the projection of the packet's `task` field are not modelled.
- Search results are modelled before their summaries are shortened for display.
- ContextRetrieval.Search: does not model the audit record of a search.
- The rounding of f64 in numeric enumeration and integer tests, in scores and in rates.
- Escalation.Escalator.ExecuteDueRun: the store listing is given, no one else changes the approvals during a run, and the store's evidence update always succeeds.
- Escalation.EscalationRecordsRule: the reason, the author and the time written beside the rule and the group are not modelled.
- NotificationRuns.Notifier.ExecuteDeliveryRun: appending to the log always succeeds; if it failed after a delivery, the delivery would count as failed and be tried again.
- ReleaseAutomation.ReleaseStore.ExecuteDueRun: no one else changes the releases during a run, and the agents that exist stay the same.
- ReleaseSummary.AttentionInOrder: reasons are a list of named notes instead of one joined text, and priority looks for a note instead of a substring; the names contain none of each other.
- Delivery payload texts, backoff sleeps and the delivery-run, production and deployment readiness summaries.
- Codex trace evidence gathered from events and audit logs, artifact lineage, status maps and the control-plane summary.
- ArtifactWalk.Discover: file contents, invalid UTF-8 replacement and read errors are not modelled; paths are ordered by any given total order.
- Time, currency and personal-data columns of a dataset profile: name tests of one line.
- The checklist's archive metadata, required and ready lane lists, evidence files on disk, the network policy and workload checks.
- EvidenceChecklist.CheckPath: a path is split at slashes as on Unix; drive and UNC prefixes do not exist.

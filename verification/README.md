# AgentIT: models and proofs

A Dafny model of the stateful parts of AgentIT, with proofs about them. Code that changes things step by
step is a class or a method with the source's loops, proved equal to a function of its inputs and old
state; the properties are lemmas about those functions.

`dafny verify dfyconfig.toml` checks everything.

| File | Source | What it is about |
|---|---|---|
| Consumer.dfy | consumer.py | Kafka retries, held-back commits and dead letters, over any run of deliveries, rewinds and restarts |
| RetryCounts.dfy | consumer.py | what the held retry counts mean over a run, on any partitions and across restarts |
| Publisher.dfy | events.py | the durable queue in front of Kafka, its drain loop and reconnects |
| DeadLetters.dfy | consumer.py, events.py | both of them together: what becomes of a message whose offset is committed |
| Breaker.dfy | interfaces/breakers.py, kube.py | the circuit breaker against the history of calls |
| DryRun.dfy | kube.py, portal/cluster_apply.py | one document, one file, a whole pack of a server-side dry run |
| DryRunReports.dfy | portal/cluster_apply.py, kube.py | the same reports, said of the documents as they stand in a file |
| ValidateFix.dfy | portal/auto_delivery.py | the bounded validate, fix, validate-again loop |
| PropertyScope.dfy | portal/auto_delivery.py | which failing properties count against a batch |
| DroppedFiles.dfy | portal/auto_delivery.py, portal/cluster_apply.py | the files that loop drops, and the refusals that go with them |
| CoolDown.dfy | portal/store/skills.py, remediation/dispatcher.py | rejects that silence the fix dispatcher, and what that changes in the loop |
| ClusterDelivery.dfy | portal/auto_delivery.py | finding clusters, and when one can change another |
| ClusterGates.dfy | portal/auto_delivery.py | which clusters pass, and with which files |
| SecretScan.dfy | analyzers/security.py, secret_classify_cache.py | scanning with a verdict cache against scanning without |
| ClickScope.dfy | scripts/check_portal_edl.py | a stack over HTML events against the element tree |
| Scoring.dfy | scoring.py, interfaces/score_aggregate.py | pass ratios, rounding, weighted means, estimated gains |
| ScoreCounts.dfy | scoring.py, interfaces/score_aggregate.py | what a score and the overall come to, in numbers |
| CheckMerge.dfy | runner.py | merging check findings, suppressing findings |
| MergedScores.dfy | runner.py, analyzers/base.py | what merged and suppressed entries score and hold |
| SkillMatch.dfy | skill_engine.py | skill selection and conflict resolution |
| WorkerPool.dfy | skill_engine.py, runner.py | thread pools whose jobs complete in any order |
| TickLedger.dfy | ledger.py | collapsing watcher ticks |
| LineDiff.dfy | portal/content_diff.py | tagged line diffs |
| Inventory.dfy | skill_inventory.py | snapshots, logged differences, replaying the log |
| Options.dfy, Sequences.dfy | | what the others share |

Calls that leave the process (Kafka, SQLite, Kubernetes, the LLM, GitHub, the clock) may succeed or fail
at will: their outcomes are parameters. Where a property needs one to be fixed, its lemma says so.

## Where the code does not do what it says

Each of these is a lemma of the model.

- A message is documented to be retried up to `max_retries` times, but `consume()` never seeks back:
  within one pass the committed offset stops at the first failure (`OnePassCommits`,
  `BlockedStaysPut`). With a replay from the committed offset the promise holds (`HeadAdvances`,
  `PoisonIsDeadLetteredOnTheLastRetry`).
- `commit()` takes the position of every assigned partition and the retry key leaves the partition out.
  The safety of the consumer is therefore proved for one assigned partition; with several it is kept
  exactly when no other blocked partition has been read past its failure
  (`CommitIsSafeIffNoOtherPartitionIsBlocked`), and two partitions give the counterexamples
  `CommitSkipsTheOtherPartition` and `RetriesAreSharedAcrossPartitions`.
- Because of that key, the count held for a message is the number of failures of its offset on all
  partitions of the topic since one of them was last handled or dead-lettered, in this process
  (`CountIsTally`). The message is dead-lettered exactly when one more failure brings that number to
  `max_retries` (`DeadLetteredIff`), and then on its own last try exactly when the number counts its own
  failures alone (`LastTryIsItsOwnIff`), as when no other partition has met the offset
  (`AloneItGetsAllItsTries`). `InterleavedFailuresShortenTheTries` is a run in which two partitions take
  turns and a message is dead-lettered on its second failure of three.
- A dead letter is published like any event, and publishing never raises: an offset can be committed
  although its dead letter reached neither the broker nor the local table (`CommittedDeadLetterCanBeLost`).
  Every offset below the committed one was handled, or its dead letter is delivered, buffered or lost, and
  nothing is lost while the local table works (`CommittedIsHandledOrDeadLettered`).
- A drain that stops early leaves the producer connected, so the next event overtakes the buffered ones
  (`ReconnectKeepsOrderIff`: the event that reconnects keeps its place exactly when the drain goes
  through; `ConnectedKeepsOrderIff`: any later one exactly when nothing is left). Over a run of distinct
  events with a working table, and no send that arrives without being acknowledged, the order is kept
  exactly when no drain leaves a doubled row and nothing is sent while rows are left (`OrderIsKeptIff`).
- The "clean" verdict is decided before placeholder-blocked files are looked at: a batch whose only
  defect is an unresolved placeholder is clean (`PlaceholderPassesAsClean`), and one whose retry was reached
  and brought nothing is clean a pass later (`PlaceholderOutlivesItsRetry`). What a clean verdict returns is
  free of placeholders exactly when the blocked files its last pass met were dropped by that pass
  (`CleanLeavesNoPlaceholderIff`).
- A file refused both hard and softly is reported and dropped at once; if another fix lands in that pass,
  the next one is clean and the hard refusal is gone (`HardRefusalGoesWithTheFile`). The paths missing from
  what comes back were dropped for soft reasons alone exactly when no pass met one of them with both kinds
  of refusal (`DroppedSoftlyIff`). A clean verdict's last pass never drops so
  (`CleanDropsHardBeforeItsLastPass`).
- "Unrelated clusters are unaffected" by a refusal is not so: a refusal by the clear-evidence simulation
  counts against the skills of its findings, and one that reaches the threshold silences the fix
  dispatcher for every later cluster. `RefusalSinksASibling` is such a run. A cluster's verdict is its own
  exactly when no refusal before it pushed over a skill whose fix it uses (`ClusterVerdictIff`); when
  that holds of every cluster the run is what each does alone (`ClustersAreIsolated`).
- The secret cache answers where the classifier is silent, so a remembered drop hides a match an uncached
  scan reports. The lines around a match reach the classifier but are not in the key
  (`ContextIsNotPartOfTheKey`). For any classifier, cached and uncached scans agree exactly when at every
  match the remembered outcome is what asking would come to (`SameVerdictsIff`); for one that looks at
  path and line alone, the remembered drop is the only difference (`CachedEqualsUncachedIff`).
- A self-closed element pushes an entry of its own, and the next end tag pops that one instead of its
  element's. Until a leftover true entry is popped in turn, click elements outside every scope go
  unreported (`ScopedLeakHidesAViolation`). The report is right exactly when no such element meets one
  (`ReportIsExactIff`), and the rest of the page is checked as if afresh exactly when none is left
  (`ContinuationsAreFreshIff`).
- A dimension scored from check rows is re-estimated without them, so the estimated gain of a fix can be
  negative (`ChecksCanMakeAFixLosePoints`): exactly when the dimension's score is above its baseline score
  without the finding (`EstimateIsALossIff`, counted out in `CheckedEstimateIsALossIff`).
- Two skills of equal rank that list each other as conflicts remove each other
  (`MutualTieRemovesBoth`); nothing is left exactly when every skill loses to one (`NothingSurvivesIff`).
- `run_all` collects by skill name: with two skills of one name the result can depend on which completes
  last (`OrderIsInvisibleIff`).
- An inventory event names its item as `domain/name`; a domain that contains a slash cannot be read back
  (`SummaryReadsBackIff`), and a call interrupted after logging leaves events a later, different catalog
  does not take back (`InterruptionIsRepairedIff`).

## Model

| member | source | states |
|---|---|---|
| Consumer.EventConsumer.CommitResolvedOffset | src/agentit/consumer.py:179-198 | a commit is withheld while another offset of the partition is blocked; otherwise every assigned partition's position is committed |
| Consumer.EventConsumer.HandleFailure | src/agentit/consumer.py:225-241 | count, then dead-letter and resolve at `max_retries`, or keep the first failed offset blocked; a raise in there ends the loop |
| Consumer.EventConsumer.HandleMessage | src/agentit/consumer.py:218-241 | success, failure (also of the commit itself) and interrupt of one delivery |
| Consumer.EventConsumer.Consume | src/agentit/consumer.py:200-246 | the blocking loop is the run of its deliveries and ends closed |
| Consumer.StepKeepsSafe | src/agentit/consumer.py:179-241 | one assigned partition: every delivery, rewind and restart keeps the invariant and never moves the committed offset back |
| Consumer.EveryRunIsSafe | src/agentit/consumer.py:179-241 | over every run: each offset below the committed one was handled or dead-lettered, the committed offset never goes back, a blocked offset is the committed one |
| Consumer.StepAdvances | src/agentit/consumer.py:218-241 | one live step raises the head's tries by one exactly when it delivers the head, until the head moves on by one |
| Consumer.HeadsAreBounded | src/agentit/consumer.py:218-241 | over a live run, deliveries of head messages are bounded by `max_retries` per committed message (the lexicographic measure as one number) |
| Consumer.HeadAdvances | src/agentit/consumer.py:218-241 | after `max_retries` deliveries of heads the committed offset has advanced, whatever the handler did |
| Consumer.ReplayCommits | src/agentit/consumer.py:217-241 | rewinding whenever blocked, n deliveries commit at least n / `max_retries` messages, whatever the handlers do |
| Consumer.RestartResumes | src/agentit/consumer.py:179-241 | after a restart, whatever had become of the old process, consuming starts over at the committed offset and commits as steadily |
| Consumer.PoisonIsDeadLetteredOnTheLastRetry | src/agentit/consumer.py:226-235 | a message that always fails reaches the dead-letter topic on the `max_retries`-th failure, no sooner and no later |
| Consumer.BlockedStaysPut | src/agentit/consumer.py:191-198 | once blocked and read past, deliveries alone never move the committed offset |
| Consumer.OnePassCommits | src/agentit/consumer.py:217-241 | what a single pass commits: the prefix before the first failure, or everything if one failure exhausts the retries |
| Consumer.CommitIsSafeIffNoOtherPartitionIsBlocked | src/agentit/consumer.py:198 | the bare commit respects every partition's open failure iff no other blocked partition was read past its failure |
| Consumer.CommitSkipsTheOtherPartition | src/agentit/consumer.py:198 | two partitions: a success on one commits past an open failure of the other |
| Consumer.RetriesAreSharedAcrossPartitions | src/agentit/consumer.py:219 | two partitions: a first failure is dead-lettered on the other partition's count |
| RetryCounts.CountIsTally | src/agentit/consumer.py:217-241 | over any run from empty counts, on any partitions and across restarts: the count held for a topic and offset is the number of failures of that offset, on any partition of the topic, since one was last handled or dead-lettered in this process |
| RetryCounts.DeadLetteredIff | src/agentit/consumer.py:225-235 | after any such run, a message that fails now is dead-lettered iff this failure brings that number to `max_retries` |
| RetryCounts.LastTryIsItsOwnIff | src/agentit/consumer.py:219-235 | a message dead-lettered now has had `max_retries` failures of its own iff that number counts its own failures alone |
| RetryCounts.AloneItGetsAllItsTries | src/agentit/consumer.py:219-235 | if no other partition of the topic has met its offset, a message is dead-lettered on its own `max_retries`-th failure and on no other |
| RetryCounts.InterleavedFailuresShortenTheTries | src/agentit/consumer.py:219-235 | two partitions failing in turns, three retries: a message is dead-lettered on its second failure |
| DeadLetters.CommittedIsHandledOrDeadLettered | src/agentit/consumer.py:179-241 | over any run of one consumed partition, whoever else publishes: each offset below the committed one was handled, or its dead letter is delivered, buffered or lost; nothing is lost while the local table works |
| DeadLetters.CommittedDeadLetterCanBeLost | src/agentit/events.py:117-209 | without broker and table, an offset is committed whose dead letter is gone |
| Publisher.EventPublisher.constructor | src/agentit/events.py:57-65 | a configured publisher connects, and so drains, when it is made |
| Publisher.EventPublisher.ConnectProducer | src/agentit/events.py:102-115 | a new producer drains the buffer; a failed one leaves the publisher disconnected |
| Publisher.EventPublisher.Drain | src/agentit/events.py:130-155 | rows are sent and deleted one by one, stopping at the first that fails |
| Publisher.EventPublisher.Reconnect | src/agentit/events.py:157-165 | at most one attempt per cooldown |
| Publisher.EventPublisher.Buffer | src/agentit/events.py:117-128 | a row with a new largest id, or nothing if the table fails |
| Publisher.EventPublisher.PublishItem | src/agentit/events.py:171-209 | reconnect, send, and buffer what could not be sent |
| Publisher.DrainLeavesASuffix | src/agentit/events.py:130-155 | each drain leaves exactly a suffix of the buffer; what it sent is the prefix in order, plus at most the row it stopped at |
| Publisher.NewPublisherIs | src/agentit/events.py:57-155 | a publisher is connected from the start iff it is configured and the broker is there; it has then sent the rows before the first that fails and keeps the others, and otherwise it has sent none |
| Publisher.EveryEventIsAccountedFor | src/agentit/events.py:57-209 | over a publisher's whole life, as multisets: delivered, buffered and lost are what was there, what was published and the doubled copies; nothing is lost while the table works |
| Publisher.OrderIsKept | src/agentit/events.py:102-209 | with no drain cut short and buffering working, delivered followed by buffered is the published order, once each |
| Publisher.ReconnectKeepsOrderIff | src/agentit/events.py:143-209 | the event that reconnects is sent in order iff the drain before it goes through; otherwise it overtakes what is still buffered |
| Publisher.ConnectedKeepsOrderIff | src/agentit/events.py:194-209 | an event acknowledged by a producer that is connected already is sent in order iff nothing is buffered |
| Publisher.OrderIsKeptIff | src/agentit/events.py:102-209 | over any run of distinct events with a working table and no unacknowledged arrival: delivered followed by buffered is the published order iff no drain leaves a doubled row and nothing is sent while rows are left |
| Publisher.ReconnectsAreSpaced | src/agentit/events.py:157-165 | over every run, reconnect attempts are at least the cooldown apart |
| Publisher.ReconnectsWhenDue | src/agentit/events.py:157-209 | a reconnect is tried iff a configured publisher without a producer publishes sixty seconds or more after the last try; who ends up with a producer |
| Breaker.CircuitBreaker.Open | src/agentit/interfaces/breakers.py:28-33 | open iff the threshold is reached and the last failure is young |
| Breaker.CircuitBreaker.Scope | src/agentit/kube.py:28-60 | one guarded call extends the history by its outcome |
| Breaker.CountersMeanHistory | src/agentit/interfaces/breakers.py:35-42 | the two counters are the number and the last time of the failures since the last success or benign status |
| Breaker.OpenIffRecentFailures | src/agentit/interfaces/breakers.py:28-42 | open iff the failures since the last success or benign status reach the threshold and the last is younger than the reset time |
| Breaker.OfflineIsIgnored | src/agentit/kube.py:49-52 | offline outcomes never change it |
| Breaker.OpenBreakerSpacesFailures | src/agentit/interfaces/breakers.py:28-33 | for calls that take turns: at the threshold, guarded callers start calls at most once per reset time until one succeeds |
| DryRun.ApplyDocuments | src/agentit/kube.py:456-534 | the document loop: all failures in order, the first error, conflict only without failures |
| DryRun.ApplyReportsEveryFailure | src/agentit/kube.py:465-534 | an unapplied result that is no conflict names every failed document's error; conflict is flagged only when none failed |
| DryRun.ApplyVerdictIs | src/agentit/kube.py:470-534 | applied iff every document was accepted; conflict iff none was refused and some conflicted |
| DryRun.DryRunManifests | src/agentit/portal/cluster_apply.py:442-604 | the report is each file's own report, added up in order |
| DryRun.DryRunOne | src/agentit/portal/cluster_apply.py:481-593 | one file: repository file, empty, all skipped, raised, applied, conflict, failures |
| DryRun.SortFailures | src/agentit/portal/cluster_apply.py:561-593 | hard and soft failures of one file, and the operators its soft ones call for |
| DryRun.DryRunDistributes | src/agentit/portal/cluster_apply.py:481-604 | the dry run of two lists is the dry runs of each, put together |
| DryRun.EveryFileHasVerdict | src/agentit/portal/cluster_apply.py:481-593 | every file is applied, skipped, set aside, in conflict or in error |
| DryRun.FileVerdictIs | src/agentit/portal/cluster_apply.py:514-593 | which verdict a file gets, by what the cluster says of its documents |
| DryRun.ErrorsAreHardFailures | src/agentit/portal/cluster_apply.py:525-593 | a path is among the errors iff one of its files has a hard-failing document or the client failed hard |
| DryRun.HardDocumentIsReported | src/agentit/portal/cluster_apply.py:556-579 | every hard-failing document's own message is reported under its file |
| DryRun.FailureAlwaysHasAReason | src/agentit/portal/cluster_apply.py:592-593 | the "unknown dry-run failure" branch is unreachable |
| DryRun.SkippedPathsArePerFile | src/agentit/portal/cluster_apply.py:514-591 | the paths to drop are those of files that are skipped on their own |
| DryRun.SentDocumentIs | src/agentit/portal/cluster_apply.py:402-439 | which documents are sent to the cluster, in which namespace each is placed and how it is named |
| DryRunReports.ApplyDocsAre | src/agentit/portal/cluster_apply.py:498-512 | what is sent for a file is exactly that of its documents |
| DryRunReports.FileIsAppliedIff | src/agentit/portal/cluster_apply.py:525-539 | a file is validated iff the cluster is reachable, something of it is sent, and all of that is named, found and accepted in its namespace |
| DryRunReports.FileIsDroppedIff | src/agentit/portal/cluster_apply.py:514-591 | a file is dropped iff nothing of it is sent, the cluster is out of reach for a soft reason, or some of it is refused softly |
| DryRunReports.ReasonsAre | src/agentit/portal/cluster_apply.py:556-591 | each soft reason for a refusal is a warning, each other one an error, and there are no more errors |
| DryRunReports.OtherReasonsAre | src/agentit/portal/cluster_apply.py:514-555 | an unreachable cluster's reason is a warning if soft and an error if not; a pure conflict is noted, and warned of, with the first error |
| DryRunReports.MissingOperatorsAre | src/agentit/portal/cluster_apply.py:498-577 | which operators a file asks for |
| DryRunReports.ConflictDetailsAre | src/agentit/kube.py:464-534 | a pure conflict tells of every conflicting document, and of nothing else |
| DryRunReports.FirstErrorIs | src/agentit/kube.py:470-534 | the one error named is that of the first document not accepted |
| DryRunReports.ReportKeepsFileOrder | src/agentit/portal/cluster_apply.py:481-604 | every list of the report keeps the order of the files |
| ValidateFix.MergeFixFiles | src/agentit/portal/auto_delivery.py:138-157 | the in-place merge through a path index |
| ValidateFix.MergeReplacesInPlace | src/agentit/portal/auto_delivery.py:138-157 | a fix for a known path replaces that file in place, the last one winning; new paths follow in order; nothing else moves |
| ValidateFix.DispatchFixes | src/agentit/portal/auto_delivery.py:379-392 | each category is dispatched once, merged if it brought files |
| ValidateFix.RunPass | src/agentit/portal/auto_delivery.py:324-395 | one pass: dry run, drop what is softly skipped, check properties in scope, fix unless all is fine |
| ValidateFix.ValidateAndFix | src/agentit/portal/auto_delivery.py:271-415 | the loop with its three ways to stop |
| ValidateFix.ValidateIsBoundedAndHonest | src/agentit/portal/auto_delivery.py:310-415 | at most `max_iterations` passes; every pass but the last fixed something; clean iff the last pass had no failure; an unclean verdict names the last failures and stopped for lack of fixes or of passes |
| ValidateFix.CleanIsAFixpoint | src/agentit/portal/auto_delivery.py:318-372 | with a per-file dry run, validating a clean verdict's files again returns them unchanged, clean, in one pass, nothing skipped |
| ValidateFix.ClusterDryRunIsPerFile | src/agentit/portal/cluster_apply.py:442-604 | the cluster dry run is per file, so the fixpoint applies to it |
| ValidateFix.CleanIsAFixpointOnTheCluster | src/agentit/portal/auto_delivery.py:318-372 | so a clean verdict reached through the cluster's dry run stands |
| ValidateFix.PlaceholderPassesAsClean | src/agentit/portal/auto_delivery.py:364-392 | a file with an unresolved placeholder, alone in its batch, is returned as clean |
| ValidateFix.CleanLeavesNoPlaceholderIff | src/agentit/portal/auto_delivery.py:318-372 | what any clean verdict returns, after however many passes, is free of placeholders iff every blocked file its last pass met was dropped by that pass |
| ValidateFix.PlaceholderOutlivesItsRetry | src/agentit/portal/auto_delivery.py:364-392 | a run of two passes: the retry of the blocked file is reached and brings nothing, another fix lands, and the verdict is clean with the file still blocked |
| ValidateFix.CleanAtOnceIff | src/agentit/portal/auto_delivery.py:353-372 | a batch is clean at once iff nothing fails hard and no property in scope fails; placeholders are not asked about |
| ValidateFix.OtherFindingsCannotVeto | src/agentit/portal/auto_delivery.py:114-135 | given a cluster's own findings, the rest of the report cannot change its verdict |
| PropertyScope.ContainsIff | src/agentit/portal/auto_delivery.py:107-110 | the containment test finds a text anywhere in another |
| PropertyScope.InScopeIff | src/agentit/portal/auto_delivery.py:70-135 | a property is in scope iff the category it is fixed under contains, or is contained in, a category of the findings given |
| PropertyScope.CleanFailsNothingAskedFor | src/agentit/portal/auto_delivery.py:345-372 | what a clean verdict returns fails no property its findings ask for |
| PropertyScope.CleanAtOnceIffNothingAskedForFails | src/agentit/portal/auto_delivery.py:345-372 | a batch is clean at once iff nothing is refused hard and, less what is dropped, it fails no property asked for |
| PropertyScope.ScalingAsksForAutoscaling | src/agentit/portal/auto_delivery.py:70-110 | a batch for a "scaling" finding is not clean while the autoscaling property fails |
| PropertyScope.PassFixes | src/agentit/portal/auto_delivery.py:374-392 | with a steady dispatcher, what a pass fixes: the failing properties asked for, then the categories of the files blocked by a placeholder, as far as the dispatcher has something |
| DroppedFiles.SkippedPathsAre | src/agentit/portal/auto_delivery.py:318-372 | the verdict's skipped paths are those of its passes' dry runs, in turn |
| DroppedFiles.WarningsAre | src/agentit/portal/auto_delivery.py:333-371 | the verdict's warnings are the soft refusals of its passes' dry runs, in turn |
| DroppedFiles.MissingPathsWereSkipped | src/agentit/portal/auto_delivery.py:318-392 | a path of the batch that is not in the files returned is among the skipped paths: fixes lose none |
| DroppedFiles.DroppedHardIff | src/agentit/portal/auto_delivery.py:330-332 | a path was dropped with a hard refusal iff some pass met it with a hard and a soft one |
| DroppedFiles.DroppedSoftlyIff | src/agentit/portal/auto_delivery.py:318-372 | the paths missing from what comes back were dropped for soft reasons alone iff no pass met one of them with both kinds of refusal |
| DroppedFiles.DroppedSoftlyOnTheClusterIff | src/agentit/portal/cluster_apply.py:555-591 | the same for a loop that reads the modelled cluster dry run |
| DroppedFiles.CleanDropsHardBeforeItsLastPass | src/agentit/portal/auto_delivery.py:362-372 | what a clean verdict dropped in spite of a hard refusal went before its last pass |
| DroppedFiles.HardRefusalGoesWithTheFile | src/agentit/portal/auto_delivery.py:330-372 | a run of two passes: the file goes with its hard refusal, a fix lands, and the verdict is clean |
| CoolDown.ValidateSilencedIff | src/agentit/remediation/dispatcher.py:78-93 | with some categories silenced the loop comes to the same verdict, pass by pass, iff it used no fix for one of them |
| ClusterGates.DispatchIs | src/agentit/remediation/dispatcher.py:56-103 | what the dispatcher brings for a category: nothing without a skill or while that skill cools down; patching a base image is never silenced |
| CoolDown.RecordRejects | src/agentit/portal/auto_delivery.py:890-901 | each skill of the findings not recorded yet for this reason is marked, then given one more reject |
| CoolDown.CoolingIff | src/agentit/portal/store/skills.py:122-174 | a skill cools down iff some reason has been counted against it twice |
| CoolDown.SecondRunCools | src/agentit/portal/auto_delivery.py:884-906 | from an empty store one run's refusal leaves a skill available, however often repeated; the same refusal in a second run cools it down |
| CoolDown.RecordedCounts | src/agentit/portal/auto_delivery.py:890-901 | a rejection adds one reject per skill and reason, at most once in a run |
| ClusterDelivery.ProcessCluster | src/agentit/portal/auto_delivery.py:722-963 | the gates, the simulation with the rejects it records, and validation against the store as it then is |
| ClusterDelivery.DeliverCluster | src/agentit/portal/auto_delivery.py:970-1044 | what one cluster adds: files, pull requests, a refusal, or "unchanged" |
| ClusterDelivery.DeliverClusters | src/agentit/portal/auto_delivery.py:686-1120 | files, pull requests, refusals, status and store are what each cluster adds in turn, meeting the store as the ones before left it |
| ClusterDelivery.PutFiles | src/agentit/portal/auto_delivery.py:970-971 | files put into a dictionary by path, in insertion order |
| ClusterDelivery.LedgerAfterAllCounts | src/agentit/portal/auto_delivery.py:877-901 | a run adds at most one reject per skill and reason, however many clusters are refused |
| ClusterDelivery.CoolingAfterIff | src/agentit/portal/store/skills.py:133-174 | the skills cooling down after some clusters: those that were, and those one reject short that a refusal named |
| ClusterDelivery.VerdictAfterIff | src/agentit/portal/auto_delivery.py:917-948 | after other clusters the loop comes to the verdict it comes to alone iff no fix it uses alone is by a skill their refusals pushed over |
| ClusterDelivery.ClusterVerdictIff | src/agentit/portal/auto_delivery.py:722-963 | the same of a cluster with all its gates |
| ClusterDelivery.ClustersAreIsolated | src/agentit/portal/auto_delivery.py:692-1044 | when no refusal sinks a fix another cluster uses, the run is what each cluster does alone |
| ClusterDelivery.WithoutSimulationRefusalsAllAreUndisturbed | src/agentit/portal/auto_delivery.py:876-901 | which is so when the simulation refuses none |
| ClusterDelivery.RefusalIsHarmless | src/agentit/portal/auto_delivery.py:699-716 | a refused or skipped cluster changes neither the saved files nor the pull requests, as long as its refusal cools no skill whose fix a later cluster uses |
| ClusterDelivery.OtherRefusalsAreHarmless | src/agentit/portal/auto_delivery.py:699-716 | a refusal that is not the simulation's is harmless whatever comes after |
| ClusterDelivery.RefusalSinksASibling | src/agentit/portal/auto_delivery.py:877-948 | two chunks of one finding, and a simulation that refuses files without RBAC: the first chunk's refusal is the second reject of the skill, and the second, which alone would be fixed, is refused |
| ClusterDelivery.FinalFilesAreTheValidatedOnes | src/agentit/portal/auto_delivery.py:965-1050 | the saved files: one per path of the source layer and of the clusters that passed validation, the last that came |
| ClusterGates.ClusterPassesIff | src/agentit/portal/auto_delivery.py:722-970 | a cluster passes with some files iff they survive strip, HPA gate and enrichment, the simulation does not object, and they are all source files or the files, at least one and colliding with nothing, of a clean verdict |
| ClusterGates.ClusterIsSkippedIff | src/agentit/portal/auto_delivery.py:849-862 | it is passed over in silence iff its enrichment leaves neither files nor findings |
| ClusterGates.PassingClusterAdds | src/agentit/portal/auto_delivery.py:971-1042 | a cluster that passes adds its files and the pull requests opened; with none, an error is a refusal, and without one it is deployed already |
| ClusterGates.OtherClusterAdds | src/agentit/portal/auto_delivery.py:699-970 | any other adds a refusal, unless it is skipped, and nothing else |
| ClusterGates.RunStatusIs | src/agentit/portal/auto_delivery.py:1064-1110 | the status of a run in terms of gates passed, pull requests opened and refusals |
| ClusterGates.SavedFilesPassedTheGates | src/agentit/portal/auto_delivery.py:722-978 | over a whole run, every saved file is of the source layer or of a cluster that came through every gate against the store as it then was |
| ClusterGates.WhatPassesIsSaved | src/agentit/portal/auto_delivery.py:971-978 | the path of every file that comes through is saved |
| ClusterDelivery.StatusIsHonest | src/agentit/portal/auto_delivery.py:1065-1120 | "delivered" iff some cluster opened a pull request; a failure status iff none did, one was refused and none was unchanged |
| SecretScan.InMemorySecretClassifyCache.Lookup | src/agentit/secret_classify_cache.py:94-96 | the row of a key, if any |
| SecretScan.InMemorySecretClassifyCache.Touch | src/agentit/secret_classify_cache.py:98-103 | counts a hit on an existing row |
| SecretScan.InMemorySecretClassifyCache.Upsert | src/agentit/secret_classify_cache.py:105-129 | replaces the row, keeping the hit count going |
| SecretScan.InMemorySecretClassifyCache.Delete | src/agentit/secret_classify_cache.py:131-132 | forgets one key |
| SecretScan.SecurityAnalyzer.CheckHit | src/agentit/analyzers/security.py:102-142 | one match: settled by the cache, else by the classifier, else reported |
| SecretScan.SecurityAnalyzer.CheckSecrets | src/agentit/analyzers/security.py:91-143 | a scan is its real matches, file by file and pattern by pattern, each settled in turn |
| SecretScan.UncachedIsPlain | src/agentit/analyzers/security.py:115-142 | what a scan without a cache reports |
| SecretScan.VerdictsMakeTheReport | src/agentit/analyzers/security.py:91-143 | a scan's report is its matches with their verdicts |
| SecretScan.SameVerdictsIff | src/agentit/analyzers/security.py:102-142 | for any classifier: cached and uncached scans keep and drop the same matches iff at each the stored outcome, or else that of the first earlier answer for the key, is what asking comes to |
| SecretScan.AgreesUnlessStale | src/agentit/analyzers/security.py:105-142 | for a classifier of path and line alone, they disagree only at a remembered drop it is silent about now |
| SecretScan.CachedEqualsUncachedIff | src/agentit/analyzers/security.py:91-143 | a cached scan reports what an uncached one does iff no match hits a remembered drop the classifier is silent about now |
| SecretScan.HistoryReportsArePlain | src/agentit/analyzers/security.py:91-169 | for a fixed classifier, every scan of every history of changing repositories and deletions reports what it would without the cache |
| SecretScan.HistoryAccounts | src/agentit/analyzers/security.py:105-142 | over any history: one answer per key (one more per deletion at most), one recorded decision per answer, and the hit counter is the number of matches |
| SecretScan.UncachedLeavesOut | src/agentit/analyzers/security.py:115-142 | without a cache, a match is left out of the report iff the classifier answers that it is no secret with a confidence above 0.7 |
| SecretScan.HistoryLeavesOut | src/agentit/analyzers/security.py:91-169 | from an empty cache and for a fixed classifier, so does every scan of every history |
| SecretScan.CandidatesAre | src/agentit/analyzers/security.py:91-102 | the matches looked at are those in scanned files that are no false positives |
| SecretScan.CandidatesComeInOrder | src/agentit/analyzers/security.py:91-102 | they are looked at file by file |
| SecretScan.AskedIsRecorded | src/agentit/analyzers/security.py:115-141 | without a row, or with a drop of 0.7 or less, the classifier's answer becomes the row, and is recorded unless it repeats the drop |
| SecretScan.ContextIsNotPartOfTheKey | src/agentit/secret_classify_cache.py:20-23 | one line in two contexts: the first verdict decides both |
| ClickScope.ClickScopeParser.HandleStartTag | scripts/check_portal_edl.py:103-122 | one start tag: report, then push unless void |
| ClickScope.ClickScopeParser.HandleEndTag | scripts/check_portal_edl.py:124-126 | one end tag: pop if there is anything |
| ClickScope.ClickScopeParser.FeedAll | scripts/check_portal_edl.py:95-129 | feeding a stream is stepping through its events |
| ClickScope.StartTagIs | scripts/check_portal_edl.py:103-122 | a start tag is reported, once and under its first click attribute, iff it has one outside every scope; which attribute names make a click element; which elements push nothing |
| ClickScope.LowerIs | scripts/check_portal_edl.py:107 | names are compared in lower case |
| ClickScope.ReportIsExact | scripts/check_portal_edl.py:103-129 | with no self-closed non-void element in a scope, the report is exactly the click elements with no `x-data` on themselves or an ancestor, in document order |
| ClickScope.WellNestedHasNoScopedLeak | scripts/check_portal_edl.py:107-110 | well-nested HTML, where only void elements lack an end tag, meets that condition |
| ClickScope.FeedLeaves | scripts/check_portal_edl.py:103-129 | on any forest and stack: exactly what is reported and exactly which entries are left |
| ClickScope.ReportIsExactIff | scripts/check_portal_edl.py:103-129 | on any document the report is right iff no click element outside every scope is met with a leftover true entry on top |
| ClickScope.ContinuationsAreFreshIff | scripts/check_portal_edl.py:103-129 | the rest of the page, whatever it is, is reported as on a fresh start iff no true entry is left |
| ClickScope.NothingInScopeIsReported | scripts/check_portal_edl.py:103-129 | leaks or not, the report is a subsequence of the real violations |
| ClickScope.ScopedLeakHidesAViolation | scripts/check_portal_edl.py:128-129 | the smallest such document: a self-closed element in a scope, then a click element after it |
| Scoring.RoundIsNearest | src/agentit/scoring.py:108 | rounding is to the nearest, ties to even |
| Scoring.CalculateDimensionScoreV2 | src/agentit/scoring.py:77-108 | the pass ratio, within 0 and 100 |
| ScoreCounts.CheckedScoreIs | src/agentit/scoring.py:89-108 | with checks: the share of them that pass, each failing finding whose source, or category without a source, names no check counting as one more that does not |
| ScoreCounts.BaselineScoreIs | src/agentit/scoring.py:104-108 | without: the share of eight controls that no finding fails |
| ScoreCounts.RowsOfAre | src/agentit/scoring.py:117-122 | a dimension is scored by the check rows of its own name |
| Scoring.ApplyScoreModelV2 | src/agentit/scoring.py:111-130 | every dimension rescored on its own check rows |
| Scoring.GroupByDimension | src/agentit/scoring.py:117-119 | the grouping dictionary holds each dimension's rows in order |
| Scoring.FewerFindingsNeverScoreLower | src/agentit/scoring.py:77-108 | removing findings never lowers a score, with or without check rows, and scores stay in 0..100 |
| Scoring.WeightedOverallScore | src/agentit/interfaces/score_aggregate.py:42-55 | the weighted mean to two places, 0 without weight |
| Scoring.OverallIsBetween | src/agentit/interfaces/score_aggregate.py:17-55 | the overall lies between the lowest and the highest dimension score |
| Scoring.OverallIsMonotone | src/agentit/interfaces/score_aggregate.py:42-55 | no dimension lower, overall not lower |
| ScoreCounts.OverallOfTwo | src/agentit/interfaces/score_aggregate.py:18-55 | the overall of two dimensions is the mean of their scores by the listed weights |
| ScoreCounts.OverallOfFew | src/agentit/interfaces/score_aggregate.py:47-55 | without a dimension the overall is zero, and of one alone it is that dimension's score |
| ScoreCounts.HeavierCountsMore | src/agentit/interfaces/score_aggregate.py:42-55 | a better score counts for more on the dimension that weighs more |
| ScoreCounts.WeightsFall | src/agentit/interfaces/score_aggregate.py:18-34 | for every criticality: security weighs most, data governance least, and the order in between |
| Scoring.RemoveFinding | src/agentit/scoring.py:139-165 | by identity, else by text, else the first of its kind |
| Scoring.ClearingOnlyRemoves | src/agentit/scoring.py:139-165 | clearing only removes findings, never keeps the one cleared, and removes something iff one of its kind is there |
| ScoreCounts.ClearedFindingsAre | src/agentit/scoring.py:139-152 | which findings are cleared: the finding itself, else all that agree with it in every field |
| ScoreCounts.FirstOfItsKindGoes | src/agentit/scoring.py:153-165 | else the first of its category and severity, alone |
| Scoring.EstimateFindingOverallDelta | src/agentit/scoring.py:168-190 | the estimated gain in tenths |
| Scoring.DeltaFollowsTheDimension | src/agentit/scoring.py:168-190 | no loss is estimated when no dimension is rescored lower, no gain when none is rescored higher |
| Scoring.MeanMoves | src/agentit/interfaces/score_aggregate.py:42-55 | a point more on a dimension that weighs more than six hundredths of the whole moves the overall by six hundredths or more |
| Scoring.EstimateIsALossIff | src/agentit/scoring.py:168-190 | on such a dimension the estimate is negative iff the score held is above the baseline score without the finding |
| Scoring.CheckedEstimateIsALossIff | src/agentit/scoring.py:77-108 | the same counted out in checks passed, orphaned failures and failures that stay |
| Scoring.FewDimensionsWeighEnough | src/agentit/interfaces/score_aggregate.py:17-34 | nine dimensions or fewer always weigh enough |
| Scoring.FixNeverLosesPoints | src/agentit/scoring.py:168-190 | the estimate is never negative when the dimension was scored without check rows |
| Scoring.ChecksCanMakeAFixLosePoints | src/agentit/scoring.py:182-186 | with check rows it can be: 9 of 10 checks passing and two findings already counted lose two points |
| CheckMerge.MergeCheckFindings | src/agentit/runner.py:233-295 | the merge through a dictionary by dimension |
| CheckMerge.MergeIsPointwise | src/agentit/runner.py:254-295 | entry by entry: analyser findings plus the unseen check findings of that dimension, rescored only if there are any; other dimensions are what the checks found |
| CheckMerge.MergeKeepsAnalyzerFindings | src/agentit/runner.py:233-295 | analysed dimensions keep their place and their findings as a prefix; every analysed or checked dimension is present once |
| MergedScores.MergedScoreIs | src/agentit/runner.py:254-291 | an entry that gained findings, or is new, is scored from the severities of all its findings; any other is the analyser's own |
| MergedScores.MergedFindingsAre | src/agentit/runner.py:257-266 | an analysed dimension gains the check findings that agree with none of its own in category and description |
| MergedScores.NewDimensionsComeInOrder | src/agentit/runner.py:254-295 | after the analysed dimensions come the others, in the order the checks first name them |
| CheckMerge.MergingAgainChangesNothing | src/agentit/runner.py:233-295 | merging the same check results again changes nothing |
| CheckMerge.ApplySuppressions | src/agentit/runner.py:298-315 | filtered findings, rescored only if something went |
| CheckMerge.SuppressionsCompose | src/agentit/runner.py:298-315 | suppressing S and then T is suppressing their union, scores included |
| MergedScores.SuppressedIs | src/agentit/runner.py:298-315 | suppressing takes exactly the findings of the given sources, and rescores what lost any |
| SkillMatch.ResolveConflicts | src/agentit/skill_engine.py:638-658 | what is left once every listed conflict has removed its loser |
| SkillMatch.SurvivorsDoNotConflict | src/agentit/skill_engine.py:638-658 | no survivor lists a survivor |
| SkillMatch.SurvivesIff | src/agentit/skill_engine.py:638-658 | who survives: exactly those that lose to nobody |
| SkillMatch.StrictWinnerSurvives | src/agentit/skill_engine.py:638-658 | a skill that strictly outranks every skill it conflicts with survives |
| SkillMatch.WithoutTiesSomeoneSurvives | src/agentit/skill_engine.py:638-658 | without ties between conflicting skills, something survives |
| SkillMatch.MutualTieRemovesBoth | src/agentit/skill_engine.py:652-657 | two equal skills that list each other both go |
| SkillMatch.NothingSurvivesIff | src/agentit/skill_engine.py:638-658 | nothing survives iff every skill loses to one of them |
| SkillMatch.Match | src/agentit/skill_engine.py:554-636 | the candidates of the findings or, without any, of the whole report, less the losers of their conflicts |
| SkillMatch.CandidatesAre | src/agentit/skill_engine.py:590-636 | with open findings: exactly the clearing skills of contracted findings and, given uncontracted text, the triggered skills that no contract refuses |
| SkillMatch.GreenfieldCandidatesAre | src/agentit/skill_engine.py:617-622 | without findings: exactly the loaded skills the report triggers that are not cooled, for detection, retired or drafts |
| SkillMatch.GreenfieldKeepsLoadingOrder | src/agentit/skill_engine.py:617-622 | in loading order |
| SkillMatch.OneMoreFinding | src/agentit/skill_engine.py:596-615 | with findings: clearing skills in the order of their findings, and the uncontracted texts in theirs |
| SkillMatch.TriggeredComeAfter | src/agentit/skill_engine.py:626-634 | then the triggered skills, in loading order |
| SkillMatch.MatchedSkillsAreAdmitted | src/agentit/skill_engine.py:554-658 | never a cooled, draft, retired or detect skill; no name twice; each one clears a contracted finding or was triggered |
| SkillMatch.CategorySkillIsNotCooled | src/agentit/skill_engine.py:1174-1231 | the skill for a category is a loaded one and not cooled |
| SkillMatch.CategorySkillIff | src/agentit/skill_engine.py:1202-1231 | the skill of a category, exactly: the first of the registered name unless cooled, none under a contract without automatic pull requests, else the first uncooled one triggered |
| WorkerPool.RunWork | src/agentit/skill_engine.py:1101-1135 | the pool: none, one, or many jobs collected by name as they complete |
| WorkerPool.RunAllIsSequential | src/agentit/skill_engine.py:1109-1135 | two or more skills, distinct names: for every completion order, each skill's files in match order, a failing skill contributing nothing |
| WorkerPool.FewSkillsAre | src/agentit/skill_engine.py:1101-1109 | no skill makes no files; a skill alone makes its own and its failure is an error, which no failure among several is |
| WorkerPool.OrderIsInvisibleIff | src/agentit/skill_engine.py:1121-1134 | the result is independent of the completion order iff same-named jobs produce the same files |
| WorkerPool.RunAnalyzersConcurrent | src/agentit/runner.py:204-230 | the analyser pool; a failing analyser fails the run |
| WorkerPool.AnalyzersAreListedInOrder | src/agentit/runner.py:209-230 | for every completion order: the known dimensions in the fixed order, then the others sorted, each with its own score |
| WorkerPool.ShippedAnalyzersAreInTheFixedOrder | src/agentit/runner.py:26-35 | the shipped analysers are reported in the fixed order itself |
| WorkerPool.ListingIsComplete | src/agentit/runner.py:227-230 | that listing has every analysed dimension, once |
| WorkerPool.AnalyzerOrderIsInvisible | src/agentit/runner.py:204-230 | the outcome, failure included, is the same for every completion order |
| TickLedger.CollapseAgent | src/agentit/ledger.py:166-181 | one agent's rows: each run of clean ticks flushed by the failure after it or by the end |
| TickLedger.SummaryIs | src/agentit/ledger.py:141-154 | what the row of a clean run holds |
| TickLedger.AgentsComeAsFirstSeen | src/agentit/ledger.py:161-166 | agents come in the order of their first tick |
| TickLedger.CollapseTickEvents | src/agentit/ledger.py:157-181 | grouping by agent in order of first appearance, then collapsing each group |
| TickLedger.ByAgentIs | src/agentit/ledger.py:161-163 | the grouping dictionary holds each agent's ticks in the order given |
| TickLedger.OrderedIsInOrder | src/agentit/ledger.py:167 | the sort orders by time |
| TickLedger.OrderedKeepsAll | src/agentit/ledger.py:167 | it loses and invents nothing |
| TickLedger.OrderedIsStable | src/agentit/ledger.py:167 | ticks of one time keep the order given |
| TickLedger.CollapsedIff | src/agentit/ledger.py:141-181 | the rows are the only ones that cut the ticks into consecutive pieces, failures whole and clean runs summarised, with no two success rows adjacent |
| TickLedger.RowsReadBack | src/agentit/ledger.py:141-181 | the rows give back every tick's outcome in order and every failed tick whole |
| TickLedger.LedgerIsLossless | src/agentit/ledger.py:157-181 | all of it for every agent's share of the mixed ledger |
| LineDiff.DiffLines | src/agentit/portal/content_diff.py:33-47 | context plus removed rows are the original, context plus added rows the edited text; and each opcode's lines are shown as what it says of them |
| LineDiff.TilingReconstructs | src/agentit/portal/content_diff.py:37-46 | the same up to any opcode |
| LineDiff.PatchIff | src/agentit/portal/content_diff.py:37-46 | rows patch one text into another iff they read back as the two |
| LineDiff.DiffRoundTrips | src/agentit/portal/content_diff.py:19-47 | the diff patches original to edited, and undone, edited to original |
| LineDiff.InBlocksIff | src/agentit/portal/content_diff.py:37-46 | the rows are the only ones that show the opcodes: equal lines as context, deleted as removed, inserted as added, a replaced block as its removed rows, then its added ones |
| LineDiff.EqualTextsAreContext | src/agentit/portal/content_diff.py:38-39 | a text matched throughout is context only |
| Inventory.SnapshotRoundTrips | src/agentit/skill_inventory.py:33-44 | a snapshot survives being stored |
| Inventory.ChangesIff | src/agentit/skill_inventory.py:56-89 | a diff has changes iff the snapshots differ |
| Inventory.EventsOf | src/agentit/skill_inventory.py:92-117 | the four batches of events in order |
| Inventory.EventsSay | src/agentit/skill_inventory.py:92-117 | the text and severity of every event |
| Inventory.SummaryReadsBackIff | src/agentit/skill_inventory.py:97-116 | an event's text names its item iff the domain has no slash |
| Inventory.LogReplaysIff | src/agentit/skill_inventory.py:74-117 | one call's events turn the old snapshot into the new one iff no changed domain has a slash |
| Inventory.InventoryStore.DiffAndLogInventoryChanges | src/agentit/skill_inventory.py:120-155 | first call saves a baseline silently; no change saves nothing; otherwise log, then save |
| Inventory.LastCatalogIsSaved | src/agentit/skill_inventory.py:138-155 | after every call the stored snapshot is the catalog just seen |
| Inventory.LogIsFaithfulIff | src/agentit/skill_inventory.py:120-155 | over any history, the log replayed on the first catalog is the saved snapshot at every call boundary iff no changed domain has a slash |
| Inventory.InterruptionIsRepairedIff | src/agentit/skill_inventory.py:151-154 | after a call cut short while logging, the next call repairs the log iff what was logged still holds |
| Inventory.RetryRepairs | src/agentit/skill_inventory.py:151-154 | a retry on an unchanged catalog always repairs it |

## Left out

- Several assigned partitions of the consumer: the code gives no guarantee beyond the condition and the two counterexamples above. `poll_once` and the persisting of dead letters to the store are not modelled. The consumer's dead letters are taken to go to a publisher of its process, and a restart to find that publisher's table as it was left. A group with no committed offset yet, which Kafka starts at the end of the log, is taken to have that end as its committed offset.
- The publisher's send errors that surface only through futures nobody reads, several processes sharing one buffer file, and a table that cannot be created. A buffered row that does not parse ends the drain like a failed send.
- The breaker's lock, and the open breaker inside `apply_yaml`: the dry run is modelled with the breaker closed.
- Regular expressions, YAML and HTML tokenising, text matching with `fnmatch`, and the hash of a matched line: parsed documents, events, matches and the stripped line itself are inputs. Dumping documents and loading them again in a dry run is taken to change nothing.
- `_classify_and_fix` outside a dry run, and how a kind is looked up among the known kinds (a function of the model's world).
- Wording: warning labels, notes on skipped files, pull-request bodies, reasons of refusals beyond what decides the status.
- The early steps of `auto_validate_and_deliver` (capability filter, finding gate, LLM review), notifications and event logging. The gates, the simulation, the dry run, property checks, what a skill renders and `route_and_deliver` are functions of their inputs: of the store, the model carries reject counts alone, so what deliveries write and later dry runs read, and what a pull request's text says about other clusters' drops, stay out. Rejects recorded outside the cluster loop (LLM review, merged pull requests) and a human clearing a cool-down are in the counts a run starts from. The app name is taken to be known and the cool-down lookup to answer.
- How files are partitioned into clusters.
- Persistent and bridged forms of the secret cache; a classifier that changes its mind between scans is covered only where it falls silent.
- IEEE double behaviour in scores: ratios and means are exact, with ties to even. Check rows carry their names as given. Score model v1 and `top_fix_impacts` would add a table and a sort.
- Store lookups and cooldown logging before the pool of `run_all`; what one skill generates.
- The rest of the ledger (cards, humanised labels, chain counts). ISO timestamps of one format are seconds, and their first sixteen characters the minute.
- difflib's matching itself: the opcodes are an input, and what is used of them is that they tile both texts and that "equal" pieces are equal.
- `take_snapshot`'s loading of skills and checks from disk; the order `sorted` gives, beyond listing a set's members.
- Orchestrator, assessment diff, drift detector, change analyser and similar table look-ups: they would only add easy members.

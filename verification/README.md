# Governance backend: a verified model of its transactional core

This project models the part of an AI-governance backend that decides whether an AI
request may run and what is left on record about it, and proves what that part promises.
Everything is plain Dafny 4.11; `dafny verify dfyconfig.toml` checks the whole project.

Paths below are relative to the repository's root.

## What is modelled

A chat request names a feature. The feature's own row, its configuration *version* and a
risk scan of the input decide whether the provider is called. Every stage may open a
review task; every outcome writes one event to the tenant's hash-chained evidence log; a
completed call also bumps a usage meter. All of it is one database transaction, except
that evidence of a provider failure is written by a session of its own.

| file | what it covers |
|---|---|
| `EvidenceChain.dfy` | the evidence log: links, ancestry, when the chain is a list and when a forest |
| `ReviewTasks.dfy`, `ReviewInterleaving.dfy` | review-task deduplication, serially and as interleaved sessions against the partial unique indexes |
| `FeatureLifecycle.dfy` | candidate, approved, superseded and rejected versions, and the pointers to the current one |
| `RiskEngine.dfy` | the rule tables, the score, the final verdict |
| `ChatPipeline.dfy`, `ChatService.dfy` | the request as a function on committed tables, and the session that executes it |
| `ChatGuarantees.dfy`, `ChatRecords.dfy`, `ChatEffects.dfy` | what requests guarantee in every reachable state, what each leaves on record, and that it touches nothing else |
| `Crawler.dfy`, `SignalScan.dfy` | the scanner's growing worklist and its detection loops |
| `ObligationGraph.dfy`, `ScanConversion.dfy`, `ConversionOutcomes.dfy` | the obligation graph, control seeding, scan conversion, and what a scan's answers come to |
| `EvidenceVault.dfy`, `EvidenceOutcomes.dfy` | sealed, linked evidence items, their two writers and the rows each leaves |
| `StripeDelivery.dfy` | at-least-once delivery of Stripe events, with crashes between commits |
| `TenantAccess.dfy`, `TenantGuarantees.dfy`, `TenantOutcomes.dfy` | users, invitations, login policy, logins, and what one request does to them |
| `PolicyChecks.dfy`, `UsageStats.dfy`, `UsageReport.dfy` | the policy-check log and its statistics |
| `Common.dfy` | optional values, results, counting |

Services that update rows in place are classes whose methods are proved equal to a
specification function on the tables; the lemmas are about those functions, over all
inputs, all runs or all interleavings. What each operation computes is stated a second
time, on its inputs and the rows it leaves, without the functions that define it. Tables are sequences in insertion order or maps by
key. The session does not autoflush, so a query sees flushed rows only; where that
matters (control seeding) the model keeps it.

Hashing is an arbitrary function. Injectivity is assumed only by the lemmas that say so.
Feature fingerprints are kept as the tuple that is hashed. Clocks, minted ids, the
provider's answer, commit failures, crashes, regular-expression search, substring search
in the risk rules, lower-casing, page fetching and link resolution are parameters.

## Where the code does less than it seems to promise

Each of these is a branch of the code, kept in the model. The lemma named states exactly
when the promise holds.

- The comment at `app/services/pipeline.py:256-265` says failure evidence survives the
  rollback. It is lost if and only if foreign keys are enforced and the failed request
  itself created the version the evidence names (`ChatGuarantees.FailureEvidenceIsLostIff`);
  the first request of any feature is such a case in every reachable state
  (`ChatGuarantees.FirstFailureIsLost`).
- On PostgreSQL approving a version fails if and only if the approved one has the greater
  id, because a flush updates rows in the order of their ids and the partial unique index
  is checked row by row (`FeatureLifecycle.ApprovalSucceedsIff`).
- The search for a replacement when the current version is rejected never finds any
  (`FeatureLifecycle.RejectOutcome`).
- A tenant's chain is one list if and only if every event that has a successor is later,
  in query order, than all before it (`EvidenceChain.ListIffAdvancing`); equal instants can
  make it a forest (`EvidenceChain.EqualInstantsFork`).
- A vault seal matches the item as read back if and only if the item's last write supplied
  naive or UTC times (`EvidenceVault.SealsFollowTheLastWrite`); the next write repairs it.
- Handling a Stripe event twice is handling it once if and only if at most one row carries
  its subscription id or all that do already hold the event, because the lookup neither
  orders nor needs unique rows (`StripeDelivery.HandlerIsIdempotentIff`). Rows without a
  subscription all carry the null id.
- A Stripe event that lost its marker and is redelivered after others is harmless if and
  only if the rows still carry it by then (`StripeDelivery.LateRedeliveryIsHarmlessIff`);
  otherwise it overwrites newer values (`StripeDelivery.LateRedeliveryOverwrites`). A
  checkout that died once its free row was stored is harmless if and only if that row's
  terms are, by the redelivery, those it would have without the crash
  (`StripeDelivery.EarlyRowIsHarmlessIff`).
- Seeding controls fails as a whole if and only if a key that has no control yet occurs
  twice in the graph (`ObligationGraph.SeedingSucceedsIff`); the graphs the code builds
  never repeat a key.
- The review-task lookup tells a null id from an empty one and the index does not, so a
  serial call raises if and only if the two meet (`ReviewTasks.RaisesIffNullMeetsEmpty`).
  No caller in the repository passes an empty id, and with null or non-empty ids no
  serial call ever raises (`ReviewTasks.NonEmptyIdsNeverRaise`). Between sessions the one
  other cause is a task closed between the violation and the second lookup
  (`ReviewInterleaving.EveryRaiseIsExplained`).
- The event of a stopped request carries the status of the response unless, and only
  unless, candidates are quarantined and the request meets a candidate of a feature whose
  row lets it pass; the event then says `quarantineed` (`ChatRecords.StatusesAgreeIff`).
- An invitation never works once its e-mail has a user
  (`TenantGuarantees.ShadowedInvitationIsNeverAccepted`), though a disabled user can be
  invited (`TenantGuarantees.InvitingADisabledUser`); inviting again does not renew a
  deadline (`TenantGuarantees.ReinvitingKeepsTheOldDeadline`); an expired invitation only
  delays whoever may join anyway (`TenantGuarantees.RetryAfterExpiry`); the last-owner
  guard also stops updates that remove no active owner (`TenantGuarantees.LastOwnerIff`).
- The switch named for Google users provisions the users of every enabled provider
  (`TenantGuarantees.ProvisioningIgnoresTheProvider`).
- A client that sends the literal `unmapped_feature` skips the feature gate
  (`ChatGuarantees.PrepareIsOk`); gate properties are about other names.

## Model

| member | source | states |
|---|---|---|
| EvidenceChain.EvidenceTable.GetLastEventHash | app/services/evidence_service.py:9-11 | the hash of the tenant's greatest row by (created_at, event_id), or null |
| EvidenceChain.EvidenceTable.WriteEvidenceLog | app/services/evidence_service.py:14-59 | appends one row, linked to that hash, hashed and signed, and changes no other |
| EvidenceChain.SerialisedWritesGrow | app/services/evidence_service.py:14-59 | after any serialised writes by any mix of tenants every row is sealed, holds the data and clocks written, ids are unique and each link is its tenant's last hash at the time |
| EvidenceChain.LinksNameAnEarlierEvent | app/services/evidence_service.py:9-59 | a link is null exactly at a tenant's first event; otherwise exactly one row of the log has that hash, earlier and of the same tenant |
| EvidenceChain.GrownLogsAreLinked | app/services/evidence_service.py:9-59 | every link resolves, by search for its hash, to an earlier event of its tenant |
| EvidenceChain.LinksEndAtGenesis | app/services/evidence_service.py:9-59 | following links stays in the tenant, passes only stored rows and ends at the tenant's one genesis event |
| EvidenceChain.EqualHashesMeanEqualHistories | app/services/evidence_service.py:14-59 | two logs that agree on one event's hash agree on that event's whole ancestry |
| EvidenceChain.ListIffAdvancing | app/services/evidence_service.py:9-11 | a tenant's chain is one list if and only if each event that has a successor is later, in query order, than all before it |
| EvidenceChain.StrictClockMakesAList | app/services/evidence_service.py:9-11 | strictly increasing created_at makes every event link to its immediate predecessor |
| EvidenceChain.SiblingsShareTheParentsInstant | app/services/evidence_service.py:9-11 | under a clock that never steps back, events share a parent only if the earlier one carries the parent's own created_at |
| EvidenceChain.EqualInstantsFork | app/services/evidence_service.py:9-11 | four events of one instant of which two have the same parent |
| ReviewTasks.TaskTable.GetOrCreateOpenReviewTask | app/services/review_service.py:8-93 | each of the three outcomes (found, inserted, refused and looked up again) with the rows it leaves, for any rows other sessions commit in between |
| ReviewTasks.TaskTable.CloseReviewTask | app/routes/reviews.py:33-45 | closes the tenant's task, keeps its note unless a new one is given, changes no other |
| ReviewTasks.RaisesIffNullMeetsEmpty | app/services/review_service.py:20-93 | a serial call raises if and only if an open task has an equal index key and a different lookup key; never with null or non-empty ids |
| ReviewTasks.NullMeetsEmpty | alembic/versions/0002_postgres_partial_indexes.py:29-60 | a concrete call that raises |
| ReviewTasks.NeverTwoOpen | alembic/versions/0002_postgres_partial_indexes.py:29-60 | over any run of calls and closes no index key has two open tasks |
| ReviewTasks.ClosedTasksAreFrozen | app/services/review_service.py:20-65 | tasks are never removed or rekeyed, closed ones never reopened or counted up |
| ReviewTasks.CallOutcome | app/services/review_service.py:20-65 | an answered call counts up the open task of its key and remembers its findings, or opens a first one; no other task changes |
| ReviewTasks.CloseOutcome | app/routes/reviews.py:33-45 | a close closes and stamps the tenant's task of that id and nothing else |
| ReviewTasks.ClosedTasksAreNotJoined | app/services/review_service.py:20-65 | after a close the key's next call opens a task of its own and leaves the closed one alone |
| ReviewTasks.OccurrencesAreAnsweredCalls | app/services/review_service.py:20-93 | over any tables, ids and run, with closes interleaved anywhere, a key's occurrences over all its tasks are its calls that returned a task |
| ReviewTasks.OccurrencesAreCallsIff | app/services/review_service.py:20-93 | they are all its calls if and only if none of those raised |
| ReviewTasks.NonEmptyIdsNeverRaise | app/services/review_service.py:66-93 | with ids null or non-empty no call of a run raises |
| ReviewTasks.OccurrencesAreCalls | app/services/review_service.py:20-65 | so with such ids the occurrences are the calls |
| ReviewInterleaving.ExecutionKeepsInv | app/services/review_service.py:20-93 | every reachable state of every interleaving: committed and uncommitted tasks respect the partial indexes |
| ReviewInterleaving.NeverTwoOpenTasks | alembic/versions/0002_postgres_partial_indexes.py:29-60 | over every interleaving, whatever the ids, no two open tasks of one key are committed or visible to any session |
| ReviewInterleaving.ConflictJoinsTheHolder | app/services/review_service.py:66-93 | while the task that refused an insert is open, the second lookup finds it and nothing else |
| ReviewInterleaving.RaisesOnlyIfClosedInBetween | app/services/review_service.py:66-93 | with ids null or non-empty a caller raises only if that task was open at the violation and closed by the second lookup |
| ReviewInterleaving.EveryRaiseIsExplained | app/services/review_service.py:66-93 | with any ids, only for that reason or because the refusing task has the caller's index key under another lookup key |
| FeatureLifecycle.FeatureRegistry.EnsureFeatureVersionCandidate | app/services/feature_service.py:87-163 | the feature, versions and review tasks after ensuring a version, and the result |
| FeatureLifecycle.FeatureRegistry.ApproveFeatureVersion | app/services/feature_service.py:196-232 | supersedes every other approved version, approves this one, moves the three pointers; errors, the index violation of the flush among them, change nothing |
| FeatureLifecycle.FeatureRegistry.RejectFeatureVersion | app/services/feature_service.py:235-283 | the new state of a rejection; errors change nothing |
| FeatureLifecycle.FeatureRegistry.ValidateRegisteredFeature | app/services/feature_service.py:166-193 | the gate's answer and the tables it leaves |
| FeatureLifecycle.EnsureKeepsConsistent | app/services/feature_service.py:87-163 | keeps one approved version that all pointers denote, numbers 1..n, distinct fingerprints, matching timestamps |
| FeatureLifecycle.EnsureOutcome | app/services/feature_service.py:87-163 | a known configuration is returned unchanged; a new one is approved if the feature's first, else a candidate that moves no pointer |
| FeatureLifecycle.ApproveKeepsConsistent | app/services/feature_service.py:196-232 | keeps the same, and the approved version is the current one |
| FeatureLifecycle.ApproveOutcome | app/services/feature_service.py:196-232 | exactly two versions change: the one approved and the current one it supersedes, each with its one stamp |
| FeatureLifecycle.ApprovalSucceedsIff | alembic/versions/0002_postgres_partial_indexes.py:21-27 | with the partial index an approval succeeds if and only if no approved version has a greater id; otherwise the index refuses the flush |
| FeatureLifecycle.SmallerIdIsRefused | app/services/feature_service.py:217-231 | two configurations of a feature for which it is refused |
| FeatureLifecycle.RejectOutcome | app/services/feature_service.py:249-283 | rejecting fails for lack of a replacement if and only if the current version is rejected; otherwise the pointers stay |
| FeatureLifecycle.RejectedVersion | app/services/feature_service.py:235-283 | a rejection succeeds for every stored version but the current one, and marks and stamps that one alone |
| FeatureLifecycle.RejectedConfigurationsStayOut | app/services/feature_service.py:181-193 | over every run a rejected version stays rejected and the gate refuses its configuration, until an approval of it succeeds |
| FeatureLifecycle.RunKeepsConsistent | app/services/feature_service.py:87-283 | over every run: no versions and null pointers, or exactly one approved version denoted by all three pointers |
| FeatureLifecycle.CurrentVersionCannotBeRejected | app/services/feature_service.py:256-268 | in every reachable state rejecting the current version fails and changes nothing |
| FeatureLifecycle.HistoryIsAppendOnly | app/services/feature_service.py:117-142 | versions are only appended; all a run may change of one is its status and timestamps |
| FeatureLifecycle.AllowedVersions | app/services/feature_service.py:181-193 | the gate allows exactly approved and candidate versions; approved means the one the pointers denote |
| FeatureLifecycle.AdmittedVersion | app/services/feature_service.py:181-193 | the version a request may use exists, has the request's fingerprint and is the approved one or a candidate |
| RiskEngine.PiiRules | app/services/risk_engine.py:26-40 | the results of the pattern table, in order |
| RiskEngine.RegulatedDomainRules | app/services/risk_engine.py:52-68 | each domain once, by its first term found |
| RiskEngine.AssessRisk | app/services/risk_engine.py:71-81 | the capped score, level, results and ids of a text |
| RiskEngine.FiredIff | app/services/risk_engine.py:26-68 | a rule is reported if and only if one of its terms is found, with the first that is |
| RiskEngine.ReportedIff | app/services/risk_engine.py:71-81 | the results are those of the three tables, each on the text it looks at, cut at 4000 characters |
| RiskEngine.JoinedFromTheLeft | app/services/risk_engine.py:54-55 | the context searched is its lowered values joined by spaces |
| RiskEngine.ScoreIsExact | app/services/risk_engine.py:17-23 | 25 points for a medium and 40 for a high result, capped at 100; levels begin at 25 and 60 |
| RiskEngine.ResultsAreGraded | app/services/risk_engine.py:26-68 | severity and action of every result follow from its group; of the personal data only the card number is high |
| RiskEngine.TwoSecretsAreHighRisk | app/services/risk_engine.py:43-49 | two different secrets make any text high risk |
| RiskEngine.AssessmentIsSound | app/services/risk_engine.py:17-81 | scores lie in 0..100, high means at least 60, no result means score 0, below 25 means no result; ids ascend and are those of the results |
| RiskEngine.ScoresZeroIff | app/services/risk_engine.py:71-81 | the score is 0 if and only if no rule of the three tables finds any of its terms |
| RiskEngine.VerdictIsExact | app/services/pipeline.py:277-298 | flag if and only if the output scores 60, allow if and only if nothing fired and no candidate; score is one of the two and their maximum; ids are the sorted union |
| ChatService.UsageMeters.Add | app/services/billing_service.py:77-88 | creates the tenant's meter or adds to it, and touches no other |
| ChatService.Service.CheckFeatureId | app/services/pipeline.py:135-168 | the stage for a missing feature id under warn, quarantine and block |
| ChatService.Service.CheckFeature | app/services/pipeline.py:173-223 | the feature gate as executed is the gate as specified |
| ChatService.Service.WarnAboutCandidate | app/services/pipeline.py:184-203 | the candidate branch: warning, review task, and one of three policies |
| ChatService.Service.HandleRefusal | app/services/pipeline.py:205-223 | the refusal branch, with the warn-mode exception for unknown features |
| ChatService.Service.CheckInput | app/services/pipeline.py:225-238 | the high-risk input branch |
| ChatService.Service.WriteFailureEvidenceIndependently | app/services/evidence_service.py:62-73 | extends the committed log by one event and nothing else, or changes nothing |
| ChatService.Service.RecordUsageAndCommit | app/services/billing_service.py:77-88 | adds one governed call and commits the whole session |
| ChatService.Service.RunChatPipeline | app/services/pipeline.py:104-317 | commits, rollbacks and response of the executed request are those of the specified one |
| ChatGuarantees.PrepareIsOk | app/services/pipeline.py:135-238 | the provider is called if and only if the request's text scores below 60 and the feature admits the request (or warn mode or the sentinel lets an unregistered one pass); no stage raises |
| ChatGuarantees.OnlyActiveFeaturesRun | app/services/feature_service.py:172-179 | whenever the provider is called for a registered feature it is active, lists provider and model, and the request's text scored below 60 |
| ChatGuarantees.OnlyApprovedOrWarnedVersionsRun | app/services/feature_service.py:181-193 | the version that runs has the provider, model and prompt hash of the request, and is the unique approved one the pointers name, or a candidate under allow_with_warning |
| ChatGuarantees.RequestsAreAllOrNothing | app/services/pipeline.py:104-114 | committed tables change by nothing, by one provider_error event, or by the whole request with exactly one correctly linked event |
| ChatGuarantees.AnswerIff | app/services/pipeline.py:104-317 | which answer a request gets: stopped, completed and provider_error each by its exact condition |
| ChatGuarantees.FailureEvidenceIsLostIff | app/services/pipeline.py:240-275 | failure evidence is lost if and only if foreign keys are enforced and the request created its version |
| ChatGuarantees.FirstFailureIsLost | app/services/pipeline.py:240-275 | in every sound state, the first request of a feature whose row and input scan let it pass leaves nothing if the provider fails and foreign keys are enforced |
| ChatGuarantees.FirstFailureOfTheOnlyFeature | app/services/pipeline.py:240-275 | a family of such states: one active feature and nothing else stored |
| ChatGuarantees.CompletedVerdict | app/services/pipeline.py:277-298 | a completed call's score is the larger of those of its input and output; its decision and ids by their exact conditions |
| ChatGuarantees.ReachableStatesAreSound | app/services/pipeline.py:104-317 | over every run of requests, approvals, rejections, feature edits, closes and other evidence: features, tasks, log and meters stay sound |
| ChatGuarantees.MetersCountCompletions | app/services/billing_service.py:77-88 | over every run from empty tables a tenant's governed_call meter is the number of its ai_request_completed events |
| ChatRecords.StopsAreFiled | app/services/pipeline.py:135-238 | a request stops if and only if some stage has a ground for refusal; response and event record the first ground, its score, warnings, feature, system, version and request, and an open task of exactly that key, opened or touched by it, holds its findings |
| ChatRecords.QuarantineIsFiledIff | app/services/pipeline.py:184-203 | a refusal is that of a quarantined candidate if and only if policy, feature row and version, before the request, quarantine it |
| ChatRecords.StatusesAgreeIff | app/services/pipeline.py:193-203 | event and response of a stopped request carry the same status if and only if those do not |
| ChatRecords.PreparationIsFiled | app/services/pipeline.py:135-238 | calling the provider and the table of refusals are complementary |
| ChatRecords.HighRiskInputsAreFiled | app/services/pipeline.py:171-238 | a request that passes the gates reaches the provider if its text scores below 60, and else is filed as request_blocked_pre_check under that score |
| ChatRecords.GateIsFiled | app/services/pipeline.py:173-223 | the event, decision and exact task key each refusal of the gate leaves |
| ChatRecords.CallsAreFiled | app/services/pipeline.py:240-317 | the event of a completed or failed call names its feature, system, version, warnings and request, and carries the verdict the caller was told or the score of the input |
| ChatEffects.CandidatesAreFiled | app/services/feature_service.py:144-157 | a request that meets a candidate leaves an open task for the changed configuration, whatever becomes of it |
| ChatEffects.OnlyItsOwnTasks | app/services/pipeline.py:135-238 | a request changes and adds only the review tasks it is about |
| ChatEffects.OnlyItsOwnFeature | app/services/feature_service.py:87-163 | a kept request stores the version asked for unless its feature's row bars it, and touches no other feature |
| ChatEffects.RejectionReachesRequests | app/services/feature_service.py:181-193 | once a version is rejected every request of its configuration is refused as version_rejected |
| ChatEffects.ApprovalReachesRequests | app/services/feature_service.py:181-193 | once it is approved such a request runs on it unwarned, unless its text scores 60 |
| Crawler.DiscoverComplianceLinks | app/services/website_scanner_service.py:1531-1542 | the first eight links that resolve, in order |
| Crawler.DiscoveredLinks | app/services/website_scanner_service.py:1531-1542 | each discovered URL is what one link leads to, in page order; a resolving link left out comes after all eight |
| Crawler.ReadablePages | app/services/website_scanner_service.py:619-629 | the pages are what the readable fetched URLs gave, in fetching order, none left out |
| Crawler.SeedsAre | app/services/website_scanner_service.py:1526-1529 | the seeds are the page and the seventeen well-known paths |
| Crawler.Enqueue | app/services/website_scanner_service.py:630-632 | the worklist gains exactly the links not met before and keeps its prefix |
| Crawler.CollectPages | app/services/website_scanner_service.py:614-634 | terminates, fetches no URL twice, keeps to max_pages pages and 18 + 8*(max_pages-1) fetches; uncut, it fetches exactly the closure of the 18 seeds under discovered links |
| Crawler.ClosureIsUnique | app/services/website_scanner_service.py:619-632 | that closure is one set |
| SignalScan.DetectSignals | app/services/website_scanner_service.py:955-990 | the loops with skip and break report what the specification reports |
| SignalScan.ReportFirstNew | app/services/website_scanner_service.py:960-986 | the innermost loop reports the first new hit and stops |
| SignalScan.SignalsAreSound | app/services/website_scanner_service.py:955-990 | every signal is a real match, no (category, pattern) twice, at most one per page and category |
| SignalScan.SignalsAreInOrder | app/services/website_scanner_service.py:955-990 | signals come page by page, on a page in the order of the categories |
| SignalScan.SignalsTakeTheFirst | app/services/website_scanner_service.py:960-986 | each signal carries the first pattern found that no earlier signal of its category carries |
| SignalScan.HitsAreReported | app/services/website_scanner_service.py:955-990 | every hit has a signal of its category on that page unless an earlier page carries the pattern |
| SignalScan.CategoryReportedIffMatched | app/services/website_scanner_service.py:955-990 | a category is reported if and only if some page matches some pattern of it |
| SignalScan.ExtractTopics | app/services/website_scanner_service.py:992-1036 | the topic loops report what the specification reports |
| SignalScan.TopicsAreFirstMatches | app/services/website_scanner_service.py:992-1036 | each mentioned topic exactly once, from the first page that mentions it and the first pattern found there, in page order |
| ObligationGraph.BuildObligationGraph | app/services/regulatory_knowledge.py:857-889 | the order-preserving filter of the dimension table |
| ObligationGraph.InGraphIff | app/services/regulatory_knowledge.py:892-897 | a key is in the graph if and only if its dimension applies |
| ObligationGraph.GraphKeysAreDistinct | app/services/regulatory_knowledge.py:857-897 | every graph has distinct non-empty keys |
| ObligationGraph.ControlTable.SeedFromObligationGraph | app/services/compliance_control_service.py:466-525 | the controls stored and returned, or a unique violation that changes nothing |
| ObligationGraph.SeedingSucceedsIff | app/services/compliance_control_service.py:479-519 | succeeds if and only if no key that lacks a control occurs twice |
| ObligationGraph.SeedingAnswers | app/services/compliance_control_service.py:479-519 | each obligation is answered in order with the control its key has, or a new one of the status and domain it calls for; the rows added are just the new ones |
| ObligationGraph.SeedingIsIdempotent | app/services/compliance_control_service.py:485-492 | seeding again adds nothing and returns the same controls |
| ObligationGraph.SeededStays | app/services/compliance_control_service.py:485-492 | so does seeding after anyone else added controls |
| ObligationGraph.UniqueMeansAtMostOne | app/models.py:559-561 | a key has at most one control, the one found |
| ScanConversion.Converter.ConvertScan | app/services/website_scanner_service.py:444-522 | the tables and the result of a conversion; a failure changes nothing |
| ScanConversion.Converter.EnsureConversionEvidence | app/services/website_scanner_service.py:537-601 | the log holds the scan's conversion event, whose id is returned |
| ScanConversion.ConversionSettles | app/services/website_scanner_service.py:444-522 | a successful conversion leaves system, intake, controls and event that its result names |
| ScanConversion.SettledScansStay | app/services/website_scanner_service.py:457-464 | converting again changes nothing and returns the same; another role is refused |
| ScanConversion.OthersStaySettled | app/services/website_scanner_service.py:444-522 | converting any scan leaves every converted one as it was |
| ScanConversion.ConversionIsIdempotent | app/services/website_scanner_service.py:444-601 | after any run of conversions, converting equals having converted once |
| ScanConversion.FirstConversion | app/services/website_scanner_service.py:465-522 | succeeds if and only if the role is supported; adds one system named as the scan, one intake, one control per obligation, one stamped event; the scan, and no other, is linked to them with the role selected |
| ConversionOutcomes.ClassIff | app/services/classification_service.py:30-68 | the five classes, each by its exact condition on the answers |
| ConversionOutcomes.GraphShowsIff | app/services/regulatory_knowledge.py:857-897 | the obligations of a graph, with status and domain, from answers and role alone |
| ConversionOutcomes.ImpactAssessmentIff | app/services/regulatory_knowledge.py:1009-1012 | an impact assessment is required, not just screened for, if and only if one of four answers says so |
| ConversionOutcomes.FirstConversionControls | app/services/website_scanner_service.py:465-522 | the controls a first conversion adds are exactly those its answers and the selected role call for |
| EvidenceVault.Vault.CreateItem | app/services/evidence_vault_service.py:119-151 | the stored, sealed item, or the error |
| EvidenceVault.Vault.UpdateItem | app/services/evidence_vault_service.py:236-258 | the item with the given fields set, links resolved again, resealed |
| EvidenceVault.Vault.AttachItemToControl | app/services/evidence_vault_service.py:192-233 | relinks and reseals, keeping the last ten history entries |
| EvidenceVault.Vault.AttachArtifact | app/services/evidence_vault_service.py:260-321 | stores the artifact, its summary in the item, resealed |
| EvidenceVault.Vault.CreatePlaceholderEvidence | app/services/ai_system_service.py:213-250 | the review service's writer with its own link check and seal |
| EvidenceVault.SealersAgreeIff | app/services/ai_system_service.py:184-210 | both seal functions agree if and only if every time is UTC or naive |
| EvidenceVault.SealSurvivesReloadIff | app/services/evidence_vault_service.py:39-62 | a vault seal matches the item as read back if and only if its times were UTC or naive |
| EvidenceVault.ReviewSealSurvivesReload | app/services/ai_system_service.py:184-210 | the review service's seal always does |
| EvidenceVault.NextWriteRepairsTheSeal | app/services/evidence_vault_service.py:39-62 | the next write of a broken item seals it right |
| EvidenceVault.ResolvedLinksAreOk | app/services/evidence_vault_service.py:91-117 | what link resolution accepts is a control of the same tenant that is tenant-wide or of the item's system |
| EvidenceOutcomes.LinksResolveIff | app/services/evidence_vault_service.py:91-117 | each error of link resolution by its exact condition, and the system an item ends up with |
| EvidenceOutcomes.CreateOutcome | app/services/evidence_vault_service.py:119-151 | the stored item is the payload with its links, clock and seal; nothing else changes |
| EvidenceOutcomes.ReviseOutcome | app/services/evidence_vault_service.py:236-258 | the fields named are set, the others kept, links resolved again |
| EvidenceOutcomes.AttachOutcome | app/services/evidence_vault_service.py:192-233 | the item names the control and takes its system if it has none; the history holds the last ten attachments, newest first; all else is kept |
| EvidenceOutcomes.UploadOutcome | app/services/evidence_vault_service.py:260-321 | an artifact of 1 byte to 5 MB is stored and listed first, in place of an older entry of its id |
| EvidenceOutcomes.FollowUpOutcome | app/services/ai_system_service.py:213-250 | the placeholder stored for a reviewed system, with its control check |
| EvidenceOutcomes.SealsTellItemsApart | app/services/evidence_vault_service.py:39-62 | two sealed items carry one hash if and only if no field differs |
| EvidenceVault.LinksHoldInEveryRun | app/services/evidence_vault_service.py:91-151 | after any sequence of operations every item's control is of its tenant and tenant-wide or of its own system |
| EvidenceVault.SealsFollowTheLastWrite | app/services/evidence_vault_service.py:39-62 | after any sequence of operations an item's stored hash and signature are those recomputed if and only if its last write supplied naive or UTC times |
| EvidenceVault.VaultStaysSealed | app/services/evidence_vault_service.py:119-321 | so when all supplied times are, every item is sealed, by either seal function |
| StripeDelivery.Billing.HandleStripeWebhook | app/services/billing_service.py:26-75 | the subscriptions after one event, whichever matching row the lookup returns, also when a commit is refused or the process dies before the last one |
| StripeDelivery.Billing.StripeWebhook | app/routes/webhooks_stripe.py:30-38 | the route with its processed-event guard, a failing handler, and a crash at any commit |
| StripeDelivery.CheckoutOutcome | app/services/billing_service.py:26-36 | a checkout links the tenant's row, free if new, and keeps its terms; a crash leaves at most the row |
| StripeDelivery.ChangeOutcome | app/services/billing_service.py:37-75 | which row an event finds, what it sets there and what it keeps, or that nothing changes |
| StripeDelivery.HandlingChangesNothingIff | app/services/billing_service.py:37-75 | handling an event changes nothing if and only if the rows still carry it |
| StripeDelivery.HandlerIsIdempotentIff | app/services/billing_service.py:50-75 | for any choice of rows, twice is once if and only if at most one row carries the id or all that do hold the event; the customer fallback needs nothing |
| StripeDelivery.CutShortIsHarmless | app/services/billing_service.py:7-14 | a checkout cut off after creating the subscription is completed by the next handling |
| StripeDelivery.DeliveryIsExactlyOnce | app/routes/webhooks_stripe.py:30-38 | any delivery sequence whose crashes are retried next, on unambiguous rows, equals folding the handler over first occurrences |
| StripeDelivery.RepeatsAreIgnored | app/routes/webhooks_stripe.py:30-38 | without crashes repeats of identified events change nothing, in any order and on any rows |
| StripeDelivery.LateRedeliveryIsHarmlessIff | app/routes/webhooks_stripe.py:30-38 | after a lost marker and other events, which may repeat without crashes or crash and be retried next, the redelivery leaves the exactly-once outcome if and only if the rows still carry the event |
| StripeDelivery.EarlyCrashOnlyDelays | app/routes/webhooks_stripe.py:30-38 | a crash before the handler's commit, on an event that creates no row, makes its next delivery its first |
| StripeDelivery.EarlyRowIsHarmlessIff | app/services/billing_service.py:7-14 | a checkout that dies after creating its row, and is redelivered after others, leaves the exactly-once outcome if and only if by then the row has the plan, status and period it would have without the crash |
| StripeDelivery.LateRedeliveryOverwrites | app/routes/webhooks_stripe.py:30-38 | a concrete sequence that ends with the stale status |
| TenantAccess.Directory.CreateTenantUser | app/services/tenant_admin_service.py:295-316 | adds the user, with the manual provider, or one of four errors in order |
| TenantAccess.Directory.UpdateTenantUser | app/services/tenant_admin_service.py:319-340 | sets the mentioned fields, or an error that changes nothing |
| TenantAccess.Directory.InviteTenantUser | app/services/tenant_admin_service.py:343-376 | reuses the pending invitation or adds one for seven days |
| TenantAccess.Directory.RevokeTenantInvitation | app/services/tenant_admin_service.py:379-390 | revokes only what is pending |
| TenantAccess.Directory.UpdateAuthPolicy | app/services/tenant_admin_service.py:393-413 | the merged policy, or an error that changes nothing |
| TenantAccess.Directory.ResolveLoginIdentity | app/services/tenant_admin_service.py:496-594 | users, invitations, policy, audit and answer of a login |
| TenantOutcomes.CreateOutcome | app/services/tenant_admin_service.py:295-316 | a user is added exactly when the request is sound and the e-mail free, else nothing changes |
| TenantOutcomes.UpdateOutcome | app/services/tenant_admin_service.py:319-340 | an update sets what it names on the tenant's own user and on no other row; each refusal by its exact condition |
| TenantOutcomes.DisablingShutsOut | app/services/tenant_admin_service.py:514-519 | whoever is disabled is refused at the next login |
| TenantOutcomes.InviteOutcome | app/services/tenant_admin_service.py:343-376 | the row an invitation leaves, renewed in place or new for seven days; each refusal by its exact condition |
| TenantOutcomes.RevokeOutcome | app/services/tenant_admin_service.py:379-390 | only the tenant's own pending invitation is revoked |
| TenantOutcomes.InvitedNewcomersJoin | app/services/tenant_admin_service.py:534-566 | an invited newcomer who logs in in time joins with the role last offered |
| TenantOutcomes.RevokedNewcomersAreRefused | app/services/tenant_admin_service.py:568-577 | a revoked newcomer is refused unless the tenant is empty or provisions automatically |
| TenantOutcomes.PolicyOutcome | app/services/tenant_admin_service.py:393-413 | the policy saved, field by field, or which error |
| TenantOutcomes.SavedListsBar | app/services/tenant_admin_service.py:474-480 | once lists are saved a login is barred exactly when they hold an entry and none names its e-mail or the text after its first @ |
| TenantGuarantees.RunKeepsInv | app/services/tenant_admin_service.py:295-413 | over every run: one user per e-mail, at most one pending invitation per e-mail, a user behind each accepted invitation, no policy that provisions owners |
| TenantGuarantees.ReachableStatesAreSound | app/services/tenant_admin_service.py:295-413 | so they hold in every state reachable from empty tables |
| TenantGuarantees.SettledInvitationsAreFrozen | app/services/tenant_admin_service.py:379-390 | accepted, revoked and expired are terminal |
| TenantGuarantees.AnOwnerAlwaysRemains | app/services/tenant_admin_service.py:278-292 | once a tenant has an active owner it always has one |
| TenantGuarantees.LastOwnerIff | app/services/tenant_admin_service.py:289-292 | exactly when an update is refused for want of another active owner |
| TenantGuarantees.RenamingALoneDisabledOwnerFails | app/services/tenant_admin_service.py:289-292 | a concrete refused rename |
| TenantGuarantees.OwnersComeFrom | app/services/tenant_admin_service.py:534-583 | an owner was one before, was made one by an administrator, redeemed an owner's invitation or was the tenant's first user |
| TenantGuarantees.LoginAdmitsIff | app/services/tenant_admin_service.py:496-594 | a login is admitted if and only if the e-mail is an address, its provider enabled, it or its domain listed or nothing is, and a row or rule vouches for it |
| TenantGuarantees.RefusedLoginIff | app/services/tenant_admin_service.py:474-594 | each of the six reasons for a refusal by its exact condition |
| TenantGuarantees.RefusalsLeaveTheUsers | app/services/tenant_admin_service.py:483-550 | a refusal touches no user, and no invitation but the expired one |
| TenantGuarantees.ProvisioningIgnoresTheProvider | app/services/tenant_admin_service.py:508-511 | two login attempts by different enabled providers are answered alike and leave the same rows but for the provider |
| TenantGuarantees.AdmittedUser | app/services/tenant_admin_service.py:517-594 | the row of an admitted login: the known user updated, or a newcomer with the role of the one redeemed invitation, the policy or an owner; nothing else changes |
| TenantGuarantees.AuditIsTheAnswers | app/services/tenant_admin_service.py:416-438 | over every run the audit grows by exactly the logins' answers, in order |
| TenantGuarantees.ShadowedInvitationIsNeverAccepted | app/services/tenant_admin_service.py:516-534 | an invitation whose e-mail has a user is never accepted in any run |
| TenantGuarantees.InvitingADisabledUser | app/services/tenant_admin_service.py:354-356 | such an invitation is granted and the next login is still refused |
| TenantGuarantees.RetryAfterExpiry | app/services/tenant_admin_service.py:541-573 | after an expired invitation the retry succeeds if and only if the tenant is empty or provisions automatically |
| TenantGuarantees.ReinvitingKeepsTheOldDeadline | app/services/tenant_admin_service.py:358-376 | exactly when a newcomer's login after an invitation is too late |
| PolicyChecks.CheckContent | app/services/policy_service.py:36-46 | the violated rules, each once, then the length rule |
| PolicyChecks.MatchedIff | app/services/policy_service.py:39-43 | a rule is listed if and only if one of its phrases occurs |
| PolicyChecks.ContentIsCleanIff | app/services/policy_service.py:36-46 | a prompt passes if and only if it has at most 16000 characters and no blocked phrase occurs in it |
| PolicyChecks.CleanPromptsAre | app/services/policy_service.py:77-101 | what a clean prompt gets, from the rows of the named feature and its impact assessments alone |
| PolicyChecks.PolicyService.RunPolicyCheck | app/services/policy_service.py:51-139 | one row is logged with the decision returned; block and review by their exact conditions, with the rules named |
| UsageStats.CountFeatures | app/services/policy_service.py:158-161 | exact counts, keys in order of first use |
| UsageStats.CountDays | app/services/policy_service.py:168-174 | exact parts of each day, keys in order of first row |
| UsageStats.SortIsStable | app/services/policy_service.py:164-176 | the sort orders by key, keeps the order of equal keys, and keeps the elements |
| UsageReport.GetUsageStats | app/services/policy_service.py:142-187 | every figure is exact; at most ten features, none omitted that outranks a listed one; days strictly ascending, none missing |
| UsageReport.SelectedRows | app/services/policy_service.py:146-150 | the rows counted are the tenant's of the period, in the order of the log |
| UsageReport.FiguresAreCounts | app/services/policy_service.py:152-176 | every figure is the number of rows it stands for |
| UsageReport.TopIsTheRanking | app/services/policy_service.py:157-165 | the list is ordered by uses and then by first use, and what it leaves out is outranked by ten |
| UsageReport.ReportsAddUp | app/services/policy_service.py:152-176 | decisions add up to the total, each day to its parts, days to the total |
| UsageReport.DailyIsDetermined | app/services/policy_service.py:168-176 | the rows determine the daily breakdown |
| UsageReport.TopIsDetermined | app/services/policy_service.py:157-165 | the rows determine the ranking, ties included |

## Left out

- Concurrent increments: occurrence counts and usage meters are read-modify-write, so their conservation is stated for serial runs only.
- Row locks: an insert or update that would wait for another session is not enabled in `ReviewInterleaving` until it would go on.
- Order of UPDATEs: modelled for the versions of an approval, where the index sees it; elsewhere a flush is one step.
- Version rows: grouped under their feature rather than in one table, as every query filters by feature.
- Evidence columns: redacted texts, latency, token counts, hashes of request and response and the policy bundle of an event are not in the model's event; nothing modelled reads them.
- Findings of review tasks: reduced to a small map and the latest entry.
- UUIDs: event ids are numbers in the chain (the text order of a UUID is its numeric order); other minted ids are parameters assumed new.
- `.first()` without an order: an arbitrary matching row for Stripe's lookups, the first in row order elsewhere.
- Stripe: the set of tenants does not change during a run of deliveries; a period end too large for a date is not modelled.
- Library parsing: regular expressions, HTML, URLs, public-address checks, JSON and stripping or lower-casing of text are parameters or done before the model's inputs.
- SHA-256 and HMAC: arbitrary functions; collisions are excluded only where a lemma assumes injectivity.
- Times: whole numbers; a report's day is the number of days since the epoch in UTC, which orders as its ISO date does.
- Control details: article, title, severity, penalty exposure and review cycle of a seeded control are not modelled; nor is the check that the AI system exists, which conversion satisfies.
- Artifact bytes and object storage: only the stored summary and its row.
- Erasure: `purge_tenant` is raw SQL; without it rows are never deleted, so user and invitation ids are row positions.
- API keys, dashboard sessions, role permissions, action audit, rate limits, routing, reports, exports and the dashboard: plumbing, formatting or finite facts.
- FRIA status rules: any status may be set, so there is no workflow to prove.
- Risk levels from scanner classification, gap findings and suggested actions: expressions over static tables.
- Checkout and portal sessions of Stripe: calls into the provider's library.

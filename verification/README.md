# Verified model of the FinRisk study core

This project models the parts of the FinRisk repository that are hardest to get right and proves what they keep. It
covers four areas.

**The language-model study: batching, bisection and frozen replay** (`AgentBatches`, `AgentExecution`,
`AgentConservation`, `AgentReplay`, `FrozenReplay`, `RoundTrip`, `RoundTripTheorem`, `ManifestRoundTrip`,
`ObligingTransport`). Case packets are packed greedily under a count cap and a token budget, each batch is tried twice
and then bisected, and the raw log is later replayed without the model. The transport is an arbitrary function of the
call number and the request, so every theorem holds for every behaviour of the model server. The main result says when
replaying the log gives back the run's own predictions, as an if-and-only-if.

**The forward endpoint and its provenance** (`ForwardEndpoint`, `EndpointBuilder`, `EndpointReviewer`,
`EndpointOutcomes`, `AnnualCorpus`, `StandaloneFcf`, `Provenance`, `ProvenanceMigration`). A three-valued "at least two
of five" rule is implemented twice in the repository, by the label builder and by the reviewer. The rule is proved
exact over all resolutions of its unknowns, the builder's two passes are proved to label every observation once, and
the disagreement of the two implementations is characterised exactly. The recursive provenance validator is proved
equivalent to a flat condition, and its migration to keep validity.

**Protocols as step systems** (`WorkerProtocol`, `StudyCommands`, `StudySafety`, `StudyProgress`, `StudyCompletion`,
`StudyFinishing`, `StudyDriver`, `BodyReading`, `Admission`). The killable worker, the freeze-before-unlock study and the
two request boundaries are modelled as atomic steps between awaits, file writes or crashes, and the invariants hold for
every interleaving. The study carries the agent's manifest, predictions and log, so its replay check is the frozen replay
of the first area, and the states from which it can still be finished are characterised exactly.

**Exact arithmetic** (`Apportionment`, `StratifiedSampling`, `RankStatistics`, `HolmAdjustment`, `AveragePrecision`,
`Binning`). Largest-remainder sampling, mid-ranks and the area under the curve, Holm's step-down, tied average
precision and equal-count bins, over exact rationals.

`Ordering` (stable sorting, filters, strings), `Grouping` (insertion-ordered grouping) and `Wrappers` are shared.

Loops of the source are methods with invariants, proved against a function; objects updated in place are classes
(`Study`, `SecBulk`, `ErrorLog`, `Row`, `BoundedReceive`). What the source promises is then proved about those
functions.

## What the proofs found

- An attempt that fails the response schema still stores its response, and the replay parses every stored response: one
  such attempt makes the replay raise (`ManifestRoundTrip.StoredFailureBreaksReplay`).
- A run decides before rounding to ten places and the replay after it: accepted scores from 0.49999999995 up to, not
  including, 0.5 change their decision (`ManifestRoundTrip.CrossingScoreChangesReplay`,
  `RoundTripTheorem.RoundingCrosses`). These two are the only ways replay can fail to undo logging.
- The outcome corpus keeps one filing per company and fiscal year, but tells years apart by their text and records them
  as numbers: "2024" and "02024" give two (`AnnualCorpus.CorpusUniqueness`), and then builder and reviewer can disagree.
- A study can be lost for good, and exactly these states are lost (`StudyFinishing.FinishesUnlessDoomed`): a file that the
  stage's advancing command still has to write exists already, because of a crash between a frozen write and the stage
  change; the agent's manifest is frozen but not all of the predictions, the raw log, the repeated runs and the
  single-case runs that later commands read, since `run-agent` can never be repeated and `freeze-predictions` checks only
  the first two; the agent has not begun and one packet of its rows is over the token budget; or the frozen log holds a
  stored schema failure or a score in the rounding band. In the last case everything goes on up to REPRODUCED, where
  `verify-agent-replay` raises for ever and `render` misses its file.
- The driver `all` never reaches the last stage by itself: none of its commands verifies the agent's replay, which
  rendering reads (`StudyDriver.CommandAll`).
- The docstring of the standalone cash flow calls ambiguous sequences unavailable. The code's value is one quarter's own
  if and only if no quarter was skipped (`StandaloneFcf.SingleQuarterIffNoGap`), the free cash flow if and only if neither
  field skipped one (`StandaloneFcf.FreeCashFlowIffNoGaps`); after gaps in different places it subtracts one quarter of
  capital expenditure from two quarters of cash flow (`StandaloneFcf.MixedSpan`). A half-year or nine-month period
  reported twice yields 0 the second time (`StandaloneFcf.RepeatedPeriodYieldsZero`).

## Model

| member | source | states |
|---|---|---|
| AgentBatches.BatchIdInjective | backend/finrisk/e4_agent.py:129-141 | batch ids of a manifest never collide: equal ids have the same representation and index |
| AgentBatches.FeasiblePart | backend/finrisk/e4_agent.py:108-113 | the token estimate is monotone: every contiguous part of a batch within both limits is within both limits |
| AgentBatches.GreedyStaysAhead | backend/finrisk/e4_agent.py:116-128 | a greedy packing of a tail of what any feasible grouping covers needs no more groups than that grouping |
| AgentBatches.PackGroups | backend/finrisk/e4_agent.py:116-128 | the loop raises exactly when some single packet exceeds the budget; otherwise its groups concatenate to the packets, each is feasible and none could have taken its successor's first packet |
| AgentBatches.MakeBatches | backend/finrisk/e4_agent.py:116-141 | the batches are those of the sorted packets and no cut into feasible contiguous batches uses fewer; the only error is a packet over the budget |
| AgentBatches.BuildManifest | backend/finrisk/e4_agent.py:144-161 | the manifest holds the batches of all three representations, and fails exactly when one of them fails, naming it |
| AgentBatches.ManifestIffPackable | backend/finrisk/e4_agent.py:116-161 | some manifest exists if and only if every packet of every representation fits the budget alone |
| AgentExecution.ExecuteBatch | backend/finrisk/e4_agent.py:252-307 | two tries, then bisection: terminates for every transport with the recursive result, failures and raw log |
| AgentConservation.ParsedIds | backend/finrisk/e4_agent.py:205-235 | a response is accepted only if it names exactly the expected ids, each once, with scores in [0,1] |
| AgentConservation.ParseAgain | backend/finrisk/e4_agent.py:374-385 | parsing a stored response against the ids it lists itself accepts the same cases as the run did |
| AgentConservation.Conservation | backend/finrisk/e4_agent.py:252-307 | returned cases plus failures carry every input case id exactly once, and the cases are those of the accepted log records, in order |
| AgentConservation.CallBound | backend/finrisk/e4_agent.py:252-307 | at least one and at most 4n-2 transport calls for n cases, one log record per call |
| AgentConservation.CallBoundIsTight | backend/finrisk/e4_agent.py:252-307 | a transport that always fails makes exactly 4n-2 calls |
| AgentConservation.RaisesOnlyOnAbort | backend/finrisk/e4_agent.py:252-307 | a batch raises only if one of its own calls met the context budget error or an exception that is not caught |
| AgentConservation.FailsOnlyAlone | backend/finrisk/e4_agent.py:287-307 | a case is reported as failed only after the batch holding nothing else failed twice |
| AgentReplay.RunAgent | backend/finrisk/e4_agent.py:310-356 | the run over a manifest: predictions sorted, decided before rounding, and the raw log, for every transport; an abort of the transport and the missing row of a case id end it with the exception |
| FrozenReplay.ReplayFrozenAgent | backend/finrisk/e4_agent.py:359-429 | the replay of a log: every error branch, an unknown case id among them, and the recovered predictions |
| FrozenReplay.ReplayRecords | backend/finrisk/e4_agent.py:374-392 | one run's records: every stored response parsed, duplicates refused |
| FrozenReplay.ReplayCases | backend/finrisk/e4_agent.py:386-392 | the cases of one response enter the recovered table once each |
| RoundTrip.SettledKeys | backend/finrisk/e4_agent.py:310-356 | answers and failures of a settled batch have exactly the batch's keys |
| RoundTrip.AddsRuns | backend/finrisk/e4_agent.py:374-392 | without stored failures the replay recovers every answer of the run, in log order |
| RoundTrip.RecoverStored | backend/finrisk/e4_agent.py:374-400 | one stored schema failure makes the replay raise, by counting distinct keys |
| RoundTripTheorem.RoundingCrosses | backend/finrisk/e4_agent.py:331-332 | deciding before and after rounding to ten places differs exactly in the band just below one half |
| RoundTripTheorem.ReplayUndoesLogging | backend/finrisk/e4_agent.py:310-429 | for every well-formed manifest and every transport under which the run completes, the replay returns the run's predictions if and only if no failed response was stored and no score lies in the band; it succeeds if and only if none was stored |
| ManifestRoundTrip.ManifestWellFormed | backend/finrisk/e4_agent.py:144-161 | manifests built from rows with distinct ids have what the replay theorem needs |
| ManifestRoundTrip.BuiltManifestReplays | backend/finrisk/e4_agent.py:144-429 | from feature rows through manifest, run and log to the replay: the same if-and-only-if |
| ManifestRoundTrip.StoredFailureBreaksReplay | backend/finrisk/e4_agent.py:278-286 | a concrete run whose retry succeeds and whose replay raises |
| ManifestRoundTrip.CrossingScoreChangesReplay | backend/finrisk/e4_agent.py:411-412 | a concrete score decided as 0 by the run and as 1 by the replay |
| ObligingTransport.SomeRunReplays | backend/finrisk/e4_agent.py:310-356 | every manifest of distinct rows has a transport under which the run completes and its log holds no stored failure and no score in the band |
| ForwardEndpoint.RuleIsExact | backend/finrisk/sec_bulk.py:663-677 | verified 1, verified 0 and review hold exactly when all, none, or some but not all resolutions of the unknown conditions reach two true ones |
| ForwardEndpoint.FillingSharpens | backend/finrisk/sec_bulk.py:616-662 | filling missing facts or cash flows only settles unknown conditions |
| EndpointBuilder.CollectReasons | backend/finrisk/sec_bulk.py:616-662 | the reason list grown condition by condition is the one its five statuses determine |
| EndpointBuilder.Assess | backend/finrisk/sec_bulk.py:616-684 | statuses read back from the collected reasons give the label of the rule |
| EndpointBuilder.CandidatesOfCompany | backend/finrisk/sec_bulk.py:600-610 | grouping by company and sorting by year keeps the next-year filings in their input order |
| EndpointBuilder.LabelForward | backend/finrisk/sec_bulk.py:606-684 | pass one labels an observation exactly if its earliest next-year filing is inside the window |
| EndpointBuilder.Explain | backend/finrisk/sec_bulk.py:686-718 | pass two gives the label without an outcome, from the company's filings available after the cutoff; `EndpointReviewer.CodesExplained` says what its reason means |
| EndpointBuilder.BuildDeteriorationLabels | backend/finrisk/sec_bulk.py:589-719 | both passes over all companies, sorted by observation id; without annual outcomes the observations are each other's |
| EndpointReviewer.ReviewPacket | scripts/review_numeric_labels_b.py:26-83 | the second implementation: window first, then the earliest filing |
| EndpointReviewer.ReviewerList | scripts/review_numeric_labels_b.py:29-38 | the reviewer's list is the builder's candidate list in time order, restricted to the window |
| EndpointReviewer.SameFuture | backend/finrisk/sec_bulk.py:607-615 | both select the same filing unless an earlier one outside the window shadows a later one inside |
| EndpointReviewer.AgreementIsExact | scripts/review_numeric_labels_b.py:26-83 | same label, status, conditions and reasons if and only if no shadowing; otherwise insufficient data against a review |
| EndpointReviewer.ImplementationsAgree | scripts/review_numeric_labels_b.py:26-83 | with at most one annual outcome per company and year the two implementations agree on every observation |
| EndpointReviewer.CodesExplained | backend/finrisk/sec_bulk.py:686-718 | no outcome in the window although one comes later or the data reach the window's end, no outcome while the data end before it, or an earlier filing shadowing one in the window: each reason code holds exactly then |
| EndpointReviewer.OtherMarksDisagreement | backend/finrisk/sec_bulk.py:686-718 | the builder's reason OTHER marks exactly the observations on which they disagree |
| EndpointOutcomes.OneLabelEach | backend/finrisk/sec_bulk.py:606-719 | for distinct ids the two passes give each observation exactly its label, sorted by id |
| EndpointOutcomes.OneLabelPerId | backend/finrisk/sec_bulk.py:606-719 | every observation id carries exactly one label |
| EndpointOutcomes.VerifiedLabelsAreFinal | backend/finrisk/sec_bulk.py:606-684 | filling any missing fact or cash flow never changes a verified label |
| EndpointOutcomes.LabelsPassGuards | backend/finrisk/e4_outcomes.py:37-56 | every label belongs to an observation and passes the window and binary guards |
| EndpointOutcomes.SecBulk.BuildOutcomes | backend/finrisk/e4_outcomes.py:14-60 | the swapped module mapping is restored on every exit, the guards never raise for distinct ids, and the status counts are those of the labels |
| EndpointOutcomes.CheckGuards | backend/finrisk/e4_outcomes.py:37-56 | the guard loop over the builder's labels finds nothing |
| EndpointOutcomes.CountStatuses | backend/finrisk/e4_outcomes.py:37-60 | the counter holds every occurring status with its number of labels |
| AnnualCorpus.BuildAnnualOutcomeCorpus | backend/finrisk/sec_bulk.py:363-458 | one annual outcome per planned key, from the filing made first, sorted by company and fiscal year |
| AnnualCorpus.CorpusUniqueness | backend/finrisk/sec_bulk.py:443-458 | at most one outcome per company and numeric year if and only if no year of a company has two spellings |
| AnnualCorpus.CorpusMakesThemAgree | backend/finrisk/sec_bulk.py:431-458 | on a corpus with one spelling per year builder and reviewer agree on every observation |
| AnnualCorpus.TwoSpellingsDisagree | backend/finrisk/sec_bulk.py:443-458 | two spellings of one year make them disagree |
| StandaloneFcf.ConvertYear | backend/finrisk/sec_bulk.py:528-554 | the loop over one issuer-year with the previous year-to-date value per field |
| StandaloneFcf.BuildPeriods | backend/finrisk/sec_bulk.py:509-556 | grouping, conversion and the final order |
| StandaloneFcf.EachRecordOnce | backend/finrisk/sec_bulk.py:520-556 | every record with a fiscal year appears exactly once in the output, and no other |
| StandaloneFcf.IssuerYearInjective | backend/finrisk/sec_bulk.py:521-526 | the grouping key separates the same issuer-years as the pair of the source |
| StandaloneFcf.Telescopes | backend/finrisk/sec_bulk.py:532-549 | after a known year-to-date value, standalone values of any stretch add up to the growth of the year-to-date value |
| StandaloneFcf.SumsToYearToDate | backend/finrisk/sec_bulk.py:532-549 | with the first quarter present they add up to the year-to-date value itself |
| StandaloneFcf.CoversSinceLast | backend/finrisk/sec_bulk.py:532-549 | a standalone value is the true flow since the last year-to-date fact, and is there exactly if there is one or it is a first quarter |
| StandaloneFcf.SingleQuarterIffNoGap | backend/finrisk/sec_bulk.py:512-549 | for a year of facts with increasing durations: the standalone value of a fact is its last quarter's own flow, in every course of the year that the facts are true of, if and only if no quarter was skipped since the last year-to-date fact |
| StandaloneFcf.FreeCashFlowIffNoGaps | backend/finrisk/sec_bulk.py:528-553 | the free cash flow of a row is the last quarter's cash flow less its capital expenditure, in every course of the year, if and only if neither field skipped a quarter |
| StandaloneFcf.CommonSpanIffSameStart | backend/finrisk/sec_bulk.py:528-553 | whatever the amounts, the free cash flow of a row is the net flow of one common span if and only if both fields were last reported at the same quarter |
| StandaloneFcf.MixedSpan | backend/finrisk/sec_bulk.py:528-553 | with the second-quarter cash flow missing, the third row gives 20 - 1 = 19 where every quarter's own is 10 - 1 |
| StandaloneFcf.RepeatedPeriodYieldsZero | backend/finrisk/sec_bulk.py:532-549 | any year-to-date fact repeated without another in between yields its value again for a first quarter and 0 for a longer period |
| StandaloneFcf.RepeatedFilingHasNoFlow | backend/finrisk/sec_bulk.py:528-553 | the free cash flow of a filing that repeats both longer values of the one before is 0 |
| Provenance.ErrorLog.Append | backend/finrisk/empirical_validation.py:172-185 | the shared error list only grows |
| Provenance.FactProvenanceValid | backend/finrisk/empirical_validation.py:159-256 | the recursion, terminating on every parent graph, appends its errors to the shared list and returns its verdict |
| Provenance.ParentsValid | backend/finrisk/empirical_validation.py:195-209 | the parents are validated in order up to the first that fails |
| Provenance.FinishDerived | backend/finrisk/empirical_validation.py:210-227 | supported derivation and value within tolerance |
| Provenance.DirectFactValid | backend/finrisk/empirical_validation.py:228-256 | required fields and the five checks of a direct fact |
| Provenance.ValidIffSilent | backend/finrisk/empirical_validation.py:159-256 | the validator returns true exactly when it appended no error |
| Provenance.AcceptedExactly | backend/finrisk/empirical_validation.py:159-256 | over any parent graph exactly these facts are accepted: direct, consolidated USD rows of the expected accession and period with nothing missing, and total debt derived by a supported formula from two such rows and equal to their sum within tolerance |
| ProvenanceMigration.Row.Withdraw | backend/finrisk/empirical_validation.py:88-97 | a withdrawn field leaves facts and provenance and is listed with its missing parents |
| ProvenanceMigration.VisitRow | backend/finrisk/empirical_validation.py:64-104 | the loop over a row's fields, in whatever order |
| ProvenanceMigration.Migrate | backend/finrisk/empirical_validation.py:60-107 | fresh copies with the migrated contents and one audit entry per withdrawal; no row passed in changes |
| ProvenanceMigration.OnlyBrokenDebtGoes | backend/finrisk/empirical_validation.py:67-97 | every fact and provenance entry but a broken total debt stays as it was |
| ProvenanceMigration.ParentsAreThere | backend/finrisk/empirical_validation.py:79-87 | a total debt still derived after the migration has both parents with provenance |
| ProvenanceMigration.Idempotent | backend/finrisk/empirical_validation.py:60-107 | migrating again changes nothing and reports nothing |
| ProvenanceMigration.MigrationKeepsValidity | backend/finrisk/empirical_validation.py:60-107 | the validator accepts exactly the same fields before and after the migration |
| WorkerProtocol.EveryRunIsSafe | backend/finrisk/process_isolation.py:75-144 | in every interleaving of polls, child writes, child death, deadline and repeated cancellation: only completely published results are loaded, "exited without a result" is never said of a child that published, and the function is left with the child dead and its directory gone, re-raising a cancellation from clean-up, or with the "could not be reclaimed" error after a kill |
| WorkerProtocol.StepKeepsInv | backend/finrisk/process_isolation.py:34-144 | every atomic step of parent, clean-up or child keeps the invariant |
| WorkerProtocol.RunsKeepInv | backend/finrisk/process_isolation.py:34-144 | so does every run |
| WorkerProtocol.ReclaimsInBoundedSteps | backend/finrisk/process_isolation.py:60-144 | after the deadline at most 21 further steps of parent and clean-up, whatever the child and the callers do |
| WorkerProtocol.RunsNeverStick | backend/finrisk/process_isolation.py:98-144 | until it is left, parent or clean-up can always move |
| StudyCommands.Study.WriteFrozen | backend/finrisk/e4_core.py:108-117 | a frozen file is written once or refused, and nothing else changes |
| StudyCommands.Study.AdvanceStage | backend/finrisk/e4_core.py:134-148 | the stage moves by one from the expected stage, or nothing changes |
| StudyCommands.Study.RunScript | scripts/run_e4.py:85-413 | a command on the stored state: stage check, isolation, reads, the replay check, frozen writes and advance, with a crash anywhere |
| StudyCommands.Study.RunCommand | scripts/run_e4.py:85-413 | each of the commands as such a script; `verify-agent-replay` raises exactly when the frozen log does not rebuild the frozen predictions |
| StudySafety.ScriptWrites | scripts/run_e4.py:85-413 | every artifact has one writing command, at one stage |
| StudySafety.AdvancersCover | scripts/run_e4.py:85-413 | an advancing command reads or writes everything due at its stage |
| StudySafety.InvokeKeepsInv | scripts/run_e4.py:75-413 | one invocation, crashing anywhere, keeps the invariant and raises the stage by at most one |
| StudySafety.RunsKeepInv | scripts/run_e4.py:75-413 | every run keeps the invariant, never lowers the stage and never changes a frozen file |
| StudySafety.PredictionsPrecedeOutcomes | scripts/run_e4.py:75-82 | on every run the history is the contiguous chain from INIT, and every prediction artifact was written while outcomes were not visible and before outcomes.json existed |
| StudySafety.FrozenFilesStay | backend/finrisk/e4_core.py:108-117 | a frozen file has the same contents after every further run |
| StudyProgress.CloggedForever | scripts/run_e4.py:195-380 | once a file that the advancing command has to write exists, no run of commands leaves the stage |
| StudyProgress.CrashAfterFirstWriteIsFinal | scripts/run_e4.py:195-205 | a crash right after the cohort is frozen leaves the study at its stage for ever |
| StudyCompletion.RunsKeepGood | scripts/run_e4.py:207-413 | every run keeps the order of the agent's files, the origin of predictions and log in one agent run over the frozen manifest, and a verification only over a log that replays |
| StudyCompletion.ReplaysIffSteady | scripts/run_e4.py:387-404 | `verify-agent-replay` passes if and only if the frozen log holds no stored schema failure and no score in the rounding band |
| StudyCompletion.DoomedForever | scripts/run_e4.py:195-413 | from a lost state no run of commands, with crashes anywhere, reaches the last stage |
| StudyFinishing.FinishesUnlessDoomed | scripts/run_e4.py:85-413 | from every reachable state some continuation reaches README_RENDERED if and only if the state is not lost: no clogged file, no half-written agent group, no packet over the budget before the agent began, no log that does not replay |
| StudyFinishing.NewStudyCanFinish | scripts/run_e4.py:85-413 | some run of commands takes a new study to README_RENDERED |
| StudyFinishing.NextStage | scripts/run_e4.py:85-413 | from every state short of the last that is not lost, the next stage can be reached without losing the study |
| StudyDriver.PerformPredictions | scripts/run_e4.py:436-442 | the prediction stage of the driver raises the stage by one if it completes |
| StudyDriver.CommandAll | scripts/run_e4.py:415-458 | whatever changes around it between its commands, the driver is itself a run of commands, terminates, stops without error only at a phase boundary it saw or at the end, and ends with the last stage only if it began there or the replay had been verified before |
| BodyReading.ReadBody | backend/finrisk/request_boundary.py:49-67 | the receive loop over a message stream |
| BodyReading.CompleteBodies | backend/finrisk/request_boundary.py:53-67 | a complete body is handed over as the concatenation of its chunks if that fits the limit and refused with 413 if not, whatever follows |
| BodyReading.OnlyWholeBodies | backend/finrisk/request_boundary.py:53-67 | a body is handed over only after a complete prefix that fits, as exactly its chunks |
| BodyReading.DisconnectEndsReading | backend/finrisk/request_boundary.py:55-57 | a disconnect before the end leaves no body |
| BodyReading.BoundedReceive.Receive | backend/finrisk/request_boundary.py:69-77 | the body once, then the connection's own messages: the messages `Admission` hands to the application |
| Admission.StepKeepsInv | backend/finrisk/upload_boundary.py:33-103 | every step of every request keeps the invariant of the boundary |
| Admission.RunsKeepInv | backend/finrisk/upload_boundary.py:33-103 | so does every interleaving of any number of requests |
| Admission.SlotsNeverLeak | backend/finrisk/request_boundary.py:44-79 | free slots and holders make up the capacity, nobody is ever suspended on acquire, and all slots are free once all requests ended |
| Admission.SlotGivenBackOnce | backend/finrisk/request_boundary.py:47-79 | a slot is taken at most once and given back exactly once, on whichever exit |
| Admission.BodiesAreExact | backend/finrisk/request_boundary.py:29-78 | whatever Content-Length (section 8.6 of RFC 9110) declares, the buffer stays within the limit and the application is called only with the exact concatenation of a complete body, received once and first |
| Admission.UploadsAuthenticateFirst | backend/finrisk/upload_boundary.py:33-103 | no byte of an upload is read and no slot taken before authentication succeeded; the principal is set while the application runs and gone afterwards |
| Admission.TurnedAwayExactlyWhenFull | backend/finrisk/upload_boundary.py:52-56 | a request asking for a slot is turned away with 503 exactly when all slots are held, and otherwise holds one |
| Admission.ReadsLikeTheLoop | backend/finrisk/request_boundary.py:49-67 | interleaved reading of one request ends as the sequential loop does |
| Apportionment.QuotasSumUp | backend/finrisk/e4_core.py:425-430 | the quotas add up to the limit |
| Apportionment.QuotaBounds | backend/finrisk/e4_core.py:425-430 | each quota lies between floor and ceiling of its exact share and within the sector's size |
| Apportionment.SeatsGoToRemainders | backend/finrisk/e4_core.py:427-430 | the left-over seats are no more than the sectors, and each goes to a sector with a positive remainder |
| Apportionment.LargerGetsNoFewer | backend/finrisk/e4_core.py:425-430 | a strictly larger sector never gets fewer seats |
| StratifiedSampling.AssignQuotas | backend/finrisk/e4_core.py:425-430 | the quota table built in place |
| StratifiedSampling.StratifiedSample | backend/finrisk/e4_core.py:419-435 | the whole sampling |
| StratifiedSampling.SampleSize | backend/finrisk/e4_core.py:419-435 | exactly the limit is drawn when there are more rows, and everything otherwise |
| StratifiedSampling.SampleBySector | backend/finrisk/e4_core.py:431-434 | each sector gives exactly its quota, the first rows in digest order |
| StratifiedSampling.SampleIgnoresOrder | backend/finrisk/e4_core.py:419-435 | the sample does not depend on the input order when rows differ by CIK |
| StratifiedSampling.OrderFreeIffOneRowPerCik | backend/finrisk/e4_core.py:419-435 | when all rows are kept, no reordering of the input changes the sample if and only if no two different rows share a CIK |
| RankStatistics.Ranks | backend/finrisk/e4_evaluation.py:408-420 | every value gets the number of smaller values plus half of one more than the number of equal ones |
| RankStatistics.MidRankIsWins | backend/finrisk/e4_evaluation.py:408-420 | a mid-rank is the value's wins against all values plus one half |
| RankStatistics.RanksSumUp | backend/finrisk/e4_evaluation.py:408-420 | the ranks add up to 1 + ... + n |
| RankStatistics.TriangularFormula | backend/finrisk/e4_evaluation.py:408-420 | which is n(n+1)/2 |
| RankStatistics.AucIsRankSum | backend/finrisk/evaluation.py:42-46 | the pair-counting area equals the positives' rank sum less P(P+1)/2, over P*N |
| RankStatistics.WeightedAuc | backend/finrisk/e4_posthoc.py:201-214 | the weighted double loop |
| RankStatistics.EqualWeightsGiveRocAuc | backend/finrisk/e4_posthoc.py:201-214 | equal positive weights give the plain area |
| HolmAdjustment.HolmAdjust | backend/finrisk/e4_evaluation.py:202-211 | every test in its place with the adjusted value of its position |
| HolmAdjustment.AdjustmentBounds | backend/finrisk/e4_evaluation.py:202-211 | adjusted values are there exactly for tests with a p-value, between 0 and 1, and at least the p-value |
| HolmAdjustment.AdjustmentKeepsOrder | backend/finrisk/e4_evaluation.py:202-211 | they follow the order of the p-values and are equal on ties |
| HolmAdjustment.AdjustmentDecides | backend/finrisk/e4_evaluation.py:202-211 | for every level below 1 an adjusted value is at or under it if and only if Holm's step-down rejects that hypothesis |
| HolmAdjustment.CapHidesLevelOne | backend/finrisk/e4_evaluation.py:209-209 | at level 1 the cap makes them differ |
| AveragePrecision.Average | backend/finrisk/evaluation.py:48-72 | the grouped descending loop computes the mean, over the positives, of the precision at their own score |
| AveragePrecision.GroupScores | backend/finrisk/evaluation.py:58-62 | one entry per distinct score with its size and positives |
| AveragePrecision.OrderIndependent | backend/finrisk/evaluation.py:48-72 | the value does not depend on the order of the rows |
| AveragePrecision.RescalingInvariant | backend/finrisk/evaluation.py:48-72 | nor on a strictly increasing rescaling of the scores |
| AveragePrecision.ConstantScoresGivePrevalence | backend/finrisk/evaluation.py:52-57 | constant scores give the prevalence |
| AveragePrecision.PerfectIffSeparated | backend/finrisk/evaluation.py:48-72 | it is 1 if and only if every positive scores strictly above every negative |
| Binning.QuantileMembership | research/e4r_automated_robustness/e4r_analysis.py:86-99 | every identifier gets the label of its bin |
| Binning.BinIsStretch | research/e4r_automated_robustness/e4r_analysis.py:97-98 | a bin is a contiguous stretch of positions, and the cap on the last bin never acts |
| Binning.BinsAreEven | research/e4r_automated_robustness/e4r_analysis.py:86-99 | every bin holds floor(n/L) or ceil(n/L) of the n identifiers |
| Binning.BinsFollowValues | research/e4r_automated_robustness/e4r_analysis.py:115-121 | a larger value never lands in an earlier bin |

## Left out

- Network, archives, PDF and prompt text, the frontend and the HTTP routing: input and output. A transport, a digest and
  an authentication are parameters.
- Hashes are functions without further properties; digests of packets are kept as symbols, so no theorem depends on
  their values. The batch size estimate uses the lengths of the serialised packets as given numbers.
- The run's `latency_ms` and `response_hash` are not kept in the log model; the replay does not read them.
- Floating point: scores and facts are exact reals, exact shares of the sampling are integer fractions; only the
  rounding to ten places is modelled. NaN case ids and scores do not occur.
- Timestamps are texts together with the instant they denote; how `datetime` parses them is not modelled.
- The fact selection of `build_numeric_corpus`, `readiness_report`, `severity.py`, `rules.py` and the other threshold
  tables: easier members.
- `paired_rows`, `spearman`, bootstrap, permutation tests, calibration and logistic fits.
- StudyCommands.Study.RunCommand: of what the commands compute, the agent's manifest, predictions and log and their replay
  are modelled; every other computation is assumed to succeed with some value, such as the evaluation's summary over
  missing status counts or the parsing of a file's contents. Replayed and frozen predictions are compared themselves, not
  by their hashes. Text files that are not frozen and the feature cache are not tracked.
- StudyCommands.Study.RunScript: as for RunCommand.
- StudyFinishing.FinishesUnlessDoomed: the repeated and single-case runs of the agent are assumed to be able to complete,
  as the main run is proved to; feature rows carry distinct observation and company ids, as the cohort numbers them.
- The study's state file is replaced atomically in the model, as the source does by renaming.
- RankStatistics.WeightedAuc: lists of unequal length, for which the strict `zip` raises, are excluded.
- RankStatistics.AucIsRankSum: stated for labels 0 and 1 and one score per label; other labels are ignored by the area.
- HolmAdjustment.AdjustmentDecides: negative levels are excluded; adjusted values are never negative.
- HolmAdjustment.AdjustmentBounds: a value above 1 is no p-value; it would be capped below itself.
- Binning.QuantileMembership: an empty label list and an identifier without a value, for which the source raises, are
  excluded.
- Provenance.FactProvenanceValid: parents that cannot be hashed and facts that are not numbers make the source raise a
  type error and are excluded; stripping removes space, tab, newline and carriage return only.
- ProvenanceMigration.Migrate: rows own their dictionaries, as rows read from JSON do; sharing between rows, which a deep
  copy would preserve, is not modelled.
- StandaloneFcf.SingleQuarterIffNoGap: durations that do not increase within a year can pin a skipped quarter by chance;
  `StandaloneFcf.CoversSinceLast` gives the span for these too.
- StratifiedSampling.OrderFreeIffOneRowPerCik: when rows are dropped, rows that share a CIK may also drop out together, so
  that only one direction holds, `StratifiedSampling.SampleIgnoresOrder`.
- StandaloneFcf.BuildPeriods: the fact selection that finds value and duration of a field is a given.
- Admission.RunsKeepInv: bytes of a response already sent when a time-out strikes, and header duplicates, are not
  modelled; the fields of a request's scope other than method, path and the principal's entry do not matter.
- WorkerProtocol.EveryRunIsSafe: a child that cannot be killed is modelled, a failing directory removal is not.

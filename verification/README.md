# Verified model of the ReproAssert benchmark controllers

This project models the parts of ReproAssert that decide what a benchmark run may claim, and proves what
they guarantee:

- **The v0.2.1 irreversible spend protocol.** A campaign of N cases pays a provider at most once per case. It
  keeps an append-only, hash-chained ledger, write-ahead response and result files, and resumes after a crash
  at any point. `SpendLedger` is the ledger and its locked operations, `LedgerFacts` what every history of
  them keeps, `LedgerLaw` which ledgers verify and what each operation does, said of the events alone,
  `PublicInspector` the second, positional reader (`InspectorLaw` against that law), `LedgerFraming` the
  bytes. `RuntimeFacts` says what the runtime believes of the files it reads back. `Controller` is the
  controller's code with a crash possible before every durable effect; `Campaign` and `CampaignTheorems` say
  where such a run can stand and what it ends with. `Workers` drops the controller lock: any number of
  concurrent processes, any interleaving, crashes and lost files.
- **The v0.1 event ledger and its three readers.** `Trace` is the event language and the offline validator's
  rules as functions, `TraceRules` the same rules as the script's helpers write them, `TraceValidator` the
  validator's loop over them. `TraceLaw` is the law of the ledger, said of its events alone: `TraceIndex` and
  `TraceLawProof` show that the loop finds no error exactly on lawful ledgers. `TraceFacts`, `TraceGuarantees`
  and `TraceCalls` say what an error-free trace guarantees: what the rules of an opening, a reservation, a
  usage report or a cost come to over a whole ledger is in `ScoredCaseIsOneBoundedChain`,
  `CallsMatchTheFreeze`, `SummaryTokensAddUp` and `ModelCostIsUsageTimesPrice`. `TraceReducer` is the
  summary's own fold, `TraceAgreement` and `TraceTotals` compare the two, `TraceUsage` says what its remaining
  numbers are and `SummaryLaw` when it raises, `TraceMeasured` says when a campaign is fully measured and its
  cost gate evaluable, with ledgers in `MeasuredExamples`. `CallAdmission` says of the events when the online
  guard admits a call or its end, `CallRecorder` compares it with the validator; they part in two cases, each
  with a ledger: unblinded gold in `GoldCounterexample` and, in the smoke lane only, calls of another batch in
  `BatchCounterexample`.
- **Self-contained pieces.** `Binomial` and `ClopperPearson` (the exact interval), `IssueHistory` and
  `IssueRecord` (which issue revision was public before the fix), `NestingScanner`, `JsonPointer`,
  `SchemaChecker`, `SchemaKeywords` and `SchemaGraph` (the validator's JSON Schema subset, keyword by keyword,
  and its reference graphs), `CandidateReceipt` and `CandidateAcceptance` (classification, its recomputation
  and what an accepted candidate is).

Conventions: a SHA-256 digest is the record it was taken of, so hashing is injective by construction; money
is an integer number of micro-USD; a timestamp is an integer; an exception is an `Err`, `None` or `false`
result; a locked ledger operation is one step. Code that updates fields or dictionaries is a class or a
method with loops, proved against a function of the old state, and the laws are lemmas about that function. Every
lemma switches automatic induction off, so each induction is the recursive call in its body.

## What the proofs found

- **Append and verify disagree about the clock.** `_append_locked` never compares the new timestamp with the
  last one; the next verification does. An append leaves a verifying ledger exactly when the clock did not
  run backwards (`LedgerFacts.AppendVerifiesIffClockMonotone`). A reservation granted under a backwards clock
  strands its ledger for good: the response it pays for can never be recorded
  (`LedgerFacts.BackwardsReservationStrandsTheLedger`, with a ledger in `BackwardsReservationExample`).
- **The guard looks neither for unblinded gold nor at other batches.** An admitted model call adds exactly
  one validator error when its attempt's gold is already unblinded. Before that it adds none exactly when every
  call of another batch is settled, has another id and belongs to another case
  (`CallRecorder.AdmittedCallIsFaultlessIffQuiet`). An error-free scored ledger has one batch, so there gold is
  the only exception (`AdmittedCallIsFaultlessIffBlind`); a smoke ledger may have several. Both exceptions are
  reachable: `GoldCounterexample.AdmittedAfterGold` and `BatchCounterexample.AdmittedBesideOpenCall`. For the
  end of a call gold is the only exception in either lane (`AdmittedFinishIsFaultlessIffBlind`).
- **A model cost without a call is always an error**, although the last branch of the same rule means to
  allow a verified zero (`TraceGuarantees.ModelCostWithoutCallIsAlwaysAFault`). So a campaign is "fully
  measured" exactly when every attempt made a settled call of its own and has the other scored costs, all
  exact (`TraceMeasured.FullyMeasuredExactly`), and the cost gate is evaluable only then
  (`TraceMeasured.CostGateExactly`). Since a case may make one call, a campaign with a retried case never is,
  and its cost gate can never be evaluated (`TraceMeasured.RetriedCaseIsNeverFullyMeasured`). Both sides are
  reachable: `MeasuredExamples.RetriedLedger` and `MeasuredExamples.MeasuredLedgerExample`.
- **Two families of candidate receipts do not recompute**: an infrastructure marker without a limit being
  hit, and an otherwise verified candidate with an unattributable fixed pass
  (`CandidateReceipt.RecomputationAgreesExactly`, with `MarkedPassExample` and `UnattributablePassExample`).

## Model

| member | source | states |
|---|---|---|
| SpendLedger.LedgerFile.constructor | src/reproassert/benchmark_v021_ledger.py:95-130 | a claim is the only event, and it verifies exactly when it does not predate the authorization |
| SpendLedger.LedgerFile.VerifyFile | src/reproassert/benchmark_v021_ledger.py:133-187 | the verification loop computes the recursive verdict: first fault, claim check, then the derived states |
| SpendLedger.LedgerFile.DeriveStates | src/reproassert/benchmark_v021_ledger.py:523-576 | the state table and total computed event by event |
| SpendLedger.LedgerFile.Append | src/reproassert/benchmark_v021_ledger.py:633-688 | exactly one linked event is added at the end |
| SpendLedger.LedgerFile.Reserve | src/reproassert/benchmark_v021_ledger.py:362-396 | the new ledger and answer for every input, each rejection leaving the ledger as it was |
| SpendLedger.LedgerFile.Recover | src/reproassert/benchmark_v021_ledger.py:399-436 | a token is reissued only for the same request and call, with a durable response |
| SpendLedger.LedgerFile.RecordResponse | src/reproassert/benchmark_v021_ledger.py:439-480 | for a reserved or a recovered token: the response event, or the idempotent answer, or a rejection without effect |
| SpendLedger.LedgerFile.RecordResult | src/reproassert/benchmark_v021_ledger.py:483-520 | the completion event, or the idempotent answer, or a rejection without effect |
| LedgerFacts.ChainOkIff | src/reproassert/benchmark_v021_ledger.py:147-182 | no chain fault exactly when every event is linked, bound and in order |
| LedgerFacts.HeadDigestFixesHistory | src/reproassert/benchmark_v021_ledger.py:147-187 | two verifying ledgers with the same head digest are equal event for event, and so are their bindings and claims |
| LedgerFacts.AppendVerifiesIffClockMonotone | src/reproassert/benchmark_v021_ledger.py:633-657 | an appended ledger verifies, to the applied state, exactly when the clock did not run backwards |
| LedgerFacts.BackwardsReservationStrandsTheLedger | src/reproassert/benchmark_v021_ledger.py:362-480 | after a reservation granted under a backwards clock no operation has any effect: its response is refused, its recovery too, whatever is tried and whenever |
| LedgerFacts.BackwardsReservationExample | src/reproassert/benchmark_v021_ledger.py:633-657 | a concrete ledger on which that reservation is granted |
| LedgerFacts.TotalCapNeverRejectsAResponse | src/reproassert/benchmark_v021_ledger.py:450-464 | the total-cap rejection can never fire, in recording or in any later verification |
| LedgerFacts.ResponseIsAppended | src/reproassert/benchmark_v021_ledger.py:439-480 | a matching response within the case cap is always appended |
| LedgerFacts.ReservationRecordsItsResponse | src/reproassert/benchmark_v021_ledger.py:362-480 | the token a reservation returns, which has no durable response, records whatever response its call brings within the case cap, unless the clock runs backwards |
| LedgerFacts.RecoveredTokenRecordsOnlyItsResponse | src/reproassert/benchmark_v021_ledger.py:399-480 | a recovered token serves its own durable response only: any other is refused without effect, the same one is on record or becomes the case's response |
| LedgerFacts.RecoveryNeedsAResponse | src/reproassert/benchmark_v021_ledger.py:399-436 | without a durable response a token is reissued exactly for a case whose ledger already holds its response, with that request and call; unknown spend is never recovered |
| LedgerFacts.RecoveredTokenIsDurable | src/reproassert/benchmark_v021_ledger.py:399-436 | every recovered token is for the case's own reservation and carries a durable response, the ledger's own once one is recorded |
| LedgerFacts.RecoveryWithItsResponse | src/reproassert/benchmark_v021_ledger.py:399-436 | with a durable response, recovery fails exactly for its shape or for another case, request, call or response |
| LedgerFacts.DeriveConserves | src/reproassert/benchmark_v021_ledger.py:554-566 | the total is the sum of the case costs, and total + case cap * unpriced cases stays within the total cap |
| LedgerFacts.EveryHistoryIsSound | src/reproassert/benchmark_v021_ledger.py:362-520 | after any operations by anybody with any clocks: linked, derivable, conserved, at most one open reservation |
| LedgerFacts.ReservationsAreIrreversible | src/reproassert/benchmark_v021_ledger.py:376-395 | ledgers only grow and no case state ever moves back or changes its reservation, response, cost or result |
| LedgerLaw.VerifiesIffLawful | src/reproassert/benchmark_v021_ledger.py:133-187 | any ledger verifies exactly when it is a chain that begins with its claim and each later event is lawful after those before it; each case is then in the state its own events made, and the total is what all responses cost |
| LedgerLaw.DeriveIff | src/reproassert/benchmark_v021_ledger.py:523-576 | the fold takes exactly the lawful events: one reservation for a case, one response matching it within both caps, one completion naming that response |
| LedgerLaw.ReservationIsGrantedExactly | src/reproassert/benchmark_v021_ledger.py:362-396 | granted exactly for a case of the cohort never reserved before, with its frozen request, while every reserved case has its response; with anything open the answer is the halt |
| LedgerLaw.ResponseIsRecordedExactly | src/reproassert/benchmark_v021_ledger.py:439-480 | appended exactly for a held reservation without a response, within the caps and as the token says; the same response and cost again is accepted without effect, anything else refused without effect |
| LedgerLaw.ResultIsRecordedExactly | src/reproassert/benchmark_v021_ledger.py:483-520 | appended exactly for a held reservation with that response and no result; the same result again is accepted without effect, anything else refused without effect |
| Transcripts.TranscriptDerives | src/reproassert/benchmark_v021_ledger.py:523-576 | a claim, k whole triples in cohort order and part of the next derive to the states the length dictates |
| Transcripts.CompleteTranscript | src/reproassert/benchmark_v021_ledger.py:523-576 | the complete one derives to all cases completed at the summed cost |
| PublicInspector.Inspect | src/reproassert/benchmark_v021_ledger.py:231-334 | accepts exactly the whole, chained, ordered ledgers; reports their sum, least and largest cost |
| PublicInspector.AcceptedLedgersDeriveComplete | src/reproassert/benchmark_v021_ledger.py:231-334 | what the inspector accepts, the other reader derives to all completed with the same total; it verifies exactly when the claim does not predate the authorization |
| PublicInspector.CompleteTranscriptsAreAccepted | src/reproassert/benchmark_v021_ledger.py:231-334 | every verified complete transcript is accepted, with the same entries |
| InspectorLaw.InspectorIsTheLaw | src/reproassert/benchmark_v021_ledger.py:231-334 | the inspector accepts exactly the ledgers with well-shaped digests and three events for each case in cohort order that the full verification accepts under the authorization their first event implies |
| LedgerFraming.Decode | src/reproassert/benchmark_v021_ledger.py:812-824 | decodes exactly the encodings of non-empty event lists and rejects every other text |
| LedgerFraming.FramingIsInjective | src/reproassert/benchmark_v021_ledger.py:812-824 | different event lists have different bytes |
| LedgerFraming.AppendExtendsBytes | src/reproassert/benchmark_v021_ledger.py:633-657 | an append only adds one line at the end |
| Controller.CampaignController.CallProviderOnce | src/reproassert/benchmark_v021_runtime.py:498-516 | one call, and an answer exactly if it has a response id of 1 to 500 characters, at most 1,000,000 characters of output and a cost within the cap |
| RuntimeFacts.ResponseLoadsExactly | src/reproassert/benchmark_v021_runtime.py:542-575 | a stored response loads exactly if it is the record of its own answer under this plan, for this case, at a cost within the cap |
| RuntimeFacts.ResultLoadsExactly | src/reproassert/benchmark_v021_runtime.py:625-658 | a stored result loads exactly if it has the ledger's digest and is a result of a durable response bound to this plan and case |
| RuntimeFacts.PortStateExactly | src/reproassert/benchmark_v021_runtime_ledger.py:28-47 | the port gives a state exactly when the ledger verifies and every reservation of the case in it is for the plan's request; the state tells what the case's events did |
| RuntimeFacts.HaltAllowedExactly | src/reproassert/benchmark_v021_runtime_ledger.py:96-106 | the halt is accepted exactly for a case the ledger holds a reservation of, for the plan's request and call, and no response |
| Controller.CampaignController.Halt | src/reproassert/benchmark_v021_runtime.py:601-622 | the unknown-spend result is written once and never over another; no event, no call |
| Controller.CampaignController.Generate | src/reproassert/benchmark_v021_runtime.py:444-471 | reservation, one call, then the response file; a failed or unusable answer ends in the halt |
| Controller.CampaignController.Finish | src/reproassert/benchmark_v021_runtime.py:472-495 | from a durable response file to the completion event, resuming at whatever step is missing |
| Controller.CampaignController.ExecuteCase | src/reproassert/benchmark_v021_runtime.py:405-495 | one case from any crash point: finished cases are only read, unknown spend stays unknown, no second call; a done case returns the digests of its result and of its provider's response |
| Controller.CampaignController.WriteProgress | src/reproassert/benchmark_v021_campaign_controller.py:232-250 | the progress record is replaced whole, or the process dies and it is as it was |
| Controller.CampaignController.ExecuteAndReport | src/reproassert/benchmark_v021_campaign_controller.py:134-156 | one pass of the loop: the case is executed and its outcome added and reported, or the run stops in a halt or a crash, progress writes included |
| Controller.CampaignController.IssueBarrier | src/reproassert/benchmark_v021_campaign_controller.py:164-188 | for any outcomes: a barrier exactly when they are the cohort in order and all durable, else the error of the first of the two checks that fails |
| Controller.CampaignController.Run | src/reproassert/benchmark_v021_campaign_controller.py:111-161 | never rejects from a reachable world; every crash, before any durable effect or progress write, is logged with the world it leaves; a rerun of a complete campaign calls nobody and appends nothing; unknown spend halts for good; a complete run leaves the progress record complete with all results and the barrier digest, a halt leaves it halted with the finished cases, then the halted one, and no barrier |
| CampaignTheorems.CampaignBegins | src/reproassert/benchmark_v021_ledger.py:95-130 | a fresh claim and empty directories are where every campaign starts |
| CampaignTheorems.RunThroughCrashes | src/reproassert/benchmark_v021_campaign_controller.py:134-158 | cut by any crashes and restarted, a campaign ends in a halt exactly when the provider fails a case, spend was lost at the start, or a logged crash fell between a reservation and its response file; otherwise complete with the barrier of its provider; the progress record says which, with the results |
| CampaignTheorems.FinalOutcome | src/reproassert/benchmark_v021_runtime.py:472-495 | after completion every case is settled with the provider's own response, cost and result |
| CampaignTheorems.CompletedCampaignsAgree | src/reproassert/benchmark_v021_campaign_controller.py:134-158 | any two completed runs with one provider agree on files, calls (each case once), total and every case outcome |
| CampaignTheorems.EventsAreBackedByFiles | src/reproassert/benchmark_v021_runtime.py:465-492 | in every reachable world a response event has its file with that digest and cost, a completion event its result file |
| CampaignTheorems.BarrierIsSound | src/reproassert/benchmark_v021_campaign_controller.py:164-188 | an issued barrier means a complete ledger, and repeats its result digests, which are those of the files |
| CampaignTheorems.FinishedCampaignIsPublishable | src/reproassert/benchmark_v021_ledger.py:231-334 | the ledger of a finished campaign passes the public inspector at the same total |
| Workers.AvailableIffUnreserved | src/reproassert/benchmark_v021_ledger.py:376-395 | a case is available exactly as long as no reservation of it is in the ledger |
| Workers.ProviderIsCalledAtMostOncePerCase | src/reproassert/benchmark_v021_runtime.py:444-469 | any workers, interleaving, crashes, clocks and lost files: each case is called at most once, after its reservation |
| Workers.EventsFollowTheirFiles | src/reproassert/benchmark_v021_runtime.py:465-492 | without lost files, every recorded response and result has its file, however many workers ran and crashed |
| TraceValidator.EventLedgerValidator.Validate | scripts/validate_benchmark.py:781-1111 | the loop computes the index and the errors of the fold; no error exactly when the ledger is accepted |
| TraceIndex.IndexIsItsEvents | scripts/validate_benchmark.py:805-1055 | the index of an error-free ledger knows exactly what its events said, no more and no less |
| TraceLawProof.FaultlessIffLawful | scripts/validate_benchmark.py:836-1055 | after an error-free ledger an event adds no error exactly when it is lawful: said of earlier events alone, without index or rule functions |
| TraceLawProof.CleanIffLawful | scripts/validate_benchmark.py:781-1055 | the loop finds no error exactly when every event is lawful after those before it |
| TraceLawProof.AcceptedIffLawful | scripts/validate_benchmark.py:781-1111 | a ledger is accepted exactly when every event is lawful and all scored amounts stay within the campaign cap its first attempt froze |
| TraceLawProof.EvidencePrecedesReview | scripts/validate_benchmark.py:1613-1659 | in an error-free ledger every review comes after a candidate of its attempt and after its succeeded candidate policy, collection, base, fixed and causal control phases, and before gold; a valid verdict meets the rubric |
| TraceLawProof.ReviewPrecedesGold | scripts/validate_benchmark.py:1662-1685 | gold comes after a semantic review phase of the attempt that succeeded |
| TraceValidator.EventLedgerValidator.ReadEvent | scripts/validate_benchmark.py:836-953 | one pass of the loop: new index and added errors, on every path that continues early |
| TraceValidator.EventLedgerValidator.StartAttempt | scripts/validate_benchmark.py:862-938 | the rules for opening an attempt, judged before and after it is registered |
| TraceValidator.EventLedgerValidator.StartCall | scripts/validate_benchmark.py:981-1004 | one error for each earlier call that is not settled, a new id, one call per case, the reservation rules |
| TraceValidator.EventLedgerValidator.RecordCost | scripts/validate_benchmark.py:1456-1579 | the cost rules in the order the script applies them, and the running case cost |
| TraceValidator.EventLedgerValidator.SubmitCandidate | scripts/validate_benchmark.py:1038-1045 | one candidate per attempt and per case |
| TraceValidator.EventLedgerValidator.FinishAttempt | scripts/validate_benchmark.py:1695-1775 | the finish rules and the counted finish of the case |
| TraceRules.OpeningErrors | scripts/validate_benchmark.py:867-889 | no attempt opens in a counted case, as a second primary or beside an open attempt |
| TraceRules.UnresolvedErrors | scripts/validate_benchmark.py:981-993 | the two loops report each earlier call of any attempt that is not settled, once |
| TraceRules.CandidateErrors | scripts/validate_benchmark.py:1582-1610 | every cited call succeeded in the same attempt |
| TraceRules.ReviewErrors | scripts/validate_benchmark.py:1613-1659 | candidate and evidence first, a new reviewer, at most two primaries, a tie-break only after disagreement |
| TraceRules.GoldErrors | scripts/validate_benchmark.py:1662-1685 | the review phase succeeded, two or three reviews, a majority, and the last review committed |
| TraceFacts.CleanPrefix | scripts/validate_benchmark.py:805-1055 | an error never goes away: every prefix of an error-free ledger is error-free, and so is each next event |
| TraceFacts.CleanRunOnlyGrows | scripts/validate_benchmark.py:805-1055 | nothing an error-free ledger has put into the index is ever taken back or replaced |
| TraceFacts.CleanRunReflects | scripts/validate_benchmark.py:805-1055 | every event of an error-free ledger is found again in the index, under its attempt and case |
| TraceFacts.CallHasEvent | scripts/validate_benchmark.py:994-996 | every call the index knows was started by an event of its owner |
| TraceGuarantees.OneOfEachPerCase | scripts/validate_benchmark.py:1038-1045 | over all attempts of a case: at most one candidate, one model call, one counted finish |
| TraceGuarantees.NothingFollowsGold | scripts/validate_benchmark.py:948-953 | after gold only the finish follows, after the finish nothing |
| TraceGuarantees.CleanRunHasOneFreeze | scripts/validate_benchmark.py:914-938 | all attempts of an error-free scored ledger share one batch and one freeze |
| TraceGuarantees.ScoredCaseIsOneBoundedChain | scripts/validate_benchmark.py:1163-1215 | one primary, then retries each linked to its immediate predecessor, every attempt but the last ended in an infrastructure error; retries and scored cost stay within the frozen caps |
| TraceGuarantees.MajorityDecides | scripts/validate_benchmark.py:1662-1685 | a committed majority among fair reviews is two agreeing primaries or a tie-break after two that disagree, and decides one verdict only |
| TraceGuarantees.CleanReviewsAreFair | scripts/validate_benchmark.py:1613-1659 | distinct reviewers, at most two primaries, a tie-break only after disagreement |
| TraceGuarantees.BlindReviewDecides | scripts/validate_benchmark.py:1753-1771 | an L1 or L2 finish follows gold, no review follows gold, and the outcome is the verdict the reviews before gold decide |
| TraceGuarantees.ModelCostWithoutCallIsAlwaysAFault | scripts/validate_benchmark.py:1503-1553 | a model cost that cites no call is an error in every state, verified zero or not |
| TraceCalls.RecordsAreUnique | scripts/validate_benchmark.py:994-1036 | call ids, call finishes, cost entries and model costs are unique in the whole ledger |
| TraceCalls.PhaseFollowsItsStart | scripts/validate_benchmark.py:955-977 | a finished phase has exactly one earlier start in its attempt, at the moment the finish repeats, and lasted as long as its timestamps say, to a second |
| TraceCalls.CallsNeverOverlap | scripts/validate_benchmark.py:981-993 | before any call starts, every earlier call of every case is finished and has a cost measured or verified zero |
| TraceCalls.ModelCostFollowsItsCall | scripts/validate_benchmark.py:1500-1535 | a model cost follows the start and the finish of its own attempt's call and fits the call's reservation |
| TraceCalls.ModelCostIsUsageTimesPrice | scripts/validate_benchmark.py:1472-1547 | a model cost priced by the million tokens is the reported total times the unit price, rounded half up |
| TraceCalls.CallsMatchTheFreeze | scripts/validate_benchmark.py:1218-1262 | every scored call is the frozen model, within both caps, and free and offline in a zero-cost campaign |
| TraceCalls.SpendStaysWithinCampaignCap | scripts/validate_benchmark.py:1066-1081 | all scored amounts of an accepted ledger stay within the frozen campaign cap, and are zero in a zero-cost campaign |
| TraceCalls.CandidateComesFromItsCall | scripts/validate_benchmark.py:1582-1610 | a scored candidate of a real provider comes from exactly one call, which succeeded in the same attempt before |
| TraceReducer.AttemptIndex | scripts/summarize_benchmark.py:213-283 | the summary's index or its first exception, event by event |
| TraceReducer.FinishedAttempts | scripts/summarize_benchmark.py:300-322 | the counted finish of each case and the two counters, or the exception for two |
| TraceReducer.CostProjection | scripts/summarize_benchmark.py:609-727 | every total, counter and call set of the projection, its usage totals, the fully-measured verdict, the two ratios and the cost gate with its reasons, or the exception for a missing amount |
| TraceAgreement.SummaryReadsAcceptedLedgers | scripts/summarize_benchmark.py:213-283 | on every error-free ledger the summary's fold never raises, and its index is the validator's |
| TraceAgreement.SummaryCountsTheSameFinishes | scripts/summarize_benchmark.py:300-322 | both folds pick the same counted finish for every case, and every finish the summary counts is such a one or an infrastructure error |
| TraceTotals.SummaryTotalsTheSameSpend | scripts/summarize_benchmark.py:633-660 | the projection never raises; each of its totals, by category, by attribution and overall, is the sum of those amounts over the events, each counter by status and overall their number, and the attributable total the sum of the validator's per-case costs |
| TraceTotals.ProjectionBalances | scripts/summarize_benchmark.py:633-660 | on any index it can read, the recorded total is the sum over the categories and the sum over the attributions, and every entry has one status |
| TraceTotals.SummaryTokensAddUp | scripts/summarize_benchmark.py:665-674 | on an error-free ledger total tokens are input plus output, cached at most input, and each finished call is counted once |
| TraceUsage.UsageExactly | scripts/summarize_benchmark.py:609-727 | on an error-free ledger each of the four token totals is the sum of what the finished calls report, each usage counter their number, and the unknown ones are the calls left open and those that finished without saying |
| TraceUsage.MissingExactly | scripts/summarize_benchmark.py:609-660 | the attempts reported as lacking costs are those without a scored cost in one of the four categories, in starting order |
| TraceUsage.CountersExactly | scripts/summarize_benchmark.py:300-322 | both finish counters of an error-free scored ledger count its finish events |
| SummaryLaw.IndexRaisesExactly | scripts/summarize_benchmark.py:213-283 | on any ledger the index raises exactly at the first event that cannot follow those before it, and otherwise knows exactly what they said |
| SummaryLaw.FinishesRaiseExactly | scripts/summarize_benchmark.py:300-322 | counting raises exactly when two attempts have a counted finish for one case, and otherwise the counted finishes are those of the attempts that count |
| SummaryLaw.TotalsRaiseExactly | scripts/summarize_benchmark.py:609-660 | the projection raises exactly for a cost without amount that is not unknown |
| TraceMeasured.FullyMeasuredExactly | scripts/summarize_benchmark.py:676-692 | an error-free ledger is fully measured exactly when it has an attempt, every attempt made a settled call of its own and has the other scored costs, and no cost is estimated or unknown |
| TraceMeasured.CostGateExactly | scripts/summarize_benchmark.py:692-726 | on an error-free ledger the cost gate is evaluable exactly for a complete, fully measured benchmark with a valid case, and passes exactly when the ledger's scored amounts, divided among the valid cases and rounded, stay within the threshold |
| TraceUsage.RatiosExactly | scripts/summarize_benchmark.py:692-726 | on an error-free ledger the two ratios are reported exactly if measured and not over zero, as the integers nearest to the scored amounts over attempted and valid cases; each reason is given once, exactly if it applies |
| TraceMeasured.RetriedCaseIsNeverFullyMeasured | scripts/summarize_benchmark.py:634-726 | an accepted scored ledger with a retried case is never fully measured, and its cost gate never evaluable |
| MeasuredExamples.RetriedLedger | scripts/summarize_benchmark.py:634-692 | a concrete accepted scored ledger with a retried case |
| MeasuredExamples.MeasuredLedgerExample | scripts/summarize_benchmark.py:634-692 | a concrete accepted scored ledger that is fully measured |
| CallRecorder.KnownSpendAndClosedCalls | src/reproassert/benchmark.py:331-410 | the scan's spend totals, or its first refusal |
| CallRecorder.BenchmarkLedger.ModelCallStarted | src/reproassert/benchmark.py:145-230 | refused with the guard's reason and an unchanged ledger, or exactly the call event appended |
| CallRecorder.BenchmarkLedger.ModelCallFinished | src/reproassert/benchmark.py:168-268 | refused with the reason and an unchanged ledger, or exactly the finish event appended |
| CallAdmission.AdmittedIffAdmissible | src/reproassert/benchmark.py:202-410 | a call is admitted exactly when the recorder may present it, its attempt started once, is open and froze the same, every earlier call of the batch is another one of another case, finished with known usage and exactly priced, and the scored amounts of batch and case leave room for the reservation |
| CallAdmission.SpendLimitExactly | src/reproassert/benchmark.py:202-230 | with everything else in order, refused for the spend limit exactly when the batch's or the case's scored amounts plus the reservation exceed their cap |
| CallAdmission.EndAdmittedIffAdmissible | src/reproassert/benchmark.py:168-268 | the end of a call is admitted exactly when its attempt is open and frozen as the recorder says and the call was started there once, at that moment and with these terms, and has not ended |
| CallRecorder.ScoredLedgerHasOneBatch | scripts/validate_benchmark.py:914-922 | an error-free scored ledger holds events of one batch only |
| CallRecorder.AdmittedCallIsFaultlessIffQuiet | src/reproassert/benchmark.py:202-230 | on any error-free ledger of either lane: the exact errors an admitted call adds; with blind gold none exactly when every call of another batch is settled, of another id and of another case |
| CallRecorder.AdmittedCallIsFaultlessIffBlind | src/reproassert/benchmark.py:202-230 | on an error-free scored ledger, or any of one batch, an admitted call adds no validator error, or exactly the one for unblinded gold |
| CallRecorder.AdmittedFinishIsFaultlessIffBlind | src/reproassert/benchmark.py:168-268 | on any error-free ledger an admitted finish is neither without a start nor a second one, and its timestamps and usage are coherent: no validator error, or exactly the one for unblinded gold |
| GoldCounterexample.AdmittedAfterGold | src/reproassert/benchmark.py:270-329 | a concrete error-free ledger with unblinded gold to which the guard admits a call |
| BatchCounterexample.AdmittedBesideOpenCall | src/reproassert/benchmark.py:331-345 | a concrete error-free smoke ledger of two batches, gold blind, where the guard admits a call beside the other batch's open one |
| Binomial.TailPascal | scripts/summarize_benchmark.py:361-368 | Pascal's rule for the upper tail |
| Binomial.TailIsWhole | scripts/summarize_benchmark.py:361-368 | the weights add up to one |
| Binomial.TailIsMonotone | scripts/summarize_benchmark.py:361-368 | the tail is non-decreasing in the chance |
| Binomial.TailIsStrict | scripts/summarize_benchmark.py:361-368 | strictly increasing between 1 and n successes |
| ClopperPearson.BetaQuantile | scripts/summarize_benchmark.py:371-380 | the loop's midpoint lies within 2^-121 of every point where the tail equals the level |
| ClopperPearson.ClopperPearson95 | scripts/summarize_benchmark.py:383-396 | both ends, edge cases included, with 0 <= lower <= upper <= 1 |
| ClopperPearson.NarrowedBrackets | scripts/summarize_benchmark.py:371-380 | every step keeps cdf(lower) < p <= cdf(upper) and halves the width |
| ClopperPearson.CrossingIsInside | scripts/summarize_benchmark.py:371-380 | the true crossing never leaves the bracket |
| ClopperPearson.Lockstep | scripts/summarize_benchmark.py:383-396 | two bisections in lockstep keep equal or ordered brackets |
| ClopperPearson.IntervalInvertsTheTests | scripts/summarize_benchmark.py:371-396 | up to 2^-121 the ends are exactly where as many successes, or as few, become 2.5% probable |
| ClopperPearson.EndsAreMonotone | scripts/summarize_benchmark.py:383-396 | both ends are non-decreasing in the successes |
| ClopperPearson.CoverageIsAtLeast95Percent | scripts/summarize_benchmark.py:383-396 | for every true chance and every n, the interval widened by 2^-121 covers it with probability at least 0.95 |
| IssueHistory.CheckBodyRevisions | src/reproassert/benchmark_snapshot_producer.py:623-664 | accepts exactly the complete, strictly newest-first body histories from the current body to the creation |
| IssueHistory.CheckTitleRevisions | src/reproassert/benchmark_snapshot_producer.py:667-704 | accepts exactly the complete rename histories with distinct moments that chain to the current title |
| IssueHistory.SelectBody | src/reproassert/benchmark_snapshot_producer.py:502-504 | the newest body revision before the cutoff, if any |
| IssueHistory.SelectTitle | src/reproassert/benchmark_snapshot_producer.py:507-515 | the title and its moment after the renames before the cutoff |
| IssueHistory.DeriveSnapshot | src/reproassert/benchmark_snapshot_producer.py:496-523 | the selected title, body and moment, or the first rejection |
| IssueRecord.AcceptedExactly | src/reproassert/benchmark_snapshot_producer.py:496-704 | accepted exactly when the issue is older than the cutoff, every body revision is there, none deleted, newest first from the current body to the creation, and the renames, each at a moment of its own, chain by their moments to the current title |
| IssueRecord.SelectedExactly | src/reproassert/benchmark_snapshot_producer.py:496-523 | the selection is the last body revision before the cutoff, not a deleted one, and what the last rename before it left, with the later of their moments, the body's in a tie |
| IssueRecord.WholeLogIsTheIssue | src/reproassert/benchmark_snapshot_producer.py:623-704 | replayed to the end, the edits of an accepted issue give back its current title and body |
| IssueHistory.BodyRevisionAlwaysExists | src/reproassert/benchmark_snapshot_producer.py:502-506 | the rejection for a missing body revision is unreachable |
| IssueHistory.SelectionIsInTime | src/reproassert/benchmark_snapshot_producer.py:507-520 | creation <= selected moment < cutoff |
| IssueHistory.SelectionIsReplay | src/reproassert/benchmark_snapshot_producer.py:496-523 | the selection is the issue after replaying all edits strictly before the cutoff, in any order of simultaneous edits |
| IssueHistory.LaterEditsAreIrrelevant | src/reproassert/benchmark_snapshot_producer.py:496-523 | two accepted histories that agree before the cutoff give the same selection |
| IssueHistory.EveryAcceptedIssueHasALog | src/reproassert/benchmark_snapshot_producer.py:496-523 | every accepted issue has a log to replay |
| IssueHistory.SortingSorts | src/reproassert/benchmark_snapshot_producer.py:692-692 | the sort by timestamp is ordered and keeps every rename |
| NestingScanner.RejectExcessiveJsonNesting | src/reproassert/benchmark_source.py:923-945 | the loop accepts exactly what the character-by-character fold does not reject |
| NestingScanner.QuotedIsQuiet | src/reproassert/benchmark_source.py:929-937 | a string literal, whatever it escapes, leaves the scanner where it was |
| NestingScanner.ScannerMatchesStructure | src/reproassert/benchmark_source.py:923-945 | on the text of any JSON value the scanner rejects exactly when the container depth exceeds the limit, and otherwise ends at depth 0 outside any string |
| JsonPointer.ResolveLocalRef | scripts/validate_benchmark.py:237-246 | the loop walks the unescaped components from the root |
| JsonPointer.UnescapeUndoesEscape | scripts/validate_benchmark.py:242-242 | unescaping `~1` then `~0` gives every key back |
| JsonPointer.PointerWalksItsKeys | scripts/validate_benchmark.py:237-246 | the pointer written for a non-empty key list resolves by walking exactly those keys |
| SchemaChecker.Validate | scripts/validate_benchmark.py:249-384 | terminates on every ranked schema graph and appends an error exactly when the instance is not valid |
| SchemaChecker.ValidateOneOf | scripts/validate_benchmark.py:267-289 | no error exactly when one branch and only one is valid |
| SchemaChecker.ValidateObject | scripts/validate_benchmark.py:308-331 | required, closed and member schemas |
| SchemaChecker.ValidateArray | scripts/validate_benchmark.py:333-354 | item counts, uniqueness and item schemas |
| SchemaChecker.ValidateString | scripts/validate_benchmark.py:356-374 | lengths, pattern and format |
| SchemaChecker.ValidateNumber | scripts/validate_benchmark.py:376-384 | the three numeric bounds |
| SchemaChecker.RankDoesNotMatter | scripts/validate_benchmark.py:249-289 | validity does not depend on how the reference graph was ranked |
| SchemaGraph.RankedIffAcyclic | scripts/validate_benchmark.py:249-289 | a reference graph has a rank exactly when it has no cycle of references and branches |
| SchemaGraph.ValidateJsonSchemaInstance | scripts/validate_benchmark.py:249-384 | on every root without such a cycle the checker terminates and appends an error exactly when the instance is not valid |
| SchemaKeywords.KeywordsExactly | scripts/validate_benchmark.py:291-384 | without reference and branches an instance is valid exactly if it meets each keyword the schema has, read from the schema's members alone |
| SchemaKeywords.ReferenceExactly | scripts/validate_benchmark.py:258-265 | a reference is met exactly if it points to a schema that the instance meets |
| SchemaKeywords.OneOfExactly | scripts/validate_benchmark.py:267-289 | branches are met exactly if one of them holds and every other fails or is no schema |
| CandidateReceipt.Evaluate | src/reproassert/benchmark_v02_candidate_evaluator.py:526-580 | the loop over runs yields the records and the outcome, with the override for unattributable evidence |
| CandidateAcceptance.AcceptedExactly | src/reproassert/benchmark_v02_candidate_evaluator.py:526-580 | accepted exactly when every base run fails with one shared non-empty text, under pytest the one failure of one test case without error or skip, under a native runner output that names the function, and every fixed run is one clean pass; all within limits, with a run on each side |
| CandidateAcceptance.RejectedExactly | src/reproassert/benchmark_v02_candidate_evaluator.py:1012-1050 | the class of every troubled, unstable or wrongly exiting set of runs, by precedence |
| CandidateAcceptance.OutcomeExactly | src/reproassert/benchmark_v02_candidate_evaluator.py:526-603 | the receipt's counts are the numbers of failing base and passing fixed runs, and it accepts exactly a reproduction |
| CandidateAcceptance.FingerprintExactly | src/reproassert/benchmark_v02_candidate_evaluator.py:1218-1283 | a fingerprint is exactly the text of an attributable failure, and evidence is valid exactly for that or for a clean pass |
| CandidateReceipt.RecomputationAgreesExactly | src/reproassert/benchmark_v02_candidate_evaluator.py:1299-1354 | the receipt recomputes exactly when there is no marker without a limit and no unattributable fixed pass in an otherwise verified candidate |
| CandidateReceipt.AcceptanceMeansReproduction | src/reproassert/benchmark_v02_candidate_evaluator.py:1012-1050 | acceptance means every base run failed with one shared fingerprint and every fixed run passed with valid evidence |
| CandidateReceipt.MarkedPassDiverges | src/reproassert/benchmark_v02_candidate_evaluator.py:1024-1029 | with a marker in the passing output the evaluator says infrastructure failure and the verifier says verified |
| CandidateReceipt.MarkedPassExample | src/reproassert/benchmark_v02_candidate_evaluator.py:1024-1029 | one concrete pair of runs on which they differ |
| CandidateReceipt.UnattributablePassDiverges | src/reproassert/benchmark_v02_candidate_evaluator.py:1299-1354 | an unattributable fixed pass in an otherwise verified candidate: the evaluator says wrong or flaky, the recomputation verified |
| CandidateReceipt.UnattributablePassExample | src/reproassert/benchmark_v02_candidate_evaluator.py:1299-1354 | one concrete pair of runs on which they differ |

## Left out

- File-system mechanics: locks, fsync, inode, permission and symlink checks, private directories, temporary names of atomic replacement. A locked section is one step and an exclusive write creates if absent.
- SHA-256, JSON text and regular expressions as libraries. A digest text that is not 64 hex characters is `Malformed`; the line codec of the ledger is any injective, newline-free pair of functions.
- Money as six-decimal text and its conversion to integers: costs are integers throughout.
- The claim file under the home directory and the authorization, preregistration, freeze and amendment receipts: field-by-field equality checks. What they guarantee is `Authorization.Valid` and `Plan.Valid`.
- The port status for a recorded halt: the ledger port never produces it, so that branch of the runtime cannot be reached through it.
- Controller.CampaignController.Run: states its result for the worlds a claimed campaign can reach under the controller lock; files lost or changed from outside are covered by the workers model, for safety only.
- Workers.EventsFollowTheirFiles: says nothing once a file is lost, since nothing could.
- Runtime plan verification and the OpenAI transport, usage parsing and price formula: pure field checks and one rounded division.
- TraceValidator.EventLedgerValidator.Validate: leaves out the checks after the loop that enclose calls in generation phases, repeat a call's start timestamp and add up wall time, and redacted logs; they only add errors that mention no other rule.
- TraceValidator.EventLedgerValidator.ReadEvent: leaves out the redacted log of a finished phase.
- TraceValidator.EventLedgerValidator.RecordCost: leaves out the running totals and flags that only the result-row reconciliation reads (cost by category, estimated and unknown cost), and a quantity that is not a decimal.
- Result-row reconciliation of the v0.1 validator and summary, and the summary's report around the two folds: the counts its cost projection is given are parameters, and sorting of the ids it lists is left out.
- Events that fail the event schema or a broken v0.1 hash chain: the modelled events are typed, and their chain check has the same shape as that of the spend ledger.
- CallRecorder.BenchmarkLedger.ModelCallStarted: leaves out the wall-time budget, the syntax checks of identifiers, hosts and timestamps and the size limit of the file.
- CallRecorder.BenchmarkLedger.ModelCallFinished: leaves out the syntax checks of the event (identifiers, digests, the status and classification texts).
- ClopperPearson.ClopperPearson95: exact reals; the final rounding to 15 digits and floating point are not modelled.
- Text canonicalisation, timestamp syntax, redaction of backlinks and the cutoff artifact of issue snapshots.
- SchemaChecker.Validate: leaves out the location text of messages, Python's equality of numbers with booleans and of whole floats with integers, an `enum` that is not a list, and unhashable `required` entries; the pattern and format tests are parameters.
- SchemaGraph.ValidateJsonSchemaInstance: leaves out what SchemaChecker.Validate leaves out.
- Normalisation of failure texts by regular expressions, XML parsing, and the hidden-gold evidence of candidate receipts.
- The site, command-line entry points, example fixtures and continuous-integration scope script.

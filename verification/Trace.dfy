/**
 The v0.1 benchmark event ledger: its events, and the offline validator's fold over them as functions.
 Events are typed, so they are the events that pass the event schema. An error message is a `Fault`.
 */
module Trace {
  import opened Wrappers

  datatype Lane = Smoke | Scored
  datatype Disposition = SmokeOnly | PrimaryScore | InfrastructureRetry
  datatype Tier = PublicSmoke | HistoricalScored
  datatype Approval = OfflineZeroCost | ExplicitUserApproval

  datatype Campaign = Campaign(
    id: string, tier: Tier, maxRetries: nat, caseCap: nat, campaignCap: nat,
    approval: Approval, approvalRef: Option<string>)
  datatype Generator = Generator(
    provider: string, requestedModel: Option<string>, modelIdentity: string, config: string, rest: string)

  /** What every scored attempt must repeat exactly. */
  datatype Freeze = Freeze(campaign: Campaign, generator: Generator, pricing: string, rest: string)
  datatype AttemptStart = AttemptStart(
    ordinal: nat, disposition: Disposition, retryOf: Option<string>, caseEntry: string, freeze: Freeze)

  datatype Phase =
    | Preflight | IssueSnapshot | DependencyPrep | Generation | CandidatePolicy | Collection
    | BaseVerify | FixedVerify | CausalControls | SemanticReview | GoldUnblind
  datatype PhaseKey = PhaseKey(phase: Phase, ordinal: nat)

  /** When something ran, in milliseconds, and how long it says it took. */
  datatype Interval = Interval(startedAt: int, completedAt: int, durationMs: nat)
  datatype PhaseFinish = PhaseFinish(succeeded: bool, interval: Interval)

  datatype CallStart = CallStart(
    callId: string, startedAt: int, provider: string, requestedModel: string, modelIdentity: string, config: string,
    pricing: string, reserved: nat)
  datatype UsageStatus = Reported | EstimatedUsage | UnknownUsage | NotApplicable
  datatype Usage = Usage(
    status: UsageStatus, input: Option<nat>, cached: Option<nat>, output: Option<nat>, total: Option<nat>)
  datatype CallFinish = CallFinish(succeeded: bool, interval: Interval, usage: Usage)

  datatype Category = ModelInference | SandboxCompute | ArtifactTransfer | PaidStorage | ColdDependencies | HumanReview
  datatype Attribution = CampaignScored | ColdPrepExcluded | HumanLaborExcluded
  datatype CostStatus = Measured | Estimated | Unknown | ZeroVerified
  datatype Cost = Cost(
    entryId: string, sourceCall: Option<string>, category: Category, attribution: Attribution,
    status: CostStatus, amount: Option<nat>, quantity: Option<real>, unitPrice: Option<nat>, inMillionTokens: bool)

  datatype Role = Primary | TieBreak
  datatype Verdict = Valid | Invalid
  datatype Review = Review(reviewer: string, role: Role, verdict: Verdict, rubricMet: bool, hash: string)

  datatype Outcome =
    | BenchmarkInfrastructureError | NoOutput | InvalidPatch | PolicyViolation | SetupFailure | CollectFailure
    | PassOnBase | WrongFailure | FlakyBase | FailOnFix | FlakyFix | PlausibleSemanticInvalid | SemanticValid
  datatype Claim = Rejected | L0 | L1 | L2
  datatype ScoringDisposition = Counted | RetriableInfrastructure | NonScoring
  datatype Finish = Finish(
    outcome: Outcome, claim: Claim, disposition: ScoringDisposition, plausible: bool, resultRow: Option<string>,
    completedAt: int)

  datatype Payload =
    | AttemptStarted(start: AttemptStart)
    | PhaseStarted(key: PhaseKey, startedAt: int)
    | PhaseFinished(key: PhaseKey, phaseFinish: PhaseFinish)
    | ModelCallStarted(call: CallStart)
    | ModelCallFinished(callId: string, callFinish: CallFinish)
    | CostRecorded(cost: Cost)
    | CandidateSubmitted(patch: string, callIds: seq<string>)
    | ReviewRecorded(review: Review)
    | GoldUnblinded(committed: string)
    | AttemptFinished(finish: Finish)

  datatype Event = Event(batchId: string, attemptId: string, caseId: string, recordedAt: int, payload: Payload)

  // ---------------------------------------------------------------- validator state

  /** A candidate, identified by the attempt that submitted it: an attempt submits at most one. */
  datatype Candidate = Candidate(attemptId: string, patch: string)
  datatype CountedFinish = CountedFinish(attemptId: string, finish: Finish)

  datatype CaseState = CaseState(
    attemptIds: seq<string>, callIds: seq<string>, candidate: Option<Candidate>,
    countedFinish: Option<CountedFinish>, scoredCost: nat)

  datatype AttemptState = AttemptState(
    caseId: string, batchId: string, startedAt: int, start: AttemptStart, finished: Option<Finish>,
    phaseStarts: map<PhaseKey, int>, phaseFinishes: map<PhaseKey, PhaseFinish>,
    callStarts: map<string, CallStart>, callFinishes: map<string, CallFinish>, callCosts: map<string, Cost>,
    candidate: Option<Candidate>, reviews: seq<Review>, gold: Option<string>)

  /** `attemptOrder` and `caseOrder` are the insertion orders of the two dictionaries. */
  datatype State = State(
    attempts: map<string, AttemptState>, attemptOrder: seq<string>,
    cases: map<string, CaseState>, caseOrder: seq<string>,
    callOwner: map<string, string>, entryIds: set<string>,
    batch: Option<string>, freeze: Option<Freeze>)

  datatype Context = Context(lane: Lane, knownCases: set<string>, smokeCases: set<string>)

  datatype Fault =
    | UnknownCase | NotASmokeCase | DuplicateStart | NoStart | IdentityChanged | AfterFinish | AfterGold
    | CaseAlreadyCounted | SecondPrimary | AttemptStillOpen | WrongDisposition | WrongTier
    | ZeroCostCitesApproval | ZeroCostNeedsZeroCaps | PaidNeedsReference | OrdinalNotContiguous
    | RetryLinksNothing | RetryChainBroken | OnlyInfrastructureIsRetried | RetryAfterUnknownPhaseTime
    | RetryMustReuseCandidate | UnexpectedRetryOf | TooManyRetries | SecondBatch | FreezeDrifted
    | DuplicatePhaseStart | PhaseWithoutStart | PhaseStartChanged | DuplicatePhaseFinish
    | CompletedBeforeItStarted | DurationDisagrees
    | UnresolvedCall | DuplicateCall | SecondCallOfCase | CallDrifted | OverCaseCap | OverCampaignCap
    | SmokeNeedsFixture | PaidCallNotAuthorized | OnlineProvider
    | CallFinishWithoutStart | DuplicateCallFinish
    | KnownUsageNeedsCounts | CachedExceedsInput | TotalIsNotTheSum | NotApplicableIsNotZero | UnknownUsageHasCounts
    | CostIsNotQuantityTimesPrice | HalfPriced | QuantityIsNotUsage
    | DuplicateEntry | KnownCostNeedsAmount | ZeroCostNeedsZero | UnknownCostHasAmount | ModelCostNotScored
    | ModelCostWithoutCall | ModelCostBeforeFinish | SecondModelCost | CostOverReservation | ModelCostNotVerifiedZero
    | NonModelCostCitesCall | CaseCostOverCap
    | SecondCandidate | SecondCandidateOfCase | ForeignCall | CandidateNeedsItsCall
    | ReviewWithoutCandidate | ReviewWithoutEvidence | DuplicateReviewer | TooManyPrimaries
    | TieBreakWithoutDisagreement | RubricNotMet
    | GoldWithoutReviewPhase | GoldWithoutVerdict | GoldWithoutMajority | GoldCommitsWrongReview
    | ClaimIncoherent | PlausibleIncoherent | SmokeIsScored | SmokeHasRow | InfrastructureMustStayRetriable
    | RetryHasRow | MustBeCounted | CountedNeedsRow | SecondCountedFinish | ClaimWithoutCandidate
    | VerdictWithoutGold | ValidWithoutMajority | InvalidWithoutMajority | CompletedBeforeStart
    | CampaignCostOverCap

  const NEW_CASE := CaseState([], [], None, None, 0)
  const OFFLINE_FIXTURE := "offline-fixture"
  const LOCAL_MODEL := "local-model"

  function Initial(): State {
    State(map[], [], map[], [], map[], {}, None, None)
  }

  function Require(ok: bool, f: Fault): seq<Fault> {
    if ok then [] else [f]
  }

  function NewAttempt(e: Event, start: AttemptStart): AttemptState {
    AttemptState(e.caseId, e.batchId, e.recordedAt, start, None, map[], map[], map[], map[], map[], None, [], None)
  }

  /** `cases.setdefault`. */
  function WithCase(s: State, c: string): State {
    if c in s.cases then s else s.(cases := s.cases[c := NEW_CASE], caseOrder := s.caseOrder + [c])
  }

  function CaseOf(s: State, c: string): CaseState {
    if c in s.cases then s.cases[c] else NEW_CASE
  }

  // ---------------------------------------------------------------- the rules, event by event

  function CountDisposition(attempts: map<string, AttemptState>, ids: seq<string>, d: Disposition): nat {
    if ids == [] then 0
    else CountDisposition(attempts, ids[..|ids| - 1], d)
         + (if ids[|ids| - 1] in attempts && attempts[ids[|ids| - 1]].start.disposition == d then 1 else 0)
  }

  predicate AllFinished(attempts: map<string, AttemptState>, ids: seq<string>) {
    forall i :: 0 <= i < |ids| ==> ids[i] in attempts && attempts[ids[i]].finished.Some?
  }

  /** The rules for opening an attempt: those of the case, `_validate_attempt_start`, those of the batch. */
  function StartFaults(x: Context, s: State, e: Event, st: AttemptStart): seq<Fault> {
    var case_ := CaseOf(s, e.caseId);
    OpeningFaults(s, case_, st)
    + CampaignFaults(x, st)
    + OrderFaults(e, st, case_, s.attempts[e.attemptId := NewAttempt(e, st)])
    + (if x.lane.Scored? then BatchFaults(s, e.batchId, st.freeze) else [])
  }

  function OpeningFaults(s: State, case_: CaseState, st: AttemptStart): seq<Fault> {
    Require(case_.countedFinish.None?, CaseAlreadyCounted)
    + Require(st.disposition.PrimaryScore? ==> CountDisposition(s.attempts, case_.attemptIds, PrimaryScore) == 0,
              SecondPrimary)
    + Require(AllFinished(s.attempts, case_.attemptIds), AttemptStillOpen)
  }

  function OrderFaults(e: Event, st: AttemptStart, case_: CaseState, attempts: map<string, AttemptState>): seq<Fault> {
    Require(st.ordinal == |case_.attemptIds| + 1, OrdinalNotContiguous)
    + (if st.disposition.InfrastructureRetry? then RetryFaults(e, st, case_, attempts)
       else Require(st.retryOf.None?, UnexpectedRetryOf))
    + Require(CountDisposition(attempts, case_.attemptIds + [e.attemptId], InfrastructureRetry)
                <= st.freeze.campaign.maxRetries, TooManyRetries)
  }

  function BatchFaults(s: State, batchId: string, f: Freeze): seq<Fault> {
    Require(s.batch.None? || s.batch.value == batchId, SecondBatch)
    + Require(s.freeze.None? || s.freeze.value == f, FreezeDrifted)
  }

  function CampaignFaults(x: Context, st: AttemptStart): seq<Fault> {
    var campaign := st.freeze.campaign;
    Require(if x.lane.Smoke? then st.disposition.SmokeOnly? else !st.disposition.SmokeOnly?, WrongDisposition)
    + Require(campaign.tier == (if x.lane.Smoke? then PublicSmoke else HistoricalScored), WrongTier)
    + (match campaign.approval
       case OfflineZeroCost =>
         Require(campaign.approvalRef.None?, ZeroCostCitesApproval)
         + Require(campaign.caseCap == 0 && campaign.campaignCap == 0, ZeroCostNeedsZeroCaps)
       case ExplicitUserApproval =>
         Require(campaign.approvalRef.Some? && |campaign.approvalRef.value| >= 3, PaidNeedsReference))
  }

  function RetryFaults(e: Event, st: AttemptStart, case_: CaseState, attempts: map<string, AttemptState>): seq<Fault> {
    if st.retryOf.None? || st.retryOf.value !in attempts then [RetryLinksNothing]
    else
      var ids := case_.attemptIds;
      var prior := attempts[st.retryOf.value];
      Require(ids != [] && st.retryOf.value == ids[|ids| - 1], RetryChainBroken)
      + Require(prior.caseId == e.caseId && prior.finished.Some?
                && prior.finished.value.outcome.BenchmarkInfrastructureError?, OnlyInfrastructureIsRetried)
      + Require(prior.phaseStarts.Keys == prior.phaseFinishes.Keys, RetryAfterUnknownPhaseTime)
      + Require(prior.candidate.None? || case_.candidate == prior.candidate, RetryMustReuseCandidate)
  }

  predicate CallIsSettled(t: AttemptState, callId: string) {
    && callId in t.callFinishes && callId in t.callCosts
    && (t.callCosts[callId].status.Measured? || t.callCosts[callId].status.ZeroVerified?)
  }

  /** The earlier calls that are not settled, with their attempts. */
  function UnresolvedCalls(attempts: map<string, AttemptState>): set<(string, string)> {
    set a, p | a in attempts && p in attempts[a].callStarts && !CallIsSettled(attempts[a], p) :: (a, p)
  }

  function Repeated(f: Fault, n: nat): (fs: seq<Fault>)
    ensures |fs| == n
  {
    seq(n, _ => f)
  }

  function CallFaults(s: State, t: AttemptState, case_: CaseState, call: CallStart): seq<Fault> {
    Repeated(UnresolvedCall, |UnresolvedCalls(s.attempts)|)
    + Require(call.callId !in s.callOwner, DuplicateCall)
    + Require(|case_.callIds| + 1 <= 1, SecondCallOfCase)
    + ReservationFaults(t.start.freeze, call)
  }

  predicate CallMatches(f: Freeze, call: CallStart) {
    && call.provider == f.generator.provider && Some(call.requestedModel) == f.generator.requestedModel
    && call.modelIdentity == f.generator.modelIdentity && call.config == f.generator.config
    && call.pricing == f.pricing
  }

  function ReservationFaults(f: Freeze, call: CallStart): seq<Fault> {
    Require(CallMatches(f, call), CallDrifted)
    + Require(call.reserved <= f.campaign.caseCap, OverCaseCap)
    + Require(call.reserved <= f.campaign.campaignCap, OverCampaignCap)
    + Require(f.campaign.tier.PublicSmoke? ==> call.provider == OFFLINE_FIXTURE, SmokeNeedsFixture)
    + (if f.campaign.approval.OfflineZeroCost?
       then Require(call.reserved == 0, PaidCallNotAuthorized)
            + Require(call.provider == OFFLINE_FIXTURE || call.provider == LOCAL_MODEL, OnlineProvider)
       else [])
  }

  function ScoredAmount(c: Cost): nat {
    if c.attribution.CampaignScored? && c.amount.Some? then c.amount.value else 0
  }

  function CostFaults(s: State, a: string, t: AttemptState, case_: CaseState, c: Cost): seq<Fault> {
    Require(c.entryId !in s.entryIds, DuplicateEntry)
    + AmountFaults(c)
    + PriceFaults(c)
    + (if c.category.ModelInference? then ModelCostFaults(s, a, t, c)
       else Require(c.sourceCall.None?, NonModelCostCitesCall))
    + (if c.attribution.CampaignScored? && c.amount.Some?
       then Require(case_.scoredCost + c.amount.value <= t.start.freeze.campaign.caseCap, CaseCostOverCap) else [])
  }

  function AmountFaults(c: Cost): seq<Fault> {
    match c.status
    case Measured => Require(c.amount.Some?, KnownCostNeedsAmount)
    case Estimated => Require(c.amount.Some?, KnownCostNeedsAmount)
    case ZeroVerified => Require(c.amount == Some(0), ZeroCostNeedsZero)
    case Unknown => Require(c.amount.None?, UnknownCostHasAmount)
  }

  /** `Decimal.quantize` to whole micro-USD, halves upward; quantities are never negative. */
  function RoundHalfUp(x: real): int {
    (x + 0.5).Floor
  }

  predicate IsPriced(c: Cost) {
    c.quantity.Some? && c.unitPrice.Some? && c.amount.Some?
  }

  function PriceFaults(c: Cost): seq<Fault> {
    if IsPriced(c) then
      Require(RoundHalfUp(c.quantity.value * (c.unitPrice.value as real)) == c.amount.value,
              CostIsNotQuantityTimesPrice)
    else if c.status.Measured? || c.status.Estimated? then
      Require(c.quantity.None? && c.unitPrice.None?, HalfPriced)
    else []
  }

  /** A priced token cost is for the tokens the provider reported. */
  predicate QuantityIsUsage(t: AttemptState, call: string, c: Cost) {
    call in t.callFinishes && c.inMillionTokens && IsPriced(c) && t.callFinishes[call].usage.total.Some? ==>
      c.quantity.value == t.callFinishes[call].usage.total.value as real / 1_000_000.0
  }

  function ModelCostFaults(s: State, a: string, t: AttemptState, c: Cost): seq<Fault> {
    Require(c.attribution.CampaignScored?, ModelCostNotScored)
    + Require(c.sourceCall.Some? && c.sourceCall.value in s.callOwner && s.callOwner[c.sourceCall.value] == a,
              ModelCostWithoutCall)
    + (match c.sourceCall
       case Some(call) =>
         Require(call in t.callFinishes, ModelCostBeforeFinish)
         + Require(call !in t.callCosts, SecondModelCost)
         + Require(call in t.callStarts && c.amount.Some? ==> c.amount.value <= t.callStarts[call].reserved,
                   CostOverReservation)
         + Require(QuantityIsUsage(t, call, c), QuantityIsNotUsage)
       case None =>
         Require(c.status.ZeroVerified? && c.amount == Some(0) && t.callStarts == map[], ModelCostNotVerifiedZero))
  }

  /** At most a second between the duration and the two timestamps. */
  predicate DurationAgrees(i: Interval) {
    -1000 <= i.completedAt - i.startedAt - i.durationMs <= 1000
  }

  function IntervalFaults(i: Interval): seq<Fault> {
    Require(i.completedAt >= i.startedAt, CompletedBeforeItStarted) + Require(DurationAgrees(i), DurationDisagrees)
  }

  function PhaseFaults(t: AttemptState, key: PhaseKey, f: PhaseFinish): seq<Fault> {
    Require(key in t.phaseStarts, PhaseWithoutStart)
    + Require(key in t.phaseStarts ==> t.phaseStarts[key] == f.interval.startedAt, PhaseStartChanged)
    + Require(key !in t.phaseFinishes, DuplicatePhaseFinish)
    + IntervalFaults(f.interval)
  }

  function UsageFaults(u: Usage): seq<Fault> {
    match u.status
    case UnknownUsage =>
      Require(u.input.None? && u.cached.None? && u.output.None? && u.total.None?, UnknownUsageHasCounts)
    case NotApplicable =>
      Require(u.input == Some(0) && u.cached == Some(0) && u.output == Some(0) && u.total == Some(0),
              NotApplicableIsNotZero)
    case _ =>
      if u.input.None? || u.cached.None? || u.output.None? || u.total.None? then [KnownUsageNeedsCounts]
      else
        Require(u.cached.value <= u.input.value, CachedExceedsInput)
        + Require(u.total.value == u.input.value + u.output.value, TotalIsNotTheSum)
  }

  function CandidateFaults(t: AttemptState, case_: CaseState, callIds: seq<string>): seq<Fault> {
    Require(t.candidate.None?, SecondCandidate)
    + Require(case_.candidate.None?, SecondCandidateOfCase)
    + Require(forall i | 0 <= i < |callIds| :: callIds[i] in t.callFinishes && t.callFinishes[callIds[i]].succeeded,
              ForeignCall)
    + Require(t.start.freeze.campaign.tier.HistoricalScored? && t.start.freeze.generator.provider != OFFLINE_FIXTURE
              ==> |callIds| == 1, CandidateNeedsItsCall)
  }

  const EVIDENCE := {CandidatePolicy, Collection, BaseVerify, FixedVerify, CausalControls}

  predicate PhaseSucceeded(t: AttemptState, p: Phase) {
    exists k | k in t.phaseFinishes :: k.phase == p && t.phaseFinishes[k].succeeded
  }

  function Primaries(reviews: seq<Review>): seq<Review> {
    if reviews == [] then []
    else
      var r := reviews[|reviews| - 1];
      Primaries(reviews[..|reviews| - 1]) + (if r.role.Primary? then [r] else [])
  }

  function Votes(reviews: seq<Review>, v: Verdict): nat {
    if reviews == [] then 0
    else Votes(reviews[..|reviews| - 1], v) + (if reviews[|reviews| - 1].verdict == v then 1 else 0)
  }

  function ReviewFaults(t: AttemptState, r: Review): seq<Fault> {
    var primaries := Primaries(t.reviews);
    Require(t.candidate.Some?, ReviewWithoutCandidate)
    + Require(forall p | p in EVIDENCE :: PhaseSucceeded(t, p),
              ReviewWithoutEvidence)
    + Require(forall i | 0 <= i < |t.reviews| :: t.reviews[i].reviewer != r.reviewer, DuplicateReviewer)
    + (match r.role
       case Primary => Require(|primaries| < 2, TooManyPrimaries)
       case TieBreak =>
         Require(|primaries| == 2 && primaries[0].verdict != primaries[1].verdict, TieBreakWithoutDisagreement))
    + (if r.verdict.Valid? then Require(r.rubricMet, RubricNotMet) else [])
  }

  function GoldFaults(t: AttemptState, committed: string): seq<Fault> {
    Require(PhaseSucceeded(t, SemanticReview), GoldWithoutReviewPhase)
    + Require(|t.reviews| == 2 || |t.reviews| == 3, GoldWithoutVerdict)
    + Require(Votes(t.reviews, Valid) >= 2 || Votes(t.reviews, Invalid) >= 2, GoldWithoutMajority)
    + (if t.reviews != [] then Require(committed == t.reviews[|t.reviews| - 1].hash, GoldCommitsWrongReview) else [])
  }

  function ExpectedClaim(o: Outcome): Claim {
    match o
    case FailOnFix => L0
    case FlakyFix => L0
    case PlausibleSemanticInvalid => L1
    case SemanticValid => L2
    case _ => Rejected
  }

  predicate IsVerdictClaim(c: Claim) {
    c.L1? || c.L2?
  }

  /** A terminal scored outcome: anything but an infrastructure error. */
  predicate Terminal(x: Context, f: Finish) {
    x.lane.Scored? && !f.outcome.BenchmarkInfrastructureError?
  }

  function FinishFaults(x: Context, t: AttemptState, case_: CaseState, f: Finish): seq<Fault> {
    OutcomeFaults(x, case_, f) + VerdictFaults(t, case_, f)
  }

  function OutcomeFaults(x: Context, case_: CaseState, f: Finish): seq<Fault> {
    Require(f.claim == ExpectedClaim(f.outcome), ClaimIncoherent)
    + Require(f.plausible == IsVerdictClaim(f.claim), PlausibleIncoherent)
    + (if x.lane.Smoke? then
         Require(f.disposition.NonScoring?, SmokeIsScored) + Require(f.resultRow.None?, SmokeHasRow)
       else if f.outcome.BenchmarkInfrastructureError? then
         Require(f.disposition.RetriableInfrastructure?, InfrastructureMustStayRetriable)
         + Require(f.resultRow.None?, RetryHasRow)
       else
         Require(f.disposition.Counted?, MustBeCounted)
         + Require(f.resultRow.Some?, CountedNeedsRow)
         + Require(case_.countedFinish.None?, SecondCountedFinish))
  }

  function VerdictFaults(t: AttemptState, case_: CaseState, f: Finish): seq<Fault> {
    Require(f.claim.Rejected? || case_.candidate.Some?, ClaimWithoutCandidate)
    + Require(IsVerdictClaim(f.claim) ==> t.gold.Some?, VerdictWithoutGold)
    + Require(f.outcome.SemanticValid? ==> Votes(t.reviews, Valid) >= 2, ValidWithoutMajority)
    + Require(f.outcome.PlausibleSemanticInvalid? ==> Votes(t.reviews, Invalid) >= 2, InvalidWithoutMajority)
    + Require(f.completedAt >= t.startedAt, CompletedBeforeStart)
  }

  /** The errors one event adds. */
  function Faults(x: Context, s: State, e: Event): seq<Fault> {
    if e.caseId !in x.knownCases then [UnknownCase]
    else
      Require(x.lane.Scored? || e.caseId in x.smokeCases, NotASmokeCase)
      + (if e.payload.AttemptStarted? then
           if e.attemptId in s.attempts then [DuplicateStart] else StartFaults(x, s, e, e.payload.start)
         else if e.attemptId !in s.attempts then [NoStart]
         else
           var t := s.attempts[e.attemptId];
           Require(t.caseId == e.caseId && t.batchId == e.batchId, IdentityChanged)
           + (if t.finished.Some? then [AfterFinish]
              else if t.gold.Some? && !e.payload.AttemptFinished? then [AfterGold]
              else PayloadFaults(x, s, e, t, CaseOf(s, e.caseId))))
  }

  function PayloadFaults(x: Context, s: State, e: Event, t: AttemptState, case_: CaseState): seq<Fault> {
    match e.payload
    case AttemptStarted(_) => []
    case PhaseStarted(key, _) => Require(key !in t.phaseStarts, DuplicatePhaseStart)
    case PhaseFinished(key, finish) => PhaseFaults(t, key, finish)
    case ModelCallStarted(call) => CallFaults(s, t, case_, call)
    case ModelCallFinished(id, f) =>
      Require(id in s.callOwner && s.callOwner[id] == e.attemptId, CallFinishWithoutStart)
      + Require(id !in t.callFinishes, DuplicateCallFinish)
      + IntervalFaults(f.interval)
      + UsageFaults(f.usage)
    case CostRecorded(cost) => CostFaults(s, e.attemptId, t, case_, cost)
    case CandidateSubmitted(_, callIds) => CandidateFaults(t, case_, callIds)
    case ReviewRecorded(review) => ReviewFaults(t, review)
    case GoldUnblinded(committed) => GoldFaults(t, committed)
    case AttemptFinished(finish) => FinishFaults(x, t, case_, finish)
  }

  // ---------------------------------------------------------------- the effects, event by event

  /** The attempt after its event: what it is was settled when it started. */
  function AttemptAfter(e: Event, t: AttemptState): (r: AttemptState)
    ensures r.caseId == t.caseId && r.batchId == t.batchId && r.start == t.start
    ensures !e.payload.ReviewRecorded? ==> r.reviews == t.reviews
    ensures !e.payload.GoldUnblinded? ==> r.gold == t.gold
    ensures !e.payload.AttemptFinished? ==> r.finished == t.finished
  {
    match e.payload
    case AttemptStarted(_) => t
    case PhaseStarted(key, at) => t.(phaseStarts := t.phaseStarts[key := at])
    case PhaseFinished(key, finish) => t.(phaseFinishes := t.phaseFinishes[key := finish])
    case ModelCallStarted(call) => t.(callStarts := t.callStarts[call.callId := call])
    case ModelCallFinished(id, f) => t.(callFinishes := t.callFinishes[id := f])
    case CostRecorded(cost) =>
      if cost.category.ModelInference? && cost.sourceCall.Some?
      then t.(callCosts := t.callCosts[cost.sourceCall.value := cost]) else t
    case CandidateSubmitted(patch, _) => t.(candidate := Some(Candidate(e.attemptId, patch)))
    case ReviewRecorded(review) => t.(reviews := t.reviews + [review])
    case GoldUnblinded(committed) => t.(gold := Some(committed))
    case AttemptFinished(finish) => t.(finished := Some(finish))
  }

  /** The case after its event. */
  function CaseAfter(x: Context, e: Event, c: CaseState): CaseState {
    match e.payload
    case AttemptStarted(_) => c.(attemptIds := c.attemptIds + [e.attemptId])
    case ModelCallStarted(call) => c.(callIds := c.callIds + [call.callId])
    case CostRecorded(cost) => c.(scoredCost := c.scoredCost + ScoredAmount(cost))
    case CandidateSubmitted(patch, _) => c.(candidate := Some(Candidate(e.attemptId, patch)))
    case AttemptFinished(finish) =>
      if Terminal(x, finish) then c.(countedFinish := Some(CountedFinish(e.attemptId, finish))) else c
    case _ => c
  }

  function AfterStart(x: Context, s: State, e: Event, st: AttemptStart): State
    requires e.caseId in s.cases
  {
    s.(attempts := s.attempts[e.attemptId := NewAttempt(e, st)],
       attemptOrder := s.attemptOrder + [e.attemptId],
       cases := s.cases[e.caseId := CaseAfter(x, e, s.cases[e.caseId])],
       batch := if x.lane.Scored? && s.batch.None? then Some(e.batchId) else s.batch,
       freeze := if x.lane.Scored? && s.freeze.None? then Some(st.freeze) else s.freeze)
  }

  function AfterPayload(x: Context, s: State, e: Event): State
    requires e.caseId in s.cases && e.attemptId in s.attempts
  {
    s.(attempts := s.attempts[e.attemptId := AttemptAfter(e, s.attempts[e.attemptId])],
       cases := s.cases[e.caseId := CaseAfter(x, e, s.cases[e.caseId])],
       callOwner := if e.payload.ModelCallStarted? then s.callOwner[e.payload.call.callId := e.attemptId]
         else s.callOwner,
       entryIds := if e.payload.CostRecorded? then s.entryIds + {e.payload.cost.entryId} else s.entryIds)
  }

  function Next(x: Context, s: State, e: Event): State {
    if e.caseId !in x.knownCases then s
    else
      var s' := WithCase(s, e.caseId);
      if e.payload.AttemptStarted? then
        if e.attemptId in s'.attempts then s' else AfterStart(x, s', e, e.payload.start)
      else if e.attemptId !in s'.attempts then s'
      else
        var t := s'.attempts[e.attemptId];
        if t.finished.Some? || (t.gold.Some? && !e.payload.AttemptFinished?) then s' else AfterPayload(x, s', e)
  }

  function Run(x: Context, events: seq<Event>): State {
    if events == [] then Initial() else Next(x, Run(x, events[..|events| - 1]), events[|events| - 1])
  }

  function RunFaults(x: Context, events: seq<Event>): seq<Fault> {
    if events == [] then []
    else
      var before := events[..|events| - 1];
      RunFaults(x, before) + Faults(x, Run(x, before), events[|events| - 1])
  }

  function CaseCosts(s: State, order: seq<string>): nat {
    if order == [] then 0 else CaseCosts(s, order[..|order| - 1]) + CaseOf(s, order[|order| - 1]).scoredCost
  }

  /** The check after the loop, against the first attempt's campaign. */
  function CampaignCostFaults(s: State): seq<Fault> {
    if s.attemptOrder == [] || s.attemptOrder[0] !in s.attempts then []
    else Require(CaseCosts(s, s.caseOrder) <= s.attempts[s.attemptOrder[0]].start.freeze.campaign.campaignCap,
                 CampaignCostOverCap)
  }

  /** The ledger gets no error. */
  predicate Accepted(x: Context, events: seq<Event>) {
    RunFaults(x, events) == [] && CampaignCostFaults(Run(x, events)) == []
  }

  /** No error up to here; the campaign total is judged only at the end of a ledger. */
  predicate Clean(x: Context, events: seq<Event>) {
    RunFaults(x, events) == []
  }
}

/**
 The law of the event ledger, said of the events alone: what must and must not have happened before each
 event. No index, no error list and no rule function of the validator appears in it. The validator finds no
 error in a ledger exactly when every event of it is lawful.
 */
module TraceLaw {
  import opened Wrappers
  import opened Trace
  import opened TraceGuarantees
  import opened TraceIndex
  import opened TraceTotals

  // ---------------------------------------------------------------- what happened before

  predicate Starts(e: Event, a: string) {
    e.attemptId == a && e.payload.AttemptStarted?
  }

  predicate StartsIn(e: Event, c: string) {
    e.caseId == c && e.payload.AttemptStarted?
  }

  predicate Ends(e: Event, a: string) {
    e.attemptId == a && e.payload.AttemptFinished?
  }

  predicate FailsForInfrastructure(e: Event, a: string) {
    Ends(e, a) && e.payload.finish.outcome.BenchmarkInfrastructureError?
  }

  predicate Begins(e: Event, a: string, key: PhaseKey) {
    e.attemptId == a && e.payload.PhaseStarted? && e.payload.key == key
  }

  predicate Completes(e: Event, a: string, key: PhaseKey) {
    e.attemptId == a && e.payload.PhaseFinished? && e.payload.key == key
  }

  predicate Succeeds(e: Event, a: string, phase: Phase) {
    e.attemptId == a && e.payload.PhaseFinished? && e.payload.key.phase == phase && e.payload.phaseFinish.succeeded
  }

  predicate Calls(e: Event, a: string, callId: string) {
    e.attemptId == a && e.payload.ModelCallStarted? && e.payload.call.callId == callId
  }

  predicate EndsCall(e: Event, a: string, callId: string) {
    e.attemptId == a && e.payload.ModelCallFinished? && e.payload.callId == callId
  }

  predicate PricesCall(e: Event, a: string, callId: string) {
    && e.attemptId == a && e.payload.CostRecorded? && e.payload.cost.category.ModelInference?
    && e.payload.cost.sourceCall == Some(callId)
  }

  predicate SettlesCall(e: Event, a: string, callId: string) {
    PricesCall(e, a, callId) && (e.payload.cost.status.Measured? || e.payload.cost.status.ZeroVerified?)
  }

  predicate Unblinds(e: Event, a: string) {
    e.attemptId == a && e.payload.GoldUnblinded?
  }

  ghost predicate Finished(l: seq<Event>, a: string) {
    exists i :: 0 <= i < |l| && Ends(l[i], a)
  }

  ghost predicate Failed(l: seq<Event>, a: string) {
    exists i :: 0 <= i < |l| && FailsForInfrastructure(l[i], a)
  }

  ghost predicate Begun(l: seq<Event>, a: string, key: PhaseKey) {
    exists i :: 0 <= i < |l| && Begins(l[i], a, key)
  }

  ghost predicate Completed(l: seq<Event>, a: string, key: PhaseKey) {
    exists i :: 0 <= i < |l| && Completes(l[i], a, key)
  }

  ghost predicate Succeeded(l: seq<Event>, a: string, phase: Phase) {
    exists i :: 0 <= i < |l| && Succeeds(l[i], a, phase)
  }

  ghost predicate Called(l: seq<Event>, a: string, callId: string) {
    exists i :: 0 <= i < |l| && Calls(l[i], a, callId)
  }

  ghost predicate CallOver(l: seq<Event>, a: string, callId: string) {
    exists i :: 0 <= i < |l| && EndsCall(l[i], a, callId)
  }

  ghost predicate CallSucceeded(l: seq<Event>, a: string, callId: string) {
    exists i :: 0 <= i < |l| && EndsCall(l[i], a, callId) && l[i].payload.callFinish.succeeded
  }

  ghost predicate CallCosted(l: seq<Event>, a: string, callId: string) {
    exists i :: 0 <= i < |l| && PricesCall(l[i], a, callId)
  }

  ghost predicate Settled(l: seq<Event>, a: string, callId: string) {
    CallOver(l, a, callId) && exists i :: 0 <= i < |l| && SettlesCall(l[i], a, callId)
  }

  ghost predicate GoldIsOut(l: seq<Event>, a: string) {
    exists i :: 0 <= i < |l| && Unblinds(l[i], a)
  }

  predicate Submits(e: Event, a: string) {
    e.attemptId == a && e.payload.CandidateSubmitted?
  }

  predicate SubmitsIn(e: Event, c: string) {
    e.caseId == c && e.payload.CandidateSubmitted?
  }

  ghost predicate HasCandidate(l: seq<Event>, a: string) {
    exists i :: 0 <= i < |l| && Submits(l[i], a)
  }

  ghost predicate CaseHasCandidate(l: seq<Event>, c: string) {
    exists i :: 0 <= i < |l| && SubmitsIn(l[i], c)
  }

  predicate CountsIn(x: Context, e: Event, c: string) {
    e.caseId == c && IsTerminal(x, e)
  }

  ghost predicate CaseIsCounted(x: Context, l: seq<Event>, c: string) {
    exists i :: 0 <= i < |l| && CountsIn(x, l[i], c)
  }

  predicate UsesEntry(e: Event, entryId: string) {
    e.payload.CostRecorded? && e.payload.cost.entryId == entryId
  }

  ghost predicate EntryIsUsed(l: seq<Event>, entryId: string) {
    exists i :: 0 <= i < |l| && UsesEntry(l[i], entryId)
  }

  /** The attempts of a case in the order they started. */
  function AttemptsIn(l: seq<Event>, c: string): seq<string> {
    if l == [] then []
    else AttemptsIn(l[..|l| - 1], c) + (if StartsIn(l[|l| - 1], c) then [l[|l| - 1].attemptId] else [])
  }

  /** How many attempts of a case started with this disposition. */
  function StartCount(l: seq<Event>, c: string, d: Disposition): nat {
    if l == [] then 0
    else
      StartCount(l[..|l| - 1], c, d)
        + (if StartsIn(l[|l| - 1], c) && l[|l| - 1].payload.start.disposition == d then 1 else 0)
  }

  // ---------------------------------------------------------------- the law

  /** The event belongs to an attempt that started in its batch and case and is still running. */
  ghost predicate InProgress(l: seq<Event>, e: Event) {
    && (exists i :: 0 <= i < |l| && Starts(l[i], e.attemptId) && l[i].batchId == e.batchId && l[i].caseId == e.caseId)
    && !Finished(l, e.attemptId)
    && (GoldIsOut(l, e.attemptId) ==> e.payload.AttemptFinished?)
  }

  predicate LawfulCampaign(x: Context, st: AttemptStart) {
    var campaign := st.freeze.campaign;
    && (x.lane.Smoke? ==> st.disposition.SmokeOnly? && campaign.tier.PublicSmoke?)
    && (x.lane.Scored? ==> !st.disposition.SmokeOnly? && campaign.tier.HistoricalScored?)
    && (campaign.approval.OfflineZeroCost? ==>
          campaign.approvalRef.None? && campaign.caseCap == 0 && campaign.campaignCap == 0)
    && (campaign.approval.ExplicitUserApproval? ==>
          campaign.approvalRef.Some? && 3 <= |campaign.approvalRef.value|)
  }

  ghost predicate PhasesAreOver(l: seq<Event>, a: string) {
    forall key :: Begun(l, a, key) ==> Completed(l, a, key)
  }

  /** A retry repeats the last attempt of its case, which failed for infrastructure and left no phase open. */
  ghost predicate LawfulRetry(l: seq<Event>, e: Event, st: AttemptStart) {
    var ids := AttemptsIn(l, e.caseId);
    && ids != [] && st.retryOf == Some(ids[|ids| - 1])
    && Failed(l, ids[|ids| - 1]) && PhasesAreOver(l, ids[|ids| - 1])
  }

  ghost predicate LawfulStart(x: Context, l: seq<Event>, e: Event, st: AttemptStart) {
    && (forall i :: 0 <= i < |l| ==> !Starts(l[i], e.attemptId))
    && !CaseIsCounted(x, l, e.caseId)
    && (forall i :: 0 <= i < |l| && StartsIn(l[i], e.caseId) ==> Finished(l, l[i].attemptId))
    && LawfulCampaign(x, st)
    && st.ordinal == |AttemptsIn(l, e.caseId)| + 1
    && (st.disposition.PrimaryScore? ==> StartCount(l, e.caseId, PrimaryScore) == 0)
    && (if st.disposition.InfrastructureRetry? then LawfulRetry(l, e, st) else st.retryOf.None?)
    && StartCount(l, e.caseId, InfrastructureRetry) + (if st.disposition.InfrastructureRetry? then 1 else 0)
         <= st.freeze.campaign.maxRetries
    && (x.lane.Scored? ==>
          forall i :: 0 <= i < |l| && l[i].payload.AttemptStarted? ==>
            l[i].batchId == e.batchId && l[i].payload.start.freeze == st.freeze)
  }

  /** Timestamps in order, and a duration within a second of them. */
  predicate LawfulInterval(i: Interval) {
    var elapsed := i.completedAt - i.startedAt;
    0 <= elapsed && elapsed - 1000 <= i.durationMs <= elapsed + 1000
  }

  predicate LawfulReservation(f: Freeze, call: CallStart) {
    && call.provider == f.generator.provider && f.generator.requestedModel == Some(call.requestedModel)
    && call.modelIdentity == f.generator.modelIdentity && call.config == f.generator.config
    && call.pricing == f.pricing
    && call.reserved <= f.campaign.caseCap && call.reserved <= f.campaign.campaignCap
    && (f.campaign.tier.PublicSmoke? ==> call.provider == "offline-fixture")
    && (f.campaign.approval.OfflineZeroCost? ==>
          call.reserved == 0 && (call.provider == "offline-fixture" || call.provider == "local-model"))
  }

  /** One call in a case, a new id, every earlier call settled, and what the campaign froze. */
  ghost predicate LawfulCall(l: seq<Event>, e: Event, call: CallStart) {
    && (forall i :: 0 <= i < |l| && l[i].payload.ModelCallStarted? ==>
          && l[i].caseId != e.caseId && l[i].payload.call.callId != call.callId
          && Settled(l, l[i].attemptId, l[i].payload.call.callId))
    && (forall i :: 0 <= i < |l| && Starts(l[i], e.attemptId) ==>
          LawfulReservation(l[i].payload.start.freeze, call))
  }

  predicate LawfulUsage(u: Usage) {
    && (u.status.Reported? || u.status.EstimatedUsage? ==>
          && u.input.Some? && u.cached.Some? && u.output.Some? && u.total.Some?
          && u.cached.value <= u.input.value && u.total.value == u.input.value + u.output.value)
    && (u.status.UnknownUsage? ==> u == Usage(UnknownUsage, None, None, None, None))
    && (u.status.NotApplicable? ==> u == Usage(NotApplicable, Some(0), Some(0), Some(0), Some(0)))
  }

  /** The amount its status asks for; with a quantity and a unit price, their product to the nearest unit. */
  predicate LawfulAmount(c: Cost) {
    && (c.status.Measured? || c.status.Estimated? ==> c.amount.Some?)
    && (c.status.ZeroVerified? ==> c.amount == Some(0))
    && (c.status.Unknown? ==> c.amount == None)
    && (if c.quantity.Some? && c.unitPrice.Some? && c.amount.Some? then
          var product := c.quantity.value * (c.unitPrice.value as real);
          (c.amount.value as real) - 0.5 <= product < (c.amount.value as real) + 0.5
        else c.status.Measured? || c.status.Estimated? ==> c.quantity.None? && c.unitPrice.None?)
  }

  /** The scored cost of a call of this attempt that is over, not priced yet, and reserved at least as much. */
  ghost predicate LawfulModelCost(l: seq<Event>, a: string, c: Cost) {
    && c.attribution.CampaignScored? && c.sourceCall.Some?
    && Called(l, a, c.sourceCall.value) && CallOver(l, a, c.sourceCall.value) && !CallCosted(l, a, c.sourceCall.value)
    && (forall i :: 0 <= i < |l| && Calls(l[i], a, c.sourceCall.value) && c.amount.Some? ==>
          c.amount.value <= l[i].payload.call.reserved)
    && (forall i :: 0 <= i < |l| && EndsCall(l[i], a, c.sourceCall.value) ==>
          MatchesUsage(c, l[i].payload.callFinish.usage))
  }

  /** A cost priced by the million tokens is for the tokens reported. */
  predicate MatchesUsage(c: Cost, u: Usage) {
    c.inMillionTokens && c.quantity.Some? && c.unitPrice.Some? && c.amount.Some? && u.total.Some? ==>
      c.quantity.value == u.total.value as real / 1_000_000.0
  }

  ghost predicate LawfulCost(l: seq<Event>, e: Event, c: Cost) {
    && !EntryIsUsed(l, c.entryId) && LawfulAmount(c)
    && (c.category.ModelInference? ==> LawfulModelCost(l, e.attemptId, c))
    && (!c.category.ModelInference? ==> c.sourceCall.None?)
    && (c.attribution.CampaignScored? && c.amount.Some? ==>
          forall i :: 0 <= i < |l| && Starts(l[i], e.attemptId) ==>
            SpendOf(l, e.caseId) + c.amount.value <= l[i].payload.start.freeze.campaign.caseCap)
  }

  ghost predicate LawfulCandidate(l: seq<Event>, e: Event, callIds: seq<string>) {
    && !CaseHasCandidate(l, e.caseId)
    && (forall n :: 0 <= n < |callIds| ==> CallSucceeded(l, e.attemptId, callIds[n]))
    && (forall i :: 0 <= i < |l| && Starts(l[i], e.attemptId) && IsRealScored(l[i].payload.start.freeze) ==>
          |callIds| == 1)
  }

  predicate IsRealScored(f: Freeze) {
    f.campaign.tier.HistoricalScored? && f.generator.provider != "offline-fixture"
  }

  /** Positions of two reviews that give this verdict. */
  ghost predicate TwoSay(rs: seq<Review>, v: Verdict) {
    exists i, k :: 0 <= i < k < |rs| && rs[i].verdict == v && rs[k].verdict == v
  }

  ghost predicate TwoPrimaries(rs: seq<Review>) {
    exists i, k :: 0 <= i < k < |rs| && rs[i].role.Primary? && rs[k].role.Primary?
  }

  /** Two primaries that disagree, and no third. */
  ghost predicate PrimariesDisagree(rs: seq<Review>) {
    exists i, k ::
      && 0 <= i < k < |rs| && rs[i].role.Primary? && rs[k].role.Primary? && rs[i].verdict != rs[k].verdict
      && forall n :: 0 <= n < |rs| && rs[n].role.Primary? ==> n == i || n == k
  }

  /**
   A review follows a candidate and, succeeded in the same attempt, the candidate policy, collection, base
   and fixed verification and causal control phases; by a new reviewer, in a role that is still open.
   */
  ghost predicate LawfulReview(l: seq<Event>, a: string, r: Review) {
    var rs := ReviewsOf(l, a);
    && HasCandidate(l, a)
    && Succeeded(l, a, CandidatePolicy) && Succeeded(l, a, Collection)
    && Succeeded(l, a, BaseVerify) && Succeeded(l, a, FixedVerify) && Succeeded(l, a, CausalControls)
    && (forall i :: 0 <= i < |rs| ==> rs[i].reviewer != r.reviewer)
    && (r.role.Primary? ==> !TwoPrimaries(rs))
    && (r.role.TieBreak? ==> PrimariesDisagree(rs))
    && (r.verdict.Valid? ==> r.rubricMet)
  }

  ghost predicate LawfulGold(l: seq<Event>, a: string, committed: string) {
    var rs := ReviewsOf(l, a);
    && Succeeded(l, a, SemanticReview)
    && (|rs| == 2 || |rs| == 3) && (TwoSay(rs, Valid) || TwoSay(rs, Invalid))
    && committed == rs[|rs| - 1].hash
  }

  /** Which claim an outcome may make. */
  predicate LawfulClaim(o: Outcome, c: Claim) {
    match c
    case L2 => o.SemanticValid?
    case L1 => o.PlausibleSemanticInvalid?
    case L0 => o.FailOnFix? || o.FlakyFix?
    case Rejected => !o.SemanticValid? && !o.PlausibleSemanticInvalid? && !o.FailOnFix? && !o.FlakyFix?
  }

  predicate LawfulDisposition(x: Context, f: Finish) {
    if x.lane.Smoke? then f.disposition.NonScoring? && f.resultRow.None?
    else if f.outcome.BenchmarkInfrastructureError? then f.disposition.RetriableInfrastructure? && f.resultRow.None?
    else f.disposition.Counted? && f.resultRow.Some?
  }

  ghost predicate LawfulFinish(x: Context, l: seq<Event>, e: Event, f: Finish) {
    var rs := ReviewsOf(l, e.attemptId);
    && LawfulClaim(f.outcome, f.claim) && (f.plausible <==> f.claim.L1? || f.claim.L2?)
    && LawfulDisposition(x, f)
    && (IsTerminal(x, e) ==> !CaseIsCounted(x, l, e.caseId))
    && (!f.claim.Rejected? ==> CaseHasCandidate(l, e.caseId))
    && (f.claim.L1? || f.claim.L2? ==> GoldIsOut(l, e.attemptId))
    && (f.outcome.SemanticValid? ==> TwoSay(rs, Valid))
    && (f.outcome.PlausibleSemanticInvalid? ==> TwoSay(rs, Invalid))
    && (forall i :: 0 <= i < |l| && Starts(l[i], e.attemptId) ==> l[i].recordedAt <= f.completedAt)
  }

  /** What may happen next. */
  ghost predicate Lawful(x: Context, l: seq<Event>, e: Event) {
    && e.caseId in x.knownCases && (x.lane.Smoke? ==> e.caseId in x.smokeCases)
    && (!e.payload.AttemptStarted? ==> InProgress(l, e))
    && match e.payload
       case AttemptStarted(st) => LawfulStart(x, l, e, st)
       case PhaseStarted(key, _) => !Begun(l, e.attemptId, key)
       case PhaseFinished(key, f) =>
         && (exists i :: 0 <= i < |l| && Begins(l[i], e.attemptId, key)
                         && l[i].payload.startedAt == f.interval.startedAt)
         && !Completed(l, e.attemptId, key) && LawfulInterval(f.interval)
       case ModelCallStarted(call) => LawfulCall(l, e, call)
       case ModelCallFinished(id, f) =>
         && Called(l, e.attemptId, id) && !CallOver(l, e.attemptId, id)
         && LawfulInterval(f.interval) && LawfulUsage(f.usage)
       case CostRecorded(c) => LawfulCost(l, e, c)
       case CandidateSubmitted(_, callIds) => LawfulCandidate(l, e, callIds)
       case ReviewRecorded(r) => LawfulReview(l, e.attemptId, r)
       case GoldUnblinded(committed) => LawfulGold(l, e.attemptId, committed)
       case AttemptFinished(f) => LawfulFinish(x, l, e, f)
  }

  ghost predicate AllLawful(x: Context, l: seq<Event>) {
    forall j :: 0 <= j < |l| ==> Lawful(x, l[..j], l[j])
  }

  predicate IsFirstStart(l: seq<Event>, i: nat)
    requires i < |l|
  {
    l[i].payload.AttemptStarted? && forall k :: 0 <= k < i ==> !l[k].payload.AttemptStarted?
  }

  /** All scored amounts of the ledger stay within the campaign cap of its first attempt. */
  ghost predicate WithinCampaignCap(l: seq<Event>) {
    forall i :: 0 <= i < |l| && IsFirstStart(l, i) ==>
      TotalSpend(SCORED, l) <= l[i].payload.start.freeze.campaign.campaignCap
  }
}

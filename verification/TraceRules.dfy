/**
 The validator's rules as the script writes them out: each `_validate_…` helper looks at its event and the
 records it touches, loops where the script loops, and appends to an error list in the script's order.
 */
module TraceRules {
  import opened Wrappers
  import opened Trace

  /** Appends an error when something is wrong. */
  method Note(found: seq<Fault>, wrong: bool, f: Fault) returns (more: seq<Fault>)
    ensures more == found + Require(!wrong, f)
    ensures found == [] ==> more == Require(!wrong, f)
  {
    more := found;
    if wrong { more := more + [f]; }
  }

  // ---------------------------------------------------------------- opening an attempt

  method CountAttempts(attempts: map<string, AttemptState>, ids: seq<string>, d: Disposition) returns (n: nat)
    ensures n == CountDisposition(attempts, ids, d)
  {
    n := 0;
    for i := 0 to |ids|
      invariant n == CountDisposition(attempts, ids[..i], d)
    {
      assert ids[..i + 1][..i] == ids[..i];
      if ids[i] in attempts && attempts[ids[i]].start.disposition == d { n := n + 1; }
    }
    assert ids[..|ids|] == ids;
  }

  method OpeningErrors(s: State, case_: CaseState, start: AttemptStart) returns (found: seq<Fault>)
    ensures found == OpeningFaults(s, case_, start)
  {
    found := [];
    if case_.countedFinish.Some? { found := found + [CaseAlreadyCounted]; }
    var primaries := CountAttempts(s.attempts, case_.attemptIds, PrimaryScore);
    if start.disposition.PrimaryScore? && primaries != 0 { found := found + [SecondPrimary]; }
    var finished := true;
    for i := 0 to |case_.attemptIds|
      invariant finished <==> AllFinished(s.attempts, case_.attemptIds[..i])
    {
      var id := case_.attemptIds[i];
      if id !in s.attempts || s.attempts[id].finished.None? {
        finished := false;
        assert case_.attemptIds[..i + 1][i] == id;
      }
    }
    assert case_.attemptIds[..|case_.attemptIds|] == case_.attemptIds;
    if !finished { found := found + [AttemptStillOpen]; }
  }

  method CampaignErrors(x: Context, start: AttemptStart) returns (found: seq<Fault>)
    ensures found == CampaignFaults(x, start)
  {
    hide Require;
    var campaign := start.freeze.campaign;
    if x.lane.Smoke? {
      found := Note([], !start.disposition.SmokeOnly?, WrongDisposition);
      found := Note(found, !campaign.tier.PublicSmoke?, WrongTier);
    } else {
      found := Note([], start.disposition.SmokeOnly?, WrongDisposition);
      found := Note(found, !campaign.tier.HistoricalScored?, WrongTier);
    }
    var approval := [];
    match campaign.approval {
      case OfflineZeroCost =>
        approval := Note([], campaign.approvalRef.Some?, ZeroCostCitesApproval);
        approval := Note(approval, campaign.caseCap != 0 || campaign.campaignCap != 0, ZeroCostNeedsZeroCaps);
      case ExplicitUserApproval =>
        approval := Note([], campaign.approvalRef.None? || |campaign.approvalRef.value| < 3, PaidNeedsReference);
    }
    found := found + approval;
  }

  method RetryErrors(e: Event, start: AttemptStart, case_: CaseState, attempts: map<string, AttemptState>)
    returns (found: seq<Fault>)
    ensures found == RetryFaults(e, start, case_, attempts)
  {
    if start.retryOf.None? || start.retryOf.value !in attempts { return [RetryLinksNothing]; }
    found := [];
    var ids, prior := case_.attemptIds, attempts[start.retryOf.value];
    if ids == [] || ids[|ids| - 1] != start.retryOf.value { found := found + [RetryChainBroken]; }
    if prior.caseId != e.caseId || prior.finished.None? || !prior.finished.value.outcome.BenchmarkInfrastructureError? {
      found := found + [OnlyInfrastructureIsRetried];
    }
    if prior.phaseStarts.Keys != prior.phaseFinishes.Keys { found := found + [RetryAfterUnknownPhaseTime]; }
    if prior.candidate.Some? && case_.candidate != prior.candidate { found := found + [RetryMustReuseCandidate]; }
  }

  /** `attempts` already holds the new attempt, the case not yet its id. */
  method OrderErrors(e: Event, start: AttemptStart, case_: CaseState, attempts: map<string, AttemptState>)
    returns (found: seq<Fault>)
    ensures found == OrderFaults(e, start, case_, attempts)
  {
    hide RetryFaults, CountDisposition;
    found := [];
    if start.ordinal != |case_.attemptIds| + 1 { found := found + [OrdinalNotContiguous]; }
    if start.disposition.InfrastructureRetry? {
      var retry := RetryErrors(e, start, case_, attempts);
      found := found + retry;
    } else if start.retryOf.Some? {
      found := found + [UnexpectedRetryOf];
    }
    var retries := CountAttempts(attempts, case_.attemptIds + [e.attemptId], InfrastructureRetry);
    if retries > start.freeze.campaign.maxRetries { found := found + [TooManyRetries]; }
  }

  method BatchErrors(s: State, batchId: string, f: Freeze) returns (found: seq<Fault>)
    ensures found == BatchFaults(s, batchId, f)
  {
    found := [];
    if s.batch.Some? && batchId != s.batch.value { found := found + [SecondBatch]; }
    if s.freeze.Some? && f != s.freeze.value { found := found + [FreezeDrifted]; }
  }

  // ---------------------------------------------------------------- model calls

  lemma {:induction false} SettledMeans(t: AttemptState, p: string)
    ensures CallIsSettled(t, p) ==
            (p in t.callFinishes && p in t.callCosts
             && (t.callCosts[p].status.Measured? || t.callCosts[p].status.ZeroVerified?))
  {
  }

  function OpenCalls(t: AttemptState): set<string> {
    set p | p in t.callStarts && !CallIsSettled(t, p)
  }

  /** The inner loop, over the calls of one attempt. */
  method CountOpenCalls(t: AttemptState) returns (n: nat)
    ensures n == |OpenCalls(t)|
  {
    hide CallIsSettled;
    n := 0;
    ghost var seen: set<string> := {};
    var left := t.callStarts.Keys;
    while left != {}
      invariant left <= t.callStarts.Keys && n == |seen|
      invariant seen == set p | p in t.callStarts && p !in left && !CallIsSettled(t, p)
    {
      var p :| p in left;
      left := left - {p};
      SettledMeans(t, p);
      if !(p in t.callFinishes && p in t.callCosts
           && (t.callCosts[p].status.Measured? || t.callCosts[p].status.ZeroVerified?))
      {
        n := n + 1;
        seen := seen + {p};
      }
    }
    assert seen == OpenCalls(t);
  }

  /** The open calls of some of the attempts. */
  function OpenCallsIn(attempts: map<string, AttemptState>, ids: set<string>): set<(string, string)> {
    set a, p | a in ids && a in attempts && p in OpenCalls(attempts[a]) :: (a, p)
  }

  lemma {:induction false} PairsCount(a: string, ps: set<string>)
    ensures |set p | p in ps :: (a, p)| == |ps|
  {
    if ps != {} {
      var p :| p in ps;
      PairsCount(a, ps - {p});
      assert (set q | q in ps :: (a, q)) == (set q | q in ps - {p} :: (a, q)) + {(a, p)};
    }
  }

  lemma {:induction false} OneMoreAttempt(attempts: map<string, AttemptState>, ids: set<string>, a: string)
    requires a in attempts && a !in ids
    ensures |OpenCallsIn(attempts, ids + {a})| == |OpenCallsIn(attempts, ids)| + |OpenCalls(attempts[a])|
  {
    hide OpenCalls;
    var old_, new_ := OpenCallsIn(attempts, ids), set p | p in OpenCalls(attempts[a]) :: (a, p);
    PairsCount(a, OpenCalls(attempts[a]));
    assert OpenCallsIn(attempts, ids + {a}) == old_ + new_;
    assert old_ !! new_;
  }

  /** One error for every earlier call of any attempt that is not settled. */
  method UnresolvedErrors(attempts: map<string, AttemptState>) returns (found: seq<Fault>)
    ensures found == Repeated(UnresolvedCall, |UnresolvedCalls(attempts)|)
  {
    hide OpenCallsIn, OpenCalls;
    found := [];
    var left := attempts.Keys;
    NothingOpen(attempts);
    assert attempts.Keys - left == {};
    while left != {}
      invariant left <= attempts.Keys
      invariant found == Repeated(UnresolvedCall, |OpenCallsIn(attempts, attempts.Keys - left)|)
    {
      var a :| a in left;
      var n := CountOpenCalls(attempts[a]);
      OneMoreAttempt(attempts, attempts.Keys - left, a);
      assert attempts.Keys - left + {a} == attempts.Keys - (left - {a});
      RepeatedAdds(UnresolvedCall, |found|, n);
      found := found + Repeated(UnresolvedCall, n);
      left := left - {a};
    }
    assert attempts.Keys - left == attempts.Keys;
    AllOpenCalls(attempts);
  }

  lemma {:induction false} NothingOpen(attempts: map<string, AttemptState>)
    ensures OpenCallsIn(attempts, {}) == {}
  {
  }

  lemma {:induction false} AllOpenCalls(attempts: map<string, AttemptState>)
    ensures OpenCallsIn(attempts, attempts.Keys) == UnresolvedCalls(attempts)
  {
    hide CallIsSettled;
  }

  lemma {:induction false} RepeatedAdds(f: Fault, m: nat, n: nat)
    ensures Repeated(f, m) + Repeated(f, n) == Repeated(f, m + n)
  {
  }

  method ReservationErrors(f: Freeze, call: CallStart) returns (found: seq<Fault>)
    ensures found == ReservationFaults(f, call)
  {
    hide Require;
    found := Note([], call.provider != f.generator.provider || Some(call.requestedModel) != f.generator.requestedModel
                      || call.modelIdentity != f.generator.modelIdentity || call.config != f.generator.config
                      || call.pricing != f.pricing, CallDrifted);
    found := Note(found, call.reserved > f.campaign.caseCap, OverCaseCap);
    found := Note(found, call.reserved > f.campaign.campaignCap, OverCampaignCap);
    found := Note(found, f.campaign.tier.PublicSmoke? && call.provider != OFFLINE_FIXTURE, SmokeNeedsFixture);
    if f.campaign.approval.OfflineZeroCost? {
      var offline := Note([], call.reserved != 0, PaidCallNotAuthorized);
      offline := Note(offline, call.provider != OFFLINE_FIXTURE && call.provider != LOCAL_MODEL, OnlineProvider);
      found := found + offline;
    }
  }

  // ---------------------------------------------------------------- phases, intervals and usage

  method IntervalErrors(i: Interval) returns (found: seq<Fault>)
    ensures found == IntervalFaults(i)
  {
    found := Note([], i.completedAt < i.startedAt, CompletedBeforeItStarted);
    var gap := i.completedAt - i.startedAt - i.durationMs;
    found := Note(found, gap > 1000 || gap < -1000, DurationDisagrees);
  }

  method PhaseErrors(t: AttemptState, key: PhaseKey, f: PhaseFinish) returns (found: seq<Fault>)
    ensures found == PhaseFaults(t, key, f)
  {
    hide IntervalFaults, Require;
    found := Note([], key !in t.phaseStarts, PhaseWithoutStart);
    found := Note(found, key in t.phaseStarts && t.phaseStarts[key] != f.interval.startedAt, PhaseStartChanged);
    found := Note(found, key in t.phaseFinishes, DuplicatePhaseFinish);
    var timing := IntervalErrors(f.interval);
    found := found + timing;
  }

  method UsageErrors(u: Usage) returns (found: seq<Fault>)
    ensures found == UsageFaults(u)
  {
    found := [];
    match u.status
    case UnknownUsage =>
      if u.input.Some? || u.cached.Some? || u.output.Some? || u.total.Some? { found := [UnknownUsageHasCounts]; }
    case NotApplicable =>
      if u.input != Some(0) || u.cached != Some(0) || u.output != Some(0) || u.total != Some(0) {
        found := [NotApplicableIsNotZero];
      }
    case _ =>
      if u.input.None? || u.cached.None? || u.output.None? || u.total.None? {
        found := [KnownUsageNeedsCounts];
      } else {
        if u.cached.value > u.input.value { found := found + [CachedExceedsInput]; }
        if u.total.value != u.input.value + u.output.value { found := found + [TotalIsNotTheSum]; }
      }
  }

  // ---------------------------------------------------------------- costs

  method AmountErrors(c: Cost) returns (found: seq<Fault>)
    ensures found == AmountFaults(c) + PriceFaults(c)
  {
    found := [];
    if c.status.Measured? || c.status.Estimated? {
      if c.amount.None? { found := found + [KnownCostNeedsAmount]; }
    } else if c.status.ZeroVerified? {
      if c.amount != Some(0) { found := found + [ZeroCostNeedsZero]; }
    } else if c.amount.Some? {
      found := found + [UnknownCostHasAmount];
    }
    if c.quantity.Some? && c.unitPrice.Some? && c.amount.Some? {
      var calculated := RoundHalfUp(c.quantity.value * (c.unitPrice.value as real));
      if calculated != c.amount.value { found := found + [CostIsNotQuantityTimesPrice]; }
    } else if (c.status.Measured? || c.status.Estimated?) && (c.quantity.Some? || c.unitPrice.Some?) {
      found := found + [HalfPriced];
    }
  }

  method ModelCostErrors(s: State, a: string, t: AttemptState, c: Cost) returns (found: seq<Fault>)
    ensures found == ModelCostFaults(s, a, t, c)
  {
    hide Require;
    found := Note([], !c.attribution.CampaignScored?, ModelCostNotScored);
    if c.sourceCall.None? {
      found := Note(found, true, ModelCostWithoutCall);
      found := Note(found, !c.status.ZeroVerified? || c.amount != Some(0) || t.callStarts != map[],
                    ModelCostNotVerifiedZero);
      return;
    }
    var call := c.sourceCall.value;
    found := Note(found, call !in s.callOwner || s.callOwner[call] != a, ModelCostWithoutCall);
    var own := Note([], call !in t.callFinishes, ModelCostBeforeFinish);
    own := Note(own, call in t.callCosts, SecondModelCost);
    own := Note(own, call in t.callStarts && c.amount.Some? && c.amount.value > t.callStarts[call].reserved,
                CostOverReservation);
    var differs := false;
    if call in t.callFinishes && c.inMillionTokens && IsPriced(c) && t.callFinishes[call].usage.total.Some? {
      differs := c.quantity.value != t.callFinishes[call].usage.total.value as real / 1_000_000.0;
    }
    own := Note(own, differs, QuantityIsNotUsage);
    found := found + own;
  }

  // ---------------------------------------------------------------- candidates and reviews

  method CandidateErrors(t: AttemptState, case_: CaseState, callIds: seq<string>) returns (found: seq<Fault>)
    ensures found == CandidateFaults(t, case_, callIds)
  {
    found := [];
    if t.candidate.Some? { found := found + [SecondCandidate]; }
    if case_.candidate.Some? { found := found + [SecondCandidateOfCase]; }
    var own := true;
    for i := 0 to |callIds|
      invariant own <==> forall j :: 0 <= j < i ==> callIds[j] in t.callFinishes && t.callFinishes[callIds[j]].succeeded
    {
      if callIds[i] !in t.callFinishes || !t.callFinishes[callIds[i]].succeeded { own := false; }
    }
    if !own { found := found + [ForeignCall]; }
    if t.start.freeze.campaign.tier.HistoricalScored? && t.start.freeze.generator.provider != OFFLINE_FIXTURE
       && |callIds| != 1 {
      found := found + [CandidateNeedsItsCall];
    }
  }

  method HasSucceeded(t: AttemptState, phase: Phase) returns (yes: bool)
    ensures yes == PhaseSucceeded(t, phase)
  {
    var left := t.phaseFinishes.Keys;
    while left != {}
      invariant left <= t.phaseFinishes.Keys
      invariant forall k :: k in t.phaseFinishes && k !in left ==> !(k.phase == phase && t.phaseFinishes[k].succeeded)
    {
      var k :| k in left;
      if k.phase == phase && t.phaseFinishes[k].succeeded { return true; }
      left := left - {k};
    }
    return false;
  }

  method EvidenceIsComplete(t: AttemptState) returns (yes: bool)
    ensures yes == forall p | p in EVIDENCE :: PhaseSucceeded(t, p)
  {
    hide PhaseSucceeded;
    yes := true;
    var left := EVIDENCE;
    while left != {}
      invariant left <= EVIDENCE
      invariant yes <==> forall p :: p in EVIDENCE && p !in left ==> PhaseSucceeded(t, p)
    {
      var p :| p in left;
      left := left - {p};
      var done := HasSucceeded(t, p);
      yes := yes && done;
    }
  }

  method PrimariesOf(reviews: seq<Review>) returns (primaries: seq<Review>)
    ensures primaries == Primaries(reviews)
  {
    primaries := [];
    for i := 0 to |reviews|
      invariant primaries == Primaries(reviews[..i])
    {
      assert reviews[..i + 1][..i] == reviews[..i];
      if reviews[i].role.Primary? { primaries := primaries + [reviews[i]]; }
    }
    assert reviews[..|reviews|] == reviews;
  }

  method CountVotes(reviews: seq<Review>) returns (valid: nat, invalid: nat)
    ensures valid == Votes(reviews, Valid) && invalid == Votes(reviews, Invalid)
  {
    valid, invalid := 0, 0;
    for i := 0 to |reviews|
      invariant valid == Votes(reviews[..i], Valid) && invalid == Votes(reviews[..i], Invalid)
    {
      assert reviews[..i + 1][..i] == reviews[..i];
      if reviews[i].verdict.Valid? { valid := valid + 1; } else { invalid := invalid + 1; }
    }
    assert reviews[..|reviews|] == reviews;
  }

  method ReviewErrors(t: AttemptState, r: Review) returns (found: seq<Fault>)
    ensures found == ReviewFaults(t, r)
  {
    hide PhaseSucceeded, Primaries, Require;
    found := Note([], t.candidate.None?, ReviewWithoutCandidate);
    var complete := EvidenceIsComplete(t);
    found := Note(found, !complete, ReviewWithoutEvidence);
    var seenBefore := false;
    for i := 0 to |t.reviews|
      invariant seenBefore <==> exists j :: 0 <= j < i && t.reviews[j].reviewer == r.reviewer
    {
      if t.reviews[i].reviewer == r.reviewer { seenBefore := true; }
    }
    found := Note(found, seenBefore, DuplicateReviewer);
    var primaries := PrimariesOf(t.reviews);
    if r.role.Primary? {
      found := Note(found, |primaries| >= 2, TooManyPrimaries);
    } else {
      found := Note(found, |primaries| != 2 || primaries[0].verdict == primaries[1].verdict,
                    TieBreakWithoutDisagreement);
    }
    if r.verdict.Valid? { found := Note(found, !r.rubricMet, RubricNotMet); }
  }

  method GoldErrors(t: AttemptState, committed: string) returns (found: seq<Fault>)
    ensures found == GoldFaults(t, committed)
  {
    hide PhaseSucceeded, Votes;
    found := [];
    var reviewed := HasSucceeded(t, SemanticReview);
    if !reviewed { found := found + [GoldWithoutReviewPhase]; }
    if |t.reviews| != 2 && |t.reviews| != 3 { found := found + [GoldWithoutVerdict]; }
    var valid, invalid := CountVotes(t.reviews);
    if valid < 2 && invalid < 2 { found := found + [GoldWithoutMajority]; }
    if t.reviews != [] && committed != t.reviews[|t.reviews| - 1].hash { found := found + [GoldCommitsWrongReview]; }
  }

  // ---------------------------------------------------------------- finishing an attempt

  method ClaimFor(o: Outcome) returns (claim: Claim)
    ensures claim == ExpectedClaim(o)
  {
    claim := Rejected;
    if o.FailOnFix? || o.FlakyFix? {
      claim := L0;
    } else if o.PlausibleSemanticInvalid? {
      claim := L1;
    } else if o.SemanticValid? {
      claim := L2;
    }
  }

  method OutcomeErrors(x: Context, case_: CaseState, f: Finish) returns (found: seq<Fault>)
    ensures found == OutcomeFaults(x, case_, f)
  {
    hide Require, ExpectedClaim;
    var expected := ClaimFor(f.outcome);
    found := Note([], f.claim != expected, ClaimIncoherent);
    found := Note(found, f.plausible != (f.claim.L1? || f.claim.L2?), PlausibleIncoherent);
    var laneErrors := [];
    if x.lane.Smoke? {
      laneErrors := Note([], !f.disposition.NonScoring?, SmokeIsScored);
      laneErrors := Note(laneErrors, f.resultRow.Some?, SmokeHasRow);
    } else if f.outcome.BenchmarkInfrastructureError? {
      laneErrors := Note([], !f.disposition.RetriableInfrastructure?, InfrastructureMustStayRetriable);
      laneErrors := Note(laneErrors, f.resultRow.Some?, RetryHasRow);
    } else {
      laneErrors := Note([], !f.disposition.Counted?, MustBeCounted);
      laneErrors := Note(laneErrors, f.resultRow.None?, CountedNeedsRow);
      laneErrors := Note(laneErrors, case_.countedFinish.Some?, SecondCountedFinish);
    }
    found := found + laneErrors;
  }

  /** The rules after the counted finish is set. */
  method VerdictErrors(t: AttemptState, case_: CaseState, f: Finish) returns (found: seq<Fault>)
    ensures found == VerdictFaults(t, case_, f)
  {
    hide Votes;
    found := [];
    if !f.claim.Rejected? && case_.candidate.None? { found := found + [ClaimWithoutCandidate]; }
    if (f.claim.L1? || f.claim.L2?) && t.gold.None? { found := found + [VerdictWithoutGold]; }
    var valid, invalid := CountVotes(t.reviews);
    if f.outcome.SemanticValid? {
      if valid < 2 { found := found + [ValidWithoutMajority]; }
    } else if f.outcome.PlausibleSemanticInvalid? && invalid < 2 {
      found := found + [InvalidWithoutMajority];
    }
    if f.completedAt < t.startedAt { found := found + [CompletedBeforeStart]; }
  }
}

/**
 The offline validator as the script runs it: one loop that updates dictionaries and appends to a shared
 error list, proved against the fold in Trace.
 */
module TraceValidator {
  import opened Wrappers
  import opened Trace
  import opened TraceRules

  /** Creating the case first changes none of the rules: an absent case is judged as an empty one. */
  lemma {:induction false} CaseMadeFirst(x: Context, s: State, e: Event)
    ensures e.payload.AttemptStarted? ==>
              StartFaults(x, WithCase(s, e.caseId), e, e.payload.start) == StartFaults(x, s, e, e.payload.start)
    ensures forall t, c :: PayloadFaults(x, WithCase(s, e.caseId), e, t, c) == PayloadFaults(x, s, e, t, c)
  {
    hide CampaignFaults, OrderFaults, AmountFaults, CandidateFaults, ReviewFaults, GoldFaults, FinishFaults,
         ReservationFaults;
  }

  lemma {:induction false} AfterCall(x: Context, s: State, e: Event, call: CallStart)
    requires e.payload == ModelCallStarted(call) && e.caseId in s.cases && e.attemptId in s.attempts
    ensures var t, c := s.attempts[e.attemptId], s.cases[e.caseId];
            AfterPayload(x, s, e) == s.(attempts :=
                                        s.attempts[e.attemptId := t.(callStarts := t.callStarts[call.callId := call])],
                                        cases := s.cases[e.caseId := c.(callIds := c.callIds + [call.callId])],
                                        callOwner := s.callOwner[call.callId := e.attemptId])
  {
  }

  lemma {:induction false} AfterCost(x: Context, s: State, e: Event, cost: Cost)
    requires e.payload == CostRecorded(cost) && e.caseId in s.cases && e.attemptId in s.attempts
    ensures var t, c := s.attempts[e.attemptId], s.cases[e.caseId];
            AfterPayload(x, s, e) == s.(attempts := s.attempts[e.attemptId := AttemptAfter(e, t)],
                                        cases := s.cases[e.caseId :=
                                                         c.(scoredCost := c.scoredCost + ScoredAmount(cost))],
                                        entryIds := s.entryIds + {cost.entryId})
  {
    hide AttemptAfter;
  }

  /** The rules judged after the counted finish is set do not read it. */
  lemma {:induction false} CountingSparesVerdicts(t: AttemptState, c: CaseState, c': CaseState, f: Finish)
    requires c'.candidate == c.candidate
    ensures VerdictFaults(t, c', f) == VerdictFaults(t, c, f)
  {
  }

  class EventLedgerValidator {
    const context: Context
    var attempts: map<string, AttemptState>
    var attemptOrder: seq<string>
    var cases: map<string, CaseState>
    var caseOrder: seq<string>
    var callOwner: map<string, string>
    var entryIds: set<string>
    var batch: Option<string>
    var freeze: Option<Freeze>
    var errors: seq<Fault>

    constructor (context: Context)
      ensures this.context == context && Snapshot() == Initial() && errors == []
    {
      this.context := context;
      attempts, attemptOrder, cases, caseOrder := map[], [], map[], [];
      callOwner, entryIds, batch, freeze, errors := map[], {}, None, None, [];
    }

    function Snapshot(): State
      reads this
    {
      State(attempts, attemptOrder, cases, caseOrder, callOwner, entryIds, batch, freeze)
    }

    /** The whole ledger: the index the validator returns and every error it prints. */
    method Validate(events: seq<Event>)
      requires Snapshot() == Initial() && errors == []
      modifies this
      ensures Snapshot() == Run(context, events)
      ensures errors == RunFaults(context, events) + CampaignCostFaults(Run(context, events))
      ensures errors == [] <==> Accepted(context, events)
    {
      hide Next, Faults;
      for i := 0 to |events|
        invariant Snapshot() == Run(context, events[..i])
        invariant errors == RunFaults(context, events[..i])
      {
        assert events[..i + 1][..i] == events[..i];
        ReadEvent(events[i]);
      }
      assert events[..|events|] == events;
      var total := 0;
      for i := 0 to |caseOrder|
        invariant total == CaseCosts(Snapshot(), caseOrder[..i])
        invariant Snapshot() == Run(context, events) && errors == RunFaults(context, events)
      {
        assert caseOrder[..i + 1][..i] == caseOrder[..i];
        if caseOrder[i] in cases { total := total + cases[caseOrder[i]].scoredCost; }
      }
      assert caseOrder[..|caseOrder|] == caseOrder;
      if attemptOrder != [] && attemptOrder[0] in attempts {
        errors := errors + Require(total <= attempts[attemptOrder[0]].start.freeze.campaign.campaignCap,
                                   CampaignCostOverCap);
      }
    }

    /** One pass of the loop. */
    method ReadEvent(e: Event)
      modifies this
      ensures Snapshot() == Next(context, old(Snapshot()), e)
      ensures errors == old(errors) + Faults(context, old(Snapshot()), e)
    {
      hide StartFaults, PayloadFaults, AttemptAfter, CaseAfter, AfterStart, AfterPayload;
      if e.caseId !in context.knownCases {
        errors := errors + [UnknownCase];
        return;
      }
      var found := Require(context.lane.Scored? || e.caseId in context.smokeCases, NotASmokeCase);
      ghost var before := Snapshot();
      if e.caseId !in cases {
        cases := cases[e.caseId := NEW_CASE];
        caseOrder := caseOrder + [e.caseId];
      }
      assert Snapshot() == WithCase(before, e.caseId) && CaseOf(before, e.caseId) == cases[e.caseId];
      if e.payload.AttemptStarted? {
        if e.attemptId in attempts {
          errors := errors + (found + [DuplicateStart]);
        } else {
          var faults := StartAttempt(e, e.payload.start);
          CaseMadeFirst(context, before, e);
          errors := errors + (found + faults);
        }
        return;
      }
      if e.attemptId !in attempts {
        errors := errors + (found + [NoStart]);
        return;
      }
      var attempt := attempts[e.attemptId];
      var identity := Require(attempt.caseId == e.caseId && attempt.batchId == e.batchId, IdentityChanged);
      if attempt.finished.Some? {
        errors := errors + (found + (identity + [AfterFinish]));
      } else if attempt.gold.Some? && !e.payload.AttemptFinished? {
        errors := errors + (found + (identity + [AfterGold]));
      } else {
        var faults := ReadPayload(e);
        CaseMadeFirst(context, before, e);
        errors := errors + (found + (identity + faults));
      }
    }

    method StartAttempt(e: Event, start: AttemptStart) returns (found: seq<Fault>)
      requires e.payload == AttemptStarted(start) && e.attemptId !in attempts && e.caseId in cases
      modifies this
      ensures Snapshot() == AfterStart(context, old(Snapshot()), e, start) && errors == old(errors)
      ensures found == StartFaults(context, old(Snapshot()), e, start)
    {
      hide OpeningFaults, CampaignFaults, OrderFaults;
      var case_ := cases[e.caseId];
      found := OpeningErrors(Snapshot(), case_, start);
      attempts := attempts[e.attemptId := NewAttempt(e, start)];
      attemptOrder := attemptOrder + [e.attemptId];
      cases := cases[e.caseId := case_.(attemptIds := case_.attemptIds + [e.attemptId])];
      var more := CampaignErrors(context, start);
      found := found + more;
      more := OrderErrors(e, start, case_, attempts);
      found := found + more;
      if context.lane.Scored? {
        more := BatchErrors(Snapshot(), e.batchId, start.freeze);
        found := found + more;
        if batch.None? { batch := Some(e.batchId); }
        if freeze.None? { freeze := Some(start.freeze); }
      }
    }

    method ReadPayload(e: Event) returns (found: seq<Fault>)
      requires !e.payload.AttemptStarted? && e.caseId in cases && e.attemptId in attempts
      modifies this
      ensures Snapshot() == AfterPayload(context, old(Snapshot()), e) && errors == old(errors)
      ensures found == PayloadFaults(context, old(Snapshot()), e, old(attempts[e.attemptId]), old(cases[e.caseId]))
    {
      match e.payload
      case ModelCallStarted(call) =>
        found := StartCall(e, call);
      case CostRecorded(cost) =>
        found := RecordCost(e, cost);
      case CandidateSubmitted(_, _) =>
        found := SubmitCandidate(e);
      case AttemptFinished(finish) =>
        found := FinishAttempt(e, finish);
      case AttemptStarted(_) =>
        assert false;
      case PhaseStarted(_, _) =>
        found := ReadAttemptEvent(e);
      case PhaseFinished(_, _) =>
        found := ReadAttemptEvent(e);
      case ModelCallFinished(_, _) =>
        found := ReadAttemptEvent(e);
      case ReviewRecorded(_) =>
        found := ReadAttemptEvent(e);
      case GoldUnblinded(_) =>
        found := ReadAttemptEvent(e);
    }

    /** Events that touch only their attempt. */
    method ReadAttemptEvent(e: Event) returns (found: seq<Fault>)
      requires e.payload.PhaseStarted? || e.payload.PhaseFinished? || e.payload.ModelCallFinished?
            || e.payload.ReviewRecorded? || e.payload.GoldUnblinded?
      requires e.caseId in cases && e.attemptId in attempts
      modifies this
      ensures Snapshot() == AfterPayload(context, old(Snapshot()), e) && errors == old(errors)
      ensures found == PayloadFaults(context, old(Snapshot()), e, old(attempts[e.attemptId]), old(cases[e.caseId]))
    {
      hide ReviewFaults, GoldFaults, FinishFaults, CostFaults, CallFaults, CandidateFaults, UsageFaults, IntervalFaults,
           PhaseFaults;
      var attempt := attempts[e.attemptId];
      found := [];
      match e.payload {
        case PhaseStarted(key, at) =>
          found := Note([], key in attempt.phaseStarts, DuplicatePhaseStart);
          attempt := attempt.(phaseStarts := attempt.phaseStarts[key := at]);
        case PhaseFinished(key, finish) =>
          found := PhaseErrors(attempt, key, finish);
          attempt := attempt.(phaseFinishes := attempt.phaseFinishes[key := finish]);
        case ModelCallFinished(id, finish) =>
          found := found + Require(id in callOwner && callOwner[id] == e.attemptId, CallFinishWithoutStart);
          found := found + Require(id !in attempt.callFinishes, DuplicateCallFinish);
          var timing := IntervalErrors(finish.interval);
          found := found + timing;
          var usage := UsageErrors(finish.usage);
          found := found + usage;
          attempt := attempt.(callFinishes := attempt.callFinishes[id := finish]);
        case ReviewRecorded(review) =>
          found := ReviewErrors(attempt, review);
          attempt := attempt.(reviews := attempt.reviews + [review]);
        case GoldUnblinded(committed) =>
          found := GoldErrors(attempt, committed);
          attempt := attempt.(gold := Some(committed));
      }
      attempts := attempts[e.attemptId := attempt];
      assert cases == old(cases)[e.caseId := old(cases)[e.caseId]];
    }

    method StartCall(e: Event, call: CallStart) returns (found: seq<Fault>)
      requires e.payload == ModelCallStarted(call) && e.caseId in cases && e.attemptId in attempts
      modifies this
      ensures Snapshot() == AfterPayload(context, old(Snapshot()), e) && errors == old(errors)
      ensures found == PayloadFaults(context, old(Snapshot()), e, old(attempts[e.attemptId]), old(cases[e.caseId]))
    {
      hide ReservationFaults, UnresolvedCalls, Repeated, AfterPayload;
      AfterCall(context, Snapshot(), e, call);
      var attempt, case_ := attempts[e.attemptId], cases[e.caseId];
      found := UnresolvedErrors(attempts);
      found := found + Require(call.callId !in callOwner, DuplicateCall);
      callOwner := callOwner[call.callId := e.attemptId];
      attempts := attempts[e.attemptId := attempt.(callStarts := attempt.callStarts[call.callId := call])];
      case_ := case_.(callIds := case_.callIds + [call.callId]);
      cases := cases[e.caseId := case_];
      found := found + Require(|case_.callIds| <= 1, SecondCallOfCase);
      var reservation := ReservationErrors(attempt.start.freeze, call);
      found := found + reservation;
    }

    method RecordCost(e: Event, cost: Cost) returns (found: seq<Fault>)
      requires e.payload == CostRecorded(cost) && e.caseId in cases && e.attemptId in attempts
      modifies this
      ensures Snapshot() == AfterPayload(context, old(Snapshot()), e) && errors == old(errors)
      ensures found == PayloadFaults(context, old(Snapshot()), e, old(attempts[e.attemptId]), old(cases[e.caseId]))
    {
      hide ModelCostFaults, AmountFaults, PriceFaults, AfterPayload;
      AfterCost(context, Snapshot(), e, cost);
      var attempt, case_ := attempts[e.attemptId], cases[e.caseId];
      found := Require(cost.entryId !in entryIds, DuplicateEntry);
      var amounts := AmountErrors(cost);
      assert found + AmountFaults(cost) + PriceFaults(cost) == found + amounts;
      found := found + amounts;
      if cost.category.ModelInference? {
        var model := ModelCostErrors(Snapshot(), e.attemptId, attempt, cost);
        found := found + model;
        if cost.sourceCall.Some? {
          attempt := attempt.(callCosts := attempt.callCosts[cost.sourceCall.value := cost]);
        }
      } else {
        found := found + Require(cost.sourceCall.None?, NonModelCostCitesCall);
      }
      if cost.attribution.CampaignScored? && cost.amount.Some? {
        case_ := case_.(scoredCost := case_.scoredCost + cost.amount.value);
        found := found + Require(case_.scoredCost <= attempt.start.freeze.campaign.caseCap, CaseCostOverCap);
      }
      entryIds := entryIds + {cost.entryId};
      attempts := attempts[e.attemptId := attempt];
      cases := cases[e.caseId := case_];
    }

    method SubmitCandidate(e: Event) returns (found: seq<Fault>)
      requires e.payload.CandidateSubmitted? && e.caseId in cases && e.attemptId in attempts
      modifies this
      ensures Snapshot() == AfterPayload(context, old(Snapshot()), e) && errors == old(errors)
      ensures found == PayloadFaults(context, old(Snapshot()), e, old(attempts[e.attemptId]), old(cases[e.caseId]))
    {
      var attempt, case_ := attempts[e.attemptId], cases[e.caseId];
      var candidate := Candidate(e.attemptId, e.payload.patch);
      found := CandidateErrors(attempt, case_, e.payload.callIds);
      attempts := attempts[e.attemptId := attempt.(candidate := Some(candidate))];
      cases := cases[e.caseId := case_.(candidate := Some(candidate))];
    }

    method FinishAttempt(e: Event, finish: Finish) returns (found: seq<Fault>)
      requires e.payload == AttemptFinished(finish) && e.caseId in cases && e.attemptId in attempts
      modifies this
      ensures Snapshot() == AfterPayload(context, old(Snapshot()), e) && errors == old(errors)
      ensures found == PayloadFaults(context, old(Snapshot()), e, old(attempts[e.attemptId]), old(cases[e.caseId]))
    {
      hide OutcomeFaults, VerdictFaults;
      var attempt, case_ := attempts[e.attemptId], cases[e.caseId];
      found := OutcomeErrors(context, case_, finish);
      if context.lane.Scored? && !finish.outcome.BenchmarkInfrastructureError? {
        case_ := case_.(countedFinish := Some(CountedFinish(e.attemptId, finish)));
      }
      CountingSparesVerdicts(attempt, cases[e.caseId], case_, finish);
      var verdicts := VerdictErrors(attempt, case_, finish);
      found := found + verdicts;
      attempts := attempts[e.attemptId := attempt.(finished := Some(finish))];
      cases := cases[e.caseId := case_];
    }
  }
}

/** What an error-free trace guarantees about model calls, their costs and the candidates they produced. */
module TraceCalls {
  import opened Wrappers
  import opened Trace
  import opened TraceFacts
  import opened TraceGuarantees
  import opened TraceAgreement
  import opened TraceTotals

  // ---------------------------------------------------------------- the index comes from events

  lemma {:induction false} StartHasEvent(x: Context, events: seq<Event>, a: string) returns (i: nat)
    requires Clean(x, events) && a in Run(x, events).attempts
    ensures i < |events| && events[i].attemptId == a
    ensures events[i].payload == AttemptStarted(Run(x, events).attempts[a].start)
  {
    hide Faults, Next;
    var n := |events| - 1;
    CleanSplits(x, events);
    StepTouches(x, Run(x, events[..n]), events[n]);
    hide AttemptAfter, TouchesOneCase, TouchesRegisters;
    if events[n].attemptId == a && events[n].payload.AttemptStarted? {
      i := n;
    } else {
      i := StartHasEvent(x, events[..n], a);
    }
  }

  /** Only a finish event adds a finished call, only a cost event a priced one. */
  lemma {:induction false} AttemptCallsChange(e: Event, t: AttemptState, p: string)
    ensures p in AttemptAfter(e, t).callFinishes ==>
              (p in t.callFinishes && AttemptAfter(e, t).callFinishes[p] == t.callFinishes[p])
              || e.payload == ModelCallFinished(p, AttemptAfter(e, t).callFinishes[p])
    ensures p in AttemptAfter(e, t).callCosts ==>
              (p in t.callCosts && AttemptAfter(e, t).callCosts[p] == t.callCosts[p])
              || (e.payload == CostRecorded(AttemptAfter(e, t).callCosts[p])
                  && e.payload.cost.category.ModelInference? && e.payload.cost.sourceCall == Some(p))
  {
    if SparesCalls(e.payload) {
      CallsSpared(e, t);
      hide AttemptAfter;
    }
  }

  lemma {:induction false} StepCallsChange(x: Context, s: State, e: Event, a: string, p: string)
    requires Faults(x, s, e) == [] && a in Next(x, s, e).attempts
    ensures var t' := Next(x, s, e).attempts[a];
            && (p in t'.callFinishes ==>
                  (a in s.attempts && p in s.attempts[a].callFinishes
                   && s.attempts[a].callFinishes[p] == t'.callFinishes[p])
                  || (e.attemptId == a && e.payload == ModelCallFinished(p, t'.callFinishes[p])))
            && (p in t'.callCosts ==>
                  (a in s.attempts && p in s.attempts[a].callCosts && s.attempts[a].callCosts[p] == t'.callCosts[p])
                  || (e.attemptId == a && e.payload == CostRecorded(t'.callCosts[p])
                      && e.payload.cost.category.ModelInference? && e.payload.cost.sourceCall == Some(p)))
  {
    StepTouches(x, s, e);
    hide Faults, Next, AttemptAfter, TouchesOneCase, TouchesRegisters;
    if a == e.attemptId && a in s.attempts { AttemptCallsChange(e, s.attempts[a], p); }
  }

  lemma {:induction false} FinishedCallHasEvent(x: Context, events: seq<Event>, a: string, p: string) returns (i: nat)
    requires Clean(x, events) && a in Run(x, events).attempts && p in Run(x, events).attempts[a].callFinishes
    ensures i < |events| && events[i].attemptId == a
    ensures events[i].payload == ModelCallFinished(p, Run(x, events).attempts[a].callFinishes[p])
  {
    hide Faults, Next;
    var n := |events| - 1;
    CleanSplits(x, events);
    StepCallsChange(x, Run(x, events[..n]), events[n], a, p);
    if events[n].attemptId == a
       && events[n].payload == ModelCallFinished(p, Run(x, events).attempts[a].callFinishes[p]) {
      i := n;
    } else {
      i := FinishedCallHasEvent(x, events[..n], a, p);
    }
  }

  lemma {:induction false} PricedCallHasEvent(x: Context, events: seq<Event>, a: string, p: string) returns (i: nat)
    requires Clean(x, events) && a in Run(x, events).attempts && p in Run(x, events).attempts[a].callCosts
    ensures i < |events| && events[i].attemptId == a
    ensures events[i].payload == CostRecorded(Run(x, events).attempts[a].callCosts[p])
    ensures events[i].payload.cost.category.ModelInference? && events[i].payload.cost.sourceCall == Some(p)
  {
    hide Faults, Next;
    var n := |events| - 1;
    CleanSplits(x, events);
    StepCallsChange(x, Run(x, events[..n]), events[n], a, p);
    if events[n].attemptId == a && events[n].payload == CostRecorded(Run(x, events).attempts[a].callCosts[p])
       && events[n].payload.cost.category.ModelInference? && events[n].payload.cost.sourceCall == Some(p) {
      i := n;
    } else {
      i := PricedCallHasEvent(x, events[..n], a, p);
    }
  }

  lemma {:induction false} StepPhasesChange(x: Context, s: State, e: Event, a: string, key: PhaseKey)
    requires Faults(x, s, e) == [] && a in Next(x, s, e).attempts && key in Next(x, s, e).attempts[a].phaseStarts
    ensures var at := Next(x, s, e).attempts[a].phaseStarts[key];
            || (a in s.attempts && key in s.attempts[a].phaseStarts && s.attempts[a].phaseStarts[key] == at)
            || (e.attemptId == a && e.payload == PhaseStarted(key, at))
  {
    StepTouches(x, s, e);
    hide Faults, Next, TouchesOneCase, TouchesRegisters;
  }

  lemma {:induction false} PhaseHasEvent(x: Context, events: seq<Event>, a: string, key: PhaseKey) returns (i: nat)
    requires Clean(x, events) && a in Run(x, events).attempts && key in Run(x, events).attempts[a].phaseStarts
    ensures i < |events| && events[i].attemptId == a
    ensures events[i].payload == PhaseStarted(key, Run(x, events).attempts[a].phaseStarts[key])
  {
    hide Faults, Next;
    var n := |events| - 1;
    CleanSplits(x, events);
    StepPhasesChange(x, Run(x, events[..n]), events[n], a, key);
    if events[n].attemptId == a && events[n].payload == PhaseStarted(key, Run(x, events).attempts[a].phaseStarts[key]) {
      i := n;
    } else {
      i := PhaseHasEvent(x, events[..n], a, key);
    }
  }

  lemma {:induction false} PhaseRules(x: Context, s: State, e: Event)
    requires Faults(x, s, e) == [] && e.payload.PhaseFinished?
    ensures e.attemptId in s.attempts
            && PhaseFaults(s.attempts[e.attemptId], e.payload.key, e.payload.phaseFinish) == []
  {
    AdmittedShape(x, s, e);
    hide Faults, Next, StartFaults, AfterPayload, PhaseFaults;
  }

  /**
   A finished phase was started once before, at the moment its finish repeats, and its duration is that of its
   timestamps.
   */
  lemma {:induction false} PhaseFollowsItsStart(x: Context, events: seq<Event>, j: nat) returns (start: nat)
    requires Clean(x, events) && j < |events| && events[j].payload.PhaseFinished?
    ensures start < j && events[start].attemptId == events[j].attemptId
    ensures events[start].payload
            == PhaseStarted(events[j].payload.key, events[j].payload.phaseFinish.interval.startedAt)
    ensures forall k ::
              (0 <= k < j && events[k].attemptId == events[j].attemptId
               && events[k].payload.PhaseStarted? && events[k].payload.key == events[j].payload.key) ==> k == start
    ensures events[j].payload.phaseFinish.interval.startedAt <= events[j].payload.phaseFinish.interval.completedAt
    ensures DurationAgrees(events[j].payload.phaseFinish.interval)
  {
    hide Faults, Run;
    var before, a := events[..j], events[j].attemptId;
    CleanPrefix(x, events, j);
    PhaseRules(x, Run(x, before), events[j]);
    start := PhaseHasEvent(x, before, a, events[j].payload.key);
    assert before[start] == events[start];
    forall k | 0 <= k < j && events[k].attemptId == a && events[k].payload.PhaseStarted?
               && events[k].payload.key == events[j].payload.key
      ensures k == start
    {
      if k < start { PhasesStartOnce(x, events, k, start); } else if start < k { PhasesStartOnce(x, events, start, k); }
    }
  }

  lemma {:induction false} PhasesStartOnce(x: Context, events: seq<Event>, i: nat, j: nat)
    requires Clean(x, events) && i < j < |events| && events[i].attemptId == events[j].attemptId
    requires events[i].payload.PhaseStarted? && events[j].payload.PhaseStarted?
    ensures events[i].payload.key != events[j].payload.key
  {
    hide Faults, Run;
    CleanPrefix(x, events, j);
    assert events[..j][i] == events[i];
    CleanRunReflects(x, events[..j], i);
    StepAllowed(x, Run(x, events[..j]), events[j]);
  }

  // ---------------------------------------------------------------- unique records

  /** Call ids, call finishes, cost entries and model costs are all unique in the whole ledger. */
  lemma {:induction false} RecordsAreUnique(x: Context, events: seq<Event>, i: nat, j: nat)
    requires Clean(x, events) && i < j < |events|
    ensures events[i].payload.ModelCallStarted? && events[j].payload.ModelCallStarted? ==>
              events[i].payload.call.callId != events[j].payload.call.callId
    ensures events[i].payload.ModelCallFinished? && events[j].payload.ModelCallFinished? ==>
              events[i].payload.callId != events[j].payload.callId
    ensures events[i].payload.CostRecorded? && events[j].payload.CostRecorded? ==>
              && events[i].payload.cost.entryId != events[j].payload.cost.entryId
              && (events[i].payload.cost.category.ModelInference? && events[j].payload.cost.category.ModelInference? ==>
                    events[i].payload.cost.sourceCall != events[j].payload.cost.sourceCall)
  {
    hide Faults, Run;
    var before := events[..j];
    CleanPrefix(x, events, j);
    assert before[i] == events[i];
    CleanRunReflects(x, before, i);
    CleanRunOwnsCalls(x, before);
    var s := Run(x, before);
    assert AttemptCallsOwned(s.callOwner, events[i].attemptId, s.attempts[events[i].attemptId]);
    StepAllowed(x, s, events[j]);
  }

  // ---------------------------------------------------------------- one call at a time

  lemma {:induction false} CallRules(x: Context, s: State, e: Event)
    requires Faults(x, s, e) == [] && e.payload.ModelCallStarted?
    ensures e.attemptId in s.attempts && ReservationFaults(s.attempts[e.attemptId].start.freeze, e.payload.call) == []
    ensures forall a, p :: a in s.attempts && p in s.attempts[a].callStarts ==> CallIsSettled(s.attempts[a], p)
  {
    AdmittedShape(x, s, e);
    hide Faults, Next, StartFaults, ReservationFaults, CallIsSettled, AfterPayload;
    assert CallFaults(s, s.attempts[e.attemptId], CaseOf(s, e.caseId), e.payload.call) == [];
    assert UnresolvedCalls(s.attempts) == {};
    forall a, p | a in s.attempts && p in s.attempts[a].callStarts ensures CallIsSettled(s.attempts[a], p) {
      assert (a, p) !in UnresolvedCalls(s.attempts);
    }
  }

  /**
   Calls never overlap, in whatever cases: before a call starts, every earlier call is finished and its
   cost is recorded as measured or verified zero.
   */
  lemma {:induction false} CallsNeverOverlap(x: Context, events: seq<Event>, i: nat, j: nat)
    returns (finish: nat, cost: nat)
    requires Clean(x, events) && i < j < |events|
    requires events[i].payload.ModelCallStarted? && events[j].payload.ModelCallStarted?
    ensures finish < j && events[finish].attemptId == events[i].attemptId
    ensures events[finish].payload.ModelCallFinished? && events[finish].payload.callId == events[i].payload.call.callId
    ensures cost < j && events[cost].attemptId == events[i].attemptId
    ensures events[cost].payload.CostRecorded?
            && events[cost].payload.cost.sourceCall == Some(events[i].payload.call.callId)
    ensures events[cost].payload.cost.status.Measured? || events[cost].payload.cost.status.ZeroVerified?
  {
    hide Faults, Run;
    var before, a, p := events[..j], events[i].attemptId, events[i].payload.call.callId;
    CleanPrefix(x, events, j);
    assert before[i] == events[i];
    CleanRunReflects(x, before, i);
    CallRules(x, Run(x, before), events[j]);
    finish := FinishedCallHasEvent(x, before, a, p);
    cost := PricedCallHasEvent(x, before, a, p);
    assert before[finish] == events[finish] && before[cost] == events[cost];
  }

  /** A model cost follows the start and the finish of its own attempt's call, and fits the reservation. */
  lemma {:induction false} ModelCostFollowsItsCall(x: Context, events: seq<Event>, j: nat)
    returns (start: nat, finish: nat)
    requires Clean(x, events) && j < |events|
    requires events[j].payload.CostRecorded? && events[j].payload.cost.category.ModelInference?
    ensures start < j && events[start].attemptId == events[j].attemptId && events[start].payload.ModelCallStarted?
    ensures events[j].payload.cost.sourceCall == Some(events[start].payload.call.callId)
    ensures events[j].payload.cost.amount.Some? ==>
              events[j].payload.cost.amount.value <= events[start].payload.call.reserved
    ensures finish < j && events[finish].attemptId == events[j].attemptId
    ensures events[finish].payload.ModelCallFinished?
            && events[finish].payload.callId == events[start].payload.call.callId
  {
    hide Faults, Run;
    var before, a := events[..j], events[j].attemptId;
    CleanPrefix(x, events, j);
    StepAllowed(x, Run(x, before), events[j]);
    var p := events[j].payload.cost.sourceCall.value;
    start := CallHasEvent(x, before, p);
    CleanRunReflects(x, before, start);
    finish := FinishedCallHasEvent(x, before, a, p);
    assert before[start] == events[start] && before[finish] == events[finish];
  }

  lemma {:induction false} PricedModelCost(s: State, a: string, t: AttemptState, c: CaseState, cost: Cost)
    requires CostFaults(s, a, t, c, cost) == [] && cost.category.ModelInference? && cost.sourceCall.Some?
    ensures PriceFaults(cost) == [] && QuantityIsUsage(t, cost.sourceCall.value, cost)
  {
    hide PriceFaults, AmountFaults, QuantityIsUsage;
    assert ModelCostFaults(s, a, t, cost) == [];
  }

  lemma {:induction false} PriceRules(x: Context, s: State, e: Event)
    requires Faults(x, s, e) == [] && e.payload.CostRecorded? && e.payload.cost.category.ModelInference?
    ensures e.attemptId in s.attempts && e.payload.cost.sourceCall.Some? && PriceFaults(e.payload.cost) == []
    ensures QuantityIsUsage(s.attempts[e.attemptId], e.payload.cost.sourceCall.value, e.payload.cost)
  {
    AdmittedShape(x, s, e);
    StepAllowed(x, s, e);
    hide Faults, Next, StartFaults, AfterPayload, CostFaults, PriceFaults, QuantityIsUsage;
    PricedModelCost(s, e.attemptId, s.attempts[e.attemptId], CaseOf(s, e.caseId), e.payload.cost);
  }

  /**
   A model cost priced by the million tokens is the provider's reported total times the unit price, rounded half up.
   */
  lemma {:induction false} ModelCostIsUsageTimesPrice(x: Context, events: seq<Event>, j: nat) returns (finish: nat)
    requires Clean(x, events) && j < |events|
    requires events[j].payload.CostRecorded? && events[j].payload.cost.category.ModelInference?
    requires IsPriced(events[j].payload.cost) && events[j].payload.cost.inMillionTokens
    ensures finish < j && events[finish].payload.ModelCallFinished?
    ensures events[j].payload.cost.sourceCall == Some(events[finish].payload.callId)
    ensures var total := events[finish].payload.callFinish.usage.total;
            total.Some? ==>
              events[j].payload.cost.amount.value
                == RoundHalfUp((total.value as real / 1_000_000.0) * (events[j].payload.cost.unitPrice.value as real))
  {
    hide Faults, Run, RoundHalfUp;
    var before, a := events[..j], events[j].attemptId;
    CleanPrefix(x, events, j);
    StepAllowed(x, Run(x, before), events[j]);
    PriceRules(x, Run(x, before), events[j]);
    finish := FinishedCallHasEvent(x, before, a, events[j].payload.cost.sourceCall.value);
    assert before[finish] == events[finish];
  }

  // ---------------------------------------------------------------- the frozen caps

  /** Everything a call says about itself is what the campaign froze, and its reservation is within both caps. */
  predicate WithinFreeze(f: Freeze, call: CallStart) {
    && CallMatches(f, call) && call.reserved <= f.campaign.caseCap && call.reserved <= f.campaign.campaignCap
    && (f.campaign.approval.OfflineZeroCost? ==>
          call.reserved == 0 && (call.provider == OFFLINE_FIXTURE || call.provider == LOCAL_MODEL))
  }

  lemma {:induction false} FaultlessReservation(f: Freeze, call: CallStart)
    requires ReservationFaults(f, call) == []
    ensures WithinFreeze(f, call)
  {
  }

  lemma {:induction false} CallsMatchTheFreeze(x: Context, events: seq<Event>, j: nat)
    requires x.lane.Scored? && Clean(x, events) && j < |events| && events[j].payload.ModelCallStarted?
    ensures Run(x, events).freeze.Some? && WithinFreeze(Run(x, events).freeze.value, events[j].payload.call)
  {
    hide Faults, Run, ReservationFaults, WithinFreeze;
    var before := Run(x, events[..j]);
    CleanPrefix(x, events, j);
    CallRules(x, before, events[j]);
    FaultlessReservation(before.attempts[events[j].attemptId].start.freeze, events[j].payload.call);
    CleanRunOnlyGrows(x, events, j);
    CleanRunHasOneFreeze(x, events);
    assert AttemptGrows(before.attempts[events[j].attemptId], Run(x, events).attempts[events[j].attemptId]);
  }

  lemma {:induction false} FrozenCampaignRules(x: Context, s: State, e: Event)
    requires Faults(x, s, e) == [] && e.payload.AttemptStarted?
    ensures var campaign := e.payload.start.freeze.campaign;
            && (campaign.approval.OfflineZeroCost? ==> campaign.caseCap == 0 && campaign.campaignCap == 0)
            && (campaign.approval.ExplicitUserApproval? ==> campaign.approvalRef.Some?)
  {
    AdmittedShape(x, s, e);
    StartRules(x, s, e, e.payload.start);
    hide Faults, Next, StartFaults, OpeningFaults, OrderFaults, BatchFaults;
  }

  /**
   The scored amounts of an accepted ledger stay within the frozen campaign cap; a zero-cost campaign spends
   nothing.
   */
  lemma {:induction false} SpendStaysWithinCampaignCap(x: Context, events: seq<Event>, i: nat)
    requires x.lane.Scored? && Accepted(x, events) && i < |events|
    ensures Run(x, events).freeze.Some?
    ensures var campaign := Run(x, events).freeze.value.campaign;
            && TotalSpend(SCORED, events) <= campaign.campaignCap
            && (campaign.approval.OfflineZeroCost? ==> TotalSpend(SCORED, events) == 0)
  {
    hide Faults, Run;
    var s := Run(x, events);
    CleanRunReflects(x, events, i);
    CleanRunHasOneFreeze(x, events);
    OrdersListTheKeys(x, events);
    CaseCostsAddUp(x, events);
    assert events[i].attemptId in s.attemptOrder;
    var k := StartHasEvent(x, events, s.attemptOrder[0]);
    CleanPrefix(x, events, k);
    FrozenCampaignRules(x, Run(x, events[..k]), events[k]);
  }

  // ---------------------------------------------------------------- candidates

  lemma {:induction false} CandidateRules(x: Context, s: State, e: Event)
    requires Faults(x, s, e) == [] && e.payload.CandidateSubmitted?
    ensures e.attemptId in s.attempts
    ensures var t := s.attempts[e.attemptId];
            && (forall i :: 0 <= i < |e.payload.callIds| ==>
                  e.payload.callIds[i] in t.callFinishes && t.callFinishes[e.payload.callIds[i]].succeeded)
            && (t.start.freeze.campaign.tier.HistoricalScored?
                && t.start.freeze.generator.provider != OFFLINE_FIXTURE ==>
                  |e.payload.callIds| == 1)
  {
    AdmittedShape(x, s, e);
    hide Faults, Next, StartFaults, AfterPayload;
  }

  lemma {:induction false} ScoredTier(x: Context, s: State, e: Event)
    requires x.lane.Scored? && Faults(x, s, e) == [] && e.payload.AttemptStarted?
    ensures e.payload.start.freeze.campaign.tier.HistoricalScored?
  {
    AdmittedShape(x, s, e);
    StartRules(x, s, e, e.payload.start);
    hide Faults, Next, StartFaults, OpeningFaults, OrderFaults, BatchFaults;
  }

  /** A scored candidate of a real provider comes from exactly one call, which succeeded in the same attempt before. */
  lemma {:induction false} CandidateComesFromItsCall(x: Context, events: seq<Event>, j: nat) returns (finish: nat)
    requires x.lane.Scored? && Clean(x, events) && j < |events| && events[j].payload.CandidateSubmitted?
    requires events[j].attemptId in Run(x, events).attempts
    requires Run(x, events).attempts[events[j].attemptId].start.freeze.generator.provider != OFFLINE_FIXTURE
    ensures |events[j].payload.callIds| == 1
    ensures finish < j && events[finish].attemptId == events[j].attemptId && events[finish].payload.ModelCallFinished?
    ensures events[finish].payload.callId == events[j].payload.callIds[0] && events[finish].payload.callFinish.succeeded
  {
    hide Faults, Run;
    var before, a := events[..j], events[j].attemptId;
    CleanPrefix(x, events, j);
    CandidateRules(x, Run(x, before), events[j]);
    CleanRunOnlyGrows(x, events, j);
    assert AttemptGrows(Run(x, before).attempts[a], Run(x, events).attempts[a]);
    var i := StartHasEvent(x, before, a);
    CleanPrefix(x, before, i);
    ScoredTier(x, Run(x, before[..i]), before[i]);
    finish := FinishedCallHasEvent(x, before, a, events[j].payload.callIds[0]);
    assert before[finish] == events[finish];
  }
}

/** What an error-free prefix of a ledger keeps: nothing is ever taken back, and the index reflects the events. */
module TraceFacts {
  import opened Wrappers
  import opened Trace

  // ---------------------------------------------------------------- errors only grow

  lemma {:induction false} CleanSplits(x: Context, events: seq<Event>)
    requires events != []
    ensures var n := |events| - 1;
            Clean(x, events) <==> Clean(x, events[..n]) && Faults(x, Run(x, events[..n]), events[n]) == []
  {
  }

  /** An error never goes away: each prefix of an error-free ledger is error-free, and so is each next event. */
  lemma {:induction false} CleanPrefix(x: Context, events: seq<Event>, i: nat)
    requires Clean(x, events) && i <= |events|
    ensures Clean(x, events[..i])
    ensures i < |events| ==> Faults(x, Run(x, events[..i]), events[i]) == []
  {
    hide Faults, Run;
    if i < |events| {
      CleanSplits(x, events);
      CleanPrefix(x, events[..|events| - 1], i);
      assert events[..|events| - 1][..i] == events[..i];
    } else {
      assert events[..i] == events;
    }
  }

  // ---------------------------------------------------------------- one error-free step

  /** The shape of an event that adds no error. */
  lemma {:induction false} AdmittedShape(x: Context, s: State, e: Event)
    requires Faults(x, s, e) == []
    ensures e.caseId in x.knownCases
    ensures e.payload.AttemptStarted? ==>
              && e.attemptId !in s.attempts && StartFaults(x, s, e, e.payload.start) == []
              && Next(x, s, e) == AfterStart(x, WithCase(s, e.caseId), e, e.payload.start)
    ensures !e.payload.AttemptStarted? ==>
              && e.attemptId in s.attempts
              && s.attempts[e.attemptId].caseId == e.caseId && s.attempts[e.attemptId].batchId == e.batchId
              && s.attempts[e.attemptId].finished.None?
              && (s.attempts[e.attemptId].gold.Some? ==> e.payload.AttemptFinished?)
              && PayloadFaults(x, s, e, s.attempts[e.attemptId], CaseOf(s, e.caseId)) == []
              && Next(x, s, e) == AfterPayload(x, WithCase(s, e.caseId), e)
  {
    hide StartFaults, PayloadFaults, AfterStart, AfterPayload;
  }

  /** What the rules of one event demand of the index, as far as the facts below need it. */
  predicate Allowed(x: Context, s: State, e: Event, t: AttemptState, c: CaseState) {
    match e.payload
    case PhaseStarted(key, _) => key !in t.phaseStarts
    case PhaseFinished(key, _) => key in t.phaseStarts && key !in t.phaseFinishes
    case ModelCallStarted(call) => call.callId !in s.callOwner && c.callIds == []
    case ModelCallFinished(id, _) =>
      id in s.callOwner && s.callOwner[id] == e.attemptId && id !in t.callFinishes
    case CostRecorded(cost) => cost.entryId !in s.entryIds
         && (cost.category.ModelInference? ==> CostAllowed(s, e.attemptId, t, cost))
    case CandidateSubmitted(_, _) => t.candidate.None? && c.candidate.None?
    case AttemptFinished(finish) => Terminal(x, finish) ==> c.countedFinish.None?
    case _ => true
  }

  predicate CostAllowed(s: State, a: string, t: AttemptState, cost: Cost) {
    && cost.attribution.CampaignScored? && cost.sourceCall.Some?
    && cost.sourceCall.value in s.callOwner && s.callOwner[cost.sourceCall.value] == a
    && cost.sourceCall.value in t.callFinishes && cost.sourceCall.value !in t.callCosts
    && (cost.sourceCall.value in t.callStarts && cost.amount.Some? ==>
          cost.amount.value <= t.callStarts[cost.sourceCall.value].reserved)
  }

  lemma {:induction false} FaultlessCost(s: State, a: string, t: AttemptState, c: CaseState, cost: Cost)
    requires CostFaults(s, a, t, c, cost) == []
    ensures cost.entryId !in s.entryIds && AmountFaults(cost) == []
    ensures cost.category.ModelInference? ==> CostAllowed(s, a, t, cost)
    ensures cost.attribution.CampaignScored? && cost.amount.Some? ==>
              c.scoredCost + cost.amount.value <= t.start.freeze.campaign.caseCap
  {
    hide AmountFaults;
  }

  lemma {:induction false} FaultlessIsAllowed(x: Context, s: State, e: Event, t: AttemptState, c: CaseState)
    requires PayloadFaults(x, s, e, t, c) == []
    ensures Allowed(x, s, e, t, c)
  {
    hide ReservationFaults, ReviewFaults, GoldFaults, CallIsSettled, Votes, CostFaults, CostAllowed;
    if e.payload.CostRecorded? { FaultlessCost(s, e.attemptId, t, c, e.payload.cost); }
  }

  predicate SubMap<V(==)>(m: map<string, V>, m': map<string, V>) {
    forall k :: k in m ==> k in m' && m'[k] == m[k]
  }

  predicate AttemptGrows(t: AttemptState, t': AttemptState) {
    && t'.caseId == t.caseId && t'.batchId == t.batchId && t'.start == t.start
    && (t.finished.Some? ==> t' == t)
    && (t.gold.Some? ==> t'.gold == t.gold && t'.reviews == t.reviews)
    && t.phaseStarts.Keys <= t'.phaseStarts.Keys
    && SubMap(t.callStarts, t'.callStarts) && SubMap(t.callFinishes, t'.callFinishes)
       && SubMap(t.callCosts, t'.callCosts)
    && (t.candidate.Some? ==> t'.candidate == t.candidate)
    && t.reviews <= t'.reviews
  }

  predicate CaseGrows(c: CaseState, c': CaseState) {
    && c.attemptIds <= c'.attemptIds && c.callIds <= c'.callIds
    && (c.candidate.Some? ==> c'.candidate == c.candidate)
    && (c.countedFinish.Some? ==> c'.countedFinish == c.countedFinish)
    && c.scoredCost <= c'.scoredCost
  }

  predicate AttemptsGrow(m: map<string, AttemptState>, m': map<string, AttemptState>) {
    forall a :: a in m ==> a in m' && AttemptGrows(m[a], m'[a])
  }

  predicate CasesGrow(m: map<string, CaseState>, m': map<string, CaseState>) {
    forall c :: c in m ==> c in m' && CaseGrows(m[c], m'[c])
  }

  predicate Grows(s: State, s': State) {
    && AttemptsGrow(s.attempts, s'.attempts) && CasesGrow(s.cases, s'.cases)
    && SubMap(s.callOwner, s'.callOwner) && s.entryIds <= s'.entryIds
  }

  /** Who owns which model call. */
  predicate CallsOwned(s: State) {
    && (forall p :: p in s.callOwner ==>
          s.callOwner[p] in s.attempts && p in s.attempts[s.callOwner[p]].callStarts)
    && (forall a :: a in s.attempts ==> AttemptCallsOwned(s.callOwner, a, s.attempts[a]))
  }

  predicate AttemptCallsOwned(owner: map<string, string>, a: string, t: AttemptState) {
    && (forall p :: p in t.callStarts ==> p in owner && owner[p] == a && t.callStarts[p].callId == p)
    && (forall p :: p in t.callFinishes ==> p in t.callStarts)
    && (forall p :: p in t.callCosts ==> p in t.callFinishes)
  }

  /** Events that leave the calls of their attempt alone. */
  predicate SparesCalls(p: Payload) {
    !p.ModelCallStarted? && !p.ModelCallFinished? && !p.CostRecorded?
  }

  lemma {:induction false} CallsSpared(e: Event, t: AttemptState)
    requires SparesCalls(e.payload)
    ensures AttemptAfter(e, t).callStarts == t.callStarts && AttemptAfter(e, t).callFinishes == t.callFinishes
    ensures AttemptAfter(e, t).callCosts == t.callCosts
  {
  }

  lemma {:induction false} OtherEventsGrow(x: Context, s: State, e: Event, t: AttemptState, c: CaseState)
    requires SparesCalls(e.payload) && Allowed(x, s, e, t, c)
    requires t.finished.None? && (t.gold.Some? ==> e.payload.AttemptFinished?)
    ensures AttemptGrows(t, AttemptAfter(e, t))
  {
    CallsSpared(e, t);
  }

  lemma {:induction false} CallStartGrows(x: Context, s: State, e: Event, t: AttemptState, c: CaseState)
    requires e.payload.ModelCallStarted? && Allowed(x, s, e, t, c)
    requires AttemptCallsOwned(s.callOwner, e.attemptId, t) && t.finished.None? && t.gold.None?
    ensures AttemptGrows(t, AttemptAfter(e, t))
  {
  }

  lemma {:induction false} CallFinishGrows(x: Context, s: State, e: Event, t: AttemptState, c: CaseState)
    requires e.payload.ModelCallFinished? && Allowed(x, s, e, t, c)
    requires AttemptCallsOwned(s.callOwner, e.attemptId, t) && t.finished.None? && t.gold.None?
    ensures AttemptGrows(t, AttemptAfter(e, t))
  {
  }

  lemma {:induction false} CostGrows(x: Context, s: State, e: Event, t: AttemptState, c: CaseState)
    requires e.payload.CostRecorded? && Allowed(x, s, e, t, c)
    requires AttemptCallsOwned(s.callOwner, e.attemptId, t) && t.finished.None? && t.gold.None?
    ensures AttemptGrows(t, AttemptAfter(e, t))
  {
  }

  lemma {:induction false} CallEventsGrow(x: Context, s: State, e: Event, t: AttemptState, c: CaseState)
    requires !SparesCalls(e.payload) && Allowed(x, s, e, t, c)
    requires AttemptCallsOwned(s.callOwner, e.attemptId, t) && t.finished.None? && t.gold.None?
    ensures AttemptGrows(t, AttemptAfter(e, t))
  {
    hide AttemptAfter, AttemptGrows, Allowed, AttemptCallsOwned;
    match e.payload
    case ModelCallStarted(_) => CallStartGrows(x, s, e, t, c);
    case ModelCallFinished(_, _) => CallFinishGrows(x, s, e, t, c);
    case CostRecorded(_) => CostGrows(x, s, e, t, c);
  }

  lemma {:induction false} AttemptOnlyGrows(x: Context, s: State, e: Event, t: AttemptState, c: CaseState)
    requires AttemptCallsOwned(s.callOwner, e.attemptId, t)
    requires t.finished.None? && (t.gold.Some? ==> e.payload.AttemptFinished?)
    requires Allowed(x, s, e, t, c)
    ensures AttemptGrows(t, AttemptAfter(e, t))
  {
    hide AttemptAfter, AttemptGrows, Allowed, AttemptCallsOwned;
    if SparesCalls(e.payload) { OtherEventsGrow(x, s, e, t, c); } else { CallEventsGrow(x, s, e, t, c); }
  }

  lemma {:induction false} CaseOnlyGrows(x: Context, s: State, e: Event, t: AttemptState, c: CaseState)
    requires e.payload.AttemptStarted? || Allowed(x, s, e, t, c)
    ensures CaseGrows(c, CaseAfter(x, e, c))
  {
    hide CostAllowed;
  }

  predicate TouchesOneAttempt(s: State, s': State, e: Event) {
    && (forall a :: a in s.attempts && a != e.attemptId ==> a in s'.attempts && s'.attempts[a] == s.attempts[a])
    && (forall a :: a in s'.attempts ==> a in s.attempts || a == e.attemptId)
    && e.attemptId in s'.attempts
    && (e.payload.AttemptStarted? <==> e.attemptId !in s.attempts)
    && s'.attempts[e.attemptId] == (if e.payload.AttemptStarted? then NewAttempt(e, e.payload.start)
                                    else AttemptAfter(e, s.attempts[e.attemptId]))
  }

  predicate TouchesOneCase(x: Context, s: State, s': State, e: Event) {
    && (forall c :: c in s.cases && c != e.caseId ==> c in s'.cases && s'.cases[c] == s.cases[c])
    && (forall c :: c in s'.cases ==> c in s.cases || c == e.caseId)
    && e.caseId in s'.cases && s'.cases[e.caseId] == CaseAfter(x, e, CaseOf(s, e.caseId))
  }

  predicate TouchesRegisters(s: State, s': State, e: Event) {
    && s'.callOwner == OwnerAfter(s.callOwner, e)
    && s'.entryIds == (if e.payload.CostRecorded? then s.entryIds + {e.payload.cost.entryId} else s.entryIds)
  }

  function CasesWith(s: State, c: string): map<string, CaseState> {
    if c in s.cases then s.cases else s.cases[c := NEW_CASE]
  }

  lemma {:induction false} TouchesFollow(x: Context, s: State, s': State, e: Event)
    requires e.payload.AttemptStarted? <==> e.attemptId !in s.attempts
    requires s'.attempts == s.attempts[e.attemptId := if e.payload.AttemptStarted? then NewAttempt(e, e.payload.start)
                                                      else AttemptAfter(e, s.attempts[e.attemptId])]
    requires s'.cases == CasesWith(s, e.caseId)[e.caseId := CaseAfter(x, e, CaseOf(s, e.caseId))]
    ensures TouchesOneAttempt(s, s', e) && TouchesOneCase(x, s, s', e)
  {
    hide CaseAfter, AttemptAfter, NewAttempt;
  }

  lemma {:induction false} StartTouches(x: Context, s: State, e: Event)
    requires e.payload.AttemptStarted? && e.attemptId !in s.attempts
    ensures var s' := AfterStart(x, WithCase(s, e.caseId), e, e.payload.start);
            TouchesOneAttempt(s, s', e) && TouchesOneCase(x, s, s', e) && TouchesRegisters(s, s', e)
  {
    hide CaseAfter, AttemptAfter, TouchesOneAttempt, TouchesOneCase, NewAttempt;
    TouchesFollow(x, s, AfterStart(x, WithCase(s, e.caseId), e, e.payload.start), e);
  }

  lemma {:induction false} PayloadTouches(x: Context, s: State, e: Event)
    requires !e.payload.AttemptStarted? && e.attemptId in s.attempts
    ensures var s' := AfterPayload(x, WithCase(s, e.caseId), e);
            TouchesOneAttempt(s, s', e) && TouchesOneCase(x, s, s', e) && TouchesRegisters(s, s', e)
  {
    hide CaseAfter, AttemptAfter, TouchesOneAttempt, TouchesOneCase;
    TouchesFollow(x, s, AfterPayload(x, WithCase(s, e.caseId), e), e);
  }

  /** The two records an event touches, and nothing else. */
  lemma {:induction false} StepTouches(x: Context, s: State, e: Event)
    requires Faults(x, s, e) == []
    ensures var s' := Next(x, s, e);
            TouchesOneAttempt(s, s', e) && TouchesOneCase(x, s, s', e) && TouchesRegisters(s, s', e)
  {
    AdmittedShape(x, s, e);
    hide Faults, Next, StartFaults, PayloadFaults, AfterStart, AfterPayload, TouchesOneAttempt, TouchesOneCase,
         TouchesRegisters;
    if e.payload.AttemptStarted? { StartTouches(x, s, e); } else { PayloadTouches(x, s, e); }
  }

  lemma {:induction false} StepAllowed(x: Context, s: State, e: Event)
    requires Faults(x, s, e) == []
    ensures !e.payload.AttemptStarted? ==>
            e.attemptId in s.attempts && Allowed(x, s, e, s.attempts[e.attemptId], CaseOf(s, e.caseId))
  {
    AdmittedShape(x, s, e);
    hide Faults, Next, PayloadFaults, Allowed;
    if !e.payload.AttemptStarted? { FaultlessIsAllowed(x, s, e, s.attempts[e.attemptId], CaseOf(s, e.caseId)); }
  }

  lemma {:induction false} StepGrows(x: Context, s: State, e: Event)
    requires CallsOwned(s) && Faults(x, s, e) == []
    ensures Grows(s, Next(x, s, e))
  {
    AttemptsStepGrow(x, s, e);
    CasesStepGrow(x, s, e);
    StepTouches(x, s, e);
    NewCallIsNew(x, s, e);
    hide Faults, Next, AttemptAfter, CaseAfter, AttemptsGrow, CasesGrow, CallsOwned, CaseOf, NewAttempt;
  }

  lemma {:induction false} AttemptsStepGrow(x: Context, s: State, e: Event)
    requires CallsOwned(s) && Faults(x, s, e) == []
    ensures AttemptsGrow(s.attempts, Next(x, s, e).attempts)
  {
    StepTouches(x, s, e);
    TouchedGrow(x, s, e);
    NewCallIsNew(x, s, e);
    hide Faults, Next, AttemptAfter, CaseAfter, AttemptGrows, CaseGrows, CallsOwned, CaseOf, NewAttempt;
    var s' := Next(x, s, e);
    forall a | a in s.attempts ensures a in s'.attempts && AttemptGrows(s.attempts[a], s'.attempts[a]) {
      if a != e.attemptId { AttemptGrowsFromItself(s.attempts[a]); }
    }
  }

  lemma {:induction false} CasesStepGrow(x: Context, s: State, e: Event)
    requires CallsOwned(s) && Faults(x, s, e) == []
    ensures CasesGrow(s.cases, Next(x, s, e).cases)
  {
    StepTouches(x, s, e);
    TouchedGrow(x, s, e);
    hide Faults, Next, AttemptAfter, CaseAfter, AttemptGrows, CaseGrows, CallsOwned, NewAttempt;
    var s' := Next(x, s, e);
    forall c | c in s.cases ensures c in s'.cases && CaseGrows(s.cases[c], s'.cases[c]) {
      if c != e.caseId { CaseGrowsFromItself(s.cases[c]); }
    }
  }

  lemma {:induction false} NewCallIsNew(x: Context, s: State, e: Event)
    requires Faults(x, s, e) == []
    ensures e.payload.ModelCallStarted? ==> e.payload.call.callId !in s.callOwner
    ensures e.payload.AttemptStarted? ==> e.attemptId !in s.attempts
  {
    StepAllowed(x, s, e);
    AdmittedShape(x, s, e);
    hide Faults, Next, PayloadFaults, StartFaults;
  }

  lemma {:induction false} TouchedGrow(x: Context, s: State, e: Event)
    requires CallsOwned(s) && Faults(x, s, e) == []
    ensures CaseGrows(CaseOf(s, e.caseId), CaseAfter(x, e, CaseOf(s, e.caseId)))
    ensures e.attemptId in s.attempts ==>
            AttemptGrows(s.attempts[e.attemptId], AttemptAfter(e, s.attempts[e.attemptId]))
  {
    StepAllowed(x, s, e);
    AdmittedShape(x, s, e);
    hide Faults, Next, StartFaults, PayloadFaults, AttemptAfter, CaseAfter, AttemptGrows, CaseGrows;
    if e.payload.AttemptStarted? {
      CaseOnlyGrows(x, s, e, NewAttempt(e, e.payload.start), CaseOf(s, e.caseId));
    } else {
      CaseOnlyGrows(x, s, e, s.attempts[e.attemptId], CaseOf(s, e.caseId));
      AttemptOnlyGrows(x, s, e, s.attempts[e.attemptId], CaseOf(s, e.caseId));
    }
  }

  lemma {:induction false} AttemptGrowsFromItself(t: AttemptState)
    ensures AttemptGrows(t, t)
  {
  }

  lemma {:induction false} CaseGrowsFromItself(c: CaseState)
    ensures CaseGrows(c, c)
  {
  }

  lemma {:induction false} StepKeepsCallsOwned(x: Context, s: State, e: Event)
    requires CallsOwned(s) && Faults(x, s, e) == []
    ensures CallsOwned(Next(x, s, e))
  {
    OwnersStay(x, s, e);
    var s' := Next(x, s, e);
    hide Faults, Next, AttemptCallsOwned;
    forall a | a in s'.attempts ensures AttemptCallsOwned(s'.callOwner, a, s'.attempts[a]) {
      AttemptStaysOwned(x, s, e, a);
    }
  }

  lemma {:induction false} AttemptStaysOwned(x: Context, s: State, e: Event, a: string)
    requires CallsOwned(s) && Faults(x, s, e) == [] && a in Next(x, s, e).attempts
    ensures AttemptCallsOwned(Next(x, s, e).callOwner, a, Next(x, s, e).attempts[a])
  {
    StepTouches(x, s, e);
    NewCallIsNew(x, s, e);
    hide Faults, Next, AttemptAfter, CaseAfter, AttemptCallsOwned, TouchesOneCase, NewAttempt;
    if a != e.attemptId {
      OtherAttemptOwned(s.callOwner, a, s.attempts[a], e);
    } else if e.payload.AttemptStarted? {
      NewAttemptOwned(s.callOwner, e);
    } else {
      StepAllowed(x, s, e);
      if e.payload.ModelCallFinished? { FinishedCallStarted(x, s, e); }
      hide Allowed;
      TouchedAttemptOwned(x, s, e, s.attempts[a], CaseOf(s, e.caseId));
    }
  }

  lemma {:induction false} FinishedCallStarted(x: Context, s: State, e: Event)
    requires CallsOwned(s) && Faults(x, s, e) == [] && e.payload.ModelCallFinished?
    ensures e.attemptId in s.attempts && e.payload.callId in s.attempts[e.attemptId].callStarts
  {
    StepAllowed(x, s, e);
    hide Faults, AttemptCallsOwned;
  }

  lemma {:induction false} OwnersStay(x: Context, s: State, e: Event)
    requires CallsOwned(s) && Faults(x, s, e) == []
    ensures var s' := Next(x, s, e);
            forall p :: p in s'.callOwner ==>
                   s'.callOwner[p] in s'.attempts && p in s'.attempts[s'.callOwner[p]].callStarts
  {
    StepTouches(x, s, e);
    StepGrows(x, s, e);
    StepAllowed(x, s, e);
    hide Faults, Next, CaseAfter, CasesGrow;
    var s' := Next(x, s, e);
    forall p | p in s'.callOwner
      ensures s'.callOwner[p] in s'.attempts && p in s'.attempts[s'.callOwner[p]].callStarts {
      if e.payload.ModelCallStarted? && p == e.payload.call.callId {
      } else {
        assert AttemptGrows(s.attempts[s.callOwner[p]], s'.attempts[s.callOwner[p]]);
      }
    }
  }

  lemma {:induction false} NewAttemptOwned(owner: map<string, string>, e: Event)
    requires e.payload.AttemptStarted?
    ensures AttemptCallsOwned(owner, e.attemptId, NewAttempt(e, e.payload.start))
  {
  }

  lemma {:induction false} OtherAttemptOwned(owner: map<string, string>, a: string, t: AttemptState, e: Event)
    requires AttemptCallsOwned(owner, a, t) && (e.payload.ModelCallStarted? ==> e.payload.call.callId !in owner)
    ensures AttemptCallsOwned(OwnerAfter(owner, e), a, t)
  {
  }

  function OwnerAfter(owner: map<string, string>, e: Event): map<string, string> {
    if e.payload.ModelCallStarted? then owner[e.payload.call.callId := e.attemptId] else owner
  }

  lemma {:induction false} TouchedAttemptOwned(x: Context, s: State, e: Event, t: AttemptState, c: CaseState)
    requires AttemptCallsOwned(s.callOwner, e.attemptId, t) && Allowed(x, s, e, t, c)
    requires e.payload.ModelCallFinished? ==> e.payload.callId in t.callStarts
    ensures AttemptCallsOwned(OwnerAfter(s.callOwner, e), e.attemptId, AttemptAfter(e, t))
  {
    if SparesCalls(e.payload) {
      CallsSpared(e, t);
      hide AttemptAfter, Allowed;
    } else {
      CallEventKeepsOwned(x, s, e, t, c);
    }
  }

  lemma {:induction false} CallStartKeepsOwned(x: Context, s: State, e: Event, t: AttemptState, c: CaseState)
    requires e.payload.ModelCallStarted? && AttemptCallsOwned(s.callOwner, e.attemptId, t) && Allowed(x, s, e, t, c)
    requires e.payload.ModelCallFinished? ==> e.payload.callId in t.callStarts
    ensures AttemptCallsOwned(OwnerAfter(s.callOwner, e), e.attemptId, AttemptAfter(e, t))
  {
  }

  lemma {:induction false} CallFinishKeepsOwned(x: Context, s: State, e: Event, t: AttemptState, c: CaseState)
    requires e.payload.ModelCallFinished? && AttemptCallsOwned(s.callOwner, e.attemptId, t) && Allowed(x, s, e, t, c)
    requires e.payload.ModelCallFinished? ==> e.payload.callId in t.callStarts
    ensures AttemptCallsOwned(OwnerAfter(s.callOwner, e), e.attemptId, AttemptAfter(e, t))
  {
  }

  lemma {:induction false} CostKeepsOwned(x: Context, s: State, e: Event, t: AttemptState, c: CaseState)
    requires e.payload.CostRecorded? && AttemptCallsOwned(s.callOwner, e.attemptId, t) && Allowed(x, s, e, t, c)
    requires e.payload.ModelCallFinished? ==> e.payload.callId in t.callStarts
    ensures AttemptCallsOwned(OwnerAfter(s.callOwner, e), e.attemptId, AttemptAfter(e, t))
  {
  }

  lemma {:induction false} CallEventKeepsOwned(x: Context, s: State, e: Event, t: AttemptState, c: CaseState)
    requires !SparesCalls(e.payload) && AttemptCallsOwned(s.callOwner, e.attemptId, t) && Allowed(x, s, e, t, c)
    requires e.payload.ModelCallFinished? ==> e.payload.callId in t.callStarts
    ensures AttemptCallsOwned(OwnerAfter(s.callOwner, e), e.attemptId, AttemptAfter(e, t))
  {
    hide AttemptAfter, OwnerAfter, Allowed, AttemptCallsOwned;
    match e.payload
    case ModelCallStarted(_) => CallStartKeepsOwned(x, s, e, t, c);
    case ModelCallFinished(_, _) => CallFinishKeepsOwned(x, s, e, t, c);
    case CostRecorded(_) => CostKeepsOwned(x, s, e, t, c);
  }

  lemma {:induction false} CleanRunOwnsCalls(x: Context, events: seq<Event>)
    requires Clean(x, events)
    ensures CallsOwned(Run(x, events))
  {
    hide Faults, Next, CallsOwned;
    if events != [] {
      CleanSplits(x, events);
      CleanRunOwnsCalls(x, events[..|events| - 1]);
      StepKeepsCallsOwned(x, Run(x, events[..|events| - 1]), events[|events| - 1]);
    } else {
      NothingOwned();
    }
  }

  lemma {:induction false} NothingOwned()
    ensures CallsOwned(Initial())
  {
  }

  lemma {:induction false} GrowsIsTransitive(s: State, s': State, s'': State)
    requires Grows(s, s') && Grows(s', s'')
    ensures Grows(s, s'')
  {
    hide AttemptGrows, CaseGrows;
    assert AttemptsGrow(s.attempts, s''.attempts) by {
      forall a | a in s.attempts ensures a in s''.attempts && AttemptGrows(s.attempts[a], s''.attempts[a]) {
        AttemptGrowsOn(s.attempts[a], s'.attempts[a], s''.attempts[a]);
      }
    }
    assert CasesGrow(s.cases, s''.cases) by {
      forall c | c in s.cases ensures c in s''.cases && CaseGrows(s.cases[c], s''.cases[c]) {
        CaseGrowsOn(s.cases[c], s'.cases[c], s''.cases[c]);
      }
    }
  }

  lemma {:induction false} AttemptGrowsOn(t: AttemptState, t': AttemptState, t'': AttemptState)
    requires AttemptGrows(t, t') && AttemptGrows(t', t'')
    ensures AttemptGrows(t, t'')
  {
  }

  lemma {:induction false} CaseGrowsOn(c: CaseState, c': CaseState, c'': CaseState)
    requires CaseGrows(c, c') && CaseGrows(c', c'')
    ensures CaseGrows(c, c'')
  {
  }

  /** Nothing an error-free ledger has established is ever taken back. */
  lemma {:induction false} CleanRunOnlyGrows(x: Context, events: seq<Event>, i: nat)
    requires Clean(x, events) && i <= |events|
    ensures Grows(Run(x, events[..i]), Run(x, events))
  {
    var n := |events| - 1;
    if i == |events| {
      assert events[..i] == events;
    } else {
      CleanSplits(x, events);
      CleanRunOnlyGrows(x, events[..n], i);
      assert events[..n][..i] == events[..i];
      CleanRunOwnsCalls(x, events[..n]);
      StepGrows(x, Run(x, events[..n]), events[n]);
      hide Grows, Faults, Next;
      GrowsIsTransitive(Run(x, events[..i]), Run(x, events[..n]), Run(x, events));
    }
  }

  // ---------------------------------------------------------------- the index reflects the events

  predicate Reflected(x: Context, s: State, e: Event) {
    && e.attemptId in s.attempts && e.caseId in s.cases
    && s.attempts[e.attemptId].caseId == e.caseId && s.attempts[e.attemptId].batchId == e.batchId
    && ReflectedIn(x, s, e, s.attempts[e.attemptId], s.cases[e.caseId])
  }

  predicate ReflectedIn(x: Context, s: State, e: Event, t: AttemptState, c: CaseState) {
    match e.payload
    case AttemptStarted(st) => t.start == st && e.attemptId in c.attemptIds
    case PhaseStarted(key, _) => key in t.phaseStarts
    case PhaseFinished(_, _) => true
    case ModelCallStarted(call) =>
      && call.callId in s.callOwner && s.callOwner[call.callId] == e.attemptId && call.callId in c.callIds
      && call.callId in t.callStarts && t.callStarts[call.callId] == call
    case ModelCallFinished(id, f) =>
      id in s.callOwner && s.callOwner[id] == e.attemptId && id in t.callFinishes && t.callFinishes[id] == f
    case CostRecorded(cost) =>
      && cost.entryId in s.entryIds
      && (cost.category.ModelInference? ==>
            && cost.attribution.CampaignScored? && cost.sourceCall.Some?
            && cost.sourceCall.value in t.callCosts && t.callCosts[cost.sourceCall.value] == cost)
    case CandidateSubmitted(patch, _) =>
      t.candidate == Some(Candidate(e.attemptId, patch)) && c.candidate == Some(Candidate(e.attemptId, patch))
    case ReviewRecorded(review) => review in t.reviews
    case GoldUnblinded(committed) => t.gold == Some(committed)
    case AttemptFinished(f) =>
      t.finished == Some(f) && (Terminal(x, f) ==> c.countedFinish == Some(CountedFinish(e.attemptId, f)))
  }

  lemma {:induction false} StepReflects(x: Context, s: State, e: Event)
    requires Faults(x, s, e) == []
    ensures Reflected(x, Next(x, s, e), e)
  {
    AdmittedShape(x, s, e);
    StepAllowed(x, s, e);
    StepTouches(x, s, e);
    var s' := Next(x, s, e);
    hide Faults, Next, StartFaults, PayloadFaults, AfterStart, AfterPayload;
    if e.payload.AttemptStarted? {
      var ids := s'.cases[e.caseId].attemptIds;
      assert ids[|ids| - 1] == e.attemptId;
    } else {
      hide Allowed, AttemptAfter, CaseAfter, ReflectedIn;
      EventReflects(x, s, s', e, s.attempts[e.attemptId], CaseOf(s, e.caseId));
    }
  }

  lemma {:induction false} EventReflects(x: Context, s: State, s': State, e: Event, t: AttemptState, c: CaseState)
    requires !e.payload.AttemptStarted? && Allowed(x, s, e, t, c)
    requires TouchesRegisters(s, s', e)
    ensures ReflectedIn(x, s', e, AttemptAfter(e, t), CaseAfter(x, e, c))
  {
    hide Allowed, AttemptAfter, CaseAfter, ReflectedIn, TouchesRegisters;
    if SparesCalls(e.payload) {
      QuietEventReflects(x, s', e, t, c);
    } else {
      CallEventReflects(x, s, s', e, t, c);
    }
  }

  lemma {:induction false} QuietEventReflects(x: Context, s': State, e: Event, t: AttemptState, c: CaseState)
    requires !e.payload.AttemptStarted? && SparesCalls(e.payload)
    ensures ReflectedIn(x, s', e, AttemptAfter(e, t), CaseAfter(x, e, c))
  {
    if e.payload.ReviewRecorded? { assert (t.reviews + [e.payload.review])[|t.reviews|] == e.payload.review; }
  }

  lemma {:induction false} CallEventReflects(x: Context, s: State, s': State, e: Event, t: AttemptState, c: CaseState)
    requires !SparesCalls(e.payload) && Allowed(x, s, e, t, c) && TouchesRegisters(s, s', e)
    ensures ReflectedIn(x, s', e, AttemptAfter(e, t), CaseAfter(x, e, c))
  {
    if e.payload.ModelCallStarted? {
      assert (c.callIds + [e.payload.call.callId])[|c.callIds|] == e.payload.call.callId;
    }
  }

  lemma {:induction false} ReflectedStays(x: Context, s: State, s': State, e: Event)
    requires Grows(s, s') && Reflected(x, s, e)
    ensures Reflected(x, s', e)
  {
    assert AttemptGrows(s.attempts[e.attemptId], s'.attempts[e.attemptId]);
    assert CaseGrows(s.cases[e.caseId], s'.cases[e.caseId]);
    var t, t', c, c' := s.attempts[e.attemptId], s'.attempts[e.attemptId], s.cases[e.caseId], s'.cases[e.caseId];
    hide Grows;
    match e.payload
    case AttemptStarted(_) => PrefixKeeps(c.attemptIds, c'.attemptIds, e.attemptId);
    case ModelCallStarted(call) => PrefixKeeps(c.callIds, c'.callIds, call.callId);
    case ReviewRecorded(review) => PrefixKeeps(t.reviews, t'.reviews, review);
    case _ =>
  }

  lemma {:induction false} PrefixKeeps<T>(s: seq<T>, s': seq<T>, y: T)
    requires s <= s' && y in s
    ensures y in s'
  {
    assert s == s'[..|s|];
  }

  /** Every event of an error-free ledger is found again in the index. */
  lemma {:induction false} CleanRunReflects(x: Context, events: seq<Event>, i: nat)
    requires Clean(x, events) && i < |events|
    ensures Reflected(x, Run(x, events), events[i])
  {
    hide Faults, Next, Reflected, Grows;
    CleanPrefix(x, events, i);
    CleanPrefix(x, events, i + 1);
    assert events[..i + 1][..i] == events[..i];
    StepReflects(x, Run(x, events[..i]), events[i]);
    CleanRunOnlyGrows(x, events, i + 1);
    ReflectedStays(x, Run(x, events[..i + 1]), Run(x, events), events[i]);
  }

  // ---------------------------------------------------------------- calls come from events

  lemma {:induction false} CallHasEvent(x: Context, events: seq<Event>, p: string) returns (i: nat)
    requires Clean(x, events) && p in Run(x, events).callOwner
    ensures i < |events| && events[i].payload.ModelCallStarted? && events[i].payload.call.callId == p
    ensures events[i].attemptId == Run(x, events).callOwner[p]
  {
    hide Faults, Next;
    var n := |events| - 1;
    CleanSplits(x, events);
    StepTouches(x, Run(x, events[..n]), events[n]);
    hide AttemptAfter, CaseAfter;
    if events[n].payload.ModelCallStarted? && events[n].payload.call.callId == p {
      i := n;
    } else {
      i := CallHasEvent(x, events[..n], p);
    }
  }
}

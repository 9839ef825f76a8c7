/**
 The validator's index of an error-free ledger is exactly its events: whatever the index knows was said by
 some event, and whatever an event said the index knows.
 */
module TraceIndex {
  import opened Wrappers
  import opened Trace
  import opened TraceFacts

  /** One thing an event can say about an attempt, a case or the ledger. */
  datatype Mark =
    | Opened(a: string, batchId: string, caseId: string, at: int, start: AttemptStart)
    | PhaseBegun(a: string, key: PhaseKey, at: int)
    | PhaseEnded(a: string, key: PhaseKey, phaseFinish: PhaseFinish)
    | CallBegun(a: string, call: CallStart)
    | CallEnded(a: string, callId: string, callFinish: CallFinish)
    | CallPriced(a: string, callId: string, cost: Cost)
    | Submitted(a: string, candidate: Candidate)
    | Unblinded(a: string, committed: string)
    | Ended(a: string, finish: Finish)
    | CallOwned(a: string, callId: string)
    | EntryUsed(entryId: string)
    | CaseCalled(c: string)
    | CaseSubmitted(c: string)
    | CaseCounted(c: string)

  predicate IsTerminal(x: Context, e: Event) {
    e.payload.AttemptFinished? && x.lane.Scored? && !e.payload.finish.outcome.BenchmarkInfrastructureError?
  }

  /** The event says it. */
  predicate Bears(x: Context, e: Event, m: Mark) {
    match m
    case Opened(a, batchId, caseId, at, start) => e == Event(batchId, a, caseId, at, AttemptStarted(start))
    case PhaseBegun(a, key, at) => e.attemptId == a && e.payload == PhaseStarted(key, at)
    case PhaseEnded(a, key, f) => e.attemptId == a && e.payload == PhaseFinished(key, f)
    case CallBegun(a, call) => e.attemptId == a && e.payload == ModelCallStarted(call)
    case CallEnded(a, id, f) => e.attemptId == a && e.payload == ModelCallFinished(id, f)
    case CallPriced(a, id, cost) =>
      e.attemptId == a && e.payload == CostRecorded(cost) && cost.category.ModelInference?
        && cost.sourceCall == Some(id)
    case Submitted(a, candidate) =>
      e.attemptId == a && e.payload.CandidateSubmitted? && candidate == Candidate(a, e.payload.patch)
    case Unblinded(a, committed) => e.attemptId == a && e.payload == GoldUnblinded(committed)
    case Ended(a, f) => e.attemptId == a && e.payload == AttemptFinished(f)
    case CallOwned(a, id) => e.attemptId == a && e.payload.ModelCallStarted? && e.payload.call.callId == id
    case EntryUsed(id) => e.payload.CostRecorded? && e.payload.cost.entryId == id
    case CaseCalled(c) => e.caseId == c && e.payload.ModelCallStarted?
    case CaseSubmitted(c) => e.caseId == c && e.payload.CandidateSubmitted?
    case CaseCounted(c) => e.caseId == c && IsTerminal(x, e)
  }

  predicate OfAttempt(m: Mark) {
    !m.CallOwned? && !m.EntryUsed? && !m.CaseCalled? && !m.CaseSubmitted? && !m.CaseCounted?
  }

  predicate KnownOfAttempt(t: AttemptState, m: Mark) {
    match m
    case Opened(_, batchId, caseId, at, start) =>
      t.batchId == batchId && t.caseId == caseId && t.startedAt == at && t.start == start
    case PhaseBegun(_, key, at) => key in t.phaseStarts && t.phaseStarts[key] == at
    case PhaseEnded(_, key, f) => key in t.phaseFinishes && t.phaseFinishes[key] == f
    case CallBegun(_, call) => call.callId in t.callStarts && t.callStarts[call.callId] == call
    case CallEnded(_, id, f) => id in t.callFinishes && t.callFinishes[id] == f
    case CallPriced(_, id, cost) =>
      id in t.callCosts && t.callCosts[id] == cost
    case Submitted(_, candidate) => t.candidate == Some(candidate)
    case Unblinded(_, committed) => t.gold == Some(committed)
    case Ended(_, f) => t.finished == Some(f)
    case _ => false
  }

  predicate KnownOfCase(c: CaseState, m: Mark) {
    match m
    case CaseCalled(_) => c.callIds != []
    case CaseSubmitted(_) => c.candidate.Some?
    case CaseCounted(_) => c.countedFinish.Some?
    case _ => false
  }

  /** The index knows it. */
  predicate Known(s: State, m: Mark) {
    match m
    case CallOwned(a, id) => id in s.callOwner && s.callOwner[id] == a
    case EntryUsed(id) => id in s.entryIds
    case CaseCalled(c) => KnownOfCase(CaseOf(s, c), m)
    case CaseSubmitted(c) => KnownOfCase(CaseOf(s, c), m)
    case CaseCounted(c) => KnownOfCase(CaseOf(s, c), m)
    case _ => m.a in s.attempts && KnownOfAttempt(s.attempts[m.a], m)
  }

  // ---------------------------------------------------------------- one step

  lemma {:induction false} CallEventsSpare(e: Event, t: AttemptState)
    requires !SparesCalls(e.payload)
    ensures AttemptAfter(e, t).phaseStarts == t.phaseStarts && AttemptAfter(e, t).phaseFinishes == t.phaseFinishes
    ensures AttemptAfter(e, t).startedAt == t.startedAt && AttemptAfter(e, t).candidate == t.candidate
  {
  }

  predicate IsPhaseEvent(p: Payload) {
    p.PhaseStarted? || p.PhaseFinished?
  }

  lemma {:induction false} OtherEventsSpare(e: Event, t: AttemptState)
    requires SparesCalls(e.payload) && !IsPhaseEvent(e.payload)
    ensures AttemptAfter(e, t).phaseStarts == t.phaseStarts && AttemptAfter(e, t).phaseFinishes == t.phaseFinishes
  {
  }

  lemma {:induction false} PhasesSpared(e: Event, t: AttemptState)
    requires !IsPhaseEvent(e.payload)
    ensures AttemptAfter(e, t).phaseStarts == t.phaseStarts && AttemptAfter(e, t).phaseFinishes == t.phaseFinishes
  {
    hide AttemptAfter;
    if SparesCalls(e.payload) { OtherEventsSpare(e, t); } else { CallEventsSpare(e, t); }
  }

  lemma {:induction false} OriginOfOthersSpared(e: Event, t: AttemptState)
    requires SparesCalls(e.payload)
    ensures AttemptAfter(e, t).startedAt == t.startedAt
    ensures !e.payload.CandidateSubmitted? ==> AttemptAfter(e, t).candidate == t.candidate
  {
  }

  lemma {:induction false} OriginSpared(e: Event, t: AttemptState)
    ensures AttemptAfter(e, t).startedAt == t.startedAt
    ensures !e.payload.CandidateSubmitted? ==> AttemptAfter(e, t).candidate == t.candidate
  {
    hide AttemptAfter;
    if SparesCalls(e.payload) { OriginOfOthersSpared(e, t); } else { CallEventsSpare(e, t); }
  }

  lemma {:induction false} PhaseMarks(x: Context, s: State, e: Event, t: AttemptState, c: CaseState, m: Mark)
    requires Allowed(x, s, e, t, c) && (m.PhaseBegun? || m.PhaseEnded?) && m.a == e.attemptId
             && !e.payload.AttemptStarted?
    ensures KnownOfAttempt(AttemptAfter(e, t), m) <==> KnownOfAttempt(t, m) || Bears(x, e, m)
  {
    if !IsPhaseEvent(e.payload) {
      PhasesSpared(e, t);
      hide AttemptAfter, Allowed;
    }
  }

  lemma {:induction false} CallBegunMarks(x: Context, s: State, e: Event, t: AttemptState, c: CaseState, m: Mark)
    requires Allowed(x, s, e, t, c) && m.CallBegun? && m.a == e.attemptId && !e.payload.AttemptStarted?
    requires AttemptCallsOwned(s.callOwner, e.attemptId, t)
    ensures KnownOfAttempt(AttemptAfter(e, t), m) <==> KnownOfAttempt(t, m) || Bears(x, e, m)
  {
    hide CostAllowed;
    if SparesCalls(e.payload) {
      CallsSpared(e, t);
      hide AttemptAfter;
    }
  }

  lemma {:induction false} CallEndedMarks(x: Context, s: State, e: Event, t: AttemptState, c: CaseState, m: Mark)
    requires Allowed(x, s, e, t, c) && m.CallEnded? && m.a == e.attemptId && !e.payload.AttemptStarted?
    requires AttemptCallsOwned(s.callOwner, e.attemptId, t)
    ensures KnownOfAttempt(AttemptAfter(e, t), m) <==> KnownOfAttempt(t, m) || Bears(x, e, m)
  {
    hide CostAllowed;
    if SparesCalls(e.payload) {
      CallsSpared(e, t);
      hide AttemptAfter;
    }
  }

  lemma {:induction false} CostMarks(x: Context, s: State, e: Event, t: AttemptState, c: CaseState, m: Mark)
    requires Allowed(x, s, e, t, c) && (m.CallPriced?) && m.a == e.attemptId && !e.payload.AttemptStarted?
    ensures KnownOfAttempt(AttemptAfter(e, t), m) <==> KnownOfAttempt(t, m) || Bears(x, e, m)
  {
    if SparesCalls(e.payload) {
      CallsSpared(e, t);
      hide AttemptAfter;
    }
  }

  lemma {:induction false} OriginMarks(x: Context, s: State, e: Event, t: AttemptState, c: CaseState, m: Mark)
    requires Allowed(x, s, e, t, c) && (m.Opened? || m.Submitted?) && m.a == e.attemptId && !e.payload.AttemptStarted?
    ensures KnownOfAttempt(AttemptAfter(e, t), m) <==> KnownOfAttempt(t, m) || Bears(x, e, m)
  {
    OriginSpared(e, t);
    if !e.payload.CandidateSubmitted? { hide AttemptAfter, Allowed; }
  }

  lemma {:induction false} EndMarks(x: Context, s: State, e: Event, t: AttemptState, c: CaseState, m: Mark)
    requires Allowed(x, s, e, t, c) && (m.Unblinded? || m.Ended?) && m.a == e.attemptId && !e.payload.AttemptStarted?
    requires t.finished.None? && (t.gold.Some? ==> e.payload.AttemptFinished?)
    ensures KnownOfAttempt(AttemptAfter(e, t), m) <==> KnownOfAttempt(t, m) || Bears(x, e, m)
  {
    if !e.payload.GoldUnblinded? && !e.payload.AttemptFinished? { hide AttemptAfter, Allowed; }
  }

  lemma {:induction false} AttemptMarks(x: Context, s: State, e: Event, t: AttemptState, c: CaseState, m: Mark)
    requires Allowed(x, s, e, t, c) && OfAttempt(m) && m.a == e.attemptId && !e.payload.AttemptStarted?
    requires AttemptCallsOwned(s.callOwner, e.attemptId, t)
    requires t.finished.None? && (t.gold.Some? ==> e.payload.AttemptFinished?)
    ensures KnownOfAttempt(AttemptAfter(e, t), m) <==> KnownOfAttempt(t, m) || Bears(x, e, m)
  {
    hide AttemptAfter, Allowed, AttemptCallsOwned, KnownOfAttempt, Bears;
    match m
    case PhaseBegun(_, _, _) => PhaseMarks(x, s, e, t, c, m);
    case PhaseEnded(_, _, _) => PhaseMarks(x, s, e, t, c, m);
    case CallBegun(_, _) => CallBegunMarks(x, s, e, t, c, m);
    case CallEnded(_, _, _) => CallEndedMarks(x, s, e, t, c, m);
    case CallPriced(_, _, _) => CostMarks(x, s, e, t, c, m);
    case Unblinded(_, _) => EndMarks(x, s, e, t, c, m);
    case Ended(_, _) => EndMarks(x, s, e, t, c, m);
    case _ => OriginMarks(x, s, e, t, c, m);
  }

  lemma {:induction false} FirstMarks(x: Context, e: Event, m: Mark)
    requires e.payload.AttemptStarted? && OfAttempt(m) && m.a == e.attemptId
    ensures KnownOfAttempt(NewAttempt(e, e.payload.start), m) <==> Bears(x, e, m)
  {
  }

  lemma {:induction false} CaseMarks(x: Context, s: State, e: Event, c: CaseState, m: Mark)
    requires (m.CaseCalled? || m.CaseSubmitted? || m.CaseCounted?) && m.c == e.caseId
    ensures KnownOfCase(CaseAfter(x, e, c), m) <==> KnownOfCase(c, m) || Bears(x, e, m)
  {
    if e.payload.ModelCallStarted? {
      assert (c.callIds + [e.payload.call.callId])[|c.callIds|] == e.payload.call.callId;
    }
  }

  lemma {:induction false} OtherAttemptsMarks(x: Context, e: Event, m: Mark)
    requires OfAttempt(m) && m.a != e.attemptId
    ensures !Bears(x, e, m)
  {
  }

  lemma {:induction false} StepKnowsOfAttempt(x: Context, s: State, e: Event, m: Mark)
    requires CallsOwned(s) && Faults(x, s, e) == [] && OfAttempt(m)
    ensures Known(Next(x, s, e), m) <==> Known(s, m) || Bears(x, e, m)
  {
    StepTouches(x, s, e);
    hide TouchesOneCase, TouchesRegisters;
    if m.a != e.attemptId {
      OtherAttemptsMarks(x, e, m);
      hide Faults, Next, Bears, KnownOfAttempt, AttemptAfter, CallsOwned, NewAttempt;
    } else if e.payload.AttemptStarted? {
      FirstMarks(x, e, m);
      hide Faults, Next, Bears, KnownOfAttempt, AttemptAfter, CallsOwned, NewAttempt;
    } else {
      AdmittedShape(x, s, e);
      StepAllowed(x, s, e);
      hide Faults, Next, StartFaults, PayloadFaults, AfterPayload, Bears, KnownOfAttempt, AttemptAfter, Allowed,
           NewAttempt;
      assert AttemptCallsOwned(s.callOwner, e.attemptId, s.attempts[e.attemptId]);
      hide AttemptCallsOwned;
      AttemptMarks(x, s, e, s.attempts[e.attemptId], CaseOf(s, e.caseId), m);
    }
  }

  predicate OfCase(m: Mark) {
    m.CaseCalled? || m.CaseSubmitted? || m.CaseCounted?
  }

  lemma {:induction false} CaseTouched(x: Context, s: State, e: Event, c: string)
    requires Faults(x, s, e) == []
    ensures CaseOf(Next(x, s, e), c) == if c == e.caseId then CaseAfter(x, e, CaseOf(s, c)) else CaseOf(s, c)
  {
    StepTouches(x, s, e);
    hide Faults, Next, TouchesOneAttempt, TouchesRegisters, CaseAfter;
  }

  lemma {:induction false} StepKnowsOfCase(x: Context, s: State, e: Event, m: Mark)
    requires Faults(x, s, e) == [] && OfCase(m)
    ensures Known(Next(x, s, e), m) <==> Known(s, m) || Bears(x, e, m)
  {
    CaseTouched(x, s, e, m.c);
    hide Faults, Next, CaseAfter, KnownOfCase, CaseOf;
    if m.c == e.caseId {
      CaseMarks(x, s, e, CaseOf(s, e.caseId), m);
      hide Bears;
    }
  }

  lemma {:induction false} StepKnowsOfRegister(x: Context, s: State, e: Event, m: Mark)
    requires Faults(x, s, e) == [] && (m.CallOwned? || m.EntryUsed?)
    ensures Known(Next(x, s, e), m) <==> Known(s, m) || Bears(x, e, m)
  {
    StepTouches(x, s, e);
    NewCallIsNew(x, s, e);
    hide Faults, Next, TouchesOneAttempt, TouchesOneCase;
  }

  lemma {:induction false} NothingKnown(m: Mark)
    ensures !Known(Initial(), m)
  {
  }

  ghost predicate Said(x: Context, events: seq<Event>, m: Mark) {
    exists i :: 0 <= i < |events| && Bears(x, events[i], m)
  }

  lemma {:induction false} SaidSplits(x: Context, events: seq<Event>, m: Mark)
    requires events != []
    ensures Said(x, events, m) <==>
              Said(x, events[..|events| - 1], m) || Bears(x, events[|events| - 1], m)
  {
    hide Bears;
    var n := |events| - 1;
    assert forall i :: 0 <= i < n ==> events[..n][i] == events[i];
  }

  /** The index of an error-free ledger knows exactly what the ledger's events said. */
  lemma {:induction false} IndexIsItsEvents(x: Context, events: seq<Event>, m: Mark)
    requires Clean(x, events)
    ensures Known(Run(x, events), m) <==> Said(x, events, m)
  {
    hide Faults, Next, Known, Bears;
    if events == [] {
      NothingKnown(m);
    } else {
      var n := |events| - 1;
      CleanSplits(x, events);
      IndexIsItsEvents(x, events[..n], m);
      SaidSplits(x, events, m);
      CleanRunOwnsCalls(x, events[..n]);
      if OfAttempt(m) {
        StepKnowsOfAttempt(x, Run(x, events[..n]), events[n], m);
      } else if OfCase(m) {
        StepKnowsOfCase(x, Run(x, events[..n]), events[n], m);
      } else {
        StepKnowsOfRegister(x, Run(x, events[..n]), events[n], m);
      }
    }
  }
}

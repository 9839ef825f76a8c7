/** The validator's index and the summary's index of the same error-free ledger say the same. */
module TraceAgreement {
  import opened Wrappers
  import opened Trace
  import opened TraceFacts
  import opened TraceGuarantees
  import opened TraceReducer

  // ---------------------------------------------------------------- the two indices

  predicate AttemptsAgree(r: SummaryAttempt, t: AttemptState) {
    && r.caseId == t.caseId && r.finish == t.finished
    && r.modelStarts == t.callStarts.Keys && r.modelFinishes == t.callFinishes
    && r.phaseStarts == t.phaseStarts.Keys && r.phaseFinishes == t.phaseFinishes.Keys
  }

  ghost predicate Agrees(ix: Index, s: State) {
    && ix.attempts.Keys == s.attempts.Keys && ix.order == s.attemptOrder && ix.callOwner == s.callOwner
    && forall a :: a in s.attempts ==> AttemptsAgree(ix.attempts[a], s.attempts[a])
  }

  lemma {:induction false} PhaseStepAgrees(e: Event, r: SummaryAttempt, t: AttemptState)
    requires AttemptsAgree(r, t) && (e.payload.PhaseStarted? || e.payload.PhaseFinished?)
    ensures AttemptsAgree(SummaryAfter(r, e), AttemptAfter(e, t))
  {
    match e.payload
    case PhaseStarted(key, at) => assert t.phaseStarts[key := at].Keys == t.phaseStarts.Keys + {key};
    case PhaseFinished(key, f) => assert t.phaseFinishes[key := f].Keys == t.phaseFinishes.Keys + {key};
  }

  lemma {:induction false} CallStepAgrees(e: Event, r: SummaryAttempt, t: AttemptState)
    requires AttemptsAgree(r, t) && (e.payload.ModelCallStarted? || e.payload.ModelCallFinished?)
    ensures AttemptsAgree(SummaryAfter(r, e), AttemptAfter(e, t))
  {
    if e.payload.ModelCallStarted? {
      var call := e.payload.call;
      assert t.callStarts[call.callId := call].Keys == t.callStarts.Keys + {call.callId};
    }
  }

  lemma {:induction false} CostStepAgrees(e: Event, r: SummaryAttempt, t: AttemptState)
    requires AttemptsAgree(r, t) && (e.payload.CostRecorded? || e.payload.AttemptFinished?)
    ensures AttemptsAgree(SummaryAfter(r, e), AttemptAfter(e, t))
  {
  }

  lemma {:induction false} QuietStepAgrees(e: Event, r: SummaryAttempt, t: AttemptState)
    requires AttemptsAgree(r, t)
             && (e.payload.AttemptStarted? || e.payload.CandidateSubmitted? || e.payload.ReviewRecorded?
                 || e.payload.GoldUnblinded?)
    ensures AttemptsAgree(SummaryAfter(r, e), AttemptAfter(e, t))
  {
  }

  lemma {:induction false} AttemptStepAgrees(e: Event, r: SummaryAttempt, t: AttemptState)
    requires AttemptsAgree(r, t)
    ensures AttemptsAgree(SummaryAfter(r, e), AttemptAfter(e, t))
  {
    hide AttemptsAgree, SummaryAfter, AttemptAfter;
    match e.payload
    case PhaseStarted(_, _) => PhaseStepAgrees(e, r, t);
    case PhaseFinished(_, _) => PhaseStepAgrees(e, r, t);
    case ModelCallStarted(_) => CallStepAgrees(e, r, t);
    case ModelCallFinished(_, _) => CallStepAgrees(e, r, t);
    case CostRecorded(_) => CostStepAgrees(e, r, t);
    case AttemptFinished(_) => CostStepAgrees(e, r, t);
    case _ => QuietStepAgrees(e, r, t);
  }

  lemma {:induction false} NoEventError(x: Context, s: State, ix: Index, e: Event)
    requires Agrees(ix, s) && Faults(x, s, e) == []
    ensures EventError(x.knownCases, ix, e).None?
  {
    AdmittedShape(x, s, e);
    StepAllowed(x, s, e);
    hide Faults, Next, StartFaults, PayloadFaults, AfterStart, AfterPayload;
    if e.attemptId in s.attempts { assert AttemptsAgree(ix.attempts[e.attemptId], s.attempts[e.attemptId]); }
  }

  lemma {:induction false} StepOrders(x: Context, s: State, e: Event)
    requires Faults(x, s, e) == []
    ensures var s' := Next(x, s, e);
            && s'.attemptOrder == (if e.payload.AttemptStarted? then s.attemptOrder + [e.attemptId] else s.attemptOrder)
            && s'.caseOrder == (if e.caseId in s.cases then s.caseOrder else s.caseOrder + [e.caseId])
            && s'.attempts.Keys == s.attempts.Keys + {e.attemptId} && s'.cases.Keys == s.cases.Keys + {e.caseId}
  {
    AdmittedShape(x, s, e);
    hide Faults, Next, StartFaults, PayloadFaults, AttemptAfter, CaseAfter;
  }

  lemma {:induction false} StepAgrees(x: Context, s: State, ix: Index, e: Event)
    requires Agrees(ix, s) && Faults(x, s, e) == []
    requires e.payload.AttemptStarted? || e.attemptId in ix.attempts
    ensures Agrees(IndexAfter(ix, e), Next(x, s, e))
  {
    StepOrders(x, s, e);
    StepTouches(x, s, e);
    var ix', s' := IndexAfter(ix, e), Next(x, s, e);
    OwnersAgree(s, s', ix, e);
    hide Faults, Next, TouchesOneAttempt, TouchesOneCase, TouchesRegisters, AttemptsAgree, SummaryAfter;
    assert ix'.attempts.Keys == s'.attempts.Keys && ix'.order == s'.attemptOrder;
    hide IndexAfter;
    forall a | a in s'.attempts ensures a in ix'.attempts && AttemptsAgree(ix'.attempts[a], s'.attempts[a]) {
      StepAgreesAt(s, s', ix, e, a);
    }
  }

  lemma {:induction false} OwnersAgree(s: State, s': State, ix: Index, e: Event)
    requires ix.callOwner == s.callOwner && TouchesRegisters(s, s', e)
    requires e.payload.AttemptStarted? || e.attemptId in ix.attempts
    ensures IndexAfter(ix, e).callOwner == s'.callOwner
  {
    hide SummaryAfter;
  }

  lemma {:induction false} StepAgreesAt(s: State, s': State, ix: Index, e: Event, a: string)
    requires Agrees(ix, s) && TouchesOneAttempt(s, s', e) && a in s'.attempts
    requires e.payload.AttemptStarted? || e.attemptId in ix.attempts
    ensures a in IndexAfter(ix, e).attempts && AttemptsAgree(IndexAfter(ix, e).attempts[a], s'.attempts[a])
  {
    hide SummaryAfter, AttemptAfter, AttemptsAgree, NewAttempt;
    if a != e.attemptId {
      assert AttemptsAgree(ix.attempts[a], s.attempts[a]);
    } else if e.payload.AttemptStarted? {
      NewAttemptAgrees(e);
    } else {
      AttemptStepAgrees(e, ix.attempts[a], s.attempts[a]);
    }
  }

  lemma {:induction false} NewAttemptAgrees(e: Event)
    requires e.payload.AttemptStarted?
    ensures AttemptsAgree(SummaryAttempt(e.caseId, [], None, {}, map[], {}, {}), NewAttempt(e, e.payload.start))
  {
  }

  /** The summary reads every ledger the validator accepts, and indexes it alike. */
  lemma {:induction false} SummaryReadsAcceptedLedgers(x: Context, events: seq<Event>)
    requires Clean(x, events)
    ensures IndexOf(x.knownCases, events).Ok? && Agrees(IndexOf(x.knownCases, events).value, Run(x, events))
  {
    hide Faults, Next, EventError, IndexAfter;
    if events != [] {
      var n := |events| - 1;
      CleanSplits(x, events);
      SummaryReadsAcceptedLedgers(x, events[..n]);
      var ix := IndexOf(x.knownCases, events[..n]).value;
      NoEventError(x, Run(x, events[..n]), ix, events[n]);
      assert events[n].payload.AttemptStarted? || events[n].attemptId in ix.attempts by {
        StepAllowed(x, Run(x, events[..n]), events[n]);
      }
      StepAgrees(x, Run(x, events[..n]), ix, events[n]);
    }
  }

  // ---------------------------------------------------------------- insertion orders

  ghost predicate Distinct(order: seq<string>) {
    forall i, j :: 0 <= i < j < |order| ==> order[i] != order[j]
  }

  ghost predicate Lists(order: seq<string>, keys: set<string>) {
    (forall k :: k in order <==> k in keys) && Distinct(order)
  }

  lemma {:induction false} DistinctSplits(order: seq<string>, k: string)
    requires Distinct(order) && order != []
    ensures var n := |order| - 1;
            && Distinct(order[..n]) && order[n] !in order[..n]
            && (k in order <==> k in order[..n] || k == order[n])
  {
    var n := |order| - 1;
    assert order == order[..n] + [order[n]];
  }

  lemma {:induction false} ListsOneMore(order: seq<string>, keys: set<string>, k: string)
    requires Lists(order, keys)
    ensures Lists(if k in keys then order else order + [k], keys + {k})
  {
    if k in keys {
      assert keys + {k} == keys;
    } else {
      assert forall y :: y in order + [k] <==> y in order || y == k;
    }
  }

  lemma {:induction false} OrdersListTheKeys(x: Context, events: seq<Event>)
    requires Clean(x, events)
    ensures Lists(Run(x, events).attemptOrder, Run(x, events).attempts.Keys)
    ensures Lists(Run(x, events).caseOrder, Run(x, events).cases.Keys)
  {
    hide Faults, Next, Lists;
    if events == [] {
      assert Run(x, events).attempts.Keys == {} && Run(x, events).cases.Keys == {};
      NothingListed();
    } else {
      var n := |events| - 1;
      CleanSplits(x, events);
      OrdersListTheKeys(x, events[..n]);
      var s := Run(x, events[..n]);
      StepOrders(x, s, events[n]);
      ListsOneMore(s.attemptOrder, s.attempts.Keys, events[n].attemptId);
      ListsOneMore(s.caseOrder, s.cases.Keys, events[n].caseId);
      StepTouches(x, s, events[n]);
      hide AttemptAfter, CaseAfter, CaseOf;
    }
  }

  lemma {:induction false} NothingListed()
    ensures Lists([], {})
  {
  }

  // ---------------------------------------------------------------- counted finishes

  ghost predicate CountedOnce(x: Context, s: State) {
    && (forall a :: a in s.attempts ==> AttemptCounted(x, s, a))
    && (forall c :: c in s.cases && s.cases[c].countedFinish.Some? ==> CaseCounted(x, s, c))
  }

  /** A terminal finish is the counted finish of its case, and says so; any other is an infrastructure error. */
  predicate AttemptCounted(x: Context, s: State, a: string)
    requires a in s.attempts
  {
    var t := s.attempts[a];
    t.finished.Some? ==>
      && t.finished.value.disposition == (if Terminal(x, t.finished.value) then Counted else RetriableInfrastructure)
      && (Terminal(x, t.finished.value) ==>
            t.caseId in s.cases && s.cases[t.caseId].countedFinish == Some(CountedFinish(a, t.finished.value)))
  }

  predicate CaseCounted(x: Context, s: State, c: string)
    requires c in s.cases && s.cases[c].countedFinish.Some?
  {
    var f := s.cases[c].countedFinish.value;
    && f.attemptId in s.attempts && s.attempts[f.attemptId].caseId == c
    && s.attempts[f.attemptId].finished == Some(f.finish) && Terminal(x, f.finish)
  }

  lemma {:induction false} AttemptStaysCounted(x: Context, s: State, s': State, a: string)
    requires a in s.attempts && AttemptCounted(x, s, a) && Grows(s, s') && s.attempts[a].finished.Some?
    ensures a in s'.attempts && AttemptCounted(x, s', a)
  {
    assert AttemptGrows(s.attempts[a], s'.attempts[a]);
    var c := s.attempts[a].caseId;
    if c in s.cases { assert CaseGrows(s.cases[c], s'.cases[c]); }
  }

  lemma {:induction false} OpenAttemptCounted(x: Context, s: State, s': State, e: Event, a: string)
    requires TouchesOneAttempt(s, s', e) && a in s'.attempts && !(a == e.attemptId && e.payload.AttemptFinished?)
    requires a in s.attempts ==> s.attempts[a].finished.None?
    ensures AttemptCounted(x, s', a)
  {
    hide AttemptAfter;
  }

  lemma {:induction false} AttemptsStayCounted(x: Context, s: State, e: Event, a: string)
    requires x.lane.Scored? && CallsOwned(s) && CountedOnce(x, s) && Faults(x, s, e) == []
    requires a in Next(x, s, e).attempts
    ensures AttemptCounted(x, Next(x, s, e), a)
  {
    var s' := Next(x, s, e);
    if a in s.attempts && s.attempts[a].finished.Some? {
      StepGrows(x, s, e);
      hide Faults, Next, Grows, CallsOwned, AttemptCounted, CaseCounted;
      AttemptStaysCounted(x, s, s', a);
    } else if a == e.attemptId && e.payload.AttemptFinished? {
      StepReflects(x, s, e);
      FinishRules(x, s, e);
      hide Faults, Next, CountedOnce, CallsOwned;
    } else {
      StepTouches(x, s, e);
      hide Faults, Next, CountedOnce, CallsOwned, AttemptCounted, TouchesOneAttempt, TouchesOneCase, TouchesRegisters;
      OpenAttemptCounted(x, s, s', e, a);
    }
  }

  lemma {:induction false} CaseStaysCounted(x: Context, s: State, s': State, c: string)
    requires c in s.cases && s.cases[c].countedFinish.Some? && CaseCounted(x, s, c) && Grows(s, s')
    ensures c in s'.cases && s'.cases[c].countedFinish.Some? && CaseCounted(x, s', c)
  {
    var a := s.cases[c].countedFinish.value.attemptId;
    assert CaseGrows(s.cases[c], s'.cases[c]) && AttemptGrows(s.attempts[a], s'.attempts[a]);
  }

  lemma {:induction false} NewCountedFinish(x: Context, e: Event, c: CaseState)
    requires c.countedFinish.None? && CaseAfter(x, e, c).countedFinish.Some?
    ensures e.payload.AttemptFinished? && Terminal(x, e.payload.finish)
    ensures CaseAfter(x, e, c).countedFinish == Some(CountedFinish(e.attemptId, e.payload.finish))
  {
  }

  lemma {:induction false} CasesStayCounted(x: Context, s: State, e: Event, c: string)
    requires x.lane.Scored? && CallsOwned(s) && CountedOnce(x, s) && Faults(x, s, e) == []
    requires c in Next(x, s, e).cases && Next(x, s, e).cases[c].countedFinish.Some?
    ensures CaseCounted(x, Next(x, s, e), c)
  {
    if c in s.cases && s.cases[c].countedFinish.Some? {
      StepGrows(x, s, e);
      hide Faults, Next, CallsOwned, Grows, CaseCounted;
      CaseStaysCounted(x, s, Next(x, s, e), c);
    } else {
      StepTouches(x, s, e);
      hide Faults, Next, CountedOnce, CallsOwned, CaseAfter, TouchesOneAttempt, TouchesRegisters;
      NewCountedFinish(x, e, CaseOf(s, c));
      StepReflects(x, s, e);
    }
  }

  lemma {:induction false} CleanRunCountsOnce(x: Context, events: seq<Event>)
    requires x.lane.Scored? && Clean(x, events)
    ensures CountedOnce(x, Run(x, events))
  {
    hide Faults, Next;
    if events != [] {
      var n := |events| - 1;
      CleanSplits(x, events);
      CleanRunCountsOnce(x, events[..n]);
      CleanRunOwnsCalls(x, events[..n]);
      var s, s' := Run(x, events[..n]), Run(x, events);
      hide Run, CallsOwned, AttemptCounted, CaseCounted;
      forall a | a in s'.attempts ensures AttemptCounted(x, s', a) { AttemptsStayCounted(x, s, events[n], a); }
      forall c | c in s'.cases && s'.cases[c].countedFinish.Some? ensures CaseCounted(x, s', c) {
        CasesStayCounted(x, s, events[n], c);
      }
    }
  }

  /** Every finish is in one of the two counters' halves: counted, or waiting for a retry. */
  predicate FinishesAddUp(f: Finishes) {
    |f.outcomes| == |f.counted| + |f.infrastructure|
  }

  lemma {:induction false} FinishStepAddsUp(f: Finishes, a: string, t: SummaryAttempt)
    requires FinishesAddUp(f) && (t.finish.Some? ==> !t.finish.value.disposition.NonScoring?)
    ensures FinishAfter(f, a, t).Ok? ==> FinishesAddUp(FinishAfter(f, a, t).value)
  {
  }

  /** One more finish never meets a case that is already counted: only the case's own counted finish counts. */
  lemma {:induction false} FinishIsNew(x: Context, s: State, a: string, r: SummaryAttempt, f: Finishes)
    requires a in s.attempts && AttemptsAgree(r, s.attempts[a]) && AttemptCounted(x, s, a)
    requires r.caseId in f.counted && r.caseId in s.cases && s.cases[r.caseId].countedFinish.Some? ==>
               s.cases[r.caseId].countedFinish.value.attemptId != a
                 && s.cases[r.caseId].countedFinish == Some(f.counted[r.caseId])
    requires r.caseId in f.counted ==> r.caseId in s.cases && s.cases[r.caseId].countedFinish.Some?
    ensures FinishAfter(f, a, r).Ok?
    ensures var f' := FinishAfter(f, a, r).value.counted;
            && (forall c :: c in f.counted ==> c in f' && f'[c] == f.counted[c])
            && (forall c :: c in f' && c !in f.counted ==>
                  c in s.cases && s.cases[c].countedFinish == Some(f'[c]) && f'[c].attemptId == a)
            && (r.finish.Some? && r.finish.value.disposition.Counted? ==> r.caseId in f')
  {
  }

  /** What is counted so far is the cases' own counted finishes, for exactly the attempts read so far. */
  ghost predicate CountsRight(s: State, ix: Index, order: seq<string>, m: map<string, CountedFinish>) {
    && (forall c :: c in m ==> c in s.cases && s.cases[c].countedFinish == Some(m[c]) && m[c].attemptId in order)
    && (forall a :: a in order && CountsAt(ix, a) ==> ix.attempts[a].caseId in m)
  }

  lemma {:induction false} CountsOneMore(x: Context, s: State, ix: Index, order: seq<string>, a: string, f: Finishes)
    requires CountsRight(s, ix, order, f.counted) && a !in order
    requires a in ix.attempts && a in s.attempts && AttemptsAgree(ix.attempts[a], s.attempts[a])
             && AttemptCounted(x, s, a)
    ensures FinishAfter(f, a, ix.attempts[a]).Ok?
    ensures CountsRight(s, ix, order + [a], FinishAfter(f, a, ix.attempts[a]).value.counted)
  {
    FinishIsNew(x, s, a, ix.attempts[a], f);
    hide FinishAfter, AttemptsAgree, AttemptCounted;
    assert forall b :: b in order + [a] <==> b in order || b == a;
  }

  lemma {:induction false} CountingNeverRaises(x: Context, s: State, ix: Index, order: seq<string>)
    requires CountedOnce(x, s) && Agrees(ix, s)
    requires Distinct(order) && forall a :: a in order ==> a in s.attempts
    ensures FinishesOf(ix, order).Ok? && CountsRight(s, ix, order, FinishesOf(ix, order).value.counted)
  {
    hide FinishAfter, AttemptsAgree, CaseCounted, AttemptCounted, CountsRight;
    if order != [] {
      var n := |order| - 1;
      var a := order[n];
      DistinctSplits(order, a);
      CountingNeverRaises(x, s, ix, order[..n]);
      assert order == order[..n] + [a];
      assert AttemptsAgree(ix.attempts[a], s.attempts[a]) && AttemptCounted(x, s, a);
      CountsOneMore(x, s, ix, order[..n], a, FinishesOf(ix, order[..n]).value);
    } else {
      NothingCounted(s, ix);
    }
  }

  lemma {:induction false} NothingCounted(s: State, ix: Index)
    ensures CountsRight(s, ix, [], NO_FINISHES.counted)
  {
  }

  lemma {:induction false} AllFinishesAddUp(x: Context, s: State, ix: Index, order: seq<string>)
    requires CountedOnce(x, s) && Agrees(ix, s) && FinishesOf(ix, order).Ok?
    ensures FinishesAddUp(FinishesOf(ix, order).value)
  {
    hide FinishesAddUp, FinishAfter;
    if order != [] {
      var n := |order| - 1;
      var a := order[n];
      AllFinishesAddUp(x, s, ix, order[..n]);
      if a in ix.attempts {
        assert AttemptsAgree(ix.attempts[a], s.attempts[a]) && AttemptCounted(x, s, a);
        FinishStepAddsUp(FinishesOf(ix, order[..n]).value, a, ix.attempts[a]);
      }
    } else {
      NoFinishesAddUp();
    }
  }

  lemma {:induction false} NoFinishesAddUp()
    ensures FinishesAddUp(NO_FINISHES)
  {
  }

  lemma {:induction false} EveryCountedFinishIsSeen(x: Context, s: State, ix: Index, c: string)
    requires CountedOnce(x, s) && Agrees(ix, s) && Lists(ix.order, s.attempts.Keys)
    requires c in s.cases && s.cases[c].countedFinish.Some?
    ensures CountsAt(ix, s.cases[c].countedFinish.value.attemptId)
    ensures s.cases[c].countedFinish.value.attemptId in ix.order
            && ix.attempts[s.cases[c].countedFinish.value.attemptId].caseId == c
  {
    var a := s.cases[c].countedFinish.value.attemptId;
    assert CaseCounted(x, s, c) && AttemptCounted(x, s, a) && AttemptsAgree(ix.attempts[a], s.attempts[a]);
    assert a in ix.order;
  }

  /**
   Both folds pick the same counted finish for every case, the summary never raises on two, and every
   finish it counts is either counted for its case or an infrastructure error of it.
   */
  lemma {:induction false} SummaryCountsTheSameFinishes(x: Context, events: seq<Event>)
    requires x.lane.Scored? && Clean(x, events)
    ensures IndexOf(x.knownCases, events).Ok?
    ensures var ix, s := IndexOf(x.knownCases, events).value, Run(x, events);
            && FinishesOf(ix, ix.order).Ok? && FinishesAddUp(FinishesOf(ix, ix.order).value)
            && FinishesOf(ix, ix.order).value.counted
                 == map c | c in s.cases && s.cases[c].countedFinish.Some? :: s.cases[c].countedFinish.value
  {
    hide Faults, Next, Run, IndexOf;
    SummaryReadsAcceptedLedgers(x, events);
    CleanRunCountsOnce(x, events);
    OrdersListTheKeys(x, events);
    var ix, s := IndexOf(x.knownCases, events).value, Run(x, events);
    CountingNeverRaises(x, s, ix, ix.order);
    AllFinishesAddUp(x, s, ix, ix.order);
    hide FinishesOf, CountedOnce, Agrees, Lists, FinishesAddUp;
    var m := FinishesOf(ix, ix.order).value.counted;
    forall c | c in s.cases && s.cases[c].countedFinish.Some? ensures c in m {
      EveryCountedFinishIsSeen(x, s, ix, c);
    }
    SameFinishes(s, m);
  }

  lemma {:induction false} SameFinishes(s: State, m: map<string, CountedFinish>)
    requires forall c :: c in m ==> c in s.cases && s.cases[c].countedFinish == Some(m[c])
    requires forall c :: c in s.cases && s.cases[c].countedFinish.Some? ==> c in m
    ensures m == map c | c in s.cases && s.cases[c].countedFinish.Some? :: s.cases[c].countedFinish.value
  {
  }
}

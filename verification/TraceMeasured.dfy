/**
 When the summary calls an accepted campaign fully measured, which its cost gate needs: exactly when every
 attempt made a call of its own that is finished and exactly priced, has the other scored costs, and no
 recorded cost is estimated or unknown. A case may make one call, so no case may have been retried.
 */
module TraceMeasured {
  import opened Wrappers
  import opened Trace
  import opened TraceFacts
  import opened TraceGuarantees
  import opened TraceReducer
  import opened TraceAgreement
  import opened TraceTotals
  import opened TraceCalls

  // ---------------------------------------------------------------- what the projection collects

  predicate StartsIn(ix: Index, a: string, call: string) {
    a in ix.attempts && call in ix.attempts[a].modelStarts
  }

  predicate FinishesIn(ix: Index, a: string, call: string) {
    a in ix.attempts && call in ix.attempts[a].modelFinishes
  }

  predicate HasPrice(costs: seq<Cost>, call: string) {
    exists k :: 0 <= k < |costs| && Prices(costs[k], call)
  }

  predicate HasStatus(costs: seq<Cost>, status: CostStatus) {
    exists k :: 0 <= k < |costs| && costs[k].status == status
  }

  predicate PricesIn(ix: Index, a: string, call: string) {
    a in ix.attempts && HasPrice(ix.attempts[a].costs, call)
  }

  predicate StatusIn(ix: Index, a: string, status: CostStatus) {
    a in ix.attempts && HasStatus(ix.attempts[a].costs, status)
  }

  lemma {:induction false} OneMoreCost(costs: seq<Cost>, call: string, status: CostStatus)
    requires costs != []
    ensures HasPrice(costs, call) <==> HasPrice(costs[..|costs| - 1], call) || Prices(costs[|costs| - 1], call)
    ensures HasStatus(costs, status) <==> HasStatus(costs[..|costs| - 1], status) || costs[|costs| - 1].status == status
  {
    var n := |costs| - 1;
    assert forall k :: 0 <= k < n ==> costs[..n][k] == costs[k];
  }

  lemma {:induction false} CostsCollect(t: Tally, costs: seq<Cost>, call: string, status: CostStatus)
    requires TallyCosts(t, costs).Ok?
    ensures var r := TallyCosts(t, costs).value;
            && (call in r.costed <==> call in t.costed || HasPrice(costs, call))
            && (status in r.statuses <==> status in t.statuses || HasStatus(costs, status))
            && r.missing == t.missing && r.starts == t.starts && r.finishes == t.finishes
  {
    hide HasPrice, HasStatus, Add;
    if costs == [] {
      NoCosts(call, status);
    } else {
      CostsCollect(t, costs[..|costs| - 1], call, status);
      OneMoreCost(costs, call, status);
    }
  }

  lemma {:induction false} NoCosts(call: string, status: CostStatus)
    ensures !HasPrice([], call) && !HasStatus([], status)
  {
  }

  ghost predicate Collects(ix: Index, order: seq<string>, t: Tally, call: string, status: CostStatus) {
    && (call in t.starts <==> exists a :: a in order && StartsIn(ix, a, call))
    && (call in t.finishes <==> exists a :: a in order && FinishesIn(ix, a, call))
    && (call in t.costed <==> exists a :: a in order && PricesIn(ix, a, call))
    && (status in t.statuses <==> exists a :: a in order && StatusIn(ix, a, status))
  }

  predicate AllCovered(ix: Index, order: seq<string>) {
    forall a :: a in order && a in ix.attempts ==> CoversCategories(ix.attempts[a].costs)
  }

  lemma {:induction false} TallyCollects(ix: Index, order: seq<string>, call: string, status: CostStatus)
    requires TallyOf(ix, order).Ok?
    ensures Collects(ix, order, TallyOf(ix, order).value, call, status)
    ensures TallyOf(ix, order).value.missing == [] <==> AllCovered(ix, order)
  {
    hide TallyCosts, CoversCategories, StartsIn, FinishesIn, PricesIn, StatusIn;
    if order != [] {
      var n := |order| - 1;
      TallyCollects(ix, order[..n], call, status);
      assert order == order[..n] + [order[n]];
      var before, after := TallyOf(ix, order[..n]).value, TallyOf(ix, order).value;
      AttemptCollects(ix, order[n], before, after, call, status);
      hide TallyOf, Collects, AllCovered;
      OneMoreCollects(ix, order[..n], order[n], before, after, call, status);
      OneMoreCovered(ix, order[..n], order[n]);
    }
  }

  lemma {:induction false} AttemptCollects(ix: Index, a: string, before: Tally, after: Tally, call: string,
                                           status: CostStatus)
    requires if a in ix.attempts then TallyCosts(AddCalls(before, a, ix.attempts[a]), ix.attempts[a].costs) == Ok(after)
             else after == before
    ensures call in after.starts <==> call in before.starts || StartsIn(ix, a, call)
    ensures call in after.finishes <==> call in before.finishes || FinishesIn(ix, a, call)
    ensures call in after.costed <==> call in before.costed || PricesIn(ix, a, call)
    ensures status in after.statuses <==> status in before.statuses || StatusIn(ix, a, status)
    ensures after.missing == []
            <==> before.missing == [] && (a in ix.attempts ==> CoversCategories(ix.attempts[a].costs))
  {
    hide CoversCategories, TallyCosts;
    if a in ix.attempts { CostsCollect(AddCalls(before, a, ix.attempts[a]), ix.attempts[a].costs, call, status); }
  }

  lemma {:induction false} OneMoreCollects(ix: Index, order: seq<string>, a: string, before: Tally, after: Tally,
                                           call: string, status: CostStatus)
    requires Collects(ix, order, before, call, status)
    requires call in after.starts <==> call in before.starts || StartsIn(ix, a, call)
    requires call in after.finishes <==> call in before.finishes || FinishesIn(ix, a, call)
    requires call in after.costed <==> call in before.costed || PricesIn(ix, a, call)
    requires status in after.statuses <==> status in before.statuses || StatusIn(ix, a, status)
    ensures Collects(ix, order + [a], after, call, status)
  {
    hide StartsIn, FinishesIn, PricesIn, StatusIn;
    assert forall b :: b in order + [a] <==> b in order || b == a;
  }

  lemma {:induction false} OneMoreCovered(ix: Index, order: seq<string>, a: string)
    ensures AllCovered(ix, order + [a])
            <==> AllCovered(ix, order) && (a in ix.attempts ==> CoversCategories(ix.attempts[a].costs))
  {
    hide CoversCategories;
    assert forall b :: b in order + [a] <==> b in order || b == a;
  }

  // ---------------------------------------------------------------- the same, in terms of the ledger

  lemma {:induction false} EventHasCost(events: seq<Event>, i: nat) returns (k: nat)
    requires i < |events| && events[i].payload.CostRecorded?
    ensures k < |CostsOf(events, events[i].attemptId)|
            && CostsOf(events, events[i].attemptId)[k] == events[i].payload.cost
  {
    var n, a := |events| - 1, events[i].attemptId;
    if i < n {
      k := EventHasCost(events[..n], i);
    } else {
      k := |CostsOf(events[..n], a)|;
    }
  }

  lemma {:induction false} CostHasEvent(events: seq<Event>, a: string, k: nat) returns (i: nat)
    requires k < |CostsOf(events, a)|
    ensures i < |events| && events[i].attemptId == a && events[i].payload == CostRecorded(CostsOf(events, a)[k])
  {
    var n := |events| - 1;
    if k < |CostsOf(events[..n], a)| {
      i := CostHasEvent(events[..n], a, k);
    } else {
      i := n;
    }
  }

  /** A call of an error-free ledger has a cost of its attempt exactly when the validator's index has it priced. */
  lemma {:induction false} PricedCalls(x: Context, events: seq<Event>, a: string, call: string)
    requires Clean(x, events) && a in Run(x, events).attempts
    ensures HasPrice(CostsOf(events, a), call) <==> call in Run(x, events).attempts[a].callCosts
  {
    hide Faults, Run;
    if HasPrice(CostsOf(events, a), call) {
      var k :| 0 <= k < |CostsOf(events, a)| && Prices(CostsOf(events, a)[k], call);
      var i := CostHasEvent(events, a, k);
      CleanRunReflects(x, events, i);
    }
    if call in Run(x, events).attempts[a].callCosts {
      var i := PricedCallHasEvent(x, events, a, call);
      var k := EventHasCost(events, i);
      assert Prices(CostsOf(events, a)[k], call);
    }
  }

  /** Every recorded cost is measured or verified zero. */
  predicate ExactCosts(events: seq<Event>) {
    forall i :: 0 <= i < |events| && events[i].payload.CostRecorded? ==> IsExact(events[i].payload.cost.status)
  }

  predicate IsExact(status: CostStatus) {
    status.Measured? || status.ZeroVerified?
  }

  lemma {:induction false} StatusesAreExact(x: Context, events: seq<Event>, ix: Index, order: seq<string>)
    requires Clean(x, events) && IndexOf(x.knownCases, events) == Ok(ix) && Lists(order, ix.attempts.Keys)
    ensures ExactCosts(events) <==>
              forall status, a :: a in order && StatusIn(ix, a, status) ==> IsExact(status)
  {
    hide Faults, Run, IndexOf, IsExact;
    SummaryReadsAcceptedLedgers(x, events);
    if ExactCosts(events) {
      forall status, a | a in order && StatusIn(ix, a, status) ensures IsExact(status) {
        SummaryCosts(x, events, a);
        var k :| 0 <= k < |ix.attempts[a].costs| && ix.attempts[a].costs[k].status == status;
        var i := CostHasEvent(events, a, k);
      }
    }
    if forall status, a :: a in order && StatusIn(ix, a, status) ==> IsExact(status) {
      forall i | 0 <= i < |events| && events[i].payload.CostRecorded? ensures IsExact(events[i].payload.cost.status) {
        var a := events[i].attemptId;
        CleanRunReflects(x, events, i);
        SummaryCosts(x, events, a);
        var k := EventHasCost(events, i);
        assert StatusIn(ix, a, events[i].payload.cost.status);
      }
    }
  }

  // ---------------------------------------------------------------- the exact condition

  const OTHER_CATEGORIES := {SandboxCompute, ArtifactTransfer, PaidStorage}

  /** The attempt made a call of its own that is finished and exactly priced, and has the other scored costs. */
  ghost predicate AttemptMeasured(events: seq<Event>, a: string, t: AttemptState) {
    (exists call :: call in t.callStarts && CallIsSettled(t, call))
      && OTHER_CATEGORIES <= ScoredCategories(CostsOf(events, a))
  }

  ghost predicate EveryAttemptMeasured(events: seq<Event>, s: State) {
    forall a :: a in s.attempts ==> AttemptMeasured(events, a, s.attempts[a])
  }

  predicate OwnedBy(s: State, call: string, a: string) {
    call in s.callOwner && s.callOwner[call] == a
  }

  predicate FinishedByOwner(s: State, call: string) {
    call in s.callOwner && s.callOwner[call] in s.attempts && call in s.attempts[s.callOwner[call]].callFinishes
  }

  predicate PricedByOwner(s: State, call: string) {
    call in s.callOwner && s.callOwner[call] in s.attempts && call in s.attempts[s.callOwner[call]].callCosts
  }

  lemma {:induction false} CallsIn(x: Context, events: seq<Event>, ix: Index, a: string, call: string)
    requires Clean(x, events) && IndexOf(x.knownCases, events) == Ok(ix)
    ensures StartsIn(ix, a, call) <==> OwnedBy(Run(x, events), call, a)
    ensures FinishesIn(ix, a, call) <==> OwnedBy(Run(x, events), call, a) && FinishedByOwner(Run(x, events), call)
    ensures PricesIn(ix, a, call) <==> OwnedBy(Run(x, events), call, a) && PricedByOwner(Run(x, events), call)
  {
    hide Faults, Run, IndexOf, HasPrice;
    SummaryReadsAcceptedLedgers(x, events);
    CleanRunOwnsCalls(x, events);
    var s := Run(x, events);
    if a in s.attempts {
      assert AttemptsAgree(ix.attempts[a], s.attempts[a]) && AttemptCallsOwned(s.callOwner, a, s.attempts[a]);
      SummaryCosts(x, events, a);
      PricedCalls(x, events, a, call);
    }
  }

  /** The projection's call sets, said of the validator's index. */
  lemma {:induction false} CallSets(x: Context, events: seq<Event>, ix: Index, t: Tally, call: string)
    requires Clean(x, events) && IndexOf(x.knownCases, events) == Ok(ix) && TallyOf(ix, ix.order) == Ok(t)
    ensures call in t.starts <==> call in Run(x, events).callOwner
    ensures call in t.finishes <==> FinishedByOwner(Run(x, events), call)
    ensures call in t.costed <==> PricedByOwner(Run(x, events), call)
  {
    hide Faults, Run, IndexOf, TallyOf, StartsIn, FinishesIn, PricesIn, FinishedByOwner, PricedByOwner;
    SummaryReadsAcceptedLedgers(x, events);
    OrdersListTheKeys(x, events);
    CleanRunOwnsCalls(x, events);
    TallyCollects(ix, ix.order, call, Measured);
    var s := Run(x, events);
    forall a ensures StartsIn(ix, a, call) <==> OwnedBy(s, call, a)
             ensures FinishesIn(ix, a, call) <==> OwnedBy(s, call, a) && FinishedByOwner(s, call)
             ensures PricesIn(ix, a, call) <==> OwnedBy(s, call, a) && PricedByOwner(s, call)
    {
      CallsIn(x, events, ix, a, call);
    }
    OwnedSets(s, ix, t, call);
  }

  lemma {:induction false} OwnedSets(s: State, ix: Index, t: Tally, call: string)
    requires Collects(ix, ix.order, t, call, Measured) && Lists(ix.order, s.attempts.Keys) && CallsOwned(s)
    requires forall a :: StartsIn(ix, a, call) <==> OwnedBy(s, call, a)
    requires forall a :: FinishesIn(ix, a, call) <==> OwnedBy(s, call, a) && FinishedByOwner(s, call)
    requires forall a :: PricesIn(ix, a, call) <==> OwnedBy(s, call, a) && PricedByOwner(s, call)
    ensures call in t.starts <==> call in s.callOwner
    ensures call in t.finishes <==> FinishedByOwner(s, call)
    ensures call in t.costed <==> PricedByOwner(s, call)
  {
    hide StartsIn, FinishesIn, PricesIn, AttemptCallsOwned;
    if call in s.callOwner {
      var a := s.callOwner[call];
      assert a in ix.order;
      assert StartsIn(ix, a, call);
      assert FinishesIn(ix, a, call) <==> FinishedByOwner(s, call);
      assert PricesIn(ix, a, call) <==> PricedByOwner(s, call);
    }
  }

  ghost predicate CallsAreClosed(s: State) {
    forall call :: call in s.callOwner ==> FinishedByOwner(s, call) && PricedByOwner(s, call)
  }

  /** `fully_measured`, said of the ledger: all categories covered, all calls finished and priced, all costs exact. */
  lemma {:induction false} MeasuredLedger(x: Context, events: seq<Event>, ix: Index, t: Tally)
    requires Clean(x, events) && IndexOf(x.knownCases, events) == Ok(ix) && TallyOf(ix, ix.order) == Ok(t)
    ensures FullyMeasured(ix, t) <==>
              ix.order != [] && AllCovered(ix, ix.order) && CallsAreClosed(Run(x, events)) && ExactCosts(events)
  {
    hide Faults, Run, IndexOf, TallyOf, FinishedByOwner, PricedByOwner, AllCovered, Collects, StatusIn, Lists;
    SummaryReadsAcceptedLedgers(x, events);
    OrdersListTheKeys(x, events);
    StatusesAreExact(x, events, ix, ix.order);
    hide ExactCosts;
    var s := Run(x, events);
    forall call ensures call in t.starts <==> call in s.callOwner
                ensures call in t.finishes <==> FinishedByOwner(s, call)
                ensures call in t.costed <==> PricedByOwner(s, call)
    {
      CallSets(x, events, ix, t, call);
    }
    TallyCollects(ix, ix.order, "", Unknown);
    TallyCollects(ix, ix.order, "", Estimated);
    Inexact(ix, t);
  }

  lemma {:induction false} Inexact(ix: Index, t: Tally)
    requires Collects(ix, ix.order, t, "", Unknown) && Collects(ix, ix.order, t, "", Estimated)
    ensures t.statuses[Unknown] == 0 && t.statuses[Estimated] == 0 <==>
              forall status, a :: a in ix.order && StatusIn(ix, a, status) ==> IsExact(status)
  {
    hide StatusIn;
    forall status, a | a in ix.order && StatusIn(ix, a, status)
      ensures !IsExact(status) ==> Unknown in t.statuses || Estimated in t.statuses {
    }
  }

  // ---------------------------------------------------------------- one measured call for every attempt

  /** An attempt with a scored model cost made a model call of its own. */
  lemma {:induction false} ModelCostHasCall(x: Context, events: seq<Event>, a: string) returns (call: string)
    requires Clean(x, events) && a in Run(x, events).attempts && ModelInference in ScoredCategories(CostsOf(events, a))
    ensures OwnedBy(Run(x, events), call, a)
  {
    hide Faults, Run, ScoredCategories, Next;
    var k := CategoryHasCost(CostsOf(events, a), ModelInference);
    var j := CostHasEvent(events, a, k);
    CleanRunReflects(x, events, j);
    CleanRunOwnsCalls(x, events);
    var s := Run(x, events);
    call := events[j].payload.cost.sourceCall.value;
    assert call in s.attempts[a].callCosts && AttemptCallsOwned(s.callOwner, a, s.attempts[a]);
  }

  lemma {:induction false} CategoryHasCost(costs: seq<Cost>, k: Category) returns (i: nat)
    requires k in ScoredCategories(costs)
    ensures i < |costs| && costs[i].category == k && costs[i].attribution.CampaignScored?
  {
    var n := |costs| - 1;
    if costs[n].attribution.CampaignScored? && costs[n].category == k {
      i := n;
    } else {
      i := CategoryHasCost(costs[..n], k);
    }
  }

  lemma {:induction false} CostHasCategory(costs: seq<Cost>, i: nat)
    requires i < |costs| && costs[i].attribution.CampaignScored?
    ensures costs[i].category in ScoredCategories(costs)
  {
    if i < |costs| - 1 { CostHasCategory(costs[..|costs| - 1], i); }
  }

  /** A priced call of an attempt is one of its scored model costs. */
  lemma {:induction false} PricedCallCoversModel(x: Context, events: seq<Event>, a: string, call: string)
    requires Clean(x, events) && a in Run(x, events).attempts && call in Run(x, events).attempts[a].callCosts
    ensures ModelInference in ScoredCategories(CostsOf(events, a))
  {
    hide Faults, Run, ScoredCategories;
    var j := PricedCallHasEvent(x, events, a, call);
    CleanRunReflects(x, events, j);
    var k := EventHasCost(events, j);
    CostHasCategory(CostsOf(events, a), k);
  }

  /** An attempt makes at most one call, since its case does. */
  lemma {:induction false} OneCallPerAttempt(x: Context, events: seq<Event>, a: string, p: string, q: string)
    requires Clean(x, events) && OwnedBy(Run(x, events), p, a) && OwnedBy(Run(x, events), q, a)
    ensures p == q
  {
    hide Faults, Run;
    var i := CallHasEvent(x, events, p);
    var j := CallHasEvent(x, events, q);
    CleanRunReflects(x, events, i);
    CleanRunReflects(x, events, j);
    if i < j { OneOfEachPerCase(x, events, i, j); } else if j < i { OneOfEachPerCase(x, events, j, i); }
  }

  lemma {:induction false} SettledIsExact(x: Context, events: seq<Event>, a: string, call: string)
    requires Clean(x, events) && a in Run(x, events).attempts && ExactCosts(events)
    requires call in Run(x, events).attempts[a].callFinishes && call in Run(x, events).attempts[a].callCosts
    ensures CallIsSettled(Run(x, events).attempts[a], call)
  {
    hide Faults, Run;
    var j := PricedCallHasEvent(x, events, a, call);
    assert IsExact(events[j].payload.cost.status);
  }

  lemma {:induction false} CoveredMeans(costs: seq<Cost>)
    ensures CoversCategories(costs)
            <==> ModelInference in ScoredCategories(costs) && OTHER_CATEGORIES <= ScoredCategories(costs)
  {
    hide ScoredCategories;
    assert REQUIRED_CATEGORIES == {ModelInference} + OTHER_CATEGORIES;
  }

  lemma {:induction false} MeasuredAttempt(x: Context, events: seq<Event>, a: string)
    requires Clean(x, events) && a in Run(x, events).attempts && ExactCosts(events)
    requires CallsAreClosed(Run(x, events)) && CoversCategories(CostsOf(events, a))
    ensures AttemptMeasured(events, a, Run(x, events).attempts[a])
  {
    hide Faults, Run, ScoredCategories, CallIsSettled, CoversCategories, ExactCosts;
    CoveredMeans(CostsOf(events, a));
    var call := ModelCostHasCall(x, events, a);
    CleanRunOwnsCalls(x, events);
    var s := Run(x, events);
    assert FinishedByOwner(s, call) && PricedByOwner(s, call) && AttemptCallsOwned(s.callOwner, a, s.attempts[a]);
    SettledIsExact(x, events, a, call);
  }

  lemma {:induction false} MeasuredAttemptIsClosed(x: Context, events: seq<Event>, a: string, call: string)
    requires Clean(x, events) && OwnedBy(Run(x, events), call, a) && a in Run(x, events).attempts
    requires AttemptMeasured(events, a, Run(x, events).attempts[a])
    ensures FinishedByOwner(Run(x, events), call) && PricedByOwner(Run(x, events), call)
  {
    hide Faults, Run, ScoredCategories;
    CleanRunOwnsCalls(x, events);
    var s := Run(x, events);
    var p :| p in s.attempts[a].callStarts && CallIsSettled(s.attempts[a], p);
    assert AttemptCallsOwned(s.callOwner, a, s.attempts[a]);
    OneCallPerAttempt(x, events, a, p, call);
  }

  lemma {:induction false} MeasuredAttemptIsCovered(x: Context, events: seq<Event>, a: string)
    requires Clean(x, events) && a in Run(x, events).attempts && AttemptMeasured(events, a, Run(x, events).attempts[a])
    ensures CoversCategories(CostsOf(events, a))
  {
    hide Faults, Run, ScoredCategories, CoversCategories;
    var t := Run(x, events).attempts[a];
    var p :| p in t.callStarts && CallIsSettled(t, p);
    PricedCallCoversModel(x, events, a, p);
    CoveredMeans(CostsOf(events, a));
  }

  lemma {:induction false} EveryAttemptIs(x: Context, events: seq<Event>)
    requires Clean(x, events) && ExactCosts(events)
    ensures EveryAttemptMeasured(events, Run(x, events)) <==>
              && CallsAreClosed(Run(x, events))
              && forall a :: a in Run(x, events).attempts ==> CoversCategories(CostsOf(events, a))
  {
    hide Faults, Run, CoversCategories, AttemptMeasured, ExactCosts, FinishedByOwner, PricedByOwner;
    CleanRunOwnsCalls(x, events);
    var s := Run(x, events);
    if EveryAttemptMeasured(events, s) {
      forall call | call in s.callOwner ensures FinishedByOwner(s, call) && PricedByOwner(s, call) {
        MeasuredAttemptIsClosed(x, events, s.callOwner[call], call);
      }
      forall a | a in s.attempts ensures CoversCategories(CostsOf(events, a)) {
        MeasuredAttemptIsCovered(x, events, a);
      }
    } else {
      var a :| a in s.attempts && !AttemptMeasured(events, a, s.attempts[a]);
      if CallsAreClosed(s) && CoversCategories(CostsOf(events, a)) { MeasuredAttempt(x, events, a); }
    }
  }

  /** The exact condition, said of the ledger alone. */
  ghost predicate IsMeasured(events: seq<Event>, s: State) {
    s.attempts != map[] && EveryAttemptMeasured(events, s) && ExactCosts(events)
  }

  /**
   An error-free ledger is fully measured, without which the cost gate is not evaluable, exactly when it has
   an attempt, every attempt made a settled call of its own and has the other scored costs, and no recorded
   cost is estimated or unknown.
   */
  lemma {:induction false} FullyMeasuredExactly(x: Context, events: seq<Event>, scope: Scope)
    requires Clean(x, events)
    ensures IndexOf(x.knownCases, events).Ok? && ProjectionOf(IndexOf(x.knownCases, events).value, scope).Ok?
    ensures ProjectionOf(IndexOf(x.knownCases, events).value, scope).value.fullyMeasured
            <==> IsMeasured(events, Run(x, events))
  {
    hide Faults, Run, IndexOf, TallyOf, CoversCategories, AttemptMeasured, ExactCosts, CallsAreClosed, FullyMeasured;
    hide TotalIn, UsageOf, GateOf;
    SummaryTotalsTheSameSpend(x, events, All);
    SummaryReadsAcceptedLedgers(x, events);
    OrdersListTheKeys(x, events);
    var ix, s := IndexOf(x.knownCases, events).value, Run(x, events);
    MeasuredLedger(x, events, ix, TallyOf(ix, ix.order).value);
    forall a | a in ix.attempts ensures ix.attempts[a].costs == CostsOf(events, a) { SummaryCosts(x, events, a); }
    hide Agrees;
    SomeAttempt(ix.order, s.attempts);
    if ExactCosts(events) { EveryAttemptIs(x, events); }
  }

  /**
   The cost gate of an error-free ledger: evaluable exactly for a complete, measured benchmark with a valid
   case, and passed exactly when all scored amounts of the ledger come to at most a dollar for each of them,
   rounded to the micro-USD.
   */
  lemma {:induction false} CostGateExactly(x: Context, events: seq<Event>, scope: Scope)
    requires Clean(x, events)
    ensures IndexOf(x.knownCases, events).Ok? && ProjectionOf(IndexOf(x.knownCases, events).value, scope).Ok?
    ensures var gate := ProjectionOf(IndexOf(x.knownCases, events).value, scope).value.gate;
            && (gate.status.NotEvaluable? <==>
                  !(scope.complete && scope.semanticValid > 0 && IsMeasured(events, Run(x, events))))
            && (gate.status.Passes? <==>
                  scope.complete && scope.semanticValid > 0 && IsMeasured(events, Run(x, events))
                  && 2 * TotalSpend(SCORED, events) < (2 * COST_THRESHOLD + 1) * scope.semanticValid)
  {
    hide Faults, Run, IndexOf, TallyOf, UsageOf, GateOf, FullyMeasured, IsMeasured, Count;
    FullyMeasuredExactly(x, events, scope);
    SummaryTotalsTheSameSpend(x, events, SCORED);
    var ix := IndexOf(x.knownCases, events).value;
    var t := TallyOf(ix, ix.order).value;
    assert TotalIn(t, SCORED) == Count(t.byAttribution, CampaignScored);
    GateExactly(TotalSpend(SCORED, events), FullyMeasured(ix, t), scope);
  }

  lemma {:induction false} SomeAttempt(order: seq<string>, attempts: map<string, AttemptState>)
    requires Lists(order, attempts.Keys)
    ensures order == [] <==> attempts == map[]
  {
    if order != [] { assert order[0] in attempts; }
    if attempts != map[] {
      var a :| a in attempts;
      assert a in order;
    }
  }

  /** So a retried case makes a whole accepted campaign not fully measured: only one of its attempts can call. */
  lemma {:induction false} RetriedCaseIsNeverFullyMeasured(x: Context, events: seq<Event>, c: string, scope: Scope)
    requires x.lane.Scored? && Clean(x, events) && |CaseOf(Run(x, events), c).attemptIds| >= 2
    ensures IndexOf(x.knownCases, events).Ok? && ProjectionOf(IndexOf(x.knownCases, events).value, scope).Ok?
    ensures !ProjectionOf(IndexOf(x.knownCases, events).value, scope).value.fullyMeasured
    ensures ProjectionOf(IndexOf(x.knownCases, events).value, scope).value.gate.status.NotEvaluable?
  {
    hide Faults, Run, IndexOf, ProjectionOf, Next, ScoredCategories, ExactCosts, CallIsSettled;
    FullyMeasuredExactly(x, events, scope);
    CostGateExactly(x, events, scope);
    var s := Run(x, events);
    if EveryAttemptMeasured(events, s) {
      CleanRunIsChained(x, events);
      CleanRunOwnsCalls(x, events);
      var ids := s.cases[c].attemptIds;
      assert Link(s.attempts, ids, 0, c) && Link(s.attempts, ids, 1, c);
      var p := OwnCallOf(x, events, ids[0]);
      var q := OwnCallOf(x, events, ids[1]);
      var i := CallHasEvent(x, events, p);
      var j := CallHasEvent(x, events, q);
      CleanRunReflects(x, events, i);
      CleanRunReflects(x, events, j);
      if i < j { OneOfEachPerCase(x, events, i, j); } else { OneOfEachPerCase(x, events, j, i); }
      assert false;
    }
  }

  lemma {:induction false} OwnCallOf(x: Context, events: seq<Event>, a: string) returns (p: string)
    requires Clean(x, events) && a in Run(x, events).attempts && AttemptMeasured(events, a, Run(x, events).attempts[a])
    ensures OwnedBy(Run(x, events), p, a)
  {
    hide Faults, Run, ScoredCategories, CallIsSettled;
    CleanRunOwnsCalls(x, events);
    var s := Run(x, events);
    p :| p in s.attempts[a].callStarts && CallIsSettled(s.attempts[a], p);
    assert AttemptCallsOwned(s.callOwner, a, s.attempts[a]);
  }
}

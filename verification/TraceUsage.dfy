/**
 The rest of the summary, said of the ledger's events: what the token totals and usage counters add up to,
 which calls are unknown, which attempts lack a scored cost, what the finish counters count and what the
 reported ratios are.
 */
module TraceUsage {
  import opened Wrappers
  import opened Trace
  import opened TraceFacts
  import opened TraceReducer
  import opened TraceAgreement
  import opened TraceTotals
  import opened TraceCalls
  import TI = TraceIndex
  import opened TraceMeasured

  // ---------------------------------------------------------------- usage over the events

  datatype Part = Input | Cached | Output | Total

  /** The tokens a call reports, none if it does not say. */
  function Reports(u: Usage, part: Part): nat {
    var n := match part
      case Input => u.input
      case Cached => u.cached
      case Output => u.output
      case Total => u.total;
    if n.Some? then n.value else 0
  }

  function TokenSum(events: seq<Event>, part: Part): nat {
    if events == [] then 0
    else
      var e := events[|events| - 1];
      TokenSum(events[..|events| - 1], part)
        + (if e.payload.ModelCallFinished? then Reports(e.payload.callFinish.usage, part) else 0)
  }

  /** How many calls finished with this status of usage. */
  function UsageCount(events: seq<Event>, status: UsageStatus): nat {
    if events == [] then 0
    else
      var e := events[|events| - 1];
      UsageCount(events[..|events| - 1], status)
        + (if e.payload.ModelCallFinished? && e.payload.callFinish.usage.status == status then 1 else 0)
  }

  predicate FinishesCall(e: Event, call: string) {
    e.payload.ModelCallFinished? && e.payload.callId == call
  }

  predicate StartsCall(e: Event, call: string) {
    e.payload.ModelCallStarted? && e.payload.call.callId == call
  }

  predicate IsOver(events: seq<Event>, call: string) {
    exists i | 0 <= i < |events| :: FinishesCall(events[i], call)
  }

  /** The calls that started and never finished. */
  function LeftOpen(events: seq<Event>): set<string> {
    set i | 0 <= i < |events| && events[i].payload.ModelCallStarted?
         && !IsOver(events, events[i].payload.call.callId) :: events[i].payload.call.callId
  }

  function TokensOf(t: Tokens, part: Part): nat {
    match part
    case Input => t.input
    case Cached => t.cached
    case Output => t.output
    case Total => t.total
  }

  // ---------------------------------------------------------------- the finished calls of the projection

  lemma {:induction false} TalliedFinish(ix: Index, order: seq<string>, call: string)
    requires TallyOf(ix, order).Ok? && call in TallyOf(ix, order).value.finishes
    ensures exists a :: FinishesIn(ix, a, call)
                     && ix.attempts[a].modelFinishes[call] == TallyOf(ix, order).value.finishes[call]
  {
    hide TallyCosts;
    var n := |order| - 1;
    var a := order[n];
    if a in ix.attempts {
      CostsSpareFinishes(AddCalls(TallyOf(ix, order[..n]).value, a, ix.attempts[a]), ix.attempts[a].costs);
      hide CoversCategories;
      if call in ix.attempts[a].modelFinishes {
        assert FinishesIn(ix, a, call);
      } else {
        TalliedFinish(ix, order[..n], call);
      }
    } else {
      TalliedFinish(ix, order[..n], call);
    }
  }

  lemma {:induction false} TalliedFinishHasEvent(x: Context, events: seq<Event>, ix: Index, t: Tally, call: string)
    returns (i: nat)
    requires Clean(x, events) && IndexOf(x.knownCases, events) == Ok(ix) && TallyOf(ix, ix.order) == Ok(t)
    requires call in t.finishes
    ensures i < |events| && FinishesCall(events[i], call) && events[i].payload.callFinish == t.finishes[call]
  {
    hide Clean, Run, IndexOf, TallyOf;
    TalliedFinish(ix, ix.order, call);
    var a :| FinishesIn(ix, a, call) && ix.attempts[a].modelFinishes[call] == t.finishes[call];
    SummaryReadsAcceptedLedgers(x, events);
    assert AttemptsAgree(ix.attempts[a], Run(x, events).attempts[a]);
    var m := TI.CallEnded(a, call, t.finishes[call]);
    TI.IndexIsItsEvents(x, events, m);
    i :| 0 <= i < |events| && TI.Bears(x, events[i], m);
  }

  lemma {:induction false} EventIsTallied(x: Context, events: seq<Event>, ix: Index, t: Tally, i: nat)
    requires Clean(x, events) && IndexOf(x.knownCases, events) == Ok(ix) && TallyOf(ix, ix.order) == Ok(t)
    requires i < |events| && events[i].payload.ModelCallFinished?
    ensures events[i].payload.callId in t.finishes
    ensures t.finishes[events[i].payload.callId] == events[i].payload.callFinish
  {
    hide Clean, Run, IndexOf, TallyOf;
    var call := events[i].payload.callId;
    var m := TI.CallEnded(events[i].attemptId, call, events[i].payload.callFinish);
    assert TI.Bears(x, events[i], m);
    TI.IndexIsItsEvents(x, events, m);
    CleanRunOwnsCalls(x, events);
    var s := Run(x, events);
    assert AttemptCallsOwned(s.callOwner, events[i].attemptId, s.attempts[events[i].attemptId]);
    CallSets(x, events, ix, t, call);
    var j := TalliedFinishHasEvent(x, events, ix, t, call);
    if i < j { RecordsAreUnique(x, events, i, j); }
    if j < i { RecordsAreUnique(x, events, j, i); }
  }

  function FinishedIds(events: seq<Event>): set<string> {
    if events == [] then {}
    else
      var e := events[|events| - 1];
      FinishedIds(events[..|events| - 1]) + (if e.payload.ModelCallFinished? then {e.payload.callId} else {})
  }

  lemma {:induction false} FinishedIdsAre(events: seq<Event>)
    ensures forall call :: call in FinishedIds(events) <==> IsOver(events, call)
  {
    if events != [] {
      var n := |events| - 1;
      FinishedIdsAre(events[..n]);
      assert forall i :: 0 <= i < n ==> events[..n][i] == events[i];
      forall call ensures IsOver(events, call) <==> IsOver(events[..n], call) || FinishesCall(events[n], call) {
        if IsOver(events[..n], call) {
          var i :| 0 <= i < n && FinishesCall(events[..n][i], call);
          assert FinishesCall(events[i], call);
        }
      }
    }
  }

  /** The finishes of these events are in the map, each once. */
  ghost predicate Holds(m: map<string, CallFinish>, events: seq<Event>) {
    && (forall i :: 0 <= i < |events| && events[i].payload.ModelCallFinished? ==>
          events[i].payload.callId in m && m[events[i].payload.callId] == events[i].payload.callFinish)
    && (forall i, j ::
          0 <= i < j < |events| && events[i].payload.ModelCallFinished? ==>
            !FinishesCall(events[j], events[i].payload.callId))
  }

  lemma {:induction false} HoldsLess(m: map<string, CallFinish>, events: seq<Event>)
    requires Holds(m, events) && events != []
    ensures Holds(m, events[..|events| - 1])
    ensures events[|events| - 1].payload.ModelCallFinished? ==>
              !IsOver(events[..|events| - 1], events[|events| - 1].payload.callId)
  {
    var n := |events| - 1;
    var old_ := events[..n];
    assert forall i :: 0 <= i < n ==> old_[i] == events[i];
    forall i, j | 0 <= i < j < n && old_[i].payload.ModelCallFinished?
      ensures !FinishesCall(old_[j], old_[i].payload.callId)
    {
      assert !FinishesCall(events[j], events[i].payload.callId);
    }
    if events[n].payload.ModelCallFinished? {
      forall i | 0 <= i < n ensures !FinishesCall(old_[i], events[n].payload.callId) {
        assert events[i].payload.ModelCallFinished? ==> !FinishesCall(events[n], events[i].payload.callId);
      }
    }
  }

  /** The tallied usage of these events' calls is what the events report. */
  ghost predicate Sums(u: UsageTally, events: seq<Event>) {
    && (forall part :: TokensOf(u.tokens, part) == TokenSum(events, part))
    && forall status :: u.statuses[status] == UsageCount(events, status)
  }

  lemma {:induction false} SumsOneMore(u: UsageTally, events: seq<Event>)
    requires events != [] && Sums(u, events[..|events| - 1])
    ensures var e := events[|events| - 1];
            if e.payload.ModelCallFinished? then Sums(AddUsage(u, e.payload.callFinish.usage), events)
            else Sums(u, events)
  {
    var n := |events| - 1;
    var e := events[n];
    assert forall part :: TokensOf(u.tokens, part) == TokenSum(events[..n], part);
    if e.payload.ModelCallFinished? {
      var u' := AddUsage(u, e.payload.callFinish.usage);
      forall part ensures TokensOf(u'.tokens, part) == TokenSum(events, part) {
        assert TokensOf(u'.tokens, part) == TokensOf(u.tokens, part) + Reports(e.payload.callFinish.usage, part);
      }
    } else {
      assert forall part :: TokenSum(events, part) == TokenSum(events[..n], part);
    }
  }

  lemma {:induction false} UsageAddsUp(m: map<string, CallFinish>, events: seq<Event>)
    requires Holds(m, events)
    ensures FinishedIds(events) <= m.Keys && Sums(UsageOf(m, FinishedIds(events)), events)
  {
    hide Holds, Sums, AddUsage;
    if events == [] {
      NothingSums();
    } else {
      var n := |events| - 1;
      HoldsLess(m, events);
      UsageAddsUp(m, events[..n]);
      FinishedIdsAre(events[..n]);
      var ids := FinishedIds(events[..n]);
      SumsOneMore(UsageOf(m, ids), events);
      if events[n].payload.ModelCallFinished? {
        var call := events[n].payload.callId;
        assert call in m && m[call] == events[n].payload.callFinish by { LastIsHeld(m, events); }
        UsageInAnyOrder(m, ids + {call}, call);
        assert ids + {call} - {call} == ids && FinishedIds(events) == ids + {call};
      } else {
        assert FinishedIds(events) == ids;
      }
    }
  }

  lemma {:induction false} NothingSums()
    ensures Sums(NO_USAGE, [])
  {
  }

  lemma {:induction false} LastIsHeld(m: map<string, CallFinish>, events: seq<Event>)
    requires Holds(m, events) && events != [] && events[|events| - 1].payload.ModelCallFinished?
    ensures var e := events[|events| - 1];
            e.payload.callId in m && m[e.payload.callId] == e.payload.callFinish
  {
  }

  lemma {:induction false} FinishesAreHeld(x: Context, events: seq<Event>, ix: Index, t: Tally)
    requires Clean(x, events) && IndexOf(x.knownCases, events) == Ok(ix) && TallyOf(ix, ix.order) == Ok(t)
    ensures Holds(t.finishes, events) && t.finishes.Keys == FinishedIds(events)
  {
    hide Clean, IndexOf, TallyOf;
    forall i | 0 <= i < |events| && events[i].payload.ModelCallFinished?
      ensures events[i].payload.callId in t.finishes
              && t.finishes[events[i].payload.callId] == events[i].payload.callFinish
    {
      EventIsTallied(x, events, ix, t, i);
    }
    forall i, j | 0 <= i < j < |events| && events[i].payload.ModelCallFinished?
      ensures !FinishesCall(events[j], events[i].payload.callId)
    {
      RecordsAreUnique(x, events, i, j);
    }
    FinishedIdsAre(events);
    forall call ensures call in t.finishes <==> call in FinishedIds(events) {
      if call in t.finishes {
        var i := TalliedFinishHasEvent(x, events, ix, t, call);
        assert FinishesCall(events[i], call);
      }
    }
  }

  lemma {:induction false} OpenCallsAre(x: Context, events: seq<Event>, ix: Index, t: Tally)
    requires Clean(x, events) && IndexOf(x.knownCases, events) == Ok(ix) && TallyOf(ix, ix.order) == Ok(t)
    requires t.finishes.Keys == FinishedIds(events)
    ensures t.starts - t.finishes.Keys == LeftOpen(events)
  {
    hide Clean, IndexOf, TallyOf, IsOver, FinishedIds, Run;
    FinishedIdsAre(events);
    var s := Run(x, events);
    forall call ensures call in t.starts <==> exists i :: 0 <= i < |events| && StartsCall(events[i], call) {
      CallSets(x, events, ix, t, call);
      if call in s.callOwner {
        var m := TI.CallOwned(s.callOwner[call], call);
        TI.IndexIsItsEvents(x, events, m);
        var i :| 0 <= i < |events| && TI.Bears(x, events[i], m);
        assert StartsCall(events[i], call);
      }
      if i :| 0 <= i < |events| && StartsCall(events[i], call) {
        var m := TI.CallOwned(events[i].attemptId, call);
        assert TI.Bears(x, events[i], m);
        TI.IndexIsItsEvents(x, events, m);
      }
    }
    forall call ensures call in t.starts - t.finishes.Keys <==> call in LeftOpen(events) {
      if call in t.starts && call !in t.finishes {
        var i :| 0 <= i < |events| && StartsCall(events[i], call);
        assert events[i].payload.call.callId == call;
      }
      if call in LeftOpen(events) {
        var i :| 0 <= i < |events| && events[i].payload.ModelCallStarted? && events[i].payload.call.callId == call
          && !IsOver(events, call);
        assert StartsCall(events[i], call);
      }
    }
  }

  /**
   On an error-free ledger each token total is the sum of what the finished calls report, each usage counter
   their number, and the usage is unknown for the calls left open and those that finished without saying.
   */
  lemma {:induction false} UsageExactly(x: Context, events: seq<Event>, scope: Scope)
    requires Clean(x, events)
    ensures IndexOf(x.knownCases, events).Ok? && ProjectionOf(IndexOf(x.knownCases, events).value, scope).Ok?
    ensures var p := ProjectionOf(IndexOf(x.knownCases, events).value, scope).value;
            && p.usage.tokens.input == TokenSum(events, Input) && p.usage.tokens.cached == TokenSum(events, Cached)
            && p.usage.tokens.output == TokenSum(events, Output) && p.usage.tokens.total == TokenSum(events, Total)
            && (forall status :: p.usage.statuses[status] == UsageCount(events, status))
            && p.unknownUsage == |LeftOpen(events)| + UsageCount(events, UnknownUsage)
  {
    hide Clean, IndexOf, TallyOf, UsageOf, FullyMeasured, GateOf, TotalIn, Run, LeftOpen, UsageCount, TokenSum;
    SummaryTotalsTheSameSpend(x, events, All);
    var ix := IndexOf(x.knownCases, events).value;
    var t := TallyOf(ix, ix.order).value;
    FinishesAreHeld(x, events, ix, t);
    UsageAddsUp(t.finishes, events);
    OpenCallsAre(x, events, ix, t);
    var u := UsageOf(t.finishes, t.finishes.Keys);
    assert TokensOf(u.tokens, Input) == TokenSum(events, Input)
           && TokensOf(u.tokens, Cached) == TokenSum(events, Cached);
    assert TokensOf(u.tokens, Output) == TokenSum(events, Output)
           && TokensOf(u.tokens, Total) == TokenSum(events, Total);
  }

  // ---------------------------------------------------------------- the ratios

  /** The nearest integer to n / d, the larger one of two. */
  predicate IsNearest(v: nat, n: nat, d: nat) {
    (2 * v - 1) * d <= 2 * n < (2 * v + 1) * d
  }

  lemma {:induction false} RatioIsNearest(n: nat, d: nat)
    requires d > 0
    ensures IsNearest(RoundedRatio(n, d), n, d)
  {
    var v := RoundedRatio(n, d);
    var rest := (2 * n + d) % (2 * d);
    assert 2 * n + d == v * (2 * d) + rest && 0 <= rest < 2 * d;
    assert v * (2 * d) == 2 * v * d;
    assert (2 * v - 1) * d == 2 * v * d - d && (2 * v + 1) * d == 2 * v * d + d;
  }

  /** The ratio is reported exactly when it may be, as the nearest integer. */
  predicate IsRatio(r: Option<nat>, reported: bool, n: nat, d: nat) {
    (r.Some? <==> reported && d > 0) && (r.Some? ==> IsNearest(r.value, n, d))
  }

  lemma {:induction false} GateRatios(total: nat, measured: bool, scope: Scope)
    ensures var gate := GateOf(total, measured, scope);
            && IsRatio(gate.perAttempted, measured, total, scope.attemptedCases)
            && IsRatio(gate.perValid, measured, total, scope.semanticValid)
            && (BenchmarkIncomplete in gate.reasons <==> !scope.complete)
            && (CostNotFullyMeasured in gate.reasons <==> !measured)
            && (ZeroSemanticValid in gate.reasons <==> scope.semanticValid == 0)
            && |gate.reasons| <= 3 && forall i, j :: 0 <= i < j < |gate.reasons| ==> gate.reasons[i] != gate.reasons[j]
  {
    if scope.attemptedCases > 0 { RatioIsNearest(total, scope.attemptedCases); }
    if scope.semanticValid > 0 { RatioIsNearest(total, scope.semanticValid); }
    hide RoundedRatio, IsNearest;
  }

  /**
   The two ratios of an error-free ledger are its scored amounts over the attempted and over the valid cases,
   reported only for a measured ledger, and each reason against the gate is given once, exactly if it applies.
   */
  lemma {:induction false} RatiosExactly(x: Context, events: seq<Event>, scope: Scope)
    requires Clean(x, events)
    ensures IndexOf(x.knownCases, events).Ok? && ProjectionOf(IndexOf(x.knownCases, events).value, scope).Ok?
    ensures var gate := ProjectionOf(IndexOf(x.knownCases, events).value, scope).value.gate;
            var measured := IsMeasured(events, Run(x, events));
            && IsRatio(gate.perAttempted, measured, TotalSpend(SCORED, events), scope.attemptedCases)
            && IsRatio(gate.perValid, measured, TotalSpend(SCORED, events), scope.semanticValid)
            && (BenchmarkIncomplete in gate.reasons <==> !scope.complete)
            && (CostNotFullyMeasured in gate.reasons <==> !measured)
            && (ZeroSemanticValid in gate.reasons <==> scope.semanticValid == 0)
            && forall i, j :: 0 <= i < j < |gate.reasons| ==> gate.reasons[i] != gate.reasons[j]
  {
    hide Clean, Run, IndexOf, TallyOf, UsageOf, GateOf, FullyMeasured, IsMeasured, Count, IsRatio;
    FullyMeasuredExactly(x, events, scope);
    SummaryTotalsTheSameSpend(x, events, SCORED);
    var ix := IndexOf(x.knownCases, events).value;
    var t := TallyOf(ix, ix.order).value;
    assert TotalIn(t, SCORED) == Count(t.byAttribution, CampaignScored);
    GateRatios(TotalSpend(SCORED, events), FullyMeasured(ix, t), scope);
  }

  // ---------------------------------------------------------------- attempts without their costs

  predicate HasScored(events: seq<Event>, a: string, category: Category) {
    exists i | 0 <= i < |events| ::
      events[i].attemptId == a && events[i].payload.CostRecorded? && events[i].payload.cost.category == category
      && events[i].payload.cost.attribution.CampaignScored?
  }

  /** A scored cost for the model, for the sandbox, for transfers and for storage. */
  predicate HasItsCosts(events: seq<Event>, a: string) {
    && HasScored(events, a, ModelInference) && HasScored(events, a, SandboxCompute)
    && HasScored(events, a, ArtifactTransfer) && HasScored(events, a, PaidStorage)
  }

  /** The attempts in the order they started. */
  function Started(events: seq<Event>): seq<string> {
    if events == [] then []
    else
      var e := events[|events| - 1];
      Started(events[..|events| - 1]) + (if e.payload.AttemptStarted? then [e.attemptId] else [])
  }

  function WithoutCosts(events: seq<Event>, order: seq<string>): seq<string> {
    if order == [] then []
    else
      var a := order[|order| - 1];
      WithoutCosts(events, order[..|order| - 1]) + (if HasItsCosts(events, a) then [] else [a])
  }

  lemma {:induction false} ScoredIs(events: seq<Event>, a: string, category: Category)
    ensures category in ScoredCategories(CostsOf(events, a)) <==> HasScored(events, a, category)
  {
    if events != [] {
      var n := |events| - 1;
      ScoredIs(events[..n], a, category);
      assert forall i :: 0 <= i < n ==> events[..n][i] == events[i];
      var costs := CostsOf(events[..n], a);
      if events[n].attemptId == a && events[n].payload.CostRecorded? {
        assert (costs + [events[n].payload.cost])[..|costs|] == costs;
      } else {
        assert CostsOf(events, a) == costs;
      }
      OneMoreScored(events, a, category);
      hide HasScored;
    }
  }

  lemma {:induction false} OneMoreScored(events: seq<Event>, a: string, category: Category)
    requires events != []
    ensures var e := events[|events| - 1];
            HasScored(events, a, category) <==>
              || HasScored(events[..|events| - 1], a, category)
              || (e.attemptId == a && e.payload.CostRecorded? && e.payload.cost.category == category
                  && e.payload.cost.attribution.CampaignScored?)
  {
    var n := |events| - 1;
    assert forall i :: 0 <= i < n ==> events[..n][i] == events[i];
  }

  lemma {:induction false} CoverIs(events: seq<Event>, a: string)
    ensures CoversCategories(CostsOf(events, a)) <==> HasItsCosts(events, a)
  {
    ScoredIs(events, a, ModelInference);
    ScoredIs(events, a, SandboxCompute);
    ScoredIs(events, a, ArtifactTransfer);
    ScoredIs(events, a, PaidStorage);
    hide CostsOf, HasScored, ScoredCategories;
  }

  lemma {:induction false} TallyMisses(x: Context, events: seq<Event>, ix: Index, order: seq<string>)
    requires Clean(x, events) && IndexOf(x.knownCases, events) == Ok(ix) && TallyOf(ix, order).Ok?
    requires forall a :: a in order ==> a in ix.attempts
    ensures TallyOf(ix, order).value.missing == WithoutCosts(events, order)
  {
    hide Clean, IndexOf, TallyCosts, CoversCategories, HasItsCosts;
    if order != [] {
      var n := |order| - 1;
      var a := order[n];
      assert forall b :: b in order[..n] ==> b in order;
      TallyMisses(x, events, ix, order[..n]);
      SummaryCosts(x, events, a);
      CoverIs(events, a);
      CostsCollect(AddCalls(TallyOf(ix, order[..n]).value, a, ix.attempts[a]), ix.attempts[a].costs, "", Measured);
    }
  }

  lemma {:induction false} OrderIsStarts(x: Context, events: seq<Event>)
    requires Clean(x, events)
    ensures Run(x, events).attemptOrder == Started(events)
  {
    hide Faults, Next;
    if events == [] {
      assert Run(x, events).attemptOrder == [];
    } else {
      var n := |events| - 1;
      CleanSplits(x, events);
      OrderIsStarts(x, events[..n]);
      StepOrders(x, Run(x, events[..n]), events[n]);
    }
  }

  /** The attempts reported as missing costs are those that lack one of the four scored ones, in starting order. */
  lemma {:induction false} MissingExactly(x: Context, events: seq<Event>)
    requires Clean(x, events)
    ensures IndexOf(x.knownCases, events).Ok?
    ensures var ix := IndexOf(x.knownCases, events).value;
            TallyOf(ix, ix.order).Ok? && TallyOf(ix, ix.order).value.missing == WithoutCosts(events, Started(events))
  {
    hide Clean, Run, IndexOf, TallyOf, TotalIn, WithoutCosts;
    SummaryTotalsTheSameSpend(x, events, All);
    SummaryReadsAcceptedLedgers(x, events);
    OrdersListTheKeys(x, events);
    OrderIsStarts(x, events);
    var ix := IndexOf(x.knownCases, events).value;
    assert forall a :: a in ix.order ==> a in ix.attempts;
    TallyMisses(x, events, ix, ix.order);
  }

  // ---------------------------------------------------------------- the finish counters

  /** Which finishes to count: with this outcome, or left for a retry of this case. */
  datatype Kind = WithOutcome(outcome: Outcome) | ToRetry(caseId: string)

  predicate IsOfKind(kind: Kind, caseId: string, f: Finish) {
    match kind
    case WithOutcome(o) => f.outcome == o
    case ToRetry(c) => caseId == c && f.disposition.RetriableInfrastructure?
  }

  function FinishCount(events: seq<Event>, kind: Kind): nat {
    if events == [] then 0
    else
      var e := events[|events| - 1];
      FinishCount(events[..|events| - 1], kind)
        + (if e.payload.AttemptFinished? && IsOfKind(kind, e.caseId, e.payload.finish) then 1 else 0)
  }

  function Counter(f: Finishes, kind: Kind): nat {
    match kind
    case WithOutcome(o) => f.outcomes[o]
    case ToRetry(c) => f.infrastructure[c]
  }

  function CountAt(ix: Index, kind: Kind, a: string): nat {
    if a in ix.attempts && ix.attempts[a].finish.Some?
       && IsOfKind(kind, ix.attempts[a].caseId, ix.attempts[a].finish.value) then 1 else 0
  }

  function CountOver(ix: Index, kind: Kind, order: seq<string>): nat {
    if order == [] then 0 else CountOver(ix, kind, order[..|order| - 1]) + CountAt(ix, kind, order[|order| - 1])
  }

  lemma {:induction false} FinishCounts(f: Finishes, a: string, t: SummaryAttempt, kind: Kind)
    requires FinishAfter(f, a, t).Ok?
    ensures Counter(FinishAfter(f, a, t).value, kind)
         == Counter(f, kind) + (if t.finish.Some? && IsOfKind(kind, t.caseId, t.finish.value) then 1 else 0)
  {
  }

  lemma {:induction false} CountersCount(ix: Index, order: seq<string>, kind: Kind)
    requires FinishesOf(ix, order).Ok?
    ensures Counter(FinishesOf(ix, order).value, kind) == CountOver(ix, kind, order)
  {
    hide FinishAfter, Counter;
    if order == [] {
      NothingCounts(kind);
    } else {
      var n := |order| - 1;
      CountersCount(ix, order[..n], kind);
      if order[n] in ix.attempts {
        FinishCounts(FinishesOf(ix, order[..n]).value, order[n], ix.attempts[order[n]], kind);
      }
    }
  }

  lemma {:induction false} NothingCounts(kind: Kind)
    ensures Counter(NO_FINISHES, kind) == 0
  {
  }

  lemma {:induction false} CountMoves(ix: Index, ix': Index, kind: Kind, order: seq<string>, a: string, d: nat)
    requires Distinct(order) && CountAt(ix', kind, a) == CountAt(ix, kind, a) + d
    requires forall b :: b != a ==> CountAt(ix', kind, b) == CountAt(ix, kind, b)
    ensures CountOver(ix', kind, order) == CountOver(ix, kind, order) + (if a in order then d else 0)
  {
    hide CountAt, Distinct;
    if order != [] {
      DistinctSplits(order, a);
      CountMoves(ix, ix', kind, order[..|order| - 1], a, d);
    }
  }

  lemma {:induction false} CountExtends(ix: Index, kind: Kind, order: seq<string>, a: string)
    ensures CountOver(ix, kind, order + [a]) == CountOver(ix, kind, order) + CountAt(ix, kind, a)
  {
    assert (order + [a])[..|order|] == order;
  }

  function AddedCount(kind: Kind, e: Event): nat {
    if e.payload.AttemptFinished? && IsOfKind(kind, e.caseId, e.payload.finish) then 1 else 0
  }

  lemma {:induction false} StepCountsAt(ix: Index, e: Event, kind: Kind, a: string)
    requires e.payload.AttemptStarted? <==> e.attemptId !in ix.attempts
    requires e.attemptId in ix.attempts ==>
               ix.attempts[e.attemptId].caseId == e.caseId && ix.attempts[e.attemptId].finish.None?
    ensures CountAt(IndexAfter(ix, e), kind, a)
         == CountAt(ix, kind, a) + (if a == e.attemptId then AddedCount(kind, e) else 0)
  {
  }

  lemma {:induction false} StepCountsUp(ix: Index, e: Event, kind: Kind)
    requires Lists(ix.order, ix.attempts.Keys)
    requires e.payload.AttemptStarted? <==> e.attemptId !in ix.attempts
    requires e.attemptId in ix.attempts ==>
               ix.attempts[e.attemptId].caseId == e.caseId && ix.attempts[e.attemptId].finish.None?
    ensures CountOver(IndexAfter(ix, e), kind, IndexAfter(ix, e).order)
         == CountOver(ix, kind, ix.order) + AddedCount(kind, e)
  {
    var ix' := IndexAfter(ix, e);
    assert ix'.order == if e.payload.AttemptStarted? then ix.order + [e.attemptId] else ix.order;
    assert e.attemptId in ix.order <==> e.attemptId in ix.attempts;
    assert e.payload.AttemptStarted? ==> AddedCount(kind, e) == 0 && CountAt(ix, kind, e.attemptId) == 0;
    hide CountAt, AddedCount, Distinct, IndexAfter, CountOver;
    forall a ensures CountAt(ix', kind, a)
           == CountAt(ix, kind, a) + (if a == e.attemptId then AddedCount(kind, e) else 0) {
      StepCountsAt(ix, e, kind, a);
    }
    if e.payload.AttemptStarted? { CountExtends(ix', kind, ix.order, e.attemptId); }
    CountMoves(ix, ix', kind, ix.order, e.attemptId, AddedCount(kind, e));
  }

  lemma {:induction false} OpenInIndex(x: Context, events: seq<Event>)
    requires Clean(x, events) && events != []
    requires IndexOf(x.knownCases, events[..|events| - 1]).Ok?
    ensures var ix, e := IndexOf(x.knownCases, events[..|events| - 1]).value, events[|events| - 1];
            e.attemptId in ix.attempts ==>
              ix.attempts[e.attemptId].caseId == e.caseId && ix.attempts[e.attemptId].finish.None?
  {
    hide Faults, Next, EventError;
    var n := |events| - 1;
    CleanSplits(x, events);
    SummaryReadsAcceptedLedgers(x, events[..n]);
    AdmittedShape(x, Run(x, events[..n]), events[n]);
    hide Run, IndexOf;
  }

  lemma {:induction false} IndexCounts(x: Context, events: seq<Event>, kind: Kind)
    requires Clean(x, events)
    ensures IndexOf(x.knownCases, events).Ok?
    ensures var ix := IndexOf(x.knownCases, events).value;
            CountOver(ix, kind, ix.order) == FinishCount(events, kind)
  {
    if events != [] {
      var n := |events| - 1;
      IndexSteps(x, events);
      IndexCounts(x, events[..n], kind);
      SummaryReadsAcceptedLedgers(x, events[..n]);
      OrdersListTheKeys(x, events[..n]);
      OpenInIndex(x, events);
      hide Clean, IndexOf, Run;
      StepCountsUp(IndexOf(x.knownCases, events[..n]).value, events[n], kind);
    }
  }

  /** Both finish counters of a scored ledger count its finish events. */
  lemma {:induction false} CountersExactly(x: Context, events: seq<Event>)
    requires x.lane.Scored? && Clean(x, events)
    ensures IndexOf(x.knownCases, events).Ok?
    ensures var ix := IndexOf(x.knownCases, events).value;
            && FinishesOf(ix, ix.order).Ok?
            && (forall o :: FinishesOf(ix, ix.order).value.outcomes[o] == FinishCount(events, WithOutcome(o)))
            && forall c :: FinishesOf(ix, ix.order).value.infrastructure[c] == FinishCount(events, ToRetry(c))
  {
    hide Clean, Run, IndexOf, FinishesOf, FinishCount;
    SummaryCountsTheSameFinishes(x, events);
    var ix := IndexOf(x.knownCases, events).value;
    forall kind ensures Counter(FinishesOf(ix, ix.order).value, kind) == FinishCount(events, kind) {
      CountersCount(ix, ix.order, kind);
      IndexCounts(x, events, kind);
    }
    var f := FinishesOf(ix, ix.order).value;
    forall o ensures f.outcomes[o] == FinishCount(events, WithOutcome(o)) {
      assert Counter(f, WithOutcome(o)) == f.outcomes[o];
    }
    forall c ensures f.infrastructure[c] == FinishCount(events, ToRetry(c)) {
      assert Counter(f, ToRetry(c)) == f.infrastructure[c];
    }
  }
}

/**
 The summary's totals: every total of its cost projection is the sum of the selected amounts of the ledger,
 whatever attempt, category or attribution it is grouped by, and its token totals add up.
 */
module TraceTotals {
  import opened Wrappers
  import opened Trace
  import opened TraceFacts
  import opened TraceGuarantees
  import opened TraceReducer
  import opened TraceAgreement

  // ---------------------------------------------------------------- totals

  function CostsOf(events: seq<Event>, a: string): seq<Cost> {
    if events == [] then []
    else
      var e := events[|events| - 1];
      CostsOf(events[..|events| - 1], a)
        + (if e.attemptId == a && e.payload.CostRecorded? then [e.payload.cost] else [])
  }

  /** Which recorded amounts to add up, or which entries to count. */
  datatype Selection = All | InCategory(category: Category) | Under(attribution: Attribution)
    | Entries | WithStatus(status: CostStatus)

  const SCORED := Under(CampaignScored)

  predicate Selects(sel: Selection, c: Cost) {
    match sel
    case All => true
    case InCategory(k) => c.category == k
    case Under(a) => c.attribution == a
    case Entries => true
    case WithStatus(status) => c.status == status
  }

  function Amount(sel: Selection, c: Cost): nat {
    if !Selects(sel, c) then 0 else if sel.Entries? || sel.WithStatus? then 1 else AmountOf(c)
  }

  function Spend(sel: Selection, costs: seq<Cost>): nat {
    if costs == [] then 0 else Spend(sel, costs[..|costs| - 1]) + Amount(sel, costs[|costs| - 1])
  }

  /** All selected amounts of a ledger, or the number of its selected entries. */
  function TotalSpend(sel: Selection, events: seq<Event>): nat {
    if events == [] then 0 else TotalSpend(sel, events[..|events| - 1]) + AddedSpend(sel, events[|events| - 1])
  }

  function AttemptSpend(sel: Selection, ix: Index, order: seq<string>): nat {
    if order == [] then 0 else AttemptSpend(sel, ix, order[..|order| - 1]) + SpendAt(sel, ix, order[|order| - 1])
  }

  function SpendAt(sel: Selection, ix: Index, a: string): nat {
    if a in ix.attempts then Spend(sel, ix.attempts[a].costs) else 0
  }

  function AddedSpend(sel: Selection, e: Event): nat {
    if e.payload.CostRecorded? then Amount(sel, e.payload.cost) else 0
  }

  lemma {:induction false} AttemptSpendMoves(sel: Selection, ix: Index, ix': Index, order: seq<string>, a: string,
                                             d: nat)
    requires Distinct(order) && SpendAt(sel, ix', a) == SpendAt(sel, ix, a) + d
    requires forall b :: b != a ==> SpendAt(sel, ix', b) == SpendAt(sel, ix, b)
    ensures AttemptSpend(sel, ix', order) == AttemptSpend(sel, ix, order) + (if a in order then d else 0)
  {
    hide SpendAt, Distinct;
    if order != [] {
      DistinctSplits(order, a);
      AttemptSpendMoves(sel, ix, ix', order[..|order| - 1], a, d);
    }
  }

  function CostAt(s: State, c: string): nat {
    CaseOf(s, c).scoredCost
  }

  lemma {:induction false} CaseCostsMove(s: State, s': State, order: seq<string>, c: string, d: nat)
    requires Distinct(order) && CostAt(s', c) == CostAt(s, c) + d
    requires forall b :: b != c ==> CostAt(s', b) == CostAt(s, b)
    ensures CaseCosts(s', order) == CaseCosts(s, order) + (if c in order then d else 0)
  {
    if order != [] {
      DistinctSplits(order, c);
      CaseCostsMove(s, s', order[..|order| - 1], c, d);
      assert CostAt(s', order[|order| - 1]) == CaseOf(s', order[|order| - 1]).scoredCost;
      assert CostAt(s, order[|order| - 1]) == CaseOf(s, order[|order| - 1]).scoredCost;
      hide CaseOf, CostAt, Distinct;
    }
  }

  lemma {:induction false} CaseCostsExtend(s: State, order: seq<string>, c: string)
    ensures CaseCosts(s, order + [c]) == CaseCosts(s, order) + CostAt(s, c)
  {
    assert (order + [c])[..|order|] == order;
  }

  lemma {:induction false} CostSteps(x: Context, s: State, e: Event)
    requires Faults(x, s, e) == []
    ensures forall c :: CostAt(Next(x, s, e), c) == CostAt(s, c) + (if e.caseId == c then AddedSpend(SCORED, e) else 0)
  {
    var s' := Next(x, s, e);
    hide Faults, Next;
    forall c ensures CostAt(s', c) == CostAt(s, c) + (if e.caseId == c then AddedSpend(SCORED, e) else 0) {
      StepSpends(x, s, e, c);
    }
  }

  lemma {:induction false} StepAddsUp(x: Context, s: State, e: Event)
    requires Faults(x, s, e) == [] && Lists(s.caseOrder, s.cases.Keys)
    ensures CaseCosts(Next(x, s, e), Next(x, s, e).caseOrder) == CaseCosts(s, s.caseOrder) + AddedSpend(SCORED, e)
  {
    var s' := Next(x, s, e);
    CostSteps(x, s, e);
    StepOrders(x, s, e);
    assert e.caseId in s.caseOrder <==> e.caseId in s.cases;
    hide Faults, Next, CaseOf, AddedSpend, CostAt, CaseCosts, Distinct;
    if e.caseId !in s.cases {
      NoCostYet(s, e.caseId);
      CaseCostsExtend(s', s.caseOrder, e.caseId);
    }
    CaseCostsMove(s, s', s.caseOrder, e.caseId, AddedSpend(SCORED, e));
  }

  /** The validator's per-case costs add up to the ledger's scored amounts. */
  lemma {:induction false} CaseCostsAddUp(x: Context, events: seq<Event>)
    requires Clean(x, events)
    ensures CaseCosts(Run(x, events), Run(x, events).caseOrder) == TotalSpend(SCORED, events)
  {
    hide Faults, Next, Lists, AddedSpend;
    if events != [] {
      var n := |events| - 1;
      CleanSplits(x, events);
      CaseCostsAddUp(x, events[..n]);
      OrdersListTheKeys(x, events[..n]);
      StepAddsUp(x, Run(x, events[..n]), events[n]);
    }
  }

  lemma {:induction false} NoCostYet(s: State, c: string)
    requires c !in s.cases
    ensures CostAt(s, c) == 0
  {
  }

  function CostsAt(ix: Index, a: string): seq<Cost> {
    if a in ix.attempts then ix.attempts[a].costs else []
  }

  lemma {:induction false} StepCosts(ix: Index, e: Event, a: string)
    requires e.payload.AttemptStarted? <==> e.attemptId !in ix.attempts
    ensures CostsAt(IndexAfter(ix, e), a)
         == CostsAt(ix, a) + (if e.attemptId == a && e.payload.CostRecorded? then [e.payload.cost] else [])
  {
  }

  lemma {:induction false} IndexSteps(x: Context, events: seq<Event>)
    requires Clean(x, events) && events != []
    ensures var n := |events| - 1;
            && Clean(x, events[..n]) && IndexOf(x.knownCases, events[..n]).Ok?
            && (events[n].payload.AttemptStarted?
                <==> events[n].attemptId !in IndexOf(x.knownCases, events[..n]).value.attempts)
            && IndexOf(x.knownCases, events) == Ok(IndexAfter(IndexOf(x.knownCases, events[..n]).value, events[n]))
  {
    hide Faults, Next, EventError, IndexAfter;
    var n := |events| - 1;
    CleanSplits(x, events);
    SummaryReadsAcceptedLedgers(x, events[..n]);
    SummaryReadsAcceptedLedgers(x, events);
    StepTouches(x, Run(x, events[..n]), events[n]);
    hide AttemptAfter, CaseAfter, CaseOf;
  }

  lemma {:induction false} SummaryCosts(x: Context, events: seq<Event>, a: string)
    requires Clean(x, events)
    ensures IndexOf(x.knownCases, events).Ok? && CostsAt(IndexOf(x.knownCases, events).value, a) == CostsOf(events, a)
  {
    if events != [] {
      IndexSteps(x, events);
      hide Clean, IndexOf, IndexAfter, CostsAt;
      SummaryCosts(x, events[..|events| - 1], a);
      StepCosts(IndexOf(x.knownCases, events[..|events| - 1]).value, events[|events| - 1], a);
    }
  }

  lemma {:induction false} AttemptCostsAddUp(sel: Selection, x: Context, events: seq<Event>)
    requires Clean(x, events)
    ensures IndexOf(x.knownCases, events).Ok?
    ensures AttemptSpend(sel, IndexOf(x.knownCases, events).value, IndexOf(x.knownCases, events).value.order)
            == TotalSpend(sel, events)
  {
    if events != [] {
      var n := |events| - 1;
      IndexSteps(x, events);
      AttemptCostsAddUp(sel, x, events[..n]);
      SummaryReadsAcceptedLedgers(x, events[..n]);
      OrdersListTheKeys(x, events[..n]);
      hide Clean, IndexOf, Run;
      IndexStepAddsUp(sel, IndexOf(x.knownCases, events[..n]).value, events[n]);
    }
  }

  lemma {:induction false} SpendSteps(sel: Selection, ix: Index, e: Event, a: string)
    requires e.payload.AttemptStarted? <==> e.attemptId !in ix.attempts
    ensures SpendAt(sel, IndexAfter(ix, e), a)
            == SpendAt(sel, ix, a) + (if a == e.attemptId then AddedSpend(sel, e) else 0)
  {
    StepCosts(ix, e, a);
    var costs := CostsAt(ix, a);
    if a == e.attemptId && e.payload.CostRecorded? { assert (costs + [e.payload.cost])[..|costs|] == costs; }
    hide SummaryAfter;
  }

  lemma {:induction false} AttemptSpendExtends(sel: Selection, ix: Index, order: seq<string>, a: string)
    ensures AttemptSpend(sel, ix, order + [a]) == AttemptSpend(sel, ix, order) + SpendAt(sel, ix, a)
  {
    assert (order + [a])[..|order|] == order;
  }

  lemma {:induction false} IndexStepAddsUp(sel: Selection, ix: Index, e: Event)
    requires Lists(ix.order, ix.attempts.Keys)
    requires e.payload.AttemptStarted? <==> e.attemptId !in ix.attempts
    ensures AttemptSpend(sel, IndexAfter(ix, e), IndexAfter(ix, e).order)
            == AttemptSpend(sel, ix, ix.order) + AddedSpend(sel, e)
  {
    var ix' := IndexAfter(ix, e);
    assert ix'.order == if e.payload.AttemptStarted? then ix.order + [e.attemptId] else ix.order;
    assert e.attemptId in ix.order <==> e.attemptId in ix.attempts;
    assert e.payload.AttemptStarted? ==> AddedSpend(sel, e) == 0 && SpendAt(sel, ix, e.attemptId) == 0;
    hide SpendAt, AddedSpend, Distinct, IndexAfter, AttemptSpend;
    forall a ensures SpendAt(sel, ix', a)
           == SpendAt(sel, ix, a) + (if a == e.attemptId then AddedSpend(sel, e) else 0) {
      SpendSteps(sel, ix, e, a);
    }
    if e.payload.AttemptStarted? { AttemptSpendExtends(sel, ix', ix.order, e.attemptId); }
    AttemptSpendMoves(sel, ix, ix', ix.order, e.attemptId, AddedSpend(sel, e));
  }

  // ---------------------------------------------------------------- the cost projection

  /** Every recorded cost of an accepted ledger has its amount, unless it says it is unknown. */
  lemma {:induction false} CostsAreReadable(x: Context, events: seq<Event>, a: string)
    requires Clean(x, events)
    ensures forall i :: 0 <= i < |CostsOf(events, a)| ==> Readable(CostsOf(events, a)[i])
  {
    hide Faults, Run;
    if events != [] {
      var n := |events| - 1;
      CleanSplits(x, events);
      CostsAreReadable(x, events[..n], a);
      if events[n].payload.CostRecorded? { CostIsReadable(x, Run(x, events[..n]), events[n]); }
    }
  }

  lemma {:induction false} CostIsReadable(x: Context, s: State, e: Event)
    requires Faults(x, s, e) == [] && e.payload.CostRecorded?
    ensures Readable(e.payload.cost)
  {
    AdmittedShape(x, s, e);
    hide Faults, Next, StartFaults, AfterPayload;
    FaultlessCost(s, e.attemptId, s.attempts[e.attemptId], CaseOf(s, e.caseId), e.payload.cost);
  }

  predicate ReadableIndex(ix: Index) {
    forall a, i :: a in ix.attempts && 0 <= i < |ix.attempts[a].costs| ==> Readable(ix.attempts[a].costs[i])
  }

  lemma {:induction false} AcceptedIndexIsReadable(x: Context, events: seq<Event>)
    requires Clean(x, events)
    ensures IndexOf(x.knownCases, events).Ok? && ReadableIndex(IndexOf(x.knownCases, events).value)
  {
    hide Faults, Run, IndexOf;
    SummaryReadsAcceptedLedgers(x, events);
    var ix := IndexOf(x.knownCases, events).value;
    forall a | a in ix.attempts
      ensures forall i :: 0 <= i < |ix.attempts[a].costs| ==> Readable(ix.attempts[a].costs[i])
    {
      SummaryCosts(x, events, a);
      CostsAreReadable(x, events, a);
    }
  }

  /** The projection's own total for a selection. */
  function TotalIn(t: Tally, sel: Selection): nat {
    match sel
    case All => t.recorded
    case InCategory(k) => Count(t.byCategory, k)
    case Under(a) => Count(t.byAttribution, a)
    case Entries => t.entries
    case WithStatus(status) => t.statuses[status]
  }

  lemma {:induction false} CostEntersItsTotals(t: Tally, c: Cost, sel: Selection)
    ensures TotalIn(AddCost(t, c), sel) == TotalIn(t, sel) + Amount(sel, c)
  {
  }

  lemma {:induction false} ReadableCostsTally(t: Tally, costs: seq<Cost>, sel: Selection)
    requires forall i :: 0 <= i < |costs| ==> Readable(costs[i])
    ensures TallyCosts(t, costs).Ok? && TotalIn(TallyCosts(t, costs).value, sel) == TotalIn(t, sel) + Spend(sel, costs)
  {
    hide AddCost, TotalIn, Amount, Readable;
    if costs != [] {
      var n := |costs| - 1;
      ReadableCostsTally(t, costs[..n], sel);
      CostEntersItsTotals(TallyCosts(t, costs[..n]).value, costs[n], sel);
    }
  }

  lemma {:induction false} ReadableIndexTallies(ix: Index, order: seq<string>, sel: Selection)
    requires ReadableIndex(ix)
    ensures TallyOf(ix, order).Ok? && TotalIn(TallyOf(ix, order).value, sel) == AttemptSpend(sel, ix, order)
  {
    hide TallyCosts, CoversCategories;
    if order != [] {
      var n := |order| - 1;
      ReadableIndexTallies(ix, order[..n], sel);
      if order[n] in ix.attempts {
        ReadableCostsTally(AddCalls(TallyOf(ix, order[..n]).value, order[n], ix.attempts[order[n]]),
                           ix.attempts[order[n]].costs, sel);
      }
    } else {
      NothingTallied(sel);
    }
  }

  lemma {:induction false} NothingTallied(sel: Selection)
    ensures TotalIn(NO_COSTS, sel) == 0
  {
  }

  /**
   The cost projection never raises on a ledger the validator accepts. Each of its totals, by category, by
   attribution and overall, is the sum of those amounts over the ledger's events, and each of its counters,
   by status and overall, is their number; the attributable total is also the sum of the validator's
   per-case scored costs.
   */
  lemma {:induction false} SummaryTotalsTheSameSpend(x: Context, events: seq<Event>, sel: Selection)
    requires Clean(x, events)
    ensures IndexOf(x.knownCases, events).Ok?
    ensures var ix, s := IndexOf(x.knownCases, events).value, Run(x, events);
            && TallyOf(ix, ix.order).Ok?
            && TotalIn(TallyOf(ix, ix.order).value, sel) == TotalSpend(sel, events)
            && CaseCosts(s, s.caseOrder) == TotalSpend(SCORED, events)
  {
    hide Faults, Run, IndexOf, TallyOf, TotalIn;
    AcceptedIndexIsReadable(x, events);
    var ix := IndexOf(x.knownCases, events).value;
    ReadableIndexTallies(ix, ix.order, sel);
    AttemptCostsAddUp(sel, x, events);
    CaseCostsAddUp(x, events);
  }

  // ---------------------------------------------------------------- the books balance

  function CategorySum(t: Tally): nat {
    Count(t.byCategory, ModelInference) + Count(t.byCategory, SandboxCompute) + Count(t.byCategory, ArtifactTransfer)
    + Count(t.byCategory, PaidStorage) + Count(t.byCategory, ColdDependencies) + Count(t.byCategory, HumanReview)
  }

  function AttributionSum(t: Tally): nat {
    Count(t.byAttribution, CampaignScored) + Count(t.byAttribution, ColdPrepExcluded)
      + Count(t.byAttribution, HumanLaborExcluded)
  }

  /** The recorded total is the sum over the categories and the sum over the attributions; each entry has one status. */
  predicate Balanced(t: Tally) {
    t.recorded == CategorySum(t) == AttributionSum(t) && |t.statuses| == t.entries
  }

  lemma {:induction false} CostKeepsBalance(t: Tally, c: Cost)
    requires Balanced(t)
    ensures Balanced(AddCost(t, c))
  {
    CategoriesMove(t, c);
    AttributionsMove(t, c);
    hide CategorySum, AttributionSum, Add;
  }

  lemma {:induction false} CategoriesMove(t: Tally, c: Cost)
    ensures CategorySum(AddCost(t, c)) == CategorySum(t) + AmountOf(c)
  {
    CostEntersItsTotals(t, c, InCategory(ModelInference));
    CostEntersItsTotals(t, c, InCategory(SandboxCompute));
    CostEntersItsTotals(t, c, InCategory(ArtifactTransfer));
    CostEntersItsTotals(t, c, InCategory(PaidStorage));
    CostEntersItsTotals(t, c, InCategory(ColdDependencies));
    CostEntersItsTotals(t, c, InCategory(HumanReview));
    hide AddCost, Count;
  }

  lemma {:induction false} AttributionsMove(t: Tally, c: Cost)
    ensures AttributionSum(AddCost(t, c)) == AttributionSum(t) + AmountOf(c)
  {
    CostEntersItsTotals(t, c, Under(CampaignScored));
    CostEntersItsTotals(t, c, Under(ColdPrepExcluded));
    CostEntersItsTotals(t, c, Under(HumanLaborExcluded));
    hide AddCost, Count;
  }

  lemma {:induction false} CostsKeepBalance(t: Tally, costs: seq<Cost>)
    requires Balanced(t) && TallyCosts(t, costs).Ok?
    ensures Balanced(TallyCosts(t, costs).value)
  {
    hide Balanced, AddCost;
    if costs != [] {
      var n := |costs| - 1;
      CostsKeepBalance(t, costs[..n]);
      CostKeepsBalance(TallyCosts(t, costs[..n]).value, costs[n]);
    }
  }

  lemma {:induction false} CallsKeepBalance(t: Tally, id: string, a: SummaryAttempt)
    requires Balanced(t)
    ensures Balanced(AddCalls(t, id, a))
  {
    hide CoversCategories;
  }

  /** Whatever index the projection reads without raising, its books balance. */
  lemma {:induction false} ProjectionBalances(ix: Index, order: seq<string>)
    requires TallyOf(ix, order).Ok?
    ensures Balanced(TallyOf(ix, order).value)
  {
    hide AddCalls, TallyCosts, Balanced;
    if order == [] {
      forall sel ensures TotalIn(NO_COSTS, sel) == 0 { NothingTallied(sel); }
      ZerosBalance(NO_COSTS);
    } else {
      var n := |order| - 1;
      ProjectionBalances(ix, order[..n]);
      if order[n] in ix.attempts {
        var t := TallyOf(ix, order[..n]).value;
        CallsKeepBalance(t, order[n], ix.attempts[order[n]]);
        CostsKeepBalance(AddCalls(t, order[n], ix.attempts[order[n]]), ix.attempts[order[n]].costs);
      }
    }
  }

  lemma {:induction false} ZerosBalance(t: Tally)
    requires (forall sel :: TotalIn(t, sel) == 0) && t.statuses == multiset{} && t.entries == 0
    ensures Balanced(t)
  {
    assert t.recorded == TotalIn(t, All);
    assert TotalIn(t, InCategory(ModelInference)) == TotalIn(t, InCategory(SandboxCompute))
           == TotalIn(t, InCategory(ArtifactTransfer)) == 0;
    assert TotalIn(t, InCategory(PaidStorage)) == TotalIn(t, InCategory(ColdDependencies))
           == TotalIn(t, InCategory(HumanReview)) == 0;
    assert TotalIn(t, Under(CampaignScored)) == TotalIn(t, Under(ColdPrepExcluded))
           == TotalIn(t, Under(HumanLaborExcluded)) == 0;
    hide Count;
  }

  // ---------------------------------------------------------------- tokens

  lemma {:induction false} UsageRules(x: Context, s: State, e: Event)
    requires Faults(x, s, e) == [] && e.payload.ModelCallFinished?
    ensures UsageFaults(e.payload.callFinish.usage) == []
  {
    AdmittedShape(x, s, e);
    hide Faults, Next, StartFaults, AfterPayload, UsageFaults;
  }

  predicate UsagesAreCoherent(finishes: map<string, CallFinish>) {
    forall p :: p in finishes ==> UsageFaults(finishes[p].usage) == []
  }

  lemma {:induction false} StepKeepsUsages(e: Event, t: SummaryAttempt)
    requires UsagesAreCoherent(t.modelFinishes)
    requires e.payload.ModelCallFinished? ==> UsageFaults(e.payload.callFinish.usage) == []
    ensures UsagesAreCoherent(SummaryAfter(t, e).modelFinishes)
  {
  }

  lemma {:induction false} IndexUsagesAreCoherent(x: Context, events: seq<Event>, a: string)
    requires Clean(x, events) && IndexOf(x.knownCases, events).Ok? && a in IndexOf(x.knownCases, events).value.attempts
    ensures UsagesAreCoherent(IndexOf(x.knownCases, events).value.attempts[a].modelFinishes)
  {
    hide Faults, UsageFaults, EventError, UsagesAreCoherent, SummaryAfter;
    if events != [] {
      var n := |events| - 1;
      IndexSteps(x, events);
      CleanSplits(x, events);
      if events[n].payload.ModelCallFinished? { UsageRules(x, Run(x, events[..n]), events[n]); }
      hide Run, IndexOf;
      var ix := IndexOf(x.knownCases, events[..n]).value;
      if a in ix.attempts {
        IndexUsagesAreCoherent(x, events[..n], a);
        if a == events[n].attemptId { StepKeepsUsages(events[n], ix.attempts[a]); }
      } else {
        NoUsages();
      }
    }
  }

  lemma {:induction false} NoUsages()
    ensures UsagesAreCoherent(map[])
  {
  }

  lemma {:induction false} MergedUsages(m: map<string, CallFinish>, m': map<string, CallFinish>)
    requires UsagesAreCoherent(m) && UsagesAreCoherent(m')
    ensures UsagesAreCoherent(m + m')
  {
    hide UsageFaults;
  }

  lemma {:induction false} CostsSpareFinishes(t: Tally, costs: seq<Cost>)
    requires TallyCosts(t, costs).Ok?
    ensures TallyCosts(t, costs).value.finishes == t.finishes
  {
    if costs != [] { CostsSpareFinishes(t, costs[..|costs| - 1]); }
  }

  lemma {:induction false} TallyUsagesAreCoherent(ix: Index, order: seq<string>)
    requires TallyOf(ix, order).Ok? && forall a :: a in ix.attempts ==> UsagesAreCoherent(ix.attempts[a].modelFinishes)
    ensures UsagesAreCoherent(TallyOf(ix, order).value.finishes)
  {
    hide TallyCosts, UsagesAreCoherent;
    if order == [] {
      NoUsages();
    } else {
      var n := |order| - 1;
      TallyUsagesAreCoherent(ix, order[..n]);
      if order[n] in ix.attempts {
        var t := AddCalls(TallyOf(ix, order[..n]).value, order[n], ix.attempts[order[n]]);
        MergedUsages(TallyOf(ix, order[..n]).value.finishes, ix.attempts[order[n]].modelFinishes);
        CostsSpareFinishes(t, ix.attempts[order[n]].costs);
      }
    }
  }

  predicate TokensAddUp(t: Tokens) {
    t.total == t.input + t.output && t.cached <= t.input
  }

  lemma {:induction false} UsageStep(t: UsageTally, u: Usage)
    requires TokensAddUp(t.tokens) && UsageFaults(u) == []
    ensures TokensAddUp(AddUsage(t, u).tokens) && |AddUsage(t, u).statuses| == |t.statuses| + 1
  {
  }

  lemma {:induction false} CoherentUsagesAddUp(finishes: map<string, CallFinish>, ids: set<string>)
    requires ids <= finishes.Keys && UsagesAreCoherent(finishes)
    ensures TokensAddUp(UsageOf(finishes, ids).tokens) && |UsageOf(finishes, ids).statuses| == |ids|
    decreases |ids|
  {
    hide AddUsage, TokensAddUp, UsageFaults;
    if ids != {} {
      var id :| id in ids && UsageOf(finishes, ids) == AddUsage(UsageOf(finishes, ids - {id}), finishes[id].usage);
      CoherentUsagesAddUp(finishes, ids - {id});
      UsageStep(UsageOf(finishes, ids - {id}), finishes[id].usage);
    } else {
      assert TokensAddUp(NO_USAGE.tokens) by { NoTokens(); }
    }
  }

  lemma {:induction false} NoTokens()
    ensures TokensAddUp(NO_USAGE.tokens)
  {
  }

  /** On a ledger the validator accepts the summary's total tokens are its input plus its output tokens. */
  lemma {:induction false} SummaryTokensAddUp(x: Context, events: seq<Event>, scope: Scope)
    requires Clean(x, events)
    ensures IndexOf(x.knownCases, events).Ok?
    ensures var p := ProjectionOf(IndexOf(x.knownCases, events).value, scope);
            && p.Ok? && TokensAddUp(p.value.usage.tokens) && |p.value.usage.statuses| == |p.value.tally.finishes|
  {
    hide Faults, Run, IndexOf, TallyOf, UsagesAreCoherent, TokensAddUp, UsageOf;
    SummaryTotalsTheSameSpend(x, events, All);
    var ix := IndexOf(x.knownCases, events).value;
    forall a | a in ix.attempts ensures UsagesAreCoherent(ix.attempts[a].modelFinishes) {
      IndexUsagesAreCoherent(x, events, a);
    }
    TallyUsagesAreCoherent(ix, ix.order);
    var finishes := TallyOf(ix, ix.order).value.finishes;
    CoherentUsagesAddUp(finishes, finishes.Keys);
  }
}

/**
 Two concrete accepted scored ledgers: one with a retried case, which is therefore not fully measured, and
 one that is fully measured.
 */
module MeasuredExamples {
  import opened Wrappers
  import opened Trace
  import opened TraceFacts
  import opened TraceReducer
  import opened TraceTotals
  import opened TraceMeasured
  import opened GoldCounterexample

  ghost predicate Arrives(events: seq<Event>, s: State) {
    Clean(CONTEXT, events) && Run(CONTEXT, events) == s
  }

  lemma {:induction false} Step(events: seq<Event>, s: State, e: Event, s': State)
    requires Arrives(events, s) && Faults(CONTEXT, s, e) == [] && Next(CONTEXT, s, e) == s'
    ensures Arrives(events + [e], s')
  {
    hide Faults, Next;
    assert (events + [e])[..|events|] == events;
    CleanSplits(CONTEXT, events + [e]);
  }

  const OPEN := Open({}, None, [], None)
  const FIRST_START := At(AttemptStarted(START))

  lemma {:induction false} FirstAttempt()
    ensures Arrives([FIRST_START], StateOf(OPEN))
  {
    StartIsFaultless();
    AfterFirstStart();
    hide Faults, Next, StateOf, Open;
    Step([], Initial(), FIRST_START, StateOf(OPEN));
    assert [] + [FIRST_START] == [FIRST_START];
  }

  lemma {:induction false} NothingSpent(events: seq<Event>, s: State)
    requires Arrives(events, s) && s.caseOrder == ["case"] && CaseOf(s, "case").scoredCost == 0
    ensures Accepted(CONTEXT, events)
  {
    hide Faults, Next, Run, CaseOf;
    assert s.caseOrder[..0] == [];
    assert CaseCosts(s, s.caseOrder) == 0;
  }

  // ---------------------------------------------------------------- a retried case

  const ERROR := Finish(BenchmarkInfrastructureError, Rejected, RetriableInfrastructure, false, None, 0)
  const FAILED := OPEN.(finished := Some(ERROR))
  const RETRY := AttemptStart(2, InfrastructureRetry, Some("attempt"), "entry", FREEZE)
  const RETRY_START := Event("batch", "retry", "case", 0, AttemptStarted(RETRY))
  const RETRIED := State(map["attempt" := FAILED, "retry" := NewAttempt(RETRY_START, RETRY)], ["attempt", "retry"],
                         map["case" := CaseState(["attempt", "retry"], [], None, None, 0)], ["case"],
                         map[], {}, Some("batch"), Some(FREEZE))

  lemma {:induction false} Fails()
    ensures Faults(CONTEXT, StateOf(OPEN), At(AttemptFinished(ERROR))) == []
    ensures Next(CONTEXT, StateOf(OPEN), At(AttemptFinished(ERROR))) == StateOf(FAILED)
  {
  }

  lemma {:induction false} RetryIsInOrder()
    ensures OrderFaults(RETRY_START, RETRY, CaseState(["attempt"], [], None, None, 0), RETRIED.attempts) == []
  {
    var m, ids := RETRIED.attempts, ["attempt"] + ["retry"];
    assert ids[..1] == ["attempt"] && ["attempt"][..0] == [];
    assert CountDisposition(m, ["attempt"], InfrastructureRetry) == 0;
    assert CountDisposition(m, ids, InfrastructureRetry) == 1;
    hide CountDisposition;
    assert RetryFaults(RETRY_START, RETRY, CaseState(["attempt"], [], None, None, 0), m) == [];
  }

  lemma {:induction false} Retries()
    ensures Faults(CONTEXT, StateOf(FAILED), RETRY_START) == []
    ensures Next(CONTEXT, StateOf(FAILED), RETRY_START) == RETRIED
  {
    RetryIsInOrder();
    var s, c := StateOf(FAILED), CaseState(["attempt"], [], None, None, 0);
    assert s.attempts["retry" := NewAttempt(RETRY_START, RETRY)] == RETRIED.attempts;
    assert ["attempt"] + ["retry"] == ["attempt", "retry"];
    assert OpeningFaults(s, c, RETRY) == [];
    hide OrderFaults, OpeningFaults;
  }

  /** Accepted, with a retried case: such a campaign cannot be fully measured, whatever is recorded next. */
  lemma {:induction false} RetriedLedger(scope: Scope) returns (events: seq<Event>)
    ensures Accepted(CONTEXT, events) && |CaseOf(Run(CONTEXT, events), "case").attemptIds| == 2
    ensures IndexOf(CONTEXT.knownCases, events).Ok?
            && ProjectionOf(IndexOf(CONTEXT.knownCases, events).value, scope).Ok?
    ensures !ProjectionOf(IndexOf(CONTEXT.knownCases, events).value, scope).value.fullyMeasured
  {
    FirstAttempt();
    Fails();
    Retries();
    hide Faults, Next, StateOf, Open;
    Step([FIRST_START], StateOf(OPEN), At(AttemptFinished(ERROR)), StateOf(FAILED));
    Step([FIRST_START] + [At(AttemptFinished(ERROR))], StateOf(FAILED), RETRY_START, RETRIED);
    events := [FIRST_START] + [At(AttemptFinished(ERROR))] + [RETRY_START];
    assert CaseOf(RETRIED, "case") == CaseState(["attempt", "retry"], [], None, None, 0);
    NothingSpent(events, RETRIED);
    hide Run, IndexOf, ProjectionOf;
    RetriedCaseIsNeverFullyMeasured(CONTEXT, events, "case", scope);
  }

  // ---------------------------------------------------------------- a fully measured ledger

  const CALL := CallStart("call", 0, OFFLINE_FIXTURE, "model", "identity", "config", "pricing", 0)
  const NO_TOKENS := Usage(NotApplicable, Some(0), Some(0), Some(0), Some(0))
  const DONE := CallFinish(true, Interval(0, 0, 0), NO_TOKENS)
  const CALL_STARTED := At(ModelCallStarted(CALL))
  const CALL_FINISHED := At(ModelCallFinished("call", DONE))

  function Zero(id: string, k: Category): Cost {
    Cost(id, if k.ModelInference? then Some("call")
         else None, k, CampaignScored, ZeroVerified, Some(0), None, None, false)
  }

  function ZeroCost(id: string, k: Category): Event {
    At(CostRecorded(Zero(id, k)))
  }

  const CALLING := OPEN.(callStarts := map["call" := CALL])
  const CALLED := CALLING.(callFinishes := map["call" := DONE])
  const PRICED := CALLED.(callCosts := map["call" := Zero("model", ModelInference)])

  /** The only case has made its call. */
  function AfterTheCall(t: AttemptState, entries: set<string>): State {
    State(map["attempt" := t], ["attempt"], map["case" := CaseState(["attempt"], ["call"], None, None, 0)], ["case"],
          map["call" := "attempt"], entries, Some("batch"), Some(FREEZE))
  }

  lemma {:induction false} NoOpenCalls()
    ensures UnresolvedCalls(StateOf(OPEN).attempts) == {}
  {
    assert StateOf(OPEN).attempts == map["attempt" := OPEN];
  }

  lemma {:induction false} Calls()
    ensures Faults(CONTEXT, StateOf(OPEN), CALL_STARTED) == []
    ensures Next(CONTEXT, StateOf(OPEN), CALL_STARTED) == AfterTheCall(CALLING, {})
  {
    NoOpenCalls();
    hide UnresolvedCalls;
    assert ReservationFaults(FREEZE, CALL) == [];
    hide ReservationFaults;
    assert CallFaults(StateOf(OPEN), OPEN, CaseState(["attempt"], [], None, None, 0), CALL) == [];
    hide CallFaults;
    assert [] + ["call"] == ["call"];
  }

  lemma {:induction false} Answers()
    ensures Faults(CONTEXT, AfterTheCall(CALLING, {}), CALL_FINISHED) == []
    ensures Next(CONTEXT, AfterTheCall(CALLING, {}), CALL_FINISHED) == AfterTheCall(CALLED, {})
  {
    assert UsageFaults(NO_TOKENS) == [];
    hide UsageFaults;
  }

  const CASE := CaseState(["attempt"], ["call"], None, None, 0)

  lemma {:induction false} CostStep(t: AttemptState, entries: set<string>, c: Cost)
    requires t.caseId == "case" && t.batchId == "batch" && t.finished.None? && t.gold.None? && c.amount == Some(0)
    ensures var s, e := AfterTheCall(t, entries), At(CostRecorded(c));
            && Faults(CONTEXT, s, e) == CostFaults(s, "attempt", t, CASE, c)
            && Next(CONTEXT, s, e) == AfterTheCall(AttemptAfter(e, t), entries + {c.entryId})
  {
    hide CostFaults, AttemptAfter;
  }

  lemma {:induction false} PriceIsFaultless()
    ensures CostFaults(AfterTheCall(CALLED, {}), "attempt", CALLED, CASE, Zero("model", ModelInference)) == []
  {
    var c := Zero("model", ModelInference);
    assert AmountFaults(c) == [] && PriceFaults(c) == [] && QuantityIsUsage(CALLED, "call", c);
    hide AmountFaults, PriceFaults, QuantityIsUsage;
    assert ModelCostFaults(AfterTheCall(CALLED, {}), "attempt", CALLED, c) == [];
    hide ModelCostFaults;
  }

  lemma {:induction false} Prices()
    ensures Faults(CONTEXT, AfterTheCall(CALLED, {}), ZeroCost("model", ModelInference)) == []
    ensures Next(CONTEXT, AfterTheCall(CALLED, {}), ZeroCost("model", ModelInference))
            == AfterTheCall(PRICED, {"model"})
  {
    hide Faults, Next, CostFaults, AfterTheCall;
    PriceIsFaultless();
    CostStep(CALLED, {}, Zero("model", ModelInference));
    assert {} + {"model"} == {"model"};
  }

  lemma {:induction false} OtherIsFaultless(entries: set<string>, id: string, k: Category)
    requires id !in entries && !k.ModelInference?
    ensures CostFaults(AfterTheCall(PRICED, entries), "attempt", PRICED, CASE, Zero(id, k)) == []
  {
    var c := Zero(id, k);
    assert AmountFaults(c) == [] && PriceFaults(c) == [];
    hide AmountFaults, PriceFaults, ModelCostFaults;
  }

  lemma {:induction false} OtherCost(entries: set<string>, id: string, k: Category)
    requires id !in entries && !k.ModelInference?
    ensures Faults(CONTEXT, AfterTheCall(PRICED, entries), ZeroCost(id, k)) == []
    ensures Next(CONTEXT, AfterTheCall(PRICED, entries), ZeroCost(id, k)) == AfterTheCall(PRICED, entries + {id})
  {
    hide Faults, Next, CostFaults, AfterTheCall;
    OtherIsFaultless(entries, id, k);
    CostStep(PRICED, entries, Zero(id, k));
  }

  const MEASURED := [FIRST_START] + [CALL_STARTED] + [CALL_FINISHED] + [ZeroCost("model", ModelInference)]
                    + [ZeroCost("sandbox", SandboxCompute)] + [ZeroCost("transfer", ArtifactTransfer)]
                      + [ZeroCost("storage", PaidStorage)]

  lemma {:induction false} MeasuredArrives()
    ensures Arrives(MEASURED, AfterTheCall(PRICED, {"model"} + {"sandbox"} + {"transfer"} + {"storage"}))
  {
    hide Faults, Next, StateOf, Open, AfterTheCall, ZeroCost, Arrives;
    FirstAttempt();
    Calls();
    Answers();
    Prices();
    var events := [FIRST_START];
    Step(events, StateOf(OPEN), CALL_STARTED, AfterTheCall(CALLING, {}));
    events := events + [CALL_STARTED];
    Step(events, AfterTheCall(CALLING, {}), CALL_FINISHED, AfterTheCall(CALLED, {}));
    events := events + [CALL_FINISHED];
    Step(events, AfterTheCall(CALLED, {}), ZeroCost("model", ModelInference), AfterTheCall(PRICED, {"model"}));
    events := events + [ZeroCost("model", ModelInference)];
    OtherCost({"model"}, "sandbox", SandboxCompute);
    Step(events, AfterTheCall(PRICED, {"model"}), ZeroCost("sandbox", SandboxCompute),
         AfterTheCall(PRICED, {"model"} + {"sandbox"}));
    events := events + [ZeroCost("sandbox", SandboxCompute)];
    OtherCost({"model"} + {"sandbox"}, "transfer", ArtifactTransfer);
    Step(events, AfterTheCall(PRICED, {"model"} + {"sandbox"}), ZeroCost("transfer", ArtifactTransfer),
         AfterTheCall(PRICED, {"model"} + {"sandbox"} + {"transfer"}));
    events := events + [ZeroCost("transfer", ArtifactTransfer)];
    OtherCost({"model"} + {"sandbox"} + {"transfer"}, "storage", PaidStorage);
    Step(events, AfterTheCall(PRICED, {"model"} + {"sandbox"} + {"transfer"}), ZeroCost("storage", PaidStorage),
         AfterTheCall(PRICED, {"model"} + {"sandbox"} + {"transfer"} + {"storage"}));
  }

  lemma {:induction false} ScoredCostCounts(events: seq<Event>, i: nat, k: Category)
    requires i < |events| && exists id :: events[i] == ZeroCost(id, k)
    ensures k in ScoredCategories(CostsOf(events, "attempt"))
  {
    hide ScoredCategories, CostsOf;
    var n := EventHasCost(events, i);
    CostHasCategory(CostsOf(events, "attempt"), n);
  }

  lemma {:induction false} MeasuredIsCovered()
    ensures OTHER_CATEGORIES <= ScoredCategories(CostsOf(MEASURED, "attempt"))
  {
    hide ScoredCategories, CostsOf, ZeroCost;
    var events := MEASURED;
    assert events[4] == ZeroCost("sandbox", SandboxCompute) && events[5] == ZeroCost("transfer", ArtifactTransfer)
        && events[6] == ZeroCost("storage", PaidStorage);
    ScoredCostCounts(events, 4, SandboxCompute);
    ScoredCostCounts(events, 5, ArtifactTransfer);
    ScoredCostCounts(events, 6, PaidStorage);
  }

  lemma {:induction false} MeasuredIsExact()
    ensures ExactCosts(MEASURED)
  {
  }

  /** Accepted and fully measured: one attempt, its own call settled, the other scored costs recorded. */
  lemma {:induction false} MeasuredLedgerExample(scope: Scope) returns (events: seq<Event>)
    ensures Accepted(CONTEXT, events) && IndexOf(CONTEXT.knownCases, events).Ok?
    ensures ProjectionOf(IndexOf(CONTEXT.knownCases, events).value, scope).Ok?
    ensures ProjectionOf(IndexOf(CONTEXT.knownCases, events).value, scope).value.fullyMeasured
  {
    hide Faults, Next, Run, IndexOf, ProjectionOf, Open, ExactCosts, ScoredCategories, CostsOf;
    events := MEASURED;
    var s := AfterTheCall(PRICED, {"model"} + {"sandbox"} + {"transfer"} + {"storage"});
    MeasuredArrives();
    assert CaseOf(s, "case") == CaseState(["attempt"], ["call"], None, None, 0);
    NothingSpent(events, s);
    MeasuredIsCovered();
    MeasuredIsExact();
    assert "call" in PRICED.callStarts && CallIsSettled(PRICED, "call");
    assert AttemptMeasured(events, "attempt", PRICED);
    FullyMeasuredExactly(CONTEXT, events, scope);
  }
}

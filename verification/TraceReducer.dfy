/**
 The summary's own fold over the same events: the attempt index, the counted finish of each case and the
 cost projection, which raise on what they cannot read. On ledgers the validator accepts they never raise
 and agree with the validator's index.
 */
module TraceReducer {
  import opened Wrappers
  import opened Trace

  datatype SummaryError =
    | EventOfUnknownCase | StartsTwice | BeforeStart | CaseChanges | AfterFinished | PhaseStartsTwice
    | PhaseFinishesTwice | CallStartsTwice | FinishWithoutMatch | CallFinishesTwice | TwoCountedFinishes | MissingAmount

  datatype SummaryAttempt = SummaryAttempt(
    caseId: string, costs: seq<Cost>, finish: Option<Finish>,
    modelStarts: set<string>, modelFinishes: map<string, CallFinish>,
    phaseStarts: set<PhaseKey>, phaseFinishes: set<PhaseKey>)

  /** `order` is the insertion order of the dictionary. */
  datatype Index = Index(attempts: map<string, SummaryAttempt>, order: seq<string>, callOwner: map<string, string>)

  const REQUIRED_CATEGORIES := {ModelInference, SandboxCompute, ArtifactTransfer, PaidStorage}

  // ---------------------------------------------------------------- the attempt index

  function EventError(known: set<string>, ix: Index, e: Event): Option<SummaryError> {
    if e.caseId !in known then Some(EventOfUnknownCase)
    else if e.payload.AttemptStarted? then if e.attemptId in ix.attempts then Some(StartsTwice) else None
    else if e.attemptId !in ix.attempts then Some(BeforeStart)
    else
      var t := ix.attempts[e.attemptId];
      if t.caseId != e.caseId then Some(CaseChanges)
      else if t.finish.Some? then Some(AfterFinished)
      else match e.payload
        case PhaseStarted(key, _) => if key in t.phaseStarts then Some(PhaseStartsTwice) else None
        case PhaseFinished(key, _) => if key in t.phaseFinishes then Some(PhaseFinishesTwice) else None
        case ModelCallStarted(call) => if call.callId in ix.callOwner then Some(CallStartsTwice) else None
        case ModelCallFinished(id, _) =>
          if !(id in ix.callOwner && ix.callOwner[id] == e.attemptId) then Some(FinishWithoutMatch)
          else if id in t.modelFinishes then Some(CallFinishesTwice) else None
        case _ => None
  }

  function SummaryAfter(t: SummaryAttempt, e: Event): SummaryAttempt {
    match e.payload
    case PhaseStarted(key, _) => t.(phaseStarts := t.phaseStarts + {key})
    case PhaseFinished(key, _) => t.(phaseFinishes := t.phaseFinishes + {key})
    case ModelCallStarted(call) => t.(modelStarts := t.modelStarts + {call.callId})
    case ModelCallFinished(id, f) => t.(modelFinishes := t.modelFinishes[id := f])
    case CostRecorded(cost) => t.(costs := t.costs + [cost])
    case AttemptFinished(finish) => t.(finish := Some(finish))
    case _ => t
  }

  function IndexAfter(ix: Index, e: Event): Index
    requires !e.payload.AttemptStarted? ==> e.attemptId in ix.attempts
  {
    if e.payload.AttemptStarted? then
      Index(ix.attempts[e.attemptId := SummaryAttempt(e.caseId, [], None, {}, map[], {}, {})],
            ix.order + [e.attemptId], ix.callOwner)
    else
      Index(ix.attempts[e.attemptId := SummaryAfter(ix.attempts[e.attemptId], e)], ix.order,
            if e.payload.ModelCallStarted? then ix.callOwner[e.payload.call.callId := e.attemptId] else ix.callOwner)
  }

  function IndexOf(known: set<string>, events: seq<Event>): Result<Index, SummaryError> {
    if events == [] then Ok(Index(map[], [], map[]))
    else
      var before := IndexOf(known, events[..|events| - 1]);
      if before.Err? then before
      else
        var e := events[|events| - 1];
        match EventError(known, before.value, e)
        case Some(error) => Err(error)
        case None => Ok(IndexAfter(before.value, e))
  }

  lemma {:induction false} ErrorsEndTheFold(known: set<string>, events: seq<Event>, i: nat)
    requires i <= |events| && IndexOf(known, events[..i]).Err?
    ensures IndexOf(known, events) == IndexOf(known, events[..i])
  {
    if i < |events| {
      assert events[..|events| - 1][..i] == events[..i];
      ErrorsEndTheFold(known, events[..|events| - 1], i);
    } else {
      assert events[..i] == events;
    }
  }

  method AttemptIndex(known: set<string>, events: seq<Event>) returns (r: Result<Index, SummaryError>)
    ensures r == IndexOf(known, events)
  {
    var attempts: map<string, SummaryAttempt>, order: seq<string>, callOwner: map<string, string> := map[], [], map[];
    for i := 0 to |events|
      invariant IndexOf(known, events[..i]) == Ok(Index(attempts, order, callOwner))
    {
      var e := events[i];
      assert events[..i + 1][..i] == events[..i];
      var error := EventError(known, Index(attempts, order, callOwner), e);
      if error.Some? {
        ErrorsEndTheFold(known, events, i + 1);
        return Err(error.value);
      }
      if e.payload.AttemptStarted? {
        attempts := attempts[e.attemptId := SummaryAttempt(e.caseId, [], None, {}, map[], {}, {})];
        order := order + [e.attemptId];
      } else {
        attempts := attempts[e.attemptId := SummaryAfter(attempts[e.attemptId], e)];
        if e.payload.ModelCallStarted? { callOwner := callOwner[e.payload.call.callId := e.attemptId]; }
      }
    }
    assert events[..|events|] == events;
    return Ok(Index(attempts, order, callOwner));
  }

  // ---------------------------------------------------------------- finished attempts

  /** The counted finish of each case and the two counters. */
  datatype Finishes = Finishes(
    counted: map<string, CountedFinish>, outcomes: multiset<Outcome>, infrastructure: multiset<string>)

  const NO_FINISHES := Finishes(map[], multiset{}, multiset{})

  predicate CountsAt(ix: Index, a: string) {
    a in ix.attempts && ix.attempts[a].finish.Some? && ix.attempts[a].finish.value.disposition.Counted?
  }

  function FinishAfter(f: Finishes, a: string, t: SummaryAttempt): Result<Finishes, SummaryError> {
    if t.finish.None? then Ok(f)
    else
      var finish := t.finish.value;
      var seen := f.(outcomes := f.outcomes + multiset{finish.outcome});
      match finish.disposition
      case RetriableInfrastructure => Ok(seen.(infrastructure := f.infrastructure + multiset{t.caseId}))
      case Counted =>
        if t.caseId in f.counted then Err(TwoCountedFinishes)
        else Ok(seen.(counted := f.counted[t.caseId := CountedFinish(a, finish)]))
      case NonScoring => Ok(seen)
  }

  /** The finished attempts in their order. */
  function FinishesOf(ix: Index, order: seq<string>): Result<Finishes, SummaryError> {
    if order == [] then Ok(NO_FINISHES)
    else
      var before := FinishesOf(ix, order[..|order| - 1]);
      var a := order[|order| - 1];
      if before.Err? || a !in ix.attempts then before else FinishAfter(before.value, a, ix.attempts[a])
  }

  lemma {:induction false} FinishErrorsEndTheFold(ix: Index, order: seq<string>, i: nat)
    requires i <= |order| && FinishesOf(ix, order[..i]).Err?
    ensures FinishesOf(ix, order) == FinishesOf(ix, order[..i])
  {
    if i < |order| {
      assert order[..|order| - 1][..i] == order[..i];
      FinishErrorsEndTheFold(ix, order[..|order| - 1], i);
    } else {
      assert order[..i] == order;
    }
  }

  method FinishedAttempts(ix: Index) returns (r: Result<Finishes, SummaryError>)
    ensures r == FinishesOf(ix, ix.order)
  {
    var counted: map<string, CountedFinish> := map[];
    var outcomes: multiset<Outcome>, infrastructure: multiset<string> := multiset{}, multiset{};
    for i := 0 to |ix.order|
      invariant FinishesOf(ix, ix.order[..i]) == Ok(Finishes(counted, outcomes, infrastructure))
    {
      assert ix.order[..i + 1][..i] == ix.order[..i];
      var a := ix.order[i];
      if a in ix.attempts && ix.attempts[a].finish.Some? {
        var c, finish := ix.attempts[a].caseId, ix.attempts[a].finish.value;
        outcomes := outcomes + multiset{finish.outcome};
        if finish.disposition.RetriableInfrastructure? {
          infrastructure := infrastructure + multiset{c};
        } else if finish.disposition.Counted? {
          if c in counted {
            FinishErrorsEndTheFold(ix, ix.order, i + 1);
            return Err(TwoCountedFinishes);
          }
          counted := counted[c := CountedFinish(a, finish)];
        }
      }
    }
    assert ix.order[..|ix.order|] == ix.order;
    return Ok(Finishes(counted, outcomes, infrastructure));
  }

  // ---------------------------------------------------------------- cost projection

  function Add<K(==)>(m: map<K, nat>, k: K, n: nat): map<K, nat> {
    m[k := (if k in m then m[k] else 0) + n]
  }

  function AmountOf(c: Cost): nat {
    if c.amount.Some? then c.amount.value else 0
  }

  /** The running totals of the projection; `missing` are the attempts without a required scored category. */
  datatype Tally = Tally(
    recorded: nat, byCategory: map<Category, nat>, byAttribution: map<Attribution, nat>,
    statuses: multiset<CostStatus>, entries: nat,
    missing: seq<string>, starts: set<string>, finishes: map<string, CallFinish>, costed: set<string>)

  const NO_COSTS := Tally(
    0,
    map[ModelInference := 0, SandboxCompute := 0, ArtifactTransfer := 0, PaidStorage := 0, ColdDependencies := 0,
        HumanReview := 0],
    map[CampaignScored := 0, ColdPrepExcluded := 0, HumanLaborExcluded := 0],
    multiset{}, 0, [], {}, map[], {})

  predicate Readable(c: Cost) {
    c.amount.Some? || c.status.Unknown?
  }

  predicate Prices(c: Cost, call: string) {
    c.category.ModelInference? && c.sourceCall == Some(call)
  }

  function AddCost(t: Tally, c: Cost): Tally {
    t.(recorded := t.recorded + AmountOf(c),
       byCategory := if c.amount.Some? then Add(t.byCategory, c.category, c.amount.value) else t.byCategory,
       byAttribution := if c.amount.Some? then Add(t.byAttribution, c.attribution, c.amount.value) else t.byAttribution,
       statuses := t.statuses + multiset{c.status},
       entries := t.entries + 1,
       costed := if c.category.ModelInference? && c.sourceCall.Some? then t.costed + {c.sourceCall.value} else t.costed)
  }

  function TallyCosts(t: Tally, costs: seq<Cost>): Result<Tally, SummaryError> {
    if costs == [] then Ok(t)
    else
      var before := TallyCosts(t, costs[..|costs| - 1]);
      if before.Err? then before
      else if !Readable(costs[|costs| - 1]) then Err(MissingAmount)
      else Ok(AddCost(before.value, costs[|costs| - 1]))
  }

  function ScoredCategories(costs: seq<Cost>): set<Category> {
    if costs == [] then {}
    else
      ScoredCategories(costs[..|costs| - 1])
        + (if costs[|costs| - 1].attribution.CampaignScored? then {costs[|costs| - 1].category} else {})
  }

  predicate CoversCategories(costs: seq<Cost>) {
    REQUIRED_CATEGORIES <= ScoredCategories(costs)
  }

  function AddCalls(t: Tally, id: string, a: SummaryAttempt): Tally {
    t.(missing := if CoversCategories(a.costs) then t.missing else t.missing + [id],
       starts := t.starts + a.modelStarts, finishes := t.finishes + a.modelFinishes)
  }

  function TallyOf(ix: Index, order: seq<string>): Result<Tally, SummaryError> {
    if order == [] then Ok(NO_COSTS)
    else
      var before := TallyOf(ix, order[..|order| - 1]);
      var a := order[|order| - 1];
      if before.Err? || a !in ix.attempts then before
      else TallyCosts(AddCalls(before.value, a, ix.attempts[a]), ix.attempts[a].costs)
  }

  lemma {:induction false} TallyErrorsEndTheFold(ix: Index, order: seq<string>, i: nat)
    requires i <= |order| && TallyOf(ix, order[..i]).Err?
    ensures TallyOf(ix, order) == TallyOf(ix, order[..i])
  {
    if i < |order| {
      assert order[..|order| - 1][..i] == order[..i];
      TallyErrorsEndTheFold(ix, order[..|order| - 1], i);
    } else {
      assert order[..i] == order;
    }
  }

  lemma {:induction false} CostErrorsEndTheFold(t: Tally, costs: seq<Cost>, i: nat)
    requires i <= |costs| && TallyCosts(t, costs[..i]).Err?
    ensures TallyCosts(t, costs) == TallyCosts(t, costs[..i])
  {
    if i < |costs| {
      assert costs[..|costs| - 1][..i] == costs[..i];
      CostErrorsEndTheFold(t, costs[..|costs| - 1], i);
    } else {
      assert costs[..i] == costs;
    }
  }

  method ReadCosts(t: Tally, costs: seq<Cost>) returns (r: Result<Tally, SummaryError>)
    ensures r == TallyCosts(t, costs)
  {
    var tally := t;
    for i := 0 to |costs|
      invariant TallyCosts(t, costs[..i]) == Ok(tally)
    {
      var c := costs[i];
      assert costs[..i + 1][..i] == costs[..i];
      if c.amount.None? && !c.status.Unknown? {
        CostErrorsEndTheFold(t, costs, i + 1);
        return Err(MissingAmount);
      }
      tally := ReadCost(tally, c);
    }
    assert costs[..|costs|] == costs;
    return Ok(tally);
  }

  /** One cost event: counters, the totals it enters if it has an amount, and the call it prices. */
  method ReadCost(t: Tally, c: Cost) returns (tally: Tally)
    ensures tally == AddCost(t, c)
  {
    tally := t.(statuses := t.statuses + multiset{c.status}, entries := t.entries + 1);
    if c.amount.Some? {
      tally := tally.(byCategory := Add(t.byCategory, c.category, c.amount.value),
                      byAttribution := Add(t.byAttribution, c.attribution, c.amount.value),
                      recorded := t.recorded + c.amount.value);
    }
    if c.category.ModelInference? && c.sourceCall.Some? {
      tally := tally.(costed := tally.costed + {c.sourceCall.value});
    }
  }

  // ---------------------------------------------------------------- usage

  datatype Tokens = Tokens(input: nat, cached: nat, output: nat, total: nat)
  datatype UsageTally = UsageTally(statuses: multiset<UsageStatus>, tokens: Tokens)

  const NO_USAGE := UsageTally(multiset{}, Tokens(0, 0, 0, 0))

  function Known(n: Option<nat>): nat {
    if n.Some? then n.value else 0
  }

  function AddUsage(t: UsageTally, u: Usage): UsageTally {
    UsageTally(t.statuses + multiset{u.status},
               Tokens(t.tokens.input + Known(u.input), t.tokens.cached + Known(u.cached),
                      t.tokens.output + Known(u.output), t.tokens.total + Known(u.total)))
  }

  /** The usage of some of the finished calls, in whatever order they are read. */
  ghost function UsageOf(finishes: map<string, CallFinish>, ids: set<string>): UsageTally
    requires ids <= finishes.Keys
  {
    if ids == {} then NO_USAGE
    else
      var id :| id in ids;
      AddUsage(UsageOf(finishes, ids - {id}), finishes[id].usage)
  }

  lemma {:induction false} UsageCommutes(t: UsageTally, u: Usage, v: Usage)
    ensures AddUsage(AddUsage(t, u), v) == AddUsage(AddUsage(t, v), u)
  {
  }

  lemma {:induction false} UsageInAnyOrder(finishes: map<string, CallFinish>, ids: set<string>, id: string)
    requires ids <= finishes.Keys && id in ids
    ensures UsageOf(finishes, ids) == AddUsage(UsageOf(finishes, ids - {id}), finishes[id].usage)
    decreases |ids|
  {
    hide AddUsage;
    var k :| k in ids && UsageOf(finishes, ids) == AddUsage(UsageOf(finishes, ids - {k}), finishes[k].usage);
    if k != id {
      UsageInAnyOrder(finishes, ids - {k}, id);
      UsageInAnyOrder(finishes, ids - {id}, k);
      assert ids - {k} - {id} == ids - {id} - {k};
      UsageCommutes(UsageOf(finishes, ids - {k} - {id}), finishes[id].usage, finishes[k].usage);
    }
  }

  method ReadUsage(finishes: map<string, CallFinish>) returns (u: UsageTally)
    ensures u == UsageOf(finishes, finishes.Keys)
  {
    u := NO_USAGE;
    var left := finishes.Keys;
    assert finishes.Keys - left == {};
    while left != {}
      invariant left <= finishes.Keys && u == UsageOf(finishes, finishes.Keys - left)
    {
      var id :| id in left;
      var usage := finishes[id].usage;
      ghost var read := finishes.Keys - (left - {id});
      UsageInAnyOrder(finishes, read, id);
      assert read - {id} == finishes.Keys - left;
      u := AddUsage(u, usage);
      left := left - {id};
    }
    assert finishes.Keys - left == finishes.Keys;
  }

  // ---------------------------------------------------------------- the projection

  /** `fully_measured`, which the cost gate needs. */
  predicate FullyMeasured(ix: Index, t: Tally) {
    && ix.order != [] && t.missing == [] && t.starts <= t.costed && t.starts <= t.finishes.Keys
    && t.statuses[Unknown] == 0 && t.statuses[Estimated] == 0
  }

  method IsFullyMeasured(ix: Index, t: Tally) returns (yes: bool)
    ensures yes == FullyMeasured(ix, t)
  {
    var unmatched, unpriced := t.starts - t.finishes.Keys, t.starts - t.costed;
    yes := ix.order != [] && t.missing == [] && unpriced == {} && unmatched == {}
           && t.statuses[Unknown] == 0 && t.statuses[Estimated] == 0;
    NothingLeftOut(t.starts, t.finishes.Keys);
    NothingLeftOut(t.starts, t.costed);
  }

  lemma {:induction false} NothingLeftOut(a: set<string>, b: set<string>)
    ensures a - b == {} <==> a <= b
  {
    if a - b == {} {
      forall k | k in a ensures k in b { assert k in a - b || k in b; }
    }
  }

  /** What the projection is told of the rest of the summary. */
  datatype Scope = Scope(attemptedCases: nat, semanticValid: nat, complete: bool)

  datatype GateReason = BenchmarkIncomplete | CostNotFullyMeasured | ZeroSemanticValid
  datatype GateStatus = Passes | Fails | NotEvaluable
  datatype CostGate = CostGate(
    perAttempted: Option<nat>, perValid: Option<nat>, reasons: seq<GateReason>, status: GateStatus)

  /** The most a semantically valid case may cost, in micro-USD. */
  const COST_THRESHOLD := 1_000_000

  function Count<K(==)>(m: map<K, nat>, k: K): nat {
    if k in m then m[k] else 0
  }

  /** To the nearest integer, halves upward. */
  function RoundedRatio(n: nat, d: nat): nat
    requires d > 0
  {
    (2 * n + d) / (2 * d)
  }

  function Reason(holds: bool, reason: GateReason): seq<GateReason> {
    if holds then [] else [reason]
  }

  function GateOf(total: nat, measured: bool, scope: Scope): CostGate {
    var perAttempted := if measured && scope.attemptedCases > 0 then Some(RoundedRatio(total, scope.attemptedCases))
        else None;
    var perValid := if measured && scope.semanticValid > 0 then Some(RoundedRatio(total, scope.semanticValid))
        else None;
    var reasons := Reason(scope.complete, BenchmarkIncomplete) + Reason(measured, CostNotFullyMeasured)
                   + Reason(scope.semanticValid > 0, ZeroSemanticValid);
    CostGate(perAttempted, perValid, reasons,
             if reasons != [] || perValid.None? then NotEvaluable
             else if perValid.value <= COST_THRESHOLD then Passes else Fails)
  }

  lemma {:induction false} QuotientIsAtMost(a: nat, b: nat, m: nat)
    requires b > 0
    ensures a / b <= m <==> a < b * (m + 1)
  {
    var q := a / b;
    assert b * q <= a < b * q + b;
    if q <= m { assert b * q <= b * m; } else { assert b * (m + 1) <= b * q; }
  }

  /** The gate is evaluable exactly without any of its reasons; then it compares the rounded cost with the threshold. */
  lemma {:induction false} GateExactly(total: nat, measured: bool, scope: Scope)
    ensures var gate := GateOf(total, measured, scope);
            && (gate.status.NotEvaluable? <==> !(scope.complete && measured && scope.semanticValid > 0))
            && (gate.status.Passes? <==>
                  scope.complete && measured && scope.semanticValid > 0
                  && 2 * total < (2 * COST_THRESHOLD + 1) * scope.semanticValid)
  {
    if scope.semanticValid > 0 {
      QuotientIsAtMost(2 * total + scope.semanticValid, 2 * scope.semanticValid, COST_THRESHOLD);
    }
  }

  datatype Projection = Projection(
    tally: Tally, usage: UsageTally, unknownUsage: nat, fullyMeasured: bool, gate: CostGate)

  ghost function ProjectionOf(ix: Index, scope: Scope): Result<Projection, SummaryError> {
    var tally := TallyOf(ix, ix.order);
    if tally.Err? then Err(tally.error)
    else
      var t := tally.value;
      var usage := UsageOf(t.finishes, t.finishes.Keys);
      Ok(Projection(t, usage, |t.starts - t.finishes.Keys| + usage.statuses[UnknownUsage], FullyMeasured(ix, t),
                    GateOf(Count(t.byAttribution, CampaignScored), FullyMeasured(ix, t), scope)))
  }

  method ReadAttempt(t: Tally, id: string, a: SummaryAttempt) returns (r: Result<Tally, SummaryError>)
    ensures r == TallyCosts(AddCalls(t, id, a), a.costs)
  {
    hide TallyCosts, CoversCategories;
    var tally := t.(starts := t.starts + a.modelStarts, finishes := t.finishes + a.modelFinishes);
    var covered := CoversCategories(a.costs);
    if !covered { tally := tally.(missing := tally.missing + [id]); }
    r := ReadCosts(tally, a.costs);
  }

  method ReadAttempts(ix: Index) returns (r: Result<Tally, SummaryError>)
    ensures r == TallyOf(ix, ix.order)
  {
    hide TallyCosts, AddCalls;
    var tally := NO_COSTS;
    for i := 0 to |ix.order|
      invariant TallyOf(ix, ix.order[..i]) == Ok(tally)
    {
      assert ix.order[..i + 1][..i] == ix.order[..i];
      if ix.order[i] in ix.attempts {
        var read := ReadAttempt(tally, ix.order[i], ix.attempts[ix.order[i]]);
        if read.Err? {
          TallyErrorsEndTheFold(ix, ix.order, i + 1);
          return read;
        }
        tally := read.value;
      }
    }
    assert ix.order[..|ix.order|] == ix.order;
    return Ok(tally);
  }

  /** The two ratios, the reasons against evaluating the gate, and the gate. */
  method EvaluateGate(total: nat, measured: bool, scope: Scope) returns (gate: CostGate)
    ensures gate == GateOf(total, measured, scope)
  {
    var perAttempted: Option<nat>, perValid: Option<nat> := None, None;
    if measured && scope.attemptedCases != 0 {
      perAttempted := Some((2 * total + scope.attemptedCases) / (2 * scope.attemptedCases));
    }
    if measured && scope.semanticValid > 0 {
      perValid := Some((2 * total + scope.semanticValid) / (2 * scope.semanticValid));
    }
    var reasons := [];
    if !scope.complete { reasons := reasons + [BenchmarkIncomplete]; }
    if !measured { reasons := reasons + [CostNotFullyMeasured]; }
    if scope.semanticValid == 0 { reasons := reasons + [ZeroSemanticValid]; }
    var status := Fails;
    if reasons != [] || perValid.None? {
      status := NotEvaluable;
    } else if perValid.value <= COST_THRESHOLD {
      status := Passes;
    }
    return CostGate(perAttempted, perValid, reasons, status);
  }

  method CostProjection(ix: Index, scope: Scope) returns (r: Result<Projection, SummaryError>)
    ensures r == ProjectionOf(ix, scope)
  {
    hide TallyOf, FullyMeasured, UsageOf, GateOf;
    var tally := ReadAttempts(ix);
    if tally.Err? { return Err(tally.error); }
    var t := tally.value;
    var usage := ReadUsage(t.finishes);
    var measured := IsFullyMeasured(ix, t);
    var gate := EvaluateGate(Count(t.byAttribution, CampaignScored), measured, scope);
    return Ok(Projection(t, usage, |t.starts - t.finishes.Keys| + usage.statuses[UnknownUsage], measured, gate));
  }
}

/**
 The online guard that runs before a model call is sent: it scans the ledger by itself, without the
 validator's index, and refuses or appends. The wall-time budget, which only refuses more, is left out.
 */
module CallRecorder {
  import opened Wrappers
  import opened Trace
  import opened TraceFacts
  import opened TraceGuarantees
  import opened TraceCalls

  datatype Recorder = Recorder(
    lane: Lane, batchId: string, attemptId: string, caseId: string, modelIdentity: string, pricing: string,
    reserved: nat, caseCap: nat, campaignCap: nat, approval: Approval, approvalRef: Option<string>)

  datatype Request = Request(callId: string, startedAt: int, provider: string, requestedModel: string, config: string)

  datatype Rejection = EventIdentity | SpendLimit | SpendAuthorization | ModelLifecycle | CampaignFreeze | SpendUnknown
    | ModelEvent

  /** What the calls of the batch look like: whose case each start is, every finish, every model cost. */
  datatype Book = Book(
    starts: map<string, string>, finishes: map<string, seq<CallFinish>>, costs: map<string, seq<Cost>>,
    knownCampaign: nat, knownCase: nat)

  /** The checks made once, when the recorder is built. */
  predicate WellFormed(r: Recorder) {
    && r.reserved <= r.caseCap && r.reserved <= r.campaignCap
    && match r.approval
       case OfflineZeroCost => r.approvalRef.None?
       case ExplicitUserApproval => r.lane.Scored? && r.approvalRef.Some? && 3 <= |r.approvalRef.value| <= 200
  }

  function CallOf(r: Recorder, q: Request): CallStart {
    CallStart(q.callId, q.startedAt, q.provider, q.requestedModel, r.modelIdentity, q.config, r.pricing, r.reserved)
  }

  function EventAt(r: Recorder, at: int, p: Payload): Event {
    Event(r.batchId, r.attemptId, r.caseId, at, p)
  }

  function CallEvent(r: Recorder, q: Request, at: int): Event {
    EventAt(r, at, ModelCallStarted(CallOf(r, q)))
  }

  predicate IsOffline(provider: string) {
    provider == OFFLINE_FIXTURE || provider == LOCAL_MODEL
  }

  function AuthorizationError(r: Recorder, q: Request): Option<Rejection> {
    if r.lane.Smoke? && q.provider != OFFLINE_FIXTURE then Some(ModelLifecycle)
    else match r.approval
      case OfflineZeroCost => if !IsOffline(q.provider) || r.reserved != 0 then Some(SpendAuthorization) else None
      case ExplicitUserApproval => if !IsOffline(q.provider) && r.reserved == 0 then Some(SpendLimit) else None
  }

  predicate Current(r: Recorder, e: Event) {
    e.batchId == r.batchId && e.attemptId == r.attemptId && e.caseId == r.caseId
  }

  function CurrentStarts(r: Recorder, events: seq<Event>): seq<AttemptStart> {
    if events == [] then []
    else
      var e := events[|events| - 1];
      CurrentStarts(r, events[..|events| - 1])
        + (if Current(r, e) && e.payload.AttemptStarted? then [e.payload.start] else [])
  }

  predicate CampaignMatches(r: Recorder, f: Freeze) {
    && f.campaign.id == r.batchId && f.campaign.caseCap == r.caseCap && f.campaign.campaignCap == r.campaignCap
    && f.campaign.approval == r.approval && f.campaign.approvalRef == r.approvalRef && f.pricing == r.pricing
  }

  predicate GeneratorMatches(r: Recorder, f: Freeze, q: Request) {
    && f.generator.provider == q.provider && f.generator.requestedModel == Some(q.requestedModel)
    && f.generator.modelIdentity == r.modelIdentity && f.generator.config == q.config
  }

  /** `_matching_attempt_start`, for a call start with its request or for a call finish without one. */
  function MatchingStartError(r: Recorder, events: seq<Event>, q: Option<Request>): Option<Rejection> {
    if exists i | 0 <= i < |events| :: events[i].attemptId == r.attemptId && !Current(r, events[i])
       then Some(ModelLifecycle)
    else if |CurrentStarts(r, events)| != 1 then Some(ModelLifecycle)
    else if exists i | 0 <= i < |events| :: Current(r, events[i]) && events[i].payload.AttemptFinished?
      then Some(ModelLifecycle)
    else
      var f := CurrentStarts(r, events)[0].freeze;
      if !CampaignMatches(r, f) || (q.Some? && !GeneratorMatches(r, f, q.value)) then Some(CampaignFreeze) else None
  }

  predicate AmountKnown(c: Cost) {
    && (c.status.Measured? || c.status.ZeroVerified?) && c.amount.Some?
    && (c.status.ZeroVerified? ==> c.amount.value == 0)
  }

  function Filed<T>(m: map<string, seq<T>>, k: string, v: T): map<string, seq<T>> {
    m[k := (if k in m then m[k] else []) + [v]]
  }

  function BookStep(r: Recorder, b: Book, e: Event): Result<Book, Rejection> {
    if e.batchId != r.batchId then Ok(b)
    else match e.payload
      case ModelCallStarted(call) =>
        if call.callId in b.starts then Err(ModelLifecycle) else Ok(b.(starts := b.starts[call.callId := e.caseId]))
      case ModelCallFinished(id, f) => Ok(b.(finishes := Filed(b.finishes, id, f)))
      case CostRecorded(c) =>
        if !AmountKnown(c) then Err(SpendUnknown)
        else if c.category.ModelInference? && c.sourceCall.None? then Err(SpendUnknown)
        else
          Ok(b.(knownCampaign := b.knownCampaign + ScoredAmount(c),
                knownCase := b.knownCase + (if e.caseId == r.caseId then ScoredAmount(c) else 0),
                costs := if c.category.ModelInference? then Filed(b.costs, c.sourceCall.value, c) else b.costs))
      case _ => Ok(b)
  }

  function BookOf(r: Recorder, events: seq<Event>): Result<Book, Rejection> {
    if events == [] then Ok(Book(map[], map[], map[], 0, 0))
    else
      var before := BookOf(r, events[..|events| - 1]);
      if before.Err? then before else BookStep(r, before.value, events[|events| - 1])
  }

  /** Every call of the batch is finished once with known usage and has one known cost. */
  function OpenCallsError(r: Recorder, b: Book, callId: string): Option<Rejection> {
    if callId in b.starts || callId in b.finishes || callId in b.costs then Some(ModelLifecycle)
    else if exists p | p in b.starts :: b.starts[p] == r.caseId then Some(ModelLifecycle)
    else if exists p | p in b.starts ::
              p !in b.finishes || |b.finishes[p]| != 1 || b.finishes[p][0].usage.status.UnknownUsage?
              || p !in b.costs || |b.costs[p]| != 1 then Some(SpendUnknown)
    else if !(b.finishes.Keys <= b.starts.Keys && b.costs.Keys <= b.starts.Keys) then Some(ModelLifecycle)
    else None
  }

  /** The whole guard: refused with a reason, or admitted. */
  function Refusal(r: Recorder, events: seq<Event>, q: Request): Option<Rejection> {
    if !WellFormed(r) then Some(EventIdentity)
    else if AuthorizationError(r, q).Some? then AuthorizationError(r, q)
    else if MatchingStartError(r, events, Some(q)).Some? then MatchingStartError(r, events, Some(q))
    else match BookOf(r, events)
      case Err(why) => Some(why)
      case Ok(b) =>
        if OpenCallsError(r, b, q.callId).Some? then OpenCallsError(r, b, q.callId)
        else if b.knownCase + r.reserved > r.caseCap || b.knownCampaign + r.reserved > r.campaignCap
          then Some(SpendLimit)
        else None
  }

  /** The starts of one call in the recorder's own attempt. */
  function OwnStarts(r: Recorder, events: seq<Event>, callId: string): seq<CallStart> {
    if events == [] then []
    else
      var e := events[|events| - 1];
      OwnStarts(r, events[..|events| - 1], callId)
        + (if Current(r, e) && e.payload.ModelCallStarted? && e.payload.call.callId == callId then [e.payload.call]
           else [])
  }

  const MAX_COUNT := 2_147_483_647

  predicate Bounded(n: Option<nat>) {
    n.Some? && n.value <= MAX_COUNT
  }

  /** `_validated_model_usage`. */
  predicate UsageIsValid(u: Usage) {
    match u.status
    case UnknownUsage => u.input.None? && u.cached.None? && u.output.None? && u.total.None?
    case NotApplicable => u.input == u.cached == u.output == u.total == Some(0)
    case _ =>
      && Bounded(u.input) && Bounded(u.cached) && Bounded(u.output) && Bounded(u.total)
      && u.cached.value <= u.input.value && u.total.value == u.input.value + u.output.value
  }

  /** The timestamps of `_validated_model_call_finish`. */
  predicate IntervalIsValid(i: Interval) {
    i.startedAt <= i.completedAt && DurationAgrees(i)
  }

  /** The checks of the event itself, then `_preflight_model_finish`. */
  function FinishRefusal(r: Recorder, events: seq<Event>, callId: string, f: CallFinish): Option<Rejection> {
    if !WellFormed(r) then Some(EventIdentity)
    else if !IntervalIsValid(f.interval) || !UsageIsValid(f.usage) then Some(ModelEvent)
    else if MatchingStartError(r, events, None).Some? then MatchingStartError(r, events, None)
    else
      var starts := OwnStarts(r, events, callId);
      if |starts| != 1 || starts[0].startedAt != f.interval.startedAt then Some(ModelLifecycle)
      else if starts[0].modelIdentity != r.modelIdentity || starts[0].pricing != r.pricing
        || starts[0].reserved != r.reserved
      then Some(CampaignFreeze)
      else if exists i | 0 <= i < |events| ::
                Current(r, events[i]) && events[i].payload.ModelCallFinished? && events[i].payload.callId == callId
      then Some(ModelLifecycle)
      else None
  }

  function FinishEvent(r: Recorder, callId: string, f: CallFinish, at: int): Event {
    EventAt(r, at, ModelCallFinished(callId, f))
  }

  lemma {:induction false} BookErrorsEndTheScan(r: Recorder, events: seq<Event>, i: nat)
    requires i <= |events| && BookOf(r, events[..i]).Err?
    ensures BookOf(r, events) == BookOf(r, events[..i])
  {
    if i < |events| {
      assert events[..|events| - 1][..i] == events[..i];
      BookErrorsEndTheScan(r, events[..|events| - 1], i);
    } else {
      assert events[..i] == events;
    }
  }

  /** `_known_spend_and_closed_calls`: one scan of the ledger, then the checks on what it found. */
  method KnownSpendAndClosedCalls(r: Recorder, events: seq<Event>, callId: string)
    returns (spend: Result<(nat, nat), Rejection>)
    ensures spend == (match BookOf(r, events)
                      case Err(why) => Err(why)
                      case Ok(b) =>
                        if OpenCallsError(r, b, callId).Some? then Err(OpenCallsError(r, b, callId).value)
                        else Ok((b.knownCampaign, b.knownCase)))
  {
    var book := Book(map[], map[], map[], 0, 0);
    for i := 0 to |events|
      invariant BookOf(r, events[..i]) == Ok(book)
    {
      var e := events[i];
      assert events[..i + 1][..i] == events[..i];
      if e.batchId == r.batchId {
        match e.payload {
          case ModelCallStarted(call) =>
            if call.callId in book.starts {
              assert BookStep(r, book, e).Err?;
              BookErrorsEndTheScan(r, events, i + 1);
              return Err(ModelLifecycle);
            }
            book := book.(starts := book.starts[call.callId := e.caseId]);
          case ModelCallFinished(id, f) =>
            book := book.(finishes := Filed(book.finishes, id, f));
          case CostRecorded(c) =>
            if !AmountKnown(c) || (c.category.ModelInference? && c.sourceCall.None?) {
              BookErrorsEndTheScan(r, events, i + 1);
              return Err(SpendUnknown);
            }
            if c.attribution.CampaignScored? {
              book := book.(knownCampaign := book.knownCampaign + c.amount.value);
              if e.caseId == r.caseId { book := book.(knownCase := book.knownCase + c.amount.value); }
            }
            if c.category.ModelInference? {
              book := book.(costs := Filed(book.costs, c.sourceCall.value, c));
            }
          case _ =>
        }
      }
    }
    assert events[..|events|] == events;
    var error := OpenCallsError(r, book, callId);
    return if error.Some? then Err(error.value) else Ok((book.knownCampaign, book.knownCase));
  }

  /** A benchmark ledger file, to which the recorder appends under the file lock. */
  class BenchmarkLedger {
    var events: seq<Event>

    constructor ()
      ensures events == []
    {
      events := [];
    }

    /** Check, then append before the request is sent; a refused call leaves the ledger as it was. */
    method ModelCallStarted(r: Recorder, q: Request, at: int) returns (refused: Option<Rejection>)
      modifies this
      ensures refused == Refusal(r, old(events), q)
      ensures events == if refused.None? then old(events) + [CallEvent(r, q, at)] else old(events)
    {
      if !WellFormed(r) { return Some(EventIdentity); }
      refused := AuthorizationError(r, q);
      if refused.Some? { return; }
      refused := MatchingStartError(r, events, Some(q));
      if refused.Some? { return; }
      var spend := KnownSpendAndClosedCalls(r, events, q.callId);
      if spend.Err? { return Some(spend.error); }
      if spend.value.1 + r.reserved > r.caseCap || spend.value.0 + r.reserved > r.campaignCap {
        return Some(SpendLimit);
      }
      events := events + [CallEvent(r, q, at)];
      return None;
    }

    /** The terminal event of a call, appended only if it is the first for one durable start of this attempt. */
    method ModelCallFinished(r: Recorder, callId: string, f: CallFinish, at: int) returns (refused: Option<Rejection>)
      modifies this
      ensures refused == FinishRefusal(r, old(events), callId, f)
      ensures events == if refused.None? then old(events) + [FinishEvent(r, callId, f, at)] else old(events)
    {
      if !WellFormed(r) { return Some(EventIdentity); }
      var elapsed := f.interval.completedAt - f.interval.startedAt;
      if elapsed < 0 || elapsed - f.interval.durationMs > 1000 || f.interval.durationMs - elapsed > 1000 {
        return Some(ModelEvent);
      }
      var valid := CheckUsage(f.usage);
      if !valid { return Some(ModelEvent); }
      refused := MatchingStartError(r, events, None);
      if refused.Some? { return; }
      var starts := MatchingStarts(r, events, callId);
      if |starts| != 1 || starts[0].startedAt != f.interval.startedAt { return Some(ModelLifecycle); }
      if starts[0].modelIdentity != r.modelIdentity || starts[0].pricing != r.pricing
         || starts[0].reserved != r.reserved {
        return Some(CampaignFreeze);
      }
      for i := 0 to |events|
        invariant events == old(events)
        invariant forall j :: 0 <= j < i ==>
                    !(Current(r, events[j]) && events[j].payload.ModelCallFinished?
                      && events[j].payload.callId == callId)
      {
        var e := events[i];
        if Current(r, e) && e.payload.ModelCallFinished? && e.payload.callId == callId { return Some(ModelLifecycle); }
      }
      events := events + [FinishEvent(r, callId, f, at)];
      return None;
    }
  }

  method CheckUsage(u: Usage) returns (valid: bool)
    ensures valid == UsageIsValid(u)
  {
    if u.status.Reported? || u.status.EstimatedUsage? {
      if u.input.None? || u.cached.None? || u.output.None? || u.total.None? { return false; }
      if u.input.value > MAX_COUNT || u.cached.value > MAX_COUNT || u.output.value > MAX_COUNT
         || u.total.value > MAX_COUNT {
        return false;
      }
      return u.cached.value <= u.input.value && u.total.value == u.input.value + u.output.value;
    }
    if u.status.UnknownUsage? { return u.input.None? && u.cached.None? && u.output.None? && u.total.None?; }
    return u.input == Some(0) && u.cached == Some(0) && u.output == Some(0) && u.total == Some(0);
  }

  /** The scan of `_preflight_model_finish` for the starts of a call. */
  method MatchingStarts(r: Recorder, events: seq<Event>, callId: string) returns (starts: seq<CallStart>)
    ensures starts == OwnStarts(r, events, callId)
  {
    starts := [];
    for i := 0 to |events|
      invariant starts == OwnStarts(r, events[..i], callId)
    {
      assert events[..i + 1][..i] == events[..i];
      var e := events[i];
      if Current(r, e) && e.payload.ModelCallStarted? && e.payload.call.callId == callId {
        starts := starts + [e.payload.call];
      }
    }
    assert events[..|events|] == events;
  }

  // ---------------------------------------------------------------- what the scan has seen

  lemma {:induction false} BookSeesStart(r: Recorder, events: seq<Event>, i: nat)
    requires BookOf(r, events).Ok? && i < |events|
    requires events[i].batchId == r.batchId && events[i].payload.ModelCallStarted?
    ensures events[i].payload.call.callId in BookOf(r, events).value.starts
    ensures BookOf(r, events).value.starts[events[i].payload.call.callId] == events[i].caseId
  {
    if i < |events| - 1 { BookSeesStart(r, events[..|events| - 1], i); }
  }

  lemma {:induction false} BookedFinishHasEvent(r: Recorder, events: seq<Event>, p: string) returns (i: nat)
    requires BookOf(r, events).Ok? && p in BookOf(r, events).value.finishes
    ensures i < |events| && events[i].payload.ModelCallFinished? && events[i].payload.callId == p
  {
    var n := |events| - 1;
    if events[n].payload.ModelCallFinished? && events[n].payload.callId == p {
      i := n;
    } else {
      i := BookedFinishHasEvent(r, events[..n], p);
    }
  }

  lemma {:induction false} BookedCostHasEvent(r: Recorder, events: seq<Event>, p: string) returns (i: nat)
    requires BookOf(r, events).Ok? && p in BookOf(r, events).value.costs
    ensures i < |events| && events[i].payload.CostRecorded? && events[i].payload.cost.category.ModelInference?
    ensures events[i].payload.cost.sourceCall == Some(p) && AmountKnown(events[i].payload.cost)
  {
    var n := |events| - 1;
    if events[n].batchId == r.batchId && events[n].payload.CostRecorded?
       && events[n].payload.cost.category.ModelInference?
       && events[n].payload.cost.sourceCall == Some(p) {
      i := n;
    } else {
      i := BookedCostHasEvent(r, events[..n], p);
    }
  }

  lemma {:induction false} CurrentStartHasEvent(r: Recorder, events: seq<Event>) returns (i: nat)
    requires |CurrentStarts(r, events)| == 1
    ensures i < |events| && Current(r, events[i]) && events[i].payload == AttemptStarted(CurrentStarts(r, events)[0])
  {
    var n := |events| - 1;
    if Current(r, events[n]) && events[n].payload.AttemptStarted? {
      i := n;
    } else {
      i := CurrentStartHasEvent(r, events[..n]);
    }
  }

  lemma {:induction false} FinishHasEvent(x: Context, events: seq<Event>, a: string) returns (i: nat)
    requires Clean(x, events) && a in Run(x, events).attempts && Run(x, events).attempts[a].finished.Some?
    ensures i < |events| && events[i].attemptId == a && events[i].payload.AttemptFinished?
  {
    hide Faults, Next;
    var n := |events| - 1;
    CleanSplits(x, events);
    StepTouches(x, Run(x, events[..n]), events[n]);
    hide AttemptAfter, CaseAfter, CaseOf;
    if events[n].attemptId == a && events[n].payload.AttemptFinished? {
      i := n;
    } else {
      i := FinishHasEvent(x, events[..n], a);
    }
  }

  lemma {:induction false} CaseCallHasEvent(x: Context, events: seq<Event>, c: string) returns (i: nat)
    requires Clean(x, events) && CaseOf(Run(x, events), c).callIds != []
    ensures i < |events| && events[i].caseId == c && events[i].payload.ModelCallStarted?
  {
    hide Faults, Next;
    var n := |events| - 1;
    CleanSplits(x, events);
    StepTouches(x, Run(x, events[..n]), events[n]);
    hide AttemptAfter;
    if events[n].caseId == c && events[n].payload.ModelCallStarted? {
      i := n;
    } else {
      i := CaseCallHasEvent(x, events[..n], c);
    }
  }

  // ---------------------------------------------------------------- the guard against the validator

  /** One batch: always so in an error-free scored ledger, once an attempt of the batch has started. */
  predicate OneBatch(events: seq<Event>, batchId: string) {
    forall i :: 0 <= i < |events| ==> events[i].batchId == batchId
  }

  lemma {:induction false} ScoredLedgerHasOneBatch(x: Context, events: seq<Event>, i: nat)
    requires x.lane.Scored? && Clean(x, events) && i < |events|
    ensures OneBatch(events, events[i].batchId)
  {
    hide Faults, Run;
    CleanRunHasOneFreeze(x, events);
    CleanRunReflects(x, events, i);
    forall j | 0 <= j < |events| ensures events[j].batchId == events[i].batchId {
      CleanRunReflects(x, events, j);
    }
  }

  /** A call that keeps the validator from faulting the request: settled, of another id and of another case. */
  predicate Quiet(s: State, r: Recorder, q: Request, a: string, p: string)
    requires a in s.attempts
  {
    CallIsSettled(s.attempts[a], p) && p != q.callId && s.attempts[a].caseId != r.caseId
  }

  /** Every call of another batch is quiet. The guard does not look at other batches. */
  ghost predicate QuietElsewhere(s: State, r: Recorder, q: Request) {
    forall a, p :: a in s.attempts && s.attempts[a].batchId != r.batchId && p in s.attempts[a].callStarts ==>
           Quiet(s, r, q, a, p)
  }

  ghost predicate QuietEverywhere(s: State, r: Recorder, q: Request) {
    forall a, p :: a in s.attempts && p in s.attempts[a].callStarts ==> Quiet(s, r, q, a, p)
  }

  lemma {:induction false} StartOwned(x: Context, events: seq<Event>, a: string, p: string)
    requires Clean(x, events) && a in Run(x, events).attempts && p in Run(x, events).attempts[a].callStarts
    ensures p in Run(x, events).callOwner && Run(x, events).callOwner[p] == a
  {
    CleanRunOwnsCalls(x, events);
    hide Run, Clean;
    assert AttemptCallsOwned(Run(x, events).callOwner, a, Run(x, events).attempts[a]);
  }

  lemma {:induction false} BookedFinishIsReflected(x: Context, r: Recorder, events: seq<Event>, p: string)
    requires Clean(x, events) && BookOf(r, events).Ok? && p in BookOf(r, events).value.finishes
    ensures var s := Run(x, events);
            p in s.callOwner && s.callOwner[p] in s.attempts && p in s.attempts[s.callOwner[p]].callFinishes
  {
    hide Faults, Run;
    var j := BookedFinishHasEvent(r, events, p);
    CleanRunReflects(x, events, j);
  }

  lemma {:induction false} BookedCostIsReflected(x: Context, r: Recorder, events: seq<Event>, p: string)
    requires Clean(x, events) && BookOf(r, events).Ok? && p in BookOf(r, events).value.costs
    ensures var s := Run(x, events);
            && p in s.callOwner && s.callOwner[p] in s.attempts && p in s.attempts[s.callOwner[p]].callCosts
            && AmountKnown(s.attempts[s.callOwner[p]].callCosts[p])
  {
    hide Faults, Run;
    var k := BookedCostHasEvent(r, events, p);
    CleanRunReflects(x, events, k);
    CleanRunOwnsCalls(x, events);
    var s, b := Run(x, events), events[k].attemptId;
    assert AttemptCallsOwned(s.callOwner, b, s.attempts[b]);
  }

  /** A known call has an event of its attempt's batch and case. */
  lemma {:induction false} StartEventOf(x: Context, events: seq<Event>, a: string, p: string) returns (i: nat)
    requires Clean(x, events) && a in Run(x, events).attempts && p in Run(x, events).attempts[a].callStarts
    ensures i < |events| && events[i].payload.ModelCallStarted? && events[i].payload.call.callId == p
    ensures events[i].batchId == Run(x, events).attempts[a].batchId
    ensures events[i].caseId == Run(x, events).attempts[a].caseId
    ensures CaseOf(Run(x, events), events[i].caseId).callIds != []
  {
    hide Faults, Run;
    StartOwned(x, events, a, p);
    i := CallHasEvent(x, events, p);
    CleanRunReflects(x, events, i);
  }

  /** The guard has made sure that every call of its own batch is quiet. */
  lemma {:induction false} OwnCallsAreQuiet(x: Context, r: Recorder, events: seq<Event>, q: Request, a: string,
                                            p: string)
    requires Clean(x, events)
    requires BookOf(r, events).Ok? && OpenCallsError(r, BookOf(r, events).value, q.callId).None?
    requires a in Run(x, events).attempts && p in Run(x, events).attempts[a].callStarts
    requires Run(x, events).attempts[a].batchId == r.batchId
    ensures Quiet(Run(x, events), r, q, a, p)
  {
    hide Faults, Run, BookOf;
    StartOwned(x, events, a, p);
    var i := StartEventOf(x, events, a, p);
    BookSeesStart(r, events, i);
    BookedFinishIsReflected(x, r, events, p);
    BookedCostIsReflected(x, r, events, p);
  }

  lemma {:induction false} QuietnessIsElsewhere(x: Context, r: Recorder, events: seq<Event>, q: Request)
    requires Clean(x, events)
    requires BookOf(r, events).Ok? && OpenCallsError(r, BookOf(r, events).value, q.callId).None?
    ensures QuietEverywhere(Run(x, events), r, q) <==> QuietElsewhere(Run(x, events), r, q)
  {
    hide Faults, Run, BookOf, Clean, OpenCallsError, Quiet;
    var s := Run(x, events);
    if QuietElsewhere(s, r, q) {
      forall a, p | a in s.attempts && p in s.attempts[a].callStarts ensures Quiet(s, r, q, a, p) {
        if s.attempts[a].batchId == r.batchId { OwnCallsAreQuiet(x, r, events, q, a, p); }
      }
    }
  }

  /** The errors that calls already in the index cause a new one. */
  function EarlierCallFaults(s: State, r: Recorder, q: Request): seq<Fault> {
    Repeated(UnresolvedCall, |UnresolvedCalls(s.attempts)|)
    + Require(q.callId !in s.callOwner, DuplicateCall)
    + Require(CaseOf(s, r.caseId).callIds == [], SecondCallOfCase)
  }

  lemma {:induction false} KnownCallIsNotQuiet(x: Context, r: Recorder, events: seq<Event>, q: Request)
    requires Clean(x, events) && q.callId in Run(x, events).callOwner
    ensures !QuietEverywhere(Run(x, events), r, q)
  {
    hide Faults, Run;
    CleanRunOwnsCalls(x, events);
    var s := Run(x, events);
    assert !Quiet(s, r, q, s.callOwner[q.callId], q.callId);
  }

  lemma {:induction false} CallOfCaseIsNotQuiet(x: Context, r: Recorder, events: seq<Event>, q: Request)
    requires Clean(x, events) && CaseOf(Run(x, events), r.caseId).callIds != []
    ensures !QuietEverywhere(Run(x, events), r, q)
  {
    hide Faults, Run, CaseOf;
    var i := CaseCallHasEvent(x, events, r.caseId);
    CleanRunReflects(x, events, i);
    assert !Quiet(Run(x, events), r, q, events[i].attemptId, events[i].payload.call.callId);
  }

  lemma {:induction false} EarlierCallsAreQuiet(x: Context, r: Recorder, events: seq<Event>, q: Request)
    requires Clean(x, events)
    ensures EarlierCallFaults(Run(x, events), r, q) == [] <==> QuietEverywhere(Run(x, events), r, q)
  {
    hide Faults, Run, CallIsSettled, CaseOf;
    var s := Run(x, events);
    CleanRunOwnsCalls(x, events);
    NoFaultsMeans(s, r, q);
    if EarlierCallFaults(s, r, q) == [] {
      forall a, p | a in s.attempts && p in s.attempts[a].callStarts ensures Quiet(s, r, q, a, p) {
        StartOwned(x, events, a, p);
        var i := StartEventOf(x, events, a, p);
        assert (a, p) !in UnresolvedCalls(s.attempts);
      }
    }
    if QuietEverywhere(s, r, q) {
      assert UnresolvedCalls(s.attempts) == {};
      if q.callId in s.callOwner { KnownCallIsNotQuiet(x, r, events, q); }
      if CaseOf(s, r.caseId).callIds != [] { CallOfCaseIsNotQuiet(x, r, events, q); }
    }
  }

  lemma {:induction false} NoFaultsMeans(s: State, r: Recorder, q: Request)
    ensures EarlierCallFaults(s, r, q) == [] <==>
              UnresolvedCalls(s.attempts) == {} && q.callId !in s.callOwner && CaseOf(s, r.caseId).callIds == []
  {
    hide UnresolvedCalls, CaseOf;
    assert |UnresolvedCalls(s.attempts)| == 0 <==> UnresolvedCalls(s.attempts) == {};
  }

  /** The attempt is the recorder's, unfinished, and its freeze is the recorder's. */
  lemma {:induction false} AdmittedAttemptIsOpen(x: Context, r: Recorder, events: seq<Event>, q: Option<Request>)
    returns (i: nat)
    requires Clean(x, events) && MatchingStartError(r, events, q).None?
    ensures i < |events| && Current(r, events[i]) && events[i].payload.AttemptStarted?
    ensures r.attemptId in Run(x, events).attempts
    ensures var t := Run(x, events).attempts[r.attemptId];
            && t.caseId == r.caseId && t.batchId == r.batchId && t.finished.None?
            && t.start == events[i].payload.start && CampaignMatches(r, t.start.freeze)
            && (q.Some? ==> GeneratorMatches(r, t.start.freeze, q.value))
  {
    hide Faults, Run, CampaignMatches, GeneratorMatches;
    i := CurrentStartHasEvent(r, events);
    CleanRunReflects(x, events, i);
    if Run(x, events).attempts[r.attemptId].finished.Some? {
      var j := FinishHasEvent(x, events, r.attemptId);
      assert false;
    }
  }

  lemma {:induction false} AdmittedReservationIsFaultless(x: Context, r: Recorder, f: Freeze, q: Request)
    requires WellFormed(r) && AuthorizationError(r, q).None? && CampaignMatches(r, f) && GeneratorMatches(r, f, q)
    requires x.lane == r.lane && (f.campaign.tier.PublicSmoke? ==> x.lane.Smoke?)
    ensures ReservationFaults(f, CallOf(r, q)) == []
  {
  }

  lemma {:induction false} FaultsOfCall(x: Context, s: State, r: Recorder, q: Request, at: int)
    requires r.caseId in x.knownCases && (x.lane.Scored? || r.caseId in x.smokeCases)
    requires r.attemptId in s.attempts && s.attempts[r.attemptId].caseId == r.caseId
    requires s.attempts[r.attemptId].batchId == r.batchId && s.attempts[r.attemptId].finished.None?
    requires ReservationFaults(s.attempts[r.attemptId].start.freeze, CallOf(r, q)) == []
    ensures Faults(x, s, CallEvent(r, q, at))
         == if s.attempts[r.attemptId].gold.Some? then [AfterGold] else EarlierCallFaults(s, r, q)
  {
    hide ReservationFaults, CaseOf, UnresolvedCalls, Repeated;
  }

  /**
   The guard against the validator, on any error-free ledger of either lane. Once the attempt's gold is
   unblinded an admitted call adds exactly that error. Before, it adds the errors of earlier calls that are
   in its way, and these can only be calls of other batches: none exactly when every one of them is quiet.
   */
  lemma {:induction false} AdmittedCallIsFaultlessIffQuiet(x: Context, r: Recorder, events: seq<Event>, q: Request,
                                                           at: int)
    requires Clean(x, events) && x.lane == r.lane && Refusal(r, events, q).None?
    ensures r.attemptId in Run(x, events).attempts
    ensures var s := Run(x, events);
            && Faults(x, s, CallEvent(r, q, at))
                 == (if s.attempts[r.attemptId].gold.Some? then [AfterGold] else EarlierCallFaults(s, r, q))
            && (EarlierCallFaults(s, r, q) == [] <==> QuietElsewhere(s, r, q))
  {
    hide Run, Clean, Faults, BookOf, OpenCallsError, MatchingStartError, AuthorizationError, WellFormed,
         EarlierCallFaults;
    hide ReservationFaults, CampaignMatches, GeneratorMatches, QuietElsewhere, QuietEverywhere;
    var s := Run(x, events);
    var i := AdmittedAttemptIsOpen(x, r, events, Some(q));
    CleanPrefix(x, events, i);
    StartedInKnownCase(x, Run(x, events[..i]), events[i]);
    AdmittedReservationIsFaultless(x, r, s.attempts[r.attemptId].start.freeze, q);
    FaultsOfCall(x, s, r, q, at);
    EarlierCallsAreQuiet(x, r, events, q);
    QuietnessIsElsewhere(x, r, events, q);
  }

  lemma {:induction false} ScoredRecorderSeesOneBatch(x: Context, r: Recorder, events: seq<Event>, q: Request)
    requires x.lane.Scored? && Clean(x, events) && Refusal(r, events, q).None?
    ensures OneBatch(events, r.batchId)
  {
    hide Run, Clean, BookOf, OpenCallsError, MatchingStartError, AuthorizationError, WellFormed, OneBatch;
    var i := AdmittedAttemptIsOpen(x, r, events, Some(q));
    ScoredLedgerHasOneBatch(x, events, i);
  }

  /** On a scored ledger, or any other of one batch, gold is the only exception. */
  lemma {:induction false} AdmittedCallIsFaultlessIffBlind(x: Context, r: Recorder, events: seq<Event>, q: Request,
                                                           at: int)
    requires Clean(x, events) && x.lane == r.lane && (x.lane.Scored? || OneBatch(events, r.batchId))
    requires Refusal(r, events, q).None?
    ensures r.attemptId in Run(x, events).attempts
    ensures Faults(x, Run(x, events), CallEvent(r, q, at))
         == if Run(x, events).attempts[r.attemptId].gold.Some? then [AfterGold] else []
  {
    hide Run, Clean, Faults, Refusal, EarlierCallFaults, Quiet;
    var s := Run(x, events);
    AdmittedCallIsFaultlessIffQuiet(x, r, events, q, at);
    if x.lane.Scored? { ScoredRecorderSeesOneBatch(x, r, events, q); }
    forall a, p | a in s.attempts && p in s.attempts[a].callStarts ensures s.attempts[a].batchId == r.batchId {
      var i := StartEventOf(x, events, a, p);
    }
  }

  lemma {:induction false} StartedInKnownCase(x: Context, s: State, e: Event)
    requires Faults(x, s, e) == [] && e.payload.AttemptStarted?
    ensures e.caseId in x.knownCases && (x.lane.Scored? || e.caseId in x.smokeCases)
    ensures e.payload.start.freeze.campaign.tier.PublicSmoke? ==> x.lane.Smoke?
  {
    AdmittedShape(x, s, e);
    StartRules(x, s, e, e.payload.start);
    hide Next, StartFaults, OpeningFaults, OrderFaults, BatchFaults;
  }

  // ---------------------------------------------------------------- the finish guard against the validator

  lemma {:induction false} OwnStartHasEvent(r: Recorder, events: seq<Event>, callId: string) returns (i: nat)
    requires |OwnStarts(r, events, callId)| == 1
    ensures i < |events| && Current(r, events[i]) && events[i].payload.ModelCallStarted?
    ensures events[i].payload.call.callId == callId && events[i].payload.call == OwnStarts(r, events, callId)[0]
  {
    var n := |events| - 1;
    if Current(r, events[n]) && events[n].payload.ModelCallStarted? && events[n].payload.call.callId == callId {
      i := n;
    } else {
      i := OwnStartHasEvent(r, events[..n], callId);
    }
  }

  lemma {:induction false} FaultsOfFinish(x: Context, s: State, r: Recorder, callId: string, f: CallFinish, at: int)
    requires r.caseId in x.knownCases && (x.lane.Scored? || r.caseId in x.smokeCases)
    requires r.attemptId in s.attempts && s.attempts[r.attemptId].caseId == r.caseId
    requires s.attempts[r.attemptId].batchId == r.batchId && s.attempts[r.attemptId].finished.None?
    requires callId in s.callOwner && s.callOwner[callId] == r.attemptId
             && callId !in s.attempts[r.attemptId].callFinishes
    requires UsageFaults(f.usage) == [] && IntervalFaults(f.interval) == []
    ensures Faults(x, s, FinishEvent(r, callId, f, at)) == if s.attempts[r.attemptId].gold.Some? then [AfterGold]
            else []
  {
    hide UsageFaults, IntervalFaults, CaseOf;
  }

  lemma {:induction false} ValidUsageIsFaultless(u: Usage)
    requires UsageIsValid(u)
    ensures UsageFaults(u) == []
  {
  }

  /**
   The same for the end of a call. On any error-free ledger an admitted finish is never one without a start
   nor a second one, and its timestamps and usage are coherent: it adds no error at all, or, once gold is
   unblinded, exactly that.
   */
  lemma {:induction false} AdmittedFinishIsFaultlessIffBlind(x: Context, r: Recorder, events: seq<Event>,
                                                             callId: string, f: CallFinish, at: int)
    requires Clean(x, events) && FinishRefusal(r, events, callId, f).None?
    ensures r.attemptId in Run(x, events).attempts
    ensures Faults(x, Run(x, events), FinishEvent(r, callId, f, at))
         == if Run(x, events).attempts[r.attemptId].gold.Some? then [AfterGold] else []
  {
    hide Run, Clean, Faults, MatchingStartError, WellFormed, OwnStarts, UsageFaults, UsageIsValid;
    ValidUsageIsFaultless(f.usage);
    assert IntervalFaults(f.interval) == [];
    hide IntervalFaults;
    var s := Run(x, events);
    var i := AdmittedAttemptIsOpen(x, r, events, None);
    CleanPrefix(x, events, i);
    StartedInKnownCase(x, Run(x, events[..i]), events[i]);
    var k := OwnStartHasEvent(r, events, callId);
    CleanRunReflects(x, events, k);
    if callId in s.attempts[r.attemptId].callFinishes {
      var j := FinishedCallHasEvent(x, events, r.attemptId, callId);
      CurrentByAttempt(r, events, j);
      assert false;
    }
    FaultsOfFinish(x, s, r, callId, f, at);
  }

  lemma {:induction false} CurrentByAttempt(r: Recorder, events: seq<Event>, j: nat)
    requires MatchingStartError(r, events, None).None? && j < |events| && events[j].attemptId == r.attemptId
    ensures Current(r, events[j])
  {
  }
}

/**
 The campaign controller (src/reproassert/benchmark_v021_campaign_controller.py over
 `_execute_v021_case_with_ports`), with a crash possible before every durable effect.
 */
module Controller {
  import opened Wrappers
  import opened Records
  import opened SpendLedger
  import opened Runtime
  import opened Campaign

  datatype CaseRun =
    | Done(result: Digest, response: Digest)
    | UnknownSpend(result: Digest)
    | Crashed
    | Raised(failure: Failure)

  datatype CampaignRun =
    | GenerationComplete(barrier: Barrier)
    | SpendHalt
    | Killed
    | Rejected(failure: Failure)

  datatype Barrier = Barrier(sha: Digest, authorization: Digest, requestSet: Digest, results: seq<(string, Digest)>)

  /** What executing a case hands back: its result and whether a durable response stands behind it. */
  datatype Generated = Generated(caseId: string, result: Digest, durable: bool)

  datatype Progress = Progress(status: string, results: seq<(string, Digest)>, barrier: Option<Digest>)

  function ResultsOf(outcomes: seq<Generated>): (results: seq<(string, Digest)>)
    ensures |results| == |outcomes|
  {
    seq(|outcomes|, i requires 0 <= i < |outcomes| => (outcomes[i].caseId, outcomes[i].result))
  }

  /** What the first `m` cases hand back once they are finished. */
  ghost function DurableOutcomes(p: Plan, provider: Provider, m: nat): (outcomes: seq<Generated>)
    requires p.Valid() && m <= |Ids(p)| && UsableUpTo(p, provider, m)
    ensures |outcomes| == m
  {
    seq(m, i requires 0 <= i < m => Generated(Ids(p)[i], OfResult(SuccessResult(p, provider, Ids(p)[i])), true))
  }

  lemma {:induction false} OneMoreOutcome(p: Plan, provider: Provider, i: nat)
    requires p.Valid() && i < |Ids(p)| && UsableUpTo(p, provider, i + 1)
    ensures DurableOutcomes(p, provider, i + 1)
         == DurableOutcomes(p, provider, i)
           + [Generated(Ids(p)[i], OfResult(SuccessResult(p, provider, Ids(p)[i])), true)]
  {
    hide SuccessResult;
  }

  /** The outcomes a barrier is issued for: the whole cohort in order, every case with a durable response. */
  predicate Terminal(p: Plan, outcomes: seq<Generated>) {
    InCohortOrder(p, outcomes) && forall i | 0 <= i < |outcomes| :: outcomes[i].durable
  }

  predicate InCohortOrder(p: Plan, outcomes: seq<Generated>) {
    |outcomes| == |Ids(p)| && forall i | 0 <= i < |outcomes| :: outcomes[i].caseId == Ids(p)[i]
  }

  function BarrierFor(p: Plan, outcomes: seq<Generated>): Barrier {
    Barrier(OfBarrier(BarrierRecordOf(p, ResultsOf(outcomes))), p.auth.bindings.authorization,
            p.auth.bindings.requestSet,
            ResultsOf(outcomes))
  }

  ghost function BarrierOf(p: Plan, provider: Provider): Barrier
    requires p.Valid() && UsableUpTo(p, provider, |Ids(p)|)
  {
    BarrierFor(p, DurableOutcomes(p, provider, |Ids(p)|))
  }

  /** `require_v021_generation_barrier` on a controller-issued value. */
  predicate BarrierHolds(b: Barrier, ids: seq<string>) {
    && |b.results| == |ids| && (forall i :: 0 <= i < |ids| ==> b.results[i].0 == ids[i])
    && IsSha(b.sha) && IsSha(b.authorization) && IsSha(b.requestSet)
    && (forall i :: 0 <= i < |ids| ==> IsSha(b.results[i].1))
    && b.sha == OfBarrier(BarrierRecord(b.authorization, b.requestSet, b.results))
  }

  /** Where a run that stood at `(k, s)` may have got to. */
  predicate NotBefore(k: nat, s: Stage, k': nat, s': Stage) {
    k < k' || (k == k' && (Events(s) < Events(s')
                           || (Events(s) == Events(s') && (s.ResponseWritten? ==> s'.ResponseWritten?)
      && (s.ResultWritten? ==> s'.ResultWritten?) && (s.HaltWritten? ==> s'.HaltWritten?))))
  }

  /** Case `k` has a reservation and no response, so its spend is unknown for good. */
  predicate Unknown(s: Stage) {
    s.ReservedOnly? || s.HaltWritten?
  }

  /** The ledger reserves the case, has no response for it, and no response file is there to record. */
  ghost predicate InWindow(w: World, p: Plan, c: string) {
    var v := Verify(w.ledger, p.auth, p.claim);
    v.Ok? && c in v.value.states && v.value.states[c].Reserved? && c !in w.responses
  }

  /** Some case of the cohort was reserved and its answer, if there was one, is gone. */
  ghost predicate SpendIsLost(w: World, p: Plan) {
    exists i :: 0 <= i < |Ids(p)| && InWindow(w, p, Ids(p)[i])
  }

  lemma {:induction false} WindowIsUnknown(w: World, p: Plan, provider: Provider, k: nat, s: Stage, i: nat)
    requires p.Valid() && Canonical(w, p, provider, k, s) && i < |Ids(p)|
    ensures InWindow(w, p, Ids(p)[i]) <==> i == k && Unknown(s)
  {
    if i == k { ResponseFile(w, p, provider, k, s); }
    hide FilesAt, LedgerAt, Verify;
    StateOfCase(w.ledger, p, provider, k, Events(s), i);
  }

  lemma {:induction false} LostIsUnknown(w: World, p: Plan, provider: Provider, k: nat, s: Stage)
    requires p.Valid() && Canonical(w, p, provider, k, s)
    ensures SpendIsLost(w, p) <==> Unknown(s)
    ensures Unknown(s) ==> k < |Ids(p)| && InWindow(w, p, Ids(p)[k])
  {
    Bounds(w, p, provider, k, s);
    hide Canonical, InWindow, Verify;
    forall i | 0 <= i < |Ids(p)| ensures InWindow(w, p, Ids(p)[i]) <==> i == k && Unknown(s) {
      WindowIsUnknown(w, p, provider, k, s, i);
    }
    if Unknown(s) { assert InWindow(w, p, Ids(p)[k]); }
  }

  /** The result file of a case whose spend is unknown, by its digest. */
  function HaltResult(p: Plan, c: string): Digest
    requires c in p.auth.requests && c in p.inputs
  {
    OfResult(ResultRecordOf(p, c, UnknownSpendHalt))
  }

  /** The record a halt in case `k` leaves: the finished cases, then the halted one, and no barrier. */
  ghost predicate HaltIsReported(p: Plan, provider: Provider, k: nat, progress: Option<Progress>)
    requires p.Valid() && k < |Ids(p)| && UsableUpTo(p, provider, k)
  {
    && progress.Some? && progress.value.status == "unknown_spend_halt" && progress.value.barrier == None
    && |progress.value.results| == k + 1
    && (forall i :: 0 <= i < k ==>
          progress.value.results[i] == (Ids(p)[i], OfResult(SuccessResult(p, provider, Ids(p)[i]))))
    && progress.value.results[k] == (Ids(p)[k], HaltResult(p, Ids(p)[k]))
  }

  /** A record that was there before, or one that claims neither completion nor a halt. */
  predicate Unfinished(before: Option<Progress>, after: Option<Progress>) {
    after == before || (after.Some? && after.value.status == "generation" && after.value.barrier == None)
  }

  lemma {:induction false} BarrierReports(p: Plan, outcomes: seq<Generated>)
    ensures BarrierFor(p, outcomes).results == ResultsOf(outcomes)
  {
  }

  lemma {:induction false} HaltReport(p: Plan, provider: Provider, k: nat, outcomes: seq<Generated>, record: Progress)
    requires p.Valid() && k < |Ids(p)| && UsableUpTo(p, provider, k)
    requires outcomes == DurableOutcomes(p, provider, k) + [Generated(Ids(p)[k], HaltResult(p, Ids(p)[k]), false)]
    requires record == Progress("unknown_spend_halt", ResultsOf(outcomes), None)
    ensures HaltIsReported(p, provider, k, Some(record))
  {
    hide SuccessResult, HaltResult;
  }

  class CampaignController {
    const plan: Plan
    const ledger: LedgerFile
    var responses: map<string, ResponseRecord>
    var results: map<string, ResultRecord>
    var calls: seq<string>
    var progress: Option<Progress>
    var clock: int
    var crashAfter: Option<nat>

    /** What was durable at each crash. */
    ghost var crashLog: seq<World>

    /** A new campaign over a claimed ledger, with no files yet. */
    constructor (plan: Plan, ledger: LedgerFile, now: int)
      ensures this.plan == plan && this.ledger == ledger && clock == now && crashAfter == None
      ensures responses == map[] && results == map[] && calls == [] && progress == None && crashLog == []
    {
      this.plan, this.ledger, clock, crashAfter := plan, ledger, now, None;
      responses, results, calls, progress, crashLog := map[], map[], [], None, [];
    }

    ghost predicate Wired()
      reads this, ledger
    {
      && plan.Valid() && ledger.auth == plan.auth && ledger.claim == plan.claim
      && ledger.events != [] && LastTime(ledger.events) <= clock
    }

    ghost function State(): World
      reads this, ledger
    {
      World(ledger.events, responses, results, calls)
    }

    ghost predicate At(provider: Provider, k: nat, s: Stage)
      reads this, ledger
    {
      Wired() && Canonical(State(), plan, provider, k, s)
    }

    /** `_now()`: some instant that is not before the last one. */
    method Now() returns (t: int)
      modifies this`clock
      ensures old(clock) <= t == clock
    {
      t :| clock <= t;
      clock := t;
    }

    /** May the process carry out one more effect, or does it die here? A death is logged with what it leaves. */
    method Alive() returns (yes: bool)
      modifies this`crashAfter, this`crashLog
      ensures old(crashAfter).None? ==> yes && crashAfter.None?
      ensures crashLog == if yes then old(crashLog) else old(crashLog) + [State()]
    {
      match crashAfter
      case None => yes := true;
      case Some(n) =>
        yes := n > 0;
        if yes { crashAfter := Some(n - 1); }
        else { crashLog := crashLog + [State()]; }
    }

    /** The one place that calls the provider; an exception or an answer out of bounds is `None`. */
    method CallProviderOnce(c: string, provider: Provider) returns (reply: Option<Reply>)
      modifies this`calls
      ensures calls == old(calls) + [c]
      ensures reply == if Usable(plan, provider(c)) then Some(provider(c)) else None
      ensures reply.Some? <==>
                && provider(c).Answer? && 1 <= |provider(c).responseId| <= 500 && |provider(c).output| <= 1_000_000
                && 0 <= provider(c).cost <= plan.auth.perCaseCap
    {
      calls := calls + [c];
      var answer := provider(c);
      if answer.Failed? { return None; }
      if answer.responseId == "" || |answer.responseId| > 500 || |answer.output| > 1_000_000 { return None; }
      if !(0 <= answer.cost <= plan.auth.perCaseCap) { return None; }
      return Some(answer);
    }

    /** `record_unknown_spend_halt`, then `_unknown_result`: no event, one result file, never overwritten. */
    method Halt(c: string, provider: Provider, ghost k: nat, ghost s: Stage) returns (r: CaseRun, ghost s': Stage)
      requires At(provider, k, s) && Unknown(s) && k < |Ids(plan)| && c == Ids(plan)[k]
      modifies this`results, this`crashAfter, this`crashLog
      ensures At(provider, k, s') && !r.Raised? && !r.Done?
      ensures r.UnknownSpend? ==> s' == HaltWritten && r.result == HaltResult(plan, c)
      ensures r.Crashed? ==> s' == s && State() == old(State()) && old(crashAfter).Some?
      ensures crashLog == if r.Crashed? then old(crashLog) + [State()] else old(crashLog)
      ensures old(crashAfter).None? ==> crashAfter.None?
    {
      hide Canonical, Verify, HaltAllowed;
      s' := s;
      HaltEffect(State(), plan, provider, k, s);
      var v := ledger.VerifyFile();
      if !HaltAllowed(plan, c, v) { return Raised(HaltMismatch), s'; }
      var record := ResultRecordOf(plan, c, UnknownSpendHalt);
      if c in results {
        if results[c] != record { return Raised(ResultConflict), s'; }
      } else {
        var alive := Alive();
        if !alive { return Crashed, s'; }
        results := results[c := record];
      }
      return UnknownSpend(OfResult(record)), HaltWritten;
    }

    /** The response event, for a response file the ledger does not know yet. */
    method RecordResponse(c: string, record: ResponseRecord, provider: Provider, ghost k: nat)
      returns (r: Result<bool, Failure>, ghost s': Stage)
      requires At(provider, k, ResponseWritten) && k < |Ids(plan)| && c == Ids(plan)[k]
      requires Usable(plan, provider(c)) && record == ResponseRecordOf(plan, c, provider(c))
      modifies this`clock, this`crashAfter, this`crashLog, ledger
      ensures At(provider, k, s') && r.Ok?
      ensures s' == if r.value then ResponseRecorded else ResponseWritten
      ensures !r.value ==> old(crashAfter).Some?
      ensures crashLog == if r.value then old(crashLog) else old(crashLog) + [State()]
      ensures old(crashAfter).None? ==> crashAfter.None?
    {
      hide Canonical, RecoverOp, RecordResponseOp;
      s' := ResponseWritten;
      var alive := Alive();
      if !alive { return Ok(false), s'; }
      var at := Now();
      RecordResponseEffect(State(), plan, provider, k, at);
      var token := ledger.Recover(c, RequestOf(plan, c), CallOf(plan, c), Some(OfResponse(record)));
      if token.Err? { return Err(LedgerFailure(token)), s'; }
      var recorded := ledger.RecordResponse(token.value, OfResponse(record), record.cost, at);
      if recorded.Err? { return Err(LedgerFailure(recorded)), s'; }
      return Ok(true), ResponseRecorded;
    }

    /** The result file, written once or compared with what is there. */
    method KeepResult(c: string, result: ResultRecord, provider: Provider, ghost k: nat, ghost s: Stage)
      returns (r: Result<bool, Failure>, ghost s': Stage)
      requires At(provider, k, s) && k < |Ids(plan)| && c == Ids(plan)[k]
      requires s.ResponseRecorded? || s.ResultWritten?
      requires Usable(plan, provider(c)) && result == SuccessResult(plan, provider, c)
      modifies this`results, this`crashAfter, this`crashLog
      ensures At(provider, k, s') && r.Ok?
      ensures s' == if r.value then ResultWritten else s
      ensures !r.value ==> old(crashAfter).Some?
      ensures crashLog == if r.value then old(crashLog) else old(crashLog) + [State()]
      ensures old(crashAfter).None? ==> crashAfter.None?
    {
      hide Canonical;
      s' := s;
      ResultFileEffect(State(), plan, provider, k, s);
      if c in results {
        if results[c] != result { return Err(ResultConflict), s'; }
      } else {
        var alive := Alive();
        if !alive { return Ok(false), s'; }
        results := results[c := result];
      }
      return Ok(true), ResultWritten;
    }

    /** The completion event. */
    method RecordResult(c: string, response: Digest, result: Digest, provider: Provider, ghost k: nat)
      returns (r: CaseRun, ghost k': nat, ghost s': Stage)
      requires At(provider, k, ResultWritten) && k < |Ids(plan)| && c == Ids(plan)[k]
      requires Usable(plan, provider(c)) && response == OfResponse(ResponseRecordOf(plan, c, provider(c)))
      requires result == OfResult(SuccessResult(plan, provider, c))
      modifies this`clock, this`crashAfter, this`crashLog, ledger
      ensures At(provider, k', s') && (r.Crashed? || r == Done(result, response))
      ensures r.Done? ==> (k', s') == (k + 1, Fresh)
      ensures r.Crashed? ==> (k', s') == (k, ResultWritten) && old(crashAfter).Some?
      ensures crashLog == if r.Crashed? then old(crashLog) + [State()] else old(crashLog)
      ensures old(crashAfter).None? ==> crashAfter.None?
    {
      hide Canonical, RecoverOp, RecordResultOp;
      k', s' := k, ResultWritten;
      var alive := Alive();
      if !alive { return Crashed, k', s'; }
      var at := Now();
      CompletionEffect(State(), plan, provider, k, at);
      var token := ledger.Recover(c, RequestOf(plan, c), CallOf(plan, c), Some(response));
      if token.Err? { return Raised(LedgerFailure(token)), k', s'; }
      var recorded := ledger.RecordResult(token.value, response, result, at);
      if recorded.Err? { return Raised(LedgerFailure(recorded)), k', s'; }
      return Done(result, response), k + 1, Fresh;
    }

    /** From a durable response file to the completion event. */
    method Finish(c: string, provider: Provider, reserved: bool, ghost k: nat, ghost s: Stage)
      returns (r: CaseRun, ghost k': nat, ghost s': Stage)
      requires At(provider, k, s) && k < |Ids(plan)| && c == Ids(plan)[k]
      requires s.ResponseWritten? || s.ResponseRecorded? || s.ResultWritten?
      requires reserved <==> s.ResponseWritten?
      modifies this`results, this`clock, this`crashAfter, this`crashLog, ledger
      ensures At(provider, k', s')
      ensures Usable(plan, provider(c))
      ensures r.Crashed? || r == Done(OfResult(SuccessResult(plan, provider, c)),
                                      OfResponse(ResponseRecordOf(plan, c, provider(c))))
      ensures r.Done? ==> (k', s') == (k + 1, Fresh)
      ensures r.Crashed? ==> k' == k && NotBefore(k, s, k', s') && old(crashAfter).Some?
      ensures crashLog == if r.Crashed? then old(crashLog) + [State()] else old(crashLog)
      ensures old(crashAfter).None? ==> crashAfter.None?
    {
      hide Canonical, LoadResponse;
      k', s' := k, s;
      StoredResponse(State(), plan, provider, k, s);
      var loaded := LoadResponse(plan, c, responses);
      if loaded.Err? { return Raised(FailureOf(loaded)), k', s'; }
      var record := loaded.value;
      var step: Result<bool, Failure>;
      if reserved {
        step, s' := RecordResponse(c, record, provider, k);
        if step.Err? { return Raised(FailureOf(step)), k', s'; }
        if !step.value { return Crashed, k', s'; }
      }
      var result := ResultRecordOf(plan, c, Durable(OfResponse(record)));
      step, s' := KeepResult(c, result, provider, k, s');
      if step.Err? { return Raised(FailureOf(step)), k', s'; }
      if !step.value { return Crashed, k', s'; }
      r, k', s' := RecordResult(c, OfResponse(record), OfResult(result), provider, k);
    }

    /** Reserve case `k`, call the provider once and keep its response. */
    method Generate(c: string, provider: Provider, ghost k: nat) returns (r: Result<bool, CaseRun>, ghost s': Stage)
      requires At(provider, k, Fresh) && k < |Ids(plan)| && c == Ids(plan)[k]
      modifies this`responses, this`results, this`calls, this`clock, this`crashAfter, this`crashLog, ledger
      ensures At(provider, k, s')
      ensures r.Ok? ==> s' == ResponseWritten && Usable(plan, provider(c))
      ensures r.Err? ==> r.error.Crashed? || (r.error.UnknownSpend? && s' == HaltWritten && !Usable(plan, provider(c)))
      ensures r.Err? && r.error.UnknownSpend? ==> r.error.result == HaltResult(plan, c)
      ensures r.Err? && r.error.Crashed? ==> (s'.Fresh? || s'.ReservedOnly?) && old(crashAfter).Some?
      ensures crashLog == if r.Err? && r.error.Crashed? then old(crashLog) + [State()] else old(crashLog)
      ensures old(crashAfter).None? ==> crashAfter.None?
    {
      hide Canonical, ReserveOp;
      s' := Fresh;
      var alive := Alive();
      if !alive { return Err(Crashed), s'; }
      var at := Now();
      ReserveEffect(State(), plan, provider, k, at);
      var reservation := ledger.Reserve(c, RequestOf(plan, c), CallOf(plan, c), at);
      if reservation.Err? { return Err(Raised(LedgerFailure(reservation))), s'; }
      s' := ReservedOnly;
      alive := Alive();
      if !alive { return Err(Crashed), s'; }
      var reply := CallProviderOnce(c, provider);
      if reply.None? {
        var halted: CaseRun;
        halted, s' := Halt(c, provider, k, s');
        return Err(halted), s';
      }
      alive := Alive();
      if !alive { return Err(Crashed), s'; }
      ResponseFileEffect(State(), plan, provider, k);
      if c in responses { return Err(Raised(FileExists)), s'; }
      responses := responses[c := ResponseRecordOf(plan, c, reply.value)];
      return Ok(true), ResponseWritten;
    }

    /** `_execute_v021_case_with_ports` on case `i` of the cohort, in a world that stands at `(k, s)`. */
    method ExecuteCase(i: nat, provider: Provider, ghost k: nat, ghost s: Stage)
      returns (r: CaseRun, ghost k': nat, ghost s': Stage)
      requires At(provider, k, s) && i < |Ids(plan)| && i <= k
      modifies this`responses, this`results, this`calls, this`clock, this`crashAfter, this`crashLog, ledger
      ensures At(provider, k', s') && !r.Raised? && NotBefore(k, s, k', s')
      ensures i < k ==> r.Done? && State() == old(State()) && (k', s') == (k, s)
      ensures r.Done? && i == k ==> (k', s') == (k + 1, Fresh) && !Unknown(s)
      ensures r.Done? ==>
                Usable(plan, provider(Ids(plan)[i]))
                && r.result == OfResult(SuccessResult(plan, provider, Ids(plan)[i]))
                && r.response == OfResponse(ResponseRecordOf(plan, Ids(plan)[i], provider(Ids(plan)[i])))
      ensures r.UnknownSpend? ==> i == k && (k', s') == (k, HaltWritten) && r.result == HaltResult(plan, Ids(plan)[k])
      ensures r.UnknownSpend? && s.Fresh? ==> !Usable(plan, provider(Ids(plan)[k]))
      ensures r.UnknownSpend? && !s.Fresh? ==> Unknown(s)
      ensures r.Crashed? ==> i == k == k' && old(crashAfter).Some?
      ensures crashLog == if r.Crashed? then old(crashLog) + [State()] else old(crashLog)
      ensures Unknown(s) && i == k ==> ledger.events == old(ledger.events) && calls == old(calls) && Unknown(s')
      ensures !s.Fresh? && i == k ==> calls == old(calls)
      ensures old(crashAfter).None? ==> crashAfter.None?
    {
      hide Canonical, Verify, PortState, LoadResult;
      k', s' := k, s;
      var c := Ids(plan)[i];
      var v := ledger.VerifyFile();
      var port := PortState(plan, c, v);
      if i < k {
        FinishedCaseLoads(State(), plan, provider, k, s, i);
      } else {
        CurrentCase(State(), plan, provider, k, s);
      }
      if port.Err? { return Raised(FailureOf(port)), k', s'; }
      var state := port.value;
      if state.Completed? {
        var loaded := LoadResult(plan, c, results, state.result);
        if loaded.Err? { return Raised(FailureOf(loaded)), k', s'; }
        return Done(loaded.value, state.response), k', s';
      }
      PresentResponse(State(), plan, provider, k, s);
      var reserved := state.Reserved?;
      if state.Available? {
        var generated: Result<bool, CaseRun>;
        generated, s' := Generate(c, provider, k);
        if generated.Err? { return generated.error, k', s'; }
        reserved := true;
      } else if state.Reserved? && c !in responses {
        r, s' := Halt(c, provider, k, s);
        return r, k', s';
      }
      r, k', s' := Finish(c, provider, reserved, k, s');
    }

    /** `_write_progress`: the whole record is replaced at once, or the process dies before that. */
    method WriteProgress(status: string, outcomes: seq<Generated>, barrier: Option<Digest>) returns (written: bool)
      modifies this`progress, this`crashAfter, this`crashLog
      ensures written ==> progress == Some(Progress(status, ResultsOf(outcomes), barrier))
      ensures !written ==> progress == old(progress) && old(crashAfter).Some?
      ensures crashLog == if written then old(crashLog) else old(crashLog) + [State()]
      ensures old(crashAfter).None? ==> crashAfter.None?
    {
      written := Alive();
      if written { progress := Some(Progress(status, ResultsOf(outcomes), barrier)); }
    }

    /** `_issue_barrier`: any list of outcomes is either rejected or the whole cohort in order, all durable. */
    method IssueBarrier(outcomes: seq<Generated>) returns (b: Result<Barrier, Failure>)
      ensures b.Ok? <==> Terminal(plan, outcomes)
      ensures b.Ok? ==> b.value == BarrierFor(plan, outcomes)
      ensures b.Err? ==> b.error == if InCohortOrder(plan, outcomes) then BarrierUnknownSpend else BarrierOrder
    {
      if |outcomes| != |Ids(plan)| { return Err(BarrierOrder); }
      for i := 0 to |outcomes|
        invariant forall j :: 0 <= j < i ==> outcomes[j].caseId == Ids(plan)[j]
      {
        if outcomes[i].caseId != Ids(plan)[i] { return Err(BarrierOrder); }
      }
      for i := 0 to |outcomes|
        invariant forall j :: 0 <= j < i ==> outcomes[j].durable
      {
        if !outcomes[i].durable { return Err(BarrierUnknownSpend); }
      }
      return Ok(BarrierFor(plan, outcomes));
    }

    /** One pass of the controller's loop: execute case `i`, then report it. */
    method ExecuteAndReport(i: nat, outcomes: seq<Generated>, provider: Provider, ghost k: nat, ghost s: Stage)
      returns (stop: Option<CampaignRun>, more: seq<Generated>, ghost k': nat, ghost s': Stage)
      requires At(provider, k, s) && i < |Ids(plan)| && i <= k && UsableUpTo(plan, provider, k)
      requires outcomes == DurableOutcomes(plan, provider, i)
      modifies this`responses, this`results, this`calls, this`progress, this`clock, this`crashAfter, this`crashLog,
               ledger
      ensures At(provider, k', s') && NotBefore(k, s, k', s') && k' <= |Ids(plan)| && UsableUpTo(plan, provider, k')
      ensures stop.None? ==> i < k' && more == DurableOutcomes(plan, provider, i + 1) && crashLog == old(crashLog)
      ensures stop.None? ==> if i < k then (k', s') == (k, s) && State() == old(State())
                             else (k', s') == (k + 1, Fresh) && !Unknown(s)
      ensures stop.Some? ==> stop.value.Killed? || (stop.value.SpendHalt? && i == k)
      ensures stop.Some? && stop.value.Killed? ==> old(crashAfter).Some? && crashLog == old(crashLog) + [State()]
      ensures stop.Some? && stop.value.SpendHalt? ==>
                && k' == k < |Ids(plan)| && s' == HaltWritten && crashLog == old(crashLog)
                && (!Usable(plan, provider(Ids(plan)[k])) || Unknown(s))
      ensures stop.None? ==> progress == Some(Progress("generation", ResultsOf(more), None))
      ensures stop.Some? && stop.value.SpendHalt? ==> HaltIsReported(plan, provider, k, progress)
      ensures stop.Some? && stop.value.Killed? ==> Unfinished(old(progress), progress)
      ensures stop.Some? && i < k ==> (k', s') == (k, s) && State() == old(State())
      ensures Unknown(s) && i == k ==>
              stop.Some? && k' == k && Unknown(s') && ledger.events == old(ledger.events) && calls == old(calls)
      ensures old(crashAfter).None? ==> crashAfter.None?
    {
      hide Canonical, DurableOutcomes, SuccessResult, Usable, HaltResult, ResultsOf, HaltIsReported;
      more := outcomes;
      var c := Ids(plan)[i];
      var run: CaseRun;
      run, k', s' := ExecuteCase(i, provider, k, s);
      Bounds(State(), plan, provider, k', s');
      var written: bool;
      match run
      case Raised(_) => assert false;
      case Crashed => stop := Some(Killed);
      case UnknownSpend(result) =>
        more := outcomes + [Generated(c, result, false)];
        written := WriteProgress("generation", more, None);
        if written {
          written := WriteProgress("unknown_spend_halt", more, None);
          if written { HaltReport(plan, provider, k, more, progress.value); }
        }
        stop := Some(if written then SpendHalt else Killed);
      case Done(result, _) =>
        OneMoreOutcome(plan, provider, i);
        more := outcomes + [Generated(c, result, true)];
        written := WriteProgress("generation", more, None);
        stop := if written then None else Some(Killed);
    }

    /** `_run_v021_generation_campaign_with_ports`: one process, from wherever the last one left the world. */
    method Run(provider: Provider, ghost k: nat, ghost s: Stage)
      returns (r: CampaignRun, ghost k': nat, ghost s': Stage)
      requires At(provider, k, s)
      modifies this`responses, this`results, this`calls, this`progress, this`clock, this`crashAfter, this`crashLog,
               ledger
      ensures At(provider, k', s') && !r.Rejected? && NotBefore(k, s, k', s')
      ensures r.GenerationComplete? ==> (k', s') == (|Ids(plan)|, Fresh) && UsableUpTo(plan, provider, |Ids(plan)|)
                                        && r.barrier == BarrierOf(plan, provider)
      ensures r.GenerationComplete? ==>
                progress == Some(Progress("generation_complete", r.barrier.results, Some(r.barrier.sha)))
      ensures r.SpendHalt? ==> s' == HaltWritten && k' < |Ids(plan)|
      ensures r.SpendHalt? ==> UsableUpTo(plan, provider, k') && HaltIsReported(plan, provider, k', progress)
      ensures r.Killed? ==> Unfinished(old(progress), progress)
      ensures r.SpendHalt? ==> !Usable(plan, provider(Ids(plan)[k'])) || (k' == k && Unknown(s))
      ensures r.Killed? ==> old(crashAfter).Some?
      ensures crashLog == if r.Killed? then old(crashLog) + [State()] else old(crashLog)
      ensures Unknown(s) ==>
                !r.GenerationComplete? && ledger.events == old(ledger.events) && calls == old(calls)
                && k' == k && Unknown(s')
      ensures k == |Ids(plan)| ==> !r.SpendHalt? && State() == old(State()) && k' == k
    {
      hide Canonical, DurableOutcomes, BarrierFor, Terminal, Usable, HaltIsReported;
      k', s' := k, s;
      Bounds(State(), plan, provider, k, s);
      var outcomes: seq<Generated> := [];
      assert outcomes == DurableOutcomes(plan, provider, 0);
      for i := 0 to |Ids(plan)|
        invariant At(provider, k', s') && NotBefore(k, s, k', s')
        invariant i <= k' <= |Ids(plan)| && UsableUpTo(plan, provider, k')
        invariant outcomes == DurableOutcomes(plan, provider, i)
        invariant old(crashAfter).None? ==> crashAfter.None?
        invariant crashLog == old(crashLog)
        invariant Unfinished(old(progress), progress)
        invariant (k' == k && s' == s) || (s'.Fresh? && k' == i)
        invariant k' == k && s' == s ==> State() == old(State())
        invariant Unknown(s) ==> k' == k && s' == s
        invariant k == |Ids(plan)| ==> k' == k
      {
        var stop: Option<CampaignRun>;
        stop, outcomes, k', s' := ExecuteAndReport(i, outcomes, provider, k', s');
        if stop.Some? { return stop.value, k', s'; }
      }
      assert Terminal(plan, outcomes) by { AllDurable(plan, provider); }
      var barrier := IssueBarrier(outcomes);
      BarrierReports(plan, outcomes);
      if barrier.Err? { return Rejected(FailureOf(barrier)), k', s'; }
      var written := WriteProgress("generation_complete", outcomes, Some(barrier.value.sha));
      if !written { return Killed, k', s'; }
      return GenerationComplete(barrier.value), k', s';
    }
  }

  lemma {:induction false} AllDurable(p: Plan, provider: Provider)
    requires p.Valid() && UsableUpTo(p, provider, |Ids(p)|)
    ensures Terminal(p, DurableOutcomes(p, provider, |Ids(p)|))
  {
    hide SuccessResult;
  }
}

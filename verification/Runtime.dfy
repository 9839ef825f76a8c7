/**
 The pure part of the generation runtime (src/reproassert/benchmark_v021_runtime.py): the records a
 worker writes and the checks it makes on what it reads back.
 */
module Runtime {
  import opened Wrappers
  import opened Records
  import opened SpendLedger

  /** The verified runtime plan: one frozen request and input per case of the authorized cohort. */
  datatype Plan = Plan(auth: Authorization, claim: Digest, inputs: map<string, Digest>) {
    ghost predicate Valid() {
      && auth.Valid()
      && IsSha(claim)
      && (forall c :: c in auth.caseIds ==> c in inputs)
    }
  }

  /** What one provider call comes back with: an exception or an answer not yet checked. */
  datatype Reply = Failed | Answer(responseId: string, output: string, cost: int)

  datatype Failure =
    | Ledger(rejection: Rejection)
    | OutsidePlan
    | DifferentRequest
    | HaltMismatch
    | ResponseMissing | ResponseStale | ResponseCost
    | ResultMissing | ResultChanged | ResultConflict
    | FileExists
    | BarrierOrder | BarrierUnknownSpend

  function FailureOf<T>(r: Result<T, Failure>): Failure {
    if r.Err? then r.error else OutsidePlan
  }

  function LedgerFailure<T>(r: Result<T, Rejection>): Failure {
    if r.Err? then Ledger(r.error) else OutsidePlan
  }

  /** The bounds `_call_provider_once` puts on an answer. */
  predicate Usable(p: Plan, r: Reply) {
    r.Answer? && r.responseId != "" && |r.responseId| <= 500 && |r.output| <= 1_000_000
    && 0 <= r.cost <= p.auth.perCaseCap
  }

  function RequestOf(p: Plan, c: string): Digest
    requires c in p.auth.requests
  {
    p.auth.requests[c]
  }

  function CallOf(p: Plan, c: string): Digest
    requires c in p.auth.requests
  {
    CallId(p.auth, c, RequestOf(p, c))
  }

  function ResponseRecordOf(p: Plan, c: string, r: Reply): ResponseRecord
    requires c in p.auth.requests && c in p.inputs && r.Answer?
  {
    ResponseRecord(p.auth.bindings.authorization, CallOf(p, c), c, r.cost, p.inputs[c], p.auth.bindings.lineage,
                   r.output, p.auth.bindings.preregistration, RequestOf(p, c), r.responseId)
  }

  function ResultRecordOf(p: Plan, c: string, v: Verdict): ResultRecord
    requires c in p.auth.requests && c in p.inputs
  {
    ResultRecord(p.auth.bindings.authorization, CallOf(p, c), c, p.inputs[c], p.auth.bindings.lineage,
                 p.auth.bindings.preregistration, RequestOf(p, c), v)
  }

  /** `_load_response`: every binding of the stored record is checked against the plan. */
  function LoadResponse(p: Plan, c: string, files: map<string, ResponseRecord>): Result<ResponseRecord, Failure>
    requires c in p.auth.requests && c in p.inputs
  {
    if c !in files then Err(ResponseMissing)
    else
      var r := files[c];
      if r.authorization != p.auth.bindings.authorization || r.preregistration != p.auth.bindings.preregistration
         || r.lineage != p.auth.bindings.lineage || r.caseId != c || r.request != RequestOf(p, c)
         || r.input != p.inputs[c] || r.call != CallOf(p, c)
      then Err(ResponseStale)
      else if !(0 <= r.cost <= p.auth.perCaseCap) then Err(ResponseCost)
      else Ok(r)
  }

  /** `_load_result`: the stored bytes must hash to the ledger's digest and say what the plan says. */
  function LoadResult(p: Plan, c: string, files: map<string, ResultRecord>, expected: Digest): Result<Digest, Failure>
    requires c in p.auth.requests && c in p.inputs
  {
    if c !in files then Err(ResultMissing)
    else if OfResult(files[c]) != expected then Err(ResultChanged)
    else if files[c].verdict.UnknownSpendHalt? || files[c] != ResultRecordOf(p, c, files[c].verdict)
      then Err(ResultConflict)
    else Ok(expected)
  }

  /** `V021SpendLedgerPort.state`. */
  function PortState(p: Plan, c: string, v: Result<Tally, Rejection>): Result<CaseState, Failure>
    requires c in p.auth.requests
  {
    if v.Err? then Err(Ledger(v.error))
    else if c !in v.value.states then Err(OutsidePlan)
    else
      var s := v.value.states[c];
      if !s.Available? && s.reservation.request != RequestOf(p, c) then Err(DifferentRequest) else Ok(s)
  }

  /** `V021SpendLedgerPort.record_unknown_spend_halt` appends nothing; it only checks the reservation. */
  predicate HaltAllowed(p: Plan, c: string, v: Result<Tally, Rejection>)
    requires c in p.auth.requests
  {
    && v.Ok? && c in v.value.states && v.value.states[c].Reserved?
    && v.value.states[c].reservation.request == RequestOf(p, c)
    && v.value.states[c].reservation.call == CallOf(p, c)
  }

  function BarrierRecordOf(p: Plan, results: seq<(string, Digest)>): BarrierRecord {
    BarrierRecord(p.auth.bindings.authorization, p.auth.bindings.requestSet, results)
  }

  /** What is written to disk answers to the plan it was written under. */
  lemma {:induction false} StoredResponseLoads(p: Plan, c: string, r: Reply, files: map<string, ResponseRecord>)
    requires c in p.auth.requests && c in p.inputs && Usable(p, r)
    requires c in files && files[c] == ResponseRecordOf(p, c, r)
    ensures LoadResponse(p, c, files) == Ok(ResponseRecordOf(p, c, r))
  {
  }
}

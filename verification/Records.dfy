/**
 The durable records of a v0.2.1 campaign.

 A SHA-256 digest is the record it was taken of, so hashing is injective by construction.
 Money is an integer number of micro-USD and a timestamp an integer number of microseconds.
 */
module Records {
  import opened Wrappers

  datatype Digest =
    | Raw(id: nat)                          // a digest of something outside the model
    | Malformed(text: string)               // a text that is not 64 hex characters
    | OfEvent(event: Body)
    | OfCall(authorization: Digest, caseId: string, request: Digest)
    | OfResponse(response: ResponseRecord)
    | OfResult(result: ResultRecord)
    | OfBarrier(barrier: BarrierRecord)

  /** The five identities every ledger event repeats. */
  datatype Bindings = Bindings(
    authorization: Digest, ledgerIdentity: Digest, lineage: Digest,
    preregistration: Digest, requestSet: Digest)

  datatype Payload =
    | Claimed(claim: Digest)
    | CaseReserved(call: Digest, maximumCost: int, request: Digest)
    | ResponseDurable(cost: int, call: Digest, request: Digest, response: Digest, reservation: Digest)
    | CaseCompleted(call: Digest, request: Digest, response: Digest, result: Digest, reservation: Digest)

  /** Everything an event's own digest covers. */
  datatype Body = Body(
    bindings: Bindings, caseId: Option<string>, payload: Payload,
    previous: Option<Digest>, recordedAt: int, sequence: int)

  datatype Event = Event(body: Body, digest: Digest)

  datatype ResponseRecord = ResponseRecord(
    authorization: Digest, call: Digest, caseId: string, cost: int, input: Digest, lineage: Digest,
    output: string, preregistration: Digest, request: Digest, responseId: string)

  datatype ResultRecord = ResultRecord(
    authorization: Digest, call: Digest, caseId: string, input: Digest, lineage: Digest,
    preregistration: Digest, request: Digest, verdict: Verdict)

  /** `outcome`, `claim_level` and `response_sha256` of a result record, which vary together. */
  datatype Verdict = Durable(response: Digest) | UnknownSpendHalt

  datatype BarrierRecord = BarrierRecord(
    authorization: Digest, requestSet: Digest, results: seq<(string, Digest)>)

  /** The authorization an operator issued for one campaign. */
  datatype Authorization = Authorization(
    bindings: Bindings, authorizedAt: int, caseIds: seq<string>,
    requests: map<string, Digest>, perCaseCap: int, totalCap: int)
  {
    /** What the authorization verifier guarantees; the total cap is the per-case cap times the cohort. */
    ghost predicate Valid() {
      && (forall i, j :: 0 <= i < j < |caseIds| ==> caseIds[i] != caseIds[j])
      && (forall c :: c in requests <==> c in caseIds)
      && (forall c :: c in requests ==> IsSha(requests[c]))
      && 0 <= perCaseCap
      && totalCap == |caseIds| * perCaseCap
    }
  }

  predicate IsSha(d: Digest) {
    !d.Malformed?
  }

  function CallId(a: Authorization, caseId: string, request: Digest): Digest {
    OfCall(a.bindings.authorization, caseId, request)
  }
}

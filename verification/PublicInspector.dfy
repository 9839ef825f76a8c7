/**
 The positional reader of a published ledger (`inspect_v021_public_spend_ledger`). It knows no
 authorization: it takes the bindings of the first event and the fixed cohort, and never derives states.
 */
module PublicInspector {
  import opened Wrappers
  import opened Records
  import opened SpendLedger
  import opened LedgerFacts
  import opened Transcripts

  datatype Complaint = WrongLength | BadBinding | BrokenChain | BrokenChronology | BadClaim | BadTransaction | OverCap

  datatype Summary = Summary(cases: nat, total: int, minimum: int, maximum: int)

  /** The authorization the inspector behaves as if it had. */
  function Implied(l: seq<Event>, ids: seq<string>, cap: int): Authorization
    requires l != []
  {
    Authorization(l[0].body.bindings, l[0].body.recordedAt, ids, map[], cap, |ids| * cap)
  }

  predicate ShaBindings(b: Bindings) {
    && IsSha(b.authorization) && IsSha(b.ledgerIdentity) && IsSha(b.lineage)
    && IsSha(b.preregistration) && IsSha(b.requestSet)
  }

  predicate OpensWithClaim(l: seq<Event>)
    requires l != []
  {
    l[0].body.payload.Claimed? && IsSha(l[0].body.payload.claim) && l[0].body.caseId == None
  }

  /** The three events of case `i` form one whole transaction of case `c`. */
  predicate Transaction(l: seq<Event>, i: nat, c: string, cap: int)
    requires 3 + 3 * i < |l|
  {
    var reserved, response, completed := l[1 + 3 * i].body, l[2 + 3 * i].body, l[3 + 3 * i].body;
    && reserved.payload.CaseReserved? && response.payload.ResponseDurable? && completed.payload.CaseCompleted?
    && reserved.caseId == Some(c) && response.caseId == Some(c) && completed.caseId == Some(c)
    && reserved.payload.maximumCost == cap
    && IsSha(reserved.payload.request) && IsSha(reserved.payload.call) && IsSha(response.payload.response)
    && response.payload.request == completed.payload.request == reserved.payload.request
    && response.payload.call == completed.payload.call == reserved.payload.call
    && response.payload.reservation == completed.payload.reservation == l[1 + 3 * i].digest
    && completed.payload.response == response.payload.response
    && IsSha(completed.payload.result)
    && 0 <= response.payload.cost <= cap
  }

  /** The transaction of case `i` as an entry. */
  function EntryAt(l: seq<Event>, i: nat, c: string, cap: int): Entry
    requires 3 + 3 * i < |l| && Transaction(l, i, c, cap)
  {
    var p, q, r := l[1 + 3 * i].body.payload, l[2 + 3 * i].body.payload, l[3 + 3 * i].body.payload;
    Entry(p.request, p.call, q.response, q.cost, r.result)
  }

  ghost predicate Transactions(l: seq<Event>, ids: seq<string>, cap: int) {
    && |l| == 3 * |ids| + 1
    && forall i :: 0 <= i < |ids| ==> Transaction(l, i, ids[i], cap)
  }

  ghost function Entries(l: seq<Event>, ids: seq<string>, cap: int): (entries: seq<Entry>)
    requires Transactions(l, ids, cap)
    ensures |entries| == |ids|
  {
    seq(|ids|, i requires 0 <= i < |ids| => EntryAt(l, i, ids[i], cap))
  }

  ghost predicate Acceptable(l: seq<Event>, ids: seq<string>, cap: int) {
    && Transactions(l, ids, cap)
    && ShaBindings(l[0].body.bindings)
    && ChainFault(l, Implied(l, ids, cap)) == None
    && OpensWithClaim(l)
  }

  /** Accepts exactly the whole, chained, ordered ledgers, and reports their total, least and largest cost. */
  method Inspect(l: seq<Event>, ids: seq<string>, cap: int) returns (r: Result<Summary, Complaint>)
    requires ids != []
    ensures r.Ok? <==> Acceptable(l, ids, cap)
    ensures r.Ok? ==> r.value.cases == |ids| && r.value.total == SumCosts(Entries(l, ids, cap))
    ensures r.Ok? ==> (exists i :: 0 <= i < |ids| && Entries(l, ids, cap)[i].cost == r.value.minimum)
    ensures r.Ok? ==> (exists i :: 0 <= i < |ids| && Entries(l, ids, cap)[i].cost == r.value.maximum)
    ensures r.Ok? ==> forall i :: 0 <= i < |ids| ==>
              r.value.minimum <= Entries(l, ids, cap)[i].cost <= r.value.maximum
  {
    if |l| != 3 * |ids| + 1 { return Err(WrongLength); }
    var bindings := l[0].body.bindings;
    if !ShaBindings(bindings) { return Err(BadBinding); }
    ghost var a := Implied(l, ids, cap);
    ChainOkIff(l, a);

    var previous: Option<Digest> := None;
    var previousTime: Option<int> := None;
    for k := 0 to |l|
      invariant forall j :: 0 <= j < k ==> Linked(l, j, a) && InOrder(l, j, a)
      invariant previous == (if k == 0 then None else Some(l[k - 1].digest))
      invariant previousTime == (if k == 0 then None else Some(l[k - 1].body.recordedAt))
    {
      var event := l[k];
      if event.body.sequence != k + 1 || event.digest != OfEvent(event.body)
         || event.body.previous != previous || event.body.bindings != bindings
      {
        assert !Linked(l, k, a);
        return Err(BrokenChain);
      }
      if previousTime.Some? && event.body.recordedAt < previousTime.value {
        assert !InOrder(l, k, a);
        return Err(BrokenChronology);
      }
      previousTime := Some(event.body.recordedAt);
      previous := Some(event.digest);
    }
    if !OpensWithClaim(l) { return Err(BadClaim); }

    var costs: seq<int> := [];
    var total := 0;
    for i := 0 to |ids|
      invariant |costs| == i
      invariant forall j :: 0 <= j < i ==> Transaction(l, j, ids[j], cap)
      invariant forall j :: 0 <= j < i ==> costs[j] == EntryAt(l, j, ids[j], cap).cost && 0 <= costs[j] <= cap
      invariant total == Sum(costs) && 0 <= total <= i * cap
    {
      if !Transaction(l, i, ids[i], cap) { return Err(BadTransaction); }
      var cost := EntryAt(l, i, ids[i], cap).cost;
      SumSnoc(costs, cost);
      costs := costs + [cost];
      total := total + cost;
      assert (i + 1) * cap == i * cap + cap;
    }
    SumOfEntries(costs, Entries(l, ids, cap));
    if total > |ids| * cap { return Err(OverCap); }
    var least, largest := Extremes(costs);
    return Ok(Summary(|costs|, total, least, largest));
  }

  method Extremes(costs: seq<int>) returns (least: int, largest: int)
    requires costs != []
    ensures (exists i :: 0 <= i < |costs| && costs[i] == least) && (exists i :: 0 <= i < |costs| && costs[i] == largest)
    ensures forall i :: 0 <= i < |costs| ==> least <= costs[i] <= largest
  {
    least, largest := costs[0], costs[0];
    for k := 1 to |costs|
      invariant exists i :: 0 <= i < |costs| && costs[i] == least
      invariant exists i :: 0 <= i < |costs| && costs[i] == largest
      invariant forall i :: 0 <= i < k ==> least <= costs[i] <= largest
    {
      if costs[k] < least { least := costs[k]; }
      if costs[k] > largest { largest := costs[k]; }
    }
  }

  function Sum(costs: seq<int>): int {
    if costs == [] then 0 else costs[0] + Sum(costs[1..])
  }

  lemma {:induction false} SumSnoc(costs: seq<int>, x: int)
    ensures Sum(costs + [x]) == Sum(costs) + x
  {
    if costs == [] {
      assert [x][1..] == [];
    } else {
      assert (costs + [x])[1..] == costs[1..] + [x];
      SumSnoc(costs[1..], x);
    }
  }

  lemma {:induction false} SumOfEntries(costs: seq<int>, entries: seq<Entry>)
    requires |costs| == |entries|
    requires forall i :: 0 <= i < |costs| ==> costs[i] == entries[i].cost
    ensures Sum(costs) == SumCosts(entries)
  {
    if costs != [] {
      SumOfEntries(costs[1..], entries[1..]);
    }
  }

  // ---------------------------------------------------------------- the two readers agree

  lemma {:induction false} AcceptedIsPositional(l: seq<Event>, a: Authorization)
    requires Transactions(l, a.caseIds, a.perCaseCap)
    ensures Positional(l, a, Entries(l, a.caseIds, a.perCaseCap))
  {
    var entries := Entries(l, a.caseIds, a.perCaseCap);
    forall i | 0 <= i < |entries| ensures TripleAt(l, i, a.caseIds[i], entries[i], a.perCaseCap) {
      assert Transaction(l, i, a.caseIds[i], a.perCaseCap);
      assert entries[i] == EntryAt(l, i, a.caseIds[i], a.perCaseCap);
    }
  }

  /**
   Whatever the inspector accepts, the state derivation accepts too, with every case completed and the
   same total; the full verifier agrees exactly when the claim does not predate the authorization.
   */
  lemma {:induction false} AcceptedLedgersDeriveComplete(l: seq<Event>, a: Authorization)
    requires a.Valid() && Acceptable(l, a.caseIds, a.perCaseCap)
    requires a.bindings == l[0].body.bindings
    ensures Derive(l, a).Ok? && Complete(Derive(l, a).value)
    ensures Derive(l, a).value.total == SumCosts(Entries(l, a.caseIds, a.perCaseCap))
    ensures Verify(l, a, l[0].body.payload.claim).Ok? <==> a.authorizedAt <= l[0].body.recordedAt
  {
    AcceptedIsPositional(l, a);
    CompleteTranscript(l, a, Entries(l, a.caseIds, a.perCaseCap));
    var implied := Implied(l, a.caseIds, a.perCaseCap);
    ChainOkIff(l, implied);
    ChainOkIff(l, a);
    assert forall i :: 0 <= i < |l| ==> Linked(l, i, implied) ==> Linked(l, i, a);
    assert forall i :: 0 < i < |l| ==> InOrder(l, i, implied) ==> InOrder(l, i, a);
    if ChainFault(l, a) == None {
      assert InOrder(l, 0, a);
    }
  }

  /** Every verified ledger in campaign order that reached its last completion is accepted. */
  lemma {:induction false} CompleteTranscriptsAreAccepted(l: seq<Event>, a: Authorization, claim: Digest,
                                                          entries: seq<Entry>)
    requires a.Valid() && Verify(l, a, claim).Ok? && IsSha(claim) && ShaBindings(a.bindings)
    requires Positional(l, a, entries) && |l| == 1 + 3 * |entries|
    ensures Acceptable(l, a.caseIds, a.perCaseCap)
    ensures Entries(l, a.caseIds, a.perCaseCap) == entries
  {
    forall i | 0 <= i < |a.caseIds| ensures Transaction(l, i, a.caseIds[i], a.perCaseCap) {
      assert TripleAt(l, i, a.caseIds[i], entries[i], a.perCaseCap);
    }
    var implied := Implied(l, a.caseIds, a.perCaseCap);
    ChainOkIff(l, a);
    ChainOkIff(l, implied);
    assert Linked(l, 0, a);
    assert forall i :: 0 <= i < |l| ==> Linked(l, i, a) ==> Linked(l, i, implied);
    assert forall i :: 0 < i < |l| ==> InOrder(l, i, a) ==> InOrder(l, i, implied);
    forall i | 0 <= i < |entries| ensures EntryAt(l, i, a.caseIds[i], a.perCaseCap) == entries[i] {
      assert TripleAt(l, i, a.caseIds[i], entries[i], a.perCaseCap);
    }
  }
}

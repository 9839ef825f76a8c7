/**
 The positional reader of a published ledger against the law of the ledger: it accepts exactly what a full
 verification under the bindings of the first event accepts, of whole transactions in the order of the cohort.
 */
module InspectorLaw {
  import opened Wrappers
  import opened Records
  import opened SpendLedger
  import opened LedgerFacts
  import opened LedgerLaw
  import opened PublicInspector

  /** An authorization for the cohort with the bindings and the moment of the first event. */
  function WouldBe(l: seq<Event>, ids: seq<string>, cap: int): Authorization
    requires l != []
  {
    Authorization(l[0].body.bindings, l[0].body.recordedAt, ids, map c | c in ids :: Raw(0), cap, |ids| * cap)
  }

  ghost predicate AllDistinct(ids: seq<string>) {
    forall i, j :: 0 <= i < j < |ids| ==> ids[i] != ids[j]
  }

  /** Three events for each case, in the order of the cohort. */
  ghost predicate InCohortOrder(l: seq<Event>, ids: seq<string>) {
    && |l| == 3 * |ids| + 1
    && forall n :: 1 <= n < |l| ==> l[n].body.caseId == Some(ids[(n - 1) / 3])
  }

  predicate HasShas(l: seq<Event>) {
    && l != [] && l[0].body.payload.Claimed? && IsSha(l[0].body.payload.claim)
    && var b := l[0].body.bindings;
       IsSha(b.authorization) && IsSha(b.ledgerIdentity) && IsSha(b.lineage) && IsSha(b.preregistration)
       && IsSha(b.requestSet)
  }

  lemma {:induction false} SameChain(l: seq<Event>, ids: seq<string>, cap: int)
    requires l != []
    ensures ChainFault(l, Implied(l, ids, cap)) == None <==> ChainFault(l, WouldBe(l, ids, cap)) == None
  {
    var a, b := Implied(l, ids, cap), WouldBe(l, ids, cap);
    ChainOkIff(l, a);
    ChainOkIff(l, b);
    assert forall i :: 0 <= i < |l| ==>
           (Linked(l, i, a) <==> Linked(l, i, b)) && (InOrder(l, i, a) <==> InOrder(l, i, b));
  }

  lemma {:induction false} WouldBeValid(l: seq<Event>, ids: seq<string>, cap: int)
    requires l != [] && AllDistinct(ids) && 0 <= cap
    ensures WouldBe(l, ids, cap).Valid()
  {
  }

  /** Where the events of case `i` are, and nowhere else. */
  lemma {:induction false} EventsOfCase(l: seq<Event>, ids: seq<string>, i: nat, n: nat)
    requires InCohortOrder(l, ids) && AllDistinct(ids) && l[0].body.caseId.None? && i < |ids| && n < |l|
    ensures l[n].body.caseId == Some(ids[i]) <==> 1 + 3 * i <= n <= 3 + 3 * i
  {
    if n > 0 {
      var k := (n - 1) / 3;
      assert 3 * k + 1 <= n <= 3 * k + 3 && 0 <= k < |ids|;
      if k != i { assert ids[k] != ids[i]; }
    }
  }

  lemma {:induction false} CaseEvents(l: seq<Event>, ids: seq<string>, i: nat)
    requires InCohortOrder(l, ids) && AllDistinct(ids) && l[0].body.caseId.None? && i < |ids|
    ensures forall n :: 0 <= n < |l| && l[n].body.caseId == Some(ids[i]) ==> 1 + 3 * i <= n <= 3 + 3 * i
    ensures forall n :: 1 + 3 * i <= n <= 3 + 3 * i ==> n < |l| && l[n].body.caseId == Some(ids[i])
  {
    forall n | 0 <= n < |l| && l[n].body.caseId == Some(ids[i]) ensures 1 + 3 * i <= n <= 3 + 3 * i {
      EventsOfCase(l, ids, i, n);
    }
    forall n | 1 + 3 * i <= n <= 3 + 3 * i ensures n < |l| && l[n].body.caseId == Some(ids[i]) {
      EventsOfCase(l, ids, i, n);
    }
  }

  /** Three lawful events of one case and no other are its reservation, its response and its completion. */
  lemma {:induction false} LawfulTriple(l: seq<Event>, a: Authorization, i: nat, c: string)
    requires 3 + 3 * i < |l| && AllLawful(l, a)
    requires forall n :: 0 <= n < |l| && l[n].body.caseId == Some(c) ==> 1 + 3 * i <= n <= 3 + 3 * i
    requires forall n :: 1 + 3 * i <= n <= 3 + 3 * i ==> n < |l| && l[n].body.caseId == Some(c)
    ensures Transaction(l, i, c, a.perCaseCap)
  {
    var n := 1 + 3 * i;
    assert LawfulNext(l[..n], l[n], a);
    assert forall k :: 0 <= k < n ==> l[..n][k].body.caseId != Some(c);
    assert !HasReserved(l[..n], c) && l[n].body.payload.CaseReserved?;
    LawfulSecond(l, a, n, c);
    LawfulThird(l, a, n, c);
  }

  lemma {:induction false} LawfulSecond(l: seq<Event>, a: Authorization, n: nat, c: string)
    requires 1 <= n && n + 2 < |l| && AllLawful(l, a) && l[n].body.payload.CaseReserved?
    requires forall k :: 0 <= k < |l| && l[k].body.caseId == Some(c) ==> n <= k <= n + 2
    requires l[n].body.caseId == Some(c) == l[n + 1].body.caseId
    ensures l[n + 1].body.payload.ResponseDurable?
    ensures var p, q := l[n].body.payload, l[n + 1].body.payload;
            && q.request == p.request && q.call == p.call && q.reservation == l[n].digest
            && IsSha(q.response) && 0 <= q.cost <= a.perCaseCap
  {
    var before := l[..n + 1];
    assert forall k :: 0 <= k < n ==> before[k] == l[k] && before[k].body.caseId != Some(c);
    assert before[n] == l[n] && ReservesFor(before[n], c);
    assert LawfulNext(before, l[n + 1], a);
    assert !HasResponded(before, c);
    hide HasResponded, HasCompleted;
  }

  lemma {:induction false} LawfulThird(l: seq<Event>, a: Authorization, n: nat, c: string)
    requires 1 <= n && n + 2 < |l| && AllLawful(l, a) && l[n].body.payload.CaseReserved?
    requires l[n + 1].body.payload.ResponseDurable?
    requires forall k :: 0 <= k < |l| && l[k].body.caseId == Some(c) ==> n <= k <= n + 2
    requires l[n].body.caseId == Some(c) == l[n + 1].body.caseId == l[n + 2].body.caseId
    ensures l[n + 2].body.payload.CaseCompleted?
    ensures var p, r := l[n].body.payload, l[n + 2].body.payload;
            && r.request == p.request && r.call == p.call && r.reservation == l[n].digest
            && r.response == l[n + 1].body.payload.response && IsSha(r.result)
  {
    var before := l[..n + 2];
    assert forall k :: 0 <= k < n ==> before[k] == l[k] && before[k].body.caseId != Some(c);
    assert before[n] == l[n] && ReservesFor(before[n], c);
    assert before[n + 1] == l[n + 1] && RespondsFor(before[n + 1], c);
    assert LawfulNext(before, l[n + 2], a);
    hide HasCompleted;
  }

  lemma {:induction false} TransactionCases(l: seq<Event>, ids: seq<string>, cap: int)
    requires Transactions(l, ids, cap)
    ensures InCohortOrder(l, ids)
  {
    forall n | 1 <= n < |l| ensures l[n].body.caseId == Some(ids[(n - 1) / 3]) {
      var i := (n - 1) / 3;
      assert 3 * i + 1 <= n <= 3 * i + 3 && 0 <= i < |ids|;
      assert Transaction(l, i, ids[i], cap);
    }
  }

  /**
   The inspector accepts exactly the ledgers with digests of the right shape that hold three events for each
   case, in the order of the cohort, and that verify under the authorization their first event implies.
   */
  lemma {:induction false} InspectorIsTheLaw(l: seq<Event>, ids: seq<string>, cap: int)
    requires AllDistinct(ids) && 0 <= cap
    ensures Acceptable(l, ids, cap) <==>
              HasShas(l) && InCohortOrder(l, ids) && Verify(l, WouldBe(l, ids, cap), l[0].body.payload.claim).Ok?
  {
    if l != [] {
      var a := WouldBe(l, ids, cap);
      WouldBeValid(l, ids, cap);
      SameChain(l, ids, cap);
      if Acceptable(l, ids, cap) {
        TransactionCases(l, ids, cap);
        AcceptedLedgersDeriveComplete(l, a);
        hide Verify, Transactions, ChainFault;
      }
      if HasShas(l) && InCohortOrder(l, ids) && Verify(l, a, l[0].body.payload.claim).Ok? {
        VerifiesIffLawful(l, a, l[0].body.payload.claim);
        hide AllLawful, IsChain, TellsAll, Derive, Transaction;
        forall i | 0 <= i < |ids| ensures Transaction(l, i, ids[i], cap) {
          CaseEvents(l, ids, i);
          LawfulTriple(l, a, i, ids[i]);
        }
      }
    }
  }
}

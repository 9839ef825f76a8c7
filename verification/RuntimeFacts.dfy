/**
 What the runtime believes of the files it reads back: exactly the records it could itself have written under
 its plan, and exactly the ledger events that are for the plan's own request and call.
 */
module RuntimeFacts {
  import opened Wrappers
  import opened Records
  import opened SpendLedger
  import opened LedgerLaw
  import opened Runtime

  /** An answer whose record this is. */
  function AnswerIn(r: ResponseRecord): Reply {
    Answer(r.responseId, r.output, r.cost)
  }

  /** The record names the plan's authorization, lineage and preregistration, and the case's request, input and call. */
  predicate ResponseIsBound(p: Plan, c: string, r: ResponseRecord)
    requires c in p.auth.requests && c in p.inputs
  {
    && r.authorization == p.auth.bindings.authorization && r.lineage == p.auth.bindings.lineage
    && r.preregistration == p.auth.bindings.preregistration
    && r.caseId == c && r.request == p.auth.requests[c] && r.input == p.inputs[c]
    && r.call == OfCall(p.auth.bindings.authorization, c, p.auth.requests[c])
  }

  /** A stored response loads exactly if it could have been stored for its own answer at a cost within the cap. */
  lemma {:induction false} ResponseLoadsExactly(p: Plan, c: string, files: map<string, ResponseRecord>)
    requires c in p.auth.requests && c in p.inputs
    ensures LoadResponse(p, c, files).Ok? <==>
              && c in files && ResponseIsBound(p, c, files[c]) && 0 <= files[c].cost <= p.auth.perCaseCap
    ensures LoadResponse(p, c, files).Ok? ==>
              && LoadResponse(p, c, files).value == files[c]
              && files[c] == ResponseRecordOf(p, c, AnswerIn(files[c]))
    ensures c in files && files[c] == ResponseRecordOf(p, c, AnswerIn(files[c])) ==> ResponseIsBound(p, c, files[c])
  {
  }

  predicate ResultIsBound(p: Plan, c: string, r: ResultRecord)
    requires c in p.auth.requests && c in p.inputs
  {
    && r.authorization == p.auth.bindings.authorization && r.lineage == p.auth.bindings.lineage
    && r.preregistration == p.auth.bindings.preregistration
    && r.caseId == c && r.request == p.auth.requests[c] && r.input == p.inputs[c]
    && r.call == OfCall(p.auth.bindings.authorization, c, p.auth.requests[c])
  }

  /** A stored result loads exactly if it has the digest of the ledger and is a bound result of a durable response. */
  lemma {:induction false} ResultLoadsExactly(p: Plan, c: string, files: map<string, ResultRecord>, expected: Digest)
    requires c in p.auth.requests && c in p.inputs
    ensures LoadResult(p, c, files, expected).Ok? <==>
              && c in files && expected == OfResult(files[c]) && ResultIsBound(p, c, files[c])
              && files[c].verdict.Durable?
    ensures LoadResult(p, c, files, expected).Ok? ==> LoadResult(p, c, files, expected).value == OfResult(files[c])
  {
  }

  /**
   The port gives a case's state exactly when the ledger verifies and every reservation of the case in it is
   for the plan's request; the state tells what the case's events did.
   */
  lemma {:induction false} PortStateExactly(p: Plan, c: string, l: seq<Event>)
    requires p.auth.Valid() && c in p.auth.requests
    ensures var state := PortState(p, c, Verify(l, p.auth, p.claim));
            && (state.Ok? <==>
                  && Verify(l, p.auth, p.claim).Ok?
                  && forall i :: 0 <= i < |l| && ReservesFor(l[i], c) ==>
                       l[i].body.payload.request == p.auth.requests[c])
            && (state.Ok? ==> Tells(l, c, state.value))
  {
    VerifiesIffLawful(l, p.auth, p.claim);
    hide Verify, AllLawful, IsChain;
    if Verify(l, p.auth, p.claim).Ok? {
      var s := Verify(l, p.auth, p.claim).value.states[c];
      assert Tells(l, c, s);
      hide HasResponded, HasCompleted;
      if !s.Available? {
        var i :| 0 <= i < |l| && ReservesFor(l[i], c);
        assert s.reservation == ReservationBy(l[i]);
      }
    }
  }

  /** The halt is recorded exactly for a case reserved for the plan's request and call and never answered. */
  lemma {:induction false} HaltAllowedExactly(p: Plan, c: string, l: seq<Event>)
    requires p.auth.Valid() && c in p.auth.requests
    ensures HaltAllowed(p, c, Verify(l, p.auth, p.claim)) <==>
              && Verify(l, p.auth, p.claim).Ok? && !HasResponded(l, c)
              && exists i ::
                   && 0 <= i < |l| && ReservesFor(l[i], c) && l[i].body.payload.request == p.auth.requests[c]
                   && l[i].body.payload.call == OfCall(p.auth.bindings.authorization, c, p.auth.requests[c])
  {
    VerifiesIffLawful(l, p.auth, p.claim);
    hide Verify, AllLawful, IsChain;
    if Verify(l, p.auth, p.claim).Ok? {
      var s := Verify(l, p.auth, p.claim).value.states[c];
      assert Tells(l, c, s);
      hide HasResponded, HasCompleted;
      if !s.Available? {
        var i :| 0 <= i < |l| && ReservesFor(l[i], c);
        assert s.reservation == ReservationBy(l[i]);
      }
    }
  }
}

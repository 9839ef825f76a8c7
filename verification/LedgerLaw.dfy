/**
 The law of the spend ledger, said of its events alone: which ledgers verify, and what a verified ledger
 derives for each case. No state table and no fold appears in it.
 */
module LedgerLaw {
  import opened Wrappers
  import opened Records
  import opened SpendLedger
  import opened LedgerFacts

  predicate ReservesFor(e: Event, c: string) {
    e.body.caseId == Some(c) && e.body.payload.CaseReserved?
  }

  predicate RespondsFor(e: Event, c: string) {
    e.body.caseId == Some(c) && e.body.payload.ResponseDurable?
  }

  predicate CompletesFor(e: Event, c: string) {
    e.body.caseId == Some(c) && e.body.payload.CaseCompleted?
  }

  /** The reservation an event makes. */
  function ReservationBy(e: Event): Reservation
    requires e.body.payload.CaseReserved?
  {
    Reservation(e.body.payload.request, e.body.payload.call, e.digest)
  }

  function CostBy(e: Event): int {
    if e.body.payload.ResponseDurable? then e.body.payload.cost else 0
  }

  /** What all responses have cost. */
  function Paid(l: seq<Event>): int {
    if l == [] then 0 else Paid(l[..|l| - 1]) + CostBy(l[|l| - 1])
  }

  ghost predicate HasReserved(l: seq<Event>, c: string) {
    exists i :: 0 <= i < |l| && ReservesFor(l[i], c)
  }

  ghost predicate HasResponded(l: seq<Event>, c: string) {
    exists i :: 0 <= i < |l| && RespondsFor(l[i], c)
  }

  ghost predicate HasCompleted(l: seq<Event>, c: string) {
    exists i :: 0 <= i < |l| && CompletesFor(l[i], c)
  }

  /** The case was reserved by an event with this digest, for this request and call. */
  ghost predicate ReservedAs(l: seq<Event>, c: string, request: Digest, call: Digest, event: Digest) {
    exists i :: 0 <= i < |l| && ReservesFor(l[i], c) && ReservationBy(l[i]) == Reservation(request, call, event)
  }

  ghost predicate RespondedWith(l: seq<Event>, c: string, response: Digest) {
    exists i :: 0 <= i < |l| && RespondsFor(l[i], c) && l[i].body.payload.response == response
  }

  /** What may be recorded next, after a claim and other events. */
  ghost predicate LawfulNext(l: seq<Event>, e: Event, a: Authorization) {
    && e.body.caseId.Some? && e.body.caseId.value in a.caseIds
    && var c := e.body.caseId.value;
       match e.body.payload
       case Claimed(_) => false
       case CaseReserved(call, maximum, request) =>
         !HasReserved(l, c) && maximum == a.perCaseCap && IsSha(request) && IsSha(call)
       case ResponseDurable(cost, call, request, response, reservation) =>
         && ReservedAs(l, c, request, call, reservation) && !HasResponded(l, c)
         && 0 <= cost <= a.perCaseCap && Paid(l) + cost <= a.totalCap && IsSha(response)
       case CaseCompleted(call, request, response, result, reservation) =>
         && ReservedAs(l, c, request, call, reservation) && RespondedWith(l, c, response) && !HasCompleted(l, c)
         && IsSha(result)
  }

  ghost predicate AllLawful(l: seq<Event>, a: Authorization) {
    forall n :: 1 <= n < |l| ==> LawfulNext(l[..n], l[n], a)
  }

  /** The first event is the claim, for no case. */
  predicate Claims(l: seq<Event>, claim: Digest) {
    && l != [] && l[0].body.payload.Claimed? && l[0].body.payload.claim == claim
    && l[0].body.caseId.None?
  }

  /** Each event numbers itself, names its predecessor, is bound to the authorization and not older. */
  ghost predicate IsChain(l: seq<Event>, a: Authorization) {
    && (forall i :: 0 <= i < |l| ==>
          && l[i].body.sequence == i + 1 && l[i].digest == OfEvent(l[i].body) && l[i].body.bindings == a.bindings)
    && (l != [] ==> l[0].body.previous == None && a.authorizedAt <= l[0].body.recordedAt)
    && forall i :: 1 <= i < |l| ==> Succeeds(l[i - 1], l[i])
  }

  /** The later event names the earlier one and is not older. */
  predicate Succeeds(before: Event, e: Event) {
    e.body.previous == Some(before.digest) && before.body.recordedAt <= e.body.recordedAt
  }

  // ---------------------------------------------------------------- the states

  /** The state of a case tells exactly what its events did. */
  ghost predicate Tells(l: seq<Event>, c: string, s: CaseState) {
    && (!s.Available? <==> HasReserved(l, c))
    && (s.Responded? || s.Completed? <==> HasResponded(l, c))
    && (s.Completed? <==> HasCompleted(l, c))
    && (forall i :: 0 <= i < |l| && ReservesFor(l[i], c) ==> !s.Available? && s.reservation == ReservationBy(l[i]))
    && (forall i :: 0 <= i < |l| && RespondsFor(l[i], c) ==>
          && (s.Responded? || s.Completed?)
          && s.response == l[i].body.payload.response && s.cost == l[i].body.payload.cost)
    && (forall i :: 0 <= i < |l| && CompletesFor(l[i], c) ==> s.Completed? && s.result == l[i].body.payload.result)
  }

  ghost predicate TellsAll(l: seq<Event>, a: Authorization, t: Tally) {
    && t.states.Keys == (set c | c in a.caseIds)
    && (forall c :: c in t.states ==> Tells(l, c, t.states[c]))
    && t.total == Paid(l)
  }

  predicate OfCase(e: Event, c: string) {
    e.body.caseId == Some(c)
  }

  lemma {:induction false} OthersTellTheSame(l: seq<Event>, c: string, s: CaseState)
    requires l != [] && Tells(l[..|l| - 1], c, s) && l[|l| - 1].body.caseId != Some(c)
    ensures Tells(l, c, s)
  {
    var n := |l| - 1;
    assert forall i :: 0 <= i < n ==> l[..n][i] == l[i];
    assert HasReserved(l, c) <==> HasReserved(l[..n], c);
    assert HasResponded(l, c) <==> HasResponded(l[..n], c);
    assert HasCompleted(l, c) <==> HasCompleted(l[..n], c);
    hide HasReserved, HasResponded, HasCompleted;
  }

  lemma {:induction false} StateAfterReserving(l: seq<Event>, c: string, s: CaseState)
    requires l != [] && Tells(l[..|l| - 1], c, s) && ReservesFor(l[|l| - 1], c) && s.Available?
    ensures Tells(l, c, Reserved(ReservationBy(l[|l| - 1])))
  {
    var n := |l| - 1;
    assert forall i :: 0 <= i < n ==> l[..n][i] == l[i];
    assert ReservesFor(l[n], c);
    assert HasResponded(l, c) <==> HasResponded(l[..n], c);
    assert HasCompleted(l, c) <==> HasCompleted(l[..n], c);
    hide HasResponded, HasCompleted;
  }

  lemma {:induction false} StateAfterResponding(l: seq<Event>, c: string, s: CaseState)
    requires l != [] && Tells(l[..|l| - 1], c, s) && RespondsFor(l[|l| - 1], c) && s.Reserved?
    ensures var p := l[|l| - 1].body.payload;
            Tells(l, c, Responded(s.reservation, p.response, p.cost))
  {
    var n := |l| - 1;
    assert forall i :: 0 <= i < n ==> l[..n][i] == l[i];
    assert RespondsFor(l[n], c);
    assert HasReserved(l, c) <==> HasReserved(l[..n], c);
    assert HasCompleted(l, c) <==> HasCompleted(l[..n], c);
    hide HasReserved, HasCompleted;
  }

  lemma {:induction false} StateAfterCompleting(l: seq<Event>, c: string, s: CaseState)
    requires l != [] && Tells(l[..|l| - 1], c, s) && CompletesFor(l[|l| - 1], c) && s.Responded?
    ensures Tells(l, c, Completed(s.reservation, s.response, s.cost, l[|l| - 1].body.payload.result))
  {
    var n := |l| - 1;
    assert forall i :: 0 <= i < n ==> l[..n][i] == l[i];
    assert CompletesFor(l[n], c);
    assert HasReserved(l, c) <==> HasReserved(l[..n], c);
    assert HasResponded(l, c) <==> HasResponded(l[..n], c);
    hide HasReserved, HasResponded;
  }

  lemma {:induction false} ReservedAsIff(l: seq<Event>, c: string, s: CaseState, request: Digest, call: Digest,
                                         event: Digest)
    requires Tells(l, c, s)
    ensures ReservedAs(l, c, request, call, event) <==> !s.Available? && Matches(s.reservation, request, call, event)
  {
    hide HasResponded, HasCompleted;
  }

  lemma {:induction false} RespondedWithIff(l: seq<Event>, c: string, s: CaseState, response: Digest)
    requires Tells(l, c, s)
    ensures RespondedWith(l, c, response) <==> (s.Responded? || s.Completed?) && s.response == response
  {
    hide HasReserved, HasCompleted;
  }

  /** The fold takes an event exactly when it is lawful. */
  lemma {:induction false} StepIff(l: seq<Event>, e: Event, a: Authorization, t: Tally)
    requires TellsAll(l, a, t)
    ensures Apply(t, e, a).Ok? <==> LawfulNext(l, e, a)
  {
    if e.body.caseId.Some? && e.body.caseId.value in t.states {
      var c := e.body.caseId.value;
      assert Tells(l, c, t.states[c]);
      match e.body.payload {
        case ResponseDurable(cost, call, request, response, reservation) =>
          ReservedAsIff(l, c, t.states[c], request, call, reservation);
        case CaseCompleted(call, request, response, result, reservation) =>
          ReservedAsIff(l, c, t.states[c], request, call, reservation);
          RespondedWithIff(l, c, t.states[c], response);
        case _ =>
      }
      hide HasReserved, HasResponded, HasCompleted, ReservedAs, RespondedWith, Matches;
    }
  }

  lemma {:induction false} StepTells(l: seq<Event>, a: Authorization, t: Tally)
    requires l != [] && TellsAll(l[..|l| - 1], a, t) && Apply(t, l[|l| - 1], a).Ok?
    ensures TellsAll(l, a, Apply(t, l[|l| - 1], a).value)
  {
    var n := |l| - 1;
    var e, t' := l[n], Apply(t, l[n], a).value;
    var c := e.body.caseId.value;
    assert Tells(l[..n], c, t.states[c]);
    hide Tells;
    assert Tells(l, c, t'.states[c]) by {
      match e.body.payload {
        case CaseReserved(_, _, _) => StateAfterReserving(l, c, t.states[c]);
        case ResponseDurable(_, _, _, _, _) => StateAfterResponding(l, c, t.states[c]);
        case CaseCompleted(_, _, _, _, _) => StateAfterCompleting(l, c, t.states[c]);
      }
    }
    forall d | d in t'.states && d != c ensures Tells(l, d, t'.states[d]) {
      OthersTellTheSame(l, d, t.states[d]);
    }
  }

  lemma {:induction false} ClaimTells(l: seq<Event>, a: Authorization)
    requires |l| <= 1 && (l != [] ==> l[0].body.caseId.None? && l[0].body.payload.Claimed?)
    ensures TellsAll(l, a, EmptyTally(a))
  {
    assert EmptyTally(a).states.Keys == set c | c in a.caseIds;
    if l != [] { assert l[..0] == [] && Paid(l[..0]) == 0; }
  }

  /** What the fold makes of a ledger that begins with its claim. */
  lemma {:induction false} DeriveIff(l: seq<Event>, a: Authorization)
    requires l != [] && l[0].body.caseId.None? && l[0].body.payload.Claimed?
    ensures Derive(l, a).Ok? <==> AllLawful(l, a)
    ensures Derive(l, a).Ok? ==> TellsAll(l, a, Derive(l, a).value)
  {
    if |l| == 1 {
      ClaimTells(l, a);
    } else {
      var n := |l| - 1;
      DeriveIff(l[..n], a);
      hide Apply, LawfulNext, TellsAll;
      assert forall i :: 1 <= i < n ==> l[..n][..i] == l[..i] && l[..n][i] == l[i];
      assert AllLawful(l, a) <==> AllLawful(l[..n], a) && LawfulNext(l[..n], l[n], a);
      if Derive(l[..n], a).Ok? {
        StepIff(l[..n], l[n], a, Derive(l[..n], a).value);
        if Derive(l, a).Ok? { StepTells(l, a, Derive(l[..n], a).value); }
      }
    }
  }

  lemma {:induction false} ChainOfLinks(l: seq<Event>, a: Authorization)
    requires forall i :: 0 <= i < |l| ==> Linked(l, i, a) && InOrder(l, i, a)
    ensures IsChain(l, a)
  {
    forall i | 0 <= i < |l|
      ensures l[i].body.sequence == i + 1 && l[i].digest == OfEvent(l[i].body) && l[i].body.bindings == a.bindings
    {
      assert Linked(l, i, a);
    }
    forall i | 1 <= i < |l| ensures Succeeds(l[i - 1], l[i]) {
      assert Linked(l, i, a) && InOrder(l, i, a);
    }
    if l != [] { assert Linked(l, 0, a) && InOrder(l, 0, a); }
  }

  /**
   A ledger verifies exactly when it is a chain that begins with its claim and every later event is lawful.
   Each case is then in the state its own events made, and the total is what all responses cost.
   */
  lemma {:induction false} VerifiesIffLawful(l: seq<Event>, a: Authorization, claim: Digest)
    ensures Verify(l, a, claim).Ok? <==> IsChain(l, a) && Claims(l, claim) && AllLawful(l, a)
    ensures Verify(l, a, claim).Ok? ==> TellsAll(l, a, Verify(l, a, claim).value)
  {
    ChainOkIff(l, a);
    hide ChainFault, AllLawful, Derive, TellsAll;
    if l != [] {
      assert BeginsWithClaim(l, claim) <==> Claims(l, claim);
      if IsChain(l, a) {
        assert forall i :: 0 <= i < |l| ==> Linked(l, i, a) && InOrder(l, i, a);
      }
      if forall i :: 0 <= i < |l| ==> Linked(l, i, a) && InOrder(l, i, a) {
        ChainOfLinks(l, a);
      }
      if Claims(l, claim) { DeriveIff(l, a); }
    }
  }

  // ---------------------------------------------------------------- the operations

  /** The event an operation appends. */
  predicate IsAppended(l: seq<Event>, l': seq<Event>, a: Authorization, c: string, p: Payload, at: int) {
    && |l'| == |l| + 1 && l < l'
    && var e := l'[|l|];
       && e.digest == OfEvent(e.body)
       && e.body == Body(a.bindings, Some(c), p, if l == [] then None else Some(l[|l| - 1].digest), at, |l| + 1)
  }

  lemma {:induction false} NextIsAppended(l: seq<Event>, a: Authorization, c: string, p: Payload, at: int)
    ensures IsAppended(l, l + [NextEvent(l, a, Some(c), p, at)], a, c, p, at)
  {
  }

  /** Every case that was reserved has its response. */
  ghost predicate NothingIsOpen(l: seq<Event>, a: Authorization) {
    forall c :: c in a.caseIds && HasReserved(l, c) ==> HasResponded(l, c)
  }

  lemma {:induction false} HaltedIff(l: seq<Event>, a: Authorization, t: Tally)
    requires TellsAll(l, a, t)
    ensures Halted(t) <==> !NothingIsOpen(l, a)
  {
    hide HasReserved, HasResponded, HasCompleted;
    if !NothingIsOpen(l, a) {
      var c :| c in a.caseIds && HasReserved(l, c) && !HasResponded(l, c);
      assert c in t.states && Tells(l, c, t.states[c]);
    }
    if c :| c in t.states && t.states[c].Reserved? { assert Tells(l, c, t.states[c]); }
  }

  /**
   A reservation is granted exactly for a case of the cohort that never was reserved, with its frozen request,
   while nothing is open. It is then appended and its token has no response; otherwise nothing changes.
   */
  lemma {:induction false} ReservationIsGrantedExactly(l: seq<Event>, a: Authorization, claim: Digest, c: string,
                                                       request: Digest, call: Digest, at: int)
    ensures var (l', r) := ReserveOp(l, a, claim, c, request, call, at);
            && (r.Ok? <==>
                  && Verify(l, a, claim).Ok? && c in a.caseIds && c in a.requests && request == a.requests[c]
                  && IsSha(request) && IsSha(call) && !HasReserved(l, c) && NothingIsOpen(l, a))
            && (r.Ok? ==>
                  && IsAppended(l, l', a, c, CaseReserved(call, a.perCaseCap, request), at)
                  && r.value == Token(c, Reservation(request, call, l'[|l|].digest), None))
            && (r.Err? ==> l' == l)
    ensures Verify(l, a, claim).Ok? && c in a.caseIds && c in a.requests && request == a.requests[c]
            && IsSha(request) && IsSha(call) && !NothingIsOpen(l, a) ==>
              ReserveOp(l, a, claim, c, request, call, at).1 == Err(SpendHalted)
  {
    VerifiesIffLawful(l, a, claim);
    hide Verify, HasReserved, NothingIsOpen, AllLawful, IsChain;
    if Verify(l, a, claim).Ok? {
      var t := Verify(l, a, claim).value;
      HaltedIff(l, a, t);
      if c in a.caseIds { assert Tells(l, c, t.states[c]); }
      NextIsAppended(l, a, c, CaseReserved(call, a.perCaseCap, request), at);
    }
  }

  /** The token is for a reservation that the ledger holds. */
  ghost predicate IsHeld(l: seq<Event>, a: Authorization, r: Token) {
    r.caseId in a.caseIds && ReservedAs(l, r.caseId, r.reservation.request, r.reservation.call, r.reservation.event)
  }

  ghost predicate RespondedAt(l: seq<Event>, c: string, response: Digest, cost: int) {
    exists i ::
      && 0 <= i < |l| && RespondsFor(l[i], c)
      && l[i].body.payload.response == response && l[i].body.payload.cost == cost
  }

  ghost predicate CompletedWith(l: seq<Event>, c: string, result: Digest) {
    exists i :: 0 <= i < |l| && CompletesFor(l[i], c) && l[i].body.payload.result == result
  }

  lemma {:induction false} RecordedIff(l: seq<Event>, c: string, s: CaseState)
    requires Tells(l, c, s)
    ensures forall response, cost :: RespondedAt(l, c, response, cost) <==>
              (s.Responded? || s.Completed?) && s.response == response && s.cost == cost
    ensures forall response :: RespondedWith(l, c, response) <==>
              (s.Responded? || s.Completed?) && s.response == response
    ensures forall result :: CompletedWith(l, c, result) <==> s.Completed? && s.result == result
    ensures forall r: Reservation :: ReservedAs(l, c, r.request, r.call, r.event) <==>
              !s.Available? && s.reservation == r
  {
    forall r: Reservation
      ensures ReservedAs(l, c, r.request, r.call, r.event) <==> !s.Available? && s.reservation == r
    {
      ReservedAsIff(l, c, s, r.request, r.call, r.event);
    }
    forall response
      ensures RespondedWith(l, c, response) <==> (s.Responded? || s.Completed?) && s.response == response
    {
      RespondedWithIff(l, c, s, response);
    }
    hide HasReserved, ReservedAs, RespondedWith;
  }

  /**
   A response is appended exactly for a held reservation without one, within the caps and as the token says;
   the same response again is accepted without effect, and anything else is rejected without effect.
   */
  lemma {:induction false} ResponseIsRecordedExactly(l: seq<Event>, a: Authorization, claim: Digest, r: Token,
                                                     response: Digest, cost: int, at: int)
    ensures var (l', v) := RecordResponseOp(l, a, claim, r, response, cost, at);
            var may := Verify(l, a, claim).Ok? && IsSha(response) && 0 <= cost <= a.perCaseCap && IsHeld(l, a, r);
            && (l' != l <==>
                  && may && !HasResponded(l, r.caseId) && Paid(l) + cost <= a.totalCap
                  && (r.durable.Some? ==> r.durable == Some(response)))
            && (l' != l ==>
                  && IsAppended(l, l', a, r.caseId,
                                ResponseDurable(cost, r.reservation.call, r.reservation.request, response,
                                                r.reservation.event), at)
                  && v == Verify(l', a, claim))
            && (l' == l ==>
                  (v.Ok? <==> may && RespondedAt(l, r.caseId, response, cost))
                  && (v.Ok? ==> v == Verify(l, a, claim)))
  {
    VerifiesIffLawful(l, a, claim);
    hide Verify, ReservedAs, HasResponded, AllLawful, IsChain, RespondedAt;
    if Verify(l, a, claim).Ok? && r.caseId in a.caseIds {
      var s := Verify(l, a, claim).value.states[r.caseId];
      RecordedIff(l, r.caseId, s);
      var p := ResponseDurable(cost, r.reservation.call, r.reservation.request, response, r.reservation.event);
      NextIsAppended(l, a, r.caseId, p, at);
    }
  }

  /** The same for a result, which follows the response it names. */
  lemma {:induction false} ResultIsRecordedExactly(l: seq<Event>, a: Authorization, claim: Digest, r: Token,
                                                   response: Digest, result: Digest, at: int)
    ensures var (l', v) := RecordResultOp(l, a, claim, r, response, result, at);
            var may := Verify(l, a, claim).Ok? && IsSha(response) && IsSha(result) && IsHeld(l, a, r)
                       && RespondedWith(l, r.caseId, response);
            && (l' != l <==> may && !HasCompleted(l, r.caseId))
            && (l' != l ==>
                  && IsAppended(l, l', a, r.caseId,
                                CaseCompleted(r.reservation.call, r.reservation.request, response, result,
                                              r.reservation.event), at)
                  && v == Verify(l', a, claim))
            && (l' == l ==>
                  (v.Ok? <==> may && CompletedWith(l, r.caseId, result))
                  && (v.Ok? ==> v == Verify(l, a, claim)))
  {
    VerifiesIffLawful(l, a, claim);
    hide Verify, ReservedAs, HasCompleted, AllLawful, IsChain, RespondedWith, CompletedWith;
    if Verify(l, a, claim).Ok? && r.caseId in a.caseIds {
      var s := Verify(l, a, claim).value.states[r.caseId];
      RecordedIff(l, r.caseId, s);
      var p := CaseCompleted(r.reservation.call, r.reservation.request, response, result, r.reservation.event);
      NextIsAppended(l, a, r.caseId, p, at);
    }
  }
}

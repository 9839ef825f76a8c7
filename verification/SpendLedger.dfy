/**
 The irreversible spend ledger (src/reproassert/benchmark_v021_ledger.py).

 `SpendLedger` is the ledger file: a list of events that only the locked operations extend.
 Each method is proved against a function of the event list, so that the lemmas of the other
 modules can speak about runs of operations.
 */
module SpendLedger {
  import opened Wrappers
  import opened Records

  datatype Rejection =
    | EmptyLedger | ChainBroken | ChronologyBroken | NoClaim
    | ForeignCase | BadReservation | BadResponse | CrossedReservation | BadCost | LedgerOverCap
    | BadResult | CrossedResponse | BadDigest | BadEventType
    | RequestMismatch | SpendHalted | AlreadyReserved
    | NoSuchReservation | NoDurableResponse | DifferentResponse | ResponseOverCap
    | ResponseMismatch | DifferentResult

  datatype Reservation = Reservation(request: Digest, call: Digest, event: Digest)

  /** `available`, `reserved_unknown_spend`, `response_durable` and `completed`. */
  datatype CaseState =
    | Available
    | Reserved(reservation: Reservation)
    | Responded(reservation: Reservation, response: Digest, cost: int)
    | Completed(reservation: Reservation, response: Digest, cost: int, result: Digest)

  datatype Tally = Tally(states: map<string, CaseState>, total: int)

  /** `V021CaseReservation`: without a durable response as reserved, with one as recovered. */
  datatype Token = Token(caseId: string, reservation: Reservation, durable: Option<Digest>)

  // ---------------------------------------------------------------- reading a ledger

  /** The link, identity and binding checks on the event at position `i`. */
  predicate Linked(l: seq<Event>, i: nat, a: Authorization)
    requires i < |l|
  {
    && l[i].body.sequence == i + 1
    && l[i].digest == OfEvent(l[i].body)
    && l[i].body.previous == (if i == 0 then None else Some(l[i - 1].digest))
    && l[i].body.bindings == a.bindings
  }

  predicate InOrder(l: seq<Event>, i: nat, a: Authorization)
    requires i < |l|
  {
    (if i == 0 then a.authorizedAt else l[i - 1].body.recordedAt) <= l[i].body.recordedAt
  }

  /** The first complaint of the verification loop. */
  function ChainFault(l: seq<Event>, a: Authorization): Option<Rejection> {
    if l == [] then None
    else
      var n := |l| - 1;
      var before := ChainFault(l[..n], a);
      if before.Some? then before
      else if !Linked(l, n, a) then Some(ChainBroken)
      else if !InOrder(l, n, a) then Some(ChronologyBroken)
      else None
  }

  predicate BeginsWithClaim(l: seq<Event>, claim: Digest)
    requires l != []
  {
    l[0].body.payload == Claimed(claim) && l[0].body.caseId == None
  }

  function EmptyTally(a: Authorization): Tally {
    Tally(map c | c in a.caseIds :: Available, 0)
  }

  predicate Matches(r: Reservation, request: Digest, call: Digest, event: Digest) {
    r.request == request && r.call == call && r.event == event
  }

  /** The effect of one event after the claim on the derived case states. */
  function Apply(t: Tally, e: Event, a: Authorization): Result<Tally, Rejection> {
    if e.body.caseId.None? || e.body.caseId.value !in t.states then Err(ForeignCase)
    else
      var c := e.body.caseId.value;
      var s := t.states[c];
      match e.body.payload
      case Claimed(_) => Err(BadEventType)
      case CaseReserved(call, maximum, request) =>
        if !s.Available? || maximum != a.perCaseCap then Err(BadReservation)
        else if !IsSha(request) || !IsSha(call) then Err(BadDigest)
        else Ok(t.(states := t.states[c := Reserved(Reservation(request, call, e.digest))]))
      case ResponseDurable(cost, call, request, response, reservation) =>
        if !s.Reserved? then Err(BadResponse)
        else if !Matches(s.reservation, request, call, reservation) then Err(CrossedReservation)
        else if !(0 <= cost <= a.perCaseCap) then Err(BadCost)
        else if t.total + cost > a.totalCap then Err(LedgerOverCap)
        else if !IsSha(response) then Err(BadDigest)
        else Ok(Tally(t.states[c := Responded(s.reservation, response, cost)], t.total + cost))
      case CaseCompleted(call, request, response, result, reservation) =>
        if !s.Responded? then Err(BadResult)
        else if !Matches(s.reservation, request, call, reservation) then Err(CrossedReservation)
        else if response != s.response then Err(CrossedResponse)
        else if !IsSha(result) then Err(BadDigest)
        else Ok(t.(states := t.states[c := Completed(s.reservation, s.response, s.cost, result)]))
  }

  /** The case states and the total after all events; the claim itself changes nothing. */
  function Derive(l: seq<Event>, a: Authorization): Result<Tally, Rejection> {
    if |l| <= 1 then Ok(EmptyTally(a))
    else
      var before := Derive(l[..|l| - 1], a);
      if before.Err? then before else Apply(before.value, l[|l| - 1], a)
  }

  function Verify(l: seq<Event>, a: Authorization, claim: Digest): Result<Tally, Rejection> {
    if l == [] then Err(EmptyLedger)
    else
      var fault := ChainFault(l, a);
      if fault.Some? then Err(fault.value)
      else if !BeginsWithClaim(l, claim) then Err(NoClaim)
      else Derive(l, a)
  }

  /** Some case is reserved and has no response: no further spend is allowed. */
  predicate Halted(t: Tally) {
    exists c :: c in t.states && t.states[c].Reserved?
  }

  predicate Complete(t: Tally) {
    forall c :: c in t.states ==> t.states[c].Completed?
  }

  // ---------------------------------------------------------------- extending a ledger

  function NextEvent(l: seq<Event>, a: Authorization, c: Option<string>, p: Payload, at: int): Event {
    var previous := if l == [] then None else Some(l[|l| - 1].digest);
    var body := Body(a.bindings, c, p, previous, at, |l| + 1);
    Event(body, OfEvent(body))
  }

  function ReserveOp(l: seq<Event>, a: Authorization, claim: Digest,
                     c: string, request: Digest, call: Digest, at: int)
    : (seq<Event>, Result<Token, Rejection>)
  {
    if c !in a.caseIds then (l, Err(ForeignCase))
    else if !IsSha(request) || !IsSha(call) then (l, Err(BadDigest))
    else if c !in a.requests || request != a.requests[c] then (l, Err(RequestMismatch))
    else
      var v := Verify(l, a, claim);
      if v.Err? then (l, Err(v.error))
      else if Halted(v.value) then (l, Err(SpendHalted))
      else if c !in v.value.states || !v.value.states[c].Available? then (l, Err(AlreadyReserved))
      else
        var e := NextEvent(l, a, Some(c), CaseReserved(call, a.perCaseCap, request), at);
        (l + [e], Ok(Token(c, Reservation(request, call, e.digest), None)))
  }

  function RecoverOp(l: seq<Event>, a: Authorization, claim: Digest,
                     c: string, request: Digest, call: Digest, durable: Option<Digest>)
    : Result<Token, Rejection>
  {
    if c !in a.caseIds then Err(ForeignCase)
    else
      var v := Verify(l, a, claim);
      if v.Err? then Err(v.error)
      else if !IsSha(request) || !IsSha(call) then Err(BadDigest)
      else if c !in a.requests || request != a.requests[c] then Err(RequestMismatch)
      else if c !in v.value.states then Err(ForeignCase)
      else
        var s := v.value.states[c];
        if s.Available? || s.reservation.request != request || s.reservation.call != call
        then Err(NoSuchReservation)
        else if durable.Some? && !IsSha(durable.value) then Err(BadDigest)
        else if s.Reserved? && durable.None? then Err(NoDurableResponse)
        else if !s.Reserved? && durable.Some? && durable.value != s.response then Err(DifferentResponse)
        else Ok(Token(c, s.reservation, Some(if s.Reserved? then durable.value else s.response)))
  }

  function RecordResponseOp(l: seq<Event>, a: Authorization, claim: Digest,
                            r: Token, response: Digest, cost: int, at: int)
    : (seq<Event>, Result<Tally, Rejection>)
  {
    if !IsSha(response) then (l, Err(BadDigest))
    else if !(0 <= cost <= a.perCaseCap) then (l, Err(BadCost))
    else
      var v := Verify(l, a, claim);
      if v.Err? then (l, v)
      else if r.caseId !in v.value.states then (l, Err(ForeignCase))
      else
        var s := v.value.states[r.caseId];
        if s.Available? || s.reservation != r.reservation then (l, Err(NoSuchReservation))
        else if !s.Reserved? then
          (l, if s.response == response && s.cost == cost then v else Err(DifferentResponse))
        else if r.durable.Some? && r.durable.value != response then (l, Err(DifferentResponse))
        else if v.value.total + cost > a.totalCap then (l, Err(ResponseOverCap))
        else
          var p := ResponseDurable(cost, r.reservation.call, r.reservation.request, response, r.reservation.event);
          var l' := l + [NextEvent(l, a, Some(r.caseId), p, at)];
          (l', Verify(l', a, claim))
  }

  function RecordResultOp(l: seq<Event>, a: Authorization, claim: Digest,
                          r: Token, response: Digest, result: Digest, at: int)
    : (seq<Event>, Result<Tally, Rejection>)
  {
    if !IsSha(response) || !IsSha(result) then (l, Err(BadDigest))
    else
      var v := Verify(l, a, claim);
      if v.Err? then (l, v)
      else if r.caseId !in v.value.states then (l, Err(ForeignCase))
      else
        var s := v.value.states[r.caseId];
        if s.Available? || s.reservation != r.reservation then (l, Err(NoSuchReservation))
        else if s.Reserved? || s.response != response then (l, Err(ResponseMismatch))
        else if s.Completed? then (l, if s.result == result then v else Err(DifferentResult))
        else
          var p := CaseCompleted(r.reservation.call, r.reservation.request, response, result, r.reservation.event);
          var l' := l + [NextEvent(l, a, Some(r.caseId), p, at)];
          (l', Verify(l', a, claim))
  }

  // ---------------------------------------------------------------- the ledger file

  class LedgerFile {
    const auth: Authorization
    const claim: Digest
    var events: seq<Event>

    /** Claim the ledger: one exclusive event that nothing precedes. */
    constructor (auth: Authorization, claim: Digest, claimedAt: int)
      ensures this.auth == auth && this.claim == claim
      ensures events == [NextEvent([], auth, None, Claimed(claim), claimedAt)]
      ensures Verify(events, auth, claim) ==
              (if auth.authorizedAt <= claimedAt then Ok(EmptyTally(auth)) else Err(ChronologyBroken))
    {
      this.auth := auth;
      this.claim := claim;
      var e := NextEvent([], auth, None, Claimed(claim), claimedAt);
      events := [e];
      FreshClaim(auth, claim, claimedAt);
    }

    /** The verification loop: link, binding and clock checks, then the claim, then the states. */
    method VerifyFile() returns (r: Result<Tally, Rejection>)
      ensures r == Verify(events, auth, claim)
    {
      if events == [] {
        return Err(EmptyLedger);
      }
      var previous: Option<Digest> := None;
      var previousTime := auth.authorizedAt;
      var i := 0;
      while i < |events|
        invariant 0 <= i <= |events|
        invariant ChainFault(events[..i], auth) == None
        invariant previous == (if i == 0 then None else Some(events[i - 1].digest))
        invariant previousTime == (if i == 0 then auth.authorizedAt else events[i - 1].body.recordedAt)
      {
        var event := events[i];
        ghost var upTo := events[..i + 1];
        assert upTo[..i] == events[..i];
        if event.body.sequence != i + 1 || event.digest != OfEvent(event.body)
           || event.body.previous != previous || event.body.bindings != auth.bindings
        {
          assert ChainFault(upTo, auth) == Some(ChainBroken);
          FaultPersists(events, i + 1, auth);
          return Err(ChainBroken);
        }
        if event.body.recordedAt < previousTime {
          assert ChainFault(upTo, auth) == Some(ChronologyBroken);
          FaultPersists(events, i + 1, auth);
          return Err(ChronologyBroken);
        }
        previousTime := event.body.recordedAt;
        previous := Some(event.digest);
        i := i + 1;
      }
      assert events[..|events|] == events;
      if events[0].body.payload != Claimed(claim) || events[0].body.caseId != None {
        return Err(NoClaim);
      }
      r := DeriveStates();
    }

    /** The state table and the running total, updated event by event. */
    method DeriveStates() returns (r: Result<Tally, Rejection>)
      requires events != []
      ensures r == Derive(events, auth)
    {
      var tally := EmptyTally(auth);
      var i := 1;
      while i < |events|
        invariant 1 <= i <= |events|
        invariant Derive(events[..i], auth) == Ok(tally)
      {
        ghost var upTo := events[..i + 1];
        assert upTo[..i] == events[..i] && upTo[i] == events[i];
        var next := Apply(tally, events[i], auth);
        if next.Err? {
          DeriveFaultPersists(events, i + 1, auth);
          return next;
        }
        tally := next.value;
        i := i + 1;
      }
      assert events[..|events|] == events;
      return Ok(tally);
    }

    method Append(c: Option<string>, p: Payload, at: int) returns (e: Event)
      modifies this
      ensures e == NextEvent(old(events), auth, c, p, at)
      ensures events == old(events) + [e]
    {
      e := NextEvent(events, auth, c, p, at);
      events := events + [e];
    }

    method Reserve(c: string, request: Digest, call: Digest, at: int)
      returns (r: Result<Token, Rejection>)
      modifies this
      ensures (events, r) == ReserveOp(old(events), auth, claim, c, request, call, at)
    {
      if c !in auth.caseIds { return Err(ForeignCase); }
      if !IsSha(request) || !IsSha(call) { return Err(BadDigest); }
      if c !in auth.requests || request != auth.requests[c] { return Err(RequestMismatch); }
      var v := VerifyFile();
      if v.Err? { return Err(v.error); }
      if Halted(v.value) { return Err(SpendHalted); }
      if c !in v.value.states || !v.value.states[c].Available? { return Err(AlreadyReserved); }
      var e := Append(Some(c), CaseReserved(call, auth.perCaseCap, request), at);
      return Ok(Token(c, Reservation(request, call, e.digest), None));
    }

    method Recover(c: string, request: Digest, call: Digest, durable: Option<Digest>)
      returns (r: Result<Token, Rejection>)
      ensures r == RecoverOp(events, auth, claim, c, request, call, durable)
    {
      if c !in auth.caseIds { return Err(ForeignCase); }
      var v := VerifyFile();
      if v.Err? { return Err(v.error); }
      if !IsSha(request) || !IsSha(call) { return Err(BadDigest); }
      if c !in auth.requests || request != auth.requests[c] { return Err(RequestMismatch); }
      if c !in v.value.states { return Err(ForeignCase); }
      var s := v.value.states[c];
      if s.Available? || s.reservation.request != request || s.reservation.call != call {
        return Err(NoSuchReservation);
      }
      if durable.Some? && !IsSha(durable.value) { return Err(BadDigest); }
      if s.Reserved? && durable.None? { return Err(NoDurableResponse); }
      if !s.Reserved? && durable.Some? && durable.value != s.response { return Err(DifferentResponse); }
      return Ok(Token(c, s.reservation, Some(if s.Reserved? then durable.value else s.response)));
    }

    method RecordResponse(r: Token, response: Digest, cost: int, at: int)
      returns (v: Result<Tally, Rejection>)
      modifies this
      ensures (events, v) == RecordResponseOp(old(events), auth, claim, r, response, cost, at)
    {
      if !IsSha(response) { return Err(BadDigest); }
      if !(0 <= cost <= auth.perCaseCap) { return Err(BadCost); }
      v := VerifyFile();
      if v.Err? { return; }
      if r.caseId !in v.value.states { return Err(ForeignCase); }
      var s := v.value.states[r.caseId];
      if s.Available? || s.reservation != r.reservation { return Err(NoSuchReservation); }
      if !s.Reserved? {
        if s.response == response && s.cost == cost { return; }
        return Err(DifferentResponse);
      }
      if r.durable.Some? && r.durable.value != response { return Err(DifferentResponse); }
      if v.value.total + cost > auth.totalCap { return Err(ResponseOverCap); }
      var _ := Append(Some(r.caseId),
        ResponseDurable(cost, r.reservation.call, r.reservation.request, response, r.reservation.event), at);
      v := VerifyFile();
    }

    method RecordResult(r: Token, response: Digest, result: Digest, at: int)
      returns (v: Result<Tally, Rejection>)
      modifies this
      ensures (events, v) == RecordResultOp(old(events), auth, claim, r, response, result, at)
    {
      if !IsSha(response) || !IsSha(result) { return Err(BadDigest); }
      v := VerifyFile();
      if v.Err? { return; }
      if r.caseId !in v.value.states { return Err(ForeignCase); }
      var s := v.value.states[r.caseId];
      if s.Available? || s.reservation != r.reservation { return Err(NoSuchReservation); }
      if s.Reserved? || s.response != response { return Err(ResponseMismatch); }
      if s.Completed? {
        if s.result == result { return; }
        return Err(DifferentResult);
      }
      var _ := Append(Some(r.caseId),
        CaseCompleted(r.reservation.call, r.reservation.request, response, result, r.reservation.event), at);
      v := VerifyFile();
    }
  }

  // ---------------------------------------------------------------- helpers for the methods

  /** A freshly claimed ledger verifies exactly when the claim does not predate the authorization. */
  lemma {:induction false} FreshClaim(a: Authorization, claim: Digest, at: int)
    ensures Verify([NextEvent([], a, None, Claimed(claim), at)], a, claim) ==
            (if a.authorizedAt <= at then Ok(EmptyTally(a)) else Err(ChronologyBroken))
  {
    var l := [NextEvent([], a, None, Claimed(claim), at)];
    assert l[..0] == [];
    assert Linked(l, 0, a);
    assert ChainFault(l[..|l| - 1], a) == None;
  }

  /** A rejected prefix rejects the whole list with the same complaint. */
  lemma {:induction false} FaultPersists(l: seq<Event>, i: nat, a: Authorization)
    requires i <= |l|
    requires ChainFault(l[..i], a).Some?
    ensures ChainFault(l, a) == ChainFault(l[..i], a)
  {
    if i == |l| {
      assert l[..i] == l;
    } else {
      var shorter := l[..|l| - 1];
      assert shorter[..i] == l[..i];
      FaultPersists(shorter, i, a);
    }
  }

  lemma {:induction false} DeriveFaultPersists(l: seq<Event>, i: nat, a: Authorization)
    requires i <= |l|
    requires Derive(l[..i], a).Err?
    ensures Derive(l, a) == Derive(l[..i], a)
  {
    if i == |l| {
      assert l[..i] == l;
    } else {
      var shorter := l[..|l| - 1];
      assert shorter[..i] == l[..i];
      DeriveFaultPersists(shorter, i, a);
    }
  }
}

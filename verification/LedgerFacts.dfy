/**
 What every history of locked ledger operations keeps: the hash chain fixes the history, an append
 verifies exactly when the clock did not run backwards, money is conserved, and at most one
 reservation is ever open.
 */
module LedgerFacts {
  import opened Wrappers
  import opened Records
  import opened SpendLedger

  // ---------------------------------------------------------------- the hash chain

  lemma {:induction false} ChainOkIff(l: seq<Event>, a: Authorization)
    ensures ChainFault(l, a) == None <==>
            forall i :: 0 <= i < |l| ==> Linked(l, i, a) && InOrder(l, i, a)
  {
    if l != [] {
      var n := |l| - 1;
      var p := l[..n];
      ChainOkIff(p, a);
      assert forall i :: 0 <= i < n ==>
        (Linked(l, i, a) <==> Linked(p, i, a)) && (InOrder(l, i, a) <==> InOrder(p, i, a));
      if ChainFault(l, a) == None {
        forall i | 0 <= i < |l| ensures Linked(l, i, a) && InOrder(l, i, a) {
          if i < n { assert Linked(p, i, a) && InOrder(p, i, a); }
        }
      }
    }
  }

  /** Equal head digests force equal positions all the way down to the claim. */
  lemma {:induction false} EqualBelow(l: seq<Event>, m: seq<Event>, i: nat, a: Authorization, b: Authorization)
    requires i < |l| && i < |m|
    requires forall j :: 0 <= j < |l| ==> Linked(l, j, a)
    requires forall j :: 0 <= j < |m| ==> Linked(m, j, b)
    requires l[i].digest == m[i].digest
    ensures l[..i + 1] == m[..i + 1]
  {
    assert Linked(l, i, a) && Linked(m, i, b);
    assert l[i] == m[i];
    if i > 0 {
      EqualBelow(l, m, i - 1, a, b);
      assert l[..i + 1] == l[..i] + [l[i]] && m[..i + 1] == m[..i] + [m[i]];
    }
  }

  /** Two ledgers that verify, under any authorizations, with the same head are the same ledger. */
  lemma {:induction false} HeadDigestFixesHistory(l: seq<Event>, m: seq<Event>, a: Authorization, b: Authorization,
                                                  claimA: Digest, claimB: Digest)
    requires Verify(l, a, claimA).Ok? && Verify(m, b, claimB).Ok?
    requires l[|l| - 1].digest == m[|m| - 1].digest
    ensures l == m && a.bindings == b.bindings && claimA == claimB
  {
    ChainOkIff(l, a);
    ChainOkIff(m, b);
    assert Linked(l, |l| - 1, a) && Linked(m, |m| - 1, b);
    EqualBelow(l, m, |l| - 1, a, b);
    assert l[..|l|] == l && m[..|m|] == m;
  }

  /** `_append_locked` never looks at the clock; the next verification does. */
  lemma {:induction false} AppendVerifiesIffClockMonotone(l: seq<Event>, a: Authorization, claim: Digest,
                                                          c: Option<string>, p: Payload, at: int)
    requires Verify(l, a, claim).Ok?
    ensures var e := NextEvent(l, a, c, p, at);
            Verify(l + [e], a, claim) ==
              if at < l[|l| - 1].body.recordedAt then Err(ChronologyBroken)
              else Apply(Verify(l, a, claim).value, e, a)
  {
    var e := NextEvent(l, a, c, p, at);
    var l' := l + [e];
    assert l'[..|l|] == l;
    assert Linked(l', |l|, a);
    assert l'[0] == l[0];
  }

  // ---------------------------------------------------------------- money

  function CostOf(s: CaseState): int {
    match s
    case Available => 0
    case Reserved(_) => 0
    case Responded(_, _, cost) => cost
    case Completed(_, _, cost, _) => cost
  }

  predicate Priced(s: CaseState) {
    s.Responded? || s.Completed?
  }

  /** The recorded cost of the listed cases. */
  function Spend(states: map<string, CaseState>, ids: seq<string>): int {
    if ids == [] then 0
    else (if ids[0] in states then CostOf(states[ids[0]]) else 0) + Spend(states, ids[1..])
  }

  /** How many of the listed cases have no recorded cost yet. */
  function Unpriced(states: map<string, CaseState>, ids: seq<string>): nat {
    if ids == [] then 0
    else (if ids[0] in states && Priced(states[ids[0]]) then 0 else 1) + Unpriced(states, ids[1..])
  }

  lemma {:induction false} UpdateElsewhere(states: map<string, CaseState>, ids: seq<string>, c: string, s: CaseState)
    requires c !in ids
    ensures Spend(states[c := s], ids) == Spend(states, ids)
    ensures Unpriced(states[c := s], ids) == Unpriced(states, ids)
  {
    if ids != [] {
      UpdateElsewhere(states, ids[1..], c, s);
    }
  }

  lemma {:induction false} UpdateOne(states: map<string, CaseState>, ids: seq<string>, c: string, s: CaseState)
    requires c in ids && c in states
    requires forall i, j :: 0 <= i < j < |ids| ==> ids[i] != ids[j]
    ensures Spend(states[c := s], ids) == Spend(states, ids) - CostOf(states[c]) + CostOf(s)
    ensures Unpriced(states[c := s], ids) ==
            Unpriced(states, ids) - (if Priced(states[c]) then 0 else 1) + (if Priced(s) then 0 else 1)
  {
    if ids[0] == c {
      UpdateElsewhere(states, ids[1..], c, s);
    } else {
      UpdateOne(states, ids[1..], c, s);
    }
  }

  lemma {:induction false} NothingSpent(a: Authorization, ids: seq<string>)
    requires forall c :: c in ids ==> c in a.caseIds
    ensures Spend(EmptyTally(a).states, ids) == 0 && Unpriced(EmptyTally(a).states, ids) == |ids|
  {
    if ids != [] {
      NothingSpent(a, ids[1..]);
    }
  }

  /** The total is the sum of the per-case costs, and what is left covers every unpriced case. */
  ghost predicate Conserved(t: Tally, a: Authorization) {
    && (forall c :: c in t.states <==> c in a.caseIds)
    && t.total == Spend(t.states, a.caseIds)
    && 0 <= t.total
    && t.total + a.perCaseCap * Unpriced(t.states, a.caseIds) <= a.totalCap
    && (forall c :: c in t.states ==> 0 <= CostOf(t.states[c]) <= a.perCaseCap)
  }

  lemma {:induction false} OthersUnpriced(states: map<string, CaseState>, ids: seq<string>, c: string)
    requires c in ids && c in states && !Priced(states[c])
    ensures 1 <= Unpriced(states, ids)
  {
    if ids[0] != c {
      OthersUnpriced(states, ids[1..], c);
    }
  }

  /** The room the caps leave for one more response of an unpriced case. */
  lemma {:induction false} Room(t: Tally, a: Authorization, c: string, cost: int)
    requires a.Valid() && Conserved(t, a)
    requires c in t.states && !Priced(t.states[c]) && 0 <= cost <= a.perCaseCap
    ensures 1 <= Unpriced(t.states, a.caseIds)
    ensures t.total + cost + a.perCaseCap * (Unpriced(t.states, a.caseIds) - 1) <= a.totalCap
    ensures t.total + cost <= a.totalCap
  {
    OthersUnpriced(t.states, a.caseIds, c);
    CapLeft(a.perCaseCap, Unpriced(t.states, a.caseIds));
  }

  lemma {:induction false} CapLeft(cap: nat, u: nat)
    requires 1 <= u
    ensures cap * u == cap * (u - 1) + cap && 0 <= cap * (u - 1)
  {
  }

  lemma {:induction false} StateUpdateConserves(t: Tally, a: Authorization, c: string, s: CaseState)
    requires a.Valid() && Conserved(t, a) && c in t.states
    requires Priced(t.states[c]) ==> Priced(s) && CostOf(s) == CostOf(t.states[c])
    requires !Priced(t.states[c]) ==> 0 <= CostOf(s) <= a.perCaseCap
    ensures Conserved(Tally(t.states[c := s], t.total + CostOf(s) - CostOf(t.states[c])), a)
  {
    UpdateOne(t.states, a.caseIds, c, s);
    if !Priced(t.states[c]) && Priced(s) {
      Room(t, a, c, CostOf(s));
    }
  }

  lemma {:induction false} ApplyConserves(t: Tally, e: Event, a: Authorization)
    requires a.Valid() && Conserved(t, a)
    ensures Apply(t, e, a).Ok? ==> Conserved(Apply(t, e, a).value, a)
    ensures Apply(t, e, a) != Err(LedgerOverCap)
  {
    hide Conserved, Spend, Unpriced;
    if e.body.caseId.Some? && e.body.caseId.value in t.states {
      var c := e.body.caseId.value;
      var s := t.states[c];
      match e.body.payload
      case Claimed(_) =>
      case CaseReserved(call, maximum, request) =>
        if s.Available? {
          StateUpdateConserves(t, a, c, Reserved(Reservation(request, call, e.digest)));
        }
      case ResponseDurable(cost, _, _, response, _) =>
        if s.Reserved? && 0 <= cost <= a.perCaseCap {
          Room(t, a, c, cost);
          StateUpdateConserves(t, a, c, Responded(s.reservation, response, cost));
        }
      case CaseCompleted(_, _, _, result, _) =>
        if s.Responded? {
          StateUpdateConserves(t, a, c, Completed(s.reservation, s.response, s.cost, result));
        }
    }
  }

  lemma {:induction false} DeriveConserves(l: seq<Event>, a: Authorization)
    requires a.Valid()
    ensures Derive(l, a).Ok? ==> Conserved(Derive(l, a).value, a)
    ensures Derive(l, a) != Err(LedgerOverCap)
  {
    if |l| <= 1 {
      NothingSpent(a, a.caseIds);
    } else {
      DeriveConserves(l[..|l| - 1], a);
      if Derive(l[..|l| - 1], a).Ok? {
        ApplyConserves(Derive(l[..|l| - 1], a).value, l[|l| - 1], a);
      }
    }
  }

  /** A paid response is never turned away for the campaign cap. */
  lemma {:induction false} TotalCapNeverRejectsAResponse(l: seq<Event>, a: Authorization, claim: Digest, r: Token,
                                                         response: Digest, cost: int, at: int)
    requires a.Valid()
    ensures RecordResponseOp(l, a, claim, r, response, cost, at).1 != Err(ResponseOverCap)
    ensures RecordResponseOp(l, a, claim, r, response, cost, at).1 != Err(LedgerOverCap)
  {
    NoVerificationOverCap(l, a, claim);
    var l' := RecordResponseOp(l, a, claim, r, response, cost, at).0;
    NoVerificationOverCap(l', a, claim);
    var v := Verify(l, a, claim);
    if v.Ok? && r.caseId in v.value.states && v.value.states[r.caseId].Reserved? && 0 <= cost <= a.perCaseCap {
      DeriveConserves(l, a);
      Room(v.value, a, r.caseId, cost);
    }
  }

  /**
   A token recovered with a durable response serves that response only: any other one is refused without
   effect, and the same one is either on record already or becomes the case's response.
   */
  lemma {:induction false} RecoveredTokenRecordsOnlyItsResponse(l: seq<Event>, a: Authorization, claim: Digest,
                                                                c: string, request: Digest, call: Digest,
                                                                durable: Digest, response: Digest, cost: int, at: int)
    requires a.Valid() && RecoverOp(l, a, claim, c, request, call, Some(durable)).Ok?
    ensures var token := RecoverOp(l, a, claim, c, request, call, Some(durable)).value;
            var (l', r) := RecordResponseOp(l, a, claim, token, response, cost, at);
            && token.caseId == c && token.reservation.request == request == a.requests[c]
               && token.reservation.call == call
            && (response != durable ==> l' == l && r.Err?)
            && (l' != l ==>
                  && l' == l + [l'[|l|]] && l'[|l|].body.caseId == Some(c)
                  && l'[|l|].body.payload == ResponseDurable(cost, call, request, durable, token.reservation.event))
            && (l' == l && r.Ok? ==>
                  && Priced(r.value.states[c]) && r.value.states[c].response == durable
                  && r.value.states[c].cost == cost)
  {
    var token := RecoverOp(l, a, claim, c, request, call, Some(durable)).value;
    DeriveConserves(l, a);
    assert IsSha(durable);
    hide Derive, ChainFault;
    if RecordResponseOp(l, a, claim, token, response, cost, at).0 != l {
      assert response == durable;
    }
  }

  /**
   Unknown spend is never recovered. Without a durable response a token is reissued exactly for a case whose
   ledger already has the response, for the very request and call it was reserved with.
   */
  lemma {:induction false} RecoveryNeedsAResponse(l: seq<Event>, a: Authorization, claim: Digest, c: string,
                                                  request: Digest, call: Digest)
    requires a.Valid()
    ensures RecoverOp(l, a, claim, c, request, call, None).Ok? <==>
              && c in a.caseIds && request == a.requests[c] && IsSha(request) && IsSha(call)
              && Verify(l, a, claim).Ok? && c in Verify(l, a, claim).value.states
              && Priced(Verify(l, a, claim).value.states[c])
              && Verify(l, a, claim).value.states[c].reservation.request == request
              && Verify(l, a, claim).value.states[c].reservation.call == call
  {
    hide Verify;
  }

  /**
   Every recovered token is for the case's own reservation and carries a durable response: the ledger's own
   once one is recorded, else the one that was presented. A response that differs from the ledger's is refused.
   */
  lemma {:induction false} RecoveredTokenIsDurable(l: seq<Event>, a: Authorization, claim: Digest, c: string,
                                                   request: Digest, call: Digest, durable: Option<Digest>)
    requires RecoverOp(l, a, claim, c, request, call, durable).Ok?
    ensures Verify(l, a, claim).Ok? && c in Verify(l, a, claim).value.states
    ensures var s := Verify(l, a, claim).value.states[c];
            var token := RecoverOp(l, a, claim, c, request, call, durable).value;
            && !s.Available? && token.caseId == c && token.reservation == s.reservation
            && s.reservation.request == request && s.reservation.call == call
            && token.durable.Some? && (durable.Some? ==> token.durable == durable)
            && (Priced(s) ==> token.durable == Some(s.response))
  {
    hide Verify;
  }

  /** With a durable response, recovery fails only for its shape and for another case, request, call or response. */
  lemma {:induction false} RecoveryWithItsResponse(l: seq<Event>, a: Authorization, claim: Digest, c: string,
                                                   request: Digest, call: Digest, response: Digest)
    requires a.Valid()
    ensures RecoverOp(l, a, claim, c, request, call, Some(response)).Ok? <==>
              && IsSha(response)
              && c in a.caseIds && request == a.requests[c] && IsSha(request) && IsSha(call)
              && Verify(l, a, claim).Ok? && c in Verify(l, a, claim).value.states
              && !Verify(l, a, claim).value.states[c].Available?
              && Verify(l, a, claim).value.states[c].reservation.request == request
              && Verify(l, a, claim).value.states[c].reservation.call == call
              && (Priced(Verify(l, a, claim).value.states[c]) ==>
                    Verify(l, a, claim).value.states[c].response == response)
  {
    hide Verify;
  }

  /** A matching response within the per-case cap is appended. */
  lemma {:induction false} ResponseIsAppended(l: seq<Event>, a: Authorization, claim: Digest, r: Token,
                                              response: Digest, cost: int, at: int)
    requires a.Valid() && Verify(l, a, claim).Ok?
    requires r.caseId in Verify(l, a, claim).value.states
    requires Verify(l, a, claim).value.states[r.caseId] == Reserved(r.reservation)
    requires (r.durable.None? || r.durable.value == response) && IsSha(response) && 0 <= cost <= a.perCaseCap
    ensures var p := ResponseDurable(cost, r.reservation.call, r.reservation.request, response, r.reservation.event);
            var l' := l + [NextEvent(l, a, Some(r.caseId), p, at)];
            RecordResponseOp(l, a, claim, r, response, cost, at) == (l', Verify(l', a, claim))
  {
    DeriveConserves(l, a);
    Room(Verify(l, a, claim).value, a, r.caseId, cost);
  }

  /**
   The token of a reservation, which has no durable response yet, records whatever response the call brings,
   as long as the clock does not run backwards: the case then has that response at that cost.
   */
  lemma {:induction false} ReservationRecordsItsResponse(l: seq<Event>, a: Authorization, claim: Digest, c: string,
                                                         request: Digest, call: Digest, at: int, response: Digest,
                                                         cost: int, later: int)
    requires a.Valid() && ReserveOp(l, a, claim, c, request, call, at).1.Ok?
    requires l != [] && l[|l| - 1].body.recordedAt <= at <= later
    requires IsSha(response) && 0 <= cost <= a.perCaseCap
    ensures var (l', r) := ReserveOp(l, a, claim, c, request, call, at);
            var (l'', v) := RecordResponseOp(l', a, claim, r.value, response, cost, later);
            && r.value.durable.None? && |l''| == |l| + 2 && l <= l' <= l'' && v.Ok?
            && c in v.value.states && v.value.states[c] == Responded(r.value.reservation, response, cost)
  {
    var (l', r) := ReserveOp(l, a, claim, c, request, call, at);
    AppendVerifiesIffClockMonotone(l, a, claim, Some(c), CaseReserved(call, a.perCaseCap, request), at);
    assert Verify(l', a, claim).Ok? && Verify(l', a, claim).value.states[c] == Reserved(r.value.reservation);
    ResponseIsAppended(l', a, claim, r.value, response, cost, later);
    var p := ResponseDurable(cost, call, request, response, r.value.reservation.event);
    AppendVerifiesIffClockMonotone(l', a, claim, Some(c), p, later);
    hide Derive, ChainFault;
    DeriveConserves(l', a);
    Room(Verify(l', a, claim).value, a, c, cost);
  }

  lemma {:induction false} NoVerificationOverCap(l: seq<Event>, a: Authorization, claim: Digest)
    requires a.Valid()
    ensures Verify(l, a, claim) != Err(LedgerOverCap) && Verify(l, a, claim) != Err(ResponseOverCap)
  {
    DeriveConserves(l, a);
    ChainComplaints(l, a);
    DeriveComplaints(l, a);
  }

  lemma {:induction false} DeriveComplaints(l: seq<Event>, a: Authorization)
    ensures Derive(l, a) != Err(ResponseOverCap)
  {
    if |l| > 1 {
      DeriveComplaints(l[..|l| - 1], a);
    }
  }

  lemma {:induction false} ChainComplaints(l: seq<Event>, a: Authorization)
    ensures ChainFault(l, a) in {None, Some(ChainBroken), Some(ChronologyBroken)}
  {
    if l != [] {
      ChainComplaints(l[..|l| - 1], a);
    }
  }

  // ---------------------------------------------------------------- every history

  ghost predicate AtMostOneOpen(t: Tally) {
    forall c, d :: c in t.states && d in t.states && t.states[c].Reserved? && t.states[d].Reserved? ==> c == d
  }

  /** Holds of the ledger at every moment, whatever the clocks of the writers say. */
  ghost predicate Sound(l: seq<Event>, a: Authorization, claim: Digest) {
    && l != []
    && BeginsWithClaim(l, claim)
    && (forall i :: 0 <= i < |l| ==> Linked(l, i, a))
    && Derive(l, a).Ok?
    && Conserved(Derive(l, a).value, a)
    && AtMostOneOpen(Derive(l, a).value)
  }

  lemma {:induction false} ClaimIsSound(a: Authorization, claim: Digest, at: int)
    requires a.Valid()
    ensures Sound([NextEvent([], a, None, Claimed(claim), at)], a, claim)
  {
    var l := [NextEvent([], a, None, Claimed(claim), at)];
    assert Derive(l, a) == Ok(EmptyTally(a));
    hide Derive, Spend, Unpriced;
    NothingSpent(a, a.caseIds);
    assert Conserved(EmptyTally(a), a);
  }

  /** An event that applies and opens no second reservation leaves the ledger sound. */
  lemma {:induction false} SoundAppend(l: seq<Event>, a: Authorization, claim: Digest, c: string, p: Payload, at: int)
    requires a.Valid() && Sound(l, a, claim)
    requires Apply(Derive(l, a).value, NextEvent(l, a, Some(c), p, at), a).Ok?
    requires p.CaseReserved? ==> !Halted(Derive(l, a).value)
    ensures var l' := l + [NextEvent(l, a, Some(c), p, at)];
            Sound(l', a, claim) && Derive(l', a) == Apply(Derive(l, a).value, l'[|l|], a)
  {
    var e := NextEvent(l, a, Some(c), p, at);
    var l' := l + [e];
    assert l'[..|l'| - 1] == l;
    assert Derive(l', a) == Apply(Derive(l, a).value, e, a);
    LinksExtend(l, a, Some(c), p, at);
    ApplyConserves(Derive(l, a).value, e, a);
    ApplyOpens(Derive(l, a).value, e, a);
  }

  lemma {:induction false} LinksExtend(l: seq<Event>, a: Authorization, c: Option<string>, p: Payload, at: int)
    requires forall i :: 0 <= i < |l| ==> Linked(l, i, a)
    ensures var l' := l + [NextEvent(l, a, c, p, at)];
            forall i :: 0 <= i < |l'| ==> Linked(l', i, a)
  {
    var l' := l + [NextEvent(l, a, c, p, at)];
    forall i | 0 <= i < |l'| ensures Linked(l', i, a) {
      if i < |l| { assert Linked(l, i, a); }
    }
  }

  /** Only a reservation event opens a case, and only the case it names. */
  lemma {:induction false} ApplyOpens(t: Tally, e: Event, a: Authorization)
    requires Apply(t, e, a).Ok? && AtMostOneOpen(t)
    requires e.body.payload.CaseReserved? ==> !Halted(t)
    ensures AtMostOneOpen(Apply(t, e, a).value)
  {
    var t' := Apply(t, e, a).value;
    var c := e.body.caseId.value;
    assert forall d :: d in t'.states && d != c ==> d in t.states && t'.states[d] == t.states[d];
  }

  /** One locked operation, by anybody, with any arguments and any clock. */
  datatype Operation =
    | Reserve(caseId: string, request: Digest, call: Digest, at: int)
    | RecordResponse(token: Token, response: Digest, cost: int, at: int)
    | RecordResult(token: Token, response: Digest, result: Digest, at: int)

  function Perform(l: seq<Event>, a: Authorization, claim: Digest, op: Operation): seq<Event> {
    match op
    case Reserve(c, request, call, at) => ReserveOp(l, a, claim, c, request, call, at).0
    case RecordResponse(r, response, cost, at) => RecordResponseOp(l, a, claim, r, response, cost, at).0
    case RecordResult(r, response, result, at) => RecordResultOp(l, a, claim, r, response, result, at).0
  }

  lemma {:induction false} PerformKeepsSound(l: seq<Event>, a: Authorization, claim: Digest, op: Operation)
    requires a.Valid() && Sound(l, a, claim)
    ensures Sound(Perform(l, a, claim, op), a, claim)
    ensures l <= Perform(l, a, claim, op)
    ensures |Perform(l, a, claim, op)| <= |l| + 1
  {
    match op
    case Reserve(c, request, call, at) => ReserveKeepsSound(l, a, claim, c, request, call, at);
    case RecordResponse(r, response, cost, at) => RecordResponseKeepsSound(l, a, claim, r, response, cost, at);
    case RecordResult(r, response, result, at) => RecordResultKeepsSound(l, a, claim, r, response, result, at);
  }

  lemma {:induction false} ReserveKeepsSound(l: seq<Event>, a: Authorization, claim: Digest, c: string, request: Digest,
                                             call: Digest, at: int)
    requires a.Valid() && Sound(l, a, claim)
    ensures var l' := ReserveOp(l, a, claim, c, request, call, at).0;
            Sound(l', a, claim) && l <= l' && |l'| <= |l| + 1
  {
    if ReserveOp(l, a, claim, c, request, call, at).1.Ok? {
      SoundAppend(l, a, claim, c, CaseReserved(call, a.perCaseCap, request), at);
    }
  }

  lemma {:induction false} RecordResponseKeepsSound(l: seq<Event>, a: Authorization, claim: Digest, r: Token,
                                                    response: Digest, cost: int, at: int)
    requires a.Valid() && Sound(l, a, claim)
    ensures var l' := RecordResponseOp(l, a, claim, r, response, cost, at).0;
            Sound(l', a, claim) && l <= l' && |l'| <= |l| + 1
  {
    if RecordResponseOp(l, a, claim, r, response, cost, at).0 != l {
      Room(Verify(l, a, claim).value, a, r.caseId, cost);
      SoundAppend(l, a, claim, r.caseId,
        ResponseDurable(cost, r.reservation.call, r.reservation.request, response, r.reservation.event), at);
    }
  }

  lemma {:induction false} RecordResultKeepsSound(l: seq<Event>, a: Authorization, claim: Digest, r: Token,
                                                  response: Digest, result: Digest, at: int)
    requires a.Valid() && Sound(l, a, claim)
    ensures var l' := RecordResultOp(l, a, claim, r, response, result, at).0;
            Sound(l', a, claim) && l <= l' && |l'| <= |l| + 1
  {
    if RecordResultOp(l, a, claim, r, response, result, at).0 != l {
      SoundAppend(l, a, claim, r.caseId,
        CaseCompleted(r.reservation.call, r.reservation.request, response, result, r.reservation.event), at);
    }
  }

  function History(a: Authorization, claim: Digest, claimedAt: int, ops: seq<Operation>): seq<Event> {
    if ops == [] then [NextEvent([], a, None, Claimed(claim), claimedAt)]
    else Perform(History(a, claim, claimedAt, ops[..|ops| - 1]), a, claim, ops[|ops| - 1])
  }

  /** Conservation, one open reservation at most and an unbroken chain, after any operations at all. */
  lemma {:induction false} EveryHistoryIsSound(a: Authorization, claim: Digest, claimedAt: int, ops: seq<Operation>)
    requires a.Valid()
    ensures Sound(History(a, claim, claimedAt, ops), a, claim)
  {
    if ops == [] {
      ClaimIsSound(a, claim, claimedAt);
    } else {
      EveryHistoryIsSound(a, claim, claimedAt, ops[..|ops| - 1]);
      PerformKeepsSound(History(a, claim, claimedAt, ops[..|ops| - 1]), a, claim, ops[|ops| - 1]);
    }
  }

  /** Case states only move forward, so an accepted reservation is irreversible. */
  function Stage(s: CaseState): nat {
    match s
    case Available => 0
    case Reserved(_) => 1
    case Responded(_, _, _) => 2
    case Completed(_, _, _, _) => 3
  }

  ghost predicate Advances(s: CaseState, t: CaseState) {
    && Stage(s) <= Stage(t)
    && (!s.Available? ==> t.reservation == s.reservation)
    && (Priced(s) ==> t.response == s.response && t.cost == s.cost)
    && (s.Completed? ==> t == s)
  }

  ghost predicate AllAdvance(t: Tally, t': Tally) {
    forall c :: c in t.states ==> c in t'.states && Advances(t.states[c], t'.states[c])
  }

  lemma {:induction false} ApplyAdvances(t: Tally, e: Event, a: Authorization)
    requires Apply(t, e, a).Ok?
    ensures AllAdvance(t, Apply(t, e, a).value)
  {
    var c := e.body.caseId.value;
    match e.body.payload
    case Claimed(_) => assert false;
    case CaseReserved(_, _, _) => assert t.states[c].Available?;
    case ResponseDurable(_, _, _, _, _) => assert t.states[c].Reserved?;
    case CaseCompleted(_, _, _, _, _) => assert t.states[c].Responded?;
  }

  lemma {:induction false} ReservationsAreIrreversible(a: Authorization, claim: Digest, claimedAt: int,
                                                       ops: seq<Operation>, n: nat)
    requires a.Valid() && n <= |ops|
    ensures var before := History(a, claim, claimedAt, ops[..n]);
            var after := History(a, claim, claimedAt, ops);
            && before <= after
            && Derive(before, a).Ok? && Derive(after, a).Ok?
            && AllAdvance(Derive(before, a).value, Derive(after, a).value)
  {
    EveryHistoryIsSound(a, claim, claimedAt, ops);
    if n == |ops| {
      assert ops[..n] == ops;
    } else {
      var shorter := ops[..|ops| - 1];
      ReservationsAreIrreversible(a, claim, claimedAt, shorter, n);
      assert shorter[..n] == ops[..n];
      EveryHistoryIsSound(a, claim, claimedAt, shorter);
      StepAdvances(History(a, claim, claimedAt, shorter), a, claim, ops[|ops| - 1]);
    }
  }

  lemma {:induction false} StepAdvances(l: seq<Event>, a: Authorization, claim: Digest, op: Operation)
    requires a.Valid() && Sound(l, a, claim)
    ensures var l' := Perform(l, a, claim, op);
            l <= l' && Derive(l', a).Ok? && AllAdvance(Derive(l, a).value, Derive(l', a).value)
  {
    PerformKeepsSound(l, a, claim, op);
    var l' := Perform(l, a, claim, op);
    hide Perform;
    assert Derive(l', a).Ok?;
    if |l'| == |l| {
      assert l' == l;
    } else {
      OneEventAdvances(l, l', a);
    }
  }

  lemma {:induction false} OneEventAdvances(l: seq<Event>, l': seq<Event>, a: Authorization)
    requires l != [] && l <= l' && |l'| == |l| + 1 && Derive(l', a).Ok?
    ensures Derive(l, a).Ok? && AllAdvance(Derive(l, a).value, Derive(l', a).value)
  {
    assert l'[..|l'| - 1] == l;
    ApplyAdvances(Derive(l, a).value, l'[|l'| - 1], a);
  }

  // ---------------------------------------------------------------- a clock that ran backwards

  function PerformAll(l: seq<Event>, a: Authorization, claim: Digest, ops: seq<Operation>): seq<Event> {
    if ops == [] then l else Perform(PerformAll(l, a, claim, ops[..|ops| - 1]), a, claim, ops[|ops| - 1])
  }

  lemma {:induction false} RejectedLedgerIsFrozen(l: seq<Event>, a: Authorization, claim: Digest, ops: seq<Operation>)
    requires Verify(l, a, claim).Err?
    ensures PerformAll(l, a, claim, ops) == l
  {
    hide Verify;
    if ops != [] { RejectedLedgerIsFrozen(l, a, claim, ops[..|ops| - 1]); }
  }

  /**
   A reservation granted under a clock behind the last event strands its ledger: the call may be made, but
   no later operation has any effect, and neither its response nor its recovery gets past the verification.
   */
  lemma {:induction false} BackwardsReservationStrandsTheLedger(l: seq<Event>, a: Authorization, claim: Digest,
                                                                c: string, request: Digest, call: Digest, at: int,
                                                                ops: seq<Operation>, token: Token, response: Digest,
                                                                cost: int, later: int)
    requires ReserveOp(l, a, claim, c, request, call, at).1.Ok? && at < l[|l| - 1].body.recordedAt
    requires IsSha(response) && 0 <= cost <= a.perCaseCap
    ensures var l' := ReserveOp(l, a, claim, c, request, call, at).0;
            && l' == l + [l'[|l|]] && l'[|l|].body.payload == CaseReserved(call, a.perCaseCap, request)
            && PerformAll(l', a, claim, ops) == l'
            && Verify(l', a, claim) == Err(ChronologyBroken)
            && RecordResponseOp(l', a, claim, token, response, cost, later) == (l', Err(ChronologyBroken))
            && RecoverOp(l', a, claim, c, request, call, Some(response)) == Err(ChronologyBroken)
  {
    AppendVerifiesIffClockMonotone(l, a, claim, Some(c), CaseReserved(call, a.perCaseCap, request), at);
    hide Verify, Derive, ChainFault;
    RejectedLedgerIsFrozen(ReserveOp(l, a, claim, c, request, call, at).0, a, claim, ops);
  }

  /** A ledger claimed at 10 grants a reservation at 5, and never verifies again. */
  lemma {:induction false} BackwardsReservationExample()
    ensures var a := Authorization(Bindings(Raw(1), Raw(2), Raw(3), Raw(4), Raw(5)), 0, ["case"], map["case" := Raw(6)],
                                   250_000, 250_000);
            var l := [NextEvent([], a, None, Claimed(Raw(7)), 10)];
            var (l', r) := ReserveOp(l, a, Raw(7), "case", Raw(6), CallId(a, "case", Raw(6)), 5);
            a.Valid() && r.Ok? && |l'| == 2 && Verify(l', a, Raw(7)) == Err(ChronologyBroken)
  {
    var a := Authorization(Bindings(Raw(1), Raw(2), Raw(3), Raw(4), Raw(5)), 0, ["case"], map["case" := Raw(6)],
                           250_000, 250_000);
    var l := [NextEvent([], a, None, Claimed(Raw(7)), 10)];
    var call := CallId(a, "case", Raw(6));
    FreshClaim(a, Raw(7), 10);
    assert !Halted(EmptyTally(a)) && EmptyTally(a).states["case"].Available?;
    AppendVerifiesIffClockMonotone(l, a, Raw(7), Some("case"), CaseReserved(call, 250_000, Raw(6)), 5);
    hide Verify;
  }
}

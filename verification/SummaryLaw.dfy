/**
 When the summary raises, on any ledger at all, said of the events: the law its index needs, the costs it can
 total and the finishes it can count. Unlike the validator it stops at its first exception.
 */
module SummaryLaw {
  import opened Wrappers
  import opened Trace
  import opened TraceReducer

  /** One thing an event says that the summary keeps. */
  datatype Fact =
    | Opened(a: string, caseId: string) | Closed(a: string) | PhaseBegun(a: string, key: PhaseKey)
    | PhaseEnded(a: string, key: PhaseKey) | CallBegun(a: string, call: string) | CallEnded(a: string, call: string)

  predicate Says(e: Event, f: Fact) {
    && e.attemptId == f.a
    && match f
       case Opened(_, c) => e.payload.AttemptStarted? && e.caseId == c
       case Closed(_) => e.payload.AttemptFinished?
       case PhaseBegun(_, key) => e.payload.PhaseStarted? && e.payload.key == key
       case PhaseEnded(_, key) => e.payload.PhaseFinished? && e.payload.key == key
       case CallBegun(_, call) => e.payload.ModelCallStarted? && e.payload.call.callId == call
       case CallEnded(_, call) => e.payload.ModelCallFinished? && e.payload.callId == call
  }

  ghost predicate Said(l: seq<Event>, f: Fact) {
    exists i :: 0 <= i < |l| && Says(l[i], f)
  }

  predicate Knows(ix: Index, f: Fact) {
    match f
    case CallBegun(a, call) => call in ix.callOwner && ix.callOwner[call] == a
    case _ =>
      f.a in ix.attempts
      && match f
         case Opened(_, c) => ix.attempts[f.a].caseId == c
         case Closed(_) => ix.attempts[f.a].finish.Some?
         case PhaseBegun(_, key) => key in ix.attempts[f.a].phaseStarts
         case PhaseEnded(_, key) => key in ix.attempts[f.a].phaseFinishes
         case CallEnded(_, call) => call in ix.attempts[f.a].modelFinishes
  }

  /** What the summary can read after the events before it. */
  ghost predicate CanFollow(known: set<string>, l: seq<Event>, e: Event) {
    && e.caseId in known
    && if e.payload.AttemptStarted? then forall c :: !Said(l, Opened(e.attemptId, c))
       else
         && Said(l, Opened(e.attemptId, e.caseId)) && !Said(l, Closed(e.attemptId))
         && match e.payload
            case PhaseStarted(key, _) => !Said(l, PhaseBegun(e.attemptId, key))
            case PhaseFinished(key, _) => !Said(l, PhaseEnded(e.attemptId, key))
            case ModelCallStarted(call) => forall a :: !Said(l, CallBegun(a, call.callId))
            case ModelCallFinished(id, _) =>
              Said(l, CallBegun(e.attemptId, id)) && !Said(l, CallEnded(e.attemptId, id))
            case _ => true
  }

  lemma {:induction false} StepKnows(known: set<string>, ix: Index, e: Event, f: Fact)
    requires EventError(known, ix, e).None?
    ensures Knows(IndexAfter(ix, e), f) <==> Knows(ix, f) || Says(e, f)
  {
  }

  lemma {:induction false} SaidSplits(l: seq<Event>, f: Fact)
    requires l != []
    ensures Said(l, f) <==> Said(l[..|l| - 1], f) || Says(l[|l| - 1], f)
  {
    hide Says;
    assert forall i :: 0 <= i < |l| - 1 ==> l[..|l| - 1][i] == l[i];
  }

  ghost predicate KnowsItsEvents(ix: Index, l: seq<Event>) {
    forall f :: Knows(ix, f) <==> Said(l, f)
  }

  lemma {:induction false} ErrorIff(known: set<string>, ix: Index, l: seq<Event>, e: Event)
    requires KnowsItsEvents(ix, l)
    ensures EventError(known, ix, e).None? <==> CanFollow(known, l, e)
  {
    hide Said;
    if e.attemptId in ix.attempts {
      assert Knows(ix, Opened(e.attemptId, ix.attempts[e.attemptId].caseId));
    }
    assert Knows(ix, Opened(e.attemptId, e.caseId)) <==> Said(l, Opened(e.attemptId, e.caseId));
    assert Knows(ix, Closed(e.attemptId)) <==> Said(l, Closed(e.attemptId));
    match e.payload {
      case PhaseStarted(key, _) =>
        assert Knows(ix, PhaseBegun(e.attemptId, key)) <==> Said(l, PhaseBegun(e.attemptId, key));
      case PhaseFinished(key, _) =>
        assert Knows(ix, PhaseEnded(e.attemptId, key)) <==> Said(l, PhaseEnded(e.attemptId, key));
      case ModelCallStarted(call) =>
        if call.callId in ix.callOwner { assert Knows(ix, CallBegun(ix.callOwner[call.callId], call.callId)); }
      case ModelCallFinished(id, _) =>
        assert Knows(ix, CallBegun(e.attemptId, id)) <==> Said(l, CallBegun(e.attemptId, id));
        assert Knows(ix, CallEnded(e.attemptId, id)) <==> Said(l, CallEnded(e.attemptId, id));
      case _ =>
    }
  }

  /**
   The summary's index reads a ledger exactly if each event can follow those before, and then it knows what they
   said.
   */
  lemma {:induction false} IndexRaisesExactly(known: set<string>, l: seq<Event>)
    ensures IndexOf(known, l).Ok? <==> forall j :: 0 <= j < |l| ==> CanFollow(known, l[..j], l[j])
    ensures IndexOf(known, l).Ok? ==> KnowsItsEvents(IndexOf(known, l).value, l)
  {
    hide Knows, Says, CanFollow, EventError, IndexAfter;
    if l == [] {
      forall f ensures !Knows(Index(map[], [], map[]), f) { EmptyKnowsNothing(f); }
    } else {
      var n := |l| - 1;
      IndexRaisesExactly(known, l[..n]);
      assert forall j :: 0 <= j < n ==> l[..n][..j] == l[..j] && l[..n][j] == l[j];
      if IndexOf(known, l[..n]).Ok? {
        var ix := IndexOf(known, l[..n]).value;
        ErrorIff(known, ix, l[..n], l[n]);
        if EventError(known, ix, l[n]).None? {
          assert IndexOf(known, l) == Ok(IndexAfter(ix, l[n])) by { StepReads(known, l); }
          hide IndexOf;
          forall f ensures Knows(IndexAfter(ix, l[n]), f) <==> Said(l, f) {
            StepKnows(known, ix, l[n], f);
            SaidSplits(l, f);
          }
        }
      }
    }
  }

  lemma {:induction false} StepReads(known: set<string>, l: seq<Event>)
    requires l != [] && IndexOf(known, l[..|l| - 1]).Ok?
    requires EventError(known, IndexOf(known, l[..|l| - 1]).value, l[|l| - 1]).None?
    ensures !l[|l| - 1].payload.AttemptStarted? ==>
              l[|l| - 1].attemptId in IndexOf(known, l[..|l| - 1]).value.attempts
    ensures IndexOf(known, l) == Ok(IndexAfter(IndexOf(known, l[..|l| - 1]).value, l[|l| - 1]))
  {
  }

  lemma {:induction false} EmptyKnowsNothing(f: Fact)
    ensures !Knows(Index(map[], [], map[]), f)
  {
  }

  // ---------------------------------------------------------------- totals and finishes

  predicate CanBeTotalled(c: Cost) {
    c.amount.None? ==> c.status.Unknown?
  }

  lemma {:induction false} CostsRaiseExactly(t: Tally, costs: seq<Cost>)
    ensures TallyCosts(t, costs).Ok? <==> forall i :: 0 <= i < |costs| ==> CanBeTotalled(costs[i])
  {
    if costs != [] {
      var n := |costs| - 1;
      CostsRaiseExactly(t, costs[..n]);
      assert forall i :: 0 <= i < n ==> costs[..n][i] == costs[i];
    }
  }

  predicate AllTotalled(ix: Index, a: string) {
    a in ix.attempts ==> forall i :: 0 <= i < |ix.attempts[a].costs| ==> CanBeTotalled(ix.attempts[a].costs[i])
  }

  /** The projection raises exactly for a cost without amount that does not say it is unknown. */
  lemma {:induction false} TotalsRaiseExactly(ix: Index, order: seq<string>)
    ensures TallyOf(ix, order).Ok? <==> forall k :: 0 <= k < |order| ==> AllTotalled(ix, order[k])
  {
    hide TallyCosts, CoversCategories, CanBeTotalled;
    if order != [] {
      var n := |order| - 1;
      TotalsRaiseExactly(ix, order[..n]);
      assert forall i :: 0 <= i < n ==> order[..n][i] == order[i];
      if order[n] in ix.attempts && TallyOf(ix, order[..n]).Ok? {
        CostsRaiseExactly(AddCalls(TallyOf(ix, order[..n]).value, order[n], ix.attempts[order[n]]),
                          ix.attempts[order[n]].costs);
      }
    }
  }

  /** The attempt has a counted finish for this case. */
  predicate CountsFor(ix: Index, a: string, c: string) {
    && a in ix.attempts && ix.attempts[a].caseId == c
    && ix.attempts[a].finish.Some? && ix.attempts[a].finish.value.disposition.Counted?
  }

  ghost predicate NoneCountsTwice(ix: Index, order: seq<string>) {
    forall i, k, c :: 0 <= i < k < |order| && CountsFor(ix, order[i], c) ==> !CountsFor(ix, order[k], c)
  }

  /** The counted finishes are those of the attempts that count. */
  ghost predicate CountsThem(ix: Index, order: seq<string>, m: map<string, CountedFinish>) {
    forall c ::
      && (c in m <==> exists i :: 0 <= i < |order| && CountsFor(ix, order[i], c))
      && (c in m ==> m[c].attemptId in order && CountsFor(ix, m[c].attemptId, c)
                     && Some(m[c].finish) == ix.attempts[m[c].attemptId].finish)
  }

  lemma {:induction false} FinishStep(ix: Index, order: seq<string>, f: Finishes)
    requires order != [] && CountsThem(ix, order[..|order| - 1], f.counted)
    requires order[|order| - 1] in ix.attempts
    ensures var a := order[|order| - 1];
            var r := FinishAfter(f, a, ix.attempts[a]);
            && (r.Ok? <==> !(CountsFor(ix, a, ix.attempts[a].caseId) && ix.attempts[a].caseId in f.counted))
            && (r.Ok? ==> CountsThem(ix, order, r.value.counted))
  {
    var n := |order| - 1;
    var a := order[n];
    var r := FinishAfter(f, a, ix.attempts[a]);
    assert forall i :: 0 <= i < n ==> order[..n][i] == order[i];
    if r.Ok? {
      var m := r.value.counted;
      forall c
        ensures c in m <==> exists i :: 0 <= i < |order| && CountsFor(ix, order[i], c)
        ensures c in m ==> m[c].attemptId in order && CountsFor(ix, m[c].attemptId, c)
                           && Some(m[c].finish) == ix.attempts[m[c].attemptId].finish
      {
        assert c in m <==> c in f.counted || CountsFor(ix, a, c);
        if i :| 0 <= i < n && CountsFor(ix, order[..n][i], c) { assert CountsFor(ix, order[i], c); }
        if i :| 0 <= i < |order| && CountsFor(ix, order[i], c) {
          assert i == n || CountsFor(ix, order[..n][i], c);
        }
      }
    }
  }

  /** Counting raises exactly when two attempts have a counted finish for the same case. */
  lemma {:induction false} FinishesRaiseExactly(ix: Index, order: seq<string>)
    ensures FinishesOf(ix, order).Ok? <==> NoneCountsTwice(ix, order)
    ensures FinishesOf(ix, order).Ok? ==> CountsThem(ix, order, FinishesOf(ix, order).value.counted)
  {
    hide FinishAfter, CountsFor;
    if order != [] {
      var n := |order| - 1;
      var a := order[n];
      FinishesRaiseExactly(ix, order[..n]);
      assert forall i :: 0 <= i < n ==> order[..n][i] == order[i];
      if FinishesOf(ix, order[..n]).Ok? {
        var f := FinishesOf(ix, order[..n]).value;
        if a in ix.attempts {
          FinishStep(ix, order, f);
          LastCounts(ix, order, f.counted);
        } else {
          assert forall c :: !CountsFor(ix, a, c) by { NoAttemptCounts(ix, a); }
          MissingCounts(ix, order, a, f.counted);
        }
      }
    }
  }

  lemma {:induction false} NoAttemptCounts(ix: Index, a: string)
    requires a !in ix.attempts
    ensures forall c :: !CountsFor(ix, a, c)
  {
  }

  lemma {:induction false} LastCounts(ix: Index, order: seq<string>, m: map<string, CountedFinish>)
    requires order != [] && order[|order| - 1] in ix.attempts
    requires CountsThem(ix, order[..|order| - 1], m) && NoneCountsTwice(ix, order[..|order| - 1])
    ensures var a := order[|order| - 1];
            NoneCountsTwice(ix, order) <==>
              !(CountsFor(ix, a, ix.attempts[a].caseId) && ix.attempts[a].caseId in m)
  {
    var n := |order| - 1;
    var a := order[n];
    var c := ix.attempts[a].caseId;
    assert forall i :: 0 <= i < n ==> order[..n][i] == order[i];
    if c in m {
      var i :| 0 <= i < n && CountsFor(ix, order[..n][i], c);
      assert CountsFor(ix, order[i], c);
    }
    if CountsFor(ix, a, c) && c !in m {
      assert forall i :: 0 <= i < n ==> !CountsFor(ix, order[..n][i], c);
    }
  }

  lemma {:induction false} MissingCounts(ix: Index, order: seq<string>, a: string, m: map<string, CountedFinish>)
    requires order != [] && a == order[|order| - 1] && forall c :: !CountsFor(ix, a, c)
    requires CountsThem(ix, order[..|order| - 1], m) && NoneCountsTwice(ix, order[..|order| - 1])
    ensures NoneCountsTwice(ix, order) && CountsThem(ix, order, m)
  {
    hide CountsFor;
    var n := |order| - 1;
    assert forall i :: 0 <= i < n ==> order[..n][i] == order[i];
    forall c ensures (c in m <==> exists i :: 0 <= i < |order| && CountsFor(ix, order[i], c)) {
      if i :| 0 <= i < n && CountsFor(ix, order[..n][i], c) { assert CountsFor(ix, order[i], c); }
      if i :| 0 <= i < |order| && CountsFor(ix, order[i], c) {
        assert i < n && CountsFor(ix, order[..n][i], c);
      }
    }
  }
}

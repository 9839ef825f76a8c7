/**
 What a campaign guarantees once every crash and restart is over.
 */
module CampaignTheorems {
  import opened Wrappers
  import opened Records
  import opened SpendLedger
  import opened LedgerFacts
  import opened Transcripts
  import opened PublicInspector
  import opened Runtime
  import opened Campaign
  import opened Controller

  /** A freshly claimed ledger and two empty directories are where every campaign begins. */
  lemma {:induction false} CampaignBegins(p: Plan, provider: Provider, claimedAt: int)
    requires p.Valid() && p.auth.authorizedAt <= claimedAt
    ensures var l := [NextEvent([], p.auth, None, Claimed(p.claim), claimedAt)];
            Canonical(World(l, map[], map[], []), p, provider, 0, Fresh)
  {
    var l := [NextEvent([], p.auth, None, Claimed(p.claim), claimedAt)];
    FreshClaim(p.auth, p.claim, claimedAt);
    var entries := EntriesOf(p, provider);
    assert Positional(l, p.auth, entries);
    assert LedgerAt(l, p, provider, 0, 0);
    assert Ids(p)[..0] == [];
    assert FilesAt(World(l, map[], map[], []), p, provider, 0, Fresh);
  }

  /** Some case of the cohort gets an answer that is an exception or out of bounds. */
  ghost predicate SomeAnswerFails(p: Plan, provider: Provider) {
    exists i :: 0 <= i < |Ids(p)| && !Usable(p, provider(Ids(p)[i]))
  }

  /** Some logged crash from position `n` on fell between a reservation and its durable response file. */
  ghost predicate CrashedInWindow(log: seq<World>, n: nat, p: Plan) {
    exists j :: n <= j < |log| && SpendIsLost(log[j], p)
  }

  /**
   Restart the controller after every crash until a run ends by itself. It ends complete, with the
   barrier of its provider, unless the provider failed some case, or spend was already lost at the start,
   or a crash fell between a reservation and its response file; then, and only then, it ends in a halt.
   */
  method RunThroughCrashes(controller: CampaignController, provider: Provider, crashes: seq<nat>, ghost k: nat,
                           ghost s: Stage)
    returns (r: CampaignRun, ghost k': nat, ghost s': Stage)
    requires controller.At(provider, k, s)
    modifies controller, controller.ledger
    ensures controller.At(provider, k', s')
    ensures r.GenerationComplete? || r.SpendHalt?
    ensures old(controller.crashLog) <= controller.crashLog
            && |controller.crashLog| <= |old(controller.crashLog)| + |crashes|
    ensures r.SpendHalt? <==>
              (SomeAnswerFails(controller.plan, provider) || old(SpendIsLost(controller.State(), controller.plan))
               || CrashedInWindow(controller.crashLog, |old(controller.crashLog)|, controller.plan))
    ensures r.GenerationComplete? ==>
              && (k', s') == (|Ids(controller.plan)|, Fresh)
              && UsableUpTo(controller.plan, provider, |Ids(controller.plan)|)
              && r.barrier == BarrierOf(controller.plan, provider)
              && controller.progress
                   == Some(Progress("generation_complete", r.barrier.results, Some(r.barrier.sha)))
    ensures r.SpendHalt? ==>
              k' < |Ids(controller.plan)| && UsableUpTo(controller.plan, provider, k')
              && HaltIsReported(controller.plan, provider, k', controller.progress)
    ensures r.SpendHalt? ==>
              && s' == HaltWritten && k' < |Ids(controller.plan)|
              && (!Usable(controller.plan, provider(Ids(controller.plan)[k']))
                  || old(InWindow(controller.State(), controller.plan, Ids(controller.plan)[k']))
                  || exists j :: |old(controller.crashLog)| <= j < |controller.crashLog|
                                 && InWindow(controller.crashLog[j], controller.plan, Ids(controller.plan)[k']))
    ensures old(SpendIsLost(controller.State(), controller.plan)) ==>
              controller.ledger.events == old(controller.ledger.events) && controller.calls == old(controller.calls)
    ensures k == |Ids(controller.plan)| ==> controller.State() == old(controller.State())
  {
    hide Canonical, SpendIsLost, InWindow, Usable, HaltIsReported;
    k', s' := k, s;
    Bounds(controller.State(), controller.plan, provider, k, s);
    LostIsUnknown(controller.State(), controller.plan, provider, k, s);
    ghost var n := |controller.crashLog|;
    for j := 0 to |crashes|
      invariant controller.At(provider, k', s') && (Unknown(s') ==> k' < |Ids(controller.plan)|)
      invariant old(controller.crashLog) <= controller.crashLog && |controller.crashLog| == n + j
      invariant Unknown(s') ==>
                old(SpendIsLost(controller.State(), controller.plan))
                  || CrashedInWindow(controller.crashLog, n, controller.plan)
      invariant Unknown(s') ==>
                  || old(InWindow(controller.State(), controller.plan, Ids(controller.plan)[k']))
                  || exists i ::
                       n <= i < |controller.crashLog|
                       && InWindow(controller.crashLog[i], controller.plan, Ids(controller.plan)[k'])
      invariant Unknown(s) || CrashedInWindow(controller.crashLog, n, controller.plan) ==> Unknown(s')
      invariant Unknown(s) ==>
                  controller.ledger.events == old(controller.ledger.events)
                  && controller.calls == old(controller.calls)
      invariant k == |Ids(controller.plan)| ==> controller.State() == old(controller.State()) && k' == k
    {
      controller.crashAfter := Some(crashes[j]);
      ghost var before := controller.crashLog;
      r, k', s' := controller.Run(provider, k', s');
      if !r.Killed? { return; }
      LostIsUnknown(controller.State(), controller.plan, provider, k', s');
      assert controller.crashLog[|before|] == controller.State();
      assert forall i :: 0 <= i < |before| ==> controller.crashLog[i] == before[i];
    }
    controller.crashAfter := None;
    r, k', s' := controller.Run(provider, k', s');
  }

  // ---------------------------------------------------------------- crash-resume equivalence

  /** The part of a case state that does not depend on when its events were written. */
  datatype Outcome = Unspent | UnknownCost | Paid(response: Digest, cost: int)
    | Settled(response: Digest, cost: int, result: Digest)

  function OutcomeOf(s: CaseState): Outcome {
    match s
    case Available => Unspent
    case Reserved(_) => UnknownCost
    case Responded(_, response, cost) => Paid(response, cost)
    case Completed(_, response, cost, result) => Settled(response, cost, result)
  }

  /** What a finished campaign left: the files, the calls and the total. */
  lemma {:induction false} FinalWorld(w: World, p: Plan, provider: Provider)
    requires p.Valid() && Canonical(w, p, provider, |Ids(p)|, Fresh)
    ensures UsableUpTo(p, provider, |Ids(p)|)
    ensures w.responses == ResponsesUpTo(p, provider, |Ids(p)|) && w.results == ResultsUpTo(p, provider, |Ids(p)|)
    ensures w.calls == Ids(p)
    ensures var v := Verify(w.ledger, p.auth, p.claim);
            v.Ok? && v == Derive(w.ledger, p.auth) && v.value.total == SumCosts(EntriesOf(p, provider))
              && Complete(v.value)
  {
    assert Ids(p)[..|Ids(p)|] == Ids(p);
    assert LedgerAt(w.ledger, p, provider, |Ids(p)|, 0);
    hide FilesAt;
    CompleteTranscript(w.ledger, p.auth, EntriesOf(p, provider));
  }

  /** Case `i` is settled, with the response and the result that `provider` makes it have. */
  ghost predicate SettledAs(v: Result<Tally, Rejection>, p: Plan, provider: Provider, c: string)
    requires c in p.auth.requests && c in p.inputs && provider(c).Answer?
  {
    && v.Ok? && c in v.value.states && v.value.states[c].Completed?
    && OutcomeOf(v.value.states[c]) ==
         Settled(OfResponse(ResponseRecordOf(p, c, provider(c))), provider(c).cost,
                 OfResult(SuccessResult(p, provider, c)))
  }

  lemma {:induction false} FinalState(l: seq<Event>, p: Plan, provider: Provider, k: nat, i: nat)
    requires p.Valid() && LedgerAt(l, p, provider, k, 0) && i < k && i < |Ids(p)| && Usable(p, provider(Ids(p)[i]))
    ensures SettledAs(Verify(l, p.auth, p.claim), p, provider, Ids(p)[i])
  {
    hide LedgerAt, Verify;
    StateOfCase(l, p, provider, k, 0, i);
  }

  lemma {:induction false} FinalOutcome(w: World, p: Plan, provider: Provider, i: nat)
    requires p.Valid() && Canonical(w, p, provider, |Ids(p)|, Fresh) && i < |Ids(p)|
    ensures Usable(p, provider(Ids(p)[i]))
    ensures SettledAs(Verify(w.ledger, p.auth, p.claim), p, provider, Ids(p)[i])
    ensures Ids(p)[i] in w.results && w.results[Ids(p)[i]] == SuccessResult(p, provider, Ids(p)[i])
  {
    FinishedCaseFile(w, p, provider, |Ids(p)|, Fresh, i);
    FinalState(w.ledger, p, provider, |Ids(p)|, i);
  }

  /**
   Two campaigns that completed with the same provider, however often either was cut, agree on every
   case outcome, on the money, on every file and on the calls the provider received: each case once.
   */
  lemma {:induction false} CompletedCampaignsAgree(v: World, w: World, p: Plan, provider: Provider)
    requires p.Valid()
    requires Canonical(v, p, provider, |Ids(p)|, Fresh) && Canonical(w, p, provider, |Ids(p)|, Fresh)
    ensures v.responses == w.responses && v.results == w.results
    ensures v.calls == w.calls == Ids(p)
    ensures var t, u := Verify(v.ledger, p.auth, p.claim).value, Verify(w.ledger, p.auth, p.claim).value;
            && t.total == u.total
            && (forall i :: 0 <= i < |Ids(p)| ==>
                  var c := Ids(p)[i];
                  c in t.states && c in u.states && t.states[c].Completed?
                    && OutcomeOf(t.states[c]) == OutcomeOf(u.states[c]))
  {
    hide Canonical, Verify, Derive, EntriesOf;
    FinalWorld(v, p, provider);
    FinalWorld(w, p, provider);
    forall i | 0 <= i < |Ids(p)|
      ensures var t, u := Verify(v.ledger, p.auth, p.claim).value, Verify(w.ledger, p.auth, p.claim).value;
              var c := Ids(p)[i];
              c in t.states && c in u.states && t.states[c].Completed?
                && OutcomeOf(t.states[c]) == OutcomeOf(u.states[c])
    {
      FinalOutcome(v, p, provider, i);
      FinalOutcome(w, p, provider, i);
    }
  }

  // ---------------------------------------------------------------- write-ahead and the barrier

  /** A recorded response or result has its file: same digest, same cost. */
  ghost predicate Backed(v: Result<Tally, Rejection>, w: World, c: string) {
    && v.Ok? && c in v.value.states
    && (Priced(v.value.states[c]) ==>
          && c in w.responses && OfResponse(w.responses[c]) == v.value.states[c].response
          && w.responses[c].cost == v.value.states[c].cost)
    && (v.value.states[c].Completed? ==> c in w.results && OfResult(w.results[c]) == v.value.states[c].result)
  }

  /** Whatever the ledger says of a response or a result, the file that backs it is on disk. */
  lemma {:induction false} EventsAreBackedByFiles(w: World, p: Plan, provider: Provider, k: nat, s: Stage, i: nat)
    requires p.Valid() && Canonical(w, p, provider, k, s) && i < |Ids(p)|
    ensures Backed(Verify(w.ledger, p.auth, p.claim), w, Ids(p)[i])
  {
    if i < k {
      FinishedCaseFile(w, p, provider, k, s, i);
    } else if i == k {
      ResponseFile(w, p, provider, k, s);
    }
    StateIsBacked(w, p, provider, k, Events(s), i);
  }

  lemma {:induction false} StateIsBacked(w: World, p: Plan, provider: Provider, k: nat, e: nat, i: nat)
    requires p.Valid() && LedgerAt(w.ledger, p, provider, k, e) && i < |Ids(p)|
    requires var c := Ids(p)[i];
             i < k || (i == k && e == 2) ==>
               Usable(p, provider(c)) && c in w.responses && w.responses[c] == ResponseRecordOf(p, c, provider(c))
    requires var c := Ids(p)[i];
             i < k ==> c in w.results && w.results[c] == SuccessResult(p, provider, c)
    ensures Backed(Verify(w.ledger, p.auth, p.claim), w, Ids(p)[i])
  {
    hide LedgerAt, Verify;
    StateOfCase(w.ledger, p, provider, k, e, i);
  }

  lemma {:induction false} BarrierChecks(p: Plan, provider: Provider)
    requires p.Valid() && ShaBindings(p.auth.bindings) && UsableUpTo(p, provider, |Ids(p)|)
    ensures BarrierHolds(BarrierOf(p, provider), Ids(p))
    ensures forall i :: 0 <= i < |Ids(p)| ==>
              BarrierOf(p, provider).results[i] == (Ids(p)[i], OfResult(SuccessResult(p, provider, Ids(p)[i])))
  {
  }

  /** An issued barrier stands for a complete ledger and repeats its result digests, which are those of the files. */
  lemma {:induction false} BarrierIsSound(w: World, p: Plan, provider: Provider)
    requires p.Valid() && ShaBindings(p.auth.bindings)
    requires Canonical(w, p, provider, |Ids(p)|, Fresh)
    ensures UsableUpTo(p, provider, |Ids(p)|)
    ensures var t := Verify(w.ledger, p.auth, p.claim).value;
            var b := BarrierOf(p, provider);
            && Complete(t)
            && BarrierHolds(b, Ids(p))
            && forall i :: 0 <= i < |Ids(p)| ==>
                 var c := Ids(p)[i];
                 && c in t.states && t.states[c].Completed? && b.results[i] == (c, t.states[c].result)
                 && c in w.results && OfResult(w.results[c]) == b.results[i].1
  {
    hide Canonical, Verify, Derive, BarrierOf, BarrierHolds, ResultsUpTo, ResponsesUpTo, EntriesOf;
    FinalWorld(w, p, provider);
    BarrierChecks(p, provider);
    forall i | 0 <= i < |Ids(p)|
      ensures var t := Verify(w.ledger, p.auth, p.claim).value;
              var c := Ids(p)[i];
              && c in t.states && t.states[c].Completed?
                 && OfResult(SuccessResult(p, provider, c)) == t.states[c].result
              && c in w.results && w.results[c] == SuccessResult(p, provider, c)
    {
      FinalOutcome(w, p, provider, i);
    }
  }

  /** The ledger of a finished campaign is one the public inspector accepts, at the same total. */
  lemma {:induction false} FinishedCampaignIsPublishable(w: World, p: Plan, provider: Provider)
    requires p.Valid() && ShaBindings(p.auth.bindings)
    requires Canonical(w, p, provider, |Ids(p)|, Fresh)
    ensures Acceptable(w.ledger, Ids(p), p.auth.perCaseCap)
    ensures Verify(w.ledger, p.auth, p.claim).value.total == SumCosts(Entries(w.ledger, Ids(p), p.auth.perCaseCap))
  {
    FinalWorld(w, p, provider);
    assert LedgerAt(w.ledger, p, provider, |Ids(p)|, 0);
    hide FilesAt, StatesAre, Derive;
    CompleteTranscriptsAreAccepted(w.ledger, p.auth, p.claim, EntriesOf(p, provider));
  }
}

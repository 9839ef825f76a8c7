/** What an error-free ledger guarantees about attempts, calls, candidates, spend and blind review. */
module TraceGuarantees {
  import opened Wrappers
  import opened Trace
  import opened TraceFacts

  // ---------------------------------------------------------------- at most one of each

  /** Over all attempts of a case: one candidate, one model call, one counted finish. */
  lemma {:induction false} OneOfEachPerCase(x: Context, events: seq<Event>, i: nat, j: nat)
    requires Clean(x, events) && i < j < |events| && events[i].caseId == events[j].caseId
    ensures !(events[i].payload.CandidateSubmitted? && events[j].payload.CandidateSubmitted?)
    ensures !(events[i].payload.ModelCallStarted? && events[j].payload.ModelCallStarted?)
    ensures !(events[i].payload.AttemptFinished? && Terminal(x, events[i].payload.finish)
              && events[j].payload.AttemptFinished? && Terminal(x, events[j].payload.finish))
  {
    hide Faults, Run;
    var before := events[..j];
    CleanPrefix(x, events, j);
    assert before[i] == events[i];
    CleanRunReflects(x, before, i);
    StepAllowed(x, Run(x, before), events[j]);
  }

  /** After gold is unblinded an attempt can only finish, and after it finished nothing follows. */
  lemma {:induction false} NothingFollowsGold(x: Context, events: seq<Event>, i: nat, j: nat)
    requires Clean(x, events) && i < j < |events| && events[i].attemptId == events[j].attemptId
    ensures events[i].payload.GoldUnblinded? ==> events[j].payload.AttemptFinished?
    ensures !events[i].payload.AttemptFinished?
  {
    hide Faults, Run, Next, StartFaults, PayloadFaults;
    var before := events[..j];
    CleanPrefix(x, events, j);
    assert before[i] == events[i];
    CleanRunReflects(x, before, i);
    AdmittedShape(x, Run(x, before), events[j]);
  }

  // ---------------------------------------------------------------- one frozen campaign

  ghost predicate OneFreeze(s: State) {
    forall a :: a in s.attempts ==>
      s.freeze == Some(s.attempts[a].start.freeze) && s.batch == Some(s.attempts[a].batchId)
  }

  /** What the start of a scored attempt has to satisfy. */
  lemma {:induction false} StartRules(x: Context, s: State, e: Event, st: AttemptStart)
    requires StartFaults(x, s, e, st) == []
    ensures var ids := CaseOf(s, e.caseId).attemptIds;
            && OpeningFaults(s, CaseOf(s, e.caseId), st) == [] && CampaignFaults(x, st) == []
            && OrderFaults(e, st, CaseOf(s, e.caseId), s.attempts[e.attemptId := NewAttempt(e, st)]) == []
            && (x.lane.Scored? ==> BatchFaults(s, e.batchId, st.freeze) == [])
  {
    hide OpeningFaults, CampaignFaults, OrderFaults, BatchFaults;
  }

  lemma {:induction false} StepFreezes(x: Context, s: State, e: Event)
    requires x.lane.Scored? && Faults(x, s, e) == []
    ensures var s' := Next(x, s, e);
            && (s.freeze.Some? ==> s'.freeze == s.freeze) && (s.batch.Some? ==> s'.batch == s.batch)
            && (e.payload.AttemptStarted? ==> s'.freeze == Some(e.payload.start.freeze) && s'.batch == Some(e.batchId))
            && (!e.payload.AttemptStarted? ==> s'.freeze == s.freeze && s'.batch == s.batch)
  {
    AdmittedShape(x, s, e);
    if e.payload.AttemptStarted? { StartRules(x, s, e, e.payload.start); }
    hide Faults, Next, StartFaults, PayloadFaults, OpeningFaults, CampaignFaults, OrderFaults, AttemptAfter, CaseAfter;
  }

  lemma {:induction false} StepKeepsOneFreeze(x: Context, s: State, e: Event)
    requires x.lane.Scored? && OneFreeze(s) && Faults(x, s, e) == []
    ensures OneFreeze(Next(x, s, e))
  {
    StepFreezes(x, s, e);
    StepTouches(x, s, e);
    hide Faults, Next, AttemptAfter, CaseAfter;
    var s' := Next(x, s, e);
    forall a | a in s'.attempts
      ensures s'.freeze == Some(s'.attempts[a].start.freeze) && s'.batch == Some(s'.attempts[a].batchId)
    {
      if a in s.attempts {
        assert s.freeze == Some(s.attempts[a].start.freeze) && s.batch == Some(s.attempts[a].batchId);
      }
    }
  }

  lemma {:induction false} CleanRunHasOneFreeze(x: Context, events: seq<Event>)
    requires x.lane.Scored? && Clean(x, events)
    ensures OneFreeze(Run(x, events))
  {
    hide Faults, Next;
    if events != [] {
      CleanSplits(x, events);
      CleanRunHasOneFreeze(x, events[..|events| - 1]);
      StepKeepsOneFreeze(x, Run(x, events[..|events| - 1]), events[|events| - 1]);
    }
  }

  // ---------------------------------------------------------------- one chain of attempts

  predicate EndedInInfrastructureError(t: AttemptState) {
    && t.finished.Some? && t.finished.value.outcome.BenchmarkInfrastructureError?
    && t.phaseStarts.Keys == t.phaseFinishes.Keys
  }

  /** The k-th attempt of a case: a primary, or a retry of its immediate predecessor. */
  predicate Link(m: map<string, AttemptState>, ids: seq<string>, k: nat, c: string)
    requires k < |ids|
  {
    && ids[k] in m && m[ids[k]].caseId == c && m[ids[k]].start.ordinal == k + 1
    && (k == 0 ==> m[ids[k]].start.disposition.PrimaryScore? && m[ids[k]].start.retryOf.None?)
    && (k > 0 ==>
          && m[ids[k]].start.disposition.InfrastructureRetry? && m[ids[k]].start.retryOf == Some(ids[k - 1])
          && ids[k - 1] in m && EndedInInfrastructureError(m[ids[k - 1]]))
  }

  ghost predicate Chain(m: map<string, AttemptState>, ids: seq<string>, c: string) {
    forall k :: 0 <= k < |ids| ==> Link(m, ids, k, c)
  }

  ghost predicate Chained(s: State) {
    forall c :: c in s.cases ==> Chain(s.attempts, s.cases[c].attemptIds, c)
  }

  lemma {:induction false} ChainStays(m: map<string, AttemptState>, m': map<string, AttemptState>, ids: seq<string>,
                                      c: string)
    requires AttemptsGrow(m, m') && Chain(m, ids, c)
    ensures Chain(m', ids, c)
  {
    forall k | 0 <= k < |ids| ensures Link(m', ids, k, c) {
      assert Link(m, ids, k, c);
      assert AttemptGrows(m[ids[k]], m'[ids[k]]);
      if k > 0 { assert AttemptGrows(m[ids[k - 1]], m'[ids[k - 1]]); }
    }
  }

  lemma {:induction false} CountSeesPrimary(m: map<string, AttemptState>, ids: seq<string>)
    requires ids != [] && ids[0] in m && m[ids[0]].start.disposition.PrimaryScore?
    ensures CountDisposition(m, ids, PrimaryScore) >= 1
  {
    if |ids| > 1 { CountSeesPrimary(m, ids[..|ids| - 1]); }
  }

  lemma {:induction false} CountRetriesOfChain(m: map<string, AttemptState>, ids: seq<string>, c: string)
    requires ids != [] && Chain(m, ids, c)
    ensures CountDisposition(m, ids, InfrastructureRetry) == |ids| - 1
  {
    var n := |ids| - 1;
    assert Link(m, ids, n, c);
    if n > 0 {
      forall k | 0 <= k < n ensures Link(m, ids[..n], k, c) { assert Link(m, ids, k, c); }
      CountRetriesOfChain(m, ids[..n], c);
    }
  }

  lemma {:induction false} ChainExtends(m: map<string, AttemptState>, ids: seq<string>, c: string, a: string,
                                        t: AttemptState)
    requires Chain(m, ids, c) && a !in m && Link(m[a := t], ids + [a], |ids|, c)
    ensures Chain(m[a := t], ids + [a], c)
  {
    hide EndedInInfrastructureError;
    var m', all := m[a := t], ids + [a];
    forall k | 0 <= k < |all| ensures Link(m', all, k, c) {
      if k < |ids| { assert Link(m, ids, k, c); }
    }
  }

  lemma {:induction false} PrimaryIsFirst(m: map<string, AttemptState>, ids: seq<string>, c: string)
    requires Chain(m, ids, c) && CountDisposition(m, ids, PrimaryScore) == 0
    ensures ids == []
  {
    if ids != [] {
      assert Link(m, ids, 0, c);
      CountSeesPrimary(m, ids);
      assert false;
    }
  }

  lemma {:induction false} RetryLinks(e: Event, st: AttemptStart, c: CaseState, attempts: map<string, AttemptState>)
    requires RetryFaults(e, st, c, attempts) == []
    ensures c.attemptIds != [] && st.retryOf == Some(c.attemptIds[|c.attemptIds| - 1])
    ensures st.retryOf.value in attempts && EndedInInfrastructureError(attempts[st.retryOf.value])
  {
  }

  lemma {:induction false} OrderRules(e: Event, st: AttemptStart, c: CaseState, attempts: map<string, AttemptState>)
    requires OrderFaults(e, st, c, attempts) == []
    ensures st.ordinal == |c.attemptIds| + 1
    ensures if st.disposition.InfrastructureRetry? then RetryFaults(e, st, c, attempts) == [] else st.retryOf.None?
  {
    hide RetryFaults, CountDisposition;
  }

  /** The new attempt's own link: what opened it is checked against the chain it joins. */
  lemma {:induction false} NewLink(x: Context, s: State, e: Event, st: AttemptStart)
    requires x.lane.Scored? && StartFaults(x, s, e, st) == [] && e.attemptId !in s.attempts
    requires Chain(s.attempts, CaseOf(s, e.caseId).attemptIds, e.caseId)
    ensures var ids := CaseOf(s, e.caseId).attemptIds;
            Link(s.attempts[e.attemptId := NewAttempt(e, st)], ids + [e.attemptId], |ids|, e.caseId)
  {
    StartRules(x, s, e, st);
    hide StartFaults, BatchFaults, OrderFaults, RetryFaults, CountDisposition, AllFinished, Chain;
    var c, m := CaseOf(s, e.caseId), s.attempts[e.attemptId := NewAttempt(e, st)];
    OrderRules(e, st, c, m);
    if st.disposition.InfrastructureRetry? {
      RetryLinks(e, st, c, m);
      LastIsOld(s, e, c.attemptIds);
    } else {
      PrimaryIsFirst(s.attempts, c.attemptIds, e.caseId);
    }
    hide CaseOf, OpeningFaults, CampaignFaults;
  }

  lemma {:induction false} LastIsOld(s: State, e: Event, ids: seq<string>)
    requires Chain(s.attempts, ids, e.caseId) && ids != [] && e.attemptId !in s.attempts
    ensures ids[|ids| - 1] != e.attemptId
  {
    assert Link(s.attempts, ids, |ids| - 1, e.caseId);
  }

  /** A started attempt extends the chain of its case by one link. */
  lemma {:induction false} StartExtendsChain(x: Context, s: State, e: Event, st: AttemptStart)
    requires x.lane.Scored? && StartFaults(x, s, e, st) == [] && e.attemptId !in s.attempts
    requires Chain(s.attempts, CaseOf(s, e.caseId).attemptIds, e.caseId)
    ensures var m := s.attempts[e.attemptId := NewAttempt(e, st)];
            var ids := CaseOf(s, e.caseId).attemptIds + [e.attemptId];
            Chain(m, ids, e.caseId) && |ids| <= 1 + st.freeze.campaign.maxRetries
  {
    NewLink(x, s, e, st);
    StartRules(x, s, e, st);
    hide StartFaults, BatchFaults, OpeningFaults, CampaignFaults, RetryFaults, CountDisposition, CaseOf, NewAttempt,
         Link, Chain;
    var old_, t := CaseOf(s, e.caseId).attemptIds, NewAttempt(e, st);
    ChainExtends(s.attempts, old_, e.caseId, e.attemptId, t);
    CountRetriesOfChain(s.attempts[e.attemptId := t], old_ + [e.attemptId], e.caseId);
  }

  lemma {:induction false} StepExtendsIds(x: Context, s: State, e: Event)
    requires Faults(x, s, e) == []
    ensures var s' := Next(x, s, e);
            && e.caseId in s'.cases
            && s'.cases[e.caseId].attemptIds
                 == CaseOf(s, e.caseId).attemptIds + (if e.payload.AttemptStarted? then [e.attemptId] else [])
            && (forall c :: c in s'.cases && c != e.caseId ==> c in s.cases && s'.cases[c] == s.cases[c])
            && (e.payload.AttemptStarted? ==>
                  && StartFaults(x, s, e, e.payload.start) == [] && e.attemptId !in s.attempts
                  && s'.attempts == s.attempts[e.attemptId := NewAttempt(e, e.payload.start)])
  {
    AdmittedShape(x, s, e);
    StepTouches(x, s, e);
    hide Faults, Next, StartFaults, PayloadFaults, AttemptAfter;
  }

  lemma {:induction false} StepKeepsChains(x: Context, s: State, e: Event)
    requires x.lane.Scored? && CallsOwned(s) && Chained(s) && Faults(x, s, e) == []
    ensures Chained(Next(x, s, e))
  {
    StepExtendsIds(x, s, e);
    AttemptsStepGrow(x, s, e);
    assert Chain(s.attempts, CaseOf(s, e.caseId).attemptIds, e.caseId);
    hide Faults, Next, StartFaults, AttemptsGrow, Chain, CallsOwned;
    var s' := Next(x, s, e);
    forall c | c in s'.cases ensures Chain(s'.attempts, s'.cases[c].attemptIds, c) {
      if c == e.caseId && e.payload.AttemptStarted? {
        StartExtendsChain(x, s, e, e.payload.start);
      } else {
        ChainStays(s.attempts, s'.attempts, CaseOf(s, c).attemptIds, c);
      }
    }
  }

  lemma {:induction false} CleanRunIsChained(x: Context, events: seq<Event>)
    requires x.lane.Scored? && Clean(x, events)
    ensures Chained(Run(x, events))
  {
    hide Faults, Next;
    if events != [] {
      CleanSplits(x, events);
      CleanRunIsChained(x, events[..|events| - 1]);
      CleanRunOwnsCalls(x, events[..|events| - 1]);
      StepKeepsChains(x, Run(x, events[..|events| - 1]), events[|events| - 1]);
    }
  }

  /** The number of attempts of a case stays within the frozen retry cap. */
  ghost predicate RetriesCapped(s: State) {
    forall c :: c in s.cases && s.cases[c].attemptIds != [] ==>
      s.freeze.Some? && |s.cases[c].attemptIds| <= 1 + s.freeze.value.campaign.maxRetries
  }

  lemma {:induction false} StepCapsRetries(x: Context, s: State, e: Event)
    requires x.lane.Scored? && Chained(s) && RetriesCapped(s) && Faults(x, s, e) == []
    ensures RetriesCapped(Next(x, s, e))
  {
    StepExtendsIds(x, s, e);
    StepFreezes(x, s, e);
    assert Chain(s.attempts, CaseOf(s, e.caseId).attemptIds, e.caseId);
    hide Faults, Next, StartFaults, Chain, Chained;
    var s' := Next(x, s, e);
    forall c | c in s'.cases && s'.cases[c].attemptIds != []
      ensures s'.freeze.Some? && |s'.cases[c].attemptIds| <= 1 + s'.freeze.value.campaign.maxRetries
    {
      if c == e.caseId && e.payload.AttemptStarted? {
        StartExtendsChain(x, s, e, e.payload.start);
      } else {
        assert c in s.cases && s.cases[c].attemptIds == s'.cases[c].attemptIds;
      }
    }
  }

  lemma {:induction false} CleanRunCapsRetries(x: Context, events: seq<Event>)
    requires x.lane.Scored? && Clean(x, events)
    ensures RetriesCapped(Run(x, events))
  {
    hide Faults, Next, Chained;
    if events != [] {
      CleanSplits(x, events);
      CleanRunCapsRetries(x, events[..|events| - 1]);
      CleanRunIsChained(x, events[..|events| - 1]);
      StepCapsRetries(x, Run(x, events[..|events| - 1]), events[|events| - 1]);
    }
  }

  // ---------------------------------------------------------------- spend

  /** The scored amounts recorded for one case. */
  function SpendOf(events: seq<Event>, c: string): nat {
    if events == [] then 0
    else
      var e := events[|events| - 1];
      SpendOf(events[..|events| - 1], c)
        + (if e.caseId == c && e.payload.CostRecorded? then ScoredAmount(e.payload.cost) else 0)
  }

  lemma {:induction false} StepSpends(x: Context, s: State, e: Event, c: string)
    requires Faults(x, s, e) == []
    ensures CaseOf(Next(x, s, e), c).scoredCost
         == CaseOf(s, c).scoredCost
           + (if e.caseId == c && e.payload.CostRecorded? then ScoredAmount(e.payload.cost) else 0)
  {
    StepTouches(x, s, e);
    hide Faults, Next, AttemptAfter;
  }

  lemma {:induction false} CleanRunSpends(x: Context, events: seq<Event>, c: string)
    requires Clean(x, events)
    ensures CaseOf(Run(x, events), c).scoredCost == SpendOf(events, c)
  {
    hide Faults, Next;
    if events != [] {
      CleanSplits(x, events);
      CleanRunSpends(x, events[..|events| - 1], c);
      StepSpends(x, Run(x, events[..|events| - 1]), events[|events| - 1], c);
    }
  }

  function CaseCapOf(s: State): nat {
    if s.freeze.Some? then s.freeze.value.campaign.caseCap else 0
  }

  lemma {:induction false} StepStaysWithinCap(x: Context, s: State, e: Event, c: string)
    requires x.lane.Scored? && OneFreeze(s) && Faults(x, s, e) == [] && CaseOf(s, c).scoredCost <= CaseCapOf(s)
    ensures CaseOf(Next(x, s, e), c).scoredCost <= CaseCapOf(Next(x, s, e))
  {
    StepFreezes(x, s, e);
    StepSpends(x, s, e, c);
    AdmittedShape(x, s, e);
    hide Faults, Next, StartFaults, AfterStart, AfterPayload;
    if c == e.caseId && e.payload.CostRecorded? {
      assert s.freeze == Some(s.attempts[e.attemptId].start.freeze);
      FaultlessCost(s, e.attemptId, s.attempts[e.attemptId], CaseOf(s, c), e.payload.cost);
    }
  }

  lemma {:induction false} CleanRunStaysWithinCap(x: Context, events: seq<Event>, c: string)
    requires x.lane.Scored? && Clean(x, events)
    ensures CaseOf(Run(x, events), c).scoredCost <= CaseCapOf(Run(x, events))
  {
    hide Faults, Next, OneFreeze;
    if events != [] {
      CleanSplits(x, events);
      CleanRunStaysWithinCap(x, events[..|events| - 1], c);
      CleanRunHasOneFreeze(x, events[..|events| - 1]);
      StepStaysWithinCap(x, Run(x, events[..|events| - 1]), events[|events| - 1], c);
    }
  }

  /**
   What an error-free scored ledger says about a case: its attempts are one primary followed by retries,
   each linked to its immediate predecessor, every attempt but the last ended in an infrastructure error,
   the retries stay within the frozen cap and the scored amounts within the frozen case cap.
   */
  lemma {:induction false} ScoredCaseIsOneBoundedChain(x: Context, events: seq<Event>, c: string)
    requires x.lane.Scored? && Clean(x, events)
    ensures var s := Run(x, events);
            var ids := CaseOf(s, c).attemptIds;
            && Chain(s.attempts, ids, c)
            && (forall i :: 0 <= i < |events| && events[i].payload.AttemptStarted? && events[i].caseId == c ==>
                  events[i].attemptId in ids && s.freeze == Some(events[i].payload.start.freeze))
            && (ids != [] ==> s.freeze.Some? && |ids| <= 1 + s.freeze.value.campaign.maxRetries)
            && SpendOf(events, c) <= CaseCapOf(s)
  {
    hide Faults, Run, Next;
    CleanRunIsChained(x, events);
    CleanRunCapsRetries(x, events);
    CleanRunStaysWithinCap(x, events, c);
    CleanRunSpends(x, events, c);
    CleanRunHasOneFreeze(x, events);
    var s := Run(x, events);
    hide Chain;
    forall i | 0 <= i < |events| && events[i].payload.AttemptStarted? && events[i].caseId == c
      ensures events[i].attemptId in CaseOf(s, c).attemptIds && s.freeze == Some(events[i].payload.start.freeze)
    {
      CleanRunReflects(x, events, i);
    }
    assert Chain(s.attempts, [], c) by { EmptyChain(s.attempts, c); }
  }

  lemma {:induction false} EmptyChain(m: map<string, AttemptState>, c: string)
    ensures Chain(m, [], c)
  {
  }

  // ---------------------------------------------------------------- blind review

  /** The reviews recorded for one attempt. */
  function ReviewsOf(events: seq<Event>, a: string): seq<Review> {
    if events == [] then []
    else
      var e := events[|events| - 1];
      ReviewsOf(events[..|events| - 1], a)
        + (if e.attemptId == a && e.payload.ReviewRecorded? then [e.payload.review] else [])
  }

  function ReviewsIn(s: State, a: string): seq<Review> {
    if a in s.attempts then s.attempts[a].reviews else []
  }

  lemma {:induction false} StepReviews(x: Context, s: State, e: Event, a: string)
    requires Faults(x, s, e) == []
    ensures ReviewsIn(Next(x, s, e), a)
         == ReviewsIn(s, a) + (if e.attemptId == a && e.payload.ReviewRecorded? then [e.payload.review] else [])
  {
    StepTouches(x, s, e);
    if e.attemptId in s.attempts { AttemptReviews(e, s.attempts[e.attemptId]); }
    hide Faults, Next, AttemptAfter, TouchesOneCase, TouchesRegisters;
  }

  lemma {:induction false} AttemptReviews(e: Event, t: AttemptState)
    ensures AttemptAfter(e, t).reviews == t.reviews + (if e.payload.ReviewRecorded? then [e.payload.review] else [])
  {
  }

  lemma {:induction false} ReviewRules(x: Context, s: State, e: Event)
    requires Faults(x, s, e) == [] && e.payload.ReviewRecorded?
    ensures e.attemptId in s.attempts && ReviewFaults(s.attempts[e.attemptId], e.payload.review) == []
  {
    AdmittedShape(x, s, e);
    hide Faults, Next, ReviewFaults, AfterPayload;
  }

  lemma {:induction false} CleanRunReviews(x: Context, events: seq<Event>, a: string)
    requires Clean(x, events)
    ensures ReviewsIn(Run(x, events), a) == ReviewsOf(events, a)
  {
    hide Faults, Next;
    if events != [] {
      CleanSplits(x, events);
      CleanRunReviews(x, events[..|events| - 1], a);
      StepReviews(x, Run(x, events[..|events| - 1]), events[|events| - 1], a);
    }
  }

  /** Distinct reviewers; at most two primaries; a tie-break only after two primaries that disagree. */
  ghost predicate FairReviews(rs: seq<Review>) {
    && (forall i, j :: 0 <= i < j < |rs| ==> rs[i].reviewer != rs[j].reviewer)
    && |Primaries(rs)| <= 2
    && (forall i :: 0 <= i < |rs| && rs[i].role.TieBreak? ==> Disagree(Primaries(rs[..i])))
  }

  predicate Disagree(primaries: seq<Review>) {
    |primaries| == 2 && primaries[0].verdict != primaries[1].verdict
  }

  lemma {:induction false} ReviewStaysFair(t: AttemptState, r: Review)
    requires FairReviews(t.reviews) && ReviewFaults(t, r) == []
    ensures FairReviews(t.reviews + [r])
  {
    hide PhaseSucceeded;
    var rs := t.reviews + [r];
    assert rs[..|t.reviews|] == t.reviews;
    forall i | 0 <= i < |rs| && rs[i].role.TieBreak? ensures Disagree(Primaries(rs[..i])) {
      if i < |t.reviews| { assert rs[..i] == t.reviews[..i]; }
    }
  }

  lemma {:induction false} CleanReviewsAreFair(x: Context, events: seq<Event>, a: string)
    requires Clean(x, events)
    ensures FairReviews(ReviewsOf(events, a))
  {
    hide Faults, Next, ReviewFaults, FairReviews;
    if events == [] {
      NoReviewsAreFair();
    } else {
      var n := |events| - 1;
      CleanSplits(x, events);
      CleanReviewsAreFair(x, events[..n], a);
      if events[n].attemptId == a && events[n].payload.ReviewRecorded? {
        CleanRunReviews(x, events[..n], a);
        ReviewRules(x, Run(x, events[..n]), events[n]);
        ReviewStaysFair(Run(x, events[..n]).attempts[a], events[n].payload.review);
        assert ReviewsOf(events, a) == Run(x, events[..n]).attempts[a].reviews + [events[n].payload.review];
      } else {
        assert ReviewsOf(events, a) == ReviewsOf(events[..n], a);
      }
    }
  }

  lemma {:induction false} NoReviewsAreFair()
    ensures FairReviews([])
  {
  }

  /** Two agreeing primaries, or two disagreeing primaries and a tie-break that settles it. */
  predicate Decided(rs: seq<Review>, v: Verdict) {
    || (|rs| == 2 && rs[0].role.Primary? && rs[1].role.Primary? && rs[0].verdict == rs[1].verdict == v)
    || (|rs| == 3 && rs[0].role.Primary? && rs[1].role.Primary? && rs[0].verdict != rs[1].verdict
        && rs[2].role.TieBreak? && rs[2].verdict == v)
  }

  lemma {:induction false} TwoReviews(rs: seq<Review>)
    requires |rs| == 2
    ensures Primaries(rs) == (if rs[0].role.Primary? then [rs[0]] else [])
            + (if rs[1].role.Primary? then [rs[1]] else [])
    ensures forall v :: Votes(rs, v) == (if rs[0].verdict == v then 1 else 0) + (if rs[1].verdict == v then 1 else 0)
  {
    assert rs[..1][..0] == [] && Primaries([]) == [];
    assert Primaries(rs[..1]) == (if rs[0].role.Primary? then [rs[0]] else []);
    forall v ensures Votes(rs, v) == (if rs[0].verdict == v then 1 else 0) + (if rs[1].verdict == v then 1 else 0) {
      assert Votes(rs[..1], v) == (if rs[0].verdict == v then 1 else 0);
    }
  }

  /** A committed majority among fair reviews is a decision, and there is only one. */
  lemma {:induction false} MajorityDecides(rs: seq<Review>, v: Verdict)
    requires FairReviews(rs) && (|rs| == 2 || |rs| == 3)
    requires Votes(rs, Valid) >= 2 || Votes(rs, Invalid) >= 2
    ensures Votes(rs, v) >= 2 <==> Decided(rs, v)
    ensures Decided(rs, Valid) <==> !Decided(rs, Invalid)
  {
    if |rs| == 2 {
      TwoReviews(rs);
      assert rs[..0] == [] && |Primaries(rs[..0])| == 0;
      assert |Primaries(rs[..1])| <= 1 by { PrimariesAreFew(rs[..1]); }
    } else {
      var firsts := rs[..2];
      TwoReviews(firsts);
      assert firsts[..0] == rs[..0] == [] && firsts[..1] == rs[..1];
      assert |Primaries(rs[..1])| <= 1 by { PrimariesAreFew(rs[..1]); }
      assert |Primaries(rs[..0])| == 0;
      assert rs[0].role.Primary? && rs[1].role.Primary?;
      PrimariesUnfold(rs);
      assert rs[2].role.TieBreak?;
      assert forall w :: Votes(rs, w) == Votes(firsts, w) + (if rs[2].verdict == w then 1 else 0);
    }
  }

  lemma {:induction false} PrimariesUnfold(rs: seq<Review>)
    requires rs != []
    ensures |Primaries(rs)| == |Primaries(rs[..|rs| - 1])| + (if rs[|rs| - 1].role.Primary? then 1 else 0)
    ensures rs[|rs| - 1].role.TieBreak? ==> Primaries(rs) == Primaries(rs[..|rs| - 1])
  {
  }

  lemma {:induction false} PrimariesAreFew(rs: seq<Review>)
    ensures |Primaries(rs)| <= |rs|
  {
    if rs != [] { PrimariesAreFew(rs[..|rs| - 1]); }
  }

  lemma {:induction false} GoldRules(x: Context, s: State, e: Event)
    requires Faults(x, s, e) == [] && e.payload.GoldUnblinded?
    ensures var rs := ReviewsIn(s, e.attemptId);
            (|rs| == 2 || |rs| == 3) && (Votes(rs, Valid) >= 2 || Votes(rs, Invalid) >= 2)
            && e.payload.committed == rs[|rs| - 1].hash
  {
    AdmittedShape(x, s, e);
    hide Faults, Next, StartFaults, Votes;
  }

  lemma {:induction false} FinishRules(x: Context, s: State, e: Event)
    requires Faults(x, s, e) == [] && e.payload.AttemptFinished?
    ensures var f, rs := e.payload.finish, ReviewsIn(s, e.attemptId);
            && f.claim == ExpectedClaim(f.outcome) && f.plausible == IsVerdictClaim(f.claim)
            && e.attemptId in s.attempts
            && (IsVerdictClaim(f.claim) ==> s.attempts[e.attemptId].gold.Some?)
            && (f.outcome.SemanticValid? ==> Votes(rs, Valid) >= 2)
            && (f.outcome.PlausibleSemanticInvalid? ==> Votes(rs, Invalid) >= 2)
            && (x.lane.Scored? ==>
                  f.disposition == if f.outcome.BenchmarkInfrastructureError? then RetriableInfrastructure else Counted)
  {
    AdmittedShape(x, s, e);
    hide Faults, Next, StartFaults, Votes;
  }

  lemma {:induction false} StepKeepsGold(x: Context, s: State, e: Event, a: string)
    requires Faults(x, s, e) == [] && a in Next(x, s, e).attempts && Next(x, s, e).attempts[a].gold.Some?
    ensures (a in s.attempts && s.attempts[a].gold.Some?) || (e.attemptId == a && e.payload.GoldUnblinded?)
  {
    StepTouches(x, s, e);
    hide Faults, Next, CaseAfter, AttemptAfter, CaseOf;
  }

  /** Gold in the index was unblinded by an event. */
  lemma {:induction false} GoldHasEvent(x: Context, events: seq<Event>, a: string) returns (i: nat)
    requires Clean(x, events) && a in Run(x, events).attempts && Run(x, events).attempts[a].gold.Some?
    ensures i < |events| && events[i].attemptId == a && events[i].payload.GoldUnblinded?
  {
    hide Faults, Next;
    var n := |events| - 1;
    CleanSplits(x, events);
    StepKeepsGold(x, Run(x, events[..n]), events[n], a);
    if events[n].attemptId == a && events[n].payload.GoldUnblinded? {
      i := n;
    } else {
      i := GoldHasEvent(x, events[..n], a);
    }
  }

  lemma {:induction false} NoReviewsBetween(x: Context, events: seq<Event>, a: string, i: nat)
    requires i <= |events| && forall k :: i <= k < |events| && events[k].attemptId == a ==>
             !events[k].payload.ReviewRecorded?
    ensures ReviewsOf(events, a) == ReviewsOf(events[..i], a)
  {
    if i < |events| {
      NoReviewsBetween(x, events[..|events| - 1], a, i);
      assert events[..|events| - 1][..i] == events[..i];
    } else {
      assert events[..i] == events;
    }
  }

  /**
   Blind review decides the verdict. An L1 or L2 finish follows the unblinding of its attempt's gold; the
   reviews before the unblinding are all the reviews there are, by distinct reviewers: two agreeing
   primaries, or two disagreeing primaries and one tie-break. They decide one verdict, and the outcome is
   that verdict.
   */
  lemma {:induction false} BlindReviewDecides(x: Context, events: seq<Event>, j: nat) returns (i: nat)
    requires Clean(x, events) && j < |events|
    requires events[j].payload.AttemptFinished? && IsVerdictClaim(events[j].payload.finish.claim)
    ensures i < j && events[i].attemptId == events[j].attemptId && events[i].payload.GoldUnblinded?
    ensures var rs := ReviewsOf(events[..i], events[j].attemptId);
            && ReviewsOf(events, events[j].attemptId) == rs && FairReviews(rs)
            && (events[j].payload.finish.outcome.SemanticValid? <==> Decided(rs, Valid))
            && (events[j].payload.finish.outcome.PlausibleSemanticInvalid? <==> Decided(rs, Invalid))
            && (Decided(rs, Valid) <==> !Decided(rs, Invalid))
  {
    hide Faults, Next, Run, FairReviews, Decided, Votes;
    var a := events[j].attemptId;
    CleanPrefix(x, events, j);
    FinishRules(x, Run(x, events[..j]), events[j]);
    i := GoldHasEvent(x, events[..j], a);
    assert events[..j][i] == events[i] && events[..j][..i] == events[..i];
    CleanPrefix(x, events, i);
    GoldRules(x, Run(x, events[..i]), events[i]);
    CleanRunReviews(x, events[..i], a);
    CleanRunReviews(x, events[..j], a);
    CleanReviewsAreFair(x, events[..i], a);
    forall k | i < k < |events| && events[k].attemptId == a ensures !events[k].payload.ReviewRecorded? {
      NothingFollowsGold(x, events, i, k);
    }
    NoReviewsBetween(x, events, a, i);
    forall k | i <= k < j && events[..j][k].attemptId == a ensures !events[..j][k].payload.ReviewRecorded? {
      assert events[..j][k] == events[k];
    }
    NoReviewsBetween(x, events[..j], a, i);
    MajorityDecides(ReviewsOf(events[..i], a), Valid);
    MajorityDecides(ReviewsOf(events[..i], a), Invalid);
  }

  // ---------------------------------------------------------------- model cost without a call

  /**
   A model cost that cites no call is always an error, also the verified zero that the rule's own last
   branch means to allow for an attempt that never called the model.
   */
  lemma {:induction false} ModelCostWithoutCallIsAlwaysAFault(x: Context, s: State, e: Event)
    requires e.payload.CostRecorded? && e.payload.cost.category.ModelInference? && e.payload.cost.sourceCall.None?
    ensures Faults(x, s, e) != []
  {
    hide CaseOf;
    if e.attemptId in s.attempts {
      var t := s.attempts[e.attemptId];
      assert ModelCostFaults(s, e.attemptId, t, e.payload.cost) != [];
      assert PayloadFaults(x, s, e, t, CaseOf(s, e.caseId)) != [];
    }
  }
}

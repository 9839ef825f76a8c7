/** The validator's rules, one by one, against the law. */
module TraceLawProof {
  import opened Wrappers
  import opened Trace
  import opened TraceFacts
  import opened TraceGuarantees
  import opened TraceReducer
  import opened TraceAgreement
  import opened TraceTotals
  import opened TraceIndex
  import opened TraceLaw

  // ---------------------------------------------------------------- the index, as the law speaks of it

  lemma {:induction false} FinishedIff(x: Context, l: seq<Event>, a: string)
    requires Clean(x, l)
    ensures Finished(l, a) <==> a in Run(x, l).attempts && Run(x, l).attempts[a].finished.Some?
  {
    hide Clean, Run;
    var s := Run(x, l);
    if Finished(l, a) {
      var i :| 0 <= i < |l| && Ends(l[i], a);
      IndexIsItsEvents(x, l, Ended(a, l[i].payload.finish));
      assert Bears(x, l[i], Ended(a, l[i].payload.finish));
    }
    if a in s.attempts && s.attempts[a].finished.Some? {
      IndexIsItsEvents(x, l, Ended(a, s.attempts[a].finished.value));
      var i :| 0 <= i < |l| && Bears(x, l[i], Ended(a, s.attempts[a].finished.value));
      assert Ends(l[i], a);
    }
  }

  lemma {:induction false} FailedIff(x: Context, l: seq<Event>, a: string)
    requires Clean(x, l)
    ensures Failed(l, a) <==>
              && a in Run(x, l).attempts && Run(x, l).attempts[a].finished.Some?
              && Run(x, l).attempts[a].finished.value.outcome.BenchmarkInfrastructureError?
  {
    hide Clean, Run;
    var s := Run(x, l);
    if Failed(l, a) {
      var i :| 0 <= i < |l| && FailsForInfrastructure(l[i], a);
      IndexIsItsEvents(x, l, Ended(a, l[i].payload.finish));
      assert Bears(x, l[i], Ended(a, l[i].payload.finish));
    }
    if a in s.attempts && s.attempts[a].finished.Some?
       && s.attempts[a].finished.value.outcome.BenchmarkInfrastructureError? {
      IndexIsItsEvents(x, l, Ended(a, s.attempts[a].finished.value));
      var i :| 0 <= i < |l| && Bears(x, l[i], Ended(a, s.attempts[a].finished.value));
      assert FailsForInfrastructure(l[i], a);
    }
  }

  lemma {:induction false} BegunIff(x: Context, l: seq<Event>, a: string, key: PhaseKey)
    requires Clean(x, l)
    ensures Begun(l, a, key) <==> a in Run(x, l).attempts && key in Run(x, l).attempts[a].phaseStarts
  {
    hide Clean, Run;
    var s := Run(x, l);
    if Begun(l, a, key) {
      var i :| 0 <= i < |l| && Begins(l[i], a, key);
      IndexIsItsEvents(x, l, PhaseBegun(a, key, l[i].payload.startedAt));
      assert Bears(x, l[i], PhaseBegun(a, key, l[i].payload.startedAt));
    }
    if a in s.attempts && key in s.attempts[a].phaseStarts {
      IndexIsItsEvents(x, l, PhaseBegun(a, key, s.attempts[a].phaseStarts[key]));
      var i :| 0 <= i < |l| && Bears(x, l[i], PhaseBegun(a, key, s.attempts[a].phaseStarts[key]));
      assert Begins(l[i], a, key);
    }
  }

  lemma {:induction false} CompletedIff(x: Context, l: seq<Event>, a: string, key: PhaseKey)
    requires Clean(x, l)
    ensures Completed(l, a, key) <==> a in Run(x, l).attempts && key in Run(x, l).attempts[a].phaseFinishes
  {
    hide Clean, Run;
    var s := Run(x, l);
    if Completed(l, a, key) {
      var i :| 0 <= i < |l| && Completes(l[i], a, key);
      IndexIsItsEvents(x, l, PhaseEnded(a, key, l[i].payload.phaseFinish));
      assert Bears(x, l[i], PhaseEnded(a, key, l[i].payload.phaseFinish));
    }
    if a in s.attempts && key in s.attempts[a].phaseFinishes {
      IndexIsItsEvents(x, l, PhaseEnded(a, key, s.attempts[a].phaseFinishes[key]));
      var i :| 0 <= i < |l| && Bears(x, l[i], PhaseEnded(a, key, s.attempts[a].phaseFinishes[key]));
      assert Completes(l[i], a, key);
    }
  }

  lemma {:induction false} CalledIff(x: Context, l: seq<Event>, a: string, id: string)
    requires Clean(x, l)
    ensures Called(l, a, id) <==> id in Run(x, l).callOwner && Run(x, l).callOwner[id] == a
  {
    hide Clean, Run;
    var s := Run(x, l);
    if Called(l, a, id) {
      var i :| 0 <= i < |l| && Calls(l[i], a, id);
      IndexIsItsEvents(x, l, CallOwned(a, id));
      assert Bears(x, l[i], CallOwned(a, id));
    }
    if id in s.callOwner && s.callOwner[id] == a {
      IndexIsItsEvents(x, l, CallOwned(a, id));
      var i :| 0 <= i < |l| && Bears(x, l[i], CallOwned(a, id));
      assert Calls(l[i], a, id);
    }
  }

  lemma {:induction false} CallOverIff(x: Context, l: seq<Event>, a: string, id: string)
    requires Clean(x, l)
    ensures CallOver(l, a, id) <==> a in Run(x, l).attempts && id in Run(x, l).attempts[a].callFinishes
  {
    hide Clean, Run;
    var s := Run(x, l);
    if CallOver(l, a, id) {
      var i :| 0 <= i < |l| && EndsCall(l[i], a, id);
      IndexIsItsEvents(x, l, CallEnded(a, id, l[i].payload.callFinish));
      assert Bears(x, l[i], CallEnded(a, id, l[i].payload.callFinish));
    }
    if a in s.attempts && id in s.attempts[a].callFinishes {
      IndexIsItsEvents(x, l, CallEnded(a, id, s.attempts[a].callFinishes[id]));
      var i :| 0 <= i < |l| && Bears(x, l[i], CallEnded(a, id, s.attempts[a].callFinishes[id]));
      assert EndsCall(l[i], a, id);
    }
  }

  lemma {:induction false} CallCostedIff(x: Context, l: seq<Event>, a: string, id: string)
    requires Clean(x, l)
    ensures CallCosted(l, a, id) <==> a in Run(x, l).attempts && id in Run(x, l).attempts[a].callCosts
  {
    hide Clean, Run;
    var s := Run(x, l);
    if CallCosted(l, a, id) {
      var i :| 0 <= i < |l| && PricesCall(l[i], a, id);
      IndexIsItsEvents(x, l, CallPriced(a, id, l[i].payload.cost));
      assert Bears(x, l[i], CallPriced(a, id, l[i].payload.cost));
    }
    if a in s.attempts && id in s.attempts[a].callCosts {
      IndexIsItsEvents(x, l, CallPriced(a, id, s.attempts[a].callCosts[id]));
      var i :| 0 <= i < |l| && Bears(x, l[i], CallPriced(a, id, s.attempts[a].callCosts[id]));
      assert PricesCall(l[i], a, id);
    }
  }

  lemma {:induction false} GoldIff(x: Context, l: seq<Event>, a: string)
    requires Clean(x, l)
    ensures GoldIsOut(l, a) <==> a in Run(x, l).attempts && Run(x, l).attempts[a].gold.Some?
  {
    hide Clean, Run;
    var s := Run(x, l);
    if GoldIsOut(l, a) {
      var i :| 0 <= i < |l| && Unblinds(l[i], a);
      IndexIsItsEvents(x, l, Unblinded(a, l[i].payload.committed));
      assert Bears(x, l[i], Unblinded(a, l[i].payload.committed));
    }
    if a in s.attempts && s.attempts[a].gold.Some? {
      IndexIsItsEvents(x, l, Unblinded(a, s.attempts[a].gold.value));
      var i :| 0 <= i < |l| && Bears(x, l[i], Unblinded(a, s.attempts[a].gold.value));
      assert Unblinds(l[i], a);
    }
  }

  lemma {:induction false} CaseCandidateIff(x: Context, l: seq<Event>, c: string)
    requires Clean(x, l)
    ensures CaseHasCandidate(l, c) <==> CaseOf(Run(x, l), c).candidate.Some?
  {
    hide Clean, Run;
    var s := Run(x, l);
    if CaseHasCandidate(l, c) {
      var i :| 0 <= i < |l| && SubmitsIn(l[i], c);
      IndexIsItsEvents(x, l, CaseSubmitted(c));
      assert Bears(x, l[i], CaseSubmitted(c));
    }
    if CaseOf(s, c).candidate.Some? {
      IndexIsItsEvents(x, l, CaseSubmitted(c));
      var i :| 0 <= i < |l| && Bears(x, l[i], CaseSubmitted(c));
      assert SubmitsIn(l[i], c);
    }
  }

  lemma {:induction false} CountedIff(x: Context, l: seq<Event>, c: string)
    requires Clean(x, l)
    ensures CaseIsCounted(x, l, c) <==> CaseOf(Run(x, l), c).countedFinish.Some?
  {
    hide Clean, Run;
    var s := Run(x, l);
    if CaseIsCounted(x, l, c) {
      var i :| 0 <= i < |l| && CountsIn(x, l[i], c);
      IndexIsItsEvents(x, l, CaseCounted(c));
      assert Bears(x, l[i], CaseCounted(c));
    }
    if CaseOf(s, c).countedFinish.Some? {
      IndexIsItsEvents(x, l, CaseCounted(c));
      var i :| 0 <= i < |l| && Bears(x, l[i], CaseCounted(c));
      assert CountsIn(x, l[i], c);
    }
  }

  lemma {:induction false} EntryIff(x: Context, l: seq<Event>, id: string)
    requires Clean(x, l)
    ensures EntryIsUsed(l, id) <==> id in Run(x, l).entryIds
  {
    hide Clean, Run;
    var s := Run(x, l);
    if EntryIsUsed(l, id) {
      var i :| 0 <= i < |l| && UsesEntry(l[i], id);
      IndexIsItsEvents(x, l, EntryUsed(id));
      assert Bears(x, l[i], EntryUsed(id));
    }
    if id in s.entryIds {
      IndexIsItsEvents(x, l, EntryUsed(id));
      var i :| 0 <= i < |l| && Bears(x, l[i], EntryUsed(id));
      assert UsesEntry(l[i], id);
    }
  }

  lemma {:induction false} CandidateIff(x: Context, l: seq<Event>, a: string)
    requires Clean(x, l)
    ensures HasCandidate(l, a) <==> a in Run(x, l).attempts && Run(x, l).attempts[a].candidate.Some?
  {
    hide Clean, Run;
    var s := Run(x, l);
    if HasCandidate(l, a) {
      var i :| 0 <= i < |l| && Submits(l[i], a);
      IndexIsItsEvents(x, l, Submitted(a, Candidate(a, l[i].payload.patch)));
      assert Bears(x, l[i], Submitted(a, Candidate(a, l[i].payload.patch)));
    }
    if a in s.attempts && s.attempts[a].candidate.Some? {
      IndexIsItsEvents(x, l, Submitted(a, s.attempts[a].candidate.value));
      var i :| 0 <= i < |l| && Bears(x, l[i], Submitted(a, s.attempts[a].candidate.value));
      assert Submits(l[i], a);
    }
  }

  lemma {:induction false} SucceededIff(x: Context, l: seq<Event>, a: string, phase: Phase)
    requires Clean(x, l)
    ensures TraceLaw.Succeeded(l, a, phase) <==>
              a in Run(x, l).attempts && PhaseSucceeded(Run(x, l).attempts[a], phase)
  {
    hide Clean, Run;
    var s := Run(x, l);
    if TraceLaw.Succeeded(l, a, phase) {
      var i :| 0 <= i < |l| && Succeeds(l[i], a, phase);
      IndexIsItsEvents(x, l, PhaseEnded(a, l[i].payload.key, l[i].payload.phaseFinish));
      assert Bears(x, l[i], PhaseEnded(a, l[i].payload.key, l[i].payload.phaseFinish));
    }
    if a in s.attempts && PhaseSucceeded(s.attempts[a], phase) {
      var key :| key in s.attempts[a].phaseFinishes && key.phase == phase && s.attempts[a].phaseFinishes[key].succeeded;
      IndexIsItsEvents(x, l, PhaseEnded(a, key, s.attempts[a].phaseFinishes[key]));
      var i :| 0 <= i < |l| && Bears(x, l[i], PhaseEnded(a, key, s.attempts[a].phaseFinishes[key]));
      assert Succeeds(l[i], a, phase);
    }
  }

  /** An attempt is known exactly by its start, and by that start alone. */
  lemma {:induction false} StartIff(x: Context, l: seq<Event>, a: string)
    requires Clean(x, l)
    ensures (exists i :: 0 <= i < |l| && Starts(l[i], a)) <==> a in Run(x, l).attempts
    ensures forall i :: 0 <= i < |l| && Starts(l[i], a) ==>
              && Run(x, l).attempts[a].start == l[i].payload.start && Run(x, l).attempts[a].startedAt == l[i].recordedAt
              && Run(x, l).attempts[a].batchId == l[i].batchId && Run(x, l).attempts[a].caseId == l[i].caseId
  {
    hide Clean, Run;
    var s := Run(x, l);
    forall i | 0 <= i < |l| && Starts(l[i], a)
      ensures a in s.attempts
              && s.attempts[a].start == l[i].payload.start && s.attempts[a].startedAt == l[i].recordedAt
              && s.attempts[a].batchId == l[i].batchId && s.attempts[a].caseId == l[i].caseId
    {
      var m := Opened(a, l[i].batchId, l[i].caseId, l[i].recordedAt, l[i].payload.start);
      IndexIsItsEvents(x, l, m);
      assert Bears(x, l[i], m);
    }
    if a in s.attempts {
      var t := s.attempts[a];
      IndexIsItsEvents(x, l, Opened(a, t.batchId, t.caseId, t.startedAt, t.start));
      var i :| 0 <= i < |l| && Bears(x, l[i], Opened(a, t.batchId, t.caseId, t.startedAt, t.start));
      assert Starts(l[i], a);
    }
  }

  lemma {:induction false} InProgressIff(x: Context, l: seq<Event>, e: Event)
    requires Clean(x, l)
    ensures InProgress(l, e) <==>
              var s := Run(x, l);
              && e.attemptId in s.attempts && s.attempts[e.attemptId].batchId == e.batchId
              && s.attempts[e.attemptId].caseId == e.caseId && s.attempts[e.attemptId].finished.None?
              && (s.attempts[e.attemptId].gold.Some? ==> e.payload.AttemptFinished?)
  {
    hide Clean, Run, Finished, GoldIsOut;
    StartIff(x, l, e.attemptId);
    FinishedIff(x, l, e.attemptId);
    GoldIff(x, l, e.attemptId);
  }

  // ---------------------------------------------------------------- opening an attempt

  lemma {:induction false} AttemptsInCase(x: Context, l: seq<Event>, c: string)
    requires Clean(x, l)
    ensures CaseOf(Run(x, l), c).attemptIds == AttemptsIn(l, c)
  {
    hide Faults, Next;
    if l != [] {
      var n := |l| - 1;
      CleanSplits(x, l);
      AttemptsInCase(x, l[..n], c);
      CaseTouched(x, Run(x, l[..n]), l[n], c);
      hide CaseOf;
    }
  }

  lemma {:induction false} StartedIn(l: seq<Event>, c: string, a: string)
    ensures a in AttemptsIn(l, c) <==> exists i :: 0 <= i < |l| && StartsIn(l[i], c) && l[i].attemptId == a
  {
    if l != [] {
      var n := |l| - 1;
      StartedIn(l[..n], c, a);
      assert forall i :: 0 <= i < n ==> l[..n][i] == l[i];
    }
  }

  lemma {:induction false} CountSame(m: map<string, AttemptState>, m': map<string, AttemptState>, ids: seq<string>,
                                     d: Disposition)
    requires forall k :: 0 <= k < |ids| ==> ids[k] in m && ids[k] in m' && m'[ids[k]].start == m[ids[k]].start
    ensures CountDisposition(m', ids, d) == CountDisposition(m, ids, d)
  {
    if ids != [] { CountSame(m, m', ids[..|ids| - 1], d); }
  }

  lemma {:induction false} StartedAreKnown(x: Context, l: seq<Event>, c: string)
    requires Clean(x, l)
    ensures forall k :: 0 <= k < |AttemptsIn(l, c)| ==> AttemptsIn(l, c)[k] in Run(x, l).attempts
  {
    hide Clean, Run;
    forall k | 0 <= k < |AttemptsIn(l, c)| ensures AttemptsIn(l, c)[k] in Run(x, l).attempts {
      StartedIn(l, c, AttemptsIn(l, c)[k]);
      var i :| 0 <= i < |l| && StartsIn(l[i], c) && l[i].attemptId == AttemptsIn(l, c)[k];
      StartIff(x, l, l[i].attemptId);
      assert Starts(l[i], l[i].attemptId);
    }
  }

  lemma {:induction false} StartCounts(x: Context, l: seq<Event>, c: string, d: Disposition)
    requires Clean(x, l)
    ensures CountDisposition(Run(x, l).attempts, AttemptsIn(l, c), d) == StartCount(l, c, d)
  {
    hide Faults, Next;
    if l != [] {
      var n := |l| - 1;
      CleanSplits(x, l);
      StartCounts(x, l[..n], c, d);
      StartedAreKnown(x, l[..n], c);
      CleanRunOnlyGrows(x, l, n);
      var s, s', ids := Run(x, l[..n]), Run(x, l), AttemptsIn(l[..n], c);
      forall k | 0 <= k < |ids| ensures ids[k] in s'.attempts && s'.attempts[ids[k]].start == s.attempts[ids[k]].start {
        assert AttemptGrows(s.attempts[ids[k]], s'.attempts[ids[k]]);
      }
      hide Grows;
      CountSame(s.attempts, s'.attempts, ids, d);
      StartIff(x, l, l[n].attemptId);
      hide Run, Clean;
      if StartsIn(l[n], c) {
        assert Starts(l[n], l[n].attemptId);
        assert AttemptsIn(l, c) == ids + [l[n].attemptId];
        assert (ids + [l[n].attemptId])[..|ids|] == ids;
        assert l[n].attemptId in s'.attempts && s'.attempts[l[n].attemptId].start == l[n].payload.start;
      } else {
        assert AttemptsIn(l, c) == ids;
      }
    }
  }

  lemma {:induction false} AllFinishedIff(x: Context, l: seq<Event>, c: string)
    requires Clean(x, l)
    ensures AllFinished(Run(x, l).attempts, AttemptsIn(l, c)) <==>
              forall i :: 0 <= i < |l| && StartsIn(l[i], c) ==> Finished(l, l[i].attemptId)
  {
    hide Clean, Run, Finished;
    var s, ids := Run(x, l), AttemptsIn(l, c);
    if AllFinished(s.attempts, ids) {
      forall i | 0 <= i < |l| && StartsIn(l[i], c) ensures Finished(l, l[i].attemptId) {
        StartedIn(l, c, l[i].attemptId);
        FinishedIff(x, l, l[i].attemptId);
      }
    }
    if forall i :: 0 <= i < |l| && StartsIn(l[i], c) ==> Finished(l, l[i].attemptId) {
      forall k | 0 <= k < |ids| ensures ids[k] in s.attempts && s.attempts[ids[k]].finished.Some? {
        StartedIn(l, c, ids[k]);
        FinishedIff(x, l, ids[k]);
      }
    }
  }

  lemma {:induction false} OpeningIff(x: Context, l: seq<Event>, c: string, st: AttemptStart)
    requires Clean(x, l)
    ensures OpeningFaults(Run(x, l), CaseOf(Run(x, l), c), st) == [] <==>
              && !CaseIsCounted(x, l, c)
              && (forall i :: 0 <= i < |l| && StartsIn(l[i], c) ==> Finished(l, l[i].attemptId))
              && (st.disposition.PrimaryScore? ==> StartCount(l, c, PrimaryScore) == 0)
  {
    hide Clean, Run, Finished, CaseIsCounted, CaseOf, AllFinished;
    AttemptsInCase(x, l, c);
    CountedIff(x, l, c);
    StartCounts(x, l, c, PrimaryScore);
    AllFinishedIff(x, l, c);
    hide CountDisposition, StartCount;
  }

  lemma {:induction false} CampaignIff(x: Context, st: AttemptStart)
    ensures CampaignFaults(x, st) == [] <==> LawfulCampaign(x, st)
  {
  }

  lemma {:induction false} BatchIff(x: Context, l: seq<Event>, batchId: string, f: Freeze)
    requires x.lane.Scored? && Clean(x, l)
    ensures BatchFaults(Run(x, l), batchId, f) == [] <==>
              forall i :: 0 <= i < |l| && l[i].payload.AttemptStarted? ==>
                l[i].batchId == batchId && l[i].payload.start.freeze == f
  {
    FrozenByAStart(x, l);
    hide Clean, Run;
  }

  /** The batch and the freeze are those of every start, and none as long as nothing started. */
  lemma {:induction false} FrozenByAStart(x: Context, l: seq<Event>)
    requires x.lane.Scored? && Clean(x, l)
    ensures var s := Run(x, l);
            && (s.batch.Some? <==> exists i :: 0 <= i < |l| && l[i].payload.AttemptStarted?)
            && (s.freeze.Some? <==> exists i :: 0 <= i < |l| && l[i].payload.AttemptStarted?)
            && (forall i :: 0 <= i < |l| && l[i].payload.AttemptStarted? ==>
                  s.batch == Some(l[i].batchId) && s.freeze == Some(l[i].payload.start.freeze))
  {
    hide Faults, Next;
    if l != [] {
      var n := |l| - 1;
      CleanSplits(x, l);
      FrozenByAStart(x, l[..n]);
      assert forall i :: 0 <= i < n ==> l[..n][i] == l[i];
      StepFreezes(x, Run(x, l[..n]), l[n]);
    }
  }

  // ---------------------------------------------------------------- retries

  lemma {:induction false} CompletedWasBegun(x: Context, l: seq<Event>, a: string, key: PhaseKey)
    requires Clean(x, l) && Completed(l, a, key)
    ensures Begun(l, a, key)
  {
    hide Faults, Run;
    var i :| 0 <= i < |l| && Completes(l[i], a, key);
    CleanPrefix(x, l, i);
    StepAllowed(x, Run(x, l[..i]), l[i]);
    BegunIff(x, l[..i], a, key);
    var k :| 0 <= k < i && Begins(l[..i][k], a, key);
    assert l[k] == l[..i][k];
  }

  lemma {:induction false} PhasesIff(x: Context, l: seq<Event>, a: string)
    requires Clean(x, l) && a in Run(x, l).attempts
    ensures Run(x, l).attempts[a].phaseStarts.Keys == Run(x, l).attempts[a].phaseFinishes.Keys <==> PhasesAreOver(l, a)
  {
    hide Clean, Run, Begun, Completed;
    var t := Run(x, l).attempts[a];
    forall key ensures Begun(l, a, key) <==> key in t.phaseStarts
               ensures Completed(l, a, key) <==> key in t.phaseFinishes
               ensures Completed(l, a, key) ==> Begun(l, a, key)
    {
      BegunIff(x, l, a, key);
      CompletedIff(x, l, a, key);
      if Completed(l, a, key) { CompletedWasBegun(x, l, a, key); }
    }
    if PhasesAreOver(l, a) {
      assert forall key :: key in t.phaseStarts <==> key in t.phaseFinishes;
    } else {
      var key :| Begun(l, a, key) && !Completed(l, a, key);
      assert key in t.phaseStarts.Keys && key !in t.phaseFinishes.Keys;
    }
  }

  /** The rule that a retry reuses its case's candidate cannot be broken: there is only one. */
  lemma {:induction false} CandidateIsTheCases(x: Context, l: seq<Event>, a: string)
    requires Clean(x, l) && a in Run(x, l).attempts && Run(x, l).attempts[a].candidate.Some?
    ensures CaseOf(Run(x, l), Run(x, l).attempts[a].caseId).candidate == Run(x, l).attempts[a].candidate
  {
    hide Faults, Run;
    CandidateIff(x, l, a);
    var i :| 0 <= i < |l| && Submits(l[i], a);
    CleanRunReflects(x, l, i);
  }

  lemma {:induction false} LastOfCase(x: Context, l: seq<Event>, c: string)
    requires Clean(x, l) && AttemptsIn(l, c) != []
    ensures var a := AttemptsIn(l, c)[|AttemptsIn(l, c)| - 1];
            a in Run(x, l).attempts && Run(x, l).attempts[a].caseId == c
  {
    hide Clean, Run;
    var a := AttemptsIn(l, c)[|AttemptsIn(l, c)| - 1];
    StartedIn(l, c, a);
    var i :| 0 <= i < |l| && StartsIn(l[i], c) && l[i].attemptId == a;
    StartIff(x, l, a);
    assert Starts(l[i], a);
  }

  lemma {:induction false} RetryMeans(e: Event, st: AttemptStart, c: CaseState, m: map<string, AttemptState>)
    ensures RetryFaults(e, st, c, m) == [] <==>
              && c.attemptIds != [] && st.retryOf == Some(c.attemptIds[|c.attemptIds| - 1])
              && st.retryOf.value in m && m[st.retryOf.value].caseId == e.caseId
              && m[st.retryOf.value].finished.Some?
              && m[st.retryOf.value].finished.value.outcome.BenchmarkInfrastructureError?
              && m[st.retryOf.value].phaseStarts.Keys == m[st.retryOf.value].phaseFinishes.Keys
              && (m[st.retryOf.value].candidate.None? || c.candidate == m[st.retryOf.value].candidate)
  {
  }

  lemma {:induction false} RetryIff(x: Context, l: seq<Event>, e: Event, st: AttemptStart)
    requires Clean(x, l) && e.attemptId !in Run(x, l).attempts
    ensures RetryFaults(e, st, CaseOf(Run(x, l), e.caseId), Run(x, l).attempts[e.attemptId := NewAttempt(e, st)]) == []
            <==> LawfulRetry(l, e, st)
  {
    hide Clean, Run, Failed, PhasesAreOver, CaseOf, RetryFaults, NewAttempt;
    var s, c := Run(x, l), CaseOf(Run(x, l), e.caseId);
    AttemptsInCase(x, l, e.caseId);
    RetryMeans(e, st, c, s.attempts[e.attemptId := NewAttempt(e, st)]);
    if c.attemptIds != [] {
      var a := c.attemptIds[|c.attemptIds| - 1];
      LastOfCase(x, l, e.caseId);
      FailedIff(x, l, a);
      PhasesIff(x, l, a);
      if s.attempts[a].candidate.Some? { CandidateIsTheCases(x, l, a); }
    }
  }

  lemma {:induction false} CountWithNew(m: map<string, AttemptState>, ids: seq<string>, a: string, t: AttemptState,
                                        d: Disposition)
    requires a !in m && forall k :: 0 <= k < |ids| ==> ids[k] in m
    ensures CountDisposition(m[a := t], ids + [a], d)
            == CountDisposition(m, ids, d) + (if t.start.disposition == d then 1 else 0)
  {
    CountSame(m, m[a := t], ids, d);
    assert (ids + [a])[..|ids|] == ids;
  }

  lemma {:induction false} OrderMeans(e: Event, st: AttemptStart, c: CaseState, m: map<string, AttemptState>)
    ensures OrderFaults(e, st, c, m) == [] <==>
              && st.ordinal == |c.attemptIds| + 1
              && (if st.disposition.InfrastructureRetry? then RetryFaults(e, st, c, m) == [] else st.retryOf.None?)
              && CountDisposition(m, c.attemptIds + [e.attemptId], InfrastructureRetry) <= st.freeze.campaign.maxRetries
  {
    hide RetryFaults, CountDisposition;
  }

  lemma {:induction false} OrderIff(x: Context, l: seq<Event>, e: Event, st: AttemptStart)
    requires Clean(x, l) && e.attemptId !in Run(x, l).attempts
    ensures OrderFaults(e, st, CaseOf(Run(x, l), e.caseId), Run(x, l).attempts[e.attemptId := NewAttempt(e, st)]) == []
            <==>
              && st.ordinal == |AttemptsIn(l, e.caseId)| + 1
              && (if st.disposition.InfrastructureRetry? then LawfulRetry(l, e, st) else st.retryOf.None?)
              && StartCount(l, e.caseId, InfrastructureRetry) + (if st.disposition.InfrastructureRetry? then 1 else 0)
                   <= st.freeze.campaign.maxRetries
  {
    hide Clean, Run, CaseOf, RetryFaults, LawfulRetry, OrderFaults, CountDisposition, StartCount;
    var s, c, t := Run(x, l), CaseOf(Run(x, l), e.caseId), NewAttempt(e, st);
    AttemptsInCase(x, l, e.caseId);
    OrderMeans(e, st, c, s.attempts[e.attemptId := t]);
    RetryIff(x, l, e, st);
    StartedAreKnown(x, l, e.caseId);
    CountWithNew(s.attempts, c.attemptIds, e.attemptId, t, InfrastructureRetry);
    StartCounts(x, l, e.caseId, InfrastructureRetry);
  }

  lemma {:induction false} StartMeans(x: Context, s: State, e: Event, st: AttemptStart)
    ensures StartFaults(x, s, e, st) == [] <==>
              && OpeningFaults(s, CaseOf(s, e.caseId), st) == [] && CampaignFaults(x, st) == []
              && OrderFaults(e, st, CaseOf(s, e.caseId), s.attempts[e.attemptId := NewAttempt(e, st)]) == []
              && (x.lane.Scored? ==> BatchFaults(s, e.batchId, st.freeze) == [])
  {
    hide OpeningFaults, CampaignFaults, OrderFaults, BatchFaults;
  }

  lemma {:induction false} StartIsLawful(x: Context, l: seq<Event>, e: Event, st: AttemptStart)
    requires Clean(x, l)
    ensures e.attemptId !in Run(x, l).attempts && StartFaults(x, Run(x, l), e, st) == [] <==> LawfulStart(x, l, e, st)
  {
    hide Clean, Run, StartFaults, OpeningFaults, CampaignFaults, OrderFaults, BatchFaults, LawfulCampaign, LawfulRetry;
    hide CaseIsCounted, Finished, AttemptsIn, StartCount, CaseOf, NewAttempt;
    StartIff(x, l, e.attemptId);
    StartMeans(x, Run(x, l), e, st);
    OpeningIff(x, l, e.caseId, st);
    CampaignIff(x, st);
    if e.attemptId !in Run(x, l).attempts { OrderIff(x, l, e, st); }
    if x.lane.Scored? { BatchIff(x, l, e.batchId, st.freeze); }
  }

  // ---------------------------------------------------------------- phases and calls

  lemma {:induction false} IntervalIff(i: Interval)
    ensures IntervalFaults(i) == [] <==> LawfulInterval(i)
  {
  }

  lemma {:induction false} BegunAtIff(x: Context, l: seq<Event>, a: string, key: PhaseKey, at: int)
    requires Clean(x, l)
    ensures (exists i :: 0 <= i < |l| && Begins(l[i], a, key) && l[i].payload.startedAt == at)
            <==> a in Run(x, l).attempts && key in Run(x, l).attempts[a].phaseStarts
                 && Run(x, l).attempts[a].phaseStarts[key] == at
  {
    hide Clean, Run;
    IndexIsItsEvents(x, l, PhaseBegun(a, key, at));
    if i :| 0 <= i < |l| && Begins(l[i], a, key) && l[i].payload.startedAt == at {
      assert Bears(x, l[i], PhaseBegun(a, key, at));
    }
    if i :| 0 <= i < |l| && Bears(x, l[i], PhaseBegun(a, key, at)) {
      assert Begins(l[i], a, key) && l[i].payload.startedAt == at;
    }
  }

  lemma {:induction false} PhaseIsLawful(x: Context, l: seq<Event>, a: string, key: PhaseKey, f: PhaseFinish)
    requires Clean(x, l) && a in Run(x, l).attempts
    ensures PhaseFaults(Run(x, l).attempts[a], key, f) == [] <==>
              && (exists i :: 0 <= i < |l| && Begins(l[i], a, key) && l[i].payload.startedAt == f.interval.startedAt)
              && !Completed(l, a, key) && LawfulInterval(f.interval)
  {
    hide Clean, Run, Completed, IntervalFaults, LawfulInterval, Begins;
    BegunAtIff(x, l, a, key, f.interval.startedAt);
    CompletedIff(x, l, a, key);
    IntervalIff(f.interval);
  }

  lemma {:induction false} SettledIff(x: Context, l: seq<Event>, a: string, p: string)
    requires Clean(x, l) && a in Run(x, l).attempts
    ensures CallIsSettled(Run(x, l).attempts[a], p) <==> Settled(l, a, p)
  {
    hide Clean, Run, CallOver;
    CallOverIff(x, l, a, p);
    var t := Run(x, l).attempts[a];
    if i :| 0 <= i < |l| && SettlesCall(l[i], a, p) {
      IndexIsItsEvents(x, l, CallPriced(a, p, l[i].payload.cost));
      assert Bears(x, l[i], CallPriced(a, p, l[i].payload.cost));
    }
    if p in t.callCosts {
      IndexIsItsEvents(x, l, CallPriced(a, p, t.callCosts[p]));
      var i :| 0 <= i < |l| && Bears(x, l[i], CallPriced(a, p, t.callCosts[p]));
      assert t.callCosts[p].status.Measured? || t.callCosts[p].status.ZeroVerified? ==> SettlesCall(l[i], a, p);
    }
  }

  lemma {:induction false} CallStartsAre(x: Context, l: seq<Event>, a: string, p: string)
    requires Clean(x, l)
    ensures a in Run(x, l).attempts && p in Run(x, l).attempts[a].callStarts <==> Called(l, a, p)
  {
    CleanRunOwnsCalls(x, l);
    CalledIff(x, l, a, p);
    hide Clean, Run, Called;
    var s := Run(x, l);
    if a in s.attempts { assert AttemptCallsOwned(s.callOwner, a, s.attempts[a]); }
  }

  lemma {:induction false} UnresolvedIff(x: Context, l: seq<Event>)
    requires Clean(x, l)
    ensures UnresolvedCalls(Run(x, l).attempts) == {} <==>
              forall i :: 0 <= i < |l| && l[i].payload.ModelCallStarted? ==>
                Settled(l, l[i].attemptId, l[i].payload.call.callId)
  {
    hide Clean, Run, Settled, CallIsSettled;
    var m := Run(x, l).attempts;
    if UnresolvedCalls(m) == {} {
      forall i | 0 <= i < |l| && l[i].payload.ModelCallStarted?
        ensures Settled(l, l[i].attemptId, l[i].payload.call.callId)
      {
        var a, p := l[i].attemptId, l[i].payload.call.callId;
        assert Calls(l[i], a, p);
        CallStartsAre(x, l, a, p);
        SettledIff(x, l, a, p);
        assert (a, p) !in UnresolvedCalls(m);
      }
    } else {
      var pair :| pair in UnresolvedCalls(m);
      CallStartsAre(x, l, pair.0, pair.1);
      var i :| 0 <= i < |l| && Calls(l[i], pair.0, pair.1);
      SettledIff(x, l, pair.0, pair.1);
    }
  }

  lemma {:induction false} CallIsNewIff(x: Context, l: seq<Event>, p: string)
    requires Clean(x, l)
    ensures p !in Run(x, l).callOwner <==>
              forall i :: 0 <= i < |l| && l[i].payload.ModelCallStarted? ==> l[i].payload.call.callId != p
  {
    hide Clean, Run;
    var s := Run(x, l);
    if p in s.callOwner {
      CalledIff(x, l, s.callOwner[p], p);
      var i :| 0 <= i < |l| && Calls(l[i], s.callOwner[p], p);
      assert l[i].payload.call.callId == p;
    } else {
      forall i | 0 <= i < |l| && l[i].payload.ModelCallStarted? ensures l[i].payload.call.callId != p {
        CalledIff(x, l, l[i].attemptId, p);
        assert !Calls(l[i], l[i].attemptId, p);
      }
    }
  }

  lemma {:induction false} CaseCallIff(x: Context, l: seq<Event>, c: string)
    requires Clean(x, l)
    ensures CaseOf(Run(x, l), c).callIds == [] <==>
              forall i :: 0 <= i < |l| && l[i].payload.ModelCallStarted? ==> l[i].caseId != c
  {
    hide Clean, Run, CaseOf;
    IndexIsItsEvents(x, l, CaseCalled(c));
    if i :| 0 <= i < |l| && l[i].payload.ModelCallStarted? && l[i].caseId == c {
      assert Bears(x, l[i], CaseCalled(c));
    }
    if i :| 0 <= i < |l| && Bears(x, l[i], CaseCalled(c)) {
      assert l[i].payload.ModelCallStarted? && l[i].caseId == c;
    }
  }

  lemma {:induction false} ReservationIff(f: Freeze, call: CallStart)
    ensures ReservationFaults(f, call) == [] <==> LawfulReservation(f, call)
  {
  }

  lemma {:induction false} CallMeans(s: State, t: AttemptState, c: CaseState, call: CallStart)
    ensures CallFaults(s, t, c, call) == [] <==>
              && UnresolvedCalls(s.attempts) == {} && call.callId !in s.callOwner && c.callIds == []
              && ReservationFaults(t.start.freeze, call) == []
  {
    hide UnresolvedCalls, ReservationFaults;
    assert |UnresolvedCalls(s.attempts)| == 0 <==> UnresolvedCalls(s.attempts) == {};
  }

  lemma {:induction false} CallIsLawful(x: Context, l: seq<Event>, e: Event, call: CallStart)
    requires Clean(x, l) && e.attemptId in Run(x, l).attempts
    ensures CallFaults(Run(x, l), Run(x, l).attempts[e.attemptId], CaseOf(Run(x, l), e.caseId), call) == []
            <==> LawfulCall(l, e, call)
  {
    hide Clean, Run, Settled, UnresolvedCalls, CaseOf, ReservationFaults, LawfulReservation, CallFaults;
    var s := Run(x, l);
    StartIff(x, l, e.attemptId);
    CallMeans(s, s.attempts[e.attemptId], CaseOf(s, e.caseId), call);
    UnresolvedIff(x, l);
    CallIsNewIff(x, l, call.callId);
    CaseCallIff(x, l, e.caseId);
    ReservationIff(s.attempts[e.attemptId].start.freeze, call);
  }

  lemma {:induction false} UsageIff(u: Usage)
    ensures UsageFaults(u) == [] <==> LawfulUsage(u)
  {
  }

  lemma {:induction false} CallEndIsLawful(x: Context, l: seq<Event>, e: Event, id: string, f: CallFinish)
    requires Clean(x, l) && e.attemptId in Run(x, l).attempts && e.payload == ModelCallFinished(id, f)
    ensures var s := Run(x, l);
            PayloadFaults(x, s, e, s.attempts[e.attemptId], CaseOf(s, e.caseId)) == [] <==>
              && Called(l, e.attemptId, id) && !CallOver(l, e.attemptId, id)
              && LawfulInterval(f.interval) && LawfulUsage(f.usage)
  {
    hide Clean, Run, Called, CallOver, IntervalFaults, UsageFaults, LawfulInterval, LawfulUsage, CaseOf;
    CalledIff(x, l, e.attemptId, id);
    CallOverIff(x, l, e.attemptId, id);
    IntervalIff(f.interval);
    UsageIff(f.usage);
  }

  // ---------------------------------------------------------------- costs

  lemma {:induction false} AmountIff(c: Cost)
    ensures AmountFaults(c) == [] && PriceFaults(c) == [] <==> LawfulAmount(c)
  {
  }

  lemma {:induction false} ModelCostMeans(s: State, a: string, t: AttemptState, c: Cost)
    ensures ModelCostFaults(s, a, t, c) == [] <==>
              && c.attribution.CampaignScored? && c.sourceCall.Some?
              && c.sourceCall.value in s.callOwner && s.callOwner[c.sourceCall.value] == a
              && c.sourceCall.value in t.callFinishes && c.sourceCall.value !in t.callCosts
              && (c.sourceCall.value in t.callStarts && c.amount.Some? ==>
                    c.amount.value <= t.callStarts[c.sourceCall.value].reserved)
              && MatchesUsage(c, t.callFinishes[c.sourceCall.value].usage)
  {
  }

  lemma {:induction false} CallsSayTheSame(x: Context, l: seq<Event>, a: string, p: string)
    requires Clean(x, l) && a in Run(x, l).attempts
    ensures forall i :: 0 <= i < |l| && Calls(l[i], a, p) ==>
              p in Run(x, l).attempts[a].callStarts && Run(x, l).attempts[a].callStarts[p] == l[i].payload.call
    ensures forall i :: 0 <= i < |l| && EndsCall(l[i], a, p) ==>
              p in Run(x, l).attempts[a].callFinishes
                && Run(x, l).attempts[a].callFinishes[p] == l[i].payload.callFinish
  {
    hide Clean, Run;
    var t := Run(x, l).attempts[a];
    forall i | 0 <= i < |l| && Calls(l[i], a, p) ensures p in t.callStarts && t.callStarts[p] == l[i].payload.call {
      IndexIsItsEvents(x, l, CallBegun(a, l[i].payload.call));
      assert Bears(x, l[i], CallBegun(a, l[i].payload.call));
    }
    forall i | 0 <= i < |l| && EndsCall(l[i], a, p)
      ensures p in t.callFinishes && t.callFinishes[p] == l[i].payload.callFinish
    {
      IndexIsItsEvents(x, l, CallEnded(a, p, l[i].payload.callFinish));
      assert Bears(x, l[i], CallEnded(a, p, l[i].payload.callFinish));
    }
  }

  lemma {:induction false} ModelCostIff(x: Context, l: seq<Event>, a: string, c: Cost)
    requires Clean(x, l) && a in Run(x, l).attempts
    ensures ModelCostFaults(Run(x, l), a, Run(x, l).attempts[a], c) == [] <==> LawfulModelCost(l, a, c)
  {
    hide Clean, Run, Calls, EndsCall, MatchesUsage, ModelCostFaults, CallCosted;
    var s := Run(x, l);
    ModelCostMeans(s, a, s.attempts[a], c);
    if c.sourceCall.Some? {
      var p := c.sourceCall.value;
      CalledIff(x, l, a, p);
      CallStartsAre(x, l, a, p);
      CallOverIff(x, l, a, p);
      CallCostedIff(x, l, a, p);
      CallsSayTheSame(x, l, a, p);
    }
  }

  lemma {:induction false} CostMeans(s: State, a: string, t: AttemptState, case_: CaseState, c: Cost)
    ensures CostFaults(s, a, t, case_, c) == [] <==>
              && c.entryId !in s.entryIds && AmountFaults(c) == [] && PriceFaults(c) == []
              && (c.category.ModelInference? ==> ModelCostFaults(s, a, t, c) == [])
              && (!c.category.ModelInference? ==> c.sourceCall.None?)
              && (c.attribution.CampaignScored? && c.amount.Some? ==>
                    case_.scoredCost + c.amount.value <= t.start.freeze.campaign.caseCap)
  {
    hide AmountFaults, PriceFaults, ModelCostFaults;
  }

  lemma {:induction false} CostIsLawful(x: Context, l: seq<Event>, e: Event, c: Cost)
    requires Clean(x, l) && e.attemptId in Run(x, l).attempts
    ensures CostFaults(Run(x, l), e.attemptId, Run(x, l).attempts[e.attemptId], CaseOf(Run(x, l), e.caseId), c) == []
            <==> LawfulCost(l, e, c)
  {
    hide Clean, Run, EntryIsUsed, CaseOf, AmountFaults, PriceFaults, ModelCostFaults, LawfulAmount, LawfulModelCost;
    hide CostFaults, SpendOf;
    var s := Run(x, l);
    StartIff(x, l, e.attemptId);
    CostMeans(s, e.attemptId, s.attempts[e.attemptId], CaseOf(s, e.caseId), c);
    EntryIff(x, l, c.entryId);
    AmountIff(c);
    ModelCostIff(x, l, e.attemptId, c);
    CleanRunSpends(x, l, e.caseId);
  }

  // ---------------------------------------------------------------- candidates

  lemma {:induction false} SucceededCallIff(x: Context, l: seq<Event>, a: string, p: string)
    requires Clean(x, l) && a in Run(x, l).attempts
    ensures CallSucceeded(l, a, p) <==>
              p in Run(x, l).attempts[a].callFinishes && Run(x, l).attempts[a].callFinishes[p].succeeded
  {
    hide Clean, Run;
    CallsSayTheSame(x, l, a, p);
    CallOverIff(x, l, a, p);
    hide EndsCall;
  }

  lemma {:induction false} OneCandidate(x: Context, l: seq<Event>, a: string)
    requires Clean(x, l) && a in Run(x, l).attempts && Run(x, l).attempts[a].candidate.Some?
    ensures CaseOf(Run(x, l), Run(x, l).attempts[a].caseId).candidate.Some?
  {
    CandidateIsTheCases(x, l, a);
    hide Clean, Run, CaseOf;
  }

  lemma {:induction false} CandidateMeans(t: AttemptState, c: CaseState, callIds: seq<string>)
    ensures CandidateFaults(t, c, callIds) == [] <==>
              && t.candidate.None? && c.candidate.None?
              && (forall n :: 0 <= n < |callIds| ==>
                    callIds[n] in t.callFinishes && t.callFinishes[callIds[n]].succeeded)
              && (IsRealScored(t.start.freeze) ==> |callIds| == 1)
  {
    var own := forall i | 0 <= i < |callIds| :: callIds[i] in t.callFinishes && t.callFinishes[callIds[i]].succeeded;
    assert CandidateFaults(t, c, callIds)
        == Require(t.candidate.None?, SecondCandidate) + Require(c.candidate.None?, SecondCandidateOfCase)
           + Require(own, ForeignCall)
             + Require(IsRealScored(t.start.freeze) ==> |callIds| == 1, CandidateNeedsItsCall);
  }

  lemma {:induction false} CandidateIsLawful(x: Context, l: seq<Event>, e: Event, callIds: seq<string>)
    requires Clean(x, l) && e.attemptId in Run(x, l).attempts && Run(x, l).attempts[e.attemptId].caseId == e.caseId
    ensures CandidateFaults(Run(x, l).attempts[e.attemptId], CaseOf(Run(x, l), e.caseId), callIds) == []
            <==> LawfulCandidate(l, e, callIds)
  {
    hide Clean, Run, CaseHasCandidate, CaseOf, CallSucceeded, IsRealScored, CandidateFaults;
    var s := Run(x, l);
    var t := s.attempts[e.attemptId];
    StartIff(x, l, e.attemptId);
    CandidateMeans(t, CaseOf(s, e.caseId), callIds);
    CaseCandidateIff(x, l, e.caseId);
    if t.candidate.Some? { OneCandidate(x, l, e.attemptId); }
    forall n | 0 <= n < |callIds|
      ensures CallSucceeded(l, e.attemptId, callIds[n])
              <==> callIds[n] in t.callFinishes && t.callFinishes[callIds[n]].succeeded
    {
      SucceededCallIff(x, l, e.attemptId, callIds[n]);
    }
  }

  // ---------------------------------------------------------------- reviews

  lemma {:induction false} OneVote(rs: seq<Review>, v: Verdict)
    ensures Votes(rs, v) >= 1 <==> exists i :: 0 <= i < |rs| && rs[i].verdict == v
  {
    if rs != [] {
      OneVote(rs[..|rs| - 1], v);
      assert forall i :: 0 <= i < |rs| - 1 ==> rs[..|rs| - 1][i] == rs[i];
    }
  }

  lemma {:induction false} TwoVotes(rs: seq<Review>, v: Verdict)
    ensures Votes(rs, v) >= 2 <==> TwoSay(rs, v)
  {
    if rs != [] {
      var n := |rs| - 1;
      var old_ := rs[..n];
      TwoVotes(old_, v);
      OneVote(old_, v);
      assert forall i :: 0 <= i < n ==> old_[i] == rs[i];
      if i, k :| 0 <= i < k < |rs| && rs[i].verdict == v && rs[k].verdict == v {
        assert k < n ==> old_[i].verdict == v && old_[k].verdict == v;
        assert k == n ==> old_[i].verdict == v;
      }
      if Votes(rs, v) >= 2 && rs[n].verdict == v {
        var i :| 0 <= i < n && old_[i].verdict == v;
        assert rs[i].verdict == v;
      }
    }
  }

  /** The positions of the primary reviews. */
  function PrimariesAt(rs: seq<Review>): seq<nat> {
    if rs == [] then []
    else PrimariesAt(rs[..|rs| - 1]) + (if rs[|rs| - 1].role.Primary? then [|rs| - 1] else [])
  }

  lemma {:induction false} PrimariesAreAt(rs: seq<Review>)
    ensures |PrimariesAt(rs)| == |Primaries(rs)|
    ensures forall n :: 0 <= n < |PrimariesAt(rs)| ==>
              PrimariesAt(rs)[n] < |rs| && rs[PrimariesAt(rs)[n]].role.Primary?
              && rs[PrimariesAt(rs)[n]] == Primaries(rs)[n]
    ensures forall n, m :: 0 <= n < m < |PrimariesAt(rs)| ==> PrimariesAt(rs)[n] < PrimariesAt(rs)[m]
    ensures forall i :: 0 <= i < |rs| && rs[i].role.Primary? ==> i in PrimariesAt(rs)
  {
    if rs != [] {
      PrimariesAreAt(rs[..|rs| - 1]);
      assert forall i :: 0 <= i < |rs| - 1 ==> rs[..|rs| - 1][i] == rs[i];
    }
  }

  lemma {:induction false} FewPrimaries(rs: seq<Review>)
    ensures |Primaries(rs)| < 2 <==> !TwoPrimaries(rs)
    ensures |Primaries(rs)| == 2 && Primaries(rs)[0].verdict != Primaries(rs)[1].verdict <==> PrimariesDisagree(rs)
  {
    PrimariesAreAt(rs);
    var at := PrimariesAt(rs);
    hide Primaries, PrimariesAt;
    if |at| >= 2 { assert at[0] < at[1] && rs[at[0]].role.Primary? && rs[at[1]].role.Primary?; }
    if i, k :| 0 <= i < k < |rs| && rs[i].role.Primary? && rs[k].role.Primary? { assert i in at && k in at; }
    if |at| == 2 {
      forall n | 0 <= n < |rs| && rs[n].role.Primary? ensures n == at[0] || n == at[1] { assert n in at; }
    }
    if PrimariesDisagree(rs) { Disagreeing(rs, at); }
  }

  lemma {:induction false} Disagreeing(rs: seq<Review>, at: seq<nat>)
    requires PrimariesDisagree(rs)
    requires forall n :: 0 <= n < |at| ==> at[n] < |rs| && rs[at[n]].role.Primary?
    requires forall n, m :: 0 <= n < m < |at| ==> at[n] < at[m]
    requires forall i :: 0 <= i < |rs| && rs[i].role.Primary? ==> i in at
    ensures |at| == 2 && rs[at[0]].verdict != rs[at[1]].verdict
  {
    var i, k :| 0 <= i < k < |rs| && rs[i].role.Primary? && rs[k].role.Primary? && rs[i].verdict != rs[k].verdict
      && forall n :: 0 <= n < |rs| && rs[n].role.Primary? ==> n == i || n == k;
    assert i in at && k in at;
    if |at| > 2 {
      var n := ThirdDiffers(at, i, k);
      assert false;
    }
  }

  lemma {:induction false} ThirdDiffers(at: seq<nat>, i: nat, k: nat) returns (n: nat)
    requires |at| > 2 && forall n, m :: 0 <= n < m < |at| ==> at[n] < at[m]
    ensures n < |at| && at[n] != i && at[n] != k
  {
    assert at[0] < at[1] < at[2];
    n := if at[0] != i && at[0] != k then 0 else if at[1] != i && at[1] != k then 1 else 2;
  }

  lemma {:induction false} EvidenceMeans(t: AttemptState)
    ensures (forall p | p in EVIDENCE :: PhaseSucceeded(t, p)) <==>
              && PhaseSucceeded(t, CandidatePolicy) && PhaseSucceeded(t, Collection) && PhaseSucceeded(t, BaseVerify)
              && PhaseSucceeded(t, FixedVerify) && PhaseSucceeded(t, CausalControls)
  {
    hide PhaseSucceeded;
  }

  lemma {:induction false} ReviewMeans(t: AttemptState, r: Review)
    ensures ReviewFaults(t, r) == [] <==>
              && t.candidate.Some? && (forall p | p in EVIDENCE :: PhaseSucceeded(t, p))
              && (forall i :: 0 <= i < |t.reviews| ==> t.reviews[i].reviewer != r.reviewer)
              && (r.role.Primary? ==> |Primaries(t.reviews)| < 2)
              && (r.role.TieBreak? ==>
                    |Primaries(t.reviews)| == 2 && Primaries(t.reviews)[0].verdict != Primaries(t.reviews)[1].verdict)
              && (r.verdict.Valid? ==> r.rubricMet)
  {
    hide PhaseSucceeded, Primaries;
  }

  lemma {:induction false} ReviewIsLawful(x: Context, l: seq<Event>, a: string, r: Review)
    requires Clean(x, l) && a in Run(x, l).attempts
    ensures ReviewFaults(Run(x, l).attempts[a], r) == [] <==> LawfulReview(l, a, r)
  {
    hide Clean, Run, HasCandidate, TraceLaw.Succeeded, TwoPrimaries, PrimariesDisagree, PhaseSucceeded, Primaries;
    hide ReviewFaults, ReviewsOf;
    var t := Run(x, l).attempts[a];
    CleanRunReviews(x, l, a);
    ReviewMeans(t, r);
    EvidenceMeans(t);
    CandidateIff(x, l, a);
    SucceededIff(x, l, a, CandidatePolicy);
    SucceededIff(x, l, a, Collection);
    SucceededIff(x, l, a, BaseVerify);
    SucceededIff(x, l, a, FixedVerify);
    SucceededIff(x, l, a, CausalControls);
    FewPrimaries(t.reviews);
  }

  lemma {:induction false} GoldMeans(t: AttemptState, committed: string)
    ensures GoldFaults(t, committed) == [] <==>
              && PhaseSucceeded(t, SemanticReview) && (|t.reviews| == 2 || |t.reviews| == 3)
              && (Votes(t.reviews, Valid) >= 2 || Votes(t.reviews, Invalid) >= 2)
              && committed == t.reviews[|t.reviews| - 1].hash
  {
    hide PhaseSucceeded, Votes;
  }

  lemma {:induction false} GoldIsLawful(x: Context, l: seq<Event>, a: string, committed: string)
    requires Clean(x, l) && a in Run(x, l).attempts
    ensures GoldFaults(Run(x, l).attempts[a], committed) == [] <==> LawfulGold(l, a, committed)
  {
    hide Clean, Run, TraceLaw.Succeeded, PhaseSucceeded, Votes, TwoSay, ReviewsOf, GoldFaults;
    var t := Run(x, l).attempts[a];
    CleanRunReviews(x, l, a);
    GoldMeans(t, committed);
    SucceededIff(x, l, a, SemanticReview);
    TwoVotes(t.reviews, Valid);
    TwoVotes(t.reviews, Invalid);
  }

  // ---------------------------------------------------------------- finishing

  lemma {:induction false} ClaimIff(o: Outcome, c: Claim)
    ensures c == ExpectedClaim(o) <==> LawfulClaim(o, c)
  {
  }

  lemma {:induction false} OutcomeMeans(x: Context, c: CaseState, e: Event, f: Finish)
    requires e.payload == AttemptFinished(f)
    ensures OutcomeFaults(x, c, f) == [] <==>
              && f.claim == ExpectedClaim(f.outcome) && (f.plausible <==> f.claim.L1? || f.claim.L2?)
              && LawfulDisposition(x, f) && (IsTerminal(x, e) ==> c.countedFinish.None?)
  {
    hide ExpectedClaim;
  }

  lemma {:induction false} VerdictMeans(t: AttemptState, c: CaseState, f: Finish)
    ensures VerdictFaults(t, c, f) == [] <==>
              && (!f.claim.Rejected? ==> c.candidate.Some?) && (f.claim.L1? || f.claim.L2? ==> t.gold.Some?)
              && (f.outcome.SemanticValid? ==> Votes(t.reviews, Valid) >= 2)
              && (f.outcome.PlausibleSemanticInvalid? ==> Votes(t.reviews, Invalid) >= 2)
              && t.startedAt <= f.completedAt
  {
    hide Votes;
  }

  lemma {:induction false} FinishMeans(x: Context, t: AttemptState, c: CaseState, f: Finish)
    ensures FinishFaults(x, t, c, f) == [] <==> OutcomeFaults(x, c, f) == [] && VerdictFaults(t, c, f) == []
  {
    hide OutcomeFaults, VerdictFaults;
  }

  lemma {:induction false} FinishIsLawful(x: Context, l: seq<Event>, e: Event, f: Finish)
    requires Clean(x, l) && e.attemptId in Run(x, l).attempts && e.payload == AttemptFinished(f)
    ensures FinishFaults(x, Run(x, l).attempts[e.attemptId], CaseOf(Run(x, l), e.caseId), f) == []
            <==> LawfulFinish(x, l, e, f)
  {
    hide Clean, Run, CaseOf, OutcomeFaults, VerdictFaults, FinishFaults, Votes, TwoSay, ReviewsOf, CaseHasCandidate;
    hide GoldIsOut, CaseIsCounted, LawfulClaim, ExpectedClaim, LawfulDisposition, IsTerminal;
    var s := Run(x, l);
    var t, c := s.attempts[e.attemptId], CaseOf(s, e.caseId);
    StartIff(x, l, e.attemptId);
    FinishMeans(x, t, c, f);
    OutcomeMeans(x, c, e, f);
    VerdictMeans(t, c, f);
    ClaimIff(f.outcome, f.claim);
    CountedIff(x, l, e.caseId);
    CaseCandidateIff(x, l, e.caseId);
    GoldIff(x, l, e.attemptId);
    CleanRunReviews(x, l, e.attemptId);
    TwoVotes(t.reviews, Valid);
    TwoVotes(t.reviews, Invalid);
  }

  // ---------------------------------------------------------------- the whole law

  lemma {:induction false} PayloadIsLawful(x: Context, l: seq<Event>, e: Event)
    requires Clean(x, l) && !e.payload.AttemptStarted? && InProgress(l, e)
    ensures e.attemptId in Run(x, l).attempts
    ensures e.caseId in x.knownCases && (x.lane.Smoke? ==> e.caseId in x.smokeCases) ==>
              (PayloadFaults(x, Run(x, l), e, Run(x, l).attempts[e.attemptId], CaseOf(Run(x, l), e.caseId)) == []
               <==> Lawful(x, l, e))
  {
    hide Clean, Run, CaseOf, InProgress, CostFaults, CallFaults, CandidateFaults, ReviewFaults, GoldFaults,
         FinishFaults;
    hide PhaseFaults, LawfulCall, LawfulCost, LawfulCandidate, LawfulReview, LawfulGold, LawfulFinish, LawfulInterval;
    hide LawfulUsage, Called, CallOver, Begun, Completed, Begins;
    InProgressIff(x, l, e);
    match e.payload {
      case PhaseStarted(key, _) => BegunIff(x, l, e.attemptId, key);
      case PhaseFinished(key, f) => PhaseIsLawful(x, l, e.attemptId, key, f);
      case ModelCallStarted(call) => CallIsLawful(x, l, e, call);
      case ModelCallFinished(id, f) => CallEndIsLawful(x, l, e, id, f);
      case CostRecorded(c) => CostIsLawful(x, l, e, c);
      case CandidateSubmitted(_, ids) => CandidateIsLawful(x, l, e, ids);
      case ReviewRecorded(r) => ReviewIsLawful(x, l, e.attemptId, r);
      case GoldUnblinded(committed) => GoldIsLawful(x, l, e.attemptId, committed);
      case AttemptFinished(f) => FinishIsLawful(x, l, e, f);
    }
  }

  lemma {:induction false} FaultsMean(x: Context, s: State, e: Event)
    ensures Faults(x, s, e) == [] <==>
              && e.caseId in x.knownCases && (x.lane.Smoke? ==> e.caseId in x.smokeCases)
              && (e.payload.AttemptStarted? ==>
                    e.attemptId !in s.attempts && StartFaults(x, s, e, e.payload.start) == [])
              && (!e.payload.AttemptStarted? ==>
                    && e.attemptId in s.attempts && s.attempts[e.attemptId].batchId == e.batchId
                    && s.attempts[e.attemptId].caseId == e.caseId && s.attempts[e.attemptId].finished.None?
                    && (s.attempts[e.attemptId].gold.Some? ==> e.payload.AttemptFinished?)
                    && PayloadFaults(x, s, e, s.attempts[e.attemptId], CaseOf(s, e.caseId)) == [])
  {
    hide StartFaults, PayloadFaults, CaseOf;
  }

  /** After an error-free ledger an event adds no error exactly when it is lawful. */
  lemma {:induction false} FaultlessIffLawful(x: Context, l: seq<Event>, e: Event)
    requires Clean(x, l)
    ensures Faults(x, Run(x, l), e) == [] <==> Lawful(x, l, e)
  {
    FaultsMean(x, Run(x, l), e);
    hide Clean, Run, Faults, StartFaults, PayloadFaults, CaseOf;
    InProgressIff(x, l, e);
    if e.payload.AttemptStarted? {
      StartIsLawful(x, l, e, e.payload.start);
      hide LawfulStart, InProgress;
    } else if InProgress(l, e) {
      PayloadIsLawful(x, l, e);
      hide InProgress, Lawful;
      LawfulIsKnown(x, l, e);
    } else {
      hide InProgress;
    }
  }

  lemma {:induction false} LawfulIsKnown(x: Context, l: seq<Event>, e: Event)
    ensures Lawful(x, l, e) ==> e.caseId in x.knownCases && (x.lane.Smoke? ==> e.caseId in x.smokeCases)
  {
    hide LawfulStart, InProgress, LawfulCall, LawfulCost, LawfulCandidate, LawfulReview, LawfulGold, LawfulFinish;
  }

  lemma {:induction false} LawfulSplits(x: Context, l: seq<Event>)
    requires l != []
    ensures AllLawful(x, l) <==> AllLawful(x, l[..|l| - 1]) && Lawful(x, l[..|l| - 1], l[|l| - 1])
  {
    hide Lawful;
    var n := |l| - 1;
    assert forall j :: 0 <= j < n ==> l[..n][..j] == l[..j] && l[..n][j] == l[j];
  }

  /** The validator finds no error in its loop exactly when every event is lawful after those before it. */
  lemma {:induction false} CleanIffLawful(x: Context, l: seq<Event>)
    ensures Clean(x, l) <==> AllLawful(x, l)
  {
    hide Lawful, Faults, Run;
    if l != [] {
      var n := |l| - 1;
      CleanSplits(x, l);
      CleanIffLawful(x, l[..n]);
      LawfulSplits(x, l);
      hide AllLawful, Clean;
      if Clean(x, l[..n]) { FaultlessIffLawful(x, l[..n], l[n]); }
    }
  }

  /** Some earlier event of the attempt finished this phase and it succeeded. */
  ghost predicate SucceededBefore(l: seq<Event>, j: nat, phase: Phase)
    requires j < |l|
  {
    exists i ::
      && 0 <= i < j && l[i].attemptId == l[j].attemptId && l[i].payload.PhaseFinished?
      && l[i].payload.key.phase == phase && l[i].payload.phaseFinish.succeeded
  }

  lemma {:induction false} SucceededInPrefix(l: seq<Event>, j: nat, phase: Phase)
    requires j < |l| && TraceLaw.Succeeded(l[..j], l[j].attemptId, phase)
    ensures SucceededBefore(l, j, phase)
  {
    var i :| 0 <= i < j && Succeeds(l[..j][i], l[j].attemptId, phase);
    assert l[i].payload.key.phase == phase;
  }

  lemma {:induction false} ReviewWasLawful(x: Context, l: seq<Event>, j: nat)
    requires Clean(x, l) && j < |l| && l[j].payload.ReviewRecorded?
    ensures LawfulReview(l[..j], l[j].attemptId, l[j].payload.review) && !GoldIsOut(l[..j], l[j].attemptId)
  {
    CleanIffLawful(x, l);
    hide Clean, LawfulReview, GoldIsOut, Finished;
    assert Lawful(x, l[..j], l[j]);
  }

  lemma {:induction false} CandidateInPrefix(l: seq<Event>, j: nat)
    requires j < |l| && HasCandidate(l[..j], l[j].attemptId)
    ensures exists i :: 0 <= i < j && l[i].attemptId == l[j].attemptId && l[i].payload.CandidateSubmitted?
  {
    var i :| 0 <= i < j && Submits(l[..j][i], l[j].attemptId);
    assert l[i].payload.CandidateSubmitted?;
  }

  lemma {:induction false} GoldNotInPrefix(l: seq<Event>, j: nat)
    requires j < |l| && !GoldIsOut(l[..j], l[j].attemptId)
    ensures forall i :: 0 <= i < j && l[i].attemptId == l[j].attemptId ==> !l[i].payload.GoldUnblinded?
  {
    forall i | 0 <= i < j && l[i].attemptId == l[j].attemptId ensures !l[i].payload.GoldUnblinded? {
      assert l[..j][i] == l[i];
    }
  }

  /**
   In an error-free ledger every review has its evidence before it: a candidate
   of its attempt, and five phases of that attempt that succeeded.
   */
  lemma {:induction false} EvidencePrecedesReview(x: Context, l: seq<Event>, j: nat)
    requires Clean(x, l) && j < |l| && l[j].payload.ReviewRecorded?
    ensures exists i :: 0 <= i < j && l[i].attemptId == l[j].attemptId && l[i].payload.CandidateSubmitted?
    ensures SucceededBefore(l, j, CandidatePolicy) && SucceededBefore(l, j, Collection)
    ensures SucceededBefore(l, j, BaseVerify) && SucceededBefore(l, j, FixedVerify)
    ensures SucceededBefore(l, j, CausalControls)
    ensures forall i :: 0 <= i < j && l[i].attemptId == l[j].attemptId ==> !l[i].payload.GoldUnblinded?
    ensures l[j].payload.review.verdict.Valid? ==> l[j].payload.review.rubricMet
  {
    ReviewWasLawful(x, l, j);
    hide Clean, TraceLaw.Succeeded, SucceededBefore, TwoPrimaries, PrimariesDisagree, ReviewsOf, HasCandidate,
         GoldIsOut;
    CandidateInPrefix(l, j);
    GoldNotInPrefix(l, j);
    SucceededInPrefix(l, j, CandidatePolicy);
    SucceededInPrefix(l, j, Collection);
    SucceededInPrefix(l, j, BaseVerify);
    SucceededInPrefix(l, j, FixedVerify);
    SucceededInPrefix(l, j, CausalControls);
  }

  /** Gold is revealed after a semantic review phase of the attempt that succeeded. */
  lemma {:induction false} ReviewPrecedesGold(x: Context, l: seq<Event>, j: nat)
    requires Clean(x, l) && j < |l| && l[j].payload.GoldUnblinded?
    ensures SucceededBefore(l, j, SemanticReview)
  {
    CleanIffLawful(x, l);
    hide Clean, TraceLaw.Succeeded, SucceededBefore, TwoSay, ReviewsOf, InProgress;
    assert Lawful(x, l[..j], l[j]);
    assert LawfulGold(l[..j], l[j].attemptId, l[j].payload.committed);
    SucceededInPrefix(l, j, SemanticReview);
  }

  lemma {:induction false} CapIff(x: Context, l: seq<Event>)
    requires Clean(x, l)
    ensures CampaignCostFaults(Run(x, l)) == [] <==> WithinCampaignCap(l)
  {
    FirstAttempt(x, l);
    CaseCostsAddUp(x, l);
    FirstStartExists(l);
    hide Clean, Run, CaseCosts, TotalSpend, IsFirstStart;
    var s := Run(x, l);
    if s.attemptOrder == [] {
      assert forall i :: 0 <= i < |l| ==> !IsFirstStart(l, i) by { NoFirstStart(l); }
    }
  }

  lemma {:induction false} NoFirstStart(l: seq<Event>)
    requires forall i :: 0 <= i < |l| ==> !l[i].payload.AttemptStarted?
    ensures forall i :: 0 <= i < |l| ==> !IsFirstStart(l, i)
  {
  }

  lemma {:induction false} FirstStartExists(l: seq<Event>)
    ensures (exists i :: 0 <= i < |l| && l[i].payload.AttemptStarted?) ==>
              exists i :: 0 <= i < |l| && IsFirstStart(l, i)
  {
    if l != [] {
      var n := |l| - 1;
      FirstStartExists(l[..n]);
      assert forall i :: 0 <= i < n ==> l[..n][i] == l[i];
      if exists i :: 0 <= i < n && l[i].payload.AttemptStarted? {
        var k :| 0 <= k < n && l[k].payload.AttemptStarted?;
        assert l[..n][k].payload.AttemptStarted?;
        var i :| 0 <= i < n && IsFirstStart(l[..n], i);
        assert IsFirstStart(l, i);
      } else if l[n].payload.AttemptStarted? {
        assert IsFirstStart(l, n);
      }
    }
  }

  /**
   The validator accepts a ledger exactly when every event is lawful and the scored amounts stay within the
   campaign cap the first attempt froze.
   */
  lemma {:induction false} AcceptedIffLawful(x: Context, l: seq<Event>)
    ensures Accepted(x, l) <==> AllLawful(x, l) && WithinCampaignCap(l)
  {
    CleanIffLawful(x, l);
    hide AllLawful, WithinCampaignCap, CampaignCostFaults;
    if Clean(x, l) { CapIff(x, l); }
  }

  /** The attempts in the order they started. */
  function StartOrder(l: seq<Event>): seq<string> {
    if l == [] then []
    else
      StartOrder(l[..|l| - 1]) + (if l[|l| - 1].payload.AttemptStarted? then [l[|l| - 1].attemptId] else [])
  }

  lemma {:induction false} IndexOrder(x: Context, l: seq<Event>)
    requires Clean(x, l)
    ensures Run(x, l).attemptOrder == StartOrder(l)
    ensures l == [] ==> Run(x, l).attemptOrder == []
  {
    hide Faults, Next;
    if l != [] {
      CleanSplits(x, l);
      IndexOrder(x, l[..|l| - 1]);
      StepOrders(x, Run(x, l[..|l| - 1]), l[|l| - 1]);
    }
  }

  lemma {:induction false} OrderOfStarts(l: seq<Event>)
    ensures StartOrder(l) == [] <==> forall i :: 0 <= i < |l| ==> !l[i].payload.AttemptStarted?
    ensures forall i :: 0 <= i < |l| && IsFirstStart(l, i) ==> StartOrder(l) != [] && StartOrder(l)[0] == l[i].attemptId
  {
    if l != [] {
      var n := |l| - 1;
      OrderOfStarts(l[..n]);
      assert forall i :: 0 <= i < n ==> l[..n][i] == l[i];
      forall i | 0 <= i < |l| && IsFirstStart(l, i)
        ensures StartOrder(l) != [] && StartOrder(l)[0] == l[i].attemptId
      {
        assert i < n ==> IsFirstStart(l[..n], i);
      }
    }
  }

  /** The first attempt of the index is the first that started. */
  lemma {:induction false} FirstAttempt(x: Context, l: seq<Event>)
    requires Clean(x, l)
    ensures Run(x, l).attemptOrder == [] <==> forall i :: 0 <= i < |l| ==> !l[i].payload.AttemptStarted?
    ensures forall i :: 0 <= i < |l| && IsFirstStart(l, i) ==> IsFrozenFirst(Run(x, l), l[i])
  {
    hide Clean, Run, StartOrder;
    IndexOrder(x, l);
    OrderOfStarts(l);
    forall i | 0 <= i < |l| && IsFirstStart(l, i) ensures IsFrozenFirst(Run(x, l), l[i]) {
      StartIff(x, l, l[i].attemptId);
      assert Starts(l[i], l[i].attemptId);
    }
  }

  predicate IsFrozenFirst(s: State, e: Event) {
    && e.payload.AttemptStarted? && s.attemptOrder != [] && s.attemptOrder[0] == e.attemptId
    && e.attemptId in s.attempts && s.attempts[e.attemptId].start == e.payload.start
  }
}

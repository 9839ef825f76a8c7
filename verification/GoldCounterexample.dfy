/**
 The first exception to the guard's promise is reachable: a concrete scored ledger, error-free to the
 validator, whose attempt has its gold unblinded, and to which the guard still admits a model call.
 */
module GoldCounterexample {
  import opened Wrappers
  import opened Trace
  import opened TraceFacts
  import opened CallRecorder

  const CONTEXT := Context(Scored, {"case"}, {})
  const FREEZE := Freeze(Campaign("batch", HistoricalScored, 1, 0, 0, OfflineZeroCost, None),
                         Generator(OFFLINE_FIXTURE, Some("model"), "identity", "config", ""), "pricing", "")
  const START := AttemptStart(1, PrimaryScore, None, "entry", FREEZE)
  const RECORDER := Recorder(Scored, "batch", "attempt", "case", "identity", "pricing", 0, 0, 0, OfflineZeroCost, None)
  const REQUEST := Request("call", 0, OFFLINE_FIXTURE, "model", "config")

  function At(p: Payload): Event {
    Event("batch", "attempt", "case", 0, p)
  }

  function KeyOf(p: Phase): PhaseKey {
    PhaseKey(p, 1)
  }

  /** The ledger state while the only attempt of the only case is open. */
  function StateOf(t: AttemptState): State {
    State(map["attempt" := t], ["attempt"], map["case" := CaseState(["attempt"], [], t.candidate, None, 0)], ["case"],
          map[], {}, Some("batch"), Some(FREEZE))
  }

  const DONE := PhaseFinish(true, Interval(0, 0, 0))

  function Open(keys: set<PhaseKey>, candidate: Option<Candidate>, reviews: seq<Review>,
                gold: Option<string>): AttemptState {
    AttemptState("case", "batch", 0, START, None, map k | k in keys :: 0, map k | k in keys :: DONE, map[], map[],
                 map[], candidate, reviews, gold)
  }

  const NO_CALLS := Book(map[], map[], map[], 0, 0)

  /** An error-free ledger in this state, in which the guard's own scan has seen one start and nothing else. */
  ghost predicate Reaches(events: seq<Event>, s: State) {
    && Clean(CONTEXT, events) && Run(CONTEXT, events) == s
    && BookOf(RECORDER, events) == Ok(NO_CALLS) && CurrentStarts(RECORDER, events) == [START]
    && forall i :: 0 <= i < |events| ==> Harmless(events[i])
  }

  predicate Harmless(e: Event) {
    e == At(e.payload) && !e.payload.AttemptFinished?
  }

  lemma {:induction false} Extend(events: seq<Event>, s: State, p: Payload)
    requires Reaches(events, s) && Faults(CONTEXT, s, At(p)) == []
    requires !p.AttemptStarted? && !p.AttemptFinished? && !p.CostRecorded? && !p.ModelCallStarted?
             && !p.ModelCallFinished?
    ensures Reaches(events + [At(p)], Next(CONTEXT, s, At(p)))
  {
    hide Faults, Next;
    var all := events + [At(p)];
    assert all[..|events|] == events;
    CleanSplits(CONTEXT, all);
    assert BookStep(RECORDER, NO_CALLS, At(p)) == Ok(NO_CALLS);
  }

  lemma {:induction false} FirstStart()
    ensures OrderFaults(At(AttemptStarted(START)), START, NEW_CASE,
                        map["attempt" := NewAttempt(At(AttemptStarted(START)), START)]) == []
  {
    var m := map["attempt" := NewAttempt(At(AttemptStarted(START)), START)];
    assert ["attempt"][..0] == [];
    assert CountDisposition(m, ["attempt"], InfrastructureRetry) == 0;
    assert [] + ["attempt"] == ["attempt"];
  }

  lemma {:induction false} StartIsFaultless()
    ensures Faults(CONTEXT, Initial(), At(AttemptStarted(START))) == []
  {
    var e := At(AttemptStarted(START));
    FirstStart();
    assert Initial().attempts["attempt" := NewAttempt(e, START)] == map["attempt" := NewAttempt(e, START)];
    assert OpeningFaults(Initial(), NEW_CASE, START) == [];
    hide OrderFaults, OpeningFaults;
    assert StartFaults(CONTEXT, Initial(), e, START) == [];
  }

  lemma {:induction false} AfterFirstStart()
    ensures Next(CONTEXT, Initial(), At(AttemptStarted(START))) == StateOf(Open({}, None, [], None))
  {
    assert [] + ["attempt"] == ["attempt"] && [] + ["case"] == ["case"];
    var none: map<PhaseKey, PhaseFinish>, never: map<PhaseKey, int> := map[], map[];
    assert Open({}, None, [], None).phaseFinishes == none && Open({}, None, [], None).phaseStarts == never;
  }

  lemma {:induction false} OneStartSeen(e: Event)
    requires e == At(AttemptStarted(START))
    ensures BookOf(RECORDER, [e]) == Ok(NO_CALLS) && CurrentStarts(RECORDER, [e]) == [START]
  {
    assert [e][..0] == [];
    assert BookOf(RECORDER, []) == Ok(NO_CALLS) && BookStep(RECORDER, NO_CALLS, e) == Ok(NO_CALLS);
    hide BookStep;
    assert CurrentStarts(RECORDER, []) == [] && Current(RECORDER, e);
    assert CurrentStarts(RECORDER, [e]) == [] + [START];
  }

  lemma {:induction false} Begin() returns (events: seq<Event>)
    ensures Reaches(events, StateOf(Open({}, None, [], None)))
  {
    hide Faults, Next, StateOf, Open, BookOf, CurrentStarts;
    events := [At(AttemptStarted(START))];
    assert events[..0] == [];
    StartIsFaultless();
    AfterFirstStart();
    CleanSplits(CONTEXT, events);
    OneStartSeen(events[0]);
    assert Run(CONTEXT, events) == Next(CONTEXT, Initial(), events[0]);
  }

  lemma {:induction false} PhaseOpens(t: AttemptState, key: PhaseKey)
    requires t == Open(t.phaseStarts.Keys, t.candidate, t.reviews, None) && key !in t.phaseStarts
    ensures Faults(CONTEXT, StateOf(t), At(PhaseStarted(key, 0))) == []
    ensures Next(CONTEXT, StateOf(t), At(PhaseStarted(key, 0))) == StateOf(t.(phaseStarts := t.phaseStarts[key := 0]))
  {
  }

  lemma {:induction false} PhaseCloses(t: AttemptState, key: PhaseKey)
    requires t.caseId == "case" && t.batchId == "batch" && t.finished.None? && t.gold.None?
    requires key in t.phaseStarts && t.phaseStarts[key] == 0 && key !in t.phaseFinishes
    ensures Faults(CONTEXT, StateOf(t), At(PhaseFinished(key, DONE))) == []
    ensures Next(CONTEXT, StateOf(t), At(PhaseFinished(key, DONE)))
            == StateOf(t.(phaseFinishes := t.phaseFinishes[key := DONE]))
  {
  }

  lemma {:induction false} PhaseDone(keys: set<PhaseKey>, key: PhaseKey)
    ensures var t := Open(keys, None, [], None);
            t.(phaseStarts := t.phaseStarts[key := 0], phaseFinishes := t.phaseFinishes[key := DONE])
              == Open(keys + {key}, None, [], None)
  {
    assert (map k | k in keys :: DONE)[key := DONE] == map k | k in keys + {key} :: DONE;
    assert (map k | k in keys :: 0)[key := 0] == map k | k in keys + {key} :: 0;
  }

  /** A phase, started and succeeded. */
  lemma {:induction false} RunPhase(events: seq<Event>, keys: set<PhaseKey>, p: Phase) returns (more: seq<Event>)
    requires Reaches(events, StateOf(Open(keys, None, [], None))) && KeyOf(p) !in keys
    ensures Reaches(more, StateOf(Open(keys + {KeyOf(p)}, None, [], None)))
  {
    hide Reaches, Faults, Next, StateOf;
    var t := Open(keys, None, [], None);
    var begun := t.(phaseStarts := t.phaseStarts[KeyOf(p) := 0]);
    assert t.phaseStarts.Keys == keys;
    PhaseOpens(t, KeyOf(p));
    PhaseCloses(begun, KeyOf(p));
    PhaseDone(keys, KeyOf(p));
    hide Open;
    Extend(events, StateOf(t), PhaseStarted(KeyOf(p), 0));
    more := events + [At(PhaseStarted(KeyOf(p), 0))];
    Extend(more, StateOf(begun), PhaseFinished(KeyOf(p), DONE));
    more := more + [At(PhaseFinished(KeyOf(p), DONE))];
  }

  const KEYS := {KeyOf(CandidatePolicy), KeyOf(Collection), KeyOf(BaseVerify), KeyOf(FixedVerify),
                 KeyOf(CausalControls),
                 KeyOf(SemanticReview)}
  const CANDIDATE := Candidate("attempt", "patch")
  const FIRST := Review("first", Primary, Valid, true, "hash one")
  const SECOND := Review("second", Primary, Valid, true, "hash two")

  lemma {:induction false} AllPhases() returns (events: seq<Event>)
    ensures Reaches(events, StateOf(Open(KEYS, None, [], None)))
  {
    hide Reaches, StateOf, Open;
    events := Begin();
    events := RunPhase(events, {}, CandidatePolicy);
    events := RunPhase(events, {} + {KeyOf(CandidatePolicy)}, Collection);
    events := RunPhase(events, {} + {KeyOf(CandidatePolicy)} + {KeyOf(Collection)}, BaseVerify);
    events := RunPhase(events, {} + {KeyOf(CandidatePolicy)} + {KeyOf(Collection)} + {KeyOf(BaseVerify)}, FixedVerify);
    events := RunPhase(events,
                       {} + {KeyOf(CandidatePolicy)} + {KeyOf(Collection)} + {KeyOf(BaseVerify)} + {KeyOf(FixedVerify)},
                       CausalControls);
    events := RunPhase(events,
                       {} + {KeyOf(CandidatePolicy)} + {KeyOf(Collection)} + {KeyOf(BaseVerify)} + {KeyOf(FixedVerify)}
                               + {KeyOf(CausalControls)}, SemanticReview);
    assert {} + {KeyOf(CandidatePolicy)} + {KeyOf(Collection)} + {KeyOf(BaseVerify)} + {KeyOf(FixedVerify)}
           + {KeyOf(CausalControls)} + {KeyOf(SemanticReview)} == KEYS;
  }

  lemma {:induction false} Submits()
    ensures var t, p := Open(KEYS, None, [], None), CandidateSubmitted("patch", []);
            Faults(CONTEXT, StateOf(t), At(p)) == []
              && Next(CONTEXT, StateOf(t), At(p)) == StateOf(Open(KEYS, Some(CANDIDATE), [], None))
  {
  }

  lemma {:induction false} Succeeded(t: AttemptState, p: Phase)
    requires KeyOf(p) in t.phaseFinishes && t.phaseFinishes[KeyOf(p)].succeeded
    ensures PhaseSucceeded(t, p)
  {
  }

  lemma {:induction false} ReviewIsFaultless(reviews: seq<Review>, r: Review)
    requires (reviews == [] && r == FIRST) || (reviews == [FIRST] && r == SECOND)
    ensures ReviewFaults(Open(KEYS, Some(CANDIDATE), reviews, None), r) == []
  {
    var t := Open(KEYS, Some(CANDIDATE), reviews, None);
    forall p | p in EVIDENCE ensures PhaseSucceeded(t, p) { Succeeded(t, p); }
    assert |Primaries(reviews)| < 2 by { if reviews != [] { assert reviews[..0] == []; } }
    hide PhaseSucceeded, Primaries;
  }

  /** What a review and the unblinding do to an open attempt. */
  lemma {:induction false} ReviewStep(t: AttemptState, r: Review)
    requires t.caseId == "case" && t.batchId == "batch" && t.finished.None? && t.gold.None?
    ensures Faults(CONTEXT, StateOf(t), At(ReviewRecorded(r))) == ReviewFaults(t, r)
    ensures Next(CONTEXT, StateOf(t), At(ReviewRecorded(r))) == StateOf(t.(reviews := t.reviews + [r]))
  {
    hide ReviewFaults;
  }

  lemma {:induction false} GoldStep(t: AttemptState, committed: string)
    requires t.caseId == "case" && t.batchId == "batch" && t.finished.None? && t.gold.None?
    ensures Faults(CONTEXT, StateOf(t), At(GoldUnblinded(committed))) == GoldFaults(t, committed)
    ensures Next(CONTEXT, StateOf(t), At(GoldUnblinded(committed))) == StateOf(t.(gold := Some(committed)))
  {
    hide GoldFaults;
  }

  lemma {:induction false} Reviews(reviews: seq<Review>, r: Review)
    requires (reviews == [] && r == FIRST) || (reviews == [FIRST] && r == SECOND)
    ensures var t := Open(KEYS, Some(CANDIDATE), reviews, None);
            && Faults(CONTEXT, StateOf(t), At(ReviewRecorded(r))) == []
            && Next(CONTEXT, StateOf(t), At(ReviewRecorded(r)))
               == StateOf(Open(KEYS, Some(CANDIDATE), reviews + [r], None))
  {
    hide ReviewFaults, Faults, Next, StateOf;
    ReviewIsFaultless(reviews, r);
    ReviewStep(Open(KEYS, Some(CANDIDATE), reviews, None), r);
  }

  lemma {:induction false} UnblindingIsFaultless()
    ensures GoldFaults(Open(KEYS, Some(CANDIDATE), [FIRST, SECOND], None), "hash two") == []
  {
    var t := Open(KEYS, Some(CANDIDATE), [FIRST, SECOND], None);
    Succeeded(t, SemanticReview);
    assert Votes(t.reviews, Valid) == 2 by {
      assert t.reviews[..1] == [FIRST] && t.reviews[..1][..0] == [];
      assert Votes(t.reviews[..1], Valid) == 1;
    }
    hide PhaseSucceeded, Votes;
  }

  lemma {:induction false} Unblinds()
    ensures var t := Open(KEYS, Some(CANDIDATE), [FIRST, SECOND], None);
            && Faults(CONTEXT, StateOf(t), At(GoldUnblinded("hash two"))) == []
            && Next(CONTEXT, StateOf(t), At(GoldUnblinded("hash two")))
               == StateOf(Open(KEYS, Some(CANDIDATE), [FIRST, SECOND], Some("hash two")))
  {
    hide GoldFaults, Faults, Next, StateOf;
    UnblindingIsFaultless();
    GoldStep(Open(KEYS, Some(CANDIDATE), [FIRST, SECOND], None), "hash two");
  }

  lemma {:induction false} GoldLedger() returns (events: seq<Event>)
    ensures Reaches(events, StateOf(Open(KEYS, Some(CANDIDATE), [FIRST, SECOND], Some("hash two"))))
  {
    hide Reaches, Faults, Next, StateOf, Open;
    Submits();
    Reviews([], FIRST);
    Reviews([FIRST], SECOND);
    Unblinds();
    assert [] + [FIRST] == [FIRST] && [FIRST] + [SECOND] == [FIRST, SECOND];
    events := AllPhases();
    Extend(events, StateOf(Open(KEYS, None, [], None)), CandidateSubmitted("patch", []));
    events := events + [At(CandidateSubmitted("patch", []))];
    Extend(events, StateOf(Open(KEYS, Some(CANDIDATE), [], None)), ReviewRecorded(FIRST));
    events := events + [At(ReviewRecorded(FIRST))];
    Extend(events, StateOf(Open(KEYS, Some(CANDIDATE), [FIRST], None)), ReviewRecorded(SECOND));
    events := events + [At(ReviewRecorded(SECOND))];
    Extend(events, StateOf(Open(KEYS, Some(CANDIDATE), [FIRST, SECOND], None)), GoldUnblinded("hash two"));
    events := events + [At(GoldUnblinded("hash two"))];
  }

  lemma {:induction false} HarmlessIsCurrent(e: Event)
    requires Harmless(e)
    ensures Current(RECORDER, e) && e.batchId == "batch" && !e.payload.AttemptFinished?
  {
  }

  lemma {:induction false} FreezeMatches()
    ensures CampaignMatches(RECORDER, START.freeze) && GeneratorMatches(RECORDER, START.freeze, REQUEST)
  {
  }

  lemma {:induction false} OneOpenStartMatches(r: Recorder, events: seq<Event>, q: Request, start: AttemptStart)
    requires CurrentStarts(r, events) == [start]
    requires forall i :: 0 <= i < |events| ==> Current(r, events[i]) && !events[i].payload.AttemptFinished?
    requires CampaignMatches(r, start.freeze) && GeneratorMatches(r, start.freeze, q)
    ensures MatchingStartError(r, events, Some(q)).None?
  {
    hide CurrentStarts, Current, CampaignMatches, GeneratorMatches;
  }

  lemma {:induction false} StartMatches(events: seq<Event>)
    requires CurrentStarts(RECORDER, events) == [START] && forall i :: 0 <= i < |events| ==> Harmless(events[i])
    ensures MatchingStartError(RECORDER, events, Some(REQUEST)).None? && OneBatch(events, "batch")
  {
    hide CurrentStarts, Harmless, Current, CampaignMatches, GeneratorMatches, MatchingStartError;
    FreezeMatches();
    forall i | 0 <= i < |events|
      ensures Current(RECORDER, events[i]) && events[i].batchId == "batch" && !events[i].payload.AttemptFinished?
    {
      HarmlessIsCurrent(events[i]);
    }
    OneOpenStartMatches(RECORDER, events, REQUEST, START);
  }

  lemma {:induction false} NothingElseRefuses()
    ensures WellFormed(RECORDER) && AuthorizationError(RECORDER, REQUEST).None?
    ensures OpenCallsError(RECORDER, NO_CALLS, REQUEST.callId).None?
  {
  }

  lemma {:induction false} GuardAdmits(events: seq<Event>, s: State)
    requires Reaches(events, s)
    ensures Refusal(RECORDER, events, REQUEST).None? && OneBatch(events, "batch")
  {
    hide BookOf, CurrentStarts, Clean, Run, Harmless, MatchingStartError, OneBatch, WellFormed, AuthorizationError,
         OpenCallsError;
    StartMatches(events);
    NothingElseRefuses();
  }

  /** The guard admits the call; the validator will report the appended event, and nothing else. */
  lemma {:induction false} AdmittedAfterGold(at: int) returns (events: seq<Event>)
    ensures Clean(CONTEXT, events) && OneBatch(events, RECORDER.batchId)
    ensures Refusal(RECORDER, events, REQUEST).None?
    ensures Faults(CONTEXT, Run(CONTEXT, events), CallEvent(RECORDER, REQUEST, at)) == [AfterGold]
  {
    events := GoldLedger();
    var s := StateOf(Open(KEYS, Some(CANDIDATE), [FIRST, SECOND], Some("hash two")));
    GuardAdmits(events, s);
    assert s.attempts["attempt"].gold.Some?;
    hide Faults, Run, Clean, Refusal, OneBatch, Open;
    AdmittedCallIsFaultlessIffBlind(CONTEXT, RECORDER, events, REQUEST, at);
  }
}

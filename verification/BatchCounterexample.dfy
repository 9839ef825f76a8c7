/**
 The second exception is reachable too: a concrete smoke ledger of two batches, error-free to the validator,
 in which one batch has an open call and the guard of the other batch still admits one.
 */
module BatchCounterexample {
  import opened Wrappers
  import opened Trace
  import opened TraceFacts
  import opened CallRecorder

  const CONTEXT := Context(Smoke, {"one", "two"}, {"one", "two"})

  function FreezeOf(batchId: string): Freeze {
    Freeze(Campaign(batchId, PublicSmoke, 0, 0, 0, OfflineZeroCost, None),
           Generator(OFFLINE_FIXTURE, Some("model"), "identity", "config", ""), "pricing", "")
  }

  function StartOf(batchId: string): AttemptStart {
    AttemptStart(1, SmokeOnly, None, "entry", FreezeOf(batchId))
  }

  const OTHER_CALL := CallStart("c1", 0, OFFLINE_FIXTURE, "model", "identity", "config", "pricing", 0)
  const OTHER_START := Event("A", "first", "one", 0, AttemptStarted(StartOf("A")))
  const OTHER_CALLS := Event("A", "first", "one", 0, ModelCallStarted(OTHER_CALL))
  const OWN_START := Event("B", "second", "two", 0, AttemptStarted(StartOf("B")))

  const RECORDER := Recorder(Smoke, "B", "second", "two", "identity", "pricing", 0, 0, 0, OfflineZeroCost, None)
  const REQUEST := Request("c2", 0, OFFLINE_FIXTURE, "model", "config")

  const OPENED := NewAttempt(OTHER_START, StartOf("A"))
  const CALLING := OPENED.(callStarts := map["c1" := OTHER_CALL])
  const OWN := NewAttempt(OWN_START, StartOf("B"))
  const ONE_CASE := CaseState(["first"], [], None, None, 0)

  const AFTER_START := State(map["first" := OPENED], ["first"], map["one" := ONE_CASE], ["one"], map[], {}, None, None)
  const AFTER_CALL := State(map["first" := CALLING], ["first"], map["one" := ONE_CASE.(callIds := ["c1"])], ["one"],
                            map["c1" := "first"], {}, None, None)
  const AFTER_BOTH := State(map["first" := CALLING, "second" := OWN], ["first", "second"],
                            map["one" := ONE_CASE.(callIds := ["c1"]),
                                "two" := CaseState(["second"], [], None, None, 0)],
                            ["one", "two"], map["c1" := "first"], {}, None, None)

  /** Two openings of fresh cases follow the same rules. */
  lemma {:induction false} StartIsFaultless(s: State, e: Event, batchId: string)
    requires e.payload == AttemptStarted(StartOf(batchId)) && e.caseId in {"one", "two"} && e.caseId !in s.cases
    requires e.attemptId !in s.attempts
    ensures Faults(CONTEXT, s, e) == []
  {
    var st, m := StartOf(batchId), s.attempts[e.attemptId := NewAttempt(e, StartOf(batchId))];
    assert [] + [e.attemptId] == [e.attemptId] && [e.attemptId][..0] == [];
    assert CountDisposition(m, [e.attemptId], InfrastructureRetry) == 0;
    hide CountDisposition;
    assert OrderFaults(e, st, NEW_CASE, m) == [];
    assert OpeningFaults(s, NEW_CASE, st) == [];
    hide OrderFaults, OpeningFaults;
    assert StartFaults(CONTEXT, s, e, st) == [];
    hide StartFaults;
  }

  lemma {:induction false} OtherStarts()
    ensures Faults(CONTEXT, Initial(), OTHER_START) == [] && Next(CONTEXT, Initial(), OTHER_START) == AFTER_START
  {
    StartIsFaultless(Initial(), OTHER_START, "A");
    hide Faults;
    assert [] + ["first"] == ["first"] && [] + ["one"] == ["one"];
  }

  lemma {:induction false} OtherCalls()
    ensures Faults(CONTEXT, AFTER_START, OTHER_CALLS) == [] && Next(CONTEXT, AFTER_START, OTHER_CALLS) == AFTER_CALL
  {
    assert UnresolvedCalls(AFTER_START.attempts) == {};
    assert ReservationFaults(FreezeOf("A"), OTHER_CALL) == [];
    hide UnresolvedCalls, ReservationFaults;
    assert CallFaults(AFTER_START, OPENED, ONE_CASE, OTHER_CALL) == [];
    hide CallFaults;
    assert [] + ["c1"] == ["c1"];
  }

  lemma {:induction false} OwnStarts()
    ensures Faults(CONTEXT, AFTER_CALL, OWN_START) == [] && Next(CONTEXT, AFTER_CALL, OWN_START) == AFTER_BOTH
  {
    StartIsFaultless(AFTER_CALL, OWN_START, "B");
    hide Faults;
    assert ["first"] + ["second"] == ["first", "second"] && ["one"] + ["two"] == ["one", "two"];
  }

  const LEDGER := [OTHER_START, OTHER_CALLS, OWN_START]

  lemma {:induction false} LedgerIsClean()
    ensures Clean(CONTEXT, LEDGER) && Run(CONTEXT, LEDGER) == AFTER_BOTH
  {
    hide Faults, Next;
    OtherStarts();
    OtherCalls();
    OwnStarts();
    var l := LEDGER;
    assert l[..2] == [OTHER_START, OTHER_CALLS] && l[..2][..1] == [OTHER_START] && l[..2][..1][..0] == [];
    CleanSplits(CONTEXT, l[..2][..1]);
    assert Run(CONTEXT, l[..2][..1]) == AFTER_START;
    CleanSplits(CONTEXT, l[..2]);
    assert Run(CONTEXT, l[..2]) == AFTER_CALL;
    CleanSplits(CONTEXT, l);
  }

  const EMPTY_BOOK := Book(map[], map[], map[], 0, 0)

  lemma {:induction false} GuardSeesOneStart()
    ensures BookOf(RECORDER, LEDGER) == Ok(EMPTY_BOOK) && CurrentStarts(RECORDER, LEDGER) == [StartOf("B")]
  {
    var l := LEDGER;
    assert l[..2] == [OTHER_START, OTHER_CALLS] && l[..2][..1] == [OTHER_START] && l[..2][..1][..0] == [];
    assert BookOf(RECORDER, l[..2][..1]) == Ok(EMPTY_BOOK) && CurrentStarts(RECORDER, l[..2][..1]) == [];
    assert BookOf(RECORDER, l[..2]) == Ok(EMPTY_BOOK) && CurrentStarts(RECORDER, l[..2]) == [];
    assert CurrentStarts(RECORDER, l) == [] + [StartOf("B")];
  }

  lemma {:induction false} GuardAdmits()
    ensures Refusal(RECORDER, LEDGER, REQUEST).None?
  {
    GuardSeesOneStart();
    hide BookOf, CurrentStarts;
    assert MatchingStartError(RECORDER, LEDGER, Some(REQUEST)).None?;
    assert OpenCallsError(RECORDER, EMPTY_BOOK, "c2").None?;
  }

  /** The guard admits the call while gold is blind; the validator will report the other batch's open call. */
  lemma {:induction false} AdmittedBesideOpenCall(at: int)
    ensures Clean(CONTEXT, LEDGER) && Refusal(RECORDER, LEDGER, REQUEST).None?
    ensures Run(CONTEXT, LEDGER).attempts["second"].gold.None?
            && !QuietElsewhere(Run(CONTEXT, LEDGER), RECORDER, REQUEST)
    ensures Faults(CONTEXT, Run(CONTEXT, LEDGER), CallEvent(RECORDER, REQUEST, at)) == [UnresolvedCall]
  {
    LedgerIsClean();
    GuardAdmits();
    hide Faults, Run, Clean, Refusal, BookOf;
    AdmittedCallIsFaultlessIffQuiet(CONTEXT, RECORDER, LEDGER, REQUEST, at);
    assert AFTER_BOTH.attempts["first"] == CALLING && !CallIsSettled(CALLING, "c1");
    assert UnresolvedCalls(AFTER_BOTH.attempts) == {("first", "c1")};
    assert CaseOf(AFTER_BOTH, "two").callIds == [];
  }
}

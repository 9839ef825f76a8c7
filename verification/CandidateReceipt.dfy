/**
 How the candidate evaluator classifies repeated base and fixed runs, and how a verifier recomputes the
 class later from the bounded evidence in the receipt, which keeps neither output nor JUnit bytes.
 */
module CandidateReceipt {
  import opened Wrappers

  datatype Workspace = Base | Fixed
  datatype Profile = PytestV1 | NativeRunner

  /** A test case element; the failure texts are already normalised. */
  datatype TestCase = TestCase(failures: seq<string>, errors: nat, skipped: nat)
  datatype Junit = Malformed | Report(testcases: seq<TestCase>)

  datatype RunResult = RunResult(
    exitCode: int, timedOut: bool, oomKilled: bool, outputTruncated: bool, infrastructureMarker: bool,
    junit: Option<Junit>, namesFunction: bool, normalizedOutput: string)

  datatype Observation = Observation(workspace: Workspace, result: RunResult)

  datatype Classification =
    | Timeout | OomKilled | OutputLimit | InfrastructureFailure | GenericCrash | Flaky | DoesNotFailOnBase
    | DoesNotPassOnFixed | WrongOrFlakyFailure | VerifiedReproduction

  /** What the receipt keeps of a run. */
  datatype Evidence = Evidence(exitCode: int, timedOut: bool, oomKilled: bool, outputTruncated: bool,
                               junitPresent: bool)
  datatype RunRecord = RunRecord(workspace: Workspace, fingerprint: Option<string>, evidence: Evidence)
  datatype Outcome = Outcome(classification: Classification, accepted: bool, baseFailed: nat, fixedPassed: nat)

  // ---------------------------------------------------------------- fingerprints

  /** `None` is the evaluator's rejection of the JUnit evidence; `Some(None)` a clean pass. */
  function JunitFingerprint(r: RunResult, expectedFailure: bool): Option<Option<string>> {
    match r.junit
    case None => None
    case Some(Malformed) => None
    case Some(Report(testcases)) =>
      if |testcases| != 1 then None
      else
        var t := testcases[0];
        if t.errors != 0 || t.skipped != 0 || |t.failures| != (if expectedFailure then 1 else 0) then None
        else if !expectedFailure then Some(None)
        else if t.failures[0] == "" then None
        else Some(Some(t.failures[0]))
  }

  function FingerprintWithValidity(r: RunResult, p: Profile): (Option<string>, bool) {
    if r.timedOut || r.oomKilled || r.outputTruncated || r.infrastructureMarker || !(r.exitCode == 0 || r.exitCode == 1)
    then (None, false)
    else if p.PytestV1? then
      match JunitFingerprint(r, r.exitCode == 1)
      case None => (None, false)
      case Some(fingerprint) => (fingerprint, true)
    else if r.exitCode == 0 then (None, true)
    else if !r.namesFunction || r.normalizedOutput == "" then (None, false)
    else (Some(r.normalizedOutput), true)
  }

  // ---------------------------------------------------------------- the evaluator

  predicate AllExit(rs: seq<RunResult>, code: int) {
    forall i | 0 <= i < |rs| :: rs[i].exitCode == code
  }

  predicate SameExit(rs: seq<RunResult>) {
    rs != [] && AllExit(rs, rs[0].exitCode)
  }

  /** One fingerprint, shared by every run. */
  predicate OneFingerprint(fs: seq<Option<string>>) {
    fs != [] && fs[0].Some? && forall i | 0 <= i < |fs| :: fs[i] == fs[0]
  }

  function Classify(base: seq<RunResult>, fixed: seq<RunResult>, fingerprints: seq<Option<string>>): Classification {
    var all := base + fixed;
    if exists i | 0 <= i < |all| :: all[i].timedOut then Timeout
    else if exists i | 0 <= i < |all| :: all[i].oomKilled then OomKilled
    else if exists i | 0 <= i < |all| :: all[i].outputTruncated then OutputLimit
    else if exists i | 0 <= i < |all| :: all[i].infrastructureMarker then InfrastructureFailure
    else if exists i | 0 <= i < |all| :: !(all[i].exitCode == 0 || all[i].exitCode == 1) then GenericCrash
    else if !SameExit(base) || !SameExit(fixed) then Flaky
    else if !AllExit(base, 1) then DoesNotFailOnBase
    else if !AllExit(fixed, 0) then DoesNotPassOnFixed
    else if !OneFingerprint(fingerprints) then WrongOrFlakyFailure
    else VerifiedReproduction
  }

  function ResultsIn(os: seq<Observation>, w: Workspace): seq<RunResult> {
    if os == [] then []
    else ResultsIn(os[..|os| - 1], w) + (if os[|os| - 1].workspace == w then [os[|os| - 1].result] else [])
  }

  function FingerprintsIn(rs: seq<RunResult>, p: Profile): seq<Option<string>> {
    seq(|rs|, i requires 0 <= i < |rs| => FingerprintWithValidity(rs[i], p).0)
  }

  predicate AllValid(os: seq<Observation>, p: Profile) {
    forall i | 0 <= i < |os| :: FingerprintWithValidity(os[i].result, p).1
  }

  function EvidenceOf(r: RunResult): Evidence {
    Evidence(r.exitCode, r.timedOut, r.oomKilled, r.outputTruncated, r.junit.Some?)
  }

  function RecordOf(o: Observation, p: Profile): RunRecord {
    RunRecord(o.workspace, FingerprintWithValidity(o.result, p).0, EvidenceOf(o.result))
  }

  function RecordsOf(os: seq<Observation>, p: Profile): seq<RunRecord> {
    seq(|os|, i requires 0 <= i < |os| => RecordOf(os[i], p))
  }

  /** The evaluator's class: a verified candidate whose evidence is not all attributable is overridden. */
  function ClassOf(os: seq<Observation>, p: Profile): Classification {
    var base := ResultsIn(os, Base);
    var c := Classify(base, ResultsIn(os, Fixed), FingerprintsIn(base, p));
    if c.VerifiedReproduction? && !AllValid(os, p) then WrongOrFlakyFailure else c
  }

  function CountExit(rs: seq<RunResult>, code: int): nat {
    if rs == [] then 0 else CountExit(rs[..|rs| - 1], code) + (if rs[|rs| - 1].exitCode == code then 1 else 0)
  }

  function OutcomeOf(os: seq<Observation>, p: Profile): Outcome {
    Outcome(ClassOf(os, p), ClassOf(os, p).VerifiedReproduction?, CountExit(ResultsIn(os, Base), 1),
            CountExit(ResultsIn(os, Fixed), 0))
  }

  /** The evaluator's loop over the scheduled runs, then its verdict. */
  method Evaluate(os: seq<Observation>, p: Profile) returns (runs: seq<RunRecord>, outcome: Outcome)
    ensures runs == RecordsOf(os, p) && outcome == OutcomeOf(os, p)
  {
    hide FingerprintWithValidity, Classify, CountExit;
    runs := [];
    NoRuns(p);
    hide ResultsIn, FingerprintsIn, RecordsOf, AllValid, RecordOf;
    var base: seq<RunResult>, fixed: seq<RunResult>, fingerprints: seq<Option<string>>, valid := [], [], [], true;
    for i := 0 to |os|
      invariant runs == RecordsOf(os[..i], p)
      invariant base == ResultsIn(os[..i], Base) && fixed == ResultsIn(os[..i], Fixed)
      invariant fingerprints == FingerprintsIn(base, p)
      invariant valid == AllValid(os[..i], p)
    {
      assert os[..i + 1][..i] == os[..i];
      OneMoreRun(os[..i], os[i], p);
      assert os[..i] + [os[i]] == os[..i + 1];
      var (fingerprint, evidenceValid) := FingerprintWithValidity(os[i].result, p);
      runs := runs + [RunRecord(os[i].workspace, fingerprint, EvidenceOf(os[i].result))];
      valid := valid && evidenceValid;
      if os[i].workspace.Base? {
        OneMoreFingerprint(base, os[i].result, p);
        base := base + [os[i].result];
        fingerprints := fingerprints + [fingerprint];
      } else {
        fixed := fixed + [os[i].result];
      }
    }
    assert os[..|os|] == os;
    var c := Classify(base, fixed, fingerprints);
    if c.VerifiedReproduction? && !valid { c := WrongOrFlakyFailure; }
    outcome := Outcome(c, c.VerifiedReproduction?, CountExit(base, 1), CountExit(fixed, 0));
  }

  lemma {:induction false} NoRuns(p: Profile)
    ensures RecordsOf([], p) == [] && ResultsIn([], Base) == [] && ResultsIn([], Fixed) == []
    ensures AllValid([], p) && FingerprintsIn([], p) == []
  {
  }

  lemma {:induction false} OneMoreFingerprint(rs: seq<RunResult>, r: RunResult, p: Profile)
    ensures FingerprintsIn(rs + [r], p) == FingerprintsIn(rs, p) + [FingerprintWithValidity(r, p).0]
  {
    hide FingerprintWithValidity;
  }

  lemma {:induction false} OneMoreRun(os: seq<Observation>, o: Observation, p: Profile)
    ensures RecordsOf(os + [o], p)
         == RecordsOf(os, p) + [RunRecord(o.workspace, FingerprintWithValidity(o.result, p).0, EvidenceOf(o.result))]
    ensures ResultsIn(os + [o], o.workspace) == ResultsIn(os, o.workspace) + [o.result]
    ensures forall w :: w != o.workspace ==> ResultsIn(os + [o], w) == ResultsIn(os, w)
    ensures AllValid(os + [o], p) == (AllValid(os, p) && FingerprintWithValidity(o.result, p).1)
  {
    hide FingerprintWithValidity;
    assert (os + [o])[|os|] == o && (os + [o])[..|os|] == os;
    assert forall i :: 0 <= i < |os| ==> (os + [o])[i] == os[i];
  }

  // ---------------------------------------------------------------- the verifier

  function RecordsIn(runs: seq<RunRecord>, w: Workspace): seq<RunRecord> {
    if runs == [] then []
    else RecordsIn(runs[..|runs| - 1], w) + (if runs[|runs| - 1].workspace == w then [runs[|runs| - 1]] else [])
  }

  predicate RecordsExit(rs: seq<RunRecord>, code: int) {
    forall i | 0 <= i < |rs| :: rs[i].evidence.exitCode == code
  }

  predicate RecordsSameExit(rs: seq<RunRecord>) {
    rs != [] && RecordsExit(rs, rs[0].evidence.exitCode)
  }

  /** The class recomputed from bounded evidence alone. */
  function Recompute(runs: seq<RunRecord>, p: Profile): Classification {
    var base, fixed := RecordsIn(runs, Base), RecordsIn(runs, Fixed);
    var all := base + fixed;
    if exists i | 0 <= i < |all| :: all[i].evidence.timedOut then Timeout
    else if exists i | 0 <= i < |all| :: all[i].evidence.oomKilled then OomKilled
    else if exists i | 0 <= i < |all| :: all[i].evidence.outputTruncated then OutputLimit
    else if exists i | 0 <= i < |all| :: !(all[i].evidence.exitCode == 0 || all[i].evidence.exitCode == 1)
      then GenericCrash
    else if !RecordsSameExit(base) || !RecordsSameExit(fixed) then Flaky
    else if !RecordsExit(base, 1) then DoesNotFailOnBase
    else if !RecordsExit(fixed, 0) then DoesNotPassOnFixed
    else if p.PytestV1? && exists i | 0 <= i < |all| :: !all[i].evidence.junitPresent then WrongOrFlakyFailure
    else if OneFingerprint(seq(|base|, i requires 0 <= i < |base| => base[i].fingerprint)) then VerifiedReproduction
    else WrongOrFlakyFailure
  }

  function CountRecords(rs: seq<RunRecord>, code: int): nat {
    if rs == [] then 0
    else CountRecords(rs[..|rs| - 1], code)
         + (if rs[|rs| - 1].evidence.exitCode == code then 1 else 0)
  }

  /** `_verify_recomputed_candidate_outcome`: false where it raises. */
  predicate ReceiptRecomputes(runs: seq<RunRecord>, outcome: Outcome, p: Profile) {
    && outcome.classification == Recompute(runs, p)
    && outcome.accepted == Recompute(runs, p).VerifiedReproduction?
    && outcome.baseFailed == CountRecords(RecordsIn(runs, Base), 1)
    && outcome.fixedPassed == CountRecords(RecordsIn(runs, Fixed), 0)
  }

  // ---------------------------------------------------------------- they agree

  function Recorded(rs: seq<RunResult>, w: Workspace, p: Profile): seq<RunRecord> {
    seq(|rs|, i requires 0 <= i < |rs| => RecordOf(Observation(w, rs[i]), p))
  }

  lemma {:induction false} RecordsFollowResults(os: seq<Observation>, w: Workspace, p: Profile)
    ensures RecordsIn(RecordsOf(os, p), w) == Recorded(ResultsIn(os, w), w, p)
  {
    if os != [] {
      var n := |os| - 1;
      RecordsFollowResults(os[..n], w, p);
      assert RecordsOf(os, p)[..n] == RecordsOf(os[..n], p);
    }
  }

  lemma {:induction false} CountsFollowResults(rs: seq<RunResult>, w: Workspace, p: Profile, code: int)
    ensures CountRecords(Recorded(rs, w, p), code) == CountExit(rs, code)
  {
    if rs != [] {
      CountsFollowResults(rs[..|rs| - 1], w, p, code);
      assert Recorded(rs, w, p)[..|rs| - 1] == Recorded(rs[..|rs| - 1], w, p);
    }
  }

  /** No run hit a limit, and some output carries an infrastructure marker. */
  predicate MarkedWithoutLimit(all: seq<RunResult>) {
    && (forall i :: 0 <= i < |all| ==> !all[i].timedOut && !all[i].oomKilled && !all[i].outputTruncated)
    && (exists i :: 0 <= i < |all| && all[i].infrastructureMarker)
  }

  /** A fixed run that exits cleanly and has JUnit that is not one clean passing test case. */
  predicate UnattributablePass(r: RunResult) {
    r.junit.Some? && JunitFingerprint(r, false).None?
  }

  /**
   Everything looks verified: runs within limits, base failing with one fingerprint, fixed passing, JUnit
   everywhere, but the JUnit of some fixed run cannot be attributed.
   */
  predicate UnattributableFixedPass(base: seq<RunResult>, fixed: seq<RunResult>, p: Profile) {
    && p.PytestV1? && base != [] && fixed != [] && AllExit(base, 1) && AllExit(fixed, 0)
    && (forall i :: 0 <= i < |base + fixed| ==>
          var r := (base + fixed)[i];
          !r.timedOut && !r.oomKilled && !r.outputTruncated && !r.infrastructureMarker && r.junit.Some?)
    && OneFingerprint(FingerprintsIn(base, p))
    && (exists i :: 0 <= i < |fixed| && UnattributablePass(fixed[i]))
  }

  predicate ResultsValid(rs: seq<RunResult>, p: Profile) {
    forall i :: 0 <= i < |rs| ==> FingerprintWithValidity(rs[i], p).1
  }

  lemma {:induction false} ValidityByWorkspace(os: seq<Observation>, p: Profile)
    ensures AllValid(os, p) <==> ResultsValid(ResultsIn(os, Base), p) && ResultsValid(ResultsIn(os, Fixed), p)
  {
    hide FingerprintWithValidity;
    if os != [] {
      var n := |os| - 1;
      ValidityByWorkspace(os[..n], p);
      OneMoreRun(os[..n], os[n], p);
      assert os[..n] + [os[n]] == os;
      OneMoreResult(ResultsIn(os[..n], os[n].workspace), os[n].result, p);
      assert forall w :: w != os[n].workspace ==> ResultsIn(os, w) == ResultsIn(os[..n], w);
    }
  }

  lemma {:induction false} OneMoreResult(rs: seq<RunResult>, r: RunResult, p: Profile)
    ensures ResultsValid(rs + [r], p) <==> ResultsValid(rs, p) && FingerprintWithValidity(r, p).1
  {
    hide FingerprintWithValidity;
    assert (rs + [r])[|rs|] == r;
    assert forall i :: 0 <= i < |rs| ==> (rs + [r])[i] == rs[i];
  }

  // The recomputation, on the results themselves instead of their records.

  function RecomputeResults(base: seq<RunResult>, fixed: seq<RunResult>, p: Profile): Classification {
    var all := base + fixed;
    if exists i | 0 <= i < |all| :: all[i].timedOut then Timeout
    else if exists i | 0 <= i < |all| :: all[i].oomKilled then OomKilled
    else if exists i | 0 <= i < |all| :: all[i].outputTruncated then OutputLimit
    else if exists i | 0 <= i < |all| :: !(all[i].exitCode == 0 || all[i].exitCode == 1) then GenericCrash
    else if !SameExit(base) || !SameExit(fixed) then Flaky
    else if !AllExit(base, 1) then DoesNotFailOnBase
    else if !AllExit(fixed, 0) then DoesNotPassOnFixed
    else if p.PytestV1? && exists i | 0 <= i < |all| :: all[i].junit.None? then WrongOrFlakyFailure
    else if OneFingerprint(FingerprintsIn(base, p)) then VerifiedReproduction
    else WrongOrFlakyFailure
  }

  /** Records answer every question of the recomputation as the results would. */
  lemma {:induction false} SameShape(base: seq<RunResult>, fixed: seq<RunResult>, b: seq<RunRecord>, f: seq<RunRecord>,
                                     p: Profile)
    requires b == Recorded(base, Base, p) && f == Recorded(fixed, Fixed, p)
    ensures forall code :: RecordsExit(b, code) == AllExit(base, code) && RecordsExit(f, code) == AllExit(fixed, code)
    ensures RecordsSameExit(b) == SameExit(base) && RecordsSameExit(f) == SameExit(fixed)
    ensures var all, results := b + f, base + fixed;
            && |all| == |results|
            && (forall i :: 0 <= i < |all| ==> all[i].evidence == EvidenceOf(results[i]))
            && (forall i :: 0 <= i < |results| ==> EvidenceOf(results[i]) == all[i].evidence)
  {
    hide FingerprintWithValidity;
    assert |b| == |base| && |f| == |fixed|;
    assert forall i :: 0 <= i < |base| ==> b[i].evidence.exitCode == base[i].exitCode;
    assert forall i :: 0 <= i < |fixed| ==> f[i].evidence.exitCode == fixed[i].exitCode;
  }

  lemma {:induction false} RecomputeReadsResults(os: seq<Observation>, p: Profile)
    ensures Recompute(RecordsOf(os, p), p) == RecomputeResults(ResultsIn(os, Base), ResultsIn(os, Fixed), p)
  {
    hide FingerprintWithValidity, OneFingerprint;
    RecordsFollowResults(os, Base, p);
    RecordsFollowResults(os, Fixed, p);
    var base, fixed := ResultsIn(os, Base), ResultsIn(os, Fixed);
    var b: seq<RunRecord>, f: seq<RunRecord> := RecordsIn(RecordsOf(os, p), Base), RecordsIn(RecordsOf(os, p), Fixed);
    hide ResultsIn, RecordsIn;
    SameShape(base, fixed, b, f, p);
    hide Recorded, RecordsExit, AllExit, RecordsSameExit, SameExit;
    assert seq(|b|, i requires 0 <= i < |b| => b[i].fingerprint) == FingerprintsIn(base, p);
  }

  /**
   The recomputed class is the evaluator's class exactly when neither of two things happened: an
   infrastructure marker without a limit being hit, or an otherwise verified candidate with an
   unattributable fixed pass. The count of failing and passing runs always recomputes.
   */
  lemma {:induction false} RecomputationAgreesExactly(os: seq<Observation>, p: Profile)
    ensures var base, fixed := ResultsIn(os, Base), ResultsIn(os, Fixed);
            ReceiptRecomputes(RecordsOf(os, p), OutcomeOf(os, p), p) <==>
            (!MarkedWithoutLimit(base + fixed) && !UnattributableFixedPass(base, fixed, p))
  {
    RecomputeReadsResults(os, p);
    RecordsFollowResults(os, Base, p);
    RecordsFollowResults(os, Fixed, p);
    CountsFollowResults(ResultsIn(os, Base), Base, p, 1);
    CountsFollowResults(ResultsIn(os, Fixed), Fixed, p, 0);
    ValidityByWorkspace(os, p);
    hide RecordsOf, ResultsIn, RecordsIn, Recompute, AllValid, CountExit, CountRecords, Recorded;
    ClassesAgreeExactly(ResultsIn(os, Base), ResultsIn(os, Fixed), p);
  }

  function ClassOfResults(base: seq<RunResult>, fixed: seq<RunResult>, p: Profile): Classification {
    var c := Classify(base, fixed, FingerprintsIn(base, p));
    if c.VerifiedReproduction? && !(ResultsValid(base, p) && ResultsValid(fixed, p)) then WrongOrFlakyFailure else c
  }

  lemma {:induction false} ClassesAgreeExactly(base: seq<RunResult>, fixed: seq<RunResult>, p: Profile)
    ensures ClassOfResults(base, fixed, p) == RecomputeResults(base, fixed, p) <==>
            (!MarkedWithoutLimit(base + fixed) && !UnattributableFixedPass(base, fixed, p))
  {
    var fs := FingerprintsIn(base, p);
    if RecomputeResults(base, fixed, p).VerifiedReproduction? || Classify(base, fixed, fs).VerifiedReproduction? {
      assert forall i :: 0 <= i < |base| ==> fs[i] == FingerprintWithValidity(base[i], p).0;
      assert forall i :: 0 <= i < |base| ==> (base + fixed)[i] == base[i];
      assert forall i :: 0 <= i < |fixed| ==> (base + fixed)[|base| + i] == fixed[i];
    }
  }

  /** An accepted candidate failed on every base run with one shared fingerprint and passed on every fixed run. */
  lemma {:induction false} AcceptanceMeansReproduction(os: seq<Observation>, p: Profile)
    requires ClassOf(os, p).VerifiedReproduction?
    ensures var base, fixed := ResultsIn(os, Base), ResultsIn(os, Fixed);
            && base != [] && fixed != [] && AllExit(base, 1) && AllExit(fixed, 0)
            && (exists f :: forall i :: 0 <= i < |base| ==> FingerprintWithValidity(base[i], p) == (Some(f), true))
            && (forall i :: 0 <= i < |fixed| ==> FingerprintWithValidity(fixed[i], p) == (None, true))
  {
    ValidityByWorkspace(os, p);
    var base, fixed := ResultsIn(os, Base), ResultsIn(os, Fixed);
    hide ResultsIn;
    var fs := FingerprintsIn(base, p);
    assert forall i :: 0 <= i < |base| ==> fs[i] == FingerprintWithValidity(base[i], p).0;
    var f := fs[0].value;
    assert forall i :: 0 <= i < |base| ==> FingerprintWithValidity(base[i], p) == (Some(f), true);
  }

  predicate WithinLimits(r: RunResult) {
    !r.timedOut && !r.oomKilled && !r.outputTruncated
  }

  /** A marker in one passing output: the evaluator says infrastructure failure, the verifier says verified. */
  lemma {:induction false} MarkedPassDiverges(failing: RunResult, passing: RunResult, p: Profile)
    requires WithinLimits(failing) && WithinLimits(passing) && failing.exitCode == 1 && passing.exitCode == 0
    requires failing.junit.Some? && passing.junit.Some? && FingerprintWithValidity(failing, p).0.Some?
    requires passing.infrastructureMarker
    ensures var os := [Observation(Base, failing), Observation(Fixed, passing)];
            ClassOf(os, p).InfrastructureFailure? && Recompute(RecordsOf(os, p), p).VerifiedReproduction?
  {
    var os := [Observation(Base, failing), Observation(Fixed, passing)];
    TwoRuns(failing, passing);
    RecomputeReadsResults(os, p);
    hide FingerprintWithValidity, ResultsIn, Recompute, RecordsOf, AllValid;
    var all := [failing] + [passing];
    assert all == [failing, passing] && all[1].infrastructureMarker;
  }

  lemma {:induction false} MarkedPassExample()
    ensures var failing := RunResult(1, false, false, false, false, Some(Report([TestCase(["assert"], 0, 0)])), true,
                                     "assert");
            var passing := RunResult(0, false, false, false, true, Some(Report([TestCase([], 0, 0)])), true, "");
            var os := [Observation(Base, failing), Observation(Fixed, passing)];
            && ClassOf(os, PytestV1).InfrastructureFailure?
            && Recompute(RecordsOf(os, PytestV1), PytestV1).VerifiedReproduction?
  {
    hide ClassOf, Recompute, RecordsOf;
    MarkedPassDiverges(
      RunResult(1, false, false, false, false, Some(Report([TestCase(["assert"], 0, 0)])), true, "assert"),
      RunResult(0, false, false, false, true, Some(Report([TestCase([], 0, 0)])), true, ""), PytestV1);
  }

  /**
   A fixed pass whose JUnit names two test cases: the evaluator overrides to wrong-or-flaky, the verifier says
   verified.
   */
  lemma {:induction false} UnattributablePassDiverges(failing: RunResult, passing: RunResult)
    requires WithinLimits(failing) && WithinLimits(passing) && failing.exitCode == 1 && passing.exitCode == 0
    requires failing.junit.Some? && FingerprintWithValidity(failing, PytestV1).0.Some?
    requires !passing.infrastructureMarker && UnattributablePass(passing)
    ensures var os := [Observation(Base, failing), Observation(Fixed, passing)];
            ClassOf(os, PytestV1).WrongOrFlakyFailure?
              && Recompute(RecordsOf(os, PytestV1), PytestV1).VerifiedReproduction?
  {
    var os := [Observation(Base, failing), Observation(Fixed, passing)];
    TwoRuns(failing, passing);
    RecomputeReadsResults(os, PytestV1);
    assert os[1].result == passing && !FingerprintWithValidity(passing, PytestV1).1;
    assert !failing.infrastructureMarker;
    hide FingerprintWithValidity, JunitFingerprint, ResultsIn, Recompute, RecordsOf;
    var all := [failing] + [passing];
    assert all == [failing, passing];
  }

  lemma {:induction false} UnattributablePassExample()
    ensures var failing := RunResult(1, false, false, false, false, Some(Report([TestCase(["assert"], 0, 0)])), true,
                                     "assert");
            var passing := RunResult(0, false, false, false, false,
                                     Some(Report([TestCase([], 0, 0), TestCase([], 0, 0)])), true, "");
            var os := [Observation(Base, failing), Observation(Fixed, passing)];
            && ClassOf(os, PytestV1).WrongOrFlakyFailure?
            && Recompute(RecordsOf(os, PytestV1), PytestV1).VerifiedReproduction?
  {
    hide ClassOf, Recompute, RecordsOf;
    UnattributablePassDiverges(
      RunResult(1, false, false, false, false, Some(Report([TestCase(["assert"], 0, 0)])), true, "assert"),
      RunResult(0, false, false, false, false, Some(Report([TestCase([], 0, 0), TestCase([], 0, 0)])), true, ""));
  }

  lemma {:induction false} TwoRuns(failing: RunResult, passing: RunResult)
    ensures var os := [Observation(Base, failing), Observation(Fixed, passing)];
            ResultsIn(os, Base) == [failing] && ResultsIn(os, Fixed) == [passing]
  {
    var os := [Observation(Base, failing), Observation(Fixed, passing)];
    assert os[..1] == [Observation(Base, failing)] && os[..1][..0] == [];
    assert ResultsIn(os[..1], Base) == [failing] && ResultsIn(os[..1], Fixed) == [];
  }
}

/**
 What an accepted candidate is, said of the observed runs alone: no fingerprint, no classifier. Every base run
 fails with one shared, attributable text and every fixed run is one clean pass, and nothing less is rejected.
 */
module CandidateAcceptance {
  import opened Wrappers
  import opened CandidateReceipt

  /** The run ended by itself, without an infrastructure marker in its output. */
  predicate RanToItsEnd(r: RunResult) {
    !r.timedOut && !r.oomKilled && !r.outputTruncated && !r.infrastructureMarker
  }

  /**
   The run failed, and the failure says this text: under pytest as the one failure of the one test case, with
   no error and no skip; under a native runner as the normalised output, which names the function.
   */
  predicate FailsWith(r: RunResult, p: Profile, text: string) {
    && RanToItsEnd(r) && r.exitCode == 1 && text != ""
    && match p
       case PytestV1 => r.junit == Some(Report([TestCase([text], 0, 0)]))
       case NativeRunner => r.namesFunction && r.normalizedOutput == text
  }

  /** The run passed, under pytest as one test case without failure, error or skip. */
  predicate PassesCleanly(r: RunResult, p: Profile) {
    && RanToItsEnd(r) && r.exitCode == 0
    && match p
       case PytestV1 => r.junit == Some(Report([TestCase([], 0, 0)]))
       case NativeRunner => true
  }

  ghost predicate FailsOnBase(os: seq<Observation>, p: Profile, text: string) {
    && (exists i :: 0 <= i < |os| && os[i].workspace.Base?)
    && forall i :: 0 <= i < |os| && os[i].workspace.Base? ==> FailsWith(os[i].result, p, text)
  }

  ghost predicate PassesOnFixed(os: seq<Observation>, p: Profile) {
    && (exists i :: 0 <= i < |os| && os[i].workspace.Fixed?)
    && forall i :: 0 <= i < |os| && os[i].workspace.Fixed? ==> PassesCleanly(os[i].result, p)
  }

  // ---------------------------------------------------------------- one run

  lemma {:induction false} PytestFingerprint(r: RunResult)
    ensures forall text :: FingerprintWithValidity(r, PytestV1) == (Some(text), true) <==> FailsWith(r, PytestV1, text)
    ensures FingerprintWithValidity(r, PytestV1) == (None, true) <==> PassesCleanly(r, PytestV1)
  {
    if r.junit.Some? && r.junit.value.Report? && |r.junit.value.testcases| == 1 {
      var t := r.junit.value.testcases[0];
      assert r.junit.value.testcases == [t];
      if |t.failures| == 1 { assert t.failures == [t.failures[0]]; }
      if |t.failures| == 0 { assert t.failures == []; }
      assert [t][0] == t;
      forall text: string ensures t == TestCase([text], 0, 0) ==> t.failures[0] == text {
        assert [text][0] == text;
      }
    }
    assert Some(Report([TestCase([], 0, 0)])).value.testcases[0].failures == [];
  }

  /** A fingerprint is the text of an attributable failure, and evidence is valid for that or for a clean pass. */
  lemma {:induction false} FingerprintExactly(r: RunResult, p: Profile)
    ensures forall text :: FingerprintWithValidity(r, p) == (Some(text), true) <==> FailsWith(r, p, text)
    ensures FingerprintWithValidity(r, p) == (None, true) <==> PassesCleanly(r, p)
    ensures FingerprintWithValidity(r, p).0.Some? ==> FingerprintWithValidity(r, p).1
  {
    if p.PytestV1? { PytestFingerprint(r); }
  }

  // ---------------------------------------------------------------- runs by workspace

  ghost predicate Observed(os: seq<Observation>, w: Workspace, r: RunResult) {
    exists i :: 0 <= i < |os| && os[i] == Observation(w, r)
  }

  lemma {:induction false} ResultsAre(os: seq<Observation>, w: Workspace)
    ensures forall r :: r in ResultsIn(os, w) <==> Observed(os, w, r)
  {
    if os != [] {
      var n := |os| - 1;
      ResultsAre(os[..n], w);
      assert forall i :: 0 <= i < n ==> os[..n][i] == os[i];
      forall r ensures Observed(os, w, r) <==> Observed(os[..n], w, r) || os[n] == Observation(w, r) {
      }
    }
  }

  ghost predicate BaseFails(base: seq<RunResult>, p: Profile, text: string) {
    base != [] && forall k :: 0 <= k < |base| ==> FailsWith(base[k], p, text)
  }

  ghost predicate FixedPasses(fixed: seq<RunResult>, p: Profile) {
    fixed != [] && forall k :: 0 <= k < |fixed| ==> PassesCleanly(fixed[k], p)
  }

  lemma {:induction false} BaseByWorkspace(os: seq<Observation>, p: Profile, text: string)
    ensures FailsOnBase(os, p, text) <==> BaseFails(ResultsIn(os, Base), p, text)
  {
    ResultsAre(os, Base);
    hide ResultsIn, FailsWith;
    var base := ResultsIn(os, Base);
    if FailsOnBase(os, p, text) {
      var i :| 0 <= i < |os| && os[i].workspace.Base?;
      assert Observed(os, Base, os[i].result);
      forall k | 0 <= k < |base| ensures FailsWith(base[k], p, text) {
        assert Observed(os, Base, base[k]);
      }
    }
    if BaseFails(base, p, text) {
      assert Observed(os, Base, base[0]);
      forall i | 0 <= i < |os| && os[i].workspace.Base? ensures FailsWith(os[i].result, p, text) {
        assert Observed(os, Base, os[i].result);
      }
    }
  }

  lemma {:induction false} FixedByWorkspace(os: seq<Observation>, p: Profile)
    ensures PassesOnFixed(os, p) <==> FixedPasses(ResultsIn(os, Fixed), p)
  {
    ResultsAre(os, Fixed);
    hide ResultsIn, PassesCleanly;
    var fixed := ResultsIn(os, Fixed);
    if PassesOnFixed(os, p) {
      var i :| 0 <= i < |os| && os[i].workspace.Fixed?;
      assert Observed(os, Fixed, os[i].result);
      forall k | 0 <= k < |fixed| ensures PassesCleanly(fixed[k], p) {
        assert Observed(os, Fixed, fixed[k]);
      }
    }
    if FixedPasses(fixed, p) {
      assert Observed(os, Fixed, fixed[0]);
      forall i | 0 <= i < |os| && os[i].workspace.Fixed? ensures PassesCleanly(os[i].result, p) {
        assert Observed(os, Fixed, os[i].result);
      }
    }
  }

  // ---------------------------------------------------------------- acceptance

  lemma {:induction false} AcceptedResults(base: seq<RunResult>, fixed: seq<RunResult>, p: Profile)
    ensures ClassOfResults(base, fixed, p).VerifiedReproduction? ==>
              (exists text :: BaseFails(base, p, text)) && FixedPasses(fixed, p)
  {
    hide FingerprintWithValidity, FailsWith, PassesCleanly;
    if ClassOfResults(base, fixed, p).VerifiedReproduction? {
      var fs := FingerprintsIn(base, p);
      var text := fs[0].value;
      forall k | 0 <= k < |base| ensures FailsWith(base[k], p, text) {
        FingerprintExactly(base[k], p);
        assert fs[k] == fs[0];
      }
      forall k | 0 <= k < |fixed| ensures PassesCleanly(fixed[k], p) {
        FingerprintExactly(fixed[k], p);
        assert fixed[k].exitCode == 0;
        FailedExits(fixed[k], p);
      }
      assert BaseFails(base, p, text);
    }
  }

  lemma {:induction false} FailedExits(r: RunResult, p: Profile)
    requires r.exitCode == 0
    ensures FingerprintWithValidity(r, p).0.None?
  {
  }

  lemma {:induction false} ReproducedResults(base: seq<RunResult>, fixed: seq<RunResult>, p: Profile, text: string)
    requires BaseFails(base, p, text) && FixedPasses(fixed, p)
    ensures ClassOfResults(base, fixed, p).VerifiedReproduction?
  {
    hide FingerprintWithValidity;
    var fs := FingerprintsIn(base, p);
    forall k | 0 <= k < |base| ensures FingerprintWithValidity(base[k], p) == (Some(text), true) {
      FingerprintExactly(base[k], p);
    }
    forall k | 0 <= k < |fixed| ensures FingerprintWithValidity(fixed[k], p) == (None, true) {
      FingerprintExactly(fixed[k], p);
    }
    assert forall k :: 0 <= k < |fs| ==> fs[k] == Some(text);
    var all := base + fixed;
    forall k | 0 <= k < |all| ensures RanToItsEnd(all[k]) && (all[k].exitCode == 0 || all[k].exitCode == 1) {
      assert all[k] == if k < |base| then base[k] else fixed[k - |base|];
    }
  }

  /**
   A candidate is accepted exactly when all base runs fail, with one text they share, and all fixed runs pass
   cleanly, with at least one run on each side.
   */
  lemma {:induction false} AcceptedExactly(os: seq<Observation>, p: Profile)
    ensures ClassOf(os, p).VerifiedReproduction? <==>
              (exists text :: FailsOnBase(os, p, text)) && PassesOnFixed(os, p)
  {
    ValidityByWorkspace(os, p);
    var base, fixed := ResultsIn(os, Base), ResultsIn(os, Fixed);
    assert ClassOf(os, p) == ClassOfResults(base, fixed, p);
    hide ClassOf, ClassOfResults, ResultsIn, FailsOnBase, PassesOnFixed, BaseFails, FixedPasses;
    AcceptedResults(base, fixed, p);
    FixedByWorkspace(os, p);
    if ClassOf(os, p).VerifiedReproduction? {
      var text :| BaseFails(base, p, text);
      BaseByWorkspace(os, p, text);
    }
    if text :| FailsOnBase(os, p, text) {
      BaseByWorkspace(os, p, text);
      if PassesOnFixed(os, p) { ReproducedResults(base, fixed, p, text); }
    }
  }

  // ---------------------------------------------------------------- the counts of the receipt

  function Exited(os: seq<Observation>, w: Workspace, code: int): set<nat> {
    set i: nat | i < |os| && os[i].workspace == w && os[i].result.exitCode == code
  }

  lemma {:induction false} OneMoreExited(os: seq<Observation>, w: Workspace, code: int)
    requires os != []
    ensures var n := |os| - 1;
            Exited(os, w, code) == Exited(os[..n], w, code)
              + (if os[n].workspace == w && os[n].result.exitCode == code then {n} else {})
    ensures |os| - 1 !in Exited(os[..|os| - 1], w, code)
  {
  }

  lemma {:induction false} CountExtends(rs: seq<RunResult>, r: RunResult, code: int)
    ensures CountExit(rs + [r], code) == CountExit(rs, code) + (if r.exitCode == code then 1 else 0)
  {
    assert (rs + [r])[..|rs|] == rs;
  }

  lemma {:induction false} CountIsOfRuns(os: seq<Observation>, w: Workspace, code: int)
    ensures CountExit(ResultsIn(os, w), code) == |Exited(os, w, code)|
  {
    if os == [] {
      assert Exited(os, w, code) == {};
    } else {
      var n := |os| - 1;
      CountIsOfRuns(os[..n], w, code);
      OneMoreExited(os, w, code);
      CountExtends(ResultsIn(os[..n], w), os[n].result, code);
      assert ResultsIn(os, w) == ResultsIn(os[..n], w) + (if os[n].workspace == w then [os[n].result] else []);
      hide CountExit, Exited, ResultsIn;
      assert os[n].workspace != w ==> ResultsIn(os, w) == ResultsIn(os[..n], w);
    }
  }

  /** The receipt counts the failing base runs and the passing fixed runs, and accepts only a reproduction. */
  lemma {:induction false} OutcomeExactly(os: seq<Observation>, p: Profile)
    ensures OutcomeOf(os, p).baseFailed == |Exited(os, Base, 1)|
            && OutcomeOf(os, p).fixedPassed == |Exited(os, Fixed, 0)|
    ensures OutcomeOf(os, p).accepted <==> (exists text :: FailsOnBase(os, p, text)) && PassesOnFixed(os, p)
  {
    AcceptedExactly(os, p);
    CountIsOfRuns(os, Base, 1);
    CountIsOfRuns(os, Fixed, 0);
    hide ClassOf, FailsOnBase, PassesOnFixed, CountExit, ResultsIn, Exited;
  }

  // ---------------------------------------------------------------- rejection

  datatype Trouble = TimedOut | OutOfMemory | Truncated | Marked | OddExit

  predicate Suffers(r: RunResult, what: Trouble) {
    match what
    case TimedOut => r.timedOut
    case OutOfMemory => r.oomKilled
    case Truncated => r.outputTruncated
    case Marked => r.infrastructureMarker
    case OddExit => r.exitCode != 0 && r.exitCode != 1
  }

  ghost predicate SomeRun(os: seq<Observation>, what: Trouble) {
    exists i :: 0 <= i < |os| && Suffers(os[i].result, what)
  }

  ghost predicate Untroubled(os: seq<Observation>) {
    forall what :: !SomeRun(os, what)
  }

  /** Every run of the workspace exits so, and there is one. */
  ghost predicate Exits(os: seq<Observation>, w: Workspace, code: int) {
    && (exists i :: 0 <= i < |os| && os[i].workspace == w)
    && forall i :: 0 <= i < |os| && os[i].workspace == w ==> os[i].result.exitCode == code
  }

  ghost predicate IsStable(os: seq<Observation>) {
    (Exits(os, Base, 0) || Exits(os, Base, 1)) && (Exits(os, Fixed, 0) || Exits(os, Fixed, 1))
  }

  ghost predicate SomeResult(rs: seq<RunResult>, what: Trouble) {
    exists k :: 0 <= k < |rs| && Suffers(rs[k], what)
  }

  lemma {:induction false} TroubleIff(os: seq<Observation>, what: Trouble)
    ensures SomeRun(os, what) <==> SomeResult(ResultsIn(os, Base) + ResultsIn(os, Fixed), what)
  {
    ResultsAre(os, Base);
    ResultsAre(os, Fixed);
    var base, fixed := ResultsIn(os, Base), ResultsIn(os, Fixed);
    hide ResultsIn, Suffers;
    var all := base + fixed;
    if i :| 0 <= i < |os| && Suffers(os[i].result, what) {
      assert Observed(os, os[i].workspace, os[i].result);
      var r := os[i].result;
      assert if os[i].workspace.Base? then r in base else r in fixed;
      assert r in all;
    }
    if k :| 0 <= k < |all| && Suffers(all[k], what) {
      assert all[k] in base || all[k] in fixed;
      assert Observed(os, Base, all[k]) || Observed(os, Fixed, all[k]);
    }
  }

  lemma {:induction false} ExitsIff(os: seq<Observation>, w: Workspace, code: int)
    ensures Exits(os, w, code) <==> ResultsIn(os, w) != [] && AllExit(ResultsIn(os, w), code)
  {
    ResultsAre(os, w);
    var rs := ResultsIn(os, w);
    hide ResultsIn;
    if rs != [] {
      assert Observed(os, w, rs[0]);
      if AllExit(rs, code) {
        forall i | 0 <= i < |os| && os[i].workspace == w ensures os[i].result.exitCode == code {
          assert Observed(os, w, os[i].result);
        }
      }
    }
    if i :| 0 <= i < |os| && os[i].workspace == w {
      assert Observed(os, w, os[i].result);
      if Exits(os, w, code) {
        forall k | 0 <= k < |rs| ensures rs[k].exitCode == code {
          assert Observed(os, w, rs[k]);
        }
      }
    }
  }

  lemma {:induction false} ClassOfTrouble(base: seq<RunResult>, fixed: seq<RunResult>, p: Profile)
    ensures var c, all := ClassOfResults(base, fixed, p), base + fixed;
            && (c.Timeout? <==> SomeResult(all, TimedOut))
            && (c.OomKilled? <==> SomeResult(all, OutOfMemory) && !SomeResult(all, TimedOut))
            && (c.OutputLimit? <==>
                  SomeResult(all, Truncated) && !SomeResult(all, TimedOut) && !SomeResult(all, OutOfMemory))
            && (c.InfrastructureFailure? <==>
                  && SomeResult(all, Marked) && !SomeResult(all, TimedOut) && !SomeResult(all, OutOfMemory)
                  && !SomeResult(all, Truncated))
            && (c.GenericCrash? <==>
                  && SomeResult(all, OddExit) && !SomeResult(all, TimedOut) && !SomeResult(all, OutOfMemory)
                  && !SomeResult(all, Truncated) && !SomeResult(all, Marked))
  {
    hide FingerprintWithValidity, OneFingerprint, SameExit, AllExit;
  }

  predicate AllBinary(rs: seq<RunResult>) {
    forall k :: 0 <= k < |rs| ==> rs[k].exitCode == 0 || rs[k].exitCode == 1
  }

  lemma {:induction false} Sides(base: seq<RunResult>, fixed: seq<RunResult>)
    requires forall what :: !SomeResult(base + fixed, what)
    ensures AllBinary(base) && AllBinary(fixed)
  {
    var all := base + fixed;
    forall k | 0 <= k < |all| ensures all[k].exitCode == 0 || all[k].exitCode == 1 {
      assert !SomeResult(all, OddExit) && (Suffers(all[k], OddExit) ==> SomeResult(all, OddExit));
    }
    assert forall k :: 0 <= k < |base| ==> base[k] == all[k];
    assert forall k :: 0 <= k < |fixed| ==> fixed[k] == all[|base| + k];
  }

  lemma {:induction false} SameExitIff(rs: seq<RunResult>)
    requires AllBinary(rs)
    ensures SameExit(rs) <==> rs != [] && (AllExit(rs, 0) || AllExit(rs, 1))
  {
  }

  lemma {:induction false} ClassOfExits(base: seq<RunResult>, fixed: seq<RunResult>, p: Profile)
    requires forall what :: !SomeResult(base + fixed, what)
    ensures var c := ClassOfResults(base, fixed, p);
            var stable := base != [] && (AllExit(base, 0) || AllExit(base, 1))
                          && fixed != [] && (AllExit(fixed, 0) || AllExit(fixed, 1));
            && (c.Flaky? <==> !stable)
            && (c.DoesNotFailOnBase? <==> stable && AllExit(base, 0))
            && (c.DoesNotPassOnFixed? <==> stable && AllExit(base, 1) && AllExit(fixed, 1))
  {
    Sides(base, fixed);
    SameExitIff(base);
    SameExitIff(fixed);
    ClassOfTrouble(base, fixed, p);
    var all := base + fixed;
    assert !SomeResult(all, TimedOut) && !SomeResult(all, OutOfMemory) && !SomeResult(all, Truncated)
      && !SomeResult(all, Marked) && !SomeResult(all, OddExit);
    hide FingerprintWithValidity, OneFingerprint, SameExit, SomeResult;
    assert base != [] ==> base[0] in base;
  }

  /** Why a candidate is rejected, in order of precedence. A workspace without runs counts as flaky. */
  lemma {:induction false} RejectedExactly(os: seq<Observation>, p: Profile)
    ensures var c := ClassOf(os, p);
            && (c.Timeout? <==> SomeRun(os, TimedOut))
            && (c.OomKilled? <==> SomeRun(os, OutOfMemory) && !SomeRun(os, TimedOut))
            && (c.OutputLimit? <==> SomeRun(os, Truncated) && !SomeRun(os, TimedOut) && !SomeRun(os, OutOfMemory))
            && (c.InfrastructureFailure? <==>
                  && SomeRun(os, Marked) && !SomeRun(os, TimedOut) && !SomeRun(os, OutOfMemory)
                  && !SomeRun(os, Truncated))
            && (c.GenericCrash? <==>
                  && SomeRun(os, OddExit) && !SomeRun(os, TimedOut) && !SomeRun(os, OutOfMemory)
                  && !SomeRun(os, Truncated) && !SomeRun(os, Marked))
    ensures var c := ClassOf(os, p);
            Untroubled(os) ==>
              && (c.Flaky? <==> !IsStable(os))
              && (c.DoesNotFailOnBase? <==> IsStable(os) && Exits(os, Base, 0))
              && (c.DoesNotPassOnFixed? <==> IsStable(os) && Exits(os, Base, 1) && Exits(os, Fixed, 1))
  {
    ValidityByWorkspace(os, p);
    var base, fixed := ResultsIn(os, Base), ResultsIn(os, Fixed);
    assert ClassOf(os, p) == ClassOfResults(base, fixed, p);
    hide ClassOf, ClassOfResults, ResultsIn, SomeRun, SomeResult, Exits, AllExit;
    forall what ensures SomeRun(os, what) <==> SomeResult(base + fixed, what) {
      TroubleIff(os, what);
    }
    ClassOfTrouble(base, fixed, p);
    if Untroubled(os) {
      ClassOfExits(base, fixed, p);
      ExitsIff(os, Base, 0);
      ExitsIff(os, Base, 1);
      ExitsIff(os, Fixed, 0);
      ExitsIff(os, Fixed, 1);
    }
  }
}

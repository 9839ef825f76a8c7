/**
 Any number of processes running `_execute_v021_case_with_ports` at the same time, without the
 controller lock: every locked ledger operation, every ledger read, every provider call and every file
 operation is one step, steps interleave freely, any worker may crash between two of them, clocks are
 arbitrary, and files may be lost.
 */
module Workers {
  import opened Wrappers
  import opened Records
  import opened SpendLedger
  import opened LedgerFacts
  import opened Runtime

  /** What a worker is about to do. A rejection raises, which ends the worker like a crash does. */
  datatype Pc =
    | Idle
    | ReadState(c: string)
    | MayReserve(c: string)
    | MustCall(c: string)
    | WriteResponse(c: string, reply: Reply)
    | CheckResponse(c: string)
    | CheckHalt(c: string)
    | CheckHaltFile(c: string)
    | CreateHaltFile(c: string)
    | Load(c: string, reserved: bool)
    | RecoverForResponse(c: string, record: ResponseRecord)
    | AppendResponse(record: ResponseRecord, token: Token)
    | CheckResult(c: string, response: Digest)
    | CreateResult(c: string, response: Digest)
    | RecoverForResult(c: string, response: Digest)
    | AppendResult(c: string, response: Digest, token: Token)

  /** A call as the provider sees it, with the length the ledger had at that moment. */
  datatype Call = Call(caseId: string, ledgerLength: nat)

  datatype System = System(
    ledger: seq<Event>, responses: map<string, ResponseRecord>, results: map<string, ResultRecord>,
    calls: seq<Call>, workers: map<nat, Pc>)

  datatype Action =
    | Start(worker: nat, caseId: string)
    | Step(worker: nat, at: int, reply: Reply)
    | Crash(worker: nat)
    | LoseResponse(caseId: string)
    | LoseResult(caseId: string)

  predicate Known(p: Plan, c: string) {
    c in p.auth.requests && c in p.inputs
  }

  function CaseOf(pc: Pc): Option<string> {
    match pc
    case Idle => None
    case AppendResponse(record, _) => Some(record.caseId)
    case _ => Some(pc.c)
  }

  /** The step of one worker: the shared state afterwards and what it does next. */
  function Advance(p: Plan, s: System, pc: Pc, at: int, reply: Reply): (System, Pc)
    requires CaseOf(pc).Some? ==> Known(p, CaseOf(pc).value)
  {
    var v := Verify(s.ledger, p.auth, p.claim);
    match pc
    case Idle => (s, Idle)
    case ReadState(c) =>
      var state := PortState(p, c, v);
      (s, if state.Err? || state.value.Completed? then Idle
          else if state.value.Available? then MayReserve(c)
          else if state.value.Reserved? then CheckResponse(c)
          else Load(c, false))
    case MayReserve(c) =>
      var (l, r) := ReserveOp(s.ledger, p.auth, p.claim, c, RequestOf(p, c), CallOf(p, c), at);
      (s.(ledger := l), if r.Ok? then MustCall(c) else Idle)
    case MustCall(c) =>
      (s.(calls := s.calls + [Call(c, |s.ledger|)]),
       if Usable(p, reply) then WriteResponse(c, reply) else CheckHalt(c))
    case WriteResponse(c, r) =>
      if c in s.responses || !r.Answer? then (s, Idle)
      else (s.(responses := s.responses[c := ResponseRecordOf(p, c, r)]), Load(c, true))
    case CheckResponse(c) => (s, if c in s.responses then Load(c, true) else CheckHalt(c))
    case CheckHalt(c) => (s, if HaltAllowed(p, c, v) then CheckHaltFile(c) else Idle)
    case CheckHaltFile(c) => (s, if c in s.results then Idle else CreateHaltFile(c))
    case CreateHaltFile(c) =>
      if c in s.results then (s, Idle)
      else (s.(results := s.results[c := ResultRecordOf(p, c, UnknownSpendHalt)]), Idle)
    case Load(c, reserved) =>
      var r := LoadResponse(p, c, s.responses);
      (s, if r.Err? then Idle else if reserved then RecoverForResponse(c, r.value)
       else CheckResult(c, OfResponse(r.value)))
    case RecoverForResponse(c, record) =>
      var r := RecoverOp(s.ledger, p.auth, p.claim, c, RequestOf(p, c), CallOf(p, c), Some(OfResponse(record)));
      (s, if r.Err? || record.caseId != c then Idle else AppendResponse(record, r.value))
    case AppendResponse(record, token) =>
      var (l, r) := RecordResponseOp(s.ledger, p.auth, p.claim, token, OfResponse(record), record.cost, at);
      (s.(ledger := l), if r.Ok? then CheckResult(record.caseId, OfResponse(record)) else Idle)
    case CheckResult(c, response) =>
      (s, if c !in s.results then CreateResult(c, response)
          else if s.results[c] == ResultRecordOf(p, c, Durable(response)) then RecoverForResult(c, response)
          else Idle)
    case CreateResult(c, response) =>
      if c in s.results then (s, Idle)
      else (s.(results := s.results[c := ResultRecordOf(p, c, Durable(response))]), RecoverForResult(c, response))
    case RecoverForResult(c, response) =>
      var r := RecoverOp(s.ledger, p.auth, p.claim, c, RequestOf(p, c), CallOf(p, c), Some(response));
      (s, if r.Err? then Idle else AppendResult(c, response, r.value))
    case AppendResult(c, response, token) =>
      var result := OfResult(ResultRecordOf(p, c, Durable(response)));
      var (l, _) := RecordResultOp(s.ledger, p.auth, p.claim, token, response, result, at);
      (s.(ledger := l), Idle)
  }

  function PcOf(s: System, w: nat): Pc {
    if w in s.workers then s.workers[w] else Idle
  }

  function Do(p: Plan, s: System, act: Action): System
  {
    match act
    case Start(w, c) =>
      if PcOf(s, w).Idle? && c in p.auth.caseIds then s.(workers := s.workers[w := ReadState(c)]) else s
    case Step(w, at, reply) =>
      var pc := PcOf(s, w);
      if CaseOf(pc).Some? && !Known(p, CaseOf(pc).value) then s
      else
        var (s', pc') := Advance(p, s, pc, at, reply);
        s'.(workers := s.workers[w := pc'])
    case Crash(w) => s.(workers := s.workers[w := Idle])
    case LoseResponse(c) => s.(responses := s.responses - {c})
    case LoseResult(c) => s.(results := s.results - {c})
  }

  function Initial(p: Plan, claimedAt: int): System {
    System([NextEvent([], p.auth, None, Claimed(p.claim), claimedAt)], map[], map[], [], map[])
  }

  function Execute(p: Plan, claimedAt: int, acts: seq<Action>): System {
    if acts == [] then Initial(p, claimedAt)
    else Do(p, Execute(p, claimedAt, acts[..|acts| - 1]), acts[|acts| - 1])
  }

  // ---------------------------------------------------------------- at most one call

  ghost predicate ReservedIn(l: seq<Event>, c: string) {
    exists i :: 0 <= i < |l| && l[i].body.caseId == Some(c) && l[i].body.payload.CaseReserved?
  }

  ghost predicate Called(s: System, c: string) {
    exists i :: 0 <= i < |s.calls| && s.calls[i].caseId == c
  }

  /** Each call was preceded by its case's reservation, and no case was called twice. */
  ghost predicate CallsAreSafe(s: System) {
    && (forall i :: 0 <= i < |s.calls| ==>
          s.calls[i].ledgerLength <= |s.ledger| && ReservedIn(s.ledger[..s.calls[i].ledgerLength], s.calls[i].caseId))
    && (forall i, j :: 0 <= i < j < |s.calls| ==> s.calls[i].caseId != s.calls[j].caseId)
  }

  /** A worker about to call holds the only right to do so. */
  ghost predicate RightsAreExclusive(s: System) {
    forall w :: w in s.workers && s.workers[w].MustCall? ==>
      && ReservedIn(s.ledger, s.workers[w].c)
      && !Called(s, s.workers[w].c)
      && forall v :: v in s.workers && v != w ==> s.workers[v] != s.workers[w]
  }

  ghost predicate Safe(p: Plan, s: System) {
    Sound(s.ledger, p.auth, p.claim) && CallsAreSafe(s) && RightsAreExclusive(s)
  }

  /** A case is available exactly as long as no reservation of it is in the ledger. */
  lemma {:induction false} AvailableIffUnreserved(l: seq<Event>, a: Authorization, c: string)
    requires l != [] && !l[0].body.payload.CaseReserved? && Derive(l, a).Ok? && c in Derive(l, a).value.states
    ensures Derive(l, a).value.states[c].Available? <==> !ReservedIn(l, c)
  {
    if |l| > 1 {
      var n := |l| - 1;
      var p := l[..n];
      ApplyAdvances(Derive(p, a).value, l[n], a);
      assert Derive(l, a) == Apply(Derive(p, a).value, l[n], a);
      if c in Derive(p, a).value.states {
        AvailableIffUnreserved(p, a, c);
        if ReservedIn(p, c) {
          var i :| 0 <= i < |p| && p[i].body.caseId == Some(c) && p[i].body.payload.CaseReserved?;
          assert l[i] == p[i];
        } else if l[n].body.caseId == Some(c) && l[n].body.payload.CaseReserved? {
          assert ReservedIn(l, c);
        } else {
          assert forall i :: 0 <= i < |l| ==> !(l[i].body.caseId == Some(c) && l[i].body.payload.CaseReserved?) by {
            forall i | 0 <= i < |l| ensures !(l[i].body.caseId == Some(c) && l[i].body.payload.CaseReserved?) {
              if i < n { assert p[i] == l[i]; }
            }
          }
        }
      }
    }
  }

  lemma {:induction false} ReservedStays(l: seq<Event>, l': seq<Event>, c: string)
    requires l <= l' && ReservedIn(l, c)
    ensures ReservedIn(l', c)
  {
    var i :| 0 <= i < |l| && l[i].body.caseId == Some(c) && l[i].body.payload.CaseReserved?;
    assert l'[i] == l[i];
  }

  lemma {:induction false} OldCallsStaySafe(s: System, s': System)
    requires CallsAreSafe(s) && s.ledger <= s'.ledger && s'.calls == s.calls
    ensures CallsAreSafe(s')
  {
    forall i | 0 <= i < |s.calls|
      ensures ReservedIn(s'.ledger[..s.calls[i].ledgerLength], s.calls[i].caseId)
    {
      assert s'.ledger[..s.calls[i].ledgerLength] == s.ledger[..s.calls[i].ledgerLength];
    }
  }

  /** Any step that calls nobody and hands out no right to call. */
  lemma {:induction false} QuietStep(p: Plan, s: System, s': System, w: nat, pc: Pc)
    requires Safe(p, s) && Sound(s'.ledger, p.auth, p.claim)
    requires s.ledger <= s'.ledger && s'.calls == s.calls
    requires s'.workers == s.workers[w := pc] && !pc.MustCall?
    ensures Safe(p, s')
  {
    OldCallsStaySafe(s, s');
    forall v | v in s'.workers && s'.workers[v].MustCall?
      ensures ReservedIn(s'.ledger, s'.workers[v].c) && !Called(s', s'.workers[v].c)
      ensures forall u :: u in s'.workers && u != v ==> s'.workers[u] != s'.workers[v]
    {
      assert s'.workers[v] == s.workers[v];
      ReservedStays(s.ledger, s'.ledger, s'.workers[v].c);
    }
  }

  lemma {:induction false} CalledWasReserved(s: System, c: string)
    requires CallsAreSafe(s) && Called(s, c)
    ensures ReservedIn(s.ledger, c)
  {
    var i :| 0 <= i < |s.calls| && s.calls[i].caseId == c;
    ReservedStays(s.ledger[..s.calls[i].ledgerLength], s.ledger, c);
  }

  /** A granted reservation means nobody has reserved the case yet. */
  lemma {:induction false} GrantIsFirst(p: Plan, s: System, c: string, at: int)
    requires p.Valid() && Safe(p, s) && Known(p, c)
    requires ReserveOp(s.ledger, p.auth, p.claim, c, RequestOf(p, c), CallOf(p, c), at).1.Ok?
    ensures !ReservedIn(s.ledger, c)
    ensures var l := ReserveOp(s.ledger, p.auth, p.claim, c, RequestOf(p, c), CallOf(p, c), at).0;
            s.ledger <= l && ReservedIn(l, c)
  {
    AvailableIffUnreserved(s.ledger, p.auth, c);
    var l := ReserveOp(s.ledger, p.auth, p.claim, c, RequestOf(p, c), CallOf(p, c), at).0;
    assert l[|s.ledger|].body.caseId == Some(c) && l[|s.ledger|].body.payload.CaseReserved?;
  }

  /** The one step that hands out a right to call. */
  lemma {:induction false} GrantIsSafe(p: Plan, s: System, s': System, w: nat, c: string)
    requires Safe(p, s) && Sound(s'.ledger, p.auth, p.claim)
    requires s.ledger <= s'.ledger && s'.calls == s.calls && s'.workers == s.workers[w := MustCall(c)]
    requires !ReservedIn(s.ledger, c) && !Called(s, c) && ReservedIn(s'.ledger, c)
    ensures Safe(p, s')
  {
    hide Sound;
    OldCallsStaySafe(s, s');
    forall v | v in s'.workers && s'.workers[v].MustCall?
      ensures ReservedIn(s'.ledger, s'.workers[v].c) && !Called(s', s'.workers[v].c)
      ensures forall u :: u in s'.workers && u != v ==> s'.workers[u] != s'.workers[v]
    {
      if v != w {
        assert s'.workers[v] == s.workers[v];
        assert s.workers[v].c != c;
        ReservedStays(s.ledger, s'.ledger, s'.workers[v].c);
      }
    }
  }

  lemma {:induction false} ReserveStepIsSafe(p: Plan, s: System, w: nat, c: string, at: int, reply: Reply)
    requires p.Valid() && Safe(p, s) && Known(p, c)
    requires PcOf(s, w) == MayReserve(c)
    ensures Safe(p, Do(p, s, Step(w, at, reply)))
  {
    var r := ReserveOp(s.ledger, p.auth, p.claim, c, RequestOf(p, c), CallOf(p, c), at).1;
    var s' := Do(p, s, Step(w, at, reply));
    ReserveKeepsSound(s.ledger, p.auth, p.claim, c, RequestOf(p, c), CallOf(p, c), at);
    if r.Ok? {
      GrantIsFirst(p, s, c, at);
    }
    assert CallsAreSafe(s);
    hide ReserveOp, Safe, Sound, CallsAreSafe;
    if r.Ok? {
      assert !Called(s, c) by {
        if Called(s, c) { CalledWasReserved(s, c); assert false; }
      }
      GrantIsSafe(p, s, s', w, c);
    } else {
      QuietStep(p, s, s', w, Idle);
    }
  }

  lemma {:induction false} CallStepIsSafe(p: Plan, s: System, w: nat, c: string, at: int, reply: Reply)
    requires p.Valid() && Safe(p, s) && Known(p, c)
    requires w in s.workers && s.workers[w] == MustCall(c)
    ensures Safe(p, Do(p, s, Step(w, at, reply)))
  {
    var s' := Do(p, s, Step(w, at, reply));
    assert s'.ledger[..|s.ledger|] == s.ledger;
    forall i | 0 <= i < |s'.calls|
      ensures s'.calls[i].ledgerLength <= |s'.ledger|
              && ReservedIn(s'.ledger[..s'.calls[i].ledgerLength], s'.calls[i].caseId)
    {
      if i < |s.calls| { assert s'.calls[i] == s.calls[i]; }
    }
    forall v | v in s'.workers && s'.workers[v].MustCall?
      ensures ReservedIn(s'.ledger, s'.workers[v].c) && !Called(s', s'.workers[v].c)
      ensures forall u :: u in s'.workers && u != v ==> s'.workers[u] != s'.workers[v]
    {
      assert v != w && s'.workers[v] == s.workers[v];
      assert s.workers[v].c != c;
      assert !Called(s, s.workers[v].c);
    }
  }

  lemma {:induction false} ResponseStepIsSafe(p: Plan, s: System, w: nat, at: int, reply: Reply)
    requires p.Valid() && Safe(p, s)
    requires PcOf(s, w).AppendResponse? && Known(p, CaseOf(PcOf(s, w)).value)
    ensures Safe(p, Do(p, s, Step(w, at, reply)))
  {
    assert Sound(s.ledger, p.auth, p.claim);
    hide ReserveOp, RecordResponseOp, RecordResultOp, RecoverOp, Verify, LoadResponse, PortState, HaltAllowed, Usable,
         Sound, Safe;
    var s' := Do(p, s, Step(w, at, reply));
    var AppendResponse(record, token) := PcOf(s, w);
    RecordResponseKeepsSound(s.ledger, p.auth, p.claim, token, OfResponse(record), record.cost, at);
    QuietStep(p, s, s', w, s'.workers[w]);
  }

  lemma {:induction false} ResultStepIsSafe(p: Plan, s: System, w: nat, at: int, reply: Reply)
    requires p.Valid() && Safe(p, s)
    requires PcOf(s, w).AppendResult? && Known(p, CaseOf(PcOf(s, w)).value)
    ensures Safe(p, Do(p, s, Step(w, at, reply)))
  {
    assert Sound(s.ledger, p.auth, p.claim);
    hide ReserveOp, RecordResponseOp, RecordResultOp, RecoverOp, Verify, LoadResponse, PortState, HaltAllowed, Usable,
         Sound, Safe;
    var s' := Do(p, s, Step(w, at, reply));
    var AppendResult(c, response, token) := PcOf(s, w);
    RecordResultKeepsSound(s.ledger, p.auth, p.claim, token, response,
                           OfResult(ResultRecordOf(p, c, Durable(response))), at);
    QuietStep(p, s, s', w, Idle);
  }

  /** Every other step leaves ledger and calls alone. */
  lemma {:induction false} QuietAdvance(p: Plan, s: System, pc: Pc, at: int, reply: Reply)
    requires !pc.MayReserve? && !pc.MustCall? && !pc.AppendResponse? && !pc.AppendResult?
    requires CaseOf(pc).None? || Known(p, CaseOf(pc).value)
    ensures var (s', pc') := Advance(p, s, pc, at, reply);
            s'.ledger == s.ledger && s'.calls == s.calls && s'.workers == s.workers && !pc'.MustCall?
  {
    hide Verify, RecoverOp, LoadResponse, PortState, HaltAllowed, Usable;
  }

  lemma {:induction false} QuietStepIsSafe(p: Plan, s: System, w: nat, at: int, reply: Reply)
    requires p.Valid() && Safe(p, s)
    requires !PcOf(s, w).MayReserve? && !PcOf(s, w).MustCall? && !PcOf(s, w).AppendResponse?
             && !PcOf(s, w).AppendResult?
    requires CaseOf(PcOf(s, w)).None? || Known(p, CaseOf(PcOf(s, w)).value)
    ensures Safe(p, Do(p, s, Step(w, at, reply)))
  {
    assert Sound(s.ledger, p.auth, p.claim);
    hide Advance, Sound, Safe;
    QuietAdvance(p, s, PcOf(s, w), at, reply);
    var s' := Do(p, s, Step(w, at, reply));
    QuietStep(p, s, s', w, s'.workers[w]);
  }

  lemma {:induction false} StepIsSafe(p: Plan, s: System, w: nat, at: int, reply: Reply)
    requires p.Valid() && Safe(p, s)
    ensures Safe(p, Do(p, s, Step(w, at, reply)))
  {
    hide Safe, Advance;
    var pc := PcOf(s, w);
    if CaseOf(pc).None? || Known(p, CaseOf(pc).value) {
      match pc
      case MayReserve(c) => ReserveStepIsSafe(p, s, w, c, at, reply);
      case MustCall(c) => CallStepIsSafe(p, s, w, c, at, reply);
      case AppendResponse(_, _) => ResponseStepIsSafe(p, s, w, at, reply);
      case AppendResult(_, _, _) => ResultStepIsSafe(p, s, w, at, reply);
      case _ => QuietStepIsSafe(p, s, w, at, reply);
    }
  }

  lemma {:induction false} ActionIsSafe(p: Plan, s: System, act: Action)
    requires p.Valid() && Safe(p, s)
    ensures Safe(p, Do(p, s, act))
  {
    match act
    case Start(w, c) =>
      if PcOf(s, w).Idle? && c in p.auth.caseIds { QuietStep(p, s, Do(p, s, act), w, ReadState(c)); }
    case Step(w, at, reply) => StepIsSafe(p, s, w, at, reply);
    case Crash(w) => QuietStep(p, s, Do(p, s, act), w, Idle);
    case LoseResponse(_) => OldCallsStaySafe(s, Do(p, s, act));
    case LoseResult(_) => OldCallsStaySafe(s, Do(p, s, act));
  }

  /**
   Whatever the workers, the interleaving, the crashes, the clocks and the lost files: the provider is
   called at most once per case, only after that case's reservation, and the ledger stays sound.
   */
  lemma {:induction false} ProviderIsCalledAtMostOncePerCase(p: Plan, claimedAt: int, acts: seq<Action>)
    requires p.Valid()
    ensures var s := Execute(p, claimedAt, acts);
            Safe(p, s) && CallsAreSafe(s) && Sound(s.ledger, p.auth, p.claim)
  {
    if acts == [] {
      ClaimIsSound(p.auth, p.claim, claimedAt);
    } else {
      ProviderIsCalledAtMostOncePerCase(p, claimedAt, acts[..|acts| - 1]);
      ActionIsSafe(p, Execute(p, claimedAt, acts[..|acts| - 1]), acts[|acts| - 1]);
    }
  }

  // ---------------------------------------------------------------- write-ahead files

  /** What one event says about a file is true of the file. */
  predicate EventBacked(s: System, e: Event) {
    match e.body.payload
    case ResponseDurable(cost, _, _, response, _) =>
      && e.body.caseId.Some? && e.body.caseId.value in s.responses
      && response == OfResponse(s.responses[e.body.caseId.value]) && cost == s.responses[e.body.caseId.value].cost
    case CaseCompleted(_, _, _, result, _) =>
      && e.body.caseId.Some? && e.body.caseId.value in s.results
      && result == OfResult(s.results[e.body.caseId.value])
    case _ => true
  }

  /** What a worker remembers of a file is still what the file says. */
  predicate PcBacked(p: Plan, s: System, pc: Pc) {
    match pc
    case RecoverForResponse(c, record) => c in s.responses && s.responses[c] == record
    case AppendResponse(record, token) =>
      record.caseId in s.responses && s.responses[record.caseId] == record && token.caseId == record.caseId
    case RecoverForResult(c, response) =>
      Known(p, c) && c in s.results && s.results[c] == ResultRecordOf(p, c, Durable(response))
    case AppendResult(c, response, token) =>
      Known(p, c) && c in s.results && s.results[c] == ResultRecordOf(p, c, Durable(response)) && token.caseId == c
    case _ => true
  }

  ghost predicate WriteAhead(p: Plan, s: System) {
    && (forall i :: 0 <= i < |s.ledger| ==> EventBacked(s, s.ledger[i]))
    && (forall w :: w in s.workers ==> PcBacked(p, s, s.workers[w]))
  }

  predicate Loses(act: Action) {
    act.LoseResponse? || act.LoseResult?
  }

  /** Files are only ever created, never changed. */
  predicate FilesGrow(s: System, s': System) {
    && (forall c :: c in s.responses ==> c in s'.responses && s'.responses[c] == s.responses[c])
    && (forall c :: c in s.results ==> c in s'.results && s'.results[c] == s.results[c])
  }

  lemma {:induction false} BackingSurvives(p: Plan, s: System, s': System, w: nat)
    requires WriteAhead(p, s) && FilesGrow(s, s')
    requires s'.ledger == s.ledger
             || (|s'.ledger| == |s.ledger| + 1 && s.ledger <= s'.ledger && EventBacked(s', s'.ledger[|s.ledger|]))
    requires w in s'.workers && s'.workers == s.workers[w := s'.workers[w]] && PcBacked(p, s', s'.workers[w])
    ensures WriteAhead(p, s')
  {
    forall i | 0 <= i < |s'.ledger| ensures EventBacked(s', s'.ledger[i]) {
      if i < |s.ledger| { assert s'.ledger[i] == s.ledger[i] && EventBacked(s, s.ledger[i]); }
    }
    forall v | v in s'.workers ensures PcBacked(p, s', s'.workers[v]) {
      if v != w { assert PcBacked(p, s, s.workers[v]); }
    }
  }

  lemma {:induction false} StepBacks(p: Plan, s: System, w: nat, at: int, reply: Reply)
    requires p.Valid() && WriteAhead(p, s)
    ensures WriteAhead(p, Do(p, s, Step(w, at, reply)))
  {
    var pc := PcOf(s, w);
    if CaseOf(pc).None? || Known(p, CaseOf(pc).value) {
      assert PcBacked(p, s, pc);
      match pc
      case MayReserve(c) => AppendBacks(p, s, w, at, reply);
      case AppendResponse(_, _) => AppendBacks(p, s, w, at, reply);
      case AppendResult(_, _, _) => AppendBacks(p, s, w, at, reply);
      case _ => FileStepBacks(p, s, w, at, reply);
    }
  }

  /** The three steps that may append an event. */
  lemma {:induction false} AppendBacks(p: Plan, s: System, w: nat, at: int, reply: Reply)
    requires p.Valid() && WriteAhead(p, s) && PcBacked(p, s, PcOf(s, w))
    requires PcOf(s, w).MayReserve? || PcOf(s, w).AppendResponse? || PcOf(s, w).AppendResult?
    requires Known(p, CaseOf(PcOf(s, w)).value)
    ensures WriteAhead(p, Do(p, s, Step(w, at, reply)))
  {
    hide Verify, WriteAhead;
    var s' := Do(p, s, Step(w, at, reply));
    match PcOf(s, w)
    case MayReserve(c) =>
      BackingSurvives(p, s, s', w);
    case AppendResponse(record, token) =>
      TokenKeepsCase(s.ledger, p, token, OfResponse(record), record.cost, at);
      BackingSurvives(p, s, s', w);
    case AppendResult(c, response, token) =>
      ResultKeepsCase(s.ledger, p, token, response, OfResult(ResultRecordOf(p, c, Durable(response))), at);
      BackingSurvives(p, s, s', w);
  }

  lemma {:induction false} TokenKeepsCase(l: seq<Event>, p: Plan, r: Token, response: Digest, cost: int, at: int)
    ensures var l' := RecordResponseOp(l, p.auth, p.claim, r, response, cost, at).0;
            l' == l || (l <= l' && |l'| == |l| + 1 && l'[|l|].body.caseId == Some(r.caseId)
                        && l'[|l|].body.payload.ResponseDurable?
                        && l'[|l|].body.payload.response == response && l'[|l|].body.payload.cost == cost)
  {
    hide Verify;
  }

  lemma {:induction false} ResultKeepsCase(l: seq<Event>, p: Plan, r: Token, response: Digest, result: Digest, at: int)
    ensures var l' := RecordResultOp(l, p.auth, p.claim, r, response, result, at).0;
            l' == l || (l <= l' && |l'| == |l| + 1 && l'[|l|].body.caseId == Some(r.caseId)
                        && l'[|l|].body.payload.CaseCompleted? && l'[|l|].body.payload.result == result)
  {
    hide Verify;
  }

  /** Every other step leaves the ledger alone. */
  lemma {:induction false} FileStepGrows(p: Plan, s: System, w: nat, at: int, reply: Reply)
    requires !PcOf(s, w).MayReserve? && !PcOf(s, w).AppendResponse? && !PcOf(s, w).AppendResult?
    requires CaseOf(PcOf(s, w)).None? || Known(p, CaseOf(PcOf(s, w)).value)
    ensures var s' := Do(p, s, Step(w, at, reply));
            && s'.ledger == s.ledger && FilesGrow(s, s')
            && w in s'.workers && s'.workers == s.workers[w := s'.workers[w]]
  {
    hide Verify, RecoverOp, PortState, HaltAllowed;
  }

  lemma {:induction false} FileStepBacksWorker(p: Plan, s: System, w: nat, at: int, reply: Reply)
    requires PcBacked(p, s, PcOf(s, w))
    requires !PcOf(s, w).MayReserve? && !PcOf(s, w).AppendResponse? && !PcOf(s, w).AppendResult?
    requires CaseOf(PcOf(s, w)).None? || Known(p, CaseOf(PcOf(s, w)).value)
    ensures var s' := Do(p, s, Step(w, at, reply)); w in s'.workers && PcBacked(p, s', s'.workers[w])
  {
    RecoverKeepsCase(s.ledger, p);
    hide Verify, RecoverOp, PortState, HaltAllowed;
  }

  lemma {:induction false} FileStepBacks(p: Plan, s: System, w: nat, at: int, reply: Reply)
    requires WriteAhead(p, s) && PcBacked(p, s, PcOf(s, w))
    requires !PcOf(s, w).MayReserve? && !PcOf(s, w).AppendResponse? && !PcOf(s, w).AppendResult?
    requires CaseOf(PcOf(s, w)).None? || Known(p, CaseOf(PcOf(s, w)).value)
    ensures WriteAhead(p, Do(p, s, Step(w, at, reply)))
  {
    hide Do, WriteAhead, PcBacked, FilesGrow;
    FileStepGrows(p, s, w, at, reply);
    FileStepBacksWorker(p, s, w, at, reply);
    BackingSurvives(p, s, Do(p, s, Step(w, at, reply)), w);
  }

  lemma {:induction false} RecoverKeepsCase(l: seq<Event>, p: Plan)
    ensures forall c, request, call, durable ::
              RecoverOp(l, p.auth, p.claim, c, request, call, durable).Ok? ==>
              RecoverOp(l, p.auth, p.claim, c, request, call, durable).value.caseId == c
  {
  }

  /**
   As long as nothing outside the protocol touches the files: every recorded response has its file, with
   that digest and cost, and every recorded result has its file, however many workers ran and crashed.
   */
  lemma {:induction false} EventsFollowTheirFiles(p: Plan, claimedAt: int, acts: seq<Action>)
    requires p.Valid() && forall i :: 0 <= i < |acts| ==> !Loses(acts[i])
    ensures WriteAhead(p, Execute(p, claimedAt, acts))
  {
    if acts != [] {
      var before := acts[..|acts| - 1];
      EventsFollowTheirFiles(p, claimedAt, before);
      var s := Execute(p, claimedAt, before);
      match acts[|acts| - 1]
      case Start(w, c) =>
        if PcOf(s, w).Idle? && c in p.auth.caseIds {
          BackingSurvives(p, s, s.(workers := s.workers[w := ReadState(c)]), w);
        }
      case Step(w, at, reply) => StepBacks(p, s, w, at, reply);
      case Crash(w) => BackingSurvives(p, s, s.(workers := s.workers[w := Idle]), w);
      case LoseResponse(_) =>
      case LoseResult(_) =>
    }
  }
}

/**
 Where a single-controller campaign can stand: `Canonical` says that `k` cases are finished and that
 case `k` is at one of six stages. The lemmas say what each operation does at each stage; module
 `Controller` holds the code that performs them.
 */
module Campaign {
  import opened Wrappers
  import opened Records
  import opened SpendLedger
  import opened LedgerFacts
  import opened Transcripts
  import opened Runtime

  /** Everything that survives a crash, and the provider's own record of the calls it received. */
  datatype World = World(
    ledger: seq<Event>, responses: map<string, ResponseRecord>, results: map<string, ResultRecord>, calls: seq<string>)

  datatype Stage =
    | Fresh              // nothing of case k is durable
    | ReservedOnly       // its reservation is, its response is not
    | HaltWritten        // as before, and the unknown-spend result is
    | ResponseWritten    // its response file is, the ledger does not know yet
    | ResponseRecorded   // the ledger does
    | ResultWritten      // its result file is durable too

  type Provider = string -> Reply

  function Ids(p: Plan): seq<string> {
    p.auth.caseIds
  }

  function SuccessResult(p: Plan, provider: Provider, c: string): ResultRecord
    requires c in p.auth.requests && c in p.inputs && provider(c).Answer?
  {
    ResultRecordOf(p, c, Durable(OfResponse(ResponseRecordOf(p, c, provider(c)))))
  }

  function EntryOf(p: Plan, provider: Provider, c: string): Entry
    requires c in p.auth.requests && c in p.inputs
  {
    if Usable(p, provider(c)) then
      var r := ResponseRecordOf(p, c, provider(c));
      Entry(RequestOf(p, c), CallOf(p, c), OfResponse(r), r.cost, OfResult(SuccessResult(p, provider, c)))
    else Entry(RequestOf(p, c), CallOf(p, c), Malformed(""), 0, Malformed(""))
  }

  ghost function EntriesOf(p: Plan, provider: Provider): (entries: seq<Entry>)
    requires p.Valid()
    ensures |entries| == |Ids(p)|
  {
    seq(|Ids(p)|, i requires 0 <= i < |Ids(p)| => EntryOf(p, provider, Ids(p)[i]))
  }

  ghost predicate UsableUpTo(p: Plan, provider: Provider, m: nat)
    requires m <= |Ids(p)|
  {
    forall i :: 0 <= i < m ==> Usable(p, provider(Ids(p)[i]))
  }

  ghost function ResponsesUpTo(p: Plan, provider: Provider, m: nat): map<string, ResponseRecord>
    requires p.Valid() && m <= |Ids(p)| && UsableUpTo(p, provider, m)
  {
    if m == 0 then map[]
    else ResponsesUpTo(p, provider, m - 1)[Ids(p)[m - 1] := ResponseRecordOf(p, Ids(p)[m - 1], provider(Ids(p)[m - 1]))]
  }

  ghost function ResultsUpTo(p: Plan, provider: Provider, m: nat): map<string, ResultRecord>
    requires p.Valid() && m <= |Ids(p)| && UsableUpTo(p, provider, m)
  {
    if m == 0 then map[]
    else ResultsUpTo(p, provider, m - 1)[Ids(p)[m - 1] := SuccessResult(p, provider, Ids(p)[m - 1])]
  }

  /** How many events of case `k` a stage stands for. */
  function Events(s: Stage): nat {
    match s
    case Fresh => 0
    case ReservedOnly => 1
    case HaltWritten => 1
    case ResponseWritten => 1
    case ResponseRecorded => 2
    case ResultWritten => 2
  }

  /** How many responses are on disk. */
  function Responses(k: nat, s: Stage): nat {
    if s.ResponseWritten? || s.ResponseRecorded? || s.ResultWritten? then k + 1 else k
  }

  /** The ledger holds `k` whole transactions and `e` events of the next, and it verifies. */
  ghost predicate LedgerAt(l: seq<Event>, p: Plan, provider: Provider, k: nat, e: nat)
    requires p.Valid()
  {
    && k <= |Ids(p)| && e <= 2 && (e > 0 ==> k < |Ids(p)|)
    && |l| == 1 + 3 * k + e
    && Verify(l, p.auth, p.claim).Ok?
    && Positional(l, p.auth, EntriesOf(p, provider))
  }

  ghost predicate FilesAt(w: World, p: Plan, provider: Provider, k: nat, s: Stage)
    requires p.Valid() && k <= |Ids(p)| && (!s.Fresh? ==> k < |Ids(p)|)
  {
    && UsableUpTo(p, provider, Responses(k, s))
    && w.responses == ResponsesUpTo(p, provider, Responses(k, s))
    && w.results == (match s
        case HaltWritten => ResultsUpTo(p, provider, k)[Ids(p)[k] := ResultRecordOf(p, Ids(p)[k], UnknownSpendHalt)]
        case ResultWritten => ResultsUpTo(p, provider, k + 1)
        case _ => ResultsUpTo(p, provider, k))
    && (match s
        case Fresh => w.calls == Ids(p)[..k]
        case ReservedOnly => w.calls == Ids(p)[..k] || w.calls == Ids(p)[..k + 1]
        case HaltWritten => w.calls == Ids(p)[..k] || w.calls == Ids(p)[..k + 1]
        case _ => w.calls == Ids(p)[..k + 1])
  }

  ghost predicate Canonical(w: World, p: Plan, provider: Provider, k: nat, s: Stage)
    requires p.Valid()
  {
    && k <= |Ids(p)| && (!s.Fresh? ==> k < |Ids(p)|)
    && LedgerAt(w.ledger, p, provider, k, Events(s))
    && FilesAt(w, p, provider, k, s)
  }

  function LastTime(l: seq<Event>): int
    requires l != []
  {
    l[|l| - 1].body.recordedAt
  }

  // ---------------------------------------------------------------- the ledger, step by step

  /** The derived state of every case, from the position alone. */
  lemma {:induction false} CaseStates(l: seq<Event>, p: Plan, provider: Provider, k: nat, e: nat)
    requires p.Valid() && LedgerAt(l, p, provider, k, e)
    ensures var t := Verify(l, p.auth, p.claim).value;
            Conserved(t, p.auth) && StatesAre(t, l, p.auth, EntriesOf(p, provider))
  {
    TranscriptDerives(l, p.auth, EntriesOf(p, provider));
    DeriveConserves(l, p.auth);
  }

  predicate StateIs(v: Result<Tally, Rejection>, c: string, s: CaseState) {
    v.Ok? && c in v.value.states && v.value.states[c] == s
  }

  /** The state of case `i` that the position dictates. */
  function DueState(l: seq<Event>, p: Plan, provider: Provider, i: nat): CaseState
    requires p.Valid() && i < |Ids(p)|
  {
    StateAt(l, i, EntryOf(p, provider, Ids(p)[i]))
  }

  lemma {:induction false} StateOfCase(l: seq<Event>, p: Plan, provider: Provider, k: nat, e: nat, i: nat)
    requires p.Valid() && LedgerAt(l, p, provider, k, e) && i < |Ids(p)|
    ensures StateIs(Verify(l, p.auth, p.claim), Ids(p)[i], DueState(l, p, provider, i))
    ensures |l| == 1 + 3 * k + e && e <= 2
  {
    CaseStates(l, p, provider, k, e);
    assert EntriesOf(p, provider)[i] == EntryOf(p, provider, Ids(p)[i]);
    hide Verify;
  }

  lemma {:induction false} NothingHalted(l: seq<Event>, p: Plan, provider: Provider, k: nat)
    requires p.Valid() && LedgerAt(l, p, provider, k, 0)
    ensures !Halted(Verify(l, p.auth, p.claim).value)
  {
    CaseStates(l, p, provider, k, 0);
    BetweenTransactions(Verify(l, p.auth, p.claim).value, l, p.auth, EntriesOf(p, provider), k);
  }

  /** The next payload of the transcript. */
  function NextPayload(l: seq<Event>, p: Plan, provider: Provider, k: nat, e: nat): Payload
    requires p.Valid() && k < |Ids(p)| && |l| == 1 + 3 * k + e && e <= 2
  {
    var n := EntryOf(p, provider, Ids(p)[k]);
    if e == 0 then CaseReserved(n.call, p.auth.perCaseCap, n.request)
    else if e == 1 then ResponseDurable(n.cost, n.call, n.request, n.response, l[1 + 3 * k].digest)
    else CaseCompleted(n.call, n.request, n.response, n.result, l[1 + 3 * k].digest)
  }

  /** The next event of the transcript, appended with a clock that has not run backwards. */
  lemma {:induction false} NextInOrder(l: seq<Event>, p: Plan, provider: Provider, k: nat, e: nat, at: int)
    requires p.Valid() && LedgerAt(l, p, provider, k, e) && k < |Ids(p)| && LastTime(l) <= at
    requires e > 0 ==> Usable(p, provider(Ids(p)[k]))
    ensures var l' := l + [NextEvent(l, p.auth, Some(Ids(p)[k]), NextPayload(l, p, provider, k, e), at)];
            && LastTime(l') == at
            && if e == 2 then LedgerAt(l', p, provider, k + 1, 0) else LedgerAt(l', p, provider, k, e + 1)
  {
    var entries := EntriesOf(p, provider);
    var payload := NextPayload(l, p, provider, k, e);
    var l' := l + [NextEvent(l, p.auth, Some(Ids(p)[k]), payload, at)];
    NextIsPositional(l, p, provider, k, e, at);
    hide Positional, EntriesOf, NextPayload;
    AppendVerifiesIffClockMonotone(l, p.auth, p.claim, Some(Ids(p)[k]), payload, at);
    TranscriptDerives(l', p.auth, entries);
    assert l'[..|l'| - 1] == l;
  }

  lemma {:induction false} NextIsPositional(l: seq<Event>, p: Plan, provider: Provider, k: nat, e: nat, at: int)
    requires p.Valid() && k < |Ids(p)| && e <= 2 && |l| == 1 + 3 * k + e
             && Positional(l, p.auth, EntriesOf(p, provider))
    requires e > 0 ==> Usable(p, provider(Ids(p)[k]))
    ensures Positional(l + [NextEvent(l, p.auth, Some(Ids(p)[k]), NextPayload(l, p, provider, k, e), at)], p.auth,
                       EntriesOf(p, provider))
  {
    var entries := EntriesOf(p, provider);
    var l' := l + [NextEvent(l, p.auth, Some(Ids(p)[k]), NextPayload(l, p, provider, k, e), at)];
    forall i | 0 <= i < |entries| ensures TripleAt(l', i, p.auth.caseIds[i], entries[i], p.auth.perCaseCap) {
      assert TripleAt(l, i, p.auth.caseIds[i], entries[i], p.auth.perCaseCap);
      assert entries[i] == EntryOf(p, provider, Ids(p)[i]);
    }
  }

  lemma {:induction false} ReserveStep(l: seq<Event>, p: Plan, provider: Provider, k: nat, at: int)
    requires p.Valid() && LedgerAt(l, p, provider, k, 0) && k < |Ids(p)| && LastTime(l) <= at
    ensures var c := Ids(p)[k];
            var (l', r) := ReserveOp(l, p.auth, p.claim, c, RequestOf(p, c), CallOf(p, c), at);
            && r.Ok? && LastTime(l') == at && LedgerAt(l', p, provider, k, 1)
  {
    StateOfCase(l, p, provider, k, 0, k);
    NothingHalted(l, p, provider, k);
    NextInOrder(l, p, provider, k, 0, at);
  }

  /** The token `recover_v021_case_reservation` reissues for case `k`. */
  function TokenOf(l: seq<Event>, p: Plan, c: string, k: nat, response: Digest): Token
    requires c in p.auth.requests && 1 + 3 * k < |l|
  {
    Token(c, Reservation(RequestOf(p, c), CallOf(p, c), l[1 + 3 * k].digest), Some(response))
  }

  lemma {:induction false} RecoverStep(l: seq<Event>, p: Plan, provider: Provider, k: nat, e: nat)
    requires p.Valid() && LedgerAt(l, p, provider, k, e) && 1 <= e && Usable(p, provider(Ids(p)[k]))
    ensures |l| == 1 + 3 * k + e
    ensures var c := Ids(p)[k];
            var response := OfResponse(ResponseRecordOf(p, c, provider(c)));
            RecoverOp(l, p.auth, p.claim, c, RequestOf(p, c), CallOf(p, c), Some(response))
              == Ok(TokenOf(l, p, c, k, response))
  {
    assert 0 <= k < |Ids(p)| && e <= 2;
    hide LedgerAt, Verify;
    StateOfCase(l, p, provider, k, e, k);
  }

  lemma {:induction false} RecordResponseStep(l: seq<Event>, p: Plan, provider: Provider, k: nat, at: int)
    requires p.Valid() && LedgerAt(l, p, provider, k, 1) && Usable(p, provider(Ids(p)[k])) && LastTime(l) <= at
    ensures var c := Ids(p)[k];
            var record := ResponseRecordOf(p, c, provider(c));
            var token := TokenOf(l, p, c, k, OfResponse(record));
            var (l', r) := RecordResponseOp(l, p.auth, p.claim, token, OfResponse(record), record.cost, at);
            && r.Ok? && LastTime(l') == at && LedgerAt(l', p, provider, k, 2)
  {
    var c := Ids(p)[k];
    var record := ResponseRecordOf(p, c, provider(c));
    StateOfCase(l, p, provider, k, 1, k);
    ResponseIsAppended(l, p.auth, p.claim, TokenOf(l, p, c, k, OfResponse(record)), OfResponse(record), record.cost,
                       at);
    NextInOrder(l, p, provider, k, 1, at);
  }

  lemma {:induction false} RecordResultStep(l: seq<Event>, p: Plan, provider: Provider, k: nat, at: int)
    requires p.Valid() && LedgerAt(l, p, provider, k, 2) && Usable(p, provider(Ids(p)[k])) && LastTime(l) <= at
    ensures var c := Ids(p)[k];
            var response := OfResponse(ResponseRecordOf(p, c, provider(c)));
            var token := TokenOf(l, p, c, k, response);
            var (l', r) := RecordResultOp(l, p.auth, p.claim, token, response, OfResult(SuccessResult(p, provider, c)),
                                          at);
            && r.Ok? && LastTime(l') == at && LedgerAt(l', p, provider, k + 1, 0)
  {
    NextInOrder(l, p, provider, k, 2, at);
    hide LedgerAt, Verify;
    StateOfCase(l, p, provider, k, 2, k);
  }

  // ---------------------------------------------------------------- the files

  lemma {:induction false} ResponseAt(p: Plan, provider: Provider, m: nat, i: nat)
    requires p.Valid() && m <= |Ids(p)| && i < |Ids(p)| && UsableUpTo(p, provider, m)
    ensures Ids(p)[i] in ResponsesUpTo(p, provider, m) <==> i < m
    ensures i < m ==> ResponsesUpTo(p, provider, m)[Ids(p)[i]] == ResponseRecordOf(p, Ids(p)[i], provider(Ids(p)[i]))
  {
    if m > 0 {
      ResponseAt(p, provider, m - 1, i);
    }
  }

  lemma {:induction false} ResultAt(p: Plan, provider: Provider, m: nat, i: nat)
    requires p.Valid() && m <= |Ids(p)| && i < |Ids(p)| && UsableUpTo(p, provider, m)
    ensures Ids(p)[i] in ResultsUpTo(p, provider, m) <==> i < m
    ensures i < m ==> ResultsUpTo(p, provider, m)[Ids(p)[i]] == SuccessResult(p, provider, Ids(p)[i])
  {
    if m > 0 {
      ResultAt(p, provider, m - 1, i);
    }
  }

  /** The response file of case `k` exists, and loads, exactly from stage `ResponseWritten` on. */
  lemma {:induction false} ResponseFile(w: World, p: Plan, provider: Provider, k: nat, s: Stage)
    requires p.Valid() && k < |Ids(p)| && FilesAt(w, p, provider, k, s)
    ensures var c := Ids(p)[k];
            && (c in w.responses <==> Responses(k, s) == k + 1)
            && (c in w.responses ==> Usable(p, provider(c)) && w.responses[c] == ResponseRecordOf(p, c, provider(c))
                                     && LoadResponse(p, c, w.responses) == Ok(ResponseRecordOf(p, c, provider(c))))
  {
    hide ResponsesUpTo, ResultsUpTo;
    ResponseAt(p, provider, Responses(k, s), k);
    if Responses(k, s) == k + 1 {
      StoredResponseLoads(p, Ids(p)[k], provider(Ids(p)[k]), w.responses);
    }
  }

  lemma {:induction false} ResultFile(w: World, p: Plan, provider: Provider, k: nat, s: Stage)
    requires p.Valid() && k < |Ids(p)| && FilesAt(w, p, provider, k, s)
    ensures var c := Ids(p)[k];
            && (c in w.results <==> s.HaltWritten? || s.ResultWritten?)
            && (s.HaltWritten? ==> w.results[c] == ResultRecordOf(p, c, UnknownSpendHalt))
            && (s.ResultWritten? ==> w.results[c] == SuccessResult(p, provider, c))
  {
    hide ResponsesUpTo, ResultsUpTo;
    if s.ResultWritten? {
      ResultAt(p, provider, k + 1, k);
    } else {
      ResultAt(p, provider, k, k);
    }
  }

  lemma {:induction false} FilesAfterReserve(w: World, w': World, p: Plan, provider: Provider, k: nat)
    requires p.Valid() && k < |Ids(p)| && FilesAt(w, p, provider, k, Fresh)
    requires w'.responses == w.responses && w'.results == w.results
    requires w'.calls == w.calls || w'.calls == w.calls + [Ids(p)[k]]
    ensures FilesAt(w', p, provider, k, ReservedOnly)
    ensures w'.calls != w.calls ==> w'.calls == Ids(p)[..k + 1]
  {
    assert Ids(p)[..k + 1] == Ids(p)[..k] + [Ids(p)[k]];
  }

  lemma {:induction false} FilesAfterHalt(w: World, w': World, p: Plan, provider: Provider, k: nat)
    requires p.Valid() && k < |Ids(p)| && FilesAt(w, p, provider, k, ReservedOnly)
    requires w'.responses == w.responses && w'.calls == w.calls
    requires w'.results == w.results[Ids(p)[k] := ResultRecordOf(p, Ids(p)[k], UnknownSpendHalt)]
    ensures FilesAt(w', p, provider, k, HaltWritten)
  {
  }

  lemma {:induction false} FilesAfterResponse(w: World, w': World, p: Plan, provider: Provider, k: nat)
    requires p.Valid() && k < |Ids(p)| && FilesAt(w, p, provider, k, ReservedOnly)
    requires w.calls == Ids(p)[..k + 1] && Usable(p, provider(Ids(p)[k]))
    requires w'.results == w.results && w'.calls == w.calls
    requires w'.responses == w.responses[Ids(p)[k] := ResponseRecordOf(p, Ids(p)[k], provider(Ids(p)[k]))]
    ensures FilesAt(w', p, provider, k, ResponseWritten)
  {
  }

  lemma {:induction false} FilesAfterRecord(w: World, w': World, p: Plan, provider: Provider, k: nat)
    requires p.Valid() && k < |Ids(p)| && FilesAt(w, p, provider, k, ResponseWritten)
    requires w' == w.(ledger := w'.ledger)
    ensures FilesAt(w', p, provider, k, ResponseRecorded)
  {
  }

  lemma {:induction false} FilesAfterResult(w: World, w': World, p: Plan, provider: Provider, k: nat)
    requires p.Valid() && k < |Ids(p)| && FilesAt(w, p, provider, k, ResponseRecorded)
    requires Usable(p, provider(Ids(p)[k]))
    requires w'.responses == w.responses && w'.calls == w.calls
    requires w'.results == w.results[Ids(p)[k] := SuccessResult(p, provider, Ids(p)[k])]
    ensures FilesAt(w', p, provider, k, ResultWritten)
  {
  }

  lemma {:induction false} FilesAfterCompletion(w: World, w': World, p: Plan, provider: Provider, k: nat)
    requires p.Valid() && k < |Ids(p)| && FilesAt(w, p, provider, k, ResultWritten)
    requires w' == w.(ledger := w'.ledger)
    ensures FilesAt(w', p, provider, k + 1, Fresh)
  {
  }

  /** A finished case is loaded, not run again. */
  lemma {:induction false} FinishedPort(l: seq<Event>, p: Plan, provider: Provider, k: nat, e: nat, i: nat)
    requires p.Valid() && LedgerAt(l, p, provider, k, e) && i < k && i < |Ids(p)| && Usable(p, provider(Ids(p)[i]))
    ensures var c := Ids(p)[i];
            var state := PortState(p, c, Verify(l, p.auth, p.claim));
            && state.Ok? && state.value.Completed? && state.value.result == OfResult(SuccessResult(p, provider, c))
            && state.value.response == OfResponse(ResponseRecordOf(p, c, provider(c)))
  {
    hide LedgerAt, Verify;
    StateOfCase(l, p, provider, k, e, i);
  }

  lemma {:induction false} StoredResultLoads(p: Plan, provider: Provider, c: string, files: map<string, ResultRecord>)
    requires c in p.auth.requests && c in p.inputs && provider(c).Answer?
    requires c in files && files[c] == SuccessResult(p, provider, c)
    ensures LoadResult(p, c, files, OfResult(files[c])) == Ok(OfResult(files[c]))
  {
  }

  lemma {:induction false} FinishedCaseLoads(w: World, p: Plan, provider: Provider, k: nat, s: Stage, i: nat)
    requires p.Valid() && Canonical(w, p, provider, k, s) && i < k
    ensures var c := Ids(p)[i];
            var state := PortState(p, c, Verify(w.ledger, p.auth, p.claim));
            && Usable(p, provider(c))
            && state.Ok? && state.value.Completed?
            && state.value.result == OfResult(SuccessResult(p, provider, c))
            && state.value.response == OfResponse(ResponseRecordOf(p, c, provider(c)))
            && LoadResult(p, c, w.results, state.value.result) == Ok(state.value.result)
  {
    FinishedCaseFile(w, p, provider, k, s, i);
    FinishedPort(w.ledger, p, provider, k, Events(s), i);
    hide FilesAt, LedgerAt, Verify, PortState, LoadResult, SuccessResult;
    StoredResultLoads(p, provider, Ids(p)[i], w.results);
  }

  lemma {:induction false} FinishedCaseFile(w: World, p: Plan, provider: Provider, k: nat, s: Stage, i: nat)
    requires p.Valid() && k <= |Ids(p)| && (!s.Fresh? ==> k < |Ids(p)|)
    requires FilesAt(w, p, provider, k, s) && i < k
    ensures var c := Ids(p)[i];
            && Usable(p, provider(c))
            && c in w.responses && w.responses[c] == ResponseRecordOf(p, c, provider(c))
            && c in w.results && w.results[c] == SuccessResult(p, provider, c)
  {
    hide ResponsesUpTo, ResultsUpTo;
    ResponseAt(p, provider, Responses(k, s), i);
    ResultAt(p, provider, if s.ResultWritten? then k + 1 else k, i);
  }

  /** What the port reports for the current case. */
  lemma {:induction false} CurrentCase(w: World, p: Plan, provider: Provider, k: nat, s: Stage)
    requires p.Valid() && Canonical(w, p, provider, k, s) && k < |Ids(p)|
    ensures var c := Ids(p)[k];
            var v := Verify(w.ledger, p.auth, p.claim);
            var state := PortState(p, c, v);
            && state.Ok?
            && (state.value.Available? <==> Events(s) == 0)
            && (state.value.Reserved? <==> Events(s) == 1)
            && (state.value.Responded? <==> Events(s) == 2)
            && (Events(s) == 1 ==> HaltAllowed(p, c, v))
  {
    assert LedgerAt(w.ledger, p, provider, k, Events(s));
    hide FilesAt, LedgerAt, Verify, Canonical;
    StateOfCase(w.ledger, p, provider, k, Events(s), k);
  }

  lemma {:induction false} Bounds(w: World, p: Plan, provider: Provider, k: nat, s: Stage)
    requires p.Valid() && Canonical(w, p, provider, k, s)
    ensures k <= |Ids(p)| && (!s.Fresh? ==> k < |Ids(p)|) && UsableUpTo(p, provider, k)
    ensures s.Fresh? ==> w.calls == Ids(p)[..k]
  {
  }

  // ---------------------------------------------------------------- one lemma per effect

  lemma {:induction false} ReserveEffect(w: World, p: Plan, provider: Provider, k: nat, at: int)
    requires p.Valid() && Canonical(w, p, provider, k, Fresh) && k < |Ids(p)| && LastTime(w.ledger) <= at
    ensures var c := Ids(p)[k];
            var (l', r) := ReserveOp(w.ledger, p.auth, p.claim, c, RequestOf(p, c), CallOf(p, c), at);
            && r.Ok? && l' != [] && LastTime(l') == at
            && Canonical(w.(ledger := l'), p, provider, k, ReservedOnly)
            && Canonical(w.(ledger := l', calls := w.calls + [c]), p, provider, k, ReservedOnly)
            && w.calls + [c] == Ids(p)[..k + 1]
  {
    ReserveStep(w.ledger, p, provider, k, at);
    var c := Ids(p)[k];
    var l' := ReserveOp(w.ledger, p.auth, p.claim, c, RequestOf(p, c), CallOf(p, c), at).0;
    FilesAfterReserve(w, w.(ledger := l'), p, provider, k);
    FilesAfterReserve(w, w.(ledger := l', calls := w.calls + [c]), p, provider, k);
  }

  lemma {:induction false} HaltEffect(w: World, p: Plan, provider: Provider, k: nat, s: Stage)
    requires p.Valid() && Canonical(w, p, provider, k, s) && k < |Ids(p)| && (s.ReservedOnly? || s.HaltWritten?)
    ensures var c := Ids(p)[k];
            var halt := ResultRecordOf(p, c, UnknownSpendHalt);
            && HaltAllowed(p, c, Verify(w.ledger, p.auth, p.claim))
            && c !in w.responses
            && (c in w.results <==> s.HaltWritten?)
            && (c in w.results ==> w.results[c] == halt)
            && (s.ReservedOnly? ==> Canonical(w.(results := w.results[c := halt]), p, provider, k, HaltWritten))
  {
    CurrentCase(w, p, provider, k, s);
    ResponseFile(w, p, provider, k, s);
    ResultFile(w, p, provider, k, s);
    if s.ReservedOnly? {
      var w' := w.(results := w.results[Ids(p)[k] := ResultRecordOf(p, Ids(p)[k], UnknownSpendHalt)]);
      FilesAfterHalt(w, w', p, provider, k);
    }
  }

  lemma {:induction false} ResponseFileEffect(w: World, p: Plan, provider: Provider, k: nat)
    requires p.Valid() && Canonical(w, p, provider, k, ReservedOnly) && k < |Ids(p)|
    requires Usable(p, provider(Ids(p)[k])) && w.calls == Ids(p)[..k + 1]
    ensures var c := Ids(p)[k];
            && c !in w.responses
            && Canonical(w.(responses := w.responses[c := ResponseRecordOf(p, c, provider(c))]), p, provider, k,
                         ResponseWritten)
  {
    var c := Ids(p)[k];
    ResponseFile(w, p, provider, k, ReservedOnly);
    FilesAfterResponse(w, w.(responses := w.responses[c := ResponseRecordOf(p, c, provider(c))]), p, provider, k);
  }

  /** From stage `ResponseWritten` on, the stored response is the one the provider gave. */
  lemma {:induction false} StoredResponse(w: World, p: Plan, provider: Provider, k: nat, s: Stage)
    requires p.Valid() && Canonical(w, p, provider, k, s) && k < |Ids(p)|
    requires s.ResponseWritten? || s.ResponseRecorded? || s.ResultWritten?
    ensures var c := Ids(p)[k];
            Usable(p, provider(c)) && LoadResponse(p, c, w.responses) == Ok(ResponseRecordOf(p, c, provider(c)))
  {
    ResponseFile(w, p, provider, k, s);
  }

  lemma {:induction false} PresentResponse(w: World, p: Plan, provider: Provider, k: nat, s: Stage)
    requires p.Valid() && Canonical(w, p, provider, k, s) && k < |Ids(p)|
    ensures Ids(p)[k] in w.responses <==> s.ResponseWritten? || s.ResponseRecorded? || s.ResultWritten?
  {
    ResponseFile(w, p, provider, k, s);
  }

  lemma {:induction false} RecordResponseEffect(w: World, p: Plan, provider: Provider, k: nat, at: int)
    requires p.Valid() && Canonical(w, p, provider, k, ResponseWritten) && k < |Ids(p)| && LastTime(w.ledger) <= at
    ensures var c := Ids(p)[k];
            && Usable(p, provider(c))
            && var record := ResponseRecordOf(p, c, provider(c));
            var token := RecoverOp(w.ledger, p.auth, p.claim, c, RequestOf(p, c), CallOf(p, c),
                                   Some(OfResponse(record)));
            && token.Ok?
            && var (l', r) := RecordResponseOp(w.ledger, p.auth, p.claim, token.value, OfResponse(record), record.cost,
                                               at);
            && r.Ok? && l' != [] && LastTime(l') == at
            && Canonical(w.(ledger := l'), p, provider, k, ResponseRecorded)
  {
    var c := Ids(p)[k];
    ResponseFile(w, p, provider, k, ResponseWritten);
    var record := ResponseRecordOf(p, c, provider(c));
    RecoverStep(w.ledger, p, provider, k, 1);
    RecordResponseStep(w.ledger, p, provider, k, at);
    var token := TokenOf(w.ledger, p, c, k, OfResponse(record));
    var l' := RecordResponseOp(w.ledger, p.auth, p.claim, token, OfResponse(record), record.cost, at).0;
    FilesAfterRecord(w, w.(ledger := l'), p, provider, k);
  }

  lemma {:induction false} ResultFileEffect(w: World, p: Plan, provider: Provider, k: nat, s: Stage)
    requires p.Valid() && Canonical(w, p, provider, k, s) && k < |Ids(p)| && (s.ResponseRecorded? || s.ResultWritten?)
    ensures var c := Ids(p)[k];
            && Usable(p, provider(c))
            && (c in w.results <==> s.ResultWritten?)
            && (c in w.results ==> w.results[c] == SuccessResult(p, provider, c))
            && (s.ResponseRecorded? ==>
                  Canonical(w.(results := w.results[c := SuccessResult(p, provider, c)]), p, provider, k,
                            ResultWritten))
  {
    ResponseFile(w, p, provider, k, s);
    ResultFile(w, p, provider, k, s);
    if s.ResponseRecorded? {
      FilesAfterResult(w, w.(results := w.results[Ids(p)[k] := SuccessResult(p, provider, Ids(p)[k])]), p, provider, k);
    }
  }

  lemma {:induction false} CompletionEffect(w: World, p: Plan, provider: Provider, k: nat, at: int)
    requires p.Valid() && Canonical(w, p, provider, k, ResultWritten) && k < |Ids(p)| && LastTime(w.ledger) <= at
    ensures var c := Ids(p)[k];
            && Usable(p, provider(c))
            && var response := OfResponse(ResponseRecordOf(p, c, provider(c)));
            var result := OfResult(SuccessResult(p, provider, c));
            var token := RecoverOp(w.ledger, p.auth, p.claim, c, RequestOf(p, c), CallOf(p, c), Some(response));
            && token.Ok?
            && var (l', r) := RecordResultOp(w.ledger, p.auth, p.claim, token.value, response, result, at);
            && r.Ok? && l' != [] && LastTime(l') == at
            && Canonical(w.(ledger := l'), p, provider, k + 1, Fresh)
  {
    var c := Ids(p)[k];
    ResponseFile(w, p, provider, k, ResultWritten);
    var response := OfResponse(ResponseRecordOf(p, c, provider(c)));
    RecoverStep(w.ledger, p, provider, k, 2);
    RecordResultStep(w.ledger, p, provider, k, at);
    var token := TokenOf(w.ledger, p, c, k, response);
    var l' := RecordResultOp(w.ledger, p.auth, p.claim, token, response, OfResult(SuccessResult(p, provider, c)), at).0;
    FilesAfterCompletion(w, w.(ledger := l'), p, provider, k);
  }
}

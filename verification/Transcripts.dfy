/**
 Ledgers in campaign order: a claim, then for each case of the cohort in turn its reservation, its
 durable response and its completion, cut off anywhere. Both ledger readers are compared on them.
 */
module Transcripts {
  import opened Wrappers
  import opened Records
  import opened SpendLedger
  import opened LedgerFacts

  /** What the three events of one case say, apart from the link to their own reservation. */
  datatype Entry = Entry(request: Digest, call: Digest, response: Digest, cost: int, result: Digest)

  predicate ReservedAt(l: seq<Event>, i: nat, c: string, n: Entry, cap: int)
    requires 1 + 3 * i < |l|
  {
    l[1 + 3 * i].body.caseId == Some(c) && l[1 + 3 * i].body.payload == CaseReserved(n.call, cap, n.request)
  }

  predicate RespondedAt(l: seq<Event>, i: nat, c: string, n: Entry)
    requires 2 + 3 * i < |l|
  {
    && l[2 + 3 * i].body.caseId == Some(c)
    && l[2 + 3 * i].body.payload == ResponseDurable(n.cost, n.call, n.request, n.response, l[1 + 3 * i].digest)
  }

  predicate CompletedAt(l: seq<Event>, i: nat, c: string, n: Entry)
    requires 3 + 3 * i < |l|
  {
    && l[3 + 3 * i].body.caseId == Some(c)
    && l[3 + 3 * i].body.payload == CaseCompleted(n.call, n.request, n.response, n.result, l[1 + 3 * i].digest)
  }

  /** The part of case `i`'s triple that the ledger has reached is the one `n` describes. */
  predicate TripleAt(l: seq<Event>, i: nat, c: string, n: Entry, cap: int) {
    && (1 + 3 * i < |l| ==> ReservedAt(l, i, c, n, cap) && IsSha(n.request) && IsSha(n.call))
    && (2 + 3 * i < |l| ==> RespondedAt(l, i, c, n) && IsSha(n.response) && 0 <= n.cost <= cap)
    && (3 + 3 * i < |l| ==> CompletedAt(l, i, c, n) && IsSha(n.result))
  }

  ghost predicate Positional(l: seq<Event>, a: Authorization, entries: seq<Entry>) {
    && |entries| == |a.caseIds|
    && 1 <= |l| <= 1 + 3 * |entries|
    && forall i :: 0 <= i < |entries| ==> TripleAt(l, i, a.caseIds[i], entries[i], a.perCaseCap)
  }

  /** The state case `i` must be in, read off the length of the ledger. */
  function StateAt(l: seq<Event>, i: nat, n: Entry): CaseState {
    if |l| <= 1 + 3 * i then Available
    else
      var r := Reservation(n.request, n.call, l[1 + 3 * i].digest);
      if |l| <= 2 + 3 * i then Reserved(r)
      else if |l| <= 3 + 3 * i then Responded(r, n.response, n.cost)
      else Completed(r, n.response, n.cost, n.result)
  }

  ghost predicate StatesAre(t: Tally, l: seq<Event>, a: Authorization, entries: seq<Entry>)
    requires |entries| == |a.caseIds|
  {
    && (forall c :: c in t.states <==> c in a.caseIds)
    && forall i :: 0 <= i < |entries| ==> t.states[a.caseIds[i]] == StateAt(l, i, entries[i])
  }

  lemma {:induction false} PositionalPrefix(l: seq<Event>, a: Authorization, entries: seq<Entry>)
    requires Positional(l, a, entries) && |l| > 1
    ensures Positional(l[..|l| - 1], a, entries)
  {
    var p := l[..|l| - 1];
    forall i | 0 <= i < |entries| ensures TripleAt(p, i, a.caseIds[i], entries[i], a.perCaseCap) {
      assert TripleAt(l, i, a.caseIds[i], entries[i], a.perCaseCap);
    }
  }

  /** A transcript derives, case by case, to the states its length dictates. */
  lemma {:induction false} TranscriptDerives(l: seq<Event>, a: Authorization, entries: seq<Entry>)
    requires a.Valid() && Positional(l, a, entries)
    ensures Derive(l, a).Ok? && StatesAre(Derive(l, a).value, l, a, entries)
  {
    if |l| > 1 {
      var p := l[..|l| - 1];
      PositionalPrefix(l, a, entries);
      TranscriptDerives(p, a, entries);
      DeriveConserves(p, a);
      LastEventApplies(Derive(p, a).value, l, a, entries, (|l| - 2) / 3);
    }
  }

  lemma {:induction false} LastEventApplies(t: Tally, l: seq<Event>, a: Authorization, entries: seq<Entry>, i: nat)
    requires a.Valid() && Positional(l, a, entries) && i < |entries|
    requires 2 + 3 * i <= |l| <= 4 + 3 * i
    requires Conserved(t, a) && StatesAre(t, l[..|l| - 1], a, entries)
    ensures var r := Apply(t, l[|l| - 1], a);
            r.Ok? && StatesAre(r.value, l, a, entries)
  {
    var p := l[..|l| - 1];
    var c := a.caseIds[i];
    assert TripleAt(l, i, c, entries[i], a.perCaseCap) && t.states[c] == StateAt(p, i, entries[i]);
    LastEventOfCase(t, l, a, c, i, entries[i]);
    hide Apply;
    var r := Apply(t, l[|l| - 1], a);
    forall j | 0 <= j < |entries| ensures r.value.states[a.caseIds[j]] == StateAt(l, j, entries[j]) {
      if j != i {
        assert a.caseIds[j] != c;
        assert StateAt(l, j, entries[j]) == StateAt(p, j, entries[j]);
      }
    }
  }

  lemma {:induction false} LastEventOfCase(t: Tally, l: seq<Event>, a: Authorization, c: string, i: nat, n: Entry)
    requires a.Valid() && Conserved(t, a) && c in t.states
    requires 2 + 3 * i <= |l| <= 4 + 3 * i && TripleAt(l, i, c, n, a.perCaseCap)
    requires t.states[c] == StateAt(l[..|l| - 1], i, n)
    ensures var r := Apply(t, l[|l| - 1], a);
            r.Ok? && r.value.states == t.states[c := StateAt(l, i, n)]
  {
    if |l| == 3 + 3 * i {
      Room(t, a, c, n.cost);
    }
    hide Conserved;
  }

  /** Between transactions no case is reserved without a response. */
  lemma {:induction false} BetweenTransactions(t: Tally, l: seq<Event>, a: Authorization, entries: seq<Entry>, k: nat)
    requires |entries| == |a.caseIds| && StatesAre(t, l, a, entries) && |l| == 1 + 3 * k
    ensures !Halted(t)
  {
    forall c | c in t.states ensures !t.states[c].Reserved? {
      var i :| 0 <= i < |a.caseIds| && a.caseIds[i] == c;
      assert t.states[a.caseIds[i]] == StateAt(l, i, entries[i]);
    }
  }

  /** The sum of the listed costs. */
  function SumCosts(entries: seq<Entry>): int {
    if entries == [] then 0 else entries[0].cost + SumCosts(entries[1..])
  }

  lemma {:induction false} SpendIsSum(states: map<string, CaseState>, ids: seq<string>, entries: seq<Entry>)
    requires |ids| == |entries|
    requires forall i :: 0 <= i < |ids| ==> ids[i] in states && CostOf(states[ids[i]]) == entries[i].cost
    ensures Spend(states, ids) == SumCosts(entries)
  {
    if ids != [] {
      SpendIsSum(states, ids[1..], entries[1..]);
    }
  }

  /** A complete transcript derives to every case completed and the sum of the entries' costs. */
  lemma {:induction false} CompleteTranscript(l: seq<Event>, a: Authorization, entries: seq<Entry>)
    requires a.Valid() && Positional(l, a, entries) && |l| == 1 + 3 * |entries|
    ensures Derive(l, a).Ok? && Complete(Derive(l, a).value)
    ensures Derive(l, a).value.total == SumCosts(entries)
  {
    TranscriptDerives(l, a, entries);
    DeriveConserves(l, a);
    var t := Derive(l, a).value;
    forall c | c in t.states ensures t.states[c].Completed? {
      var i :| 0 <= i < |a.caseIds| && a.caseIds[i] == c;
      assert t.states[c] == StateAt(l, i, entries[i]);
    }
    SpendIsSum(t.states, a.caseIds, entries);
  }
}

/**
 Which issues the derivation accepts and what it selects, said of the published histories themselves: without
 sorting, folding or replaying them.
 */
module IssueRecord {
  import opened Wrappers
  import opened IssueHistory

  predicate IsWhole<T>(c: Connection<T>) {
    c.fullyPaginated && |c.nodes| == c.total && c.total <= 100
  }

  /** Every revision of the body is there, none deleted, newest first, from the current body to the creation. */
  predicate BodyIsAccountedFor(issue: Issue) {
    var nodes := issue.edits.nodes;
    var last := |nodes| - 1;
    && IsWhole(issue.edits) && nodes != []
    && (forall i, j :: 0 <= i < j < |nodes| ==>
          nodes[i].id != nodes[j].id && nodes[j].editedAt.time < nodes[i].editedAt.time)
    && (forall i :: 0 <= i < |nodes| ==> !nodes[i].deleted)
    && nodes[last].editedAt.time == issue.createdAt.time && nodes[0].content == issue.body
    && (issue.lastEditedAt.None? <==> |nodes| == 1)
    && (issue.lastEditedAt.Some? ==> issue.lastEditedAt.value == nodes[0].editedAt.text)
  }

  /** One rename is the next after the other. */
  predicate Follows(rs: seq<Rename>, i: nat, j: nat)
    requires i < |rs| && j < |rs|
  {
    && rs[i].at.time < rs[j].at.time
    && forall k :: 0 <= k < |rs| ==> !(rs[i].at.time < rs[k].at.time < rs[j].at.time)
  }

  predicate IsLatest(rs: seq<Rename>, i: nat)
    requires i < |rs|
  {
    forall k :: 0 <= k < |rs| ==> rs[k].at.time <= rs[i].at.time
  }

  predicate IsEarliest(rs: seq<Rename>, i: nat)
    requires i < |rs|
  {
    forall k :: 0 <= k < |rs| ==> rs[i].at.time <= rs[k].at.time
  }

  /** Each rename starts from the title the one before it left, and the last one left the current title. */
  predicate Chains(rs: seq<Rename>, title: string) {
    && (forall i, j :: 0 <= i < |rs| && 0 <= j < |rs| && Follows(rs, i, j) ==> rs[j].previous == rs[i].current)
    && (forall i :: 0 <= i < |rs| && IsLatest(rs, i) ==> rs[i].current == title)
  }

  /** Every rename is there, at a moment of its own since the creation, and together they make the current title. */
  predicate TitleIsAccountedFor(issue: Issue) {
    var rs := issue.renames.nodes;
    && IsWhole(issue.renames)
    && (forall i, j :: 0 <= i < j < |rs| ==> rs[i].id != rs[j].id && rs[i].at.time != rs[j].at.time)
    && (forall i :: 0 <= i < |rs| ==> issue.createdAt.time <= rs[i].at.time)
    && Chains(rs, issue.title)
  }

  // ---------------------------------------------------------------- the body

  lemma {:induction false} NewestFirst(nodes: seq<BodyNode>, i: nat, j: nat)
    requires forall k :: 0 <= k < |nodes| - 1 ==> nodes[k].editedAt.time > nodes[k + 1].editedAt.time
    requires i < j < |nodes|
    ensures nodes[j].editedAt.time < nodes[i].editedAt.time
    decreases j - i
  {
    if i + 1 < j { NewestFirst(nodes, i + 1, j); }
  }

  lemma {:induction false} BodyIff(issue: Issue)
    ensures BodyHistoryOk(issue) <==> BodyIsAccountedFor(issue)
  {
    var nodes := issue.edits.nodes;
    if BodyHistoryOk(issue) {
      forall i, j | 0 <= i < j < |nodes| ensures nodes[j].editedAt.time < nodes[i].editedAt.time {
        NewestFirst(nodes, i, j);
      }
    }
    if BodyIsAccountedFor(issue) {
      forall i | 0 <= i < |nodes| ensures nodes[i].editedAt.time >= issue.createdAt.time {
        assert i < |nodes| - 1 ==> nodes[|nodes| - 1].editedAt.time < nodes[i].editedAt.time;
      }
    }
  }

  // ---------------------------------------------------------------- the title

  /** A sequence in strictly increasing order of time. */
  ghost predicate Increasing(rs: seq<Rename>) {
    forall i, j :: 0 <= i < j < |rs| ==> rs[i].at.time < rs[j].at.time
  }

  predicate Continues(rs: seq<Rename>, title: string, i: nat)
    requires i < |rs|
  {
    rs[i].previous == if i == 0 then title else rs[i - 1].current
  }

  /** In order, the chain is broken nowhere exactly when each rename starts from the one before. */
  lemma {:induction false} ChainIff(rs: seq<Rename>, title: string)
    ensures ChainEnd(rs, title).Some? <==> forall i :: 0 <= i < |rs| ==> Continues(rs, title, i)
    ensures ChainEnd(rs, title).Some? ==>
              ChainEnd(rs, title).value == if rs == [] then title else rs[|rs| - 1].current
  {
    if rs != [] {
      var n := |rs| - 1;
      ChainIff(rs[..n], title);
      assert forall i :: 0 <= i < n ==> (Continues(rs[..n], title, i) <==> Continues(rs, title, i));
      if ChainEnd(rs[..n], title).Some? {
        assert ChainEnd(rs, title).Some? <==> Continues(rs, title, n);
      }
    }
  }

  lemma {:induction false} ChainsInOrder(rs: seq<Rename>, title: string)
    requires Increasing(rs)
    ensures Chains(rs, title) <==>
              ChainEnd(rs, if rs == [] then title else rs[0].previous) == Some(title)
  {
    var start := if rs == [] then title else rs[0].previous;
    ChainIff(rs, start);
    hide ChainEnd;
    forall i, j | 0 <= i < |rs| && 0 <= j < |rs| ensures Follows(rs, i, j) <==> j == i + 1 {
      if i + 1 < j { assert rs[i].at.time < rs[i + 1].at.time < rs[j].at.time; }
      if j == i + 1 {
        forall k | 0 <= k < |rs| ensures !(rs[i].at.time < rs[k].at.time < rs[j].at.time) {
          assert k < i || k == i || k == j || k > j;
        }
      }
    }
    forall i | 0 <= i < |rs| ensures IsLatest(rs, i) <==> i == |rs| - 1 {
      if i < |rs| - 1 { assert rs[i].at.time < rs[|rs| - 1].at.time; }
    }
    hide Follows, IsLatest;
    if rs != [] {
      if Chains(rs, title) {
        forall i | 0 <= i < |rs| ensures Continues(rs, start, i) {
          assert i > 0 ==> Follows(rs, i - 1, i);
        }
        assert IsLatest(rs, |rs| - 1);
      }
      if ChainEnd(rs, start) == Some(title) {
        forall i, j | 0 <= i < |rs| && 0 <= j < |rs| && Follows(rs, i, j) ensures rs[j].previous == rs[i].current {
          assert j == i + 1 && Continues(rs, start, j);
        }
      }
    }
  }

  /** Chains only looks at which renames there are. */
  lemma {:induction false} ChainsOfSame(rs: seq<Rename>, other: seq<Rename>, title: string)
    requires forall r :: r in rs ==> r in other
    requires forall r :: r in other ==> r in rs
    requires Chains(rs, title)
    ensures Chains(other, title)
  {
    forall i, j | 0 <= i < |other| && 0 <= j < |other| && Follows(other, i, j)
      ensures other[j].previous == other[i].current
    {
      assert other[i] in rs && other[j] in rs;
      var a :| 0 <= a < |rs| && rs[a] == other[i];
      var b :| 0 <= b < |rs| && rs[b] == other[j];
      forall k | 0 <= k < |rs| ensures !(rs[a].at.time < rs[k].at.time < rs[b].at.time) {
        assert rs[k] in other;
        var m :| 0 <= m < |other| && other[m] == rs[k];
      }
      assert Follows(rs, a, b);
    }
    forall i | 0 <= i < |other| && IsLatest(other, i) ensures other[i].current == title {
      assert other[i] in rs;
      var a :| 0 <= a < |rs| && rs[a] == other[i];
      forall k | 0 <= k < |rs| ensures rs[k].at.time <= rs[a].at.time {
        assert rs[k] in other;
        var m :| 0 <= m < |other| && other[m] == rs[k];
      }
      assert IsLatest(rs, a);
    }
  }

  predicate DistinctTimes(rs: seq<Rename>) {
    forall i, j :: 0 <= i < j < |rs| ==> rs[i].at.time != rs[j].at.time
  }

  lemma {:induction false} DistinctCounts(rs: seq<Rename>)
    requires forall i, j :: 0 <= i < j < |rs| ==> rs[i] != rs[j]
    ensures forall r :: multiset(rs)[r] <= 1
  {
    if rs != [] {
      var n := |rs| - 1;
      DistinctCounts(rs[..n]);
      assert rs == rs[..n] + [rs[n]];
      assert rs[n] !in rs[..n];
    }
  }

  lemma {:induction false} CountedDistinct(rs: seq<Rename>, i: nat, j: nat)
    requires (forall r :: multiset(rs)[r] <= 1) && i < j < |rs|
    ensures rs[i] != rs[j]
  {
    assert rs == rs[..j] + rs[j..];
    assert rs[i] in rs[..j] && rs[j] in rs[j..];
    assert multiset(rs)[rs[j]] == multiset(rs[..j])[rs[j]] + multiset(rs[j..])[rs[j]];
    assert multiset(rs[..j])[rs[i]] > 0 && multiset(rs[j..])[rs[j]] > 0;
  }

  lemma {:induction false} TimesOfSame(rs: seq<Rename>, other: seq<Rename>)
    requires multiset(rs) == multiset(other) && DistinctTimes(rs)
    ensures DistinctTimes(other)
  {
    DistinctCounts(rs);
    forall i, j | 0 <= i < j < |other| ensures other[i].at.time != other[j].at.time {
      CountedDistinct(other, i, j);
      assert other[i] in multiset(other) && other[j] in multiset(other);
      assert other[i] in rs && other[j] in rs;
      var a :| 0 <= a < |rs| && rs[a] == other[i];
      var b :| 0 <= b < |rs| && rs[b] == other[j];
    }
  }

  lemma {:induction false} SameMembers(rs: seq<Rename>, other: seq<Rename>)
    requires multiset(rs) == multiset(other)
    ensures forall r :: r in rs <==> r in other
  {
    forall r ensures r in rs <==> r in other {
      assert (r in rs <==> r in multiset(rs)) && (r in other <==> r in multiset(other));
    }
  }

  lemma {:induction false} TitleMeans(issue: Issue)
    requires DistinctTimes(SortByTime(issue.renames.nodes))
    ensures var sorted := SortByTime(issue.renames.nodes);
            Chains(issue.renames.nodes, issue.title) <==> ChainEnd(sorted, InitialTitle(issue)) == Some(issue.title)
  {
    var rs, sorted := issue.renames.nodes, SortByTime(issue.renames.nodes);
    SortingSorts(rs);
    SameMembers(rs, sorted);
    assert InitialTitle(issue) == if sorted == [] then issue.title else sorted[0].previous;
    hide SortByTime, ChainEnd, InitialTitle, Chains;
    assert Increasing(sorted) by {
      assert forall i, j :: 0 <= i < j < |sorted| ==> sorted[i].at.time <= sorted[j].at.time;
    }
    ChainsInOrder(sorted, issue.title);
    if Chains(rs, issue.title) { ChainsOfSame(rs, sorted, issue.title); }
    if Chains(sorted, issue.title) { ChainsOfSame(sorted, rs, issue.title); }
  }

  lemma {:induction false} TitleIff(issue: Issue)
    ensures TitleHistoryOk(issue) <==> TitleIsAccountedFor(issue)
  {
    var rs, sorted := issue.renames.nodes, SortByTime(issue.renames.nodes);
    SortingSorts(rs);
    hide SortByTime, ChainEnd, InitialTitle, Chains;
    if DistinctTimes(sorted) {
      TimesOfSame(sorted, rs);
      TitleMeans(issue);
    } else if DistinctTimes(rs) {
      TimesOfSame(rs, sorted);
    }
  }

  // ---------------------------------------------------------------- acceptance and selection

  /** Accepted exactly when the issue is older than the cutoff and both its histories are accounted for. */
  lemma {:induction false} AcceptedExactly(issue: Issue, cutoff: int)
    ensures Derive(issue, cutoff).Ok? <==>
              issue.createdAt.time < cutoff && BodyIsAccountedFor(issue) && TitleIsAccountedFor(issue)
    ensures Derive(issue, cutoff) == Err(CreatedAfterCutoff) <==> cutoff <= issue.createdAt.time
    ensures Derive(issue, cutoff) == Err(BadBodyHistory) <==>
              issue.createdAt.time < cutoff && !BodyIsAccountedFor(issue)
    ensures Derive(issue, cutoff) == Err(BadTitleHistory) <==>
              issue.createdAt.time < cutoff && BodyIsAccountedFor(issue) && !TitleIsAccountedFor(issue)
  {
    BodyIff(issue);
    TitleIff(issue);
    BodyRevisionAlwaysExists(issue, cutoff);
    hide BodyHistoryOk, TitleHistoryOk, BodyIsAccountedFor, TitleIsAccountedFor, BodyBefore, TitleBefore, SortByTime;
    hide InitialTitle;
  }

  predicate IsBodyAt(nodes: seq<BodyNode>, cutoff: int, k: nat)
    requires k < |nodes|
  {
    && nodes[k].editedAt.time < cutoff
    && forall i :: 0 <= i < |nodes| && nodes[i].editedAt.time < cutoff ==>
         nodes[i].editedAt.time <= nodes[k].editedAt.time
  }

  /** The title at the cutoff and its moment: what the last rename before it left, or the first one started from. */
  predicate IsTitleAt(issue: Issue, cutoff: int, title: string, at: Stamp) {
    var rs := issue.renames.nodes;
    if forall i :: 0 <= i < |rs| ==> cutoff <= rs[i].at.time then
      && at == issue.createdAt && (rs == [] ==> title == issue.title)
      && forall i :: 0 <= i < |rs| && IsEarliest(rs, i) ==> title == rs[i].previous
    else
      exists i ::
        && 0 <= i < |rs| && rs[i].at.time < cutoff && title == rs[i].current && at == rs[i].at
        && forall k :: 0 <= k < |rs| && rs[k].at.time < cutoff ==> rs[k].at.time <= rs[i].at.time
  }

  lemma {:induction false} BodyAt(nodes: seq<BodyNode>, cutoff: int) returns (k: nat)
    requires nodes != [] && nodes[|nodes| - 1].editedAt.time < cutoff
    requires forall i, j :: 0 <= i < j < |nodes| ==> nodes[j].editedAt.time < nodes[i].editedAt.time
    ensures k < |nodes| && BodyBefore(nodes, cutoff) == Some(nodes[k]) && IsBodyAt(nodes, cutoff, k)
  {
    if nodes[0].editedAt.time < cutoff {
      k := 0;
    } else {
      k := BodyAt(nodes[1..], cutoff);
      assert forall i :: 1 <= i < |nodes| ==> nodes[i] == nodes[1..][i - 1];
      k := k + 1;
    }
  }

  /** The rename that left this title, the last one before the cutoff. */
  predicate LeftTitle(rs: seq<Rename>, cutoff: int, t: (string, Stamp), i: nat)
    requires i < |rs|
  {
    && rs[i].at.time < cutoff && t == (rs[i].current, rs[i].at)
    && forall k :: 0 <= k < |rs| && rs[k].at.time < cutoff ==> rs[k].at.time <= rs[i].at.time
  }

  lemma {:induction false} TitleInOrder(rs: seq<Rename>, cutoff: int, initial: (string, Stamp))
    requires Increasing(rs)
    ensures if forall i :: 0 <= i < |rs| ==> cutoff <= rs[i].at.time then TitleBefore(rs, cutoff, initial) == initial
            else exists i :: 0 <= i < |rs| && LeftTitle(rs, cutoff, TitleBefore(rs, cutoff, initial), i)
  {
    if rs != [] {
      var n := |rs| - 1;
      TitleInOrder(rs[..n], cutoff, initial);
      assert forall i :: 0 <= i < n ==> rs[..n][i] == rs[i];
      var t := TitleBefore(rs, cutoff, initial);
      if rs[n].at.time < cutoff {
        assert t == (rs[n].current, rs[n].at);
        forall k | 0 <= k < |rs| ensures rs[k].at.time <= rs[n].at.time {
        }
        assert LeftTitle(rs, cutoff, TitleBefore(rs, cutoff, initial), n);
        assert exists i :: 0 <= i < |rs| && LeftTitle(rs, cutoff, TitleBefore(rs, cutoff, initial), i);
      } else if i :| 0 <= i < n && LeftTitle(rs[..n], cutoff, t, i) {
        assert LeftTitle(rs, cutoff, t, i);
      } else {
        assert forall i :: 0 <= i < |rs| ==> i == n || rs[..n][i] == rs[i];
      }
    }
  }

  lemma {:induction false} TitleOfSame(issue: Issue, sorted: seq<Rename>, cutoff: int, t: (string, Stamp))
    requires Increasing(sorted) && forall r :: r in issue.renames.nodes <==> r in sorted
    requires if forall i :: 0 <= i < |sorted| ==> cutoff <= sorted[i].at.time
             then t == (if sorted == [] then issue.title else sorted[0].previous, issue.createdAt)
             else exists i :: 0 <= i < |sorted| && LeftTitle(sorted, cutoff, t, i)
    ensures IsTitleAt(issue, cutoff, t.0, t.1)
  {
    var rs := issue.renames.nodes;
    if forall i :: 0 <= i < |sorted| ==> cutoff <= sorted[i].at.time {
      forall i | 0 <= i < |rs| ensures cutoff <= rs[i].at.time {
        assert rs[i] in sorted;
      }
      forall i | 0 <= i < |rs| && IsEarliest(rs, i) ensures t.0 == rs[i].previous {
        FirstIsEarliest(rs, sorted, i);
      }
      assert sorted != [] ==> sorted[0] in rs;
    } else {
      var i :| 0 <= i < |sorted| && LeftTitle(sorted, cutoff, t, i);
      assert sorted[i] in rs;
      var a :| 0 <= a < |rs| && rs[a] == sorted[i];
      forall k | 0 <= k < |rs| && rs[k].at.time < cutoff ensures rs[k].at.time <= rs[a].at.time {
        assert rs[k] in sorted;
      }
    }
  }

  lemma {:induction false} TitleAt(issue: Issue, cutoff: int)
    requires TitleHistoryOk(issue)
    ensures var t := TitleBefore(SortByTime(issue.renames.nodes), cutoff, (InitialTitle(issue), issue.createdAt));
            IsTitleAt(issue, cutoff, t.0, t.1)
  {
    var rs, sorted := issue.renames.nodes, SortByTime(issue.renames.nodes);
    SortingSorts(rs);
    SameMembers(rs, sorted);
    assert InitialTitle(issue) == if sorted == [] then issue.title else sorted[0].previous;
    hide SortByTime, ChainEnd, InitialTitle;
    assert Increasing(sorted) by {
      assert forall i, j :: 0 <= i < j < |sorted| ==> sorted[i].at.time <= sorted[j].at.time;
    }
    hide TitleHistoryOk, SortedByTime, Increasing, IsTitleAt, LeftTitle;
    TitleInOrder(sorted, cutoff, (InitialTitle(issue), issue.createdAt));
    TitleOfSame(issue, sorted, cutoff, TitleBefore(sorted, cutoff, (InitialTitle(issue), issue.createdAt)));
  }

  lemma {:induction false} FirstIsEarliest(rs: seq<Rename>, sorted: seq<Rename>, i: nat)
    requires Increasing(sorted) && (forall r :: r in rs <==> r in sorted) && i < |rs| && IsEarliest(rs, i)
    ensures sorted != [] && sorted[0] == rs[i]
  {
    assert rs[i] in sorted;
    var a :| 0 <= a < |sorted| && sorted[a] == rs[i];
    assert sorted[0] in rs;
    var b :| 0 <= b < |rs| && rs[b] == sorted[0];
    assert sorted[a].at.time <= sorted[0].at.time;
  }

  /**
   The selection of an accepted issue is its title and the last body revision at the cutoff, with the later
   of their two moments, the body's when they are equal. That revision is not a deleted one.
   */
  lemma {:induction false} SelectedExactly(issue: Issue, cutoff: int)
    requires Derive(issue, cutoff).Ok?
    ensures exists k, titleAt ::
              var s, nodes := Derive(issue, cutoff).value, issue.edits.nodes;
              && 0 <= k < |nodes| && IsBodyAt(nodes, cutoff, k) && !nodes[k].deleted && s.body == nodes[k].content
              && IsTitleAt(issue, cutoff, s.title, titleAt)
              && s.at == if titleAt.time <= nodes[k].editedAt.time then nodes[k].editedAt else titleAt
  {
    var nodes := issue.edits.nodes;
    BodyIff(issue);
    var k := BodyAt(nodes, cutoff);
    TitleAt(issue, cutoff);
    var t := TitleBefore(SortByTime(issue.renames.nodes), cutoff, (InitialTitle(issue), issue.createdAt));
    assert !nodes[k].deleted;
    hide TitleBefore, BodyBefore, SortByTime, InitialTitle, TitleHistoryOk, BodyHistoryOk, IsBodyAt, IsTitleAt;
    assert IsTitleAt(issue, cutoff, Derive(issue, cutoff).value.title, t.1);
  }

  /** Replayed to the end, with every edit before the horizon, a log gives back the issue as it is. */
  lemma {:induction false} WholeLogIsTheIssue(issue: Issue, cutoff: int, log: seq<Edit>, horizon: int)
    requires Derive(issue, cutoff).Ok? && IsLogOf(log, issue)
    requires forall i :: 0 <= i < |log| ==> log[i].at.time < horizon
    ensures var end := Replay(Content(InitialTitle(issue), "", issue.createdAt.time), log, horizon);
            end.title == issue.title && end.body == issue.body
  {
    var nodes, sorted := issue.edits.nodes, SortByTime(issue.renames.nodes);
    var initial := Content(InitialTitle(issue), "", issue.createdAt.time);
    SortedRenamesAreAfter(issue);
    OldestTimes(nodes, issue.createdAt.time);
    LogIsAfter(log, issue.createdAt.time);
    ReplayKeepsLast(initial, log, horizon);
    ChainIff(sorted, initial.title);
    EditsAreInLog(log, horizon);
    LastBodyIsNewest(nodes);
    hide Replay, BodyEdits, TitleEdits, Oldest, SortByTime, ChainEnd;
    var bodies, titles := Oldest(nodes), Titles(sorted);
    assert LastBefore(bodies, horizon) == Some(bodies[|bodies| - 1]);
    if sorted != [] { assert LastBefore(titles, horizon) == Some(titles[|titles| - 1]); }
  }

  lemma {:induction false} EditsAreInLog(log: seq<Edit>, horizon: int)
    requires forall i :: 0 <= i < |log| ==> log[i].at.time < horizon
    ensures forall i :: 0 <= i < |BodyEdits(log)| ==> BodyEdits(log)[i].0.time < horizon
    ensures forall i :: 0 <= i < |TitleEdits(log)| ==> TitleEdits(log)[i].0.time < horizon
  {
    if log != [] {
      var n := |log| - 1;
      OneMoreEdit(log);
      assert forall i :: 0 <= i < n ==> log[..n][i] == log[i];
      EditsAreInLog(log[..n], horizon);
      hide BodyEdits, TitleEdits;
    }
  }

  lemma {:induction false} LastBodyIsNewest(nodes: seq<BodyNode>)
    ensures |Oldest(nodes)| == |nodes|
    ensures nodes != [] ==> Oldest(nodes)[|nodes| - 1] == (nodes[0].editedAt, nodes[0].content)
  {
    if nodes != [] { LastBodyIsNewest(nodes[1..]); }
  }
}

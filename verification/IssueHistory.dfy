/**
 Which revision of an issue was public before the fix was published: the derivation from a complete body
 history (newest first) and a rename history (in any order), against a replay of all edits. Text
 canonicalisation, timestamp syntax and redaction are left out.
 */
module IssueHistory {
  import opened Wrappers

  const MAX_HISTORY_ITEMS: nat := 100

  /** A timestamp as written, and the moment it denotes. */
  datatype Stamp = Stamp(text: string, time: int)
  datatype BodyNode = BodyNode(id: string, deleted: bool, editedAt: Stamp, content: string)
  datatype Rename = Rename(id: string, at: Stamp, previous: string, current: string)
  datatype Connection<T> = Connection(total: nat, nodes: seq<T>, fullyPaginated: bool)
  datatype Issue = Issue(
    createdAt: Stamp, title: string, body: string, lastEditedAt: Option<string>,
    edits: Connection<BodyNode>, renames: Connection<Rename>)

  datatype Selection = Selection(title: string, body: string, at: Stamp)
  datatype SnapshotError = CreatedAfterCutoff | BadBodyHistory | BadTitleHistory | NoBodyRevision

  predicate Complete<T>(c: Connection<T>) {
    c.total <= MAX_HISTORY_ITEMS && |c.nodes| == c.total && c.fullyPaginated
  }

  // ---------------------------------------------------------------- body history

  predicate BodyNodesOk(nodes: seq<BodyNode>, created: int) {
    && (forall i | 0 <= i < |nodes| :: !nodes[i].deleted && nodes[i].editedAt.time >= created)
    && (forall i, j | 0 <= i < j < |nodes| :: nodes[i].id != nodes[j].id)
    && (forall i | 0 <= i < |nodes| - 1 :: nodes[i].editedAt.time > nodes[i + 1].editedAt.time)
  }

  /** A complete, strictly newest-first history from the current body back to the creation. */
  predicate BodyHistoryOk(issue: Issue) {
    var nodes := issue.edits.nodes;
    && Complete(issue.edits) && nodes != [] && BodyNodesOk(nodes, issue.createdAt.time)
    && nodes[|nodes| - 1].editedAt.time == issue.createdAt.time && nodes[0].content == issue.body
    && issue.lastEditedAt == (if |nodes| == 1 then None else Some(nodes[0].editedAt.text))
  }

  /** `_body_revisions`; false where it raises. */
  method CheckBodyRevisions(issue: Issue) returns (ok: bool)
    ensures ok == BodyHistoryOk(issue)
  {
    hide BodyNodesOk;
    var nodes := issue.edits.nodes;
    if !Complete(issue.edits) || nodes == [] { return false; }
    var seen: set<string> := {};
    var previous: Option<int> := None;
    NoNodesAreOk(issue.createdAt.time);
    for i := 0 to |nodes|
      invariant BodyNodesOk(nodes[..i], issue.createdAt.time)
      invariant forall id :: id in seen <==> exists j :: 0 <= j < i && nodes[j].id == id
      invariant previous == if i == 0 then None else Some(nodes[i - 1].editedAt.time)
    {
      var node := nodes[i];
      OneMoreNode(nodes, i, issue.createdAt.time);
      if node.id in seen || node.deleted || node.editedAt.time < issue.createdAt.time
         || (previous.Some? && node.editedAt.time >= previous.value) {
        PrefixFails(nodes, i, issue.createdAt.time);
        return false;
      }
      seen := seen + {node.id};
      previous := Some(node.editedAt.time);
    }
    assert nodes[..|nodes|] == nodes;
    if nodes[|nodes| - 1].editedAt.time != issue.createdAt.time || nodes[0].content != issue.body { return false; }
    return issue.lastEditedAt == (if |nodes| == 1 then None else Some(nodes[0].editedAt.text));
  }

  lemma {:induction false} NoNodesAreOk(created: int)
    ensures BodyNodesOk([], created)
  {
  }

  lemma {:induction false} OneMoreNode(nodes: seq<BodyNode>, i: nat, created: int)
    requires i < |nodes|
    ensures BodyNodesOk(nodes[..i + 1], created) <==>
              && BodyNodesOk(nodes[..i], created) && !nodes[i].deleted && nodes[i].editedAt.time >= created
              && (forall j :: 0 <= j < i ==> nodes[j].id != nodes[i].id)
              && (i > 0 ==> nodes[i - 1].editedAt.time > nodes[i].editedAt.time)
  {
    var p, q := nodes[..i], nodes[..i + 1];
    assert forall k :: 0 <= k < i ==> p[k] == q[k] == nodes[k];
    assert q[i] == nodes[i];
  }

  lemma {:induction false} PrefixFails(nodes: seq<BodyNode>, i: nat, created: int)
    requires i < |nodes| && !BodyNodesOk(nodes[..i + 1], created)
    ensures !BodyNodesOk(nodes, created)
  {
    if BodyNodesOk(nodes, created) {
      var p := nodes[..i + 1];
      assert forall k :: 0 <= k < |p| ==> p[k] == nodes[k];
      assert BodyNodesOk(p, created);
      assert false;
    }
  }

  // ---------------------------------------------------------------- title history

  function InsertByTime(r: Rename, sorted: seq<Rename>): seq<Rename> {
    if sorted == [] || r.at.time < sorted[0].at.time then [r] + sorted
    else [sorted[0]] + InsertByTime(r, sorted[1..])
  }

  /** `sorted(revisions, key=timestamp)`, stable. */
  function SortByTime(rs: seq<Rename>): seq<Rename> {
    if rs == [] then [] else InsertByTime(rs[|rs| - 1], SortByTime(rs[..|rs| - 1]))
  }

  ghost predicate SortedByTime(rs: seq<Rename>) {
    forall i, j :: 0 <= i < j < |rs| ==> rs[i].at.time <= rs[j].at.time
  }

  lemma {:induction false} InsertionKeepsAll(r: Rename, rs: seq<Rename>)
    ensures multiset(InsertByTime(r, rs)) == multiset(rs) + multiset{r} && |InsertByTime(r, rs)| == |rs| + 1
  {
    if rs != [] {
      assert rs == [rs[0]] + rs[1..];
      InsertionKeepsAll(r, rs[1..]);
    }
  }

  lemma {:induction false} InsertionSorts(r: Rename, rs: seq<Rename>, bound: int)
    requires SortedByTime(rs) && bound <= r.at.time && forall k :: 0 <= k < |rs| ==> bound <= rs[k].at.time
    ensures SortedByTime(InsertByTime(r, rs))
    ensures forall k :: 0 <= k < |InsertByTime(r, rs)| ==> bound <= InsertByTime(r, rs)[k].at.time
  {
    if rs != [] && rs[0].at.time <= r.at.time {
      InsertionSorts(r, rs[1..], rs[0].at.time);
      var rest := InsertByTime(r, rs[1..]);
      var all := [rs[0]] + rest;
      forall i, j | 0 <= i < j < |all| ensures all[i].at.time <= all[j].at.time {
        assert all[j] == rest[j - 1];
        if i > 0 { assert all[i] == rest[i - 1]; }
      }
    }
  }

  function Earliest(r: Rename, sorted: seq<Rename>): int {
    if sorted == [] || r.at.time < sorted[0].at.time then r.at.time else sorted[0].at.time
  }

  lemma {:induction false} SortingSorts(rs: seq<Rename>)
    ensures SortedByTime(SortByTime(rs)) && multiset(SortByTime(rs)) == multiset(rs) && |SortByTime(rs)| == |rs|
  {
    if rs != [] {
      SortingSorts(rs[..|rs| - 1]);
      InsertionKeepsAll(rs[|rs| - 1], SortByTime(rs[..|rs| - 1]));
      var sorted := SortByTime(rs[..|rs| - 1]);
      InsertionSorts(rs[|rs| - 1], sorted, Earliest(rs[|rs| - 1], sorted));
      assert rs == rs[..|rs| - 1] + [rs[|rs| - 1]];
    }
  }

  function InitialTitle(issue: Issue): string {
    var chronological := SortByTime(issue.renames.nodes);
    if chronological == [] then issue.title else chronological[0].previous
  }

  /** The title after a chain of renames, as long as each starts from what the one before left. */
  function ChainEnd(rs: seq<Rename>, title: string): Option<string> {
    if rs == [] then Some(title)
    else
      var before := ChainEnd(rs[..|rs| - 1], title);
      var r := rs[|rs| - 1];
      if before == Some(r.previous) then Some(r.current) else None
  }

  predicate RenamesOk(nodes: seq<Rename>, created: int) {
    && (forall i | 0 <= i < |nodes| :: nodes[i].at.time >= created)
    && (forall i, j | 0 <= i < j < |nodes| :: nodes[i].id != nodes[j].id)
  }

  /** A complete rename history whose moments are distinct and which chains up to the current title. */
  predicate TitleHistoryOk(issue: Issue) {
    var chronological := SortByTime(issue.renames.nodes);
    && Complete(issue.renames) && RenamesOk(issue.renames.nodes, issue.createdAt.time)
    && (forall i, j | 0 <= i < j < |chronological| :: chronological[i].at.time != chronological[j].at.time)
    && ChainEnd(chronological, InitialTitle(issue)) == Some(issue.title)
  }

  lemma {:induction false} BrokenChainStaysBroken(rs: seq<Rename>, i: nat, title: string)
    requires i <= |rs| && ChainEnd(rs[..i], title).None?
    ensures ChainEnd(rs, title).None?
  {
    if i < |rs| {
      assert rs[..|rs| - 1][..i] == rs[..i];
      BrokenChainStaysBroken(rs[..|rs| - 1], i, title);
    } else {
      assert rs[..i] == rs;
    }
  }

  /** The loop over the rename nodes: distinct ids, nothing before the creation. */
  method CheckRenames(nodes: seq<Rename>, created: int) returns (ok: bool)
    ensures ok == RenamesOk(nodes, created)
  {
    var seen: set<string> := {};
    for i := 0 to |nodes|
      invariant forall j :: 0 <= j < i ==> nodes[j].at.time >= created && nodes[j].id in seen
      invariant forall j, k :: 0 <= j < k < i ==> nodes[j].id != nodes[k].id
      invariant forall id :: id in seen ==> exists j :: 0 <= j < i && nodes[j].id == id
    {
      if nodes[i].id in seen || nodes[i].at.time < created { return false; }
      seen := seen + {nodes[i].id};
    }
    return true;
  }

  /** `_title_revisions`; false where it raises. */
  method CheckTitleRevisions(issue: Issue) returns (ok: bool)
    ensures ok == TitleHistoryOk(issue)
  {
    hide SortByTime, RenamesOk;
    if !Complete(issue.renames) { return false; }
    var nodesOk := CheckRenames(issue.renames.nodes, issue.createdAt.time);
    if !nodesOk { return false; }
    var chronological := SortByTime(issue.renames.nodes);
    if exists i, j | 0 <= i < j < |chronological| :: chronological[i].at.time == chronological[j].at.time {
      return false;
    }
    var expected := InitialTitle(issue);
    for i := 0 to |chronological|
      invariant ChainEnd(chronological[..i], InitialTitle(issue)) == Some(expected)
    {
      assert chronological[..i + 1][..i] == chronological[..i];
      if chronological[i].previous != expected {
        BrokenChainStaysBroken(chronological, i + 1, InitialTitle(issue));
        return false;
      }
      expected := chronological[i].current;
    }
    assert chronological[..|chronological|] == chronological;
    return expected == issue.title;
  }

  // ---------------------------------------------------------------- selection

  /** The newest body revision before the cutoff. */
  function BodyBefore(nodes: seq<BodyNode>, cutoff: int): Option<BodyNode> {
    if nodes == [] then None
    else if nodes[0].editedAt.time < cutoff then Some(nodes[0]) else BodyBefore(nodes[1..], cutoff)
  }

  /** The title and its moment after the renames before the cutoff. */
  function TitleBefore(chronological: seq<Rename>, cutoff: int, initial: (string, Stamp)): (string, Stamp) {
    if chronological == [] then initial
    else
      var r := chronological[|chronological| - 1];
      if r.at.time < cutoff then (r.current, r.at)
         else TitleBefore(chronological[..|chronological| - 1], cutoff, initial)
  }

  function Derive(issue: Issue, cutoff: int): Result<Selection, SnapshotError> {
    if issue.createdAt.time >= cutoff then Err(CreatedAfterCutoff)
    else if !BodyHistoryOk(issue) then Err(BadBodyHistory)
    else if !TitleHistoryOk(issue) then Err(BadTitleHistory)
    else match BodyBefore(issue.edits.nodes, cutoff)
      case None => Err(NoBodyRevision)
      case Some(body) =>
        var (title, titleAt) := TitleBefore(SortByTime(issue.renames.nodes), cutoff,
                                            (InitialTitle(issue), issue.createdAt));
        Ok(Selection(title, body.content, if body.editedAt.time >= titleAt.time then body.editedAt else titleAt))
  }

  method SelectBody(nodes: seq<BodyNode>, cutoff: int) returns (body: Option<BodyNode>)
    ensures body == BodyBefore(nodes, cutoff)
  {
    var k := 0;
    while k < |nodes| && nodes[k].editedAt.time >= cutoff
      invariant k <= |nodes| && BodyBefore(nodes[k..], cutoff) == BodyBefore(nodes, cutoff)
    {
      k := k + 1;
    }
    return if k == |nodes| then None else Some(nodes[k]);
  }

  method SelectTitle(chronological: seq<Rename>, cutoff: int, initial: string, created: Stamp)
    returns (title: string, titleAt: Stamp)
    ensures (title, titleAt) == TitleBefore(chronological, cutoff, (initial, created))
  {
    title, titleAt := initial, created;
    for i := 0 to |chronological|
      invariant (title, titleAt) == TitleBefore(chronological[..i], cutoff, (initial, created))
    {
      assert chronological[..i + 1][..i] == chronological[..i];
      if chronological[i].at.time >= cutoff { continue; }
      title, titleAt := chronological[i].current, chronological[i].at;
    }
    assert chronological[..|chronological|] == chronological;
  }

  /** `derive_snapshot` up to the redaction. */
  method DeriveSnapshot(issue: Issue, cutoff: int) returns (r: Result<Selection, SnapshotError>)
    ensures r == Derive(issue, cutoff)
  {
    hide BodyHistoryOk, TitleHistoryOk, SortByTime, InitialTitle, BodyBefore, TitleBefore;
    if issue.createdAt.time >= cutoff { return Err(CreatedAfterCutoff); }
    var bodyOk := CheckBodyRevisions(issue);
    if !bodyOk { return Err(BadBodyHistory); }
    var titleOk := CheckTitleRevisions(issue);
    if !titleOk { return Err(BadTitleHistory); }
    var body := SelectBody(issue.edits.nodes, cutoff);
    if body.None? { return Err(NoBodyRevision); }
    var title, titleAt := SelectTitle(SortByTime(issue.renames.nodes), cutoff, InitialTitle(issue), issue.createdAt);
    var at := if body.value.editedAt.time >= titleAt.time then body.value.editedAt else titleAt;
    return Ok(Selection(title, body.value.content, at));
  }

  // ---------------------------------------------------------------- replay

  /** One edit of either kind, in a log of all of them. */
  datatype Edit = BodyEdit(at: Stamp, body: string) | TitleEdit(at: Stamp, title: string)
  datatype Content = Content(title: string, body: string, time: int)

  function Redo(s: Content, e: Edit): Content {
    match e
    case BodyEdit(at, body) => Content(s.title, body, at.time)
    case TitleEdit(at, title) => Content(title, s.body, at.time)
  }

  /** The issue after the edits of the log that lie strictly before the cutoff. */
  function Replay(initial: Content, log: seq<Edit>, cutoff: int): Content {
    if log == [] then initial
    else
      var s := Replay(initial, log[..|log| - 1], cutoff);
      if log[|log| - 1].at.time < cutoff then Redo(s, log[|log| - 1]) else s
  }

  function BodyEdits(log: seq<Edit>): seq<(Stamp, string)> {
    if log == [] then []
    else BodyEdits(log[..|log| - 1]) + (match log[|log| - 1] case BodyEdit(at, body) => [(at, body)] case _ => [])
  }

  function TitleEdits(log: seq<Edit>): seq<(Stamp, string)> {
    if log == [] then []
    else TitleEdits(log[..|log| - 1]) + (match log[|log| - 1] case TitleEdit(at, title) => [(at, title)] case _ => [])
  }

  function Oldest(nodes: seq<BodyNode>): seq<(Stamp, string)> {
    if nodes == [] then [] else Oldest(nodes[1..]) + [(nodes[0].editedAt, nodes[0].content)]
  }

  function Titles(rs: seq<Rename>): seq<(Stamp, string)> {
    seq(|rs|, i requires 0 <= i < |rs| => (rs[i].at, rs[i].current))
  }

  ghost predicate Ordered(log: seq<Edit>) {
    forall i, j :: 0 <= i < j < |log| ==> log[i].at.time <= log[j].at.time
  }

  /** A log of the issue: all its edits, in the order of time, simultaneous ones in any order. */
  ghost predicate IsLogOf(log: seq<Edit>, issue: Issue) {
    && Ordered(log) && BodyEdits(log) == Oldest(issue.edits.nodes)
    && TitleEdits(log) == Titles(SortByTime(issue.renames.nodes))
  }

  /** The last of some edits before the cutoff. */
  function LastBefore(es: seq<(Stamp, string)>, cutoff: int): Option<(Stamp, string)> {
    if es == [] then None
    else if es[|es| - 1].0.time < cutoff then Some(es[|es| - 1]) else LastBefore(es[..|es| - 1], cutoff)
  }

  lemma {:induction false} BodyBeforeIsLast(nodes: seq<BodyNode>, cutoff: int)
    ensures var b := BodyBefore(nodes, cutoff);
            LastBefore(Oldest(nodes), cutoff) == (if b.None? then None else Some((b.value.editedAt, b.value.content)))
  {
    if nodes != [] {
      BodyBeforeIsLast(nodes[1..], cutoff);
      assert Oldest(nodes)[..|Oldest(nodes)| - 1] == Oldest(nodes[1..]);
    }
  }

  lemma {:induction false} TitleBeforeIsLast(rs: seq<Rename>, cutoff: int, initial: (string, Stamp))
    ensures var t := LastBefore(Titles(rs), cutoff);
            TitleBefore(rs, cutoff, initial) == (if t.None? then initial else (t.value.1, t.value.0))
  {
    if rs != [] {
      TitleBeforeIsLast(rs[..|rs| - 1], cutoff, initial);
      assert Titles(rs)[..|rs| - 1] == Titles(rs[..|rs| - 1]);
    }
  }

  function Later(a: int, e: Option<(Stamp, string)>): int {
    if e.Some? && e.value.0.time > a then e.value.0.time else a
  }

  /** The moment of the last edits of both kinds before the cutoff. */
  function LastTime(initial: Content, bodies: seq<(Stamp, string)>, titles: seq<(Stamp, string)>, cutoff: int): int {
    Later(Later(initial.time, LastBefore(bodies, cutoff)), LastBefore(titles, cutoff))
  }

  function Changed(e: Option<(Stamp, string)>, otherwise: string): string {
    if e.Some? then e.value.1 else otherwise
  }

  lemma {:induction false} OneMoreEdit(log: seq<Edit>)
    requires log != []
    ensures var n := |log| - 1;
            && (log[n].BodyEdit? ==>
                  BodyEdits(log) == BodyEdits(log[..n]) + [(log[n].at, log[n].body)]
                  && TitleEdits(log) == TitleEdits(log[..n]))
            && (log[n].TitleEdit? ==>
                  TitleEdits(log) == TitleEdits(log[..n]) + [(log[n].at, log[n].title)]
                  && BodyEdits(log) == BodyEdits(log[..n]))
  {
  }

  lemma {:induction false} LastOfOneMore(es: seq<(Stamp, string)>, e: (Stamp, string), cutoff: int)
    ensures LastBefore(es + [e], cutoff) == (if e.0.time < cutoff then Some(e) else LastBefore(es, cutoff))
  {
    assert (es + [e])[..|es|] == es;
  }

  /** Replaying a log gives the last body, the last title and the later of their moments. */
  lemma {:induction false} ReplayKeepsLast(initial: Content, log: seq<Edit>, cutoff: int)
    requires Ordered(log) && forall i :: 0 <= i < |log| ==> initial.time <= log[i].at.time
    ensures var s := Replay(initial, log, cutoff);
            && s.title == Changed(LastBefore(TitleEdits(log), cutoff), initial.title)
            && s.body == Changed(LastBefore(BodyEdits(log), cutoff), initial.body)
            && s.time == LastTime(initial, BodyEdits(log), TitleEdits(log), cutoff)
    ensures Replay(initial, log, cutoff).time <= (if log == [] then initial.time else log[|log| - 1].at.time)
  {
    if log != [] {
      var n := |log| - 1;
      ReplayKeepsLast(initial, log[..n], cutoff);
      assert n > 0 ==> log[..n][n - 1] == log[n - 1];
      OneMoreEdit(log);
      match log[n] {
        case BodyEdit(at, body) => LastOfOneMore(BodyEdits(log[..n]), (at, body), cutoff);
        case TitleEdit(at, title) => LastOfOneMore(TitleEdits(log[..n]), (at, title), cutoff);
      }
      hide BodyEdits, TitleEdits, LastBefore;
    }
  }

  // ---------------------------------------------------------------- what the selection is

  lemma {:induction false} CreationIsBefore(nodes: seq<BodyNode>, cutoff: int)
    requires nodes != [] && nodes[|nodes| - 1].editedAt.time < cutoff
    ensures BodyBefore(nodes, cutoff).Some?
    ensures BodyBefore(nodes, cutoff).value in nodes && BodyBefore(nodes, cutoff).value.editedAt.time < cutoff
  {
    if nodes[0].editedAt.time >= cutoff { CreationIsBefore(nodes[1..], cutoff); }
  }

  /** The rejection for a missing body revision can never fire: the creation is one. */
  lemma {:induction false} BodyRevisionAlwaysExists(issue: Issue, cutoff: int)
    ensures Derive(issue, cutoff) != Err(NoBodyRevision)
  {
    if issue.createdAt.time < cutoff && BodyHistoryOk(issue) { CreationIsBefore(issue.edits.nodes, cutoff); }
  }

  lemma {:induction false} TitleIsInTime(rs: seq<Rename>, cutoff: int, initial: (string, Stamp), created: int)
    requires created <= initial.1.time < cutoff && forall i :: 0 <= i < |rs| ==> created <= rs[i].at.time
    ensures created <= TitleBefore(rs, cutoff, initial).1.time < cutoff
  {
    if rs != [] { TitleIsInTime(rs[..|rs| - 1], cutoff, initial, created); }
  }

  lemma {:induction false} SortedRenamesAreAfter(issue: Issue)
    requires TitleHistoryOk(issue)
    ensures forall i :: 0 <= i < |SortByTime(issue.renames.nodes)| ==>
            issue.createdAt.time <= SortByTime(issue.renames.nodes)[i].at.time
  {
    var nodes, sorted := issue.renames.nodes, SortByTime(issue.renames.nodes);
    SortingSorts(nodes);
    hide SortByTime;
    forall i | 0 <= i < |sorted| ensures issue.createdAt.time <= sorted[i].at.time {
      assert sorted[i] in multiset(sorted);
      assert sorted[i] in nodes;
    }
  }

  /** The selected revision is not older than the issue and strictly older than the fix. */
  lemma {:induction false} SelectionIsInTime(issue: Issue, cutoff: int)
    requires Derive(issue, cutoff).Ok?
    ensures issue.createdAt.time <= Derive(issue, cutoff).value.at.time < cutoff
  {
    CreationIsBefore(issue.edits.nodes, cutoff);
    SortedRenamesAreAfter(issue);
    TitleIsInTime(SortByTime(issue.renames.nodes), cutoff, (InitialTitle(issue), issue.createdAt),
                  issue.createdAt.time);
  }

  lemma {:induction false} OldestTimes(nodes: seq<BodyNode>, created: int)
    requires forall i :: 0 <= i < |nodes| ==> nodes[i].editedAt.time >= created
    ensures forall i :: 0 <= i < |Oldest(nodes)| ==> Oldest(nodes)[i].0.time >= created
  {
    if nodes != [] { OldestTimes(nodes[1..], created); }
  }

  lemma {:induction false} LogIsAfter(log: seq<Edit>, created: int)
    requires forall i :: 0 <= i < |BodyEdits(log)| ==> BodyEdits(log)[i].0.time >= created
    requires forall i :: 0 <= i < |TitleEdits(log)| ==> TitleEdits(log)[i].0.time >= created
    ensures forall i :: 0 <= i < |log| ==> log[i].at.time >= created
  {
    if log != [] {
      var n := |log| - 1;
      OneMoreEdit(log);
      var bodies, titles := BodyEdits(log), TitleEdits(log);
      assert log[n].at.time >= created by {
        if log[n].BodyEdit? {
          assert bodies[|bodies| - 1].0 == log[n].at;
        } else {
          assert titles[|titles| - 1].0 == log[n].at;
        }
      }
      hide BodyEdits, TitleEdits;
      assert BodyEdits(log[..n]) <= bodies && TitleEdits(log[..n]) <= titles;
      LogIsAfter(log[..n], created);
      assert forall i :: 0 <= i < n ==> log[..n][i] == log[i];
    }
  }

  /**
   The selection is a replay: its title, body and moment are those of the issue after all edits strictly
   before the cutoff, in whatever order simultaneous edits are replayed.
   */
  lemma {:induction false} SelectionIsReplay(issue: Issue, cutoff: int, log: seq<Edit>)
    requires Derive(issue, cutoff).Ok? && IsLogOf(log, issue)
    ensures var s, r := Derive(issue, cutoff).value,
            Replay(Content(InitialTitle(issue), "", issue.createdAt.time), log, cutoff);
            s.title == r.title && s.body == r.body && s.at.time == r.time
  {
    var nodes, sorted := issue.edits.nodes, SortByTime(issue.renames.nodes);
    var initial := Content(InitialTitle(issue), "", issue.createdAt.time);
    CreationIsBefore(nodes, cutoff);
    SortedRenamesAreAfter(issue);
    OldestTimes(nodes, issue.createdAt.time);
    LogIsAfter(log, issue.createdAt.time);
    ReplayKeepsLast(initial, log, cutoff);
    BodyBeforeIsLast(nodes, cutoff);
    TitleBeforeIsLast(sorted, cutoff, (initial.title, issue.createdAt));
    hide Replay, BodyEdits, TitleEdits, Oldest, Titles, SortByTime, BodyBefore, TitleBefore, LastBefore, InitialTitle,
         TitleHistoryOk;
  }

  /** The edits of both kinds that lie before the cutoff. */
  function Before(es: seq<(Stamp, string)>, cutoff: int): seq<(Stamp, string)> {
    if es == [] then []
    else Before(es[..|es| - 1], cutoff) + (if es[|es| - 1].0.time < cutoff then [es[|es| - 1]] else [])
  }

  lemma {:induction false} LastDependsOnEarlier(es: seq<(Stamp, string)>, cutoff: int)
    ensures var b := Before(es, cutoff);
            LastBefore(es, cutoff) == (if b == [] then None else Some(b[|b| - 1]))
  {
    if es != [] { LastDependsOnEarlier(es[..|es| - 1], cutoff); }
  }

  /** The selection, from the last edits before the cutoff. */
  function Chosen(body: Option<(Stamp, string)>, title: Option<(Stamp, string)>, initial: string,
                  created: Stamp): Selection {
    var b := if body.Some? then body.value else (created, "");
    var t := if title.Some? then title.value else (created, initial);
    Selection(t.1, b.1, if b.0.time >= t.0.time then b.0 else t.0)
  }

  lemma {:induction false} SelectionIsChosen(issue: Issue, cutoff: int)
    requires Derive(issue, cutoff).Ok?
    ensures Derive(issue, cutoff).value
         == Chosen(LastBefore(Oldest(issue.edits.nodes), cutoff),
                   LastBefore(Titles(SortByTime(issue.renames.nodes)), cutoff),
                   InitialTitle(issue), issue.createdAt)
  {
    BodyBeforeIsLast(issue.edits.nodes, cutoff);
    TitleBeforeIsLast(SortByTime(issue.renames.nodes), cutoff, (InitialTitle(issue), issue.createdAt));
    hide LastBefore, Oldest, Titles, SortByTime, InitialTitle, TitleHistoryOk, BodyHistoryOk, BodyBefore, TitleBefore;
  }

  lemma {:induction false} ChosenFromEarlier(issue: Issue, cutoff: int)
    requires Derive(issue, cutoff).Ok?
    ensures Derive(issue, cutoff).value
         == ChosenBefore(Before(Oldest(issue.edits.nodes), cutoff),
                         Before(Titles(SortByTime(issue.renames.nodes)), cutoff),
                         InitialTitle(issue), issue.createdAt)
  {
    hide Derive, Chosen, Before, LastBefore, Oldest, Titles, SortByTime, InitialTitle;
    SelectionIsChosen(issue, cutoff);
    LastDependsOnEarlier(Oldest(issue.edits.nodes), cutoff);
    LastDependsOnEarlier(Titles(SortByTime(issue.renames.nodes)), cutoff);
  }

  function ChosenBefore(bodies: seq<(Stamp, string)>, titles: seq<(Stamp, string)>, initial: string, created: Stamp)
    : Selection
  {
    Chosen(if bodies == [] then None else Some(bodies[|bodies| - 1]),
           if titles == [] then None else Some(titles[|titles| - 1]), initial, created)
  }

  /** Two accepted histories that agree before the cutoff give the same selection, whatever edits follow. */
  lemma {:induction false} LaterEditsAreIrrelevant(issue: Issue, other: Issue, cutoff: int)
    requires Derive(issue, cutoff).Ok? && Derive(other, cutoff).Ok?
    requires issue.createdAt == other.createdAt && InitialTitle(issue) == InitialTitle(other)
    requires Before(Oldest(issue.edits.nodes), cutoff) == Before(Oldest(other.edits.nodes), cutoff)
    requires Before(Titles(SortByTime(issue.renames.nodes)), cutoff)
             == Before(Titles(SortByTime(other.renames.nodes)), cutoff)
    ensures Derive(issue, cutoff) == Derive(other, cutoff)
  {
    hide Derive, ChosenBefore, Before, Oldest, Titles, SortByTime, InitialTitle;
    ChosenFromEarlier(issue, cutoff);
    ChosenFromEarlier(other, cutoff);
  }

  // ---------------------------------------------------------------- every issue has a log

  /** The two histories merged by time. */
  function Merge(bodies: seq<(Stamp, string)>, titles: seq<(Stamp, string)>): seq<Edit>
    decreases |bodies| + |titles|
  {
    var m, n := |bodies| - 1, |titles| - 1;
    if bodies == [] && titles == [] then []
    else if titles == [] || (bodies != [] && bodies[m].0.time > titles[n].0.time)
    then Merge(bodies[..m], titles) + [BodyEdit(bodies[m].0, bodies[m].1)]
    else Merge(bodies, titles[..n]) + [TitleEdit(titles[n].0, titles[n].1)]
  }

  ghost predicate Times(es: seq<(Stamp, string)>) {
    forall i, j :: 0 <= i < j < |es| ==> es[i].0.time <= es[j].0.time
  }

  /** Adding the latest edit keeps a log in order. */
  lemma {:induction false} LogGrows(log: seq<Edit>, e: Edit, bound: int)
    requires LogUpTo(log, e.at.time) && e.at.time <= bound
    ensures LogUpTo(log + [e], bound)
    ensures BodyEdits(log + [e]) == BodyEdits(log) + (if e.BodyEdit? then [(e.at, e.body)] else [])
    ensures TitleEdits(log + [e]) == TitleEdits(log) + (if e.TitleEdit? then [(e.at, e.title)] else [])
  {
    assert (log + [e])[..|log|] == log;
    OneMoreEdit(log + [e]);
    hide BodyEdits, TitleEdits;
  }

  predicate BodyIsLast(bodies: seq<(Stamp, string)>, titles: seq<(Stamp, string)>) {
    bodies != [] && (titles == [] || bodies[|bodies| - 1].0.time > titles[|titles| - 1].0.time)
  }

  lemma {:induction false} MergeSplits(bodies: seq<(Stamp, string)>, titles: seq<(Stamp, string)>)
    ensures bodies == [] && titles == [] ==> Merge(bodies, titles) == []
    ensures BodyIsLast(bodies, titles) ==>
              var m := |bodies| - 1;
              Merge(bodies, titles) == Merge(bodies[..m], titles) + [BodyEdit(bodies[m].0, bodies[m].1)]
    ensures titles != [] && !BodyIsLast(bodies, titles) ==>
              var n := |titles| - 1;
              Merge(bodies, titles) == Merge(bodies, titles[..n]) + [TitleEdit(titles[n].0, titles[n].1)]
  {
  }

  ghost predicate UpTo(es: seq<(Stamp, string)>, bound: int) {
    Times(es) && (es != [] ==> es[|es| - 1].0.time <= bound)
  }

  ghost predicate LogUpTo(log: seq<Edit>, bound: int) {
    Ordered(log) && forall i :: 0 <= i < |log| ==> log[i].at.time <= bound
  }

  lemma {:induction false} MergeIsALog(bodies: seq<(Stamp, string)>, titles: seq<(Stamp, string)>, bound: int)
    requires UpTo(bodies, bound) && UpTo(titles, bound)
    ensures LogUpTo(Merge(bodies, titles), bound)
    ensures BodyEdits(Merge(bodies, titles)) == bodies && TitleEdits(Merge(bodies, titles)) == titles
    decreases |bodies| + |titles|
  {
    MergeSplits(bodies, titles);
    if BodyIsLast(bodies, titles) {
      LastSplits(bodies, bound);
      assert UpTo(titles, bodies[|bodies| - 1].0.time);
      hide Merge, UpTo, BodyEdits, TitleEdits, LogUpTo;
      MergeIsALog(bodies[..|bodies| - 1], titles, bodies[|bodies| - 1].0.time);
      LogGrows(Merge(bodies[..|bodies| - 1], titles), BodyEdit(bodies[|bodies| - 1].0, bodies[|bodies| - 1].1), bound);
    } else if titles != [] {
      LastSplits(titles, bound);
      assert UpTo(bodies, titles[|titles| - 1].0.time);
      hide Merge, UpTo, BodyEdits, TitleEdits, LogUpTo;
      MergeIsALog(bodies, titles[..|titles| - 1], titles[|titles| - 1].0.time);
      LogGrows(Merge(bodies, titles[..|titles| - 1]), TitleEdit(titles[|titles| - 1].0, titles[|titles| - 1].1), bound);
    }
  }

  lemma {:induction false} LastSplits(es: seq<(Stamp, string)>, bound: int)
    requires UpTo(es, bound) && es != []
    ensures UpTo(es[..|es| - 1], es[|es| - 1].0.time) && es[|es| - 1].0.time <= bound
    ensures es[..|es| - 1] + [(es[|es| - 1].0, es[|es| - 1].1)] == es
  {
  }

  lemma {:induction false} OldestIsInOrder(nodes: seq<BodyNode>)
    requires forall i :: 0 <= i < |nodes| - 1 ==> nodes[i].editedAt.time > nodes[i + 1].editedAt.time
    ensures |Oldest(nodes)| == |nodes| && Times(Oldest(nodes))
    ensures forall i :: 0 <= i < |nodes| ==> Oldest(nodes)[i].0.time <= nodes[0].editedAt.time
  {
    if nodes != [] { OldestIsInOrder(nodes[1..]); }
  }

  lemma {:induction false} TitlesAreInOrder(rs: seq<Rename>)
    requires SortedByTime(rs)
    ensures Times(Titles(rs))
  {
  }

  lemma {:induction false} EveryAcceptedIssueHasALog(issue: Issue, cutoff: int) returns (log: seq<Edit>)
    requires Derive(issue, cutoff).Ok?
    ensures IsLogOf(log, issue)
  {
    OldestIsInOrder(issue.edits.nodes);
    SortingSorts(issue.renames.nodes);
    TitlesAreInOrder(SortByTime(issue.renames.nodes));
    hide Derive, SortByTime, Oldest, Titles, Times, Merge, BodyEdits, TitleEdits, Ordered, SortedByTime;
    var bodies, titles := Oldest(issue.edits.nodes), Titles(SortByTime(issue.renames.nodes));
    var b := if bodies == [] then 0 else bodies[|bodies| - 1].0.time;
    var t := if titles == [] then b else titles[|titles| - 1].0.time;
    log := Merge(bodies, titles);
    MergeIsALog(bodies, titles, if b < t then t else b);
  }
}

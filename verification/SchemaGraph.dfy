/**
 When the schema checker terminates: the graph of `$ref` and `oneOf` can be ranked exactly when no
 sub-schema of the root comes back to itself.
 */
module SchemaGraph {
  import opened Wrappers
  import opened JsonPointer
  import opened SchemaChecker

  // ---------------------------------------------------------------- the objects inside a value

  /** All objects inside a value, itself included. */
  function Dicts(j: Json): set<Schema>
    decreases j
  {
    match j
    case Obj(m) => {m} + (set key, s | key in m && s in Dicts(m[key]) :: s)
    case Arr(items) => set i, s | 0 <= i < |items| && s in Dicts(items[i]) :: s
    case _ => {}
  }

  lemma {:induction false} DictsNest(j: Json, s: Schema, t: Schema)
    requires s in Dicts(j) && t in Dicts(Obj(s))
    ensures t in Dicts(j)
    decreases j
  {
    match j
    case Obj(m) =>
      if s != m {
        var key :| key in m && s in Dicts(m[key]);
        DictsNest(m[key], s, t);
      }
    case Arr(items) =>
      var i :| 0 <= i < |items| && s in Dicts(items[i]);
      DictsNest(items[i], s, t);
    case _ =>
  }

  lemma {:induction false} WalkStaysInside(j: Json, keys: seq<string>, s: Schema)
    requires Walk(j, keys) == Some(Obj(s))
    ensures s in Dicts(j)
  {
    if keys == [] {
      assert s in Dicts(Obj(s));
    } else {
      var before := Walk(j, keys[..|keys| - 1]).value;
      var key := keys[|keys| - 1];
      assert s in Dicts(before.members[key]);
      assert s in Dicts(Obj(before.members));
      WalkStaysInside(j, keys[..|keys| - 1], before.members);
      DictsNest(j, before.members, s);
    }
  }

  /** An edge leads into the root, or strictly inside the schema it leaves. */
  lemma {:induction false} EdgeLeadsInside(root: Schema, s: Schema, t: Schema)
    requires SameInstance(root, s, t)
    ensures t in Dicts(Obj(root)) || (t in Dicts(Obj(s)) && Obj(t) < Obj(s))
  {
    if RefOf(s).Some? {
      WalkStaysInside(Obj(root), Unescaped(Split(RefOf(s).value[2..])), t);
    } else {
      var alternatives := s["oneOf"];
      var i :| 0 <= i < |alternatives.items| && alternatives.items[i] == Obj(t);
      assert t in Dicts(alternatives.items[i]);
      assert t in Dicts(alternatives);
      assert alternatives.items[i] < alternatives < Obj(s);
    }
  }

  // ---------------------------------------------------------------- reaching

  ghost predicate IsPath(root: Schema, path: seq<Schema>) {
    |path| >= 2 && forall i :: 0 <= i < |path| - 1 ==> SameInstance(root, path[i], path[i + 1])
  }

  ghost predicate Reaches(root: Schema, s: Schema, t: Schema) {
    exists path :: IsPath(root, path) && path[0] == s && path[|path| - 1] == t
  }

  /** No object inside the root is applied to the same instance again on account of itself. */
  ghost predicate Acyclic(root: Schema) {
    forall s :: s in Dicts(Obj(root)) ==> !Reaches(root, s, s)
  }

  lemma {:induction false} EdgeReaches(root: Schema, s: Schema, t: Schema)
    requires SameInstance(root, s, t)
    ensures Reaches(root, s, t)
  {
    assert IsPath(root, [s, t]);
    assert [s, t][0] == s && [s, t][|[s, t]| - 1] == t;
  }

  lemma {:induction false} EdgeThenReaches(root: Schema, s: Schema, t: Schema, u: Schema)
    requires SameInstance(root, s, t) && Reaches(root, t, u)
    ensures Reaches(root, s, u)
  {
    var path :| IsPath(root, path) && path[0] == t && path[|path| - 1] == u;
    var longer := [s] + path;
    assert forall i :: 0 < i < |longer| ==> longer[i] == path[i - 1];
    assert IsPath(root, longer);
    assert longer[0] == s && longer[|longer| - 1] == u;
  }

  /** What is reached lies in the root, or strictly inside the start. */
  lemma {:induction false} PathLeadsInside(root: Schema, path: seq<Schema>)
    requires IsPath(root, path)
    ensures var s, t := path[0], path[|path| - 1];
            t in Dicts(Obj(root)) || (t in Dicts(Obj(s)) && Obj(t) < Obj(s))
    decreases |path|
  {
    var n := |path| - 1;
    EdgeLeadsInside(root, path[n - 1], path[n]);
    if n > 1 && path[n] !in Dicts(Obj(root)) {
      PathLeadsInside(root, path[..n]);
      if path[n - 1] in Dicts(Obj(root)) {
        DictsNest(Obj(root), path[n - 1], path[n]);
      } else {
        DictsNest(Obj(path[0]), path[n - 1], path[n]);
      }
    }
  }

  /** Whatever comes back to itself lies in the root. */
  lemma {:induction false} CyclesLieInTheRoot(root: Schema, s: Schema)
    requires Reaches(root, s, s)
    ensures s in Dicts(Obj(root))
  {
    var path :| IsPath(root, path) && path[0] == s && path[|path| - 1] == s;
    PathLeadsInside(root, path);
  }

  // ---------------------------------------------------------------- the rank

  /** The schemas that are applied to the same instance after `s`: finitely many. */
  ghost function ReachSet(root: Schema, s: Schema): set<Schema> {
    set t | t in Dicts(Obj(s)) + Dicts(Obj(root)) && Reaches(root, s, t)
  }

  lemma {:induction false} ReachedIsListed(root: Schema, s: Schema, t: Schema)
    requires Reaches(root, s, t)
    ensures t in ReachSet(root, s)
  {
    var path :| IsPath(root, path) && path[0] == s && path[|path| - 1] == t;
    PathLeadsInside(root, path);
  }

  ghost function RankOf(root: Schema): Schema -> nat {
    s => |ReachSet(root, s)|
  }

  lemma {:induction false} SmallerSet(a: set<Schema>, b: set<Schema>, t: Schema)
    requires a <= b && t in b && t !in a
    ensures |a| < |b|
  {
    assert |a| <= |b - {t}| by { SubsetIsSmaller(a, b - {t}); }
  }

  lemma {:induction false} SubsetIsSmaller(a: set<Schema>, b: set<Schema>)
    requires a <= b
    ensures |a| <= |b|
    decreases |a|
  {
    if a != {} {
      var y :| y in a;
      SubsetIsSmaller(a - {y}, b - {y});
    }
  }

  lemma {:induction false} RankDecreases(root: Schema, s: Schema, t: Schema)
    requires Acyclic(root) && SameInstance(root, s, t)
    ensures RankOf(root)(t) < RankOf(root)(s)
  {
    EdgeReaches(root, s, t);
    ReachedIsListed(root, s, t);
    forall u | u in ReachSet(root, t) ensures u in ReachSet(root, s) {
      EdgeThenReaches(root, s, t, u);
      ReachedIsListed(root, s, u);
    }
    if t in ReachSet(root, t) {
      CyclesLieInTheRoot(root, t);
      assert false;
    }
    SmallerSet(ReachSet(root, t), ReachSet(root, s), t);
  }

  lemma {:induction false} RankDropsAlongPaths(root: Schema, rank: Schema -> nat, path: seq<Schema>)
    requires Ranked(root, rank) && IsPath(root, path)
    ensures rank(path[|path| - 1]) < rank(path[0])
    decreases |path|
  {
    var n := |path| - 1;
    assert SameInstance(root, path[n - 1], path[n]);
    if n > 1 { RankDropsAlongPaths(root, rank, path[..n]); }
  }

  /** A reference graph has a rank exactly when it has no cycle; the number of schemas still to come is one. */
  lemma {:induction false} RankedIffAcyclic(root: Schema)
    ensures (exists rank: Schema -> nat :: Ranked(root, rank)) <==> Acyclic(root)
    ensures Acyclic(root) ==> Ranked(root, RankOf(root))
  {
    if Acyclic(root) {
      forall s, t | SameInstance(root, s, t) ensures RankOf(root)(t) < RankOf(root)(s) { RankDecreases(root, s, t); }
      assert Ranked(root, RankOf(root));
    }
    if exists rank: Schema -> nat :: Ranked(root, rank) {
      var rank: Schema -> nat :| Ranked(root, rank);
      forall s | s in Dicts(Obj(root)) ensures !Reaches(root, s, s) {
        if Reaches(root, s, s) {
          var path :| IsPath(root, path) && path[0] == s && path[|path| - 1] == s;
          RankDropsAlongPaths(root, rank, path);
          assert false;
        }
      }
    }
  }

  /** Validity under an acyclic root, with no rank in sight. */
  ghost predicate ValidInstance(j: Json, s: Schema, root: Schema, x: Syntax)
    requires Acyclic(root)
  {
    RankedIffAcyclic(root);
    Valid(j, s, root, RankOf(root), x)
  }

  /** The checker as the script calls it: on an acyclic root it terminates and is exact. */
  method ValidateJsonSchemaInstance(j: Json, s: Schema, root: Schema, x: Syntax, errors: seq<Fault>)
    returns (all: seq<Fault>)
    requires Acyclic(root)
    ensures errors <= all
    ensures all == errors <==> ValidInstance(j, s, root, x)
  {
    RankedIffAcyclic(root);
    all := Validate(j, s, root, RankOf(root), x, errors);
  }
}

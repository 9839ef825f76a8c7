/** What each keyword of a schema demands, said of the schema's own members and of nothing else. */
module SchemaKeywords {
  import opened Wrappers
  import opened JsonPointer
  import opened SchemaChecker

  /** The schema has this keyword with this value. */
  predicate Says(s: Schema, keyword: string, v: Json) {
    keyword in s && s[keyword] == v
  }

  /** The type names of a value. A whole number has two. */
  function NamesOf(j: Json): set<string> {
    match j
    case Null => {"null"}
    case Bool(_) => {"boolean"}
    case Int(_) => {"integer", "number"}
    case Float(_) => {"number"}
    case Str(_) => {"string"}
    case Arr(_) => {"array"}
    case Obj(_) => {"object"}
  }

  ghost predicate IsAllowed(j: Json, s: Schema) {
    && (forall v :: Says(s, "const", v) ==> j == v)
    && (forall v :: Says(s, "enum", v) ==> v.Arr? && j in v.items)
    && (forall name :: Says(s, "type", Str(name)) ==> name in NamesOf(j))
    && (forall names: seq<Json> :: Says(s, "type", Arr(names)) ==>
          exists i :: 0 <= i < |names| && names[i].Str? && names[i].text in NamesOf(j))
  }

  ghost predicate IsDeclared(s: Schema, key: string) {
    exists props :: Says(s, "properties", Obj(props)) && key in props
  }

  ghost predicate KeysAreRight(m: map<string, Json>, s: Schema) {
    && (forall keys: seq<Json>, i :: Says(s, "required", Arr(keys)) && 0 <= i < |keys| ==>
          keys[i].Str? && keys[i].text in m)
    && (forall key :: Says(s, "additionalProperties", Bool(false)) && key in m ==> IsDeclared(s, key))
  }

  ghost predicate MembersAreValid(m: map<string, Json>, s: Schema, root: Schema, rank: Schema -> nat, x: Syntax)
    requires Ranked(root, rank)
  {
    forall props, key, t ::
      Says(s, "properties", Obj(props)) && key in m && Says(props, key, Obj(t)) ==> Valid(m[key], t, root, rank, x)
  }

  ghost predicate CountIsRight(n: nat, s: Schema, least: string, most: string) {
    && (forall k :: Says(s, least, Int(k)) ==> k <= n)
    && (forall k :: Says(s, most, Int(k)) ==> n <= k)
  }

  ghost predicate ItemsAreRight(items: seq<Json>, s: Schema, root: Schema, rank: Schema -> nat, x: Syntax)
    requires Ranked(root, rank)
  {
    && CountIsRight(|items|, s, "minItems", "maxItems")
    && (Says(s, "uniqueItems", Bool(true)) ==> forall i, k :: 0 <= i < k < |items| ==> items[i] != items[k])
    && (forall t, i :: Says(s, "items", Obj(t)) && 0 <= i < |items| ==> Valid(items[i], t, root, rank, x))
  }

  ghost predicate TextIsRight(text: string, s: Schema, x: Syntax) {
    && CountIsRight(|text|, s, "minLength", "maxLength")
    && (forall p :: Says(s, "pattern", Str(p)) ==> x.matches(p, text))
    && (Says(s, "format", Str("date-time")) ==> x.isDateTime(text))
    && (Says(s, "format", Str("uri")) ==> x.isUri(text))
  }

  /** The bound is a whole or a fractional number. */
  ghost predicate Bounds(s: Schema, keyword: string, b: real) {
    Says(s, keyword, Float(b)) || exists n: int :: n as real == b && Says(s, keyword, Int(n))
  }

  ghost predicate NumberIsRight(v: real, s: Schema) {
    && (forall b :: Bounds(s, "minimum", b) ==> b <= v)
    && (forall b :: Bounds(s, "maximum", b) ==> v <= b)
    && (forall b :: Bounds(s, "exclusiveMinimum", b) ==> b < v)
  }

  lemma {:induction false} NamesIff(j: Json, name: string)
    ensures HasType(j, name) <==> name in NamesOf(j)
  {
  }

  lemma {:induction false} ValuesIff(j: Json, s: Schema)
    ensures (forall v :: Says(s, "const", v) ==> j == v) <==> ConstHolds(j, s)
    ensures (forall v :: Says(s, "enum", v) ==> v.Arr? && j in v.items) <==> EnumHolds(j, s)
  {
    if "const" in s { assert Says(s, "const", s["const"]); }
    if "enum" in s { assert Says(s, "enum", s["enum"]); }
  }

  lemma {:induction false} TypesIff(j: Json, s: Schema)
    ensures TypeHolds(j, s) <==>
              && (forall name :: Says(s, "type", Str(name)) ==> name in NamesOf(j))
              && (forall names: seq<Json> :: Says(s, "type", Arr(names)) ==>
                    exists i :: 0 <= i < |names| && names[i].Str? && names[i].text in NamesOf(j))
  {
    forall name ensures HasType(j, name) <==> name in NamesOf(j) { NamesIff(j, name); }
    hide HasType, NamesOf;
    if "type" in s {
      if s["type"].Str? { assert Says(s, "type", Str(s["type"].text)); }
      if s["type"].Arr? { assert Says(s, "type", Arr(s["type"].items)); }
    }
  }

  lemma {:induction false} AllowedIff(j: Json, s: Schema)
    ensures IsAllowed(j, s) <==> ConstHolds(j, s) && EnumHolds(j, s) && TypeHolds(j, s)
  {
    ValuesIff(j, s);
    TypesIff(j, s);
    hide ConstHolds, EnumHolds, TypeHolds, NamesOf, Says;
  }

  lemma {:induction false} KeysIff(m: map<string, Json>, s: Schema)
    ensures KeysAreRight(m, s) <==> RequiredHolds(m, s) && ClosedHolds(m, s)
  {
    if ListOf(s, "required").Some? { assert Says(s, "required", Arr(ListOf(s, "required").value)); }
    forall key ensures IsDeclared(s, key) <==> key in Properties(s) {
      if DictOf(s, "properties").Some? { assert Says(s, "properties", Obj(DictOf(s, "properties").value)); }
    }
    hide IsDeclared, Properties;
  }

  lemma {:induction false} MembersIff(m: map<string, Json>, s: Schema, root: Schema, rank: Schema -> nat, x: Syntax)
    requires Ranked(root, rank)
    ensures MembersAreValid(m, s, root, rank, x) <==>
              forall key :: key in m && MemberSchema(s, key).Some? ==>
                Valid(m[key], MemberSchema(s, key).value, root, rank, x)
  {
    hide Valid, Ranked;
    if MembersAreValid(m, s, root, rank, x) {
      forall key | key in m && MemberSchema(s, key).Some?
        ensures Valid(m[key], MemberSchema(s, key).value, root, rank, x)
      {
        assert Says(s, "properties", Obj(Properties(s)));
        assert Says(Properties(s), key, Obj(MemberSchema(s, key).value));
      }
    }
    if forall key :: key in m && MemberSchema(s, key).Some? ==>
         Valid(m[key], MemberSchema(s, key).value, root, rank, x) {
      forall props, key, t | Says(s, "properties", Obj(props)) && key in m && Says(props, key, Obj(t))
        ensures Valid(m[key], t, root, rank, x)
      {
        assert MemberSchema(s, key) == Some(t);
      }
    }
  }

  lemma {:induction false} CountIff(n: nat, s: Schema, least: string, most: string)
    ensures CountIsRight(n, s, least, most) <==> LengthHolds(n, s, least, most)
  {
    if IntOf(s, least).Some? { assert Says(s, least, Int(IntOf(s, least).value)); }
    if IntOf(s, most).Some? { assert Says(s, most, Int(IntOf(s, most).value)); }
  }

  lemma {:induction false} ItemsIff(items: seq<Json>, s: Schema, root: Schema, rank: Schema -> nat, x: Syntax)
    requires Ranked(root, rank)
    ensures ItemsAreRight(items, s, root, rank, x) <==>
              && LengthHolds(|items|, s, "minItems", "maxItems") && UniqueHolds(items, s)
              && (DictOf(s, "items").Some? ==> forall i :: 0 <= i < |items| ==>
                    Valid(items[i], DictOf(s, "items").value, root, rank, x))
  {
    CountIff(|items|, s, "minItems", "maxItems");
    hide Valid, Ranked, CountIsRight, LengthHolds;
    if DictOf(s, "items").Some? { assert Says(s, "items", Obj(DictOf(s, "items").value)); }
  }

  lemma {:induction false} TextIff(text: string, s: Schema, x: Syntax)
    ensures TextIsRight(text, s, x) <==>
              LengthHolds(|text|, s, "minLength", "maxLength") && PatternHolds(text, s, x) && FormatHolds(text, s, x)
  {
    CountIff(|text|, s, "minLength", "maxLength");
    hide CountIsRight, LengthHolds;
    if "pattern" in s && s["pattern"].Str? { assert Says(s, "pattern", Str(s["pattern"].text)); }
  }

  lemma {:induction false} BoundsIff(s: Schema, keyword: string, b: real)
    ensures Bounds(s, keyword, b) <==> BoundOf(s, keyword) == Some(b)
  {
    if BoundOf(s, keyword) == Some(b) {
      if s[keyword].Int? { assert Says(s, keyword, Int(s[keyword].n)); }
    }
  }

  lemma {:induction false} NumberIff(v: real, s: Schema)
    ensures NumberIsRight(v, s) <==> RangeHolds(v, s)
  {
    forall keyword, b ensures Bounds(s, keyword, b) <==> BoundOf(s, keyword) == Some(b) {
      BoundsIff(s, keyword, b);
    }
    hide Bounds, BoundOf;
    if BoundOf(s, "minimum").Some? { assert Bounds(s, "minimum", BoundOf(s, "minimum").value); }
    if BoundOf(s, "maximum").Some? { assert Bounds(s, "maximum", BoundOf(s, "maximum").value); }
    if BoundOf(s, "exclusiveMinimum").Some? {
      assert Bounds(s, "exclusiveMinimum", BoundOf(s, "exclusiveMinimum").value);
    }
  }

  lemma {:induction false} PlainMeans(j: Json, s: Schema, root: Schema, rank: Schema -> nat, x: Syntax)
    requires Ranked(root, rank) && RefOf(s).None? && ListOf(s, "oneOf").None?
    ensures Valid(j, s, root, rank, x) <==>
              && ShallowHolds(j, s, x)
              && (j.Obj? ==> forall key :: key in j.members && MemberSchema(s, key).Some? ==>
                    Valid(j.members[key], MemberSchema(s, key).value, root, rank, x))
              && (j.Arr? && DictOf(s, "items").Some? ==> forall i :: 0 <= i < |j.items| ==>
                    Valid(j.items[i], DictOf(s, "items").value, root, rank, x))
  {
    hide ShallowHolds, MemberSchema, Resolve, BranchFlags;
  }

  lemma {:induction false} ShallowMeans(j: Json, s: Schema, x: Syntax)
    ensures ShallowHolds(j, s, x) <==>
              && ConstHolds(j, s) && EnumHolds(j, s) && TypeHolds(j, s)
              && match j
                 case Obj(m) => RequiredHolds(m, s) && ClosedHolds(m, s)
                 case Arr(items) => LengthHolds(|items|, s, "minItems", "maxItems") && UniqueHolds(items, s)
                 case Str(text) =>
                   LengthHolds(|text|, s, "minLength", "maxLength") && PatternHolds(text, s, x)
                   && FormatHolds(text, s, x)
                 case Int(n) => RangeHolds(n as real, s)
                 case Float(v) => RangeHolds(v, s)
                 case _ => true
  {
    hide ConstHolds, EnumHolds, TypeHolds, RequiredHolds, ClosedHolds, LengthHolds, UniqueHolds, RangeHolds;
    hide PatternHolds, FormatHolds;
  }

  /** An instance meets a schema without reference and branches exactly if it meets every keyword of it. */
  lemma {:induction false} KeywordsExactly(j: Json, s: Schema, root: Schema, rank: Schema -> nat, x: Syntax)
    requires Ranked(root, rank)
    requires (forall ref :: !Says(s, "$ref", Str(ref))) && forall branches :: !Says(s, "oneOf", Arr(branches))
    ensures Valid(j, s, root, rank, x) <==>
              && IsAllowed(j, s)
              && match j
                 case Obj(m) => KeysAreRight(m, s) && MembersAreValid(m, s, root, rank, x)
                 case Arr(items) => ItemsAreRight(items, s, root, rank, x)
                 case Str(text) => TextIsRight(text, s, x)
                 case Int(n) => NumberIsRight(n as real, s)
                 case Float(v) => NumberIsRight(v, s)
                 case _ => true
  {
    assert RefOf(s).Some? ==> Says(s, "$ref", Str(RefOf(s).value));
    assert ListOf(s, "oneOf").Some? ==> Says(s, "oneOf", Arr(ListOf(s, "oneOf").value));
    PlainMeans(j, s, root, rank, x);
    hide Valid, Ranked, IsAllowed, KeysAreRight, MembersAreValid, ItemsAreRight, TextIsRight, NumberIsRight;
    hide ConstHolds, EnumHolds, TypeHolds, RequiredHolds, ClosedHolds, LengthHolds, UniqueHolds, RangeHolds;
    hide PatternHolds, FormatHolds, MemberSchema, ShallowHolds, DictOf;
    ShallowMeans(j, s, x);
    AllowedIff(j, s);
    match j {
      case Obj(m) =>
        KeysIff(m, s);
        MembersIff(m, s, root, rank, x);
      case Arr(items) => ItemsIff(items, s, root, rank, x);
      case Str(text) => TextIff(text, s, x);
      case Int(n) => NumberIff(n as real, s);
      case Float(v) => NumberIff(v, s);
      case _ =>
    }
  }

  /** A reference stands for what it points to, if it points to a schema at all. */
  lemma {:induction false} ReferenceExactly(j: Json, s: Schema, root: Schema, rank: Schema -> nat, x: Syntax,
                                            ref: string)
    requires Ranked(root, rank) && Says(s, "$ref", Str(ref))
    ensures Valid(j, s, root, rank, x) <==>
              exists t :: Resolve(ref, root) == Some(t) && Valid(j, t, root, rank, x)
  {
    hide Resolve, ShallowHolds, BranchFlags, MemberSchema;
    if Resolve(ref, root).Some? { assert SameInstance(root, s, Resolve(ref, root).value); }
  }

  ghost predicate Holds(j: Json, branch: Json, root: Schema, rank: Schema -> nat, x: Syntax)
    requires Ranked(root, rank)
  {
    branch.Obj? && Valid(j, branch.members, root, rank, x)
  }

  ghost predicate OneHolds(j: Json, branches: seq<Json>, root: Schema, rank: Schema -> nat, x: Syntax)
    requires Ranked(root, rank)
  {
    exists k ::
      && 0 <= k < |branches| && Holds(j, branches[k], root, rank, x)
      && forall i :: 0 <= i < |branches| && i != k ==> !Holds(j, branches[i], root, rank, x)
  }

  /** Branches hold exactly when one of them holds and every other one fails, or is no schema. */
  lemma {:induction false} OneOfExactly(j: Json, s: Schema, root: Schema, rank: Schema -> nat, x: Syntax,
                                        branches: seq<Json>)
    requires Ranked(root, rank) && RefOf(s).None? && Says(s, "oneOf", Arr(branches))
    ensures Valid(j, s, root, rank, x) <==> OneHolds(j, branches, root, rank, x)
  {
    ValidBranches(j, s, root, rank, x);
    assert ListOf(s, "oneOf").value == branches;
    var flags := BranchFlags(j, s, root, rank, x);
    forall k: nat | k < |branches| ensures flags[k] == Holds(j, branches[k], root, rank, x) {
      BranchIsValid(j, s, k, root, rank, x);
    }
    hide Valid, BranchFlags, Holds, Ranked;
    if OneHolds(j, branches, root, rank, x) {
      var k :| 0 <= k < |branches| && Holds(j, branches[k], root, rank, x)
        && forall i :: 0 <= i < |branches| && i != k ==> !Holds(j, branches[i], root, rank, x);
      assert flags[k] && forall i | 0 <= i < |flags| && i != k :: !flags[i];
    }
    if ExactlyOne(flags) {
      var k :| 0 <= k < |flags| && flags[k] && forall i | 0 <= i < |flags| && i != k :: !flags[i];
      assert Holds(j, branches[k], root, rank, x);
    }
  }
}

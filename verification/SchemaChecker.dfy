/**
 The validator's own JSON Schema checker for the subset its schemas use, against a declarative validity
 relation. Regular expressions and the two formats are parameters; Python's equality of numbers with
 booleans, and of whole floats with integers, is left out.
 */
module SchemaChecker {
  import opened Wrappers
  import opened JsonPointer

  type Schema = map<string, Json>

  /** What the checker asks other libraries. */
  datatype Syntax = Syntax(matches: (string, string) -> bool, isDateTime: string -> bool, isUri: string -> bool)

  datatype Fault =
    | UnresolvedReference | NotExactlyOne | NotConst | NotInEnum | WrongType | MissingKeys | UnexpectedKeys
    | TooFewItems | TooManyItems | RepeatedItems | TooShort | TooLong | PatternMismatch | FormatMismatch
    | TooSmall | TooLarge | NotGreater | InvalidBranch

  // ---------------------------------------------------------------- reading keywords

  function RefOf(s: Schema): Option<string> {
    if "$ref" in s && s["$ref"].Str? then Some(s["$ref"].text) else None
  }

  function ListOf(s: Schema, keyword: string): Option<seq<Json>> {
    if keyword in s && s[keyword].Arr? then Some(s[keyword].items) else None
  }

  function DictOf(s: Schema, keyword: string): Option<Schema> {
    if keyword in s && s[keyword].Obj? then Some(s[keyword].members) else None
  }

  function IntOf(s: Schema, keyword: string): Option<int> {
    if keyword in s && s[keyword].Int? then Some(s[keyword].n) else None
  }

  function NumberOf(j: Json): Option<real> {
    match j
    case Int(n) => Some(n as real)
    case Float(x) => Some(x)
    case _ => None
  }

  function BoundOf(s: Schema, keyword: string): Option<real> {
    if keyword in s then NumberOf(s[keyword]) else None
  }

  function Properties(s: Schema): Schema {
    if DictOf(s, "properties").Some? then DictOf(s, "properties").value else map[]
  }

  /** The schema of one member of an object, if there is one. */
  function MemberSchema(s: Schema, key: string): Option<Schema> {
    DictOf(Properties(s), key)
  }

  predicate HasType(j: Json, name: string) {
    match j
    case Null => name == "null"
    case Bool(_) => name == "boolean"
    case Int(_) => name == "integer" || name == "number"
    case Float(_) => name == "number"
    case Str(_) => name == "string"
    case Arr(_) => name == "array"
    case Obj(_) => name == "object"
  }

  // ---------------------------------------------------------------- the validity relation, keyword by keyword

  predicate ConstHolds(j: Json, s: Schema) {
    "const" in s ==> j == s["const"]
  }

  predicate EnumHolds(j: Json, s: Schema) {
    "enum" in s ==> s["enum"].Arr? && j in s["enum"].items
  }

  predicate TypeHolds(j: Json, s: Schema) {
    "type" in s ==>
      match s["type"]
      case Str(name) => HasType(j, name)
      case Arr(names) => exists i | 0 <= i < |names| :: names[i].Str? && HasType(j, names[i].text)
      case _ => true
  }

  predicate RequiredHolds(m: map<string, Json>, s: Schema) {
    ListOf(s, "required").Some? ==>
      var keys := ListOf(s, "required").value;
      forall i | 0 <= i < |keys| :: keys[i].Str? && keys[i].text in m
  }

  predicate ClosedHolds(m: map<string, Json>, s: Schema) {
    "additionalProperties" in s && s["additionalProperties"] == Bool(false) ==> m.Keys <= Properties(s).Keys
  }

  predicate LengthHolds(length: nat, s: Schema, least: string, most: string) {
    && (IntOf(s, least).Some? ==> length >= IntOf(s, least).value)
    && (IntOf(s, most).Some? ==> length <= IntOf(s, most).value)
  }

  predicate UniqueHolds(items: seq<Json>, s: Schema) {
    "uniqueItems" in s && s["uniqueItems"] == Bool(true) ==> forall i, j | 0 <= i < j < |items| :: items[i] != items[j]
  }

  predicate PatternHolds(text: string, s: Schema, x: Syntax) {
    "pattern" in s && s["pattern"].Str? ==> x.matches(s["pattern"].text, text)
  }

  predicate FormatHolds(text: string, s: Schema, x: Syntax) {
    && ("format" in s && s["format"] == Str("date-time") ==> x.isDateTime(text))
    && ("format" in s && s["format"] == Str("uri") ==> x.isUri(text))
  }

  predicate RangeHolds(v: real, s: Schema) {
    && (BoundOf(s, "minimum").Some? ==> v >= BoundOf(s, "minimum").value)
    && (BoundOf(s, "maximum").Some? ==> v <= BoundOf(s, "maximum").value)
    && (BoundOf(s, "exclusiveMinimum").Some? ==> v > BoundOf(s, "exclusiveMinimum").value)
  }

  /** The keywords that look at one instance and not at its parts. */
  predicate ShallowHolds(j: Json, s: Schema, x: Syntax) {
    && ConstHolds(j, s) && EnumHolds(j, s) && TypeHolds(j, s)
    && (j.Obj? ==> RequiredHolds(j.members, s) && ClosedHolds(j.members, s))
    && (j.Arr? ==> LengthHolds(|j.items|, s, "minItems", "maxItems") && UniqueHolds(j.items, s))
    && (j.Str? ==>
          LengthHolds(|j.text|, s, "minLength", "maxLength") && PatternHolds(j.text, s, x)
          && FormatHolds(j.text, s, x))
    && (NumberOf(j).Some? ==> RangeHolds(NumberOf(j).value, s))
  }

  /** From one schema to another that is applied to the same instance. */
  ghost predicate SameInstance(root: Schema, s: Schema, t: Schema) {
    if RefOf(s).Some? then Resolve(RefOf(s).value, root) == Some(t)
    else ListOf(s, "oneOf").Some? && Obj(t) in ListOf(s, "oneOf").value
  }

  /** The graph of `$ref` and `oneOf` has no cycle: it can be ranked. */
  ghost predicate Ranked(root: Schema, rank: Schema -> nat) {
    forall s, t :: SameInstance(root, s, t) ==> rank(t) < rank(s)
  }

  /** Exactly one of some branches holds. */
  predicate ExactlyOne(flags: seq<bool>) {
    exists k | 0 <= k < |flags| :: flags[k] && forall i | 0 <= i < |flags| && i != k :: !flags[i]
  }

  ghost predicate Valid(j: Json, s: Schema, root: Schema, rank: Schema -> nat, x: Syntax)
    requires Ranked(root, rank)
    decreases j, rank(s), 2
  {
    if RefOf(s).Some? then
      var t := Resolve(RefOf(s).value, root);
      t.Some? && SameInstance(root, s, t.value) && Valid(j, t.value, root, rank, x)
    else if ListOf(s, "oneOf").Some? then
      ExactlyOne(BranchFlags(j, s, root, rank, x))
    else
      && ShallowHolds(j, s, x)
      && (j.Obj? ==> forall key :: key in j.members && MemberSchema(s, key).Some? ==>
                       Valid(j.members[key], MemberSchema(s, key).value, root, rank, x))
      && (j.Arr? && DictOf(s, "items").Some? ==> forall i :: 0 <= i < |j.items| ==>
                       Valid(j.items[i], DictOf(s, "items").value, root, rank, x))
  }

  /** Which branches of a `oneOf` hold. */
  ghost function BranchFlags(j: Json, s: Schema, root: Schema, rank: Schema -> nat, x: Syntax): seq<bool>
    requires Ranked(root, rank) && RefOf(s).None? && ListOf(s, "oneOf").Some?
    decreases j, rank(s), 1
  {
    seq(|ListOf(s, "oneOf").value|,
        k requires 0 <= k < |ListOf(s, "oneOf").value| => BranchValid(j, s, k, root, rank, x))
  }

  ghost predicate BranchValid(j: Json, s: Schema, k: nat, root: Schema, rank: Schema -> nat, x: Syntax)
    requires Ranked(root, rank) && RefOf(s).None? && ListOf(s, "oneOf").Some? && k < |ListOf(s, "oneOf").value|
    decreases j, rank(s), 0
  {
    var alternative := ListOf(s, "oneOf").value[k];
    alternative.Obj? && SameInstance(root, s, alternative.members) && Valid(j, alternative.members, root, rank, x)
  }

  // ---------------------------------------------------------------- the checker

  /** The recursive checker: it appends to the error list exactly when the instance is not valid. */
  method Validate(j: Json, s: Schema, root: Schema, ghost rank: Schema -> nat, x: Syntax, errors: seq<Fault>)
    returns (all: seq<Fault>)
    requires Ranked(root, rank)
    ensures errors <= all
    ensures all == errors <==> Valid(j, s, root, rank, x)
    decreases j, rank(s), 1
  {
    if "$ref" in s && s["$ref"].Str? {
      var target := ResolveLocalRef(s["$ref"].text, root);
      if target.None? {
        all := errors + [UnresolvedReference];
      } else {
        assert SameInstance(root, s, target.value);
        all := Validate(j, target.value, root, rank, x, errors);
      }
      return;
    }
    if "oneOf" in s && s["oneOf"].Arr? {
      all := ValidateOneOf(j, s, root, rank, x, errors);
      return;
    }
    if "const" in s && j != s["const"] { return errors + [NotConst]; }
    if "enum" in s && !(s["enum"].Arr? && j in s["enum"].items) { return errors + [NotInEnum]; }
    if !TypeHolds(j, s) { return errors + [WrongType]; }
    all := errors;
    match j
    case Obj(_) => all := ValidateObject(j, s, root, rank, x, all);
    case Arr(_) => all := ValidateArray(j, s, root, rank, x, all);
    case Str(text) => all := ValidateString(text, s, x, all);
    case Int(n) => all := ValidateNumber(n as real, s, all);
    case Float(v) => all := ValidateNumber(v, s, all);
    case _ =>
  }

  /** Count the branches that leave no error. */
  method ValidateOneOf(j: Json, s: Schema, root: Schema, ghost rank: Schema -> nat, x: Syntax, errors: seq<Fault>)
    returns (all: seq<Fault>)
    requires Ranked(root, rank) && RefOf(s).None? && ListOf(s, "oneOf").Some?
    ensures errors <= all
    ensures all == errors <==> Valid(j, s, root, rank, x)
    decreases j, rank(s), 0
  {
    hide ShallowHolds, Resolve, BranchValid, ExactlyOne, Valid;
    assert Valid(j, s, root, rank, x)
           <==> ExactlyOne(BranchFlags(j, s, root, rank, x)) by { ValidBranches(j, s, root, rank, x); }
    var alternatives := ListOf(s, "oneOf").value;
    var successful := 0;
    ghost var flags: seq<bool> := [];
    for k := 0 to |alternatives|
      invariant |flags| == k && forall i :: 0 <= i < k ==> flags[i] == BranchValid(j, s, i, root, rank, x)
      invariant successful == Count(flags)
    {
      var branchErrors: seq<Fault> := [];
      if alternatives[k].Obj? {
        assert SameInstance(root, s, alternatives[k].members);
        branchErrors := Validate(j, alternatives[k].members, root, rank, x, branchErrors);
      } else {
        branchErrors := branchErrors + [InvalidBranch];
      }
      BranchIsValid(j, s, k, root, rank, x);
      if branchErrors == [] { successful := successful + 1; }
      assert (flags + [branchErrors == []])[..k] == flags;
      flags := flags + [branchErrors == []];
    }
    CountIsOne(flags);
    assert flags == BranchFlags(j, s, root, rank, x);
    all := if successful != 1 then errors + [NotExactlyOne] else errors;
  }

  function Count(flags: seq<bool>): nat {
    if flags == [] then 0 else Count(flags[..|flags| - 1]) + (if flags[|flags| - 1] then 1 else 0)
  }

  predicate NoneOf(flags: seq<bool>) {
    forall i | 0 <= i < |flags| :: !flags[i]
  }

  lemma {:induction false} ExactlyOneSplits(flags: seq<bool>)
    requires flags != []
    ensures var n := |flags| - 1;
            && NoneOf(flags) == (!flags[n] && NoneOf(flags[..n]))
            && ExactlyOne(flags) == if flags[n] then NoneOf(flags[..n]) else ExactlyOne(flags[..n])
  {
    var n, before := |flags| - 1, flags[..|flags| - 1];
    if flags[n] && NoneOf(before) {
      assert forall i | 0 <= i < |flags| && i != n :: !flags[i] by {
        forall i | 0 <= i < |flags| && i != n ensures !flags[i] { assert !before[i]; }
      }
    }
    if !flags[n] && ExactlyOne(before) {
      var k :| 0 <= k < n && before[k] && forall i | 0 <= i < n && i != k :: !before[i];
      assert flags[k] && forall i | 0 <= i < |flags| && i != k :: !flags[i] by {
        forall i | 0 <= i < |flags| && i != k ensures !flags[i] { if i < n { assert !before[i]; } }
      }
    }
    if ExactlyOne(flags) {
      var k :| 0 <= k < |flags| && flags[k] && forall i | 0 <= i < |flags| && i != k :: !flags[i];
      if k < n { assert before[k] && forall i | 0 <= i < n && i != k :: !before[i]; }
    }
  }

  lemma {:induction false} CountIsOne(flags: seq<bool>)
    ensures Count(flags) == 0 <==> NoneOf(flags)
    ensures Count(flags) == 1 <==> ExactlyOne(flags)
  {
    if flags != [] {
      ExactlyOneSplits(flags);
      CountIsOne(flags[..|flags| - 1]);
      hide NoneOf, ExactlyOne;
    }
  }

  lemma {:induction false} ValidBranches(j: Json, s: Schema, root: Schema, rank: Schema -> nat, x: Syntax)
    requires Ranked(root, rank) && RefOf(s).None? && ListOf(s, "oneOf").Some?
    ensures Valid(j, s, root, rank, x) <==> ExactlyOne(BranchFlags(j, s, root, rank, x))
  {
    hide BranchFlags, ExactlyOne, ShallowHolds, Resolve;
  }

  lemma {:induction false} BranchIsValid(j: Json, s: Schema, k: nat, root: Schema, rank: Schema -> nat, x: Syntax)
    requires Ranked(root, rank) && RefOf(s).None? && ListOf(s, "oneOf").Some? && k < |ListOf(s, "oneOf").value|
    ensures var alternative := ListOf(s, "oneOf").value[k];
            BranchValid(j, s, k, root, rank, x) == (alternative.Obj? && Valid(j, alternative.members, root, rank, x))
  {
    hide Valid;
    var alternative := ListOf(s, "oneOf").value[k];
    if alternative.Obj? { assert SameInstance(root, s, alternative.members); }
  }

  method ValidateObject(j: Json, s: Schema, root: Schema, ghost rank: Schema -> nat, x: Syntax, errors: seq<Fault>)
    returns (all: seq<Fault>)
    requires Ranked(root, rank) && j.Obj?
    ensures errors <= all
    ensures all == errors <==>
              RequiredHolds(j.members, s) && ClosedHolds(j.members, s)
              && forall key :: key in j.members && MemberSchema(s, key).Some? ==>
                   Valid(j.members[key], MemberSchema(s, key).value, root, rank, x)
    decreases j, rank(s), 0
  {
    all := errors;
    if !RequiredHolds(j.members, s) { all := all + [MissingKeys]; }
    if !ClosedHolds(j.members, s) { all := all + [UnexpectedKeys]; }
    ghost var shallow := all;
    var left := j.members.Keys;
    while left != {}
      invariant left <= j.members.Keys && shallow <= all
      invariant all == shallow <==>
                  forall key :: key in j.members && key !in left && MemberSchema(s, key).Some? ==>
                    Valid(j.members[key], MemberSchema(s, key).value, root, rank, x)
    {
      var key :| key in left;
      left := left - {key};
      if MemberSchema(s, key).Some? {
        all := Validate(j.members[key], MemberSchema(s, key).value, root, rank, x, all);
      }
    }
  }

  method ValidateArray(j: Json, s: Schema, root: Schema, ghost rank: Schema -> nat, x: Syntax, errors: seq<Fault>)
    returns (all: seq<Fault>)
    requires Ranked(root, rank) && j.Arr?
    ensures errors <= all
    ensures all == errors <==>
              LengthHolds(|j.items|, s, "minItems", "maxItems") && UniqueHolds(j.items, s)
              && (DictOf(s, "items").Some? ==> forall i :: 0 <= i < |j.items| ==>
                    Valid(j.items[i], DictOf(s, "items").value, root, rank, x))
    decreases j, rank(s), 0
  {
    hide Valid;
    all := errors;
    var least, most := IntOf(s, "minItems"), IntOf(s, "maxItems");
    if least.Some? && |j.items| < least.value { all := all + [TooFewItems]; }
    if most.Some? && |j.items| > most.value { all := all + [TooManyItems]; }
    if !UniqueHolds(j.items, s) { all := all + [RepeatedItems]; }
    ghost var shallow := all;
    if DictOf(s, "items").Some? {
      for i := 0 to |j.items|
        invariant shallow <= all
        invariant all == shallow <==> forall k :: 0 <= k < i ==>
                  Valid(j.items[k], DictOf(s, "items").value, root, rank, x)
      {
        all := Validate(j.items[i], DictOf(s, "items").value, root, rank, x, all);
      }
    }
  }

  method ValidateString(text: string, s: Schema, x: Syntax, errors: seq<Fault>) returns (all: seq<Fault>)
    ensures errors <= all
    ensures all == errors <==>
              LengthHolds(|text|, s, "minLength", "maxLength") && PatternHolds(text, s, x) && FormatHolds(text, s, x)
  {
    all := errors;
    var least, most := IntOf(s, "minLength"), IntOf(s, "maxLength");
    if least.Some? && |text| < least.value { all := all + [TooShort]; }
    if most.Some? && |text| > most.value { all := all + [TooLong]; }
    if !PatternHolds(text, s, x) { all := all + [PatternMismatch]; }
    if "format" in s {
      if s["format"] == Str("date-time") {
        if !x.isDateTime(text) { all := all + [FormatMismatch]; }
      } else if s["format"] == Str("uri") && !x.isUri(text) {
        all := all + [FormatMismatch];
      }
    }
  }

  method ValidateNumber(v: real, s: Schema, errors: seq<Fault>) returns (all: seq<Fault>)
    ensures errors <= all
    ensures all == errors <==> RangeHolds(v, s)
  {
    all := errors;
    var minimum, maximum, exclusive := BoundOf(s, "minimum"), BoundOf(s, "maximum"), BoundOf(s, "exclusiveMinimum");
    if minimum.Some? && v < minimum.value { all := all + [TooSmall]; }
    if maximum.Some? && v > maximum.value { all := all + [TooLarge]; }
    if exclusive.Some? && v <= exclusive.value { all := all + [NotGreater]; }
  }

  /** Validity does not depend on how the graph was ranked. */
  lemma {:induction false} RankDoesNotMatter(j: Json, s: Schema, root: Schema,
                                             rank: Schema -> nat, other: Schema -> nat, x: Syntax)
    requires Ranked(root, rank) && Ranked(root, other)
    ensures Valid(j, s, root, rank, x) == Valid(j, s, root, other, x)
    decreases j, rank(s), 1
  {
    hide ShallowHolds, Resolve, MemberSchema;
    if RefOf(s).Some? {
      var t := Resolve(RefOf(s).value, root);
      if t.Some? {
        assert SameInstance(root, s, t.value);
        RankDoesNotMatter(j, t.value, root, rank, other, x);
      }
    } else if ListOf(s, "oneOf").Some? {
      BranchesDoNotMatter(j, s, root, rank, other, x);
      ValidBranches(j, s, root, rank, x);
      ValidBranches(j, s, root, other, x);
    } else {
      PartsDoNotMatter(j, s, root, rank, other, x);
    }
  }

  lemma {:induction false} BranchesDoNotMatter(j: Json, s: Schema, root: Schema,
                                               rank: Schema -> nat, other: Schema -> nat, x: Syntax)
    requires Ranked(root, rank) && Ranked(root, other) && RefOf(s).None? && ListOf(s, "oneOf").Some?
    ensures BranchFlags(j, s, root, rank, x) == BranchFlags(j, s, root, other, x)
    decreases j, rank(s), 0
  {
    hide ShallowHolds, Resolve, MemberSchema, Valid;
    var alternatives := ListOf(s, "oneOf").value;
    forall k: nat | k < |alternatives|
      ensures BranchValid(j, s, k, root, rank, x) == BranchValid(j, s, k, root, other, x) {
      if alternatives[k].Obj? {
        assert SameInstance(root, s, alternatives[k].members);
        RankDoesNotMatter(j, alternatives[k].members, root, rank, other, x);
      }
    }
  }

  lemma {:induction false} PartsDoNotMatter(j: Json, s: Schema, root: Schema,
                                            rank: Schema -> nat, other: Schema -> nat, x: Syntax)
    requires Ranked(root, rank) && Ranked(root, other)
    ensures j.Obj? ==> forall key :: key in j.members && MemberSchema(s, key).Some? ==>
              Valid(j.members[key], MemberSchema(s, key).value, root, rank, x)
              == Valid(j.members[key], MemberSchema(s, key).value, root, other, x)
    ensures j.Arr? && DictOf(s, "items").Some? ==> forall i :: 0 <= i < |j.items| ==>
              Valid(j.items[i], DictOf(s, "items").value, root, rank, x)
              == Valid(j.items[i], DictOf(s, "items").value, root, other, x)
    decreases j, rank(s), 0
  {
    hide Valid, MemberSchema, DictOf, Ranked;
    if j.Obj? {
      forall key | key in j.members && MemberSchema(s, key).Some?
        ensures Valid(j.members[key], MemberSchema(s, key).value, root, rank, x)
             == Valid(j.members[key], MemberSchema(s, key).value, root, other, x)
      {
        RankDoesNotMatter(j.members[key], MemberSchema(s, key).value, root, rank, other, x);
      }
    }
    if j.Arr? && DictOf(s, "items").Some? {
      forall i | 0 <= i < |j.items|
        ensures Valid(j.items[i], DictOf(s, "items").value, root, rank, x)
             == Valid(j.items[i], DictOf(s, "items").value, root, other, x)
      {
        RankDoesNotMatter(j.items[i], DictOf(s, "items").value, root, rank, other, x);
      }
    }
  }
}

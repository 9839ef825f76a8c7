/** Local `$ref` pointers: splitting, unescaping and walking, section 4 of RFC 6901. */
module JsonPointer {
  import opened Wrappers

  datatype Json =
    | Null | Bool(flag: bool) | Int(n: int) | Float(x: real) | Str(text: string)
    | Arr(items: seq<Json>) | Obj(members: map<string, Json>)

  /** `str.replace` of a two-character pattern by one character. */
  function Replace(s: string, a: char, b: char, c: char): string {
    if |s| < 2 then s
    else if s[0] == a && s[1] == b then [c] + Replace(s[2..], a, b, c)
    else [s[0]] + Replace(s[1..], a, b, c)
  }

  function Unescape(component: string): string {
    Replace(Replace(component, '~', '1', '/'), '~', '0', '~')
  }

  /** `str.split("/")`. */
  function Split(s: string): (parts: seq<string>)
    ensures parts != []
  {
    if s == "" then [""]
    else
      var rest := Split(s[1..]);
      if s[0] == '/' then [""] + rest else [[s[0]] + rest[0]] + rest[1..]
  }

  function Unescaped(components: seq<string>): seq<string> {
    seq(|components|, i requires 0 <= i < |components| => Unescape(components[i]))
  }

  /** The value reached by following the keys through nested objects. */
  function Walk(target: Json, keys: seq<string>): Option<Json> {
    if keys == [] then Some(target)
    else
      var before := Walk(target, keys[..|keys| - 1]);
      var key := keys[|keys| - 1];
      if before.Some? && before.value.Obj? && key in before.value.members then Some(before.value.members[key]) else None
  }

  function Resolve(ref: string, root: map<string, Json>): Option<map<string, Json>> {
    if !("#/" <= ref) then None
    else
      var target := Walk(Obj(root), Unescaped(Split(ref[2..])));
      if target.Some? && target.value.Obj? then Some(target.value.members) else None
  }

  lemma {:induction false} LostStaysLost(target: Json, keys: seq<string>, i: nat)
    requires i <= |keys| && Walk(target, keys[..i]).None?
    ensures Walk(target, keys).None?
  {
    if i < |keys| {
      assert keys[..|keys| - 1][..i] == keys[..i];
      LostStaysLost(target, keys[..|keys| - 1], i);
    } else {
      assert keys[..i] == keys;
    }
  }

  method ResolveLocalRef(ref: string, root: map<string, Json>) returns (resolved: Option<map<string, Json>>)
    ensures resolved == Resolve(ref, root)
  {
    if !("#/" <= ref) { return None; }
    var components := Split(ref[2..]);
    var keys := Unescaped(components);
    var target := Obj(root);
    for i := 0 to |components|
      invariant Walk(Obj(root), keys[..i]) == Some(target)
    {
      assert keys[..i + 1][..i] == keys[..i];
      var component := Unescape(components[i]);
      if !target.Obj? || component !in target.members {
        LostStaysLost(Obj(root), keys, i + 1);
        return None;
      }
      target := target.members[component];
    }
    assert keys[..|components|] == keys;
    return if target.Obj? then Some(target.members) else None;
  }

  // ---------------------------------------------------------------- writing pointers

  function Escape(key: string): string {
    if key == "" then ""
    else (if key[0] == '~' then "~0" else if key[0] == '/' then "~1" else [key[0]]) + Escape(key[1..])
  }

  function EscapeTilde(key: string): string {
    if key == "" then "" else (if key[0] == '~' then "~0" else [key[0]]) + EscapeTilde(key[1..])
  }

  lemma {:induction false} ReplaceSkips(x: char, rest: string, a: char, b: char, c: char)
    requires x != a || rest == "" || rest[0] != b
    ensures Replace([x] + rest, a, b, c) == [x] + Replace(rest, a, b, c)
  {
    assert ([x] + rest)[1..] == rest;
  }

  lemma {:induction false} ReplaceHits(rest: string, a: char, b: char, c: char)
    ensures Replace([a, b] + rest, a, b, c) == [c] + Replace(rest, a, b, c)
  {
    assert ([a, b] + rest)[2..] == rest;
  }

  lemma {:induction false} SlashesComeBack(key: string)
    ensures Replace(Escape(key), '~', '1', '/') == EscapeTilde(key)
  {
    if key != "" {
      SlashesComeBack(key[1..]);
      var rest := Escape(key[1..]);
      if key[0] == '~' {
        assert Escape(key) == ['~'] + (['0'] + rest);
        hide Replace, Escape;
        ReplaceSkips('~', ['0'] + rest, '~', '1', '/');
        ReplaceSkips('0', rest, '~', '1', '/');
      } else if key[0] == '/' {
        assert Escape(key) == ['~', '1'] + rest;
        hide Replace, Escape;
        ReplaceHits(rest, '~', '1', '/');
      } else {
        assert Escape(key) == [key[0]] + rest;
        hide Replace, Escape;
        ReplaceSkips(key[0], rest, '~', '1', '/');
      }
    }
  }

  lemma {:induction false} TildesComeBack(key: string)
    ensures Replace(EscapeTilde(key), '~', '0', '~') == key
  {
    if key != "" {
      TildesComeBack(key[1..]);
      var rest := EscapeTilde(key[1..]);
      if key[0] == '~' {
        assert EscapeTilde(key) == ['~', '0'] + rest;
        hide Replace, EscapeTilde;
        ReplaceHits(rest, '~', '0', '~');
      } else {
        assert EscapeTilde(key) == [key[0]] + rest;
        hide Replace, EscapeTilde;
        ReplaceSkips(key[0], rest, '~', '0', '~');
      }
    }
  }

  /** Unescaping in the order `~1` then `~0` gives every key back. */
  lemma {:induction false} UnescapeUndoesEscape(key: string)
    ensures Unescape(Escape(key)) == key
  {
    SlashesComeBack(key);
    TildesComeBack(key);
  }

  lemma {:induction false} EscapedHasNoSlash(key: string)
    ensures '/' !in Escape(key)
  {
    if key != "" { EscapedHasNoSlash(key[1..]); }
  }

  function Join(parts: seq<string>): string
    requires parts != []
  {
    if |parts| == 1 then parts[0] else parts[0] + ("/" + Join(parts[1..]))
  }

  lemma {:induction false} SplitFirst(part: string, rest: string)
    requires '/' !in part
    ensures Split(part) == [part]
    ensures Split(part + ("/" + rest)) == [part] + Split(rest)
  {
    if part == "" {
      assert part + ("/" + rest) == "/" + rest;
      assert ("/" + rest)[1..] == rest;
    } else {
      SplitFirst(part[1..], rest);
      assert (part + ("/" + rest))[1..] == part[1..] + ("/" + rest);
      assert part == [part[0]] + part[1..];
    }
  }

  lemma {:induction false} SplitUndoesJoin(parts: seq<string>)
    requires parts != [] && forall i :: 0 <= i < |parts| ==> '/' !in parts[i]
    ensures Split(Join(parts)) == parts
  {
    if |parts| == 1 {
      SplitFirst(parts[0], "");
    } else {
      SplitUndoesJoin(parts[1..]);
      SplitFirst(parts[0], Join(parts[1..]));
    }
  }

  function Escaped(keys: seq<string>): seq<string> {
    seq(|keys|, i requires 0 <= i < |keys| => Escape(keys[i]))
  }

  /** Resolving the pointer written for a non-empty key list walks exactly those keys. */
  lemma {:induction false} PointerWalksItsKeys(keys: seq<string>, root: map<string, Json>)
    requires keys != []
    ensures var target := Walk(Obj(root), keys);
            Resolve("#/" + Join(Escaped(keys)), root)
              == if target.Some? && target.value.Obj? then Some(target.value.members) else None
  {
    var parts := Escaped(keys);
    forall i | 0 <= i < |parts| ensures '/' !in parts[i] { EscapedHasNoSlash(keys[i]); }
    SplitUndoesJoin(parts);
    assert ("#/" + Join(parts))[2..] == Join(parts);
    forall i | 0 <= i < |keys| ensures Unescape(parts[i]) == keys[i] { UnescapeUndoesEscape(keys[i]); }
    assert Unescaped(parts) == keys;
  }
}

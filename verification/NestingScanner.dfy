/**
 The one-pass scan that bounds container nesting before a JSON text is parsed, against the concrete
 syntax of JSON: values with their white space, strings with the escapes of section 7 of RFC 8259.
 */
module NestingScanner {

  const MAX_JSON_NESTING: nat := 128

  // ---------------------------------------------------------------- the scanner

  datatype Scan = Scanning(depth: int, inString: bool, escaped: bool) | Rejected

  function Step(limit: int, s: Scan, c: char): Scan {
    match s
    case Rejected => Rejected
    case Scanning(depth, inString, escaped) =>
      if inString then
        if escaped then Scanning(depth, true, false)
        else if c == '\\' then Scanning(depth, true, true)
        else if c == '"' then Scanning(depth, false, false)
        else s
      else if c == '"' then Scanning(depth, true, escaped)
      else if c == '[' || c == '{' then if depth + 1 > limit then Rejected else Scanning(depth + 1, false, escaped)
      else if c == ']' || c == '}' then Scanning(depth - 1, false, escaped)
      else s
  }

  function ScanText(limit: int, s: Scan, text: string): Scan
    decreases |text|
  {
    if text == "" then s else ScanText(limit, Step(limit, s, text[0]), text[1..])
  }

  function Outside(depth: int): Scan {
    Scanning(depth, false, false)
  }

  lemma {:induction false} RejectedStays(limit: int, text: string)
    ensures ScanText(limit, Rejected, text) == Rejected
  {
    if text != "" { RejectedStays(limit, text[1..]); }
  }

  /** `_reject_excessive_json_nesting`: false where it raises. */
  method RejectExcessiveJsonNesting(text: string) returns (accepted: bool)
    ensures accepted == !ScanText(MAX_JSON_NESTING, Outside(0), text).Rejected?
  {
    var depth, inString, escaped := 0, false, false;
    for i := 0 to |text|
      invariant ScanText(MAX_JSON_NESTING, Scanning(depth, inString, escaped), text[i..])
                == ScanText(MAX_JSON_NESTING, Outside(0), text)
    {
      var character := text[i];
      assert text[i..][0] == character && text[i..][1..] == text[i + 1..];
      if inString {
        if escaped {
          escaped := false;
        } else if character == '\\' {
          escaped := true;
        } else if character == '"' {
          inString := false;
        }
        continue;
      }
      if character == '"' {
        inString := true;
      } else if character in "[{" {
        depth := depth + 1;
        if depth > MAX_JSON_NESTING {
          RejectedStays(MAX_JSON_NESTING, text[i + 1..]);
          return false;
        }
      } else if character in "]}" {
        depth := depth - 1;
      }
    }
    return true;
  }

  // ---------------------------------------------------------------- JSON texts

  datatype StringItem = Plain(c: char) | Escape(c: char) | Unicode(hex: string)

  datatype Value = Value(before: string, node: Node, after: string)
  datatype Node =
    | Literal(text: string)
    | Text(items: seq<StringItem>)
    | Array(blank: string, elements: seq<Value>)
    | Object(blank: string, members: seq<Member>)
  datatype Member = Member(before: string, key: seq<StringItem>, after: string, value: Value)

  predicate Blank(s: string) {
    forall i :: 0 <= i < |s| ==> s[i] in " \t\n\r"
  }

  /** Numbers, `true`, `false` and `null`. */
  predicate IsLiteral(s: string) {
    s != "" && forall i :: 0 <= i < |s| ==>
      'a' <= s[i] <= 'z' || 'A' <= s[i] <= 'Z' || '0' <= s[i] <= '9' || s[i] in "+-."
  }

  predicate ItemOk(item: StringItem) {
    match item
    case Plain(c) => c != '"' && c != '\\' && c >= ' '
    case Escape(c) => c in "\"\\/bfnrt"
    case Unicode(hex) =>
      |hex| == 4 && forall i :: 0 <= i < 4 ==> '0' <= hex[i] <= '9' || 'a' <= hex[i] <= 'f' || 'A' <= hex[i] <= 'F'
  }

  predicate ItemsOk(items: seq<StringItem>) {
    forall i :: 0 <= i < |items| ==> ItemOk(items[i])
  }

  predicate ValueOk(v: Value) {
    Blank(v.before) && Blank(v.after) && NodeOk(v.node)
  }

  predicate NodeOk(n: Node) {
    match n
    case Literal(text) => IsLiteral(text)
    case Text(items) => ItemsOk(items)
    case Array(blank, elements) => Blank(blank) && forall i :: 0 <= i < |elements| ==> ValueOk(elements[i])
    case Object(blank, members) => Blank(blank) && forall i :: 0 <= i < |members| ==> MemberOk(members[i])
  }

  predicate MemberOk(m: Member) {
    Blank(m.before) && ItemsOk(m.key) && Blank(m.after) && ValueOk(m.value)
  }

  function ItemText(item: StringItem): string {
    match item
    case Plain(c) => [c]
    case Escape(c) => ['\\', c]
    case Unicode(hex) => "\\u" + hex
  }

  function ItemsText(items: seq<StringItem>): string {
    if items == [] then "" else ItemText(items[0]) + ItemsText(items[1..])
  }

  function Quoted(items: seq<StringItem>): string {
    "\"" + (ItemsText(items) + "\"")
  }

  function ValueText(v: Value): string {
    v.before + (NodeText(v.node) + v.after)
  }

  function NodeText(n: Node): string {
    match n
    case Literal(text) => text
    case Text(items) => Quoted(items)
    case Array(blank, elements) => "[" + ((if elements == [] then blank else ElementsText(elements)) + "]")
    case Object(blank, members) => "{" + ((if members == [] then blank else MembersText(members)) + "}")
  }

  function ElementsText(elements: seq<Value>): string
    requires elements != []
  {
    if |elements| == 1 then ValueText(elements[0]) else ValueText(elements[0]) + ("," + ElementsText(elements[1..]))
  }

  function MembersText(members: seq<Member>): string
    requires members != []
  {
    if |members| == 1 then MemberText(members[0]) else MemberText(members[0]) + ("," + MembersText(members[1..]))
  }

  function MemberText(m: Member): string {
    m.before + (Quoted(m.key) + (m.after + (":" + ValueText(m.value))))
  }

  function Max(a: nat, b: nat): nat {
    if a < b then b else a
  }

  /** The depth of the tree in containers. */
  function Depth(n: Node): nat {
    match n
    case Literal(_) => 0
    case Text(_) => 0
    case Array(_, elements) => 1 + ElementsDepth(elements)
    case Object(_, members) => 1 + MembersDepth(members)
  }

  function ElementsDepth(elements: seq<Value>): nat {
    if elements == [] then 0 else Max(Depth(elements[0].node), ElementsDepth(elements[1..]))
  }

  function MembersDepth(members: seq<Member>): nat {
    if members == [] then 0 else Max(Depth(members[0].value.node), MembersDepth(members[1..]))
  }

  // ---------------------------------------------------------------- scanning a text piece by piece

  lemma {:induction false} ScanConcat(limit: int, s: Scan, a: string, b: string)
    ensures ScanText(limit, s, a + b) == ScanText(limit, ScanText(limit, s, a), b)
    decreases |a|
  {
    if a == "" {
      assert a + b == b;
    } else {
      assert (a + b)[0] == a[0] && (a + b)[1..] == a[1..] + b;
      ScanConcat(limit, Step(limit, s, a[0]), a[1..], b);
    }
  }

  lemma {:induction false} ScanOne(limit: int, s: Scan, c: char)
    ensures ScanText(limit, s, [c]) == Step(limit, s, c)
  {
    assert [c][1..] == "";
  }

  /** Text without quotes and brackets changes nothing outside strings. */
  lemma {:induction false} QuietText(limit: int, depth: int, text: string)
    requires Blank(text) || IsLiteral(text)
    ensures ScanText(limit, Outside(depth), text) == Outside(depth)
  {
    if text != "" {
      assert Step(limit, Outside(depth), text[0]) == Outside(depth);
      if |text| > 1 { QuietText(limit, depth, text[1..]); }
    }
  }

  lemma {:induction false} ItemStaysInside(limit: int, depth: int, item: StringItem)
    requires ItemOk(item)
    ensures ScanText(limit, Scanning(depth, true, false), ItemText(item)) == Scanning(depth, true, false)
  {
    var inside := Scanning(depth, true, false);
    match item
    case Plain(c) => ScanOne(limit, inside, c);
    case Escape(c) =>
      assert ['\\', c] == ['\\'] + [c];
      ScanConcat(limit, inside, ['\\'], [c]);
      ScanOne(limit, inside, '\\');
      ScanOne(limit, Scanning(depth, true, true), c);
    case Unicode(hex) =>
      assert "\\u" + hex == ['\\'] + (['u'] + hex);
      ScanConcat(limit, inside, ['\\'], ['u'] + hex);
      ScanOne(limit, inside, '\\');
      ScanConcat(limit, Scanning(depth, true, true), ['u'], hex);
      ScanOne(limit, Scanning(depth, true, true), 'u');
      HexStaysInside(limit, depth, hex);
  }

  lemma {:induction false} HexStaysInside(limit: int, depth: int, hex: string)
    requires forall i :: 0 <= i < |hex| ==> hex[i] != '"' && hex[i] != '\\'
    ensures ScanText(limit, Scanning(depth, true, false), hex) == Scanning(depth, true, false)
  {
    if hex != "" { HexStaysInside(limit, depth, hex[1..]); }
  }

  lemma {:induction false} ItemsStayInside(limit: int, depth: int, items: seq<StringItem>)
    requires ItemsOk(items)
    ensures ScanText(limit, Scanning(depth, true, false), ItemsText(items)) == Scanning(depth, true, false)
  {
    if items != [] {
      ItemStaysInside(limit, depth, items[0]);
      ItemsStayInside(limit, depth, items[1..]);
      ScanConcat(limit, Scanning(depth, true, false), ItemText(items[0]), ItemsText(items[1..]));
    }
  }

  /** A string literal, whatever it escapes, leaves the scanner where it was. */
  lemma {:induction false} QuotedIsQuiet(limit: int, depth: int, items: seq<StringItem>)
    requires ItemsOk(items)
    ensures ScanText(limit, Outside(depth), Quoted(items)) == Outside(depth)
  {
    var inside := Scanning(depth, true, false);
    ScanConcat(limit, Outside(depth), "\"", ItemsText(items) + "\"");
    ScanOne(limit, Outside(depth), '"');
    ScanConcat(limit, inside, ItemsText(items), "\"");
    ItemsStayInside(limit, depth, items);
    ScanOne(limit, inside, '"');
  }

  function Entered(limit: int, depth: int, added: nat): Scan {
    if depth + added > limit then Rejected else Outside(depth)
  }

  lemma {:induction false} ValueScans(limit: int, depth: int, v: Value)
    requires ValueOk(v) && depth <= limit
    ensures ScanText(limit, Outside(depth), ValueText(v)) == Entered(limit, depth, Depth(v.node))
    decreases v
  {
    ScanConcat(limit, Outside(depth), v.before, NodeText(v.node) + v.after);
    QuietText(limit, depth, v.before);
    ScanConcat(limit, Outside(depth), NodeText(v.node), v.after);
    NodeScans(limit, depth, v.node);
    QuietText(limit, depth, v.after);
    RejectedStays(limit, v.after);
  }

  lemma {:induction false} NodeScans(limit: int, depth: int, n: Node)
    requires NodeOk(n) && depth <= limit
    ensures ScanText(limit, Outside(depth), NodeText(n)) == Entered(limit, depth, Depth(n))
    decreases n
  {
    match n
    case Literal(text) => QuietText(limit, depth, text);
    case Text(items) => QuotedIsQuiet(limit, depth, items);
    case Array(blank, elements) =>
      var inner := if elements == [] then blank else ElementsText(elements);
      if depth < limit {
        if elements == [] { QuietText(limit, depth + 1, blank); } else { ElementsScan(limit, depth + 1, elements); }
      }
      ContainerScans(limit, depth, '[', inner, ']', ElementsDepth(elements));
    case Object(blank, members) =>
      var inner := if members == [] then blank else MembersText(members);
      if depth < limit {
        if members == [] { QuietText(limit, depth + 1, blank); } else { MembersScan(limit, depth + 1, members); }
      }
      ContainerScans(limit, depth, '{', inner, '}', MembersDepth(members));
  }

  /** An opening bracket, what it holds, a closing bracket. */
  lemma {:induction false} ContainerScans(limit: int, depth: int, open: char, inner: string, close: char, added: nat)
    requires depth <= limit && ((open == '[' && close == ']') || (open == '{' && close == '}'))
    requires depth < limit ==> ScanText(limit, Outside(depth + 1), inner) == Entered(limit, depth + 1, added)
    ensures ScanText(limit, Outside(depth), [open] + (inner + [close])) == Entered(limit, depth, 1 + added)
  {
    ScanConcat(limit, Outside(depth), [open], inner + [close]);
    ScanOne(limit, Outside(depth), open);
    if depth < limit {
      ScanConcat(limit, Outside(depth + 1), inner, [close]);
      ScanOne(limit, Outside(depth + 1), close);
      RejectedStays(limit, [close]);
    } else {
      RejectedStays(limit, inner + [close]);
    }
  }

  lemma {:induction false} ElementsScan(limit: int, depth: int, elements: seq<Value>)
    requires elements != [] && depth <= limit && forall i :: 0 <= i < |elements| ==> ValueOk(elements[i])
    ensures ScanText(limit, Outside(depth), ElementsText(elements)) == Entered(limit, depth, ElementsDepth(elements))
    decreases elements
  {
    ValueScans(limit, depth, elements[0]);
    if |elements| > 1 {
      ElementsScan(limit, depth, elements[1..]);
      CommaScans(limit, depth, ValueText(elements[0]), Depth(elements[0].node),
                 ElementsText(elements[1..]), ElementsDepth(elements[1..]));
    }
  }

  lemma {:induction false} MembersScan(limit: int, depth: int, members: seq<Member>)
    requires members != [] && depth <= limit && forall i :: 0 <= i < |members| ==> MemberOk(members[i])
    ensures ScanText(limit, Outside(depth), MembersText(members)) == Entered(limit, depth, MembersDepth(members))
    decreases members
  {
    var m := members[0];
    ScanConcat(limit, Outside(depth), m.before, Quoted(m.key) + (m.after + (":" + ValueText(m.value))));
    QuietText(limit, depth, m.before);
    ScanConcat(limit, Outside(depth), Quoted(m.key), m.after + (":" + ValueText(m.value)));
    QuotedIsQuiet(limit, depth, m.key);
    ScanConcat(limit, Outside(depth), m.after, ":" + ValueText(m.value));
    QuietText(limit, depth, m.after);
    ScanConcat(limit, Outside(depth), ":", ValueText(m.value));
    ScanOne(limit, Outside(depth), ':');
    ValueScans(limit, depth, m.value);
    if |members| > 1 {
      MembersScan(limit, depth, members[1..]);
      CommaScans(limit, depth, MemberText(m), Depth(m.value.node), MembersText(members[1..]),
                 MembersDepth(members[1..]));
    }
  }

  lemma {:induction false} CommaScans(limit: int, depth: int, first: string, a: nat, rest: string, b: nat)
    requires depth <= limit
    requires ScanText(limit, Outside(depth), first) == Entered(limit, depth, a)
    requires ScanText(limit, Outside(depth), rest) == Entered(limit, depth, b)
    ensures ScanText(limit, Outside(depth), first + ("," + rest)) == Entered(limit, depth, Max(a, b))
  {
    ScanConcat(limit, Outside(depth), first, "," + rest);
    ScanConcat(limit, Outside(depth), ",", rest);
    ScanOne(limit, Outside(depth), ',');
    RejectedStays(limit, "," + rest);
  }

  /**
   On the text of any JSON value the scanner raises exactly when the tree nests deeper than the limit, and
   otherwise ends at depth 0, outside any string: brackets and quotes inside strings never count.
   */
  lemma {:induction false} ScannerMatchesStructure(limit: nat, v: Value)
    requires ValueOk(v)
    ensures ScanText(limit, Outside(0), ValueText(v)).Rejected? <==> Depth(v.node) > limit
    ensures Depth(v.node) <= limit ==> ScanText(limit, Outside(0), ValueText(v)) == Outside(0)
  {
    ValueScans(limit, 0, v);
  }
}

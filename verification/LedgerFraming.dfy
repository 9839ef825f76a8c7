/**
 The bytes of a ledger: one canonical line per event, each ended by a newline (`_canonical`,
 `_decode_events`). The line encoding itself is any pair of functions that satisfies `Codec`.
 */
module LedgerFraming {
  import opened Wrappers

  /** Canonical JSON as the reader uses it: injective, never empty, never containing a raw newline. */
  ghost predicate Codec<T(!new)>(encode: T -> string, decode: string -> Option<T>) {
    && (forall e :: encode(e) != "" && '\n' !in encode(e) && decode(encode(e)) == Some(e))
    && (forall s :: decode(s).Some? ==> encode(decode(s).value) == s)
  }

  function Encode<T>(encode: T -> string, events: seq<T>): string {
    if events == [] then "" else encode(events[0]) + "\n" + Encode(encode, events[1..])
  }

  /** The text before the first newline, or all of it. */
  function FirstLine(s: string): string {
    if s == "" || s[0] == '\n' then "" else [s[0]] + FirstLine(s[1..])
  }

  lemma {:induction false} FirstLineOf(line: string, rest: string)
    requires '\n' !in line
    requires rest == "" || rest[0] == '\n'
    ensures FirstLine(line + rest) == line
  {
    if line == "" {
      assert line + rest == rest;
    } else {
      assert (line + rest)[1..] == line[1..] + rest;
      assert (line + rest)[0] == line[0];
      assert '\n' !in line[1..];
      FirstLineOf(line[1..], rest);
      assert line == [line[0]] + line[1..];
    }
  }

  lemma {:induction false} FirstLineSplits(s: string)
    ensures |FirstLine(s)| <= |s| && '\n' !in FirstLine(s)
    ensures s[..|FirstLine(s)|] == FirstLine(s)
    ensures |FirstLine(s)| < |s| ==> s[|FirstLine(s)|] == '\n'
  {
    if s != "" && s[0] != '\n' {
      FirstLineSplits(s[1..]);
    }
  }

  /** `raw.split("\n")`: always at least one line. */
  function Split(s: string): (lines: seq<string>)
    decreases |s|
  {
    var line := FirstLine(s);
    FirstLineSplits(s);
    if |line| == |s| then [line] else [line] + Split(s[|line| + 1..])
  }

  function Join(lines: seq<string>): string
    requires lines != []
  {
    if |lines| == 1 then lines[0] else lines[0] + "\n" + Join(lines[1..])
  }

  lemma {:induction false} JoinSplit(s: string)
    ensures Split(s) != [] && Join(Split(s)) == s
    ensures forall line :: line in Split(s) ==> '\n' !in line
    decreases |s|
  {
    var line := FirstLine(s);
    FirstLineSplits(s);
    if |line| < |s| {
      JoinSplit(s[|line| + 1..]);
      assert Split(s)[1..] == Split(s[|line| + 1..]);
    }
  }

  lemma {:induction false} SplitJoin(lines: seq<string>)
    requires lines != [] && forall line :: line in lines ==> '\n' !in line
    ensures Split(Join(lines)) == lines
  {
    if |lines| == 1 {
      FirstLineOf(lines[0], "");
      assert lines[0] + "" == lines[0];
    } else {
      var rest := "\n" + Join(lines[1..]);
      FirstLineOf(lines[0], rest);
      assert Join(lines) == lines[0] + rest;
      assert Join(lines)[|lines[0]| + 1..] == Join(lines[1..]);
      SplitJoin(lines[1..]);
    }
  }

  function EncodeLines<T>(encode: T -> string, events: seq<T>): (lines: seq<string>)
    ensures |lines| == |events| && forall i :: 0 <= i < |events| ==> lines[i] == encode(events[i])
  {
    seq(|events|, i requires 0 <= i < |events| => encode(events[i]))
  }

  lemma {:induction false} EncodeIsJoin<T>(encode: T -> string, events: seq<T>)
    requires events != []
    ensures Encode(encode, events) == Join(EncodeLines(encode, events)) + "\n"
  {
    var lines := EncodeLines(encode, events);
    if |events| > 1 {
      EncodeIsJoin(encode, events[1..]);
      assert lines[1..] == EncodeLines(encode, events[1..]);
    }
  }

  predicate BlankLine(s: string) {
    exists i :: 0 <= i < |s| - 1 && s[i] == '\n' && s[i + 1] == '\n'
  }

  /** Decode line by line; `None` stands for every rejection of a malformed file. */
  method Decode<T(!new)>(encode: T -> string, decode: string -> Option<T>, raw: string) returns (r: Option<seq<T>>)
    requires Codec(encode, decode)
    ensures r.Some? ==> r.value != [] && raw == Encode(encode, r.value)
    ensures r.None? ==> forall events :: events != [] ==> raw != Encode(encode, events)
  {
    if raw == "" || raw[|raw| - 1] != '\n' || BlankLine(raw) {
      forall events | events != [] ensures raw != Encode(encode, events) {
        Framed(encode, decode, events);
      }
      return None;
    }
    var body := raw[..|raw| - 1];
    var lines := Split(body);
    JoinSplit(body);
    var rows: seq<T> := [];
    for i := 0 to |lines|
      invariant |rows| == i
      invariant forall j :: 0 <= j < i ==> encode(rows[j]) == lines[j]
    {
      var value := decode(lines[i]);
      if value.None? {
        forall events | events != [] ensures raw != Encode(encode, events) {
          if raw == Encode(encode, events) {
            SplitOfEncode(encode, decode, events, body);
          }
        }
        return None;
      }
      rows := rows + [value.value];
    }
    EncodeIsJoin(encode, rows);
    assert EncodeLines(encode, rows) == lines;
    assert raw == body + "\n";
    return Some(rows);
  }

  lemma {:induction false} SplitOfEncode<T(!new)>(encode: T -> string, decode: string -> Option<T>, events: seq<T>,
                                                         body: string)
    requires Codec(encode, decode) && events != []
    requires body + "\n" == Encode(encode, events)
    ensures Split(body) == EncodeLines(encode, events)
  {
    EncodeIsJoin(encode, events);
    var lines := EncodeLines(encode, events);
    assert body == (body + "\n")[..|body|] == Join(lines);
    SplitJoin(lines);
  }

  /** No encoding is empty, lacks its last newline, starts with a newline or holds a blank line. */
  lemma {:induction false} Framed<T(!new)>(encode: T -> string, decode: string -> Option<T>, events: seq<T>)
    requires Codec(encode, decode) && events != []
    ensures var raw := Encode(encode, events);
            raw != "" && raw[0] != '\n' && raw[|raw| - 1] == '\n' && !BlankLine(raw)
  {
    var raw := Encode(encode, events);
    var line := encode(events[0]);
    var rest := Encode(encode, events[1..]);
    assert raw == line + "\n" + rest;
    if |events| > 1 {
      Framed(encode, decode, events[1..]);
    }
    assert forall j :: 0 <= j < |line| ==> raw[j] == line[j] && line[j] in line;
    forall i | 0 <= i < |raw| - 1 && raw[i] == '\n' ensures raw[i + 1] != '\n' {
      if i == |line| {
        assert raw[i + 1] == rest[0];
      } else if i > |line| {
        assert rest[i - |line| - 1] == raw[i] && rest[i - |line|] == raw[i + 1];
      }
    }
  }

  /** Different event lists have different bytes, and an append only adds bytes at the end. */
  lemma {:induction false} FramingIsInjective<T(!new)>(encode: T -> string, decode: string -> Option<T>, x: seq<T>,
                                                              y: seq<T>)
    requires Codec(encode, decode) && Encode(encode, x) == Encode(encode, y)
    ensures x == y
  {
    if x == [] || y == [] {
      if x != [] { Framed(encode, decode, x); }
      if y != [] { Framed(encode, decode, y); }
    } else {
      var rx, ry := "\n" + Encode(encode, x[1..]), "\n" + Encode(encode, y[1..]);
      FirstLineOf(encode(x[0]), rx);
      FirstLineOf(encode(y[0]), ry);
      assert Encode(encode, x) == encode(x[0]) + rx && Encode(encode, y) == encode(y[0]) + ry;
      assert decode(encode(x[0])) == Some(x[0]) && decode(encode(y[0])) == Some(y[0]);
      assert rx == Encode(encode, x)[|encode(x[0])|..] == ry;
      assert Encode(encode, x[1..]) == rx[1..] == ry[1..];
      FramingIsInjective(encode, decode, x[1..], y[1..]);
    }
  }

  lemma {:induction false} AppendExtendsBytes<T>(encode: T -> string, events: seq<T>, e: T)
    ensures Encode(encode, events + [e]) == Encode(encode, events) + encode(e) + "\n"
  {
    if events == [] {
      assert [e][1..] == [] && events + [e] == [e];
    } else {
      assert (events + [e])[1..] == events[1..] + [e];
      AppendExtendsBytes(encode, events[1..], e);
    }
  }
}

/**
 Writing one TOML table and reading it back: quoting, escaping and dotted headers. Values are read
 by the rules for basic strings of TOML v1.0.0 (section "String"), for the escapes the adapter
 emits. A quoted key is read by inverting `EscapeKey` and nothing more: any escaped character stands
 for itself and control characters pass, so this is no reader of arbitrary TOML keys.
 */
module TomlText {
  import opened Common

  // ---------------------------------------------------------------- values

  /** `str.replace` of one character by a string. */
  function Replace(s: string, from: char, to: string): string {
    if s == "" then "" else (if s[0] == from then to else [s[0]]) + Replace(s[1..], from, to)
  }

  /** The five successive replacements, in their order. */
  function EscapeByReplacing(value: string): string {
    Replace(Replace(Replace(Replace(Replace(value, '\\', "\\\\"), '"', "\\\""), '\n', "\\n"), '\r', "\\r"), '\t', "\\t")
  }

  function QuoteValue(value: string): string {
    "\"" + EscapeByReplacing(value) + "\""
  }

  function EscapeChar(c: char): string {
    if c == '\\' then "\\\\"
    else if c == '"' then "\\\""
    else if c == '\n' then "\\n"
    else if c == '\r' then "\\r"
    else if c == '\t' then "\\t"
    else [c]
  }

  /** One pass over the characters. */
  function Escape(value: string): string {
    if value == "" then "" else EscapeChar(value[0]) + Escape(value[1..])
  }

  lemma {:induction false} ReplaceConcat(a: string, b: string, from: char, to: string)
    ensures Replace(a + b, from, to) == Replace(a, from, to) + Replace(b, from, to)
  {
    if a == "" {
      assert a + b == b;
    } else {
      assert (a + b)[1..] == a[1..] + b;
      ReplaceConcat(a[1..], b, from, to);
    }
  }

  lemma ReplaceOne(c: char, from: char, to: string)
    ensures Replace([c], from, to) == if c == from then to else [c]
  {
    assert [c][1..] == "";
  }

  lemma ReplaceTwo(c: char, d: char, from: char, to: string)
    requires c != from && d != from
    ensures Replace([c, d], from, to) == [c, d]
  {
    assert [c, d][1..] == [d];
    ReplaceOne(d, from, to);
  }

  lemma EscapeConcat(a: string, b: string)
    ensures EscapeByReplacing(a + b) == EscapeByReplacing(a) + EscapeByReplacing(b)
  {
    var r1a, r1b := Replace(a, '\\', "\\\\"), Replace(b, '\\', "\\\\");
    ReplaceConcat(a, b, '\\', "\\\\");
    var r2a, r2b := Replace(r1a, '"', "\\\""), Replace(r1b, '"', "\\\"");
    ReplaceConcat(r1a, r1b, '"', "\\\"");
    var r3a, r3b := Replace(r2a, '\n', "\\n"), Replace(r2b, '\n', "\\n");
    ReplaceConcat(r2a, r2b, '\n', "\\n");
    ReplaceConcat(r3a, r3b, '\r', "\\r");
    ReplaceConcat(Replace(r3a, '\r', "\\r"), Replace(r3b, '\r', "\\r"), '\t', "\\t");
  }

  lemma EscapeOne(c: char)
    ensures EscapeByReplacing([c]) == EscapeChar(c)
  {
    ReplaceOne(c, '\\', "\\\\");
    if c == '\\' {
      ReplaceTwo('\\', '\\', '"', "\\\"");
      ReplaceTwo('\\', '\\', '\n', "\\n");
      ReplaceTwo('\\', '\\', '\r', "\\r");
      ReplaceTwo('\\', '\\', '\t', "\\t");
    } else {
      ReplaceOne(c, '"', "\\\"");
      ReplaceOne(c, '\n', "\\n");
      ReplaceOne(c, '\r', "\\r");
      ReplaceOne(c, '\t', "\\t");
      ReplaceTwo('\\', '"', '\n', "\\n");
      ReplaceTwo('\\', '"', '\r', "\\r");
      ReplaceTwo('\\', '"', '\t', "\\t");
      ReplaceTwo('\\', 'n', '\r', "\\r");
      ReplaceTwo('\\', 'n', '\t', "\\t");
      ReplaceTwo('\\', 'r', '\t', "\\t");
    }
  }

  /** Five replacements in a row are one escape per character: none rewrites what another wrote. */
  lemma {:induction false} ReplacingIsEscaping(value: string)
    ensures EscapeByReplacing(value) == Escape(value)
  {
    if value != "" {
      assert value == [value[0]] + value[1..];
      EscapeConcat([value[0]], value[1..]);
      EscapeOne(value[0]);
      ReplacingIsEscaping(value[1..]);
    }
  }

  /** A character TOML lets stand for itself inside a basic string. */
  predicate StandsForItself(c: char) {
    c == '\t' || (c >= ' ' && c != '\U{7F}' && c != '"' && c != '\\')
  }

  function EscapeMeaning(c: char): Option<char> {
    match c
    case 'b' => Some('\U{8}')
    case 't' => Some('\t')
    case 'n' => Some('\n')
    case 'f' => Some('\U{C}')
    case 'r' => Some('\r')
    case '"' => Some('"')
    case '\\' => Some('\\')
    case _ => None
  }

  function Prepend(c: char, rest: Option<string>): Option<string> {
    if rest.Some? then Some([c] + rest.value) else None
  }

  /** The value of a basic string's body, or None where TOML rejects it. */
  function Unescape(body: string): Option<string> {
    if body == "" then Some("")
    else if body[0] == '\\' then
      if |body| >= 2 && EscapeMeaning(body[1]).Some? then Prepend(EscapeMeaning(body[1]).value, Unescape(body[2..]))
      else None
    else if StandsForItself(body[0]) then Prepend(body[0], Unescape(body[1..]))
    else None
  }

  /** A basic string with its quotes. */
  function ReadBasic(text: string): Option<string> {
    if |text| >= 2 && text[0] == '"' && text[|text| - 1] == '"' then Unescape(text[1..|text| - 1]) else None
  }

  /** No control character other than the three that are escaped. */
  predicate Clean(value: string) {
    forall i :: 0 <= i < |value| ==> CleanChar(value[i])
  }

  predicate CleanChar(c: char) {
    c == '\n' || c == '\r' || c == '\t' || (c >= ' ' && c != '\U{7F}')
  }

  lemma UnescapeStep(c: char, tail: string)
    ensures Unescape(EscapeChar(c) + tail) == if CleanChar(c) then Prepend(c, Unescape(tail)) else None
  {
    var e := EscapeChar(c);
    assert (e + tail)[|e|..] == tail;
  }

  lemma {:induction false} UnescapeEscape(value: string)
    ensures Unescape(Escape(value)) == if Clean(value) then Some(value) else None
  {
    if value != "" {
      var c, rest := value[0], value[1..];
      UnescapeEscape(rest);
      UnescapeStep(c, Escape(rest));
      assert value == [c] + rest;
      assert Clean(value) <==> CleanChar(c) && Clean(rest);
    }
  }

  /** A quoted value reads back exactly when it holds no control character TOML forbids. */
  lemma QuotedValueReadsBack(value: string)
    ensures ReadBasic(QuoteValue(value)) == if Clean(value) then Some(value) else None
  {
    ReplacingIsEscaping(value);
    UnescapeEscape(value);
    var q := QuoteValue(value);
    assert q[1..|q| - 1] == Escape(value);
  }

  lemma {:induction false} EscapeOneLine(value: string)
    ensures '\n' !in Escape(value)
  {
    if value != "" {
      EscapeOneLine(value[1..]);
    }
  }

  /** A quoted value never breaks its line. */
  lemma QuotedValueOneLine(value: string)
    ensures '\n' !in QuoteValue(value) && |QuoteValue(value)| >= 2 && QuoteValue(value)[0] == '"'
  {
    ReplacingIsEscaping(value);
    EscapeOneLine(value);
  }

  // ---------------------------------------------------------------- keys

  predicate BareChar(c: char) {
    ('A' <= c <= 'Z') || ('a' <= c <= 'z') || ('0' <= c <= '9') || c == '_' || c == '-'
  }

  predicate AllBare(s: string) {
    forall i :: 0 <= i < |s| ==> BareChar(s[i])
  }

  /** The pattern's `$` also matches just before one trailing newline. */
  predicate MatchesBareKey(name: string) {
    var core := if name != "" && name[|name| - 1] == '\n' then name[..|name| - 1] else name;
    core != "" && AllBare(core)
  }

  function EscapeKey(name: string): string {
    Replace(Replace(name, '\\', "\\\\"), '"', "\\\"")
  }

  function QuoteKey(name: string): string {
    if MatchesBareKey(name) then name else "\"" + EscapeKey(name) + "\""
  }

  function Header(parts: seq<string>): string {
    if parts == [] then ""
    else if |parts| == 1 then QuoteKey(parts[0])
    else QuoteKey(parts[0]) + "." + Header(parts[1..])
  }

  /** The rest of a quoted key up to its closing quote, and what follows it. */
  function ReadQuoted(text: string): (r: Option<(string, string)>)
    ensures r.Some? ==> |r.value.1| <= |text|
  {
    if text == "" then None
    else if text[0] == '"' then Some(("", text[1..]))
    else if text[0] == '\\' then
      if |text| < 2 then None
      else
        var rest := ReadQuoted(text[2..]);
        if rest.Some? then Some(([text[1]] + rest.value.0, rest.value.1)) else None
    else
      var rest := ReadQuoted(text[1..]);
      if rest.Some? then Some(([text[0]] + rest.value.0, rest.value.1)) else None
  }

  /** A bare key up to the next dot, and what follows it. */
  function ReadBare(text: string): (r: (string, string))
    ensures |r.1| <= |text|
  {
    if text == "" || text[0] == '.' then ("", text)
    else
      var rest := ReadBare(text[1..]);
      ([text[0]] + rest.0, rest.1)
  }

  function ReadKey(text: string): Option<(string, string)> {
    if text != "" && text[0] == '"' then ReadQuoted(text[1..]) else Some(ReadBare(text))
  }

  function EscapeKeyChar(c: char): string {
    if c == '\\' then "\\\\" else if c == '"' then "\\\"" else [c]
  }

  lemma {:induction false} EscapeKeyStep(name: string)
    requires name != ""
    ensures EscapeKey(name) == EscapeKeyChar(name[0]) + EscapeKey(name[1..])
  {
    var c, rest := name[0], name[1..];
    assert name == [c] + rest;
    ReplaceConcat([c], rest, '\\', "\\\\");
    ReplaceConcat(Replace([c], '\\', "\\\\"), Replace(rest, '\\', "\\\\"), '"', "\\\"");
    ReplaceOne(c, '\\', "\\\\");
    ReplaceOne(c, '"', "\\\"");
    ReplaceTwo('\\', '\\', '"', "\\\"");
  }

  lemma ReadQuotedStep(c: char, tail: string, name: string, rest: string)
    requires ReadQuoted(tail) == Some((name, rest))
    ensures ReadQuoted(EscapeKeyChar(c) + tail) == Some(([c] + name, rest))
  {
    var e := EscapeKeyChar(c);
    assert (e + tail)[|e|..] == tail;
  }

  lemma {:induction false} ReadQuotedKey(name: string, rest: string)
    ensures ReadQuoted(EscapeKey(name) + ("\"" + rest)) == Some((name, rest))
  {
    var close := "\"" + rest;
    if name == "" {
      assert EscapeKey(name) + close == close && close[1..] == rest;
    } else {
      var tail := EscapeKey(name[1..]) + close;
      ReadQuotedKey(name[1..], rest);
      assert EscapeKey(name) + close == EscapeKeyChar(name[0]) + tail by {
        EscapeKeyStep(name);
      }
      ReadQuotedStep(name[0], tail, name[1..], rest);
      assert name == [name[0]] + name[1..];
    }
  }

  lemma {:induction false} ReadBareKey(name: string, rest: string)
    requires '.' !in name && (rest == "" || rest[0] == '.')
    ensures ReadBare(name + rest) == (name, rest)
  {
    if name == "" {
      assert name + rest == rest;
    } else {
      ReadBareKey(name[1..], rest);
      assert (name + rest)[1..] == name[1..] + rest;
      assert [name[0]] + name[1..] == name;
    }
  }

  lemma ReadOneBareKey(name: string, rest: string)
    requires MatchesBareKey(name) && (rest == "" || rest[0] == '.')
    ensures ReadKey(name + rest) == Some((name, rest))
  {
    BareKeyShape(name);
    assert (name + rest)[0] == name[0];
    ReadBareKey(name, rest);
  }

  lemma ReadOneQuotedKey(name: string, rest: string)
    ensures ReadKey("\"" + EscapeKey(name) + "\"" + rest) == Some((name, rest))
  {
    var text := "\"" + EscapeKey(name) + "\"" + rest;
    assert text[1..] == EscapeKey(name) + ("\"" + rest);
    ReadQuotedKey(name, rest);
  }

  /** One key reads back, whatever follows it in the header. */
  lemma ReadQuotedOrBareKey(name: string, rest: string)
    requires rest == "" || rest[0] == '.'
    ensures ReadKey(QuoteKey(name) + rest) == Some((name, rest))
  {
    if MatchesBareKey(name) {
      ReadOneBareKey(name, rest);
    } else {
      ReadOneQuotedKey(name, rest);
    }
  }

  lemma BareKeyShape(name: string)
    requires MatchesBareKey(name)
    ensures '.' !in name && name != "" && name[0] != '"' && BareChar(name[0])
  {
    if name[|name| - 1] == '\n' {
      var core := name[..|name| - 1];
      assert name == core + ['\n'];
    }
  }

  /** The parts of a dotted header. */
  function ReadHeader(text: string): Option<seq<string>>
    decreases |text|
  {
    var first := ReadKey(text);
    if first.None? then None
    else if first.value.1 == "" then Some([first.value.0])
    else if first.value.1[0] != '.' then None
    else
      var rest := ReadHeader(first.value.1[1..]);
      if rest.Some? then Some([first.value.0] + rest.value) else None
  }

  lemma ReadHeaderOne(name: string)
    ensures ReadHeader(QuoteKey(name)) == Some([name])
  {
    assert QuoteKey(name) + "" == QuoteKey(name);
    ReadQuotedOrBareKey(name, "");
  }

  lemma ReadHeaderMore(name: string, tail: string, names: seq<string>)
    requires ReadHeader(tail) == Some(names)
    ensures ReadHeader(QuoteKey(name) + "." + tail) == Some([name] + names)
  {
    var rest := "." + tail;
    ReadQuotedOrBareKey(name, rest);
    assert rest[1..] == tail;
    assert QuoteKey(name) + "." + tail == QuoteKey(name) + rest;
  }

  /** A header reads back as the names it was made of, whatever characters they hold. */
  lemma {:induction false} HeaderReadsBack(parts: seq<string>)
    requires parts != []
    ensures ReadHeader(Header(parts)) == Some(parts)
  {
    if |parts| == 1 {
      ReadHeaderOne(parts[0]);
      assert parts == [parts[0]];
    } else {
      HeaderReadsBack(parts[1..]);
      ReadHeaderMore(parts[0], Header(parts[1..]), parts[1..]);
      assert parts == [parts[0]] + parts[1..];
    }
  }

  /** Different key paths have different headers. */
  lemma HeadersDiffer(first: seq<string>, second: seq<string>)
    requires first != [] && second != [] && Header(first) == Header(second)
    ensures first == second
  {
    HeaderReadsBack(first);
    HeaderReadsBack(second);
  }

  predicate OneLine(s: string) {
    '\n' !in s
  }

  lemma {:induction false} EscapeKeyOneLine(name: string)
    requires OneLine(name)
    ensures OneLine(EscapeKey(name))
  {
    if name != "" {
      EscapeKeyStep(name);
      EscapeKeyOneLine(name[1..]);
    }
  }

  predicate Blank(c: char) {
    c == ' ' || c == '\t'
  }

  lemma QuoteKeyShape(name: string)
    requires OneLine(name)
    ensures var q := QuoteKey(name);
            q != "" && OneLine(q) && !Blank(q[0]) && !Blank(q[|q| - 1])
  {
    if MatchesBareKey(name) {
      assert AllBare(name);
    } else {
      EscapeKeyOneLine(name);
    }
  }

  /** A header of names without newlines is one line that neither starts nor ends with a blank. */
  lemma {:induction false} HeaderShape(parts: seq<string>)
    requires parts != [] && forall i :: 0 <= i < |parts| ==> OneLine(parts[i])
    ensures var h := Header(parts);
            h != "" && OneLine(h) && !Blank(h[0]) && !Blank(h[|h| - 1])
  {
    QuoteKeyShape(parts[0]);
    if |parts| > 1 {
      HeaderShape(parts[1..]);
    }
  }
}

/**
 Finding one table in a TOML text by its lines alone. A line ends at a newline and nowhere else;
 a table begins at its header line and ends where the next line opening with a bracket begins.
 */
module TomlLines {
  import opened Common
  import opened TomlText

  // ---------------------------------------------------------------- lines

  /** Where the first line of `text` ends: at its newline, or at the end. */
  function LineEnd(text: string): (n: nat)
    ensures n <= |text|
  {
    if text == "" || text[0] == '\n' then 0 else 1 + LineEnd(text[1..])
  }

  function FirstLine(text: string): string {
    text[..LineEnd(text)]
  }

  predicate HasMore(text: string) {
    LineEnd(text) < |text|
  }

  /** What follows the first line's newline. */
  function Rest(text: string): string {
    if HasMore(text) then text[LineEnd(text) + 1..] else ""
  }

  /** Nothing is left of an unfinished line. */
  predicate Complete(text: string) {
    text == "" || text[|text| - 1] == '\n'
  }

  lemma {:induction false} LineEndIs(line: string, tail: string)
    requires OneLine(line)
    ensures LineEnd(line + "\n" + tail) == |line|
  {
    if line == "" {
      assert (line + "\n" + tail)[0] == '\n';
    } else {
      assert (line + "\n" + tail)[1..] == line[1..] + "\n" + tail;
      LineEndIs(line[1..], tail);
    }
  }

  lemma FirstLineIs(line: string, tail: string)
    requires OneLine(line)
    ensures var text := line + "\n" + tail;
            FirstLine(text) == line && HasMore(text) && Rest(text) == tail
  {
    LineEndIs(line, tail);
  }

  lemma {:induction false} LineEndConcat(first: string, second: string)
    ensures HasMore(first) ==> LineEnd(first + second) == LineEnd(first)
  {
    if first != "" && first[0] != '\n' {
      assert (first + second)[1..] == first[1..] + second;
      LineEndConcat(first[1..], second);
    }
  }

  lemma {:induction false} EndsAtNewline(text: string)
    requires HasMore(text)
    ensures text[LineEnd(text)] == '\n'
  {
    if text[0] != '\n' {
      EndsAtNewline(text[1..]);
    }
  }

  lemma LineConcat(first: string, second: string)
    requires HasMore(first)
    ensures FirstLine(first + second) == FirstLine(first) && HasMore(first + second)
    ensures Rest(first + second) == Rest(first) + second
  {
    LineEndConcat(first, second);
  }

  lemma {:induction false} CompleteHasMore(text: string)
    requires Complete(text) && text != ""
    ensures HasMore(text) && Complete(Rest(text))
  {
    if text[0] != '\n' {
      CompleteHasMore(text[1..]);
    }
  }

  // ---------------------------------------------------------------- what a line says

  function StripStart(s: string): string {
    if s != "" && Blank(s[0]) then StripStart(s[1..]) else s
  }

  function StripEnd(s: string): string {
    if s != "" && Blank(s[|s| - 1]) then StripEnd(s[..|s| - 1]) else s
  }

  function Strip(s: string): string {
    StripEnd(StripStart(s))
  }

  /** The header named by a line, blanks around the brackets and inside them aside. */
  function NameOn(line: string): Option<string> {
    var t := Strip(line);
    if |t| >= 2 && t[0] == '[' && t[|t| - 1] == ']' then Some(Strip(t[1..|t| - 1])) else None
  }

  predicate OpensTable(line: string) {
    var t := StripStart(line);
    t != "" && t[0] == '['
  }

  predicate AllBlank(s: string) {
    forall i :: 0 <= i < |s| ==> Blank(s[i])
  }

  predicate Trimmed(s: string) {
    s != "" && !Blank(s[0]) && !Blank(s[|s| - 1])
  }

  lemma {:induction false} StripStartDrops(blanks: string, s: string)
    requires AllBlank(blanks) && (s == "" || !Blank(s[0]))
    ensures StripStart(blanks + s) == s
  {
    if blanks == "" {
      assert blanks + s == s;
    } else {
      assert (blanks + s)[1..] == blanks[1..] + s;
      StripStartDrops(blanks[1..], s);
    }
  }

  lemma {:induction false} StripEndDrops(s: string, blanks: string)
    requires AllBlank(blanks) && (s == "" || !Blank(s[|s| - 1]))
    ensures StripEnd(s + blanks) == s
  {
    if blanks == "" {
      assert s + blanks == s;
    } else {
      var n := |blanks| - 1;
      assert (s + blanks)[..|s + blanks| - 1] == s + blanks[..n];
      StripEndDrops(s, blanks[..n]);
    }
  }

  lemma StripDrops(before: string, s: string, after: string)
    requires AllBlank(before) && AllBlank(after) && Trimmed(s)
    ensures Strip(before + s + after) == s
    ensures StripStart(before + s + after) == s + after
  {
    assert before + s + after == before + (s + after);
    StripStartDrops(before, s + after);
    StripEndDrops(s, after);
  }

  lemma {:induction false} StripStartShape(s: string) returns (blanks: string)
    ensures AllBlank(blanks) && s == blanks + StripStart(s)
    ensures StripStart(s) == "" || !Blank(StripStart(s)[0])
  {
    blanks := "";
    if s != "" && Blank(s[0]) {
      var more := StripStartShape(s[1..]);
      blanks := [s[0]] + more;
      assert s == [s[0]] + s[1..];
    }
  }

  lemma {:induction false} StripEndShape(s: string) returns (blanks: string)
    ensures AllBlank(blanks) && s == StripEnd(s) + blanks
    ensures StripEnd(s) == "" || (!Blank(StripEnd(s)[|StripEnd(s)| - 1]) && StripEnd(s)[0] == s[0])
  {
    blanks := "";
    if s != "" && Blank(s[|s| - 1]) {
      var n := |s| - 1;
      var more := StripEndShape(s[..n]);
      blanks := more + [s[n]];
      assert s == s[..n] + [s[n]];
    }
  }

  lemma StripShape(s: string) returns (before: string, after: string)
    ensures AllBlank(before) && AllBlank(after) && s == before + Strip(s) + after
    ensures Strip(s) == "" || Trimmed(Strip(s))
  {
    before := StripStartShape(s);
    after := StripEndShape(StripStart(s));
  }

  /** The line pattern: blanks, a bracket, blanks, the header, blanks, a bracket, blanks. */
  predicate MatchesPattern(line: string, header: string, w1: string, w2: string, w3: string, w4: string) {
    AllBlank(w1) && AllBlank(w2) && AllBlank(w3) && AllBlank(w4) &&
    line == w1 + ("[" + (w2 + header + w3) + "]") + w4
  }

  /** A line that matches the pattern names the header; */
  lemma PatternNames(line: string, header: string, w1: string, w2: string, w3: string, w4: string)
    requires Trimmed(header) && MatchesPattern(line, header, w1, w2, w3, w4)
    ensures NameOn(line) == Some(header)
  {
    var inner := w2 + header + w3;
    var t := "[" + inner + "]";
    StripDrops(w1, t, w4);
    assert t[1..|t| - 1] == inner;
    StripDrops(w2, header, w3);
  }

  /** and a line that names it matches the pattern, and opens a table. */
  lemma NamedMatches(line: string, header: string) returns (w1: string, w2: string, w3: string, w4: string)
    requires NameOn(line) == Some(header)
    ensures MatchesPattern(line, header, w1, w2, w3, w4)
    ensures OpensTable(line)
  {
    w1, w4 := StripShape(line);
    var t := Strip(line);
    var inner := t[1..|t| - 1];
    w2, w3 := StripShape(inner);
    assert t == "[" + inner + "]";
    var blanks := StripEndShape(StripStart(line));
  }

  // ---------------------------------------------------------------- finding a line

  /** Where the first wanted line starts; the end of the text when there is none. */
  function Find(text: string, wanted: string -> bool): (n: nat)
    ensures n <= |text|
    decreases |text|
  {
    if wanted(FirstLine(text)) then 0
    else if HasMore(text) then LineEnd(text) + 1 + Find(Rest(text), wanted)
    else |text|
  }

  predicate Missing(text: string, wanted: string -> bool) {
    Find(text, wanted) == |text|
  }

  /** A wanted line starts at `p`. */
  predicate LineAt(text: string, p: nat, wanted: string -> bool) {
    p <= |text| && Complete(text[..p]) && wanted(FirstLine(text[p..]))
  }

  lemma FindStep(first: string, second: string, wanted: string -> bool)
    requires HasMore(first)
    ensures Find(first + second, wanted)
         == if wanted(FirstLine(first)) then 0 else LineEnd(first) + 1 + Find(Rest(first) + second, wanted)
  {
    LineConcat(first, second);
    LineEndConcat(first, second);
  }

  /** Looking through finished text and then the rest. */
  lemma {:induction false} FindConcat(first: string, second: string, wanted: string -> bool)
    requires Complete(first) && !wanted("")
    ensures Find(first + second, wanted) ==
            if Missing(first, wanted) then |first| + Find(second, wanted) else Find(first, wanted)
    decreases |first|
  {
    if first == "" {
      assert first + second == second;
      assert FirstLine(first) == "";
    } else {
      CompleteHasMore(first);
      FindStep(first, second, wanted);
      if !wanted(FirstLine(first)) {
        FindConcat(Rest(first), second, wanted);
      }
    }
  }

  lemma {:induction false} LineEndOneLine(text: string)
    ensures OneLine(FirstLine(text))
  {
    if text != "" && text[0] != '\n' {
      LineEndOneLine(text[1..]);
      assert FirstLine(text) == [text[0]] + FirstLine(text[1..]);
    }
  }

  lemma {:induction false} LineEndOfPrefix(text: string, n: nat)
    requires LineEnd(text) < n <= |text|
    ensures LineEnd(text[..n]) == LineEnd(text)
  {
    if text[0] != '\n' {
      assert text[..n][1..] == text[1..][..n - 1];
      LineEndOfPrefix(text[1..], n - 1);
    }
  }

  lemma SameFirstLine(text: string, n: nat)
    requires LineEnd(text) < n <= |text|
    ensures FirstLine(text[..n]) == FirstLine(text) && HasMore(text[..n])
  {
    LineEndOfPrefix(text, n);
  }

  lemma RestOfPrefix(text: string, n: nat)
    requires LineEnd(text) < n <= |text|
    ensures Rest(text[..n]) == Rest(text)[..n - LineEnd(text) - 1]
  {
    LineEndOfPrefix(text, n);
    var k := LineEnd(text) + 1;
    assert text[..n][k..] == text[k..][..n - k];
  }

  lemma RestAfter(text: string, n: nat)
    requires LineEnd(text) < n <= |text|
    ensures Rest(text)[n - LineEnd(text) - 1..] == text[n..]
  {
  }

  lemma CompletePrefix(text: string, k: nat, n: nat)
    requires 0 < k <= n <= |text| && text[k - 1] == '\n' && Complete(text[k..][..n - k])
    ensures Complete(text[..n])
  {
    if n > k {
      assert text[k..][..n - k][n - k - 1] == text[n - 1];
    }
  }

  lemma MissingStep(text: string, wanted: string -> bool)
    requires HasMore(text) && !wanted(FirstLine(text)) && Missing(Rest(text), wanted)
    ensures Missing(text, wanted)
  {
  }

  lemma MissingPrefix(text: string, n: nat, wanted: string -> bool)
    requires LineEnd(text) < n <= |text| && !wanted(FirstLine(text))
    requires Missing(Rest(text)[..n - LineEnd(text) - 1], wanted)
    ensures Missing(text[..n], wanted)
  {
    SameFirstLine(text, n);
    RestOfPrefix(text, n);
    MissingStep(text[..n], wanted);
  }

  /** A found line splits the text: nothing wanted before it, and it stands at the head of the rest. */
  lemma {:induction false} FindSplits(text: string, wanted: string -> bool)
    requires !Missing(text, wanted) && !wanted("")
    ensures var s := Find(text, wanted);
            Complete(text[..s]) && Missing(text[..s], wanted) && wanted(FirstLine(text[s..]))
    decreases |text|
  {
    if wanted(FirstLine(text)) {
      assert text[..0] == "" && text[0..] == text;
    } else {
      var s := Find(text, wanted);
      FindSplits(Rest(text), wanted);
      EndsAtNewline(text);
      CompletePrefix(text, LineEnd(text) + 1, s);
      MissingPrefix(text, s, wanted);
      RestAfter(text, s);
    }
  }

  /** The search finds the leftmost line start whose line is wanted. */
  lemma FindIsLeftmost(text: string, wanted: string -> bool, p: nat)
    requires LineAt(text, p, wanted) && !wanted("")
    ensures Find(text, wanted) <= p && LineAt(text, Find(text, wanted), wanted)
  {
    assert text == text[..p] + text[p..];
    assert text[p..] != "";
    FindConcat(text[..p], text[p..], wanted);
    FindSplits(text, wanted);
  }

  // ---------------------------------------------------------------- one block

  /** How far the block at the head of `text` reaches: to the next line that opens one, or the end. */
  function BlockLength(text: string, opens: string -> bool): (n: nat)
    ensures n <= |text| && (text != "" ==> n > 0)
  {
    if HasMore(text) then LineEnd(text) + 1 + Find(Rest(text), opens) else |text|
  }

  datatype Bounds = Absent | Present(start: nat, end: nat)

  /** From the wanted line to the next line that opens a block, or the end. */
  function BlockBounds(text: string, wanted: string -> bool, opens: string -> bool): (r: Bounds)
    ensures r.Present? ==> r.start <= r.end <= |text|
  {
    if Missing(text, wanted) then Absent
    else
      var start := Find(text, wanted);
      Present(start, start + BlockLength(text[start..], opens))
  }

  /** One wanted line, and after it no line that opens another block. */
  predicate IsBlock(block: string, wanted: string -> bool, opens: string -> bool) {
    wanted(FirstLine(block)) && Missing(Rest(block), opens)
  }

  predicate Follows(block: string, after: string, opens: string -> bool) {
    after == "" || (Complete(block) && opens(FirstLine(after)))
  }

  /** The text in three parts: what precedes the block, the block, and what follows it. */
  predicate IsCut(before: string, block: string, after: string, wanted: string -> bool, opens: string -> bool) {
    Complete(before) && Missing(before, wanted) && IsBlock(block, wanted, opens) && Follows(block, after, opens)
  }

  lemma BlockLengthOf(block: string, after: string, wanted: string -> bool, opens: string -> bool)
    requires IsBlock(block, wanted, opens) && Follows(block, after, opens) && !wanted("") && !opens("")
    ensures BlockLength(block + after, opens) == |block| && FirstLine(block + after) == FirstLine(block)
  {
    if after == "" {
      assert block + after == block;
    } else {
      assert block != "";
      CompleteHasMore(block);
      LineConcat(block, after);
      LineEndConcat(block, after);
      FindConcat(Rest(block), after, opens);
    }
  }

  lemma FindAfter(before: string, tail: string, wanted: string -> bool)
    requires Complete(before) && Missing(before, wanted) && wanted(FirstLine(tail)) && !wanted("")
    ensures Find(before + tail, wanted) == |before| && tail != ""
  {
    FindConcat(before, tail, wanted);
  }

  /** A cut is where the bounds are; */
  lemma CutIsBounds(before: string, block: string, after: string, wanted: string -> bool, opens: string -> bool)
    requires IsCut(before, block, after, wanted, opens) && !wanted("") && !opens("")
    ensures BlockBounds(before + (block + after), wanted, opens) == Present(|before|, |before| + |block|)
  {
    var tail := block + after;
    BlockLengthOf(block, after, wanted, opens);
    FindAfter(before, tail, wanted);
    assert (before + tail)[|before|..] == tail;
    assert tail != "";
  }

  lemma BlockAtHead(text: string, wanted: string -> bool, opens: string -> bool)
    requires wanted(FirstLine(text)) && !wanted("") && !opens("")
    ensures var n := BlockLength(text, opens);
            IsBlock(text[..n], wanted, opens) && Follows(text[..n], text[n..], opens)
  {
    var n := BlockLength(text, opens);
    if HasMore(text) && !Missing(Rest(text), opens) {
      FindSplits(Rest(text), opens);
      SameFirstLine(text, n);
      RestOfPrefix(text, n);
      EndsAtNewline(text);
      CompletePrefix(text, LineEnd(text) + 1, n);
      RestAfter(text, n);
    } else {
      assert text[..n] == text && text[n..] == "";
    }
  }

  /** and the bounds are a cut. */
  lemma BoundsAreCut(text: string, wanted: string -> bool, opens: string -> bool)
    requires BlockBounds(text, wanted, opens).Present? && !wanted("") && !opens("")
    ensures var Present(s, e) := BlockBounds(text, wanted, opens);
            IsCut(text[..s], text[s..e], text[e..], wanted, opens)
  {
    var Present(s, e) := BlockBounds(text, wanted, opens);
    FindSplits(text, wanted);
    var tail, n := text[s..], e - s;
    assert n == BlockLength(tail, opens);
    BlockAtHead(tail, wanted, opens);
    assert text[s..e] == tail[..n];
    assert text[e..] == tail[n..];
  }

  // ---------------------------------------------------------------- the other blocks

  function Head(text: string, opens: string -> bool): string {
    text[..BlockLength(text, opens)]
  }

  /** The block of the first wanted line; a block is never empty, so "" is none. */
  function BlockOf(text: string, wanted: string -> bool, opens: string -> bool): string {
    if Missing(text, wanted) then "" else Head(text[Find(text, wanted)..], opens)
  }

  /** It is the text between the bounds. */
  lemma BlockIsBetweenBounds(text: string, wanted: string -> bool, opens: string -> bool)
    ensures BlockOf(text, wanted, opens) ==
            match BlockBounds(text, wanted, opens)
            case Absent => ""
            case Present(start, end) => text[start..end]
  {
    if !Missing(text, wanted) {
      var start := Find(text, wanted);
      var n := BlockLength(text[start..], opens);
      assert text[start..start + n] == text[start..][..n];
    }
  }

  /** A cut's block is the block found again; */
  lemma BlockAtCut(before: string, block: string, after: string, wanted: string -> bool, opens: string -> bool)
    requires IsCut(before, block, after, wanted, opens) && !wanted("") && !opens("")
    ensures BlockOf(before + (block + after), wanted, opens) == block
  {
    var tail := block + after;
    BlockLengthOf(block, after, wanted, opens);
    FindAfter(before, tail, wanted);
    assert (before + tail)[|before|..] == tail;
    assert tail[..|block|] == block;
  }

  /** and without it the line is gone unless it stands again in what follows. */
  lemma CutGoneIff(before: string, after: string, wanted: string -> bool)
    requires Complete(before) && Missing(before, wanted) && !wanted("")
    ensures Missing(before + after, wanted) <==> Missing(after, wanted)
  {
    FindConcat(before, after, wanted);
  }

  predicate StartsBlock(text: string, opens: string -> bool) {
    text == "" || opens(FirstLine(text))
  }

  lemma BlockLengthConcat(first: string, second: string, opens: string -> bool)
    requires Complete(first) && first != "" && StartsBlock(second, opens) && !opens("")
    ensures BlockLength(first + second, opens) == BlockLength(first, opens)
  {
    if second == "" {
      assert first + second == first;
    } else {
      CompleteHasMore(first);
      LineConcat(first, second);
      LineEndConcat(first, second);
      FindConcat(Rest(first), second, opens);
    }
  }

  lemma HeadConcat(first: string, second: string, opens: string -> bool)
    requires Complete(first) && first != "" && StartsBlock(second, opens) && !opens("")
    ensures Head(first + second, opens) == Head(first, opens)
  {
    BlockLengthConcat(first, second, opens);
    var n := BlockLength(first, opens);
    assert (first + second)[..n] == first[..n];
  }

  lemma FromFurther(text: string, s: nat, n: nat)
    requires s + n <= |text|
    ensures text[s + n..] == text[s..][n..]
  {
  }

  lemma FromWithin(first: string, second: string, p: nat)
    requires p <= |first|
    ensures (first + second)[p..] == first[p..] + second
  {
  }

  lemma FoundInPrefix(first: string, second: string, wanted: string -> bool)
    requires Complete(first) && !Missing(first, wanted) && !wanted("")
    ensures Find(first + second, wanted) == Find(first, wanted) && !Missing(first + second, wanted)
  {
    FindConcat(first, second, wanted);
  }

  lemma BlockFrom(text: string, tail: string, wanted: string -> bool, opens: string -> bool)
    requires !Missing(text, wanted) && text[Find(text, wanted)..] == tail
    ensures BlockOf(text, wanted, opens) == Head(tail, opens)
  {
  }

  lemma BlockInPrefix(first: string, second: string, wanted: string -> bool, opens: string -> bool)
    requires Complete(first) && !Missing(first, wanted) && StartsBlock(second, opens) && !wanted("") && !opens("")
    ensures BlockOf(first + second, wanted, opens) == BlockOf(first, wanted, opens)
  {
    var p := Find(first, wanted);
    FoundInPrefix(first, second, wanted);
    FromWithin(first, second, p);
    HeadConcat(first[p..], second, opens);
    BlockFrom(first, first[p..], wanted, opens);
    BlockFrom(first + second, first[p..] + second, wanted, opens);
  }

  lemma FoundBeyond(first: string, second: string, wanted: string -> bool)
    requires Complete(first) && Missing(first, wanted) && !wanted("")
    ensures Missing(first + second, wanted) <==> Missing(second, wanted)
    ensures (first + second)[Find(first + second, wanted)..] == second[Find(second, wanted)..]
  {
    FoundInSuffix(first, second, wanted);
    FromBeyond(first, second, Find(second, wanted));
  }

  lemma BlockInSuffix(first: string, second: string, wanted: string -> bool, opens: string -> bool)
    requires Complete(first) && Missing(first, wanted) && !wanted("")
    ensures BlockOf(first + second, wanted, opens) == BlockOf(second, wanted, opens)
  {
    FoundBeyond(first, second, wanted);
    if !Missing(second, wanted) {
      var tail := second[Find(second, wanted)..];
      BlockFrom(second, tail, wanted, opens);
      BlockFrom(first + second, tail, wanted, opens);
    }
  }

  lemma FromBeyond(first: string, second: string, p: nat)
    requires p <= |second|
    ensures (first + second)[|first| + p..] == second[p..]
  {
  }

  lemma FoundInSuffix(first: string, second: string, wanted: string -> bool)
    requires Complete(first) && Missing(first, wanted) && !wanted("")
    ensures Find(first + second, wanted) == |first| + Find(second, wanted)
  {
    FindConcat(first, second, wanted);
  }

  /** Another line's block is the same whatever complete block stands between two parts of the text. */
  lemma BlockAround(before: string, block: string, after: string, wanted: string -> bool, opens: string -> bool)
    requires Complete(before) && Missing(block, wanted) && StartsBlock(block, opens)
    requires StartsBlock(after, opens) && (after == "" || Complete(block)) && !wanted("") && !opens("")
    ensures BlockOf(before + (block + after), wanted, opens) == BlockOf(before + after, wanted, opens)
  {
    StartsConcat(block, after, opens);
    if Missing(before, wanted) {
      BlockInSuffix(before, block + after, wanted, opens);
      BlockInSuffix(before, after, wanted, opens);
      if after == "" {
        assert block + after == block;
      } else {
        BlockInSuffix(block, after, wanted, opens);
      }
    } else {
      BlockInPrefix(before, block + after, wanted, opens);
      BlockInPrefix(before, after, wanted, opens);
    }
  }

  /** Another line's block is the same without the block at the bounds. */
  lemma BlockWithout(text: string, wanted: string -> bool, opens: string -> bool, other: string -> bool)
    requires BlockBounds(text, wanted, opens).Present? && !wanted("") && !opens("") && !other("")
    requires var Present(s, e) := BlockBounds(text, wanted, opens);
             Missing(text[s..e], other) && StartsBlock(text[s..e], opens)
    ensures var Present(s, e) := BlockBounds(text, wanted, opens);
            BlockOf(text, other, opens) == BlockOf(text[..s] + text[e..], other, opens)
  {
    var Present(s, e) := BlockBounds(text, wanted, opens);
    BoundsAreCut(text, wanted, opens);
    BlockAround(text[..s], text[s..e], text[e..], other, opens);
    ThreeParts(text, s, e);
  }

  lemma ThreeParts(text: string, s: nat, e: nat)
    requires s <= e <= |text|
    ensures text[..s] + (text[s..e] + text[e..]) == text
  {
  }

  lemma StartsConcat(block: string, after: string, opens: string -> bool)
    requires StartsBlock(block, opens) && StartsBlock(after, opens) && (after == "" || Complete(block))
    ensures StartsBlock(block + after, opens)
  {
    if block == "" {
      assert block + after == after;
    } else if after == "" {
      assert block + after == block;
    } else {
      CompleteHasMore(block);
      LineConcat(block, after);
    }
  }

  lemma {:induction false} FindNewline(text: string, wanted: string -> bool)
    requires !wanted("")
    ensures Find(text + "\n", wanted) == if Missing(text, wanted) then |text| + 1 else Find(text, wanted)
    decreases |text|
  {
    if HasMore(text) {
      FindNewline(Rest(text), wanted);
      FindStep(text, "\n", wanted);
    } else {
      LineEndOneLine(text);
      assert FirstLine(text) == text;
      assert text + "\n" + "" == text + "\n";
      FirstLineIs(text, "");
      assert FirstLine("") == "";
    }
  }

  lemma BlockLengthNewline(text: string, opens: string -> bool)
    requires !opens("")
    ensures BlockLength(text + "\n", opens)
         == if BlockLength(text, opens) == |text| then |text| + 1 else BlockLength(text, opens)
  {
    if HasMore(text) {
      LineConcat(text, "\n");
      LineEndConcat(text, "\n");
      FindNewline(Rest(text), opens);
    } else {
      LineEndOneLine(text);
      assert FirstLine(text) == text;
      assert text + "\n" + "" == text + "\n";
      FirstLineIs(text, "");
    }
  }

  lemma HeadNewline(text: string, opens: string -> bool)
    requires !opens("")
    ensures Head(text + "\n", opens) == Head(text, opens) || Head(text + "\n", opens) == Head(text, opens) + "\n"
  {
    BlockLengthNewline(text, opens);
    var n := BlockLength(text, opens);
    if n == |text| {
      assert (text + "\n")[..n + 1] == text[..n] + "\n";
    } else {
      assert (text + "\n")[..n] == text[..n];
    }
  }

  /** A newline at the end of the text lengthens at most the block that ends there, and only by itself. */
  lemma BlockNewline(text: string, wanted: string -> bool, opens: string -> bool)
    requires !wanted("") && !opens("")
    ensures Missing(text, wanted) ==> Missing(text + "\n", wanted)
    ensures BlockOf(text + "\n", wanted, opens) == BlockOf(text, wanted, opens)
         || (!Missing(text, wanted) && BlockOf(text + "\n", wanted, opens) == BlockOf(text, wanted, opens) + "\n")
  {
    FindNewline(text, wanted);
    if !Missing(text, wanted) {
      var p := Find(text, wanted);
      assert (text + "\n")[p..] == text[p..] + "\n";
      HeadNewline(text[p..], opens);
    }
  }
}

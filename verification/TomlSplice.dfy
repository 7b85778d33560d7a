/**
 Replacing, appending and dropping one block of a text, over any run of such edits. A block is one
 wanted line and what follows it up to the next line that opens a block; the table of one server is
 the block of its header line, and every table's first line opens a block.
 */
module TomlSplices {
  import opened Common
  import opened TomlText
  import opened TomlLines

  predicate EndsBlank(text: string) {
    |text| >= 2 && text[|text| - 2] == '\n' && text[|text| - 1] == '\n'
  }

  /** What parts the text from a block appended to it. */
  function Separator(text: string): (s: string)
    ensures |s| <= 2
  {
    if text == "" || EndsBlank(text) then "" else if Complete(text) then "\n" else "\n\n"
  }

  /** Swaps one block for another, appends it where there was none, or drops it. */
  function ReplaceBlock(text: string, wanted: string -> bool, opens: string -> bool, block: Option<string>): string {
    match BlockBounds(text, wanted, opens)
    case Absent => if block.None? then text else text + Separator(text) + block.value
    case Present(start, end) => text[..start] + (if block.Some? then block.value else "") + text[end..]
  }

  /** The text that precedes the block once it is there. */
  function Before(text: string, wanted: string -> bool, opens: string -> bool): string {
    match BlockBounds(text, wanted, opens)
    case Absent => text + Separator(text)
    case Present(start, _) => text[..start]
  }

  function After(text: string, wanted: string -> bool, opens: string -> bool): string {
    match BlockBounds(text, wanted, opens)
    case Absent => ""
    case Present(_, end) => text[end..]
  }

  /** One wanted line, no other line opening a block, and no unfinished line. */
  predicate IsWhole(block: string, wanted: string -> bool, opens: string -> bool) {
    IsBlock(block, wanted, opens) && Complete(block)
  }

  predicate SkipEmpty(wanted: string -> bool, opens: string -> bool) {
    !wanted("") && !opens("")
  }

  // ---------------------------------------------------------------- the separator

  lemma SeparatorCompletes(text: string)
    ensures Complete(text + Separator(text)) && Separator(text + Separator(text)) == ""
  {
    assert text == "" || EndsBlank(text + Separator(text));
  }

  /** The separator is nothing, one newline, or two. */
  lemma SeparatedText(text: string)
    ensures text + Separator(text) == text || text + Separator(text) == text + "\n"
            || text + Separator(text) == text + "\n" + "\n"
  {
    assert text + "" == text && text + "\n\n" == text + "\n" + "\n";
  }

  lemma SeparatorAddsNone(text: string, wanted: string -> bool)
    requires Missing(text, wanted) && !wanted("")
    ensures Missing(text + Separator(text), wanted)
  {
    SeparatedText(text);
    FindNewline(text, wanted);
    FindNewline(text + "\n", wanted);
  }

  // ---------------------------------------------------------------- one replacement

  /** Whatever the text, a whole block fits between what precedes and what follows it. */
  lemma BlockFits(text: string, wanted: string -> bool, opens: string -> bool, block: string)
    requires IsWhole(block, wanted, opens) && SkipEmpty(wanted, opens)
    ensures IsCut(Before(text, wanted, opens), block, After(text, wanted, opens), wanted, opens)
  {
    if BlockBounds(text, wanted, opens).Absent? {
      SeparatorCompletes(text);
      SeparatorAddsNone(text, wanted);
    } else {
      BoundsAreCut(text, wanted, opens);
    }
  }

  lemma ReplacedText(text: string, wanted: string -> bool, opens: string -> bool, block: string)
    ensures ReplaceBlock(text, wanted, opens, Some(block))
              == Before(text, wanted, opens) + (block + After(text, wanted, opens))
  {
    var before, after := Before(text, wanted, opens), After(text, wanted, opens);
    assert before + block + after == before + (block + after);
    assert block + "" == block;
  }

  lemma DroppedText(text: string, wanted: string -> bool, opens: string -> bool)
    requires BlockBounds(text, wanted, opens).Present?
    ensures ReplaceBlock(text, wanted, opens, None) == Before(text, wanted, opens) + After(text, wanted, opens)
  {
    assert Before(text, wanted, opens) + "" == Before(text, wanted, opens);
  }

  /**
   Locating the block again after a replacement finds exactly the new one, and everything before
   and after it is the text that was there, whether the block was absent, in the middle or last.
   */
  lemma ReplaceThenLocate(text: string, wanted: string -> bool, opens: string -> bool, block: string)
    requires IsWhole(block, wanted, opens) && SkipEmpty(wanted, opens)
    ensures var before, after := Before(text, wanted, opens), After(text, wanted, opens);
            var result := ReplaceBlock(text, wanted, opens, Some(block));
            && result == before + (block + after)
            && BlockBounds(result, wanted, opens) == Present(|before|, |before| + |block|)
            && Before(result, wanted, opens) == before && After(result, wanted, opens) == after
  {
    var before, after := Before(text, wanted, opens), After(text, wanted, opens);
    BlockFits(text, wanted, opens, block);
    CutIsBounds(before, block, after, wanted, opens);
    ReplacedText(text, wanted, opens, block);
    var result := before + (block + after);
    assert result[..|before|] == before && result[|before| + |block|..] == after;
  }

  /** The last replacement is the one that counts, so repeating it changes nothing. */
  lemma LastReplaceWins(text: string, wanted: string -> bool, opens: string -> bool, first: string, second: string)
    requires IsWhole(first, wanted, opens) && IsWhole(second, wanted, opens) && SkipEmpty(wanted, opens)
    ensures ReplaceBlock(ReplaceBlock(text, wanted, opens, Some(first)), wanted, opens, Some(second))
         == ReplaceBlock(text, wanted, opens, Some(second))
  {
    ReplaceThenLocate(text, wanted, opens, first);
    ReplacedText(text, wanted, opens, second);
    ReplacedText(ReplaceBlock(text, wanted, opens, Some(first)), wanted, opens, second);
  }

  lemma DropAfterReplace(text: string, wanted: string -> bool, opens: string -> bool, block: string)
    requires IsWhole(block, wanted, opens) && SkipEmpty(wanted, opens)
    ensures ReplaceBlock(ReplaceBlock(text, wanted, opens, Some(block)), wanted, opens, None)
         == Before(text, wanted, opens) + After(text, wanted, opens)
  {
    ReplaceThenLocate(text, wanted, opens, block);
    DroppedText(ReplaceBlock(text, wanted, opens, Some(block)), wanted, opens);
  }

  /** The block located after a replacement is the new one. */
  lemma ReplacedBlock(text: string, wanted: string -> bool, opens: string -> bool, block: string)
    requires IsWhole(block, wanted, opens) && SkipEmpty(wanted, opens)
    ensures BlockOf(ReplaceBlock(text, wanted, opens, Some(block)), wanted, opens) == block
  {
    BlockFits(text, wanted, opens, block);
    BlockAtCut(Before(text, wanted, opens), block, After(text, wanted, opens), wanted, opens);
    ReplacedText(text, wanted, opens, block);
  }

  /** A block that is there holds at least its wanted line. */
  lemma BlockIsNotEmpty(text: string, wanted: string -> bool, opens: string -> bool)
    requires BlockBounds(text, wanted, opens).Present? && SkipEmpty(wanted, opens)
    ensures BlockOf(text, wanted, opens) != ""
  {
    BlockIsBetweenBounds(text, wanted, opens);
    BoundsAreCut(text, wanted, opens);
    assert FirstLine("") == "";
  }

  /** A dropped block is gone exactly when its line stood only once. */
  lemma DroppedIsGoneIff(text: string, wanted: string -> bool, opens: string -> bool)
    requires SkipEmpty(wanted, opens)
    ensures Missing(ReplaceBlock(text, wanted, opens, None), wanted) <==> Missing(After(text, wanted, opens), wanted)
  {
    if BlockBounds(text, wanted, opens).Present? {
      BoundsAreCut(text, wanted, opens);
      CutGoneIff(Before(text, wanted, opens), After(text, wanted, opens), wanted);
      DroppedText(text, wanted, opens);
    } else {
      assert FirstLine("") == "";
    }
  }

  lemma BlockExtended(block: string, extra: string, wanted: string -> bool, opens: string -> bool)
    requires IsWhole(block, wanted, opens) && SkipEmpty(wanted, opens) && Missing(extra, opens)
    ensures IsBlock(block + extra, wanted, opens)
  {
    assert block != "" by { assert FirstLine("") == ""; }
    CompleteHasMore(block);
    LineConcat(block, extra);
    assert Complete(Rest(block));
    FindConcat(Rest(block), extra, opens);
  }

  lemma EditedAtCut(
    before: string, block: string, after: string, wanted: string -> bool, opens: string -> bool, edit: Option<string>)
    requires IsCut(before, block, after, wanted, opens) && SkipEmpty(wanted, opens)
    ensures ReplaceBlock(before + (block + after), wanted, opens, edit)
         == before + (if edit.Some? then edit.value else "") + after
  {
    CutIsBounds(before, block, after, wanted, opens);
    EditedBetween(before, block, after, wanted, opens, edit);
  }

  lemma EditedBetween(
    before: string, block: string, after: string, wanted: string -> bool, opens: string -> bool, edit: Option<string>)
    requires BlockBounds(before + (block + after), wanted, opens) == Present(|before|, |before| + |block|)
    ensures ReplaceBlock(before + (block + after), wanted, opens, edit)
         == before + (if edit.Some? then edit.value else "") + after
  {
    PartsOfThree(before, block, after);
    EditedWhere(before + (block + after), |before|, |before| + |block|, wanted, opens, edit);
  }

  lemma EditedWhere(
    text: string, start: nat, end: nat, wanted: string -> bool, opens: string -> bool, edit: Option<string>)
    requires BlockBounds(text, wanted, opens) == Present(start, end)
    ensures ReplaceBlock(text, wanted, opens, edit)
         == text[..start] + (if edit.Some? then edit.value else "") + text[end..]
  {
  }

  lemma PartsOfThree(before: string, block: string, after: string)
    ensures var text := before + (block + after);
            text[..|before|] == before && text[|before| + |block|..] == after
  {
  }

  lemma SameAroundIff(before: string, block: string, extra: string, after: string)
    ensures before + block + after == before + (block + extra + after) <==> extra == ""
  {
    if extra == "" {
      assert block + extra == block;
    } else {
      assert |before + block + after| < |before + (block + extra + after)|;
    }
  }

  /**
   What stands between a whole block and the next line that opens one lies within its bounds: any
   edit takes it away, and putting the same block back restores the text only if there was nothing.
   */
  lemma TrailingTextIsLost(
    before: string, block: string, extra: string, after: string,
    wanted: string -> bool, opens: string -> bool, edit: Option<string>)
    requires Complete(before) && Missing(before, wanted) && IsWhole(block, wanted, opens) && SkipEmpty(wanted, opens)
    requires Missing(extra, opens) && Follows(block + extra, after, opens)
    ensures var text := before + (block + extra + after);
            && ReplaceBlock(text, wanted, opens, edit) == before + (if edit.Some? then edit.value else "") + after
            && (ReplaceBlock(text, wanted, opens, Some(block)) == text <==> extra == "")
  {
    BlockExtended(block, extra, wanted, opens);
    EditedAtCut(before, block + extra, after, wanted, opens, edit);
    EditedAtCut(before, block + extra, after, wanted, opens, Some(block));
    SameAroundIff(before, block, extra, after);
  }

  // ---------------------------------------------------------------- runs of edits

  /** Adds or updates (Some) and removals (None), in order. */
  function Edited(text: string, wanted: string -> bool, opens: string -> bool, edits: seq<Option<string>>): string {
    if edits == [] then text
    else ReplaceBlock(Edited(text, wanted, opens, edits[..|edits| - 1]), wanted, opens, edits[|edits| - 1])
  }

  predicate AllWhole(edits: seq<Option<string>>, wanted: string -> bool, opens: string -> bool) {
    edits == [] || (AllWhole(edits[..|edits| - 1], wanted, opens)
                    && (edits[|edits| - 1].Some? ==> IsWhole(edits[|edits| - 1].value, wanted, opens)))
  }

  predicate EverAdds(edits: seq<Option<string>>) {
    edits != [] && (edits[|edits| - 1].Some? || EverAdds(edits[..|edits| - 1]))
  }

  /** What the text is after some edits: whether any added, and what the last one was. */
  function Settled(text: string, added: bool, last: Option<string>): string {
    if !added then text
    else if last.None? then text + Separator(text)
    else text + Separator(text) + last.value
  }

  function LastEdit(edits: seq<Option<string>>): Option<string> {
    if edits == [] then None else edits[|edits| - 1]
  }

  lemma OneMoreEdit(
    text: string, wanted: string -> bool, opens: string -> bool, added: bool, previous: Option<string>,
    last: Option<string>)
    requires Missing(text, wanted) && SkipEmpty(wanted, opens)
    requires previous.Some? ==> added && IsWhole(previous.value, wanted, opens)
    requires last.Some? ==> IsWhole(last.value, wanted, opens)
    ensures ReplaceBlock(Settled(text, added, previous), wanted, opens, last)
              == Settled(text, added || last.Some?, last)
  {
    var base := text + Separator(text);
    SeparatorCompletes(text);
    SeparatorAddsNone(text, wanted);
    assert base + "" == base;
    if previous.Some? {
      assert ReplaceBlock(text, wanted, opens, previous) == base + previous.value;
      if last.None? {
        DropAfterReplace(text, wanted, opens, previous.value);
      } else {
        LastReplaceWins(text, wanted, opens, previous.value, last.value);
      }
    }
  }

  /**
   However many times the block is added, updated and removed, the text is the original, the
   original with its separator, or that with the latest block.
   */
  lemma {:induction false} EditsStayWithinBounds(
    text: string, wanted: string -> bool, opens: string -> bool, edits: seq<Option<string>>)
    requires Missing(text, wanted) && SkipEmpty(wanted, opens) && AllWhole(edits, wanted, opens)
    ensures Edited(text, wanted, opens, edits) == Settled(text, EverAdds(edits), LastEdit(edits))
    ensures LastEdit(edits).Some? ==> EverAdds(edits) && IsWhole(LastEdit(edits).value, wanted, opens)
  {
    if edits != [] {
      var earlier := edits[..|edits| - 1];
      EditsStayWithinBounds(text, wanted, opens, earlier);
      OneMoreEdit(text, wanted, opens, EverAdds(earlier), LastEdit(earlier), edits[|edits| - 1]);
    }
  }

  // ---------------------------------------------------------------- the other blocks

  /** A line is never both wanted and another's, and either opens a block. */
  ghost predicate Apart(wanted: string -> bool, other: string -> bool, opens: string -> bool) {
    && (forall line :: wanted(line) ==> opens(line) && !other(line))
    && (forall line :: other(line) ==> opens(line))
  }

  lemma {:induction false} NoOpeningNoOther(text: string, other: string -> bool, opens: string -> bool)
    requires Missing(text, opens) && !opens("") && forall line :: other(line) ==> opens(line)
    ensures Missing(text, other)
    decreases |text|
  {
    assert other(FirstLine(text)) ==> opens(FirstLine(text));
    if text != "" && HasMore(text) {
      NoOpeningNoOther(Rest(text), other, opens);
    }
    assert FirstLine("") == "";
  }

  /** A block holds no other's line. */
  lemma BlockHidesNoOther(block: string, wanted: string -> bool, opens: string -> bool, other: string -> bool)
    requires IsBlock(block, wanted, opens) && Apart(wanted, other, opens) && !opens("")
    ensures Missing(block, other) && StartsBlock(block, opens)
  {
    assert opens(FirstLine(block)) && !other(FirstLine(block));
    NoOpeningNoOther(Rest(block), other, opens);
  }

  lemma OthersWithout(text: string, wanted: string -> bool, opens: string -> bool, other: string -> bool)
    requires BlockBounds(text, wanted, opens).Present? && Apart(wanted, other, opens) && SkipEmpty(wanted, opens)
    requires !other("")
    ensures BlockOf(text, other, opens)
              == BlockOf(Before(text, wanted, opens) + After(text, wanted, opens), other, opens)
  {
    var Present(s, e) := BlockBounds(text, wanted, opens);
    BoundsAreCut(text, wanted, opens);
    BlockHidesNoOther(text[s..e], wanted, opens, other);
    BlockWithout(text, wanted, opens, other);
  }

  lemma OthersWith(text: string, wanted: string -> bool, opens: string -> bool, other: string -> bool, block: string)
    requires IsWhole(block, wanted, opens) && Apart(wanted, other, opens) && SkipEmpty(wanted, opens) && !other("")
    ensures BlockOf(ReplaceBlock(text, wanted, opens, Some(block)), other, opens)
         == BlockOf(Before(text, wanted, opens) + After(text, wanted, opens), other, opens)
  {
    var before, after := Before(text, wanted, opens), After(text, wanted, opens);
    BlockFits(text, wanted, opens, block);
    BlockHidesNoOther(block, wanted, opens, other);
    CutEnds(before, block, after, wanted, opens);
    BlockAround(before, block, after, other, opens);
    ReplacedText(text, wanted, opens, block);
  }

  lemma CutEnds(before: string, block: string, after: string, wanted: string -> bool, opens: string -> bool)
    requires IsCut(before, block, after, wanted, opens)
    ensures Complete(before) && StartsBlock(after, opens) && (after == "" || Complete(block))
  {
  }

  /** Replacing or dropping a block that is there leaves every other block as it was. */
  lemma OtherBlocksKept(
    text: string, wanted: string -> bool, opens: string -> bool, other: string -> bool, block: Option<string>)
    requires BlockBounds(text, wanted, opens).Present? && Apart(wanted, other, opens) && SkipEmpty(wanted, opens)
    requires !other("")
    requires block.Some? ==> IsWhole(block.value, wanted, opens)
    ensures BlockOf(ReplaceBlock(text, wanted, opens, block), other, opens) == BlockOf(text, other, opens)
  {
    OthersWithout(text, wanted, opens, other);
    if block.Some? {
      OthersWith(text, wanted, opens, other, block.value);
    } else {
      DroppedText(text, wanted, opens);
    }
  }

  /** The reading of a block takes no notice of newlines after it. */
  ghost predicate IgnoresNewlines<R>(read: string -> R) {
    forall block :: read(block + "\n") == read(block)
  }

  lemma ReadOneNewline<R>(text: string, other: string -> bool, opens: string -> bool, read: string -> R)
    requires IgnoresNewlines(read) && !other("") && !opens("")
    ensures read(BlockOf(text + "\n", other, opens)) == read(BlockOf(text, other, opens))
  {
    BlockNewline(text, other, opens);
  }

  /**
   Replacing or appending a block leaves every other block's reading as it was, for whatever is read
   from a block as long as newlines after it do not matter.
   */
  lemma OtherReadingsKept<R>(
    text: string, wanted: string -> bool, opens: string -> bool, other: string -> bool, block: string,
    read: string -> R)
    requires IsWhole(block, wanted, opens) && Apart(wanted, other, opens) && SkipEmpty(wanted, opens) && !other("")
    requires IgnoresNewlines(read)
    ensures read(BlockOf(ReplaceBlock(text, wanted, opens, Some(block)), other, opens))
              == read(BlockOf(text, other, opens))
  {
    if BlockBounds(text, wanted, opens).Present? {
      OtherBlocksKept(text, wanted, opens, other, Some(block));
    } else {
      OthersWith(text, wanted, opens, other, block);
      SeparatedText(text);
      ReadOneNewline(text, other, opens, read);
      ReadOneNewline(text + "\n", other, opens, read);
      assert text + Separator(text) + "" == text + Separator(text);
    }
  }

  // ---------------------------------------------------------------- every block of one pattern

  /** What stands behind the block at the head of `text`. */
  function Behind(text: string, opens: string -> bool): string {
    text[BlockLength(text, opens)..]
  }

  /** What is read from each block of the pattern, first to last. */
  function Readings<R>(text: string, wanted: string -> bool, opens: string -> bool, read: string -> R): seq<R>
    decreases |text|
  {
    if Missing(text, wanted) then []
    else
      var tail := text[Find(text, wanted)..];
      [read(Head(tail, opens))] + Readings(Behind(tail, opens), wanted, opens, read)
  }

  lemma NoReadings<R>(text: string, wanted: string -> bool, opens: string -> bool, read: string -> R)
    requires Missing(text, wanted)
    ensures Readings(text, wanted, opens, read) == []
  {
  }

  lemma ReadingsFrom<R>(text: string, tail: string, wanted: string -> bool, opens: string -> bool, read: string -> R)
    requires !Missing(text, wanted) && text[Find(text, wanted)..] == tail
    ensures Readings(text, wanted, opens, read)
              == [read(Head(tail, opens))] + Readings(Behind(tail, opens), wanted, opens, read)
  {
  }

  /** The first of them is the block that the bounds locate, and the others are those of what follows it. */
  lemma ReadingsOf<R>(text: string, wanted: string -> bool, opens: string -> bool, read: string -> R)
    requires !Missing(text, wanted)
    ensures Readings(text, wanted, opens, read)
              == [read(BlockOf(text, wanted, opens))] + Readings(After(text, wanted, opens), wanted, opens, read)
  {
    var start := Find(text, wanted);
    var tail := text[start..];
    ReadingsFrom(text, tail, wanted, opens, read);
    AfterIsBehind(text, start, wanted, opens);
  }

  lemma BoundsWhere(text: string, start: nat, n: nat, wanted: string -> bool, opens: string -> bool)
    requires !Missing(text, wanted) && start == Find(text, wanted) && n == BlockLength(text[start..], opens)
    ensures BlockBounds(text, wanted, opens) == Present(start, start + n)
  {
  }

  lemma AfterBounds(text: string, start: nat, end: nat, wanted: string -> bool, opens: string -> bool)
    requires BlockBounds(text, wanted, opens) == Present(start, end)
    ensures After(text, wanted, opens) == text[end..]
  {
  }

  lemma BehindAt(text: string, start: nat, n: nat, opens: string -> bool)
    requires start <= |text| && n == BlockLength(text[start..], opens)
    ensures Behind(text[start..], opens) == text[start + n..]
  {
    FromFurther(text, start, n);
  }

  lemma AfterIsBehind(text: string, start: nat, wanted: string -> bool, opens: string -> bool)
    requires !Missing(text, wanted) && start == Find(text, wanted)
    ensures After(text, wanted, opens) == Behind(text[start..], opens)
  {
    var n := BlockLength(text[start..], opens);
    BoundsWhere(text, start, n, wanted, opens);
    AfterBounds(text, start, start + n, wanted, opens);
    BehindAt(text, start, n, opens);
  }

  lemma ReadingsSkip<R>(first: string, second: string, wanted: string -> bool, opens: string -> bool, read: string -> R)
    requires Complete(first) && Missing(first, wanted) && !wanted("")
    ensures Readings(first + second, wanted, opens, read) == Readings(second, wanted, opens, read)
  {
    FoundBeyond(first, second, wanted);
    if Missing(second, wanted) {
      NoReadings(second, wanted, opens, read);
      NoReadings(first + second, wanted, opens, read);
    } else {
      var tail := second[Find(second, wanted)..];
      ReadingsFrom(second, tail, wanted, opens, read);
      ReadingsFrom(first + second, tail, wanted, opens, read);
    }
  }

  lemma SuffixComplete(text: string, n: nat)
    requires Complete(text) && n <= |text|
    ensures Complete(text[n..])
  {
  }

  lemma BehindConcat(first: string, second: string, opens: string -> bool)
    requires Complete(first) && first != "" && StartsBlock(second, opens) && !opens("")
    ensures Behind(first + second, opens) == Behind(first, opens) + second && Complete(Behind(first, opens))
  {
    BlockLengthConcat(first, second, opens);
    FromWithin(first, second, BlockLength(first, opens));
    SuffixComplete(first, BlockLength(first, opens));
  }

  lemma {:induction false} ReadingsConcat<R>(
    first: string, second: string, wanted: string -> bool, opens: string -> bool, read: string -> R)
    requires Complete(first) && StartsBlock(second, opens) && SkipEmpty(wanted, opens)
    ensures Readings(first + second, wanted, opens, read)
              == Readings(first, wanted, opens, read) + Readings(second, wanted, opens, read)
    decreases |first|
  {
    if Missing(first, wanted) {
      ReadingsSkip(first, second, wanted, opens, read);
    } else {
      var p := Find(first, wanted);
      var tail := first[p..];
      FoundInPrefix(first, second, wanted);
      FromWithin(first, second, p);
      SuffixComplete(first, p);
      HeadConcat(tail, second, opens);
      BehindConcat(tail, second, opens);
      ReadingsFrom(first, tail, wanted, opens, read);
      ReadingsFrom(first + second, tail + second, wanted, opens, read);
      ReadingsConcat(Behind(tail, opens), second, wanted, opens, read);
      Associates(
        [read(Head(tail, opens))], Readings(Behind(tail, opens), wanted, opens, read),
        Readings(second, wanted, opens, read));
    }
  }

  lemma BehindNewline(text: string, opens: string -> bool)
    requires text != "" && !opens("")
    ensures Behind(text + "\n", opens) == if Behind(text, opens) == "" then "" else Behind(text, opens) + "\n"
  {
    BlockLengthNewline(text, opens);
    if BlockLength(text, opens) < |text| {
      FromWithin(text, "\n", BlockLength(text, opens));
    }
  }

  lemma {:induction false} ReadingsNewline<R>(
    text: string, wanted: string -> bool, opens: string -> bool, read: string -> R)
    requires IgnoresNewlines(read) && SkipEmpty(wanted, opens)
    ensures Readings(text + "\n", wanted, opens, read) == Readings(text, wanted, opens, read)
    decreases |text|
  {
    FindNewline(text, wanted);
    if !Missing(text, wanted) {
      var p := Find(text, wanted);
      var tail := text[p..];
      FromWithin(text, "\n", p);
      HeadNewline(tail, opens);
      BehindNewline(tail, opens);
      ReadingsFrom(text, tail, wanted, opens, read);
      ReadingsFrom(text + "\n", tail + "\n", wanted, opens, read);
      if Behind(tail, opens) != "" {
        ReadingsNewline(Behind(tail, opens), wanted, opens, read);
      }
    }
  }

  function Tail<T>(s: seq<T>): seq<T> {
    if s == [] then [] else s[1..]
  }

  lemma ReadingsReplaced<R>(
    text: string, wanted: string -> bool, opens: string -> bool, block: string, read: string -> R)
    requires SkipEmpty(wanted, opens) && IsWhole(block, wanted, opens)
    ensures Readings(ReplaceBlock(text, wanted, opens, Some(block)), wanted, opens, read)
         == [read(block)] + Readings(After(text, wanted, opens), wanted, opens, read)
  {
    ReplaceThenLocate(text, wanted, opens, block);
    ReplacedBlock(text, wanted, opens, block);
    ReadingsOf(ReplaceBlock(text, wanted, opens, Some(block)), wanted, opens, read);
  }

  lemma ReadingsDropped<R>(text: string, wanted: string -> bool, opens: string -> bool, read: string -> R)
    requires SkipEmpty(wanted, opens) && BlockBounds(text, wanted, opens).Present?
    ensures Readings(ReplaceBlock(text, wanted, opens, None), wanted, opens, read)
         == Readings(After(text, wanted, opens), wanted, opens, read)
  {
    DroppedText(text, wanted, opens);
    BoundsAreCut(text, wanted, opens);
    ReadingsSkip(Before(text, wanted, opens), After(text, wanted, opens), wanted, opens, read);
  }

  lemma ReadingsBehind<R>(text: string, wanted: string -> bool, opens: string -> bool, read: string -> R)
    requires !wanted("")
    ensures Readings(After(text, wanted, opens), wanted, opens, read) == Tail(Readings(text, wanted, opens, read))
  {
    if Missing(text, wanted) {
      assert Missing("", wanted) by { assert FirstLine("") == ""; }
    } else {
      ReadingsOf(text, wanted, opens, read);
    }
  }

  lemma NothingToDrop(text: string, wanted: string -> bool, opens: string -> bool)
    requires Missing(text, wanted)
    ensures ReplaceBlock(text, wanted, opens, None) == text
  {
  }

  /** A list with a new first element, or without its first. */
  function Rewritten<T>(s: seq<T>, first: Option<T>): seq<T> {
    if first.Some? then [first.value] + Tail(s) else Tail(s)
  }

  function ReadOption<R>(block: Option<string>, read: string -> R): Option<R> {
    if block.Some? then Some(read(block.value)) else None
  }

  /** Replacing or appending changes the first reading and keeps the others; dropping takes the first away. */
  lemma ReadingsEdited<R>(
    text: string, wanted: string -> bool, opens: string -> bool, block: Option<string>, read: string -> R)
    requires SkipEmpty(wanted, opens) && (block.Some? ==> IsWhole(block.value, wanted, opens))
    ensures Readings(ReplaceBlock(text, wanted, opens, block), wanted, opens, read)
         == Rewritten(Readings(text, wanted, opens, read), ReadOption(block, read))
  {
    ReadingsBehind(text, wanted, opens, read);
    if block.Some? {
      ReadingsReplaced(text, wanted, opens, block.value, read);
    } else if Missing(text, wanted) {
      NothingToDrop(text, wanted, opens);
    } else {
      ReadingsDropped(text, wanted, opens, read);
    }
  }

  lemma ReadingsAround<R>(
    before: string, block: string, after: string, other: string -> bool, opens: string -> bool, read: string -> R)
    requires Complete(before) && Missing(block, other) && StartsBlock(block, opens)
    requires StartsBlock(after, opens) && (after == "" || Complete(block)) && SkipEmpty(other, opens)
    ensures Readings(before + (block + after), other, opens, read) == Readings(before + after, other, opens, read)
  {
    StartsConcat(block, after, opens);
    ReadingsConcat(before, block + after, other, opens, read);
    ReadingsConcat(before, after, other, opens, read);
    if after == "" {
      assert block + after == block;
      assert Missing("", other) by { assert FirstLine("") == ""; }
    } else {
      ReadingsSkip(block, after, other, opens, read);
    }
  }

  lemma OthersReadWith<R>(
    text: string, wanted: string -> bool, opens: string -> bool, other: string -> bool, block: string,
    read: string -> R)
    requires IsWhole(block, wanted, opens) && Apart(wanted, other, opens) && SkipEmpty(wanted, opens) && !other("")
    ensures Readings(ReplaceBlock(text, wanted, opens, Some(block)), other, opens, read)
         == Readings(Before(text, wanted, opens) + After(text, wanted, opens), other, opens, read)
  {
    var before, after := Before(text, wanted, opens), After(text, wanted, opens);
    BlockFits(text, wanted, opens, block);
    BlockHidesNoOther(block, wanted, opens, other);
    CutEnds(before, block, after, wanted, opens);
    ReadingsAround(before, block, after, other, opens, read);
    ReplacedText(text, wanted, opens, block);
  }

  lemma OthersReadWithout<R>(
    text: string, wanted: string -> bool, opens: string -> bool, other: string -> bool, read: string -> R)
    requires Apart(wanted, other, opens) && SkipEmpty(wanted, opens) && !other("") && IgnoresNewlines(read)
    ensures Readings(Before(text, wanted, opens) + After(text, wanted, opens), other, opens, read)
              == Readings(text, other, opens, read)
  {
    if BlockBounds(text, wanted, opens).Present? {
      var Present(s, e) := BlockBounds(text, wanted, opens);
      BoundsAreCut(text, wanted, opens);
      BlockHidesNoOther(text[s..e], wanted, opens, other);
      CutEnds(text[..s], text[s..e], text[e..], wanted, opens);
      ReadingsAround(text[..s], text[s..e], text[e..], other, opens, read);
      ThreeParts(text, s, e);
    } else {
      SeparatedText(text);
      ReadingsNewline(text, other, opens, read);
      ReadingsNewline(text + "\n", other, opens, read);
      assert text + Separator(text) + "" == text + Separator(text);
    }
  }

  /** Every other pattern's readings, first to last, are what they were. */
  lemma ReadingsOfOthers<R>(
    text: string, wanted: string -> bool, opens: string -> bool, other: string -> bool, block: Option<string>,
    read: string -> R)
    requires Apart(wanted, other, opens) && SkipEmpty(wanted, opens) && !other("") && IgnoresNewlines(read)
    requires block.Some? ==> IsWhole(block.value, wanted, opens)
    ensures Readings(ReplaceBlock(text, wanted, opens, block), other, opens, read) == Readings(text, other, opens, read)
  {
    OthersReadWithout(text, wanted, opens, other, read);
    if block.Some? {
      OthersReadWith(text, wanted, opens, other, block.value, read);
    } else if BlockBounds(text, wanted, opens).Present? {
      DroppedText(text, wanted, opens);
    }
  }
}

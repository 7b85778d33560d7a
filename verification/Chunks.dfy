/**
 Reading a stored transcript in chunks: its text in slices, or its segments in greedily packed
 pages, each call continuing where the last one's cursor points.
 */
module Chunks {
  import opened Common

  /** A segment and what it serializes to; only the length of that matters here. */
  datatype Segment = Segment(text: string, serialized: string)

  datatype Transcript = Transcript(text: string, segments: seq<Segment>)

  datatype Format = TextFormat | SegmentsFormat | OtherFormat

  datatype Payload = Payload(id: string, format: Format, index: nat)

  /** A cursor argument: none, one that does not decode, or its payload. */
  datatype Cursor = Start | Undecodable | At(payload: Payload)

  datatype Content = TextContent(text: string) | SegmentContent(segments: seq<Segment>)

  datatype Chunk = Chunk(content: Content, next: Option<Payload>, done: bool)

  datatype ChunkError = BadFormat | BadMaxChars | BadCursor | ForeignCursor | SegmentTooLarge

  function Size(segments: seq<Segment>): nat {
    if segments == [] then 0 else |segments[0].serialized| + Size(segments[1..])
  }

  // ---------------------------------------------------------------- the specification

  /** How many of the segments go on a page that already holds `used`. */
  function Taken(segments: seq<Segment>, used: nat, max: nat): (n: nat)
    ensures n <= |segments|
  {
    if segments == [] || used + |segments[0].serialized| > max then 0
    else 1 + Taken(segments[1..], used + |segments[0].serialized|, max)
  }

  function TextChunk(text: string, id: string, index: nat, max: nat): Chunk {
    var content := if index >= |text| then ""
                   else if index + max >= |text| then text[index..]
                   else text[index..index + max];
    var next := index + |content|;
    Chunk(TextContent(content), if next >= |text| then None else Some(Payload(id, TextFormat, next)), next >= |text|)
  }

  function SegmentChunk(segments: seq<Segment>, id: string, index: nat, max: nat): Result<Chunk, ChunkError> {
    if index >= |segments| then Ok(Chunk(SegmentContent([]), None, true))
    else if |segments[index].serialized| > max then Err(SegmentTooLarge)
    else
      var next := index + Taken(segments[index..], 0, max);
      var done := next >= |segments|;
      Ok(Chunk(SegmentContent(segments[index..next]), if done then None
        else Some(Payload(id, SegmentsFormat, next)), done))
  }

  /** Where a cursor points, or why it is refused. */
  function StartIndex(id: string, cursor: Cursor, format: Format): Result<nat, ChunkError> {
    match cursor
    case Start => Ok(0)
    case Undecodable => Err(BadCursor)
    case At(payload) => if payload.id != id || payload.format != format then Err(ForeignCursor) else Ok(payload.index)
  }

  function ChunkOf(
    transcript: Transcript, id: string, cursor: Cursor, max: int, format: Format): Result<Chunk, ChunkError>
  {
    if format == OtherFormat then Err(BadFormat)
    else if !(1 <= max <= 50000) then Err(BadMaxChars)
    else
      match StartIndex(id, cursor, format)
      case Err(error) => Err(error)
      case Ok(index) =>
        if format == TextFormat then Ok(TextChunk(transcript.text, id, index, max))
        else SegmentChunk(transcript.segments, id, index, max)
  }

  // ---------------------------------------------------------------- the operation

  method GetChunk(
    transcript: Transcript, id: string, cursor: Cursor, max: int, format: Format) returns (r: Result<Chunk, ChunkError>)
    ensures r == ChunkOf(transcript, id, cursor, max, format)
  {
    if format != TextFormat && format != SegmentsFormat {
      return Err(BadFormat);
    }
    if !(1 <= max <= 50000) {
      return Err(BadMaxChars);
    }
    var index := 0;
    match cursor {
      case Start =>
      case Undecodable => return Err(BadCursor);
      case At(payload) =>
        if payload.id != id || payload.format != format {
          return Err(ForeignCursor);
        }
        index := payload.index;
    }
    if format == TextFormat {
      return Ok(TextChunk(transcript.text, id, index, max));
    }
    r := PackPage(transcript.segments, id, index, max);
  }

  method PackPage(segments: seq<Segment>, id: string, index: nat, max: nat) returns (r: Result<Chunk, ChunkError>)
    ensures r == SegmentChunk(segments, id, index, max)
  {
    var selected: seq<Segment> := [];
    var used, next := 0, index;
    while next < |segments|
      invariant next == index + |selected| && (next <= |segments| || next == index) && used >= 0
      invariant next <= |segments| ==> selected == segments[index..next]
      invariant index < |segments| ==>
                  Taken(segments[index..], 0, max) == |selected| + Taken(segments[next..], used, max)
      invariant selected != [] ==> |segments[index].serialized| <= max
      invariant selected == [] ==> used == 0
    {
      var size := |segments[next].serialized|;
      if selected != [] && used + size > max {
        break;
      }
      if selected == [] && size > max {
        return Err(SegmentTooLarge);
      }
      assert segments[next..][1..] == segments[next + 1..];
      selected := selected + [segments[next]];
      used := used + size;
      next := next + 1;
    }
    var done := next >= |segments|;
    r := Ok(Chunk(SegmentContent(selected), if done then None else Some(Payload(id, SegmentsFormat, next)), done));
  }

  // ---------------------------------------------------------------- a page is as full as it can be

  lemma {:induction false} SizeConcat(a: seq<Segment>, b: seq<Segment>)
    ensures Size(a + b) == Size(a) + Size(b)
  {
    if a == [] {
      assert a + b == b;
    } else {
      assert (a + b)[1..] == a[1..] + b;
      SizeConcat(a[1..], b);
    }
  }

  /** A page takes the most segments that fit: what it takes fits, and one more would not. */
  lemma {:induction false} TakenIsMaximal(segments: seq<Segment>, used: nat, max: nat, n: nat)
    requires n <= |segments| && used <= max
    ensures used + Size(segments[..n]) <= max <==> n <= Taken(segments, used, max)
  {
    if n > 0 {
      assert segments[..n][1..] == segments[1..][..n - 1];
      if used + |segments[0].serialized| <= max {
        TakenIsMaximal(segments[1..], used + |segments[0].serialized|, max, n - 1);
      }
    }
  }

  // ---------------------------------------------------------------- reading all pages

  function CursorAt(id: string, format: Format, index: nat): Cursor {
    if index == 0 then Start else At(Payload(id, format, index))
  }

  function Prepend<T>(x: T, rest: Result<seq<T>, ChunkError>): Result<seq<T>, ChunkError> {
    match rest
    case Ok(xs) => Ok([x] + xs)
    case Err(error) => Err(error)
  }

  /** Where the page that starts at `index` ends. */
  function NextIndex(segments: seq<Segment>, index: nat, max: nat): (next: nat)
    requires index <= |segments|
    ensures index <= next <= |segments|
  {
    index + Taken(segments[index..], 0, max)
  }

  /** A page whose first segment fits takes at least that one, and stays within the bound. */
  lemma PageAdvances(segments: seq<Segment>, index: nat, max: nat)
    requires index <= |segments| && (index < |segments| ==> |segments[index].serialized| <= max)
    ensures var next := NextIndex(segments, index, max);
            (index < |segments| ==> index < next) && Size(segments[index..next]) <= max
  {
    var n := Taken(segments[index..], 0, max);
    TakenIsMaximal(segments[index..], 0, max, n);
    assert segments[index..][..n] == segments[index..index + n];
  }

  function PageAt(segments: seq<Segment>, id: string, index: nat, next: nat): Chunk
    requires index <= next <= |segments|
  {
    var done := next >= |segments|;
    Chunk(SegmentContent(segments[index..next]), if done then None else Some(Payload(id, SegmentsFormat, next)), done)
  }

  /** Every page from `index` on, each call given the cursor the one before returned. */
  function ReadPages(transcript: Transcript, id: string, index: nat, max: nat): Result<seq<Chunk>, ChunkError>
    requires 1 <= max <= 50000
    decreases |transcript.segments| - index
  {
    match ChunkOf(transcript, id, CursorAt(id, SegmentsFormat, index), max, SegmentsFormat)
    case Err(error) => Err(error)
    case Ok(chunk) =>
      if chunk.done then Ok([chunk])
      else
        PageAdvances(transcript.segments, index, max);
        Prepend(chunk, ReadPages(transcript, id, chunk.next.value.index, max))
  }

  /** The segments of a run of pages, in order. */
  function AllSegments(pages: seq<Chunk>): seq<Segment> {
    if pages == [] then []
    else (if pages[0].content.SegmentContent? then pages[0].content.segments else []) + AllSegments(pages[1..])
  }

  /** Each page within the bound, and only the last one marked done and without a cursor. */
  predicate GoodPages(pages: seq<Chunk>, max: nat) {
    && pages != []
    && pages[0].content.SegmentContent? && Size(pages[0].content.segments) <= max
    && (pages[0].done <==> |pages| == 1) && (pages[0].next.None? <==> |pages| == 1)
    && (|pages| > 1 ==> GoodPages(pages[1..], max))
  }

  /** No segment from `index` on is larger than a page. */
  predicate AllFit(segments: seq<Segment>, index: nat, max: nat)
  {
    forall i :: index <= i < |segments| ==> |segments[i].serialized| <= max
  }

  lemma ChunkIsPage(transcript: Transcript, id: string, index: nat, max: nat)
    requires 1 <= max <= 50000 && index <= |transcript.segments|
    requires index < |transcript.segments| ==> |transcript.segments[index].serialized| <= max
    ensures ChunkOf(transcript, id, CursorAt(id, SegmentsFormat, index), max, SegmentsFormat)
         == Ok(PageAt(transcript.segments, id, index, NextIndex(transcript.segments, index, max)))
  {
    if index == |transcript.segments| {
      assert transcript.segments[index..index] == [];
    }
  }

  lemma LastPage(transcript: Transcript, id: string, index: nat, max: nat)
    requires 1 <= max <= 50000 && index <= |transcript.segments|
    requires index < |transcript.segments| ==> |transcript.segments[index].serialized| <= max
    requires NextIndex(transcript.segments, index, max) == |transcript.segments|
    ensures ReadPages(transcript, id, index, max) == Ok([PageAt(transcript.segments, id, index, |transcript.segments|)])
  {
    ChunkIsPage(transcript, id, index, max);
  }

  lemma EarlierPage(transcript: Transcript, id: string, index: nat, max: nat)
    requires 1 <= max <= 50000 && index < |transcript.segments| && |transcript.segments[index].serialized| <= max
    requires NextIndex(transcript.segments, index, max) < |transcript.segments|
    ensures var next := NextIndex(transcript.segments, index, max);
            ReadPages(transcript, id, index, max)
              == Prepend(PageAt(transcript.segments, id, index, next), ReadPages(transcript, id, next, max))
  {
    ChunkIsPage(transcript, id, index, max);
  }

  lemma GoodLastPage(segments: seq<Segment>, id: string, index: nat, max: nat)
    requires index <= |segments| && Size(segments[index..]) <= max
    ensures var pages := [PageAt(segments, id, index, |segments|)];
            GoodPages(pages, max) && AllSegments(pages) == segments[index..]
  {
    var pages := [PageAt(segments, id, index, |segments|)];
    assert pages[1..] == [];
    assert segments[index..|segments|] == segments[index..];
  }

  lemma GoodEarlierPage(segments: seq<Segment>, id: string, index: nat, next: nat, max: nat, rest: seq<Chunk>)
    requires index <= next < |segments| && Size(segments[index..next]) <= max
    requires GoodPages(rest, max) && AllSegments(rest) == segments[next..]
    ensures var pages := [PageAt(segments, id, index, next)] + rest;
            GoodPages(pages, max) && AllSegments(pages) == segments[index..]
  {
    var pages := [PageAt(segments, id, index, next)] + rest;
    assert pages[1..] == rest;
    assert segments[index..] == segments[index..next] + segments[next..];
  }

  /** How many pages the greedy packing from `index` on needs: none when no segment is left. */
  function PageCount(segments: seq<Segment>, index: nat, max: nat): nat
    requires index <= |segments| && AllFit(segments, index, max)
    decreases |segments| - index
  {
    if index == |segments| then 0
    else
      PageAdvances(segments, index, max);
      1 + PageCount(segments, NextIndex(segments, index, max), max)
  }

  /**
   Page by page every segment is read exactly once and in order, each page within the bound, in as
   many calls as the greedy packing has pages, and in one when there is nothing to read.
   */
  lemma {:induction false} PagesReadEverything(transcript: Transcript, id: string, index: nat, max: nat)
    requires 1 <= max <= 50000 && index <= |transcript.segments| && AllFit(transcript.segments, index, max)
    ensures var pages := ReadPages(transcript, id, index, max);
            && pages.Ok? && GoodPages(pages.value, max) && AllSegments(pages.value) == transcript.segments[index..]
            && |pages.value| == if index == |transcript.segments| then 1 else PageCount(transcript.segments, index, max)
    decreases |transcript.segments| - index
  {
    var segments := transcript.segments;
    var next := NextIndex(segments, index, max);
    PageAdvances(segments, index, max);
    if next < |segments| {
      EarlierPage(transcript, id, index, max);
      PagesReadEverything(transcript, id, next, max);
      GoodEarlierPage(segments, id, index, next, max, ReadPages(transcript, id, next, max).value);
    } else {
      LastPage(transcript, id, index, max);
      assert segments[index..next] == segments[index..];
      GoodLastPage(segments, id, index, max);
    }
  }

  /** The read fails exactly when some segment alone is larger than a page. */
  lemma {:induction false} ReadFailsIff(transcript: Transcript, id: string, index: nat, max: nat)
    requires 1 <= max <= 50000 && index <= |transcript.segments|
    ensures ReadPages(transcript, id, index, max).Err? <==> !AllFit(transcript.segments, index, max)
    decreases |transcript.segments| - index
  {
    var segments := transcript.segments;
    if AllFit(segments, index, max) {
      PagesReadEverything(transcript, id, index, max);
    } else if |segments[index].serialized| <= max {
      var next := NextIndex(segments, index, max);
      PageAdvances(segments, index, max);
      PageFits(segments, index, max);
      EarlierPage(transcript, id, index, max);
      ReadFailsIff(transcript, id, next, max);
    }
  }

  lemma PageFits(segments: seq<Segment>, index: nat, max: nat)
    requires index <= |segments|
    ensures AllFit(segments, index, max) <==> AllFit(segments, NextIndex(segments, index, max), max)
  {
    TakenAllFit(segments[index..], 0, max);
    forall i | index <= i < NextIndex(segments, index, max) ensures |segments[i].serialized| <= max {
      assert segments[i] == segments[index..][i - index];
    }
  }

  lemma {:induction false} TakenAllFit(segments: seq<Segment>, used: nat, max: nat)
    ensures forall i :: 0 <= i < Taken(segments, used, max) ==> |segments[i].serialized| <= max
  {
    if segments != [] && used + |segments[0].serialized| <= max {
      TakenAllFit(segments[1..], used + |segments[0].serialized|, max);
      assert forall i :: 0 < i < |segments| ==> segments[i] == segments[1..][i - 1];
    }
  }

  // ---------------------------------------------------------------- no reading with fewer pages

  function Concat(parts: seq<seq<Segment>>): seq<Segment> {
    if parts == [] then [] else parts[0] + Concat(parts[1..])
  }

  predicate EachFits(parts: seq<seq<Segment>>, max: nat) {
    forall i :: 0 <= i < |parts| ==> Size(parts[i]) <= max
  }

  /** The greedy page reaches at least as far as a page that starts no later. */
  lemma GreedyReachesFurthest(segments: seq<Segment>, start: nat, end: nat, index: nat, max: nat)
    requires start <= index <= end <= |segments| && Size(segments[start..end]) <= max
    ensures end <= NextIndex(segments, index, max)
  {
    assert segments[start..end] == segments[start..index] + segments[index..end];
    SizeConcat(segments[start..index], segments[index..end]);
    TakenIsMaximal(segments[index..], 0, max, end - index);
    assert segments[index..][..end - index] == segments[index..end];
  }

  lemma FirstPart(segments: seq<Segment>, start: nat, parts: seq<seq<Segment>>)
    requires start < |segments| && Concat(parts) == segments[start..]
    ensures parts != []
    ensures var end := start + |parts[0]|;
            end <= |segments| && segments[start..end] == parts[0] && segments[end..] == Concat(parts[1..])
  {
    var end := start + |parts[0]|;
    var rest := Concat(parts[1..]);
    assert segments[start..] == parts[0] + rest;
    assert segments[start..][..|parts[0]|] == parts[0] && segments[start..][|parts[0]|..] == rest;
    assert segments[start..end] == segments[start..][..|parts[0]|];
    assert segments[end..] == segments[start..][|parts[0]|..];
  }

  /** Any division of the segments, in order, into parts that fit a page has at least as many parts. */
  lemma {:induction false} PagesAreFewest(
    segments: seq<Segment>, index: nat, max: nat, start: nat, parts: seq<seq<Segment>>)
    requires start <= index <= |segments| && AllFit(segments, index, max)
    requires Concat(parts) == segments[start..] && EachFits(parts, max)
    ensures PageCount(segments, index, max) <= |parts|
    decreases |parts|
  {
    if index < |segments| {
      FirstPart(segments, start, parts);
      PageAdvances(segments, index, max);
      var next := NextIndex(segments, index, max);
      var end := start + |parts[0]|;
      if index <= end {
        GreedyReachesFurthest(segments, start, end, index, max);
      }
      PagesAreFewest(segments, next, max, end, parts[1..]);
    }
  }

  // ---------------------------------------------------------------- following text cursors

  /** The chunks of successive calls, the k-th with `maxes[k]`, until one is marked done. */
  function FollowText(transcript: Transcript, id: string, index: nat, maxes: seq<nat>): Result<seq<Chunk>, ChunkError>
    decreases |maxes|
  {
    if maxes == [] then Ok([])
    else
      match ChunkOf(transcript, id, CursorAt(id, TextFormat, index), maxes[0], TextFormat)
      case Err(error) => Err(error)
      case Ok(chunk) =>
        if chunk.next.None? then Ok([chunk])
        else Prepend(chunk, FollowText(transcript, id, chunk.next.value.index, maxes[1..]))
  }

  function AllText(chunks: seq<Chunk>): string {
    if chunks == [] then ""
    else (if chunks[0].content.TextContent? then chunks[0].content.text else "") + AllText(chunks[1..])
  }

  predicate GoodTextChunks(chunks: seq<Chunk>, maxes: seq<nat>) {
    && |chunks| <= |maxes| && chunks != []
    && chunks[0].content.TextContent? && |chunks[0].content.text| <= maxes[0]
    && (chunks[0].done <==> |chunks| == 1) && (chunks[0].next.None? <==> |chunks| == 1)
    && (|chunks| > 1 ==> GoodTextChunks(chunks[1..], maxes[1..]))
  }

  /**
   Following the cursors from any point, with a bound chosen afresh at each call, gives the rest of
   the text, each chunk within its own bound, only the last marked done, and needs at most as many
   calls as characters remain (one when none do).
   */
  lemma {:induction false} FollowedTextIsAll(transcript: Transcript, id: string, index: nat, maxes: seq<nat>)
    requires index <= |transcript.text| && forall k :: 0 <= k < |maxes| ==> 1 <= maxes[k] <= 50000
    requires |maxes| >= 1 && |maxes| >= |transcript.text| - index
    ensures var chunks := FollowText(transcript, id, index, maxes);
            && chunks.Ok? && GoodTextChunks(chunks.value, maxes)
            && AllText(chunks.value) == transcript.text[index..]
            && (|chunks.value| == 1 || |chunks.value| <= |transcript.text| - index)
    decreases |maxes|
  {
    var text := transcript.text;
    var chunk := TextChunk(text, id, index, maxes[0]);
    var next := index + |chunk.content.text|;
    var chunks := FollowText(transcript, id, index, maxes);
    assert text[index..] == chunk.content.text + text[next..];
    if chunk.next.Some? {
      FollowedTextIsAll(transcript, id, next, maxes[1..]);
      assert chunks.value[1..] == FollowText(transcript, id, next, maxes[1..]).value;
    } else {
      assert chunks.value[1..] == [];
    }
  }
}

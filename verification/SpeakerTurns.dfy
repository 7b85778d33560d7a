/**
 Grouping a provider's word and spacing items into speaker turns. Speakers are relabelled in the
 order of their first appearance; a turn is a maximal run of items with one label.
 */
module SpeakerTurns {
  import opened Common
  import Routers

  // ---------------------------------------------------------------- items and segments

  datatype Kind = Word | Spacing | OtherKind

  /** What an item says, its speaker aside; times in milliseconds. */
  datatype Content = Content(kind: Kind, text: string, start: Option<int>, end: Option<int>, confidence: Option<real>)

  datatype Item = Item(speaker: Option<string>, content: Content)

  datatype TranscriptWord = TranscriptWord(start: Option<int>, end: Option<int>, text: string, confidence: Option<real>)

  datatype Segment = Segment(start: Option<int>, end: Option<int>, speaker: Option<string>, text: string,
    words: Option<seq<TranscriptWord>>)

  datatype Settings = Settings(diarization: bool, timestamps: Routers.TimestampMode)

  // ---------------------------------------------------------------- speaker labels

  function DecimalDigit(n: nat): char
    requires n < 10
  {
    '0' + n as char
  }

  function Decimal(n: nat): string {
    if n < 10 then [DecimalDigit(n)] else Decimal(n / 10) + [DecimalDigit(n % 10)]
  }

  /** The n-th speaker's label, with at least two digits. */
  function Label(n: nat): string {
    "SPEAKER_" + TwoDigits(n)
  }

  function TwoDigits(n: nat): string {
    if n < 10 then "0" + Decimal(n) else Decimal(n)
  }

  function DigitsValue(s: string): nat {
    if s == "" then 0
    else DigitsValue(s[..|s| - 1]) * 10 + (if '0' <= s[|s| - 1] <= '9' then s[|s| - 1] as int - '0' as int else 0)
  }

  lemma {:induction false} DecimalValue(n: nat)
    ensures DigitsValue(Decimal(n)) == n && DigitsValue("0" + Decimal(n)) == n
  {
    if n < 10 {
      assert Decimal(n)[..0] == "" && ("0" + Decimal(n))[..1] == "0" && "0"[..0] == "";
    } else {
      DecimalValue(n / 10);
      var s := Decimal(n);
      assert s[..|s| - 1] == Decimal(n / 10);
      assert ("0" + s)[..|s|] == "0" + Decimal(n / 10);
    }
  }

  lemma TwoDigitsValue(n: nat)
    ensures DigitsValue(TwoDigits(n)) == n
  {
    DecimalValue(n);
  }

  lemma AfterPrefix(prefix: string, s: string)
    ensures (prefix + s)[|prefix|..] == s
  {
  }

  /** Different speakers have different labels. */
  lemma LabelsDiffer(m: nat, n: nat)
    requires Label(m) == Label(n)
    ensures m == n
  {
    AfterPrefix("SPEAKER_", TwoDigits(m));
    AfterPrefix("SPEAKER_", TwoDigits(n));
    TwoDigitsValue(m);
    TwoDigitsValue(n);
  }

  /** Where an identifier was first seen; the next place when it was not. */
  function PlaceOf(seen: seq<string>, id: string): (n: nat)
    ensures n <= |seen| && (n < |seen| ==> seen[n] == id) && (n == |seen| <==> id !in seen)
  {
    if seen == [] then 0 else if seen[0] == id then 0 else 1 + PlaceOf(seen[1..], id)
  }

  function LabelOf(seen: seq<string>, speaker: Option<string>): Option<string> {
    if speaker.None? then None else Some(Label(PlaceOf(seen, speaker.value) + 1))
  }

  function SeenWith(seen: seq<string>, speaker: Option<string>): seq<string> {
    if speaker.None? || speaker.value in seen then seen else seen + [speaker.value]
  }

  /** A dictionary filled in order of first appearance, the n-th entry holding `labels(n)`. */
  function TableOf(seen: seq<string>, labels: nat -> string): map<string, string> {
    if seen == [] then map[] else TableOf(seen[..|seen| - 1], labels)[seen[|seen| - 1] := labels(|seen|)]
  }

  lemma {:induction false} TableKeys(seen: seq<string>, labels: nat -> string, id: string)
    requires NoDuplicates(seen)
    ensures |TableOf(seen, labels)| == |seen| && (id in TableOf(seen, labels) <==> id in seen)
  {
    if seen != [] {
      var earlier, last := seen[..|seen| - 1], seen[|seen| - 1];
      assert seen == earlier + [last] && last !in earlier;
      TableKeys(earlier, labels, last);
      TableKeys(earlier, labels, id);
    }
  }

  lemma {:induction false} TableAt(seen: seq<string>, labels: nat -> string, id: string)
    requires NoDuplicates(seen) && id in seen
    ensures id in TableOf(seen, labels) && TableOf(seen, labels)[id] == labels(PlaceOf(seen, id) + 1)
  {
    var earlier, last := seen[..|seen| - 1], seen[|seen| - 1];
    assert seen == earlier + [last] && last !in earlier;
    PlaceKept(earlier, last, id);
    if id != last {
      TableAt(earlier, labels, id);
    }
  }

  /** The dictionary from identifiers to labels, as it fills up. */
  function LabelTable(seen: seq<string>): map<string, string> {
    TableOf(seen, Label)
  }

  lemma {:induction false} PlaceKept(seen: seq<string>, last: string, id: string)
    requires last !in seen && (id in seen || id == last)
    ensures PlaceOf(seen + [last], id) == if id == last then |seen| else PlaceOf(seen, id)
  {
    if seen != [] {
      assert (seen + [last])[1..] == seen[1..] + [last];
      if seen[0] != id {
        PlaceKept(seen[1..], last, id);
      }
    }
  }

  class SpeakerNormalizer {
    var mapping: map<string, string>
    ghost var seen: seq<string>

    ghost predicate Valid()
      reads this
    {
      NoDuplicates(seen) && mapping == LabelTable(seen)
    }

    constructor ()
      ensures Valid() && seen == []
    {
      mapping := map[];
      seen := [];
    }

    method Normalize(value: Option<string>) returns (tag: Option<string>)
      requires Valid()
      modifies this
      ensures Valid() && seen == SeenWith(old(seen), value)
      ensures tag == LabelOf(old(seen), value)
    {
      if value.None? {
        return None;
      }
      var id := value.value;
      TableKeys(seen, Label, id);
      if id !in mapping {
        assert (seen + [id])[..|seen|] == seen;
        mapping := mapping[id := Label(|mapping| + 1)];
        seen := seen + [id];
      } else {
        TableAt(seen, Label, id);
      }
      return Some(mapping[id]);
    }
  }

  // ---------------------------------------------------------------- the specification

  predicate Kept(item: Item) {
    item.content.kind.Word? || item.content.kind.Spacing?
  }

  /** The identifiers seen in the kept items, in order of first appearance. */
  function Seen(items: seq<Item>): (seen: seq<string>) {
    if items == [] then []
    else
      var last := items[|items| - 1];
      var before := Seen(items[..|items| - 1]);
      if Kept(last) then SeenWith(before, last.speaker) else before
  }

  datatype Entry = Entry(tag: Option<string>, content: Content)

  /** The kept items with their labels. */
  function Labelled(items: seq<Item>, settings: Settings): seq<Entry> {
    if items == [] then []
    else
      var earlier, last := items[..|items| - 1], items[|items| - 1];
      if !Kept(last) then Labelled(earlier, settings)
      else
        var tag := if settings.diarization then LabelOf(Seen(earlier), last.speaker) else None;
        Labelled(earlier, settings) + [Entry(tag, last.content)]
  }

  datatype Run = Run(tag: Option<string>, contents: seq<Content>)

  /** Adding one entry to the runs before it. */
  function Extend(runs: seq<Run>, entry: Entry): seq<Run> {
    var n := |runs|;
    if n > 0 && runs[n - 1].tag == entry.tag
    then runs[..n - 1] + [Run(entry.tag, runs[n - 1].contents + [entry.content])]
    else runs + [Run(entry.tag, [entry.content])]
  }

  function Runs(entries: seq<Entry>): seq<Run> {
    if entries == [] then [] else Extend(Runs(entries[..|entries| - 1]), entries[|entries| - 1])
  }

  function TextOf(contents: seq<Content>): string {
    if contents == [] then "" else TextOf(contents[..|contents| - 1]) + contents[|contents| - 1].text
  }

  /** The last end time there is; the first item's own, if any, when no later one has one. */
  function EndOf(contents: seq<Content>): Option<int> {
    if contents == [] then None
    else if contents[|contents| - 1].end.Some? then contents[|contents| - 1].end
    else EndOf(contents[..|contents| - 1])
  }

  function WordsOf(contents: seq<Content>): seq<TranscriptWord> {
    if contents == [] then []
    else
      var last := contents[|contents| - 1];
      WordsOf(contents[..|contents| - 1])
      + if last.kind.Word? then [TranscriptWord(last.start, last.end, last.text, last.confidence)] else []
  }

  function SegmentOf(run: Run, settings: Settings): Segment
    requires run.contents != []
  {
    var timed := !settings.timestamps.NoTimestamps?;
    Segment(if timed then run.contents[0].start else None,
            if timed then EndOf(run.contents) else None,
            run.tag,
            TextOf(run.contents),
            if settings.timestamps.WordTimestamps? then Some(WordsOf(run.contents)) else None)
  }

  predicate NoneEmpty(runs: seq<Run>) {
    forall i :: 0 <= i < |runs| ==> runs[i].contents != []
  }

  function SegmentsOf(runs: seq<Run>, settings: Settings): seq<Segment>
    requires NoneEmpty(runs)
  {
    seq(|runs|, i requires 0 <= i < |runs| => SegmentOf(runs[i], settings))
  }

  lemma ExtendIsNotEmpty(runs: seq<Run>, entry: Entry)
    requires NoneEmpty(runs)
    ensures NoneEmpty(Extend(runs, entry))
  {
    var after := Extend(runs, entry);
    forall i | 0 <= i < |after| ensures after[i].contents != [] {
      if i < |after| - 1 {
        assert after[i] == runs[i];
      }
    }
  }

  lemma {:induction false} RunsAreNotEmpty(entries: seq<Entry>)
    ensures NoneEmpty(Runs(entries))
  {
    if entries != [] {
      RunsAreNotEmpty(entries[..|entries| - 1]);
      ExtendIsNotEmpty(Runs(entries[..|entries| - 1]), entries[|entries| - 1]);
    }
  }

  /** The segments the items are grouped into. */
  function Turns(items: seq<Item>, settings: Settings): seq<Segment> {
    RunsAreNotEmpty(Labelled(items, settings));
    SegmentsOf(Runs(Labelled(items, settings)), settings)
  }

  // ---------------------------------------------------------------- the loop

  lemma ContentsStep(contents: seq<Content>, c: Content)
    ensures TextOf(contents + [c]) == TextOf(contents) + c.text
    ensures EndOf(contents + [c]) == if c.end.Some? then c.end else EndOf(contents)
    ensures WordsOf(contents + [c]) ==
            WordsOf(contents) + if c.kind.Word? then [TranscriptWord(c.start, c.end, c.text, c.confidence)] else []
  {
    assert (contents + [c])[..|contents|] == contents;
  }

  /** A segment with one more item in it. */
  function Grown(segment: Segment, c: Content, settings: Settings): Segment {
    segment.(text := segment.text + c.text,
             end := if c.end.Some? && !settings.timestamps.NoTimestamps? then c.end else segment.end,
             words := if settings.timestamps.WordTimestamps? && c.kind.Word? && segment.words.Some?
                      then Some(segment.words.value + [TranscriptWord(c.start, c.end, c.text, c.confidence)])
                        else segment.words)
  }

  lemma GrownIsSegment(run: Run, c: Content, settings: Settings)
    requires run.contents != []
    ensures Grown(SegmentOf(run, settings), c, settings) == SegmentOf(Run(run.tag, run.contents + [c]), settings)
  {
    ContentsStep(run.contents, c);
    assert (run.contents + [c])[0] == run.contents[0];
    assert WordsOf(run.contents) + [] == WordsOf(run.contents);
  }

  /** An empty segment opened at an item. */
  function Opened(tag: Option<string>, c: Content, settings: Settings): Segment {
    var timed := !settings.timestamps.NoTimestamps?;
    Segment(if timed then c.start else None, if timed then c.end else None, tag, "",
            if settings.timestamps.WordTimestamps? then Some([]) else None)
  }

  lemma OpenedIsSegment(tag: Option<string>, c: Content, settings: Settings)
    ensures Grown(Opened(tag, c, settings), c, settings) == SegmentOf(Run(tag, [c]), settings)
  {
    ContentsStep([], c);
    assert [] + [c] == [c];
    assert TextOf([]) == "" && WordsOf([]) == [] && EndOf([]) == None;
  }

  lemma ExtendSegments(runs: seq<Run>, entry: Entry, settings: Settings)
    requires NoneEmpty(runs)
    ensures NoneEmpty(Extend(runs, entry))
    ensures var before, after := SegmentsOf(runs, settings), SegmentsOf(Extend(runs, entry), settings);
            var n := |runs|;
            if n > 0 && before[n - 1].speaker == entry.tag
            then after == before[..n - 1] + [Grown(before[n - 1], entry.content, settings)]
            else after == before + [Grown(Opened(entry.tag, entry.content, settings), entry.content, settings)]
  {
    var n := |runs|;
    if n > 0 {
      GrownIsSegment(runs[n - 1], entry.content, settings);
    }
    OpenedIsSegment(entry.tag, entry.content, settings);
  }

  lemma PrefixStep<T>(s: seq<T>, i: nat)
    requires i < |s|
    ensures s[..i + 1] == s[..i] + [s[i]] && s[..i + 1][..i] == s[..i]
  {
  }

  function LabelAt(items: seq<Item>, i: nat, settings: Settings): Option<string>
    requires i < |items|
  {
    if settings.diarization then LabelOf(Seen(items[..i]), items[i].speaker) else None
  }

  /** An item added to the last segment when that is its speaker's, or opening a new one. */
  function Placed(segments: seq<Segment>, tag: Option<string>, c: Content, settings: Settings): seq<Segment> {
    var n := |segments|;
    if n > 0 && segments[n - 1].speaker == tag then segments[..n - 1] + [Grown(segments[n - 1], c, settings)]
    else segments + [Grown(Opened(tag, c, settings), c, settings)]
  }

  /** One more item is skipped or placed. */
  lemma TurnsStep(items: seq<Item>, i: nat, settings: Settings)
    requires i < |items|
    ensures Turns(items[..i + 1], settings) ==
            if Kept(items[i])
              then Placed(Turns(items[..i], settings), LabelAt(items, i, settings), items[i].content, settings)
            else Turns(items[..i], settings)
  {
    PrefixStep(items, i);
    if Kept(items[i]) {
      var entries := Labelled(items[..i], settings);
      var entry := Entry(LabelAt(items, i, settings), items[i].content);
      assert (entries + [entry])[..|entries|] == entries;
      RunsAreNotEmpty(entries);
      ExtendSegments(Runs(entries), entry, settings);
    }
  }

  lemma SeenStep(items: seq<Item>, i: nat)
    requires i < |items|
    ensures Seen(items[..i + 1]) == if Kept(items[i]) then SeenWith(Seen(items[..i]), items[i].speaker)
                                    else Seen(items[..i])
  {
    PrefixStep(items, i);
  }

  /** Puts one item into its segment. */
  method Grow(segment: Segment, c: Content, settings: Settings) returns (current: Segment)
    ensures current == Grown(segment, c, settings)
  {
    current := segment.(text := segment.text + c.text);
    if c.end.Some? && !settings.timestamps.NoTimestamps? {
      current := current.(end := c.end);
    }
    if settings.timestamps.WordTimestamps? && c.kind.Word? && current.words.Some? {
      current := current.(words := Some(current.words.value + [TranscriptWord(c.start, c.end, c.text, c.confidence)]));
    }
  }

  method Place(
    segments: seq<Segment>, speaker: Option<string>, c: Content, settings: Settings) returns (placed: seq<Segment>)
    ensures placed == Placed(segments, speaker, c, settings)
  {
    placed := segments;
    if placed == [] || placed[|placed| - 1].speaker != speaker {
      placed := placed + [Opened(speaker, c, settings)];
    }
    var current := Grow(placed[|placed| - 1], c, settings);
    placed := placed[..|placed| - 1] + [current];
  }

  method Normalize(items: seq<Item>, settings: Settings) returns (segments: seq<Segment>)
    ensures segments == Turns(items, settings)
  {
    var speakers := new SpeakerNormalizer();
    segments := [];
    var i := 0;
    while i < |items|
      invariant i <= |items|
      invariant speakers.Valid() && fresh(speakers)
      invariant settings.diarization ==> speakers.seen == Seen(items[..i])
      invariant segments == Turns(items[..i], settings)
    {
      var item := items[i];
      TurnsStep(items, i, settings);
      SeenStep(items, i);
      if Kept(item) {
        var speaker: Option<string> := None;
        if settings.diarization {
          speaker := speakers.Normalize(item.speaker);
        }
        segments := Place(segments, speaker, item.content, settings);
      }
      i := i + 1;
    }
    assert items[..|items|] == items;
  }

  // ---------------------------------------------------------------- what grouping keeps

  function Flattened(runs: seq<Run>): seq<Content> {
    if runs == [] then [] else Flattened(runs[..|runs| - 1]) + runs[|runs| - 1].contents
  }

  function Contents(entries: seq<Entry>): seq<Content> {
    if entries == [] then [] else Contents(entries[..|entries| - 1]) + [entries[|entries| - 1].content]
  }

  lemma ExtendFlattened(runs: seq<Run>, entry: Entry)
    ensures Flattened(Extend(runs, entry)) == Flattened(runs) + [entry.content]
  {
    var n := |runs|;
    var after := Extend(runs, entry);
    assert after[..|after| - 1] == if n > 0 && runs[n - 1].tag == entry.tag then runs[..n - 1] else runs;
  }

  /** The runs hold the kept items, in order; */
  lemma {:induction false} RunsKeepContents(entries: seq<Entry>)
    ensures Flattened(Runs(entries)) == Contents(entries)
  {
    if entries != [] {
      RunsKeepContents(entries[..|entries| - 1]);
      ExtendFlattened(Runs(entries[..|entries| - 1]), entries[|entries| - 1]);
    }
  }

  /** and are maximal: neighbours differ in their label. */
  lemma {:induction false} RunsAreMaximal(entries: seq<Entry>, i: nat)
    requires i + 1 < |Runs(entries)|
    ensures Runs(entries)[i].tag != Runs(entries)[i + 1].tag
  {
    var earlier := Runs(entries[..|entries| - 1]);
    if i + 1 < |earlier| {
      RunsAreMaximal(entries[..|entries| - 1], i);
    }
  }

  function AllText(segments: seq<Segment>): string {
    if segments == [] then "" else AllText(segments[..|segments| - 1]) + segments[|segments| - 1].text
  }

  function AllWords(segments: seq<Segment>): seq<TranscriptWord> {
    if segments == [] then []
    else
      var last := segments[|segments| - 1];
      AllWords(segments[..|segments| - 1]) + if last.words.Some? then last.words.value else []
  }

  lemma {:induction false} TextConcat(a: seq<Content>, b: seq<Content>)
    ensures TextOf(a + b) == TextOf(a) + TextOf(b)
  {
    if b == [] {
      assert a + b == a;
    } else {
      assert (a + b)[..|a + b| - 1] == a + b[..|b| - 1];
      TextConcat(a, b[..|b| - 1]);
    }
  }

  lemma {:induction false} WordsConcat(a: seq<Content>, b: seq<Content>)
    ensures WordsOf(a + b) == WordsOf(a) + WordsOf(b)
  {
    if b == [] {
      assert a + b == a;
    } else {
      assert (a + b)[..|a + b| - 1] == a + b[..|b| - 1];
      WordsConcat(a, b[..|b| - 1]);
    }
  }

  lemma {:induction false} SegmentsKeepText(runs: seq<Run>, settings: Settings)
    requires NoneEmpty(runs)
    ensures AllText(SegmentsOf(runs, settings)) == TextOf(Flattened(runs))
    ensures settings.timestamps.WordTimestamps? ==> AllWords(SegmentsOf(runs, settings)) == WordsOf(Flattened(runs))
  {
    if runs != [] {
      var n := |runs| - 1;
      SegmentsKeepText(runs[..n], settings);
      assert SegmentsOf(runs, settings)[..n] == SegmentsOf(runs[..n], settings);
      TextConcat(Flattened(runs[..n]), runs[n].contents);
      WordsConcat(Flattened(runs[..n]), runs[n].contents);
    }
  }

  /** The kept items alone. */
  function KeptContents(items: seq<Item>): seq<Content> {
    if items == [] then []
    else
      var last := items[|items| - 1];
      KeptContents(items[..|items| - 1]) + if Kept(last) then [last.content] else []
  }

  lemma {:induction false} LabelledKeeps(items: seq<Item>, settings: Settings)
    ensures Contents(Labelled(items, settings)) == KeptContents(items)
  {
    if items != [] {
      var n := |items| - 1;
      LabelledKeeps(items[..n], settings);
      if Kept(items[n]) {
        var entries := Labelled(items, settings);
        assert entries[..|entries| - 1] == Labelled(items[..n], settings);
      }
    }
  }

  /**
   Grouping loses, adds and reorders nothing: the segments' texts are the kept items' texts one
   after the other, and with word timestamps their words are the word items in order.
   */
  lemma TurnsKeepContent(items: seq<Item>, settings: Settings)
    ensures AllText(Turns(items, settings)) == TextOf(KeptContents(items))
    ensures settings.timestamps.WordTimestamps? ==> AllWords(Turns(items, settings)) == WordsOf(KeptContents(items))
  {
    var entries := Labelled(items, settings);
    RunsAreNotEmpty(entries);
    SegmentsKeepText(Runs(entries), settings);
    RunsKeepContents(entries);
    LabelledKeeps(items, settings);
  }

  /** Adjacent segments have different speakers. */
  lemma TurnsAreMaximal(items: seq<Item>, settings: Settings, i: nat)
    requires i + 1 < |Turns(items, settings)|
    ensures Turns(items, settings)[i].speaker != Turns(items, settings)[i + 1].speaker
  {
    RunsAreMaximal(Labelled(items, settings), i);
  }

  // ---------------------------------------------------------------- renaming speakers

  function RenamedId(speaker: Option<string>, rename: string -> string): Option<string> {
    if speaker.None? then None else Some(rename(speaker.value))
  }

  function Renamed(items: seq<Item>, rename: string -> string): seq<Item> {
    seq(|items|, i requires 0 <= i < |items| => Item(RenamedId(items[i].speaker, rename), items[i].content))
  }

  function RenamedIds(ids: seq<string>, rename: string -> string): seq<string> {
    seq(|ids|, i requires 0 <= i < |ids| => rename(ids[i]))
  }

  ghost predicate Injective(rename: string -> string) {
    forall a, b :: rename(a) == rename(b) ==> a == b
  }

  lemma {:induction false} PlaceRenamed(seen: seq<string>, id: string, rename: string -> string)
    requires Injective(rename)
    ensures PlaceOf(RenamedIds(seen, rename), rename(id)) == PlaceOf(seen, id)
  {
    if seen != [] {
      assert RenamedIds(seen, rename)[1..] == RenamedIds(seen[1..], rename);
      PlaceRenamed(seen[1..], id, rename);
    }
  }

  lemma {:induction false} SeenRenamed(items: seq<Item>, rename: string -> string)
    requires Injective(rename)
    ensures Seen(Renamed(items, rename)) == RenamedIds(Seen(items), rename)
  {
    if items != [] {
      var n := |items| - 1;
      SeenRenamed(items[..n], rename);
      assert Renamed(items, rename)[..n] == Renamed(items[..n], rename);
      if items[n].speaker.Some? {
        PlaceRenamed(Seen(items[..n]), items[n].speaker.value, rename);
      }
    }
  }

  lemma {:induction false} LabelledRenamed(items: seq<Item>, settings: Settings, rename: string -> string)
    requires Injective(rename)
    ensures Labelled(Renamed(items, rename), settings) == Labelled(items, settings)
  {
    if items != [] {
      var n := |items| - 1;
      LabelledRenamed(items[..n], settings, rename);
      assert Renamed(items, rename)[..n] == Renamed(items[..n], rename);
      SeenRenamed(items[..n], rename);
      if items[n].speaker.Some? {
        PlaceRenamed(Seen(items[..n]), items[n].speaker.value, rename);
      }
    }
  }

  /** Renaming the provider's speaker identifiers, no two to one, changes nothing in the result. */
  lemma TurnsIgnoreNames(items: seq<Item>, settings: Settings, rename: string -> string)
    requires Injective(rename)
    ensures Turns(Renamed(items, rename), settings) == Turns(items, settings)
  {
    LabelledRenamed(items, settings, rename);
  }

  // ---------------------------------------------------------------- labels stand for speakers

  /** The label an item is given among those before it. */
  function ItemLabel(items: seq<Item>, k: nat): Option<string>
    requires k < |items|
  {
    LabelOf(Seen(items[..k]), items[k].speaker)
  }

  lemma {:induction false} SeenDistinct(items: seq<Item>)
    ensures NoDuplicates(Seen(items))
  {
    if items != [] {
      SeenDistinct(items[..|items| - 1]);
    }
  }

  lemma {:induction false} SeenGrows(items: seq<Item>, k: nat, n: nat)
    requires k <= n <= |items|
    ensures Seen(items[..k]) <= Seen(items[..n])
  {
    if k < n {
      SeenGrows(items, k, n - 1);
      assert items[..n][..n - 1] == items[..n - 1];
    }
  }

  lemma PlaceInPrefix(seen: seq<string>, all: seq<string>, speaker: string)
    requires SeenWith(seen, Some(speaker)) <= all && NoDuplicates(all)
    ensures PlaceOf(all, speaker) == PlaceOf(seen, speaker) && speaker in all
  {
    var p := PlaceOf(seen, speaker);
    assert all[p] == SeenWith(seen, Some(speaker))[p] == speaker;
  }

  /** Two kept items have one label exactly when they have one speaker. */
  lemma LabelsTellSpeakers(items: seq<Item>, j: nat, k: nat)
    requires j < |items| && k < |items| && Kept(items[j]) && Kept(items[k])
    ensures ItemLabel(items, j) == ItemLabel(items, k) <==> items[j].speaker == items[k].speaker
  {
    var all := Seen(items);
    LabelInAll(items, j);
    LabelInAll(items, k);
    if items[j].speaker.Some? && items[k].speaker.Some? && ItemLabel(items, j) == ItemLabel(items, k) {
      SpeakerInAll(items, j);
      SpeakerInAll(items, k);
      LabelsDiffer(PlaceOf(all, items[j].speaker.value) + 1, PlaceOf(all, items[k].speaker.value) + 1);
    }
  }

  lemma SeenIsPrefix(items: seq<Item>, k: nat)
    requires k < |items| && Kept(items[k])
    ensures SeenWith(Seen(items[..k]), items[k].speaker) <= Seen(items)
  {
    SeenGrows(items, k + 1, |items|);
    assert items[..|items|] == items;
    SeenStep(items, k);
  }

  lemma LabelSame(mine: seq<string>, all: seq<string>, speaker: Option<string>)
    requires SeenWith(mine, speaker) <= all && NoDuplicates(all)
    ensures LabelOf(mine, speaker) == LabelOf(all, speaker)
  {
    if speaker.Some? {
      PlaceInPrefix(mine, all, speaker.value);
    }
  }

  lemma LabelInAll(items: seq<Item>, k: nat)
    requires k < |items| && Kept(items[k])
    ensures ItemLabel(items, k) == LabelOf(Seen(items), items[k].speaker)
  {
    SeenDistinct(items);
    SeenIsPrefix(items, k);
    LabelSame(Seen(items[..k]), Seen(items), items[k].speaker);
  }

  lemma SpeakerInAll(items: seq<Item>, k: nat)
    requires k < |items| && Kept(items[k]) && items[k].speaker.Some?
    ensures items[k].speaker.value in Seen(items)
  {
    SeenDistinct(items);
    SeenIsPrefix(items, k);
    PlaceInPrefix(Seen(items[..k]), Seen(items), items[k].speaker.value);
  }
}

/**
 The TOML client adapter: the text read as a map from server name to launch vector, what editing
 one server does to that map, and the adapter's own operations on its file.
 */
module TomlAdapters {
  import opened Common
  import opened TomlText
  import opened TomlLines
  import opened TomlSplices
  import opened ClientBase
  import opened TomlStores

  // ---------------------------------------------------------------- reading a table back

  predicate OnlyNewlines(text: string) {
    forall i :: 0 <= i < |text| ==> text[i] == '\n'
  }

  function ReadArg(line: string): Option<string> {
    if |line| >= 3 && line[..2] == "  " && line[|line| - 1] == ',' then ReadBasic(line[2..|line| - 1]) else None
  }

  /** The argument lines up to the closing bracket, after which only empty lines may follow. */
  function ReadArgs(text: string): Option<seq<string>>
    decreases |text|
  {
    var line := FirstLine(text);
    if line == "]" then (if OnlyNewlines(Rest(text)) then Some([]) else None)
    else if !HasMore(text) || ReadArg(line).None? then None
    else
      var rest := ReadArgs(Rest(text));
      if rest.Some? then Some([ReadArg(line).value] + rest.value) else None
  }

  function ReadCommand(line: string): Option<string> {
    if |line| >= 10 && line[..10] == "command = " then ReadBasic(line[10..]) else None
  }

  /** What follows the header line. */
  function ReadBody(text: string): Option<Launch> {
    var command := ReadCommand(FirstLine(text));
    var args := ReadArgs(Rest(Rest(text)));
    if command.Some? && FirstLine(Rest(text)) == "args = [" && args.Some? then Some(Launch(command.value, args.value))
    else None
  }

  /** The launch vector of a table as the adapter writes it; None for any other table. */
  function ReadLaunch(table: string): Option<Launch> {
    ReadBody(Rest(table))
  }

  predicate AllClean(args: seq<string>) {
    args == [] || (Clean(args[0]) && AllClean(args[1..]))
  }

  lemma ArgReadsBack(arg: string)
    ensures ReadArg(ArgLine(arg)) == if Clean(arg) then Some(arg) else None
    ensures ArgLine(arg) != "]"
  {
    QuotedValueReadsBack(arg);
    QuotedValueOneLine(arg);
    var line := ArgLine(arg);
    assert line[2..|line| - 1] == QuoteValue(arg);
  }

  lemma ReadArgsStep(arg: string, more: string, rest: Option<seq<string>>)
    requires ReadArgs(more) == rest
    ensures ReadArgs(ArgLine(arg) + "\n" + more) == if Clean(arg) && rest.Some? then Some([arg] + rest.value) else None
  {
    ArgReadsBack(arg);
    ArgLinePlain(arg);
    FirstLineIs(ArgLine(arg), more);
  }

  lemma NoArgsReadBack()
    ensures ReadArgs(ArgLines([]) + "]\n") == Some([])
  {
    FirstLineIs("]", "");
    assert "]" + "\n" + "" == ArgLines([]) + "]\n";
  }

  lemma ArgTextStep(args: seq<string>)
    requires args != []
    ensures ArgLines(args) + "]\n" == ArgLine(args[0]) + "\n" + (ArgLines(args[1..]) + "]\n")
  {
  }

  lemma {:induction false} ArgsReadBack(args: seq<string>)
    ensures ReadArgs(ArgLines(args) + "]\n") == if AllClean(args) then Some(args) else None
  {
    if args == [] {
      NoArgsReadBack();
    } else {
      ArgsReadBack(args[1..]);
      ReadArgsStep(args[0], ArgLines(args[1..]) + "]\n", if AllClean(args[1..]) then Some(args[1..]) else None);
      ArgTextStep(args);
      assert args == [args[0]] + args[1..];
    }
  }

  lemma CommandReadsBack(command: string)
    ensures ReadCommand(CommandLine(command)) == if Clean(command) then Some(command) else None
  {
    QuotedValueReadsBack(command);
    var line := CommandLine(command);
    assert line[..10] == "command = " && line[10..] == QuoteValue(command);
  }

  predicate CleanLaunch(launch: Launch) {
    Clean(launch.command) && AllClean(launch.args)
  }

  /** What reading gives of a launch that was written. */
  function AsRead(launch: Launch): Option<Launch> {
    if CleanLaunch(launch) then Some(launch) else None
  }

  lemma BodyReadsBack(launch: Launch)
    ensures ReadBody(TableBody(launch)) == AsRead(launch)
  {
    var args := ArgLines(launch.args) + "]\n";
    FirstLineIs("args = [", args);
    CommandLinePlain(launch.command);
    FirstLineIs(CommandLine(launch.command), "args = [" + "\n" + args);
    CommandReadsBack(launch.command);
    ArgsReadBack(launch.args);
  }

  /** A rendered table reads back as its command and its arguments, in order and of any number. */
  lemma TableReadsBack(header: string, launch: Launch)
    requires OneLine(header)
    ensures ReadLaunch(Table(header, launch)) == AsRead(launch)
  {
    BodyReadsBack(launch);
    BracketedOneLine(header);
    BodyFollows("[" + header + "]", TableBody(launch));
  }

  lemma BracketedOneLine(header: string)
    requires OneLine(header)
    ensures OneLine("[" + header + "]")
  {
  }

  lemma BodyFollows(line: string, body: string)
    requires OneLine(line)
    ensures ReadLaunch(line + "\n" + body) == ReadBody(body)
  {
    FirstLineIs(line, body);
  }

  // ---------------------------------------------------------------- trailing newlines

  lemma LineNewline(text: string)
    ensures FirstLine(text + "\n") == FirstLine(text)
    ensures Rest(text + "\n") == if HasMore(text) then Rest(text) + "\n" else ""
  {
    if HasMore(text) {
      LineConcat(text, "\n");
    } else {
      LineEndOneLine(text);
      assert FirstLine(text) == text;
      FirstLineIs(text, "");
      assert text + "\n" + "" == text + "\n";
    }
  }

  lemma {:induction false} ArgsNewline(text: string)
    ensures ReadArgs(text + "\n") == ReadArgs(text)
    decreases |text|
  {
    LineNewline(text);
    if HasMore(text) {
      LineConcat(text, "\n");
      ArgsNewline(Rest(text));
      assert OnlyNewlines(Rest(text) + "\n") <==> OnlyNewlines(Rest(text));
    } else {
      assert FirstLine("") == "" && ReadArgs("") == None;
    }
  }

  lemma BodyNewline(text: string)
    ensures ReadBody(text + "\n") == ReadBody(text)
  {
    LineNewline(text);
    if HasMore(text) {
      var rest := Rest(text);
      LineNewline(rest);
      if HasMore(rest) {
        ArgsNewline(Rest(rest));
      }
    }
  }

  /** A newline after a table does not change what it says. */
  lemma LaunchNewline(table: string)
    ensures ReadLaunch(table + "\n") == ReadLaunch(table)
  {
    LineNewline(table);
    if HasMore(table) {
      BodyNewline(Rest(table));
    }
  }

  // ---------------------------------------------------------------- the map the text stands for

  function LaunchAt(text: string, header: string): Option<Launch> {
    ReadLaunch(TableOf(text, header))
  }

  lemma LaunchIgnoresNewlines()
    ensures IgnoresNewlines(ReadLaunch)
  {
    forall table ensures ReadLaunch(table + "\n") == ReadLaunch(table) {
      LaunchNewline(table);
    }
  }

  /** Replacing or dropping a table that is there leaves every other table as it was. */
  lemma OtherTablesKept(text: string, header: string, other: string, table: Option<string>)
    requires TableOf(text, header) != "" && other != header
    requires table.Some? ==> IsTable(table.value, header)
    ensures TableOf(ReplaceTable(text, header, table), other) == TableOf(text, other)
  {
    PatternsSkipEmpty(header);
    PatternsSkipEmpty(other);
    HeadersAreApart(header, other);
    BlockIsBetweenBounds(text, HeaderLine(header), AnyTable());
    OtherBlocksKept(text, HeaderLine(header), AnyTable(), HeaderLine(other), table);
  }

  /** Writing one server's table, also by appending it, changes no other server's launch vector. */
  lemma OtherLaunchesKept(text: string, header: string, other: string, table: string)
    requires IsTable(table, header) && other != header
    ensures LaunchAt(ReplaceTable(text, header, Some(table)), other) == LaunchAt(text, other)
  {
    PatternsSkipEmpty(header);
    PatternsSkipEmpty(other);
    HeadersAreApart(header, other);
    LaunchIgnoresNewlines();
    OtherReadingsKept(text, HeaderLine(header), AnyTable(), HeaderLine(other), table, ReadLaunch);
  }

  lemma OwnTable(text: string, header: string, table: string)
    requires IsTable(table, header)
    ensures TableOf(ReplaceTable(text, header, Some(table)), header) == table
  {
    PatternsSkipEmpty(header);
    ReplacedBlock(text, HeaderLine(header), AnyTable(), table);
  }

  // ---------------------------------------------------------------- servers by name

  predicate OneLineNames(path: seq<string>) {
    forall i :: 0 <= i < |path| ==> OneLine(path[i])
  }

  function ServerHeader(path: seq<string>, name: string): string {
    Header(path + [name])
  }

  lemma ServerHeaderIsHeader(path: seq<string>, name: string)
    requires OneLineNames(path) && OneLine(name)
    ensures IsHeader(ServerHeader(path, name))
  {
    HeaderShape(path + [name]);
  }

  lemma ServerHeadersDiffer(path: seq<string>, name: string, other: string)
    requires name != other
    ensures ServerHeader(path, name) != ServerHeader(path, other)
  {
    assert (path + [name])[|path|] != (path + [other])[|path|];
    if ServerHeader(path, name) == ServerHeader(path, other) {
      HeadersDiffer(path + [name], path + [other]);
    }
  }

  /** The launch vector the text gives a server. */
  function LaunchNamed(text: string, path: seq<string>, name: string): Option<Launch> {
    LaunchAt(text, ServerHeader(path, name))
  }

  /** The text after a server is registered. */
  function Registered(text: string, path: seq<string>, name: string, launch: Launch): string {
    var header := ServerHeader(path, name);
    ReplaceTable(text, header, Some(Table(header, launch)))
  }

  function Unregistered(text: string, path: seq<string>, name: string): string {
    ReplaceTable(text, ServerHeader(path, name), None)
  }

  /** Registering a server updates the map at that name and nowhere else. */
  lemma RegisteredIsUpdate(text: string, path: seq<string>, name: string, launch: Launch, asked: string)
    requires OneLineNames(path) && OneLine(name)
    ensures LaunchNamed(Registered(text, path, name, launch), path, asked) ==
            if asked == name then AsRead(launch) else LaunchNamed(text, path, asked)
  {
    var header := ServerHeader(path, name);
    ServerHeaderIsHeader(path, name);
    TableIsTable(header, launch);
    if asked == name {
      OwnTable(text, header, Table(header, launch));
      TableReadsBack(header, launch);
    } else {
      ServerHeadersDiffer(path, asked, name);
      OtherLaunchesKept(text, header, ServerHeader(path, asked), Table(header, launch));
    }
  }

  /** What the adapter's inventory shows of a table of the form it writes. */
  function EntryOf(name: string, launch: Option<Launch>): Option<Entry> {
    match launch
    case None => None
    case Some(known) => Some(Entry(name, CommandText(known.command), known.args))
  }

  /** Once registered, the next plan finds nothing to do, whatever is owned or may be taken over. */
  lemma NextPlanIsEmpty(
    text: string, path: seq<string>, registration: Registration, owned: set<string>, takeover: bool,
    hash: string -> string)
    requires OneLineNames(path) && OneLine(registration.name) && CleanLaunch(LaunchOf(registration))
    ensures var name, launch := registration.name, LaunchOf(registration);
            var read := LaunchNamed(Registered(text, path, name, launch), path, name);
            PlanFor(registration, EntryOf(name, read), owned, takeover, hash)
              == Ok(RegistrationPlan(registration, [], [], []))
  {
    var name, launch := registration.name, LaunchOf(registration);
    RegisteredIsUpdate(text, path, name, launch, name);
    ReadNeedsNothing(registration, Some(launch), owned, takeover, hash);
  }

  lemma ReadNeedsNothing(
    registration: Registration, read: Option<Launch>, owned: set<string>, takeover: bool, hash: string -> string)
    requires read == Some(LaunchOf(registration))
    ensures PlanFor(registration, EntryOf(registration.name, read), owned, takeover, hash)
              == Ok(RegistrationPlan(registration, [], [], []))
  {
    LaunchedNeedsNothing(registration, EntryOf(registration.name, read).value, owned, takeover, hash);
  }

  /** Removing one leaves every other as it was; */
  lemma UnregisteredKeepsOthers(text: string, path: seq<string>, name: string, asked: string)
    requires asked != name
    ensures LaunchNamed(Unregistered(text, path, name), path, asked) == LaunchNamed(text, path, asked)
  {
    var header, other := ServerHeader(path, name), ServerHeader(path, asked);
    ServerHeadersDiffer(path, asked, name);
    if TableOf(text, header) != "" {
      OtherTablesKept(text, header, other, None);
    } else {
      NothingDropped(text, header);
    }
  }

  lemma NothingDropped(text: string, header: string)
    requires TableOf(text, header) == ""
    ensures ReplaceTable(text, header, None) == text
  {
    PatternsSkipEmpty(header);
    if BlockBounds(text, HeaderLine(header), AnyTable()).Present? {
      BlockIsNotEmpty(text, HeaderLine(header), AnyTable());
    }
  }

  /** and leaves none under that name exactly when its header stood on one line only. */
  lemma UnregisteredIsGoneIff(text: string, path: seq<string>, name: string)
    ensures var wanted := HeaderLine(ServerHeader(path, name));
            Missing(Unregistered(text, path, name), wanted) <==> Missing(After(text, wanted, AnyTable()), wanted)
  {
    PatternsSkipEmpty(ServerHeader(path, name));
    DroppedIsGoneIff(text, HeaderLine(ServerHeader(path, name)), AnyTable());
  }

  /** Removing changes the text exactly when some line is the server's header by the line pattern. */
  lemma RemovalChangesIff(text: string, path: seq<string>, name: string)
    ensures Unregistered(text, path, name) != text <==> !Missing(text, HeaderLine(ServerHeader(path, name)))
  {
    var wanted := HeaderLine(ServerHeader(path, name));
    PatternsSkipEmpty(ServerHeader(path, name));
    if Missing(text, wanted) {
      NothingToDrop(text, wanted, AnyTable());
    } else {
      BlockIsNotEmpty(text, wanted, AnyTable());
      BlockIsBetweenBounds(text, wanted, AnyTable());
      DroppedText(text, wanted, AnyTable());
    }
  }

  /**
   Whatever the user wrote between a server's table and the next table goes with it when the server
   is registered anew or removed; registering the same launch vector keeps the text only without it.
   */
  lemma TextBehindTableIsLost(
    before: string, extra: string, after: string, path: seq<string>, name: string, launch: Launch, next: Launch)
    requires OneLineNames(path) && OneLine(name)
    requires Complete(before) && Missing(before, HeaderLine(ServerHeader(path, name))) && Missing(extra, AnyTable())
    requires Follows(Table(ServerHeader(path, name), launch) + extra, after, AnyTable())
    ensures var header := ServerHeader(path, name);
            var text := before + (Table(header, launch) + extra + after);
            && Registered(text, path, name, next) == before + Table(header, next) + after
            && Unregistered(text, path, name) == before + after
            && (Registered(text, path, name, launch) == text <==> extra == "")
  {
    var header := ServerHeader(path, name);
    PatternsSkipEmpty(header);
    RenderedReads(path, name, launch);
    TrailingTextIsLost(
      before, Table(header, launch), extra, after, HeaderLine(header), AnyTable(), Some(Table(header, next)));
    TrailingTextIsLost(before, Table(header, launch), extra, after, HeaderLine(header), AnyTable(), None);
    assert before + "" == before;
  }

  lemma CommentNamesNothing(header: string)
    requires IsHeader(header)
    ensures NameOn("[" + header + "] # mine") == None && OneLine("[" + header + "] # mine")
  {
    var line := "[" + header + "] # mine";
    assert line[0] == '[' && line[|line| - 1] == 'e';
    StripDrops("", line, "");
    assert "" + line + "" == line;
  }

  /**
   A comment after the header hides it from the line pattern: a second table is appended, and a
   removal does nothing.
   */
  lemma CommentedHeaderIsMissed(header: string, table: string)
    requires IsHeader(header)
    ensures var text := "[" + header + "] # mine" + "\n";
            && ReplaceTable(text, header, Some(table)) == text + "\n" + table
            && ReplaceTable(text, header, None) == text
  {
    var line := "[" + header + "] # mine";
    CommentNamesNothing(header);
    NotNamedNotThere(line, header);
    assert line != "" && line[|line| - 1] == 'e';
    AppendedAfterOneNewline(line + "\n", header, table);
  }

  lemma NotNamedNotThere(line: string, header: string)
    requires OneLine(line) && NameOn(line) != Some(header)
    ensures Missing(line + "\n", HeaderLine(header))
  {
    assert line + "\n" == line + "\n" + "";
    FirstLineIs(line, "");
    PatternsSkipEmpty(header);
    assert FirstLine("") == "";
  }

  lemma AppendedAfterOneNewline(text: string, header: string, table: string)
    requires Missing(text, HeaderLine(header)) && text != "" && Complete(text) && !EndsBlank(text)
    ensures ReplaceTable(text, header, Some(table)) == text + "\n" + table
  {
  }

  // ---------------------------------------------------------------- the adapter

  /** The client's file: none yet, one that may not be edited (a link, too large, not UTF-8), or a text. */
  datatype ClientFile = NoFile | Unusable | Content(text: string)

  datatype StoreError = ClientConflict | ClientUnsupported | WriteFailed

  /** The text of a file that is there or not yet there. */
  function TextOf(file: ClientFile): string {
    if file.Content? then file.text else ""
  }

  class TomlMcpServersAdapter {
    const tablePath: seq<string>
    var file: ClientFile

    constructor (tablePath: seq<string>, file: ClientFile)
      ensures this.tablePath == tablePath && this.file == file
    {
      this.tablePath := tablePath;
      this.file := file;
    }

    /**
     Carries out a plan. `parses` is the TOML parser's verdict on the current text and `writes`
     whether the temporary file could be written and renamed over the old one.
     */
    method Apply(plan: RegistrationPlan, parses: bool, writes: bool) returns (r: Result<(), StoreError>)
      modifies this`file
      ensures plan.Blocked() ==> r == Err(ClientConflict)
      ensures !plan.Blocked() && plan.ChangesNothing() ==> r.Ok?
      ensures r.Err? || plan.ChangesNothing() ==> file == old(file)
      ensures !plan.Blocked() && !plan.ChangesNothing() ==> (r.Ok? <==> !old(file).Unusable? && parses && writes)
      ensures r.Ok? && !plan.ChangesNothing() ==>
        file == Content(Registered(old(TextOf(file)), tablePath, plan.registration.name, LaunchOf(plan.registration)))
    {
      if plan.Blocked() {
        return Err(ClientConflict);
      }
      if plan.ChangesNothing() {
        return Ok(());
      }
      if file.Unusable? || !parses {
        return Err(ClientUnsupported);
      }
      if !writes {
        return Err(WriteFailed);
      }
      var header := ServerHeader(tablePath, plan.registration.name);
      file := Content(ReplaceTable(TextOf(file), header, Some(Table(header, LaunchOf(plan.registration)))));
      return Ok(());
    }

    /** Drops one server. `listed` says whether the parsed document has it. */
    method Remove(name: string, parses: bool, listed: bool, writes: bool) returns (r: Result<bool, StoreError>)
      modifies this`file
      ensures r.Err? || !r.value ==> file == old(file)
      ensures r.Ok? <==> !old(file).Unusable? && parses && (listed ==> writes)
      ensures r.Ok? ==> r.value == listed
      ensures r == Ok(true) ==> file == Content(Unregistered(old(TextOf(file)), tablePath, name))
    {
      if file.Unusable? || !parses {
        return Err(ClientUnsupported);
      }
      if !listed {
        return Ok(false);
      }
      if !writes {
        return Err(WriteFailed);
      }
      file := Content(ReplaceTable(TextOf(file), ServerHeader(tablePath, name), None));
      return Ok(true);
    }
  }

  // ---------------------------------------------------------------- runs of registrations and removals

  function AfterChanges(text: string, path: seq<string>, changes: seq<Change>): string {
    if changes == [] then text
    else
      var earlier := AfterChanges(text, path, changes[..|changes| - 1]);
      match changes[|changes| - 1]
      case Add(name, launch) => Registered(earlier, path, name, launch)
      case Drop(name) => Unregistered(earlier, path, name)
  }

  predicate OneLineChanges(changes: seq<Change>) {
    forall i :: 0 <= i < |changes| ==> OneLine(changes[i].name)
  }

  /**
   The launch vectors of all tables under a server's header, first to last; more than one only in a
   text no parser accepts.
   */
  function LaunchesNamed(text: string, path: seq<string>, name: string): seq<Option<Launch>> {
    Readings(text, HeaderLine(ServerHeader(path, name)), AnyTable(), ReadLaunch)
  }

  /** What the changes that name `asked` make of such a list. */
  function ListAfter(tables: seq<Option<Launch>>, changes: seq<Change>, asked: string): seq<Option<Launch>> {
    if changes == [] then tables
    else
      var earlier := ListAfter(tables, changes[..|changes| - 1], asked);
      var last := changes[|changes| - 1];
      if last.name != asked then earlier
      else Rewritten(earlier, if last.Add? then Some(AsRead(last.launch)) else None)
  }

  function FirstOf(tables: seq<Option<Launch>>): Option<Launch> {
    if tables == [] then None else tables[0]
  }

  /** The vector a server reads as is the first of them. */
  lemma LaunchIsFirst(text: string, path: seq<string>, name: string)
    ensures LaunchNamed(text, path, name) == FirstOf(LaunchesNamed(text, path, name))
    ensures LaunchesNamed(text, path, name) == [] <==> Missing(text, HeaderLine(ServerHeader(path, name)))
  {
    var wanted := HeaderLine(ServerHeader(path, name));
    if Missing(text, wanted) {
      NoReadings(text, wanted, AnyTable(), ReadLaunch);
      NothingReadsAsNone();
    } else {
      ReadingsOf(text, wanted, AnyTable(), ReadLaunch);
    }
  }

  lemma NothingReadsAsNone()
    ensures ReadLaunch("") == None
  {
    assert FirstLine("") == "" && Rest("") == "";
  }

  lemma EditedLaunches(text: string, path: seq<string>, name: string, table: Option<string>, asked: string)
    requires table.Some? ==> IsTable(table.value, ServerHeader(path, name))
    ensures LaunchesNamed(ReplaceTable(text, ServerHeader(path, name), table), path, asked) ==
            if asked == name then Rewritten(LaunchesNamed(text, path, asked), ReadOption(table, ReadLaunch))
            else LaunchesNamed(text, path, asked)
  {
    var header, other := ServerHeader(path, name), ServerHeader(path, asked);
    PatternsSkipEmpty(header);
    PatternsSkipEmpty(other);
    if asked == name {
      ReadingsEdited(text, HeaderLine(header), AnyTable(), table, ReadLaunch);
    } else {
      ServerHeadersDiffer(path, asked, name);
      HeadersAreApart(header, other);
      LaunchIgnoresNewlines();
      ReadingsOfOthers(text, HeaderLine(header), AnyTable(), HeaderLine(other), table, ReadLaunch);
    }
  }

  lemma RenderedReads(path: seq<string>, name: string, launch: Launch)
    requires OneLineNames(path) && OneLine(name)
    ensures var header := ServerHeader(path, name);
            IsTable(Table(header, launch), header)
              && ReadOption(Some(Table(header, launch)), ReadLaunch) == Some(AsRead(launch))
  {
    ServerHeaderIsHeader(path, name);
    TableIsTable(ServerHeader(path, name), launch);
    TableReadsBack(ServerHeader(path, name), launch);
  }

  /** Over any run, each server's tables are what the changes that name it make of them. */
  lemma {:induction false} RunIsListUpdate(text: string, path: seq<string>, changes: seq<Change>, asked: string)
    requires OneLineNames(path) && OneLineChanges(changes)
    ensures LaunchesNamed(AfterChanges(text, path, changes), path, asked)
              == ListAfter(LaunchesNamed(text, path, asked), changes, asked)
  {
    if changes != [] {
      var n := |changes| - 1;
      var earlier := AfterChanges(text, path, changes[..n]);
      RunIsListUpdate(text, path, changes[..n], asked);
      match changes[n] {
        case Add(name, launch) =>
          RenderedReads(path, name, launch);
          EditedLaunches(earlier, path, name, Some(Table(ServerHeader(path, name), launch)), asked);
        case Drop(name) =>
          EditedLaunches(earlier, path, name, None, asked);
      }
    }
  }

  /** How many tables a header has after a run: registering leaves at least one, removing takes one. */
  function CountAfter(count: nat, changes: seq<Change>, asked: string): nat {
    if changes == [] then count
    else
      var earlier := CountAfter(count, changes[..|changes| - 1], asked);
      var last := changes[|changes| - 1];
      if last.name != asked then earlier
      else if last.Add? then (if earlier == 0 then 1 else earlier)
      else if earlier == 0 then 0 else earlier - 1
  }

  lemma {:induction false} ListCount(tables: seq<Option<Launch>>, changes: seq<Change>, asked: string)
    ensures |ListAfter(tables, changes, asked)| == CountAfter(|tables|, changes, asked)
  {
    if changes != [] {
      ListCount(tables, changes[..|changes| - 1], asked);
    }
  }

  /** A header is gone after a run exactly when the run removed it as often as it stood. */
  lemma GoneAfterRunIff(text: string, path: seq<string>, changes: seq<Change>, asked: string)
    requires OneLineNames(path) && OneLineChanges(changes)
    ensures Missing(AfterChanges(text, path, changes), HeaderLine(ServerHeader(path, asked)))
            <==> CountAfter(|LaunchesNamed(text, path, asked)|, changes, asked) == 0
  {
    RunIsListUpdate(text, path, changes, asked);
    ListCount(LaunchesNamed(text, path, asked), changes, asked);
    LaunchIsFirst(AfterChanges(text, path, changes), path, asked);
  }

  lemma {:induction false} SingleListAfter(tables: seq<Option<Launch>>, changes: seq<Change>, asked: string)
    requires |tables| <= 1
    ensures var after := ListAfter(tables, changes, asked);
            |after| <= 1 && FirstOf(after) == HeldAfter(FirstOf(tables), changes, asked, AsRead)
  {
    if changes != [] {
      SingleListAfter(tables, changes[..|changes| - 1], asked);
    }
  }

  /**
   Over any run of registrations and removals a text whose headers stand at most once is a map from
   server to launch vector: a server last registered has that vector, one last removed has none,
   and one never named has the vector it had.
   */
  lemma RunIsMapUpdate(text: string, path: seq<string>, changes: seq<Change>, asked: string)
    requires OneLineNames(path) && OneLineChanges(changes) && |LaunchesNamed(text, path, asked)| <= 1
    ensures LaunchNamed(AfterChanges(text, path, changes), path, asked)
              == HeldAfter(LaunchNamed(text, path, asked), changes, asked, AsRead)
  {
    RunIsListUpdate(text, path, changes, asked);
    SingleListAfter(LaunchesNamed(text, path, asked), changes, asked);
    LaunchIsFirst(text, path, asked);
    LaunchIsFirst(AfterChanges(text, path, changes), path, asked);
  }

  // ---------------------------------------------------------------- what the user's text becomes

  predicate AllAbout(changes: seq<Change>, name: string) {
    forall i :: 0 <= i < |changes| ==> changes[i].name == name
  }

  /** The table that the last change leaves, if it leaves one. */
  function LastTable(path: seq<string>, changes: seq<Change>): Option<string> {
    if changes == [] || changes[|changes| - 1].Drop? then None
    else Some(Table(ServerHeader(path, changes[|changes| - 1].name), changes[|changes| - 1].launch))
  }

  predicate EverRegistered(changes: seq<Change>) {
    changes != [] && (changes[|changes| - 1].Add? || EverRegistered(changes[..|changes| - 1]))
  }

  lemma LastTableIsTable(path: seq<string>, name: string, changes: seq<Change>)
    requires OneLineNames(path) && OneLine(name) && AllAbout(changes, name) && LastTable(path, changes).Some?
    ensures IsTable(LastTable(path, changes).value, ServerHeader(path, name)) && EverRegistered(changes)
  {
    RenderedReads(path, name, changes[|changes| - 1].launch);
  }

  lemma ChangedText(text: string, path: seq<string>, name: string, changes: seq<Change>)
    requires changes != [] && AllAbout(changes, name)
    ensures AfterChanges(text, path, changes)
         == ReplaceTable(AfterChanges(text, path, changes[..|changes| - 1]), ServerHeader(path, name),
           LastTable(path, changes))
  {
    assert changes[|changes| - 1].name == name;
  }

  /**
   However often one server is registered, changed and removed in a text without its header, the
   text is the original, the original with at most two newlines, or that with its latest table.
   */
  lemma {:induction false} OneServerRun(text: string, path: seq<string>, name: string, changes: seq<Change>)
    requires OneLineNames(path) && OneLine(name) && AllAbout(changes, name)
    requires Missing(text, HeaderLine(ServerHeader(path, name)))
    ensures AfterChanges(text, path, changes) == Settled(text, EverRegistered(changes), LastTable(path, changes))
  {
    if changes != [] {
      var earlier := changes[..|changes| - 1];
      OneServerRun(text, path, name, earlier);
      ChangedText(text, path, name, changes);
      OneServerStep(text, path, name, earlier, LastTable(path, earlier), changes, LastTable(path, changes));
    }
  }

  lemma OneServerStep(
    text: string, path: seq<string>, name: string, earlier: seq<Change>, previous: Option<string>, changes: seq<Change>,
    last: Option<string>)
    requires OneLineNames(path) && OneLine(name) && AllAbout(changes, name) && AllAbout(earlier, name)
    requires previous == LastTable(path, earlier) && last == LastTable(path, changes)
    requires Missing(text, HeaderLine(ServerHeader(path, name)))
    ensures ReplaceTable(Settled(text, EverRegistered(earlier), previous), ServerHeader(path, name), last)
         == Settled(text, EverRegistered(earlier) || last.Some?, last)
  {
    if previous.Some? { LastTableIsTable(path, name, earlier); }
    if last.Some? { LastTableIsTable(path, name, changes); }
    PatternsSkipEmpty(ServerHeader(path, name));
    OneMoreEdit(text, HeaderLine(ServerHeader(path, name)), AnyTable(), EverRegistered(earlier), previous, last);
  }
}

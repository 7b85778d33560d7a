/** The header lines of a TOML file, and the table that a registration is rendered to. */
module TomlStores {
  import opened Common
  import opened TomlText
  import opened TomlLines
  import opened TomlSplices
  import opened ClientBase

  // ---------------------------------------------------------------- the two line patterns

  function HeaderLine(header: string): string -> bool {
    line => NameOn(line) == Some(header)
  }

  function AnyTable(): string -> bool {
    line => OpensTable(line)
  }

  lemma PatternsSkipEmpty(header: string)
    ensures !HeaderLine(header)("") && !AnyTable()("")
  {
  }

  lemma HeaderOpens(line: string, header: string)
    requires HeaderLine(header)(line)
    ensures AnyTable()(line)
  {
    var w1, w2, w3, w4 := NamedMatches(line, header);
  }

  /** Swaps one table for another, appends it where there was none, or drops it. */
  function ReplaceTable(text: string, header: string, table: Option<string>): string {
    ReplaceBlock(text, HeaderLine(header), AnyTable(), table)
  }

  /** The table of a header; "" when there is none. */
  function TableOf(text: string, header: string): string {
    BlockOf(text, HeaderLine(header), AnyTable())
  }

  /** Different headers are on different lines, and every header line opens a table. */
  lemma HeadersAreApart(header: string, other: string)
    requires header != other
    ensures Apart(HeaderLine(header), HeaderLine(other), AnyTable())
  {
    forall line ensures HeaderLine(header)(line) ==> AnyTable()(line) && !HeaderLine(other)(line) {
      if HeaderLine(header)(line) { HeaderOpens(line, header); }
    }
    forall line ensures HeaderLine(other)(line) ==> AnyTable()(line) {
      if HeaderLine(other)(line) { HeaderOpens(line, other); }
    }
  }

  /** A finished table: its header line, no other line opening a table, no unfinished line. */
  predicate IsTable(table: string, header: string) {
    IsWhole(table, HeaderLine(header), AnyTable())
  }

  // ---------------------------------------------------------------- the table itself

  function ArgLine(arg: string): string {
    "  " + QuoteValue(arg) + ","
  }

  function ArgLines(args: seq<string>): string {
    if args == [] then "" else ArgLine(args[0]) + "\n" + ArgLines(args[1..])
  }

  function CommandLine(command: string): string {
    "command = " + QuoteValue(command)
  }

  /** What follows the header line. */
  function TableBody(launch: Launch): string {
    CommandLine(launch.command) + "\n" + ("args = [" + "\n" + (ArgLines(launch.args) + "]\n"))
  }

  function Table(header: string, launch: Launch): string {
    ("[" + header + "]") + "\n" + TableBody(launch)
  }

  lemma PlainLine(line: string, tail: string)
    requires OneLine(line) && !OpensTable(line) && Missing(tail, AnyTable())
    ensures Missing(line + "\n" + tail, AnyTable())
  {
    FirstLineIs(line, tail);
  }

  lemma {:induction false} ArgLinesPlain(args: seq<string>)
    ensures Missing(ArgLines(args) + "]\n", AnyTable())
  {
    if args == [] {
      PlainLine("]", "");
      assert "]" + "\n" + "" == ArgLines(args) + "]\n";
    } else {
      ArgLinesPlain(args[1..]);
      var line := ArgLine(args[0]);
      ArgLinePlain(args[0]);
      PlainLine(line, ArgLines(args[1..]) + "]\n");
      assert ArgLines(args) + "]\n" == line + "\n" + (ArgLines(args[1..]) + "]\n");
    }
  }

  lemma ArgLinePlain(arg: string)
    ensures OneLine(ArgLine(arg)) && !OpensTable(ArgLine(arg))
  {
    QuotedValueOneLine(arg);
    var line := ArgLine(arg);
    assert line == "  " + (QuoteValue(arg) + ",");
    StripStartDrops("  ", QuoteValue(arg) + ",");
  }

  lemma CommandLinePlain(command: string)
    ensures OneLine(CommandLine(command)) && !OpensTable(CommandLine(command))
  {
    QuotedValueOneLine(command);
    assert CommandLine(command)[0] == 'c';
  }

  predicate IsHeader(header: string) {
    Trimmed(header) && OneLine(header)
  }

  lemma HeaderNamesItself(header: string)
    requires IsHeader(header)
    ensures HeaderLine(header)("[" + header + "]") && OneLine("[" + header + "]")
  {
    var line := "[" + header + "]";
    assert line == "" + ("[" + ("" + header + "") + "]") + "";
    PatternNames(line, header, "", "", "", "");
  }

  lemma TableEnds(header: string, launch: Launch)
    ensures Complete(Table(header, launch))
  {
  }

  /** A rendered table is one finished table. */
  lemma TableIsTable(header: string, launch: Launch)
    requires IsHeader(header)
    ensures IsTable(Table(header, launch), header)
  {
    var args := ArgLines(launch.args) + "]\n";
    ArgLinesPlain(launch.args);
    assert OneLine("args = [") && !OpensTable("args = [");
    PlainLine("args = [", args);
    CommandLinePlain(launch.command);
    PlainLine(CommandLine(launch.command), "args = [" + "\n" + args);
    HeaderNamesItself(header);
    FirstLineIs("[" + header + "]", TableBody(launch));
    TableEnds(header, launch);
  }
}

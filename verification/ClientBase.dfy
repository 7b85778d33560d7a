/**
 What every client adapter shares: the launch a registration describes, the fingerprint that
 recognizes it, and the plan made from what the client's store already holds. The hash behind a
 fingerprint is a parameter; nothing is assumed of it except where a lemma says so.
 */
module ClientBase {
  import opened Common

  datatype Launch = Launch(command: string, args: seq<string>)

  datatype Registration = Registration(name: string, command: string, configPath: string)

  function LaunchOf(registration: Registration): Launch {
    Launch(registration.command, ["serve", "--transport", "stdio", "--config", registration.configPath])
  }

  /** An entry's command as its store holds it: missing (or null), a string, or some other value. */
  datatype Command = NoCommand | CommandText(text: string) | OddCommand

  datatype Entry = Entry(name: string, command: Command, args: seq<string>)

  function Argv(launch: Launch): seq<string> {
    [launch.command] + launch.args
  }

  /** The parts with a NUL between each two. */
  function JoinNul(parts: seq<string>): string {
    if parts == [] then "" else if |parts| == 1 then parts[0] else parts[0] + "\0" + JoinNul(parts[1..])
  }

  datatype Fingerprint = NoFingerprint | Digest(value: string) | TypeError

  function LaunchDigest(launch: Launch, hash: string -> string): string {
    hash(JoinNul(Argv(launch)))
  }

  /** Joining a command that is not a string is a type error. */
  function FingerprintOf(entry: Entry, hash: string -> string): Fingerprint {
    match entry.command
    case NoCommand => NoFingerprint
    case CommandText(text) => Digest(LaunchDigest(Launch(text, entry.args), hash))
    case OddCommand => TypeError
  }

  datatype Ownership = Ours | Foreign | Unknown

  function Classify(digest: Fingerprint, wanted: string, owned: set<string>): Result<Ownership, Fingerprint> {
    match digest
    case NoFingerprint => Ok(Unknown)
    case Digest(value) => Ok(if value in owned || value == wanted then Ours else Foreign)
    case TypeError => Err(TypeError)
  }

  datatype ActionKind = AddServer | UpdateServer | ReplaceServer

  datatype RegistrationPlan = RegistrationPlan(
    registration: Registration, actions: seq<ActionKind>, conflicts: seq<Entry>, takeover: seq<Entry>)
  {
    predicate Blocked() { conflicts != [] }
    predicate ChangesNothing() { actions == [] }
  }

  /** What registering would do, given the entry the store has under that name. */
  function PlanFor(
    registration: Registration, current: Option<Entry>, owned: set<string>, takeover: bool, hash: string -> string)
    : Result<RegistrationPlan, Fingerprint>
  {
    if current.None? then Ok(RegistrationPlan(registration, [AddServer], [], []))
    else
      var wanted := LaunchDigest(LaunchOf(registration), hash);
      var digest := FingerprintOf(current.value, hash);
      match Classify(digest, wanted, owned)
      case Err(error) => Err(error)
      case Ok(Ours) =>
        Ok(RegistrationPlan(registration, if digest == Digest(wanted) then [] else [UpdateServer], [], []))
      case Ok(_) =>
        if takeover then Ok(RegistrationPlan(registration, [ReplaceServer], [], [current.value]))
        else Ok(RegistrationPlan(registration, [], [current.value], []))
  }

  /** The entry launches exactly what the registration describes. */
  predicate Launches(entry: Entry, launch: Launch) {
    entry.command == CommandText(launch.command) && entry.args == launch.args
  }

  /** No two launches met here share a digest: neither the hash nor the joining confuses them. */
  predicate Distinguishes(hash: string -> string, entry: Entry, launch: Launch) {
    entry.command.CommandText?
      && LaunchDigest(Launch(entry.command.text, entry.args), hash) == LaunchDigest(launch, hash)
    ==> Launches(entry, launch)
  }

  // ---------------------------------------------------------------- what a plan can be

  /**
   A plan without actions or conflicts means the store already launches the registration's digest,
   whatever is owned and whatever may be taken over.
   */
  lemma NothingToDoIff(
    registration: Registration, current: Option<Entry>, owned: set<string>, takeover: bool, hash: string -> string)
    ensures var plan := PlanFor(registration, current, owned, takeover, hash);
            (plan.Ok? && plan.value.ChangesNothing() && !plan.value.Blocked())
            <==> (current.Some?
              && FingerprintOf(current.value, hash) == Digest(LaunchDigest(LaunchOf(registration), hash)))
  {
  }

  /** An entry that launches the registration needs nothing, whatever is owned or may be taken over. */
  lemma LaunchedNeedsNothing(
    registration: Registration, entry: Entry, owned: set<string>, takeover: bool, hash: string -> string)
    requires Launches(entry, LaunchOf(registration))
    ensures PlanFor(registration, Some(entry), owned, takeover, hash) == Ok(RegistrationPlan(registration, [], [], []))
  {
  }

  /** The plan is blocked exactly when an entry is there, is not recognized, and may not be taken over. */
  lemma BlockedIff(
    registration: Registration, current: Option<Entry>, owned: set<string>, takeover: bool, hash: string -> string)
    ensures var plan := PlanFor(registration, current, owned, takeover, hash);
            var wanted := LaunchDigest(LaunchOf(registration), hash);
            (plan.Ok? && plan.value.Blocked())
            <==> (current.Some? && !takeover &&
                  match FingerprintOf(current.value, hash)
                  case NoFingerprint => true
                  case Digest(value) => value !in owned && value != wanted
                  case TypeError => false)
  {
  }

  // ---------------------------------------------------------------- a store as a map from name to launch

  /** Registering a server, anew or over what is there, or removing it. */
  datatype Change = Add(name: string, launch: Launch) | Drop(name: string)

  /** The last change that names `asked`, if any. */
  function LastAbout(changes: seq<Change>, asked: string): Option<Change> {
    if changes == [] then None
    else if changes[|changes| - 1].name == asked then Some(changes[|changes| - 1])
    else LastAbout(changes[..|changes| - 1], asked)
  }

  /** What a map holds under `asked` after the changes, when it held `original` before them. */
  function HeldAfter<V>(
    original: Option<V>, changes: seq<Change>, asked: string, held: Launch -> Option<V>): Option<V>
  {
    match LastAbout(changes, asked)
    case None => original
    case Some(Add(_, launch)) => held(launch)
    case Some(Drop(_)) => None
  }

  // ---------------------------------------------------------------- what the joining tells apart

  predicate NulFree(s: string) {
    forall i :: 0 <= i < |s| ==> s[i] != '\0'
  }

  predicate AllNulFree(parts: seq<string>) {
    forall i :: 0 <= i < |parts| ==> NulFree(parts[i])
  }

  function UpToNul(s: string): (n: nat)
    ensures n <= |s|
  {
    if s == "" || s[0] == '\0' then 0 else 1 + UpToNul(s[1..])
  }

  lemma {:induction false} UpToNulIs(part: string, rest: string)
    requires NulFree(part)
    ensures UpToNul(part + rest) == |part| + UpToNul(rest)
  {
    if part == "" {
      assert part + rest == rest;
    } else {
      assert (part + rest)[1..] == part[1..] + rest;
      UpToNulIs(part[1..], rest);
    }
  }

  lemma JoinedShape(parts: seq<string>)
    requires parts != [] && NulFree(parts[0])
    ensures UpToNul(JoinNul(parts)) == |parts[0]| && JoinNul(parts)[..|parts[0]|] == parts[0]
    ensures |parts| == 1 <==> |JoinNul(parts)| == |parts[0]|
    ensures |parts| > 1 ==> JoinNul(parts)[|parts[0]| + 1..] == JoinNul(parts[1..])
  {
    if |parts| == 1 {
      assert parts[0] + "" == parts[0];
      UpToNulIs(parts[0], "");
    } else {
      var rest := "\0" + JoinNul(parts[1..]);
      assert JoinNul(parts) == parts[0] + rest;
      UpToNulIs(parts[0], rest);
    }
  }

  /** Argument lists without NUL characters, such as every list of paths and options, join to different strings. */
  lemma {:induction false} JoinInjective(first: seq<string>, second: seq<string>)
    requires first != [] && second != [] && AllNulFree(first) && AllNulFree(second)
    requires JoinNul(first) == JoinNul(second)
    ensures first == second
  {
    JoinedShape(first);
    JoinedShape(second);
    assert first[0] == second[0];
    assert first == [first[0]] + first[1..] && second == [second[0]] + second[1..];
    if |first| > 1 {
      JoinInjective(first[1..], second[1..]);
    }
  }

  // ---------------------------------------------------------------- exactly when two lists join alike

  /** A part cut at its NUL characters, at least one piece. */
  function SplitNul(part: string): (pieces: seq<string>)
    ensures pieces != []
  {
    var n := UpToNul(part);
    if n == |part| then [part] else [part[..n]] + SplitNul(part[n + 1..])
  }

  function Pieces(parts: seq<string>): seq<string> {
    if parts == [] then [] else SplitNul(parts[0]) + Pieces(parts[1..])
  }

  /** Into how many pieces each part falls. */
  function Counts(parts: seq<string>): seq<nat> {
    if parts == [] then [] else [|SplitNul(parts[0])|] + Counts(parts[1..])
  }

  lemma {:induction false} UpToNulFree(part: string)
    ensures NulFree(part[..UpToNul(part)]) && (UpToNul(part) < |part| ==> part[UpToNul(part)] == '\0')
  {
    if part != "" && part[0] != '\0' {
      UpToNulFree(part[1..]);
      assert part[..UpToNul(part)] == [part[0]] + part[1..][..UpToNul(part[1..])];
    }
  }

  lemma JoinCons(head: string, tail: seq<string>)
    requires tail != []
    ensures JoinNul([head] + tail) == head + "\0" + JoinNul(tail)
  {
    assert ([head] + tail)[1..] == tail;
  }

  lemma {:induction false} SplitJoins(part: string)
    ensures JoinNul(SplitNul(part)) == part && AllNulFree(SplitNul(part))
    decreases |part|
  {
    var n := UpToNul(part);
    UpToNulFree(part);
    if n == |part| {
      assert part[..n] == part;
    } else {
      SplitJoins(part[n + 1..]);
      JoinCons(part[..n], SplitNul(part[n + 1..]));
      assert part == part[..n] + "\0" + part[n + 1..];
    }
  }

  lemma {:induction false} JoinConcat(first: seq<string>, second: seq<string>)
    requires first != [] && second != []
    ensures JoinNul(first + second) == JoinNul(first) + "\0" + JoinNul(second)
  {
    if |first| == 1 {
      assert first + second == [first[0]] + second;
      JoinCons(first[0], second);
    } else {
      assert first + second == [first[0]] + (first[1..] + second);
      assert first == [first[0]] + first[1..];
      JoinConcat(first[1..], second);
      JoinCons(first[0], first[1..] + second);
      JoinCons(first[0], first[1..]);
    }
  }

  lemma {:induction false} PiecesJoin(parts: seq<string>)
    requires parts != []
    ensures Pieces(parts) != [] && JoinNul(Pieces(parts)) == JoinNul(parts) && AllNulFree(Pieces(parts))
  {
    SplitJoins(parts[0]);
    if |parts| == 1 {
      assert Pieces(parts) == SplitNul(parts[0]);
    } else {
      PiecesJoin(parts[1..]);
      JoinConcat(SplitNul(parts[0]), Pieces(parts[1..]));
    }
  }

  /** Two lists join to one string exactly when they fall into the same pieces. */
  lemma JoinAlikeIff(first: seq<string>, second: seq<string>)
    requires first != [] && second != []
    ensures JoinNul(first) == JoinNul(second) <==> Pieces(first) == Pieces(second)
  {
    PiecesJoin(first);
    PiecesJoin(second);
    if JoinNul(first) == JoinNul(second) {
      JoinInjective(Pieces(first), Pieces(second));
    }
  }

  lemma {:induction false} PiecesAndCounts(first: seq<string>, second: seq<string>)
    requires Pieces(first) == Pieces(second) && Counts(first) == Counts(second)
    ensures first == second
  {
    if first != [] && second != [] {
      var n := |SplitNul(first[0])|;
      assert Counts(first)[0] == n && Counts(second)[0] == |SplitNul(second[0])|;
      assert Pieces(first)[..n] == SplitNul(first[0]) && Pieces(first)[n..] == Pieces(first[1..]);
      assert Pieces(second)[..n] == SplitNul(second[0]) && Pieces(second)[n..] == Pieces(second[1..]);
      assert Counts(first)[1..] == Counts(first[1..]) && Counts(second)[1..] == Counts(second[1..]);
      SplitJoins(first[0]);
      SplitJoins(second[0]);
      PiecesAndCounts(first[1..], second[1..]);
      assert first == [first[0]] + first[1..] && second == [second[0]] + second[1..];
    }
  }

  /** So a joined string identifies a list exactly among the lists whose parts hold as many NULs each. */
  lemma SameListIff(first: seq<string>, second: seq<string>)
    requires first != [] && second != []
    ensures first == second <==> JoinNul(first) == JoinNul(second) && Counts(first) == Counts(second)
  {
    JoinAlikeIff(first, second);
    if JoinNul(first) == JoinNul(second) && Counts(first) == Counts(second) {
      PiecesAndCounts(first, second);
    }
  }

  lemma {:induction false} NulFreePieces(parts: seq<string>)
    requires AllNulFree(parts)
    ensures Pieces(parts) == parts
  {
    if parts != [] {
      UpToNulIs(parts[0], "");
      assert parts[0] + "" == parts[0];
      NulFreePieces(parts[1..]);
      assert parts == [parts[0]] + parts[1..];
    }
  }

  function EntryArgv(entry: Entry): seq<string>
    requires entry.command.CommandText?
  {
    Argv(Launch(entry.command.text, entry.args))
  }

  /** The hash tells the two joined strings of a comparison apart. */
  predicate NoHashCollision(hash: string -> string, entry: Entry, launch: Launch) {
    entry.command.CommandText? && hash(JoinNul(EntryArgv(entry))) == hash(JoinNul(Argv(launch)))
    ==> JoinNul(EntryArgv(entry)) == JoinNul(Argv(launch))
  }

  lemma LaunchesIffArgv(entry: Entry, launch: Launch)
    requires entry.command.CommandText?
    ensures Launches(entry, launch) <==> EntryArgv(entry) == Argv(launch)
  {
    if EntryArgv(entry) == Argv(launch) {
      assert EntryArgv(entry)[0] == Argv(launch)[0];
      assert EntryArgv(entry)[1..] == entry.args && Argv(launch)[1..] == launch.args;
    }
  }

  /**
   Where the code compares an entry with a registration, the fingerprint tells them apart exactly
   unless the entry's parts merge or cut the registration's at a NUL: the same pieces in other parts.
   */
  lemma FingerprintTellsIff(hash: string -> string, entry: Entry, launch: Launch)
    requires entry.command.CommandText? && NoHashCollision(hash, entry, launch)
    ensures Distinguishes(hash, entry, launch) <==>
              (Pieces(EntryArgv(entry)) == Pieces(Argv(launch)) ==> EntryArgv(entry) == Argv(launch))
  {
    JoinAlikeIff(EntryArgv(entry), Argv(launch));
    LaunchesIffArgv(entry, launch);
  }

  /** In particular it does whenever neither holds a NUL, as no path does. */
  lemma NulFreeDistinguishes(hash: string -> string, entry: Entry, launch: Launch)
    requires entry.command.CommandText? && NoHashCollision(hash, entry, launch)
    requires AllNulFree(EntryArgv(entry)) && AllNulFree(Argv(launch))
    ensures Distinguishes(hash, entry, launch)
  {
    NulFreePieces(EntryArgv(entry));
    NulFreePieces(Argv(launch));
    FingerprintTellsIff(hash, entry, launch);
  }

  /** An entry with a NUL where the registration has a boundary, as a client's file may hold. */
  function MergedEntry(registration: Registration): Entry {
    Entry(registration.name, CommandText(registration.command + "\0" + "serve"), LaunchOf(registration).args[1..])
  }

  /**
   Every registration has such an entry: it launches something else, and yet planning takes it for
   the registration and finds nothing to do, whatever the hash, the ownership and the takeover flag.
   */
  lemma MergedEntryIsMistaken(registration: Registration, owned: set<string>, takeover: bool, hash: string -> string)
    ensures !Launches(MergedEntry(registration), LaunchOf(registration))
    ensures PlanFor(registration, Some(MergedEntry(registration)), owned, takeover, hash)
              == Ok(RegistrationPlan(registration, [], [], []))
  {
    var args := LaunchOf(registration).args;
    var merged := registration.command + "\0" + "serve";
    var rest := args[1..];
    assert args == ["serve"] + rest && rest != [];
    assert |merged| != |registration.command|;
    JoinCons(merged, rest);
    JoinCons(registration.command, args);
    JoinCons("serve", rest);
    assert merged + "\0" + JoinNul(rest) == registration.command + "\0" + ("serve" + "\0" + JoinNul(rest));
    assert EntryArgv(MergedEntry(registration)) == [merged] + rest;
    assert LaunchDigest(Launch(merged, rest), hash) == LaunchDigest(LaunchOf(registration), hash);
  }
}

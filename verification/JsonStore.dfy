/**
 The JSON client adapter: one entry in an object at a configurable key path of the client's
 document, planned for, written, read back and removed.
 */
module JsonStores {
  import opened Common
  import opened ClientBase
  import opened JsonTree

  // ---------------------------------------------------------------- entries

  function Texts(args: seq<string>): seq<Json> {
    seq(|args|, i requires 0 <= i < |args| => Text(args[i]))
  }

  /** What is written for a launch. */
  function EntryJson(launch: Launch): Json {
    Object(Field("command", Text(launch.command), Field("args", Array(Texts(launch.args)), End)))
  }

  predicate AllText(items: seq<Json>) {
    forall i :: 0 <= i < |items| ==> items[i].Text?
  }

  /** A list of strings, or nothing when it is anything else. */
  function ParseArgv(value: Option<Json>): seq<string> {
    match value
    case Some(Array(items)) => if AllText(items) then seq(|items|, i requires 0 <= i < |items| => items[i].text) else []
    case _ => []
  }

  function ReadCommand(value: Option<Json>): Command {
    match value
    case None => NoCommand
    case Some(Null) => NoCommand
    case Some(Text(text)) => CommandText(text)
    case Some(_) => OddCommand
  }

  function ReadEntry(name: string, value: Json): Entry {
    match value
    case Object(fields) => Entry(name, ReadCommand(Find(fields, "command")), ParseArgv(Find(fields, "args")))
    case _ => Entry(name, NoCommand, [])
  }

  /** The servers as the reading walk finds them: none when anything on the way is not an object. */
  function Servers(document: Fields, path: seq<string>): Fields {
    match ObjectAt(document, path)
    case Some(fields) => fields
    case None => End
  }

  function Inventory(servers: Fields): seq<Entry> {
    match servers
    case End => []
    case Field(name, value, rest) => [ReadEntry(name, value)] + Inventory(rest)
  }

  function FirstNamed(entries: seq<Entry>, name: string): Option<Entry> {
    if entries == [] then None
    else if entries[0].name == name then Some(entries[0])
    else FirstNamed(entries[1..], name)
  }

  function Readback(document: Fields, path: seq<string>, name: string): Option<Entry> {
    FirstNamed(Inventory(Servers(document, path)), name)
  }

  /** The inventory lists each server as the document has it. */
  lemma {:induction false} InventoryFinds(servers: Fields, name: string)
    ensures FirstNamed(Inventory(servers), name) ==
            match Find(servers, name)
            case None => None
            case Some(value) => Some(ReadEntry(name, value))
  {
    if servers.Field? {
      InventoryFinds(servers.rest, name);
      var entries := Inventory(servers);
      assert entries[0] == ReadEntry(servers.key, servers.value) && entries[1..] == Inventory(servers.rest);
    }
  }

  /** What is written for a launch reads back as that launch. */
  lemma EntryReadsBack(name: string, launch: Launch)
    ensures ReadEntry(name, EntryJson(launch)) == Entry(name, CommandText(launch.command), launch.args)
  {
    var fields := EntryJson(launch).fields;
    assert Find(fields, "command") == Some(Text(launch.command));
    assert Find(fields, "args") == Some(Array(Texts(launch.args))) by {
      assert "command"[0] != "args"[0];
    }
    assert AllText(Texts(launch.args));
    assert ParseArgv(Find(fields, "args")) == launch.args;
  }

  // ---------------------------------------------------------------- planning and applying

  function Planned(
    document: Fields, path: seq<string>, registration: Registration, owned: set<string>, takeover: bool,
    hash: string -> string)
    : Result<RegistrationPlan, Fingerprint>
  {
    PlanFor(registration, Readback(document, path, registration.name), owned, takeover, hash)
  }

  datatype StoreError = ClientConflict | ClientUnsupported | KeyInTheWay(key: string) | WriteFailed

  /** The document a plan leaves, when it can be carried out. */
  function Applied(document: Fields, path: seq<string>, plan: RegistrationPlan): Result<Fields, StoreError> {
    if plan.Blocked() then Err(ClientConflict)
    else if plan.ChangesNothing() then Ok(document)
    else
      match Inserted(document, path, plan.registration.name, EntryJson(LaunchOf(plan.registration)))
      case Err(key) => Err(KeyInTheWay(key))
      case Ok(changed) => Ok(changed)
  }

  /** After a change was applied the registration's entry reads back with its exact launch vector. */
  lemma AppliedReadsBack(document: Fields, path: seq<string>, plan: RegistrationPlan)
    requires !plan.ChangesNothing() && Applied(document, path, plan).Ok?
    ensures var registration := plan.registration;
            Readback(Applied(document, path, plan).value, path, registration.name)
            == Some(Entry(registration.name, CommandText(registration.command), LaunchOf(registration).args))
  {
    var name, launch := plan.registration.name, LaunchOf(plan.registration);
    InsertedIsThere(document, path, name, EntryJson(launch));
    InventoryFinds(Servers(Applied(document, path, plan).value, path), name);
    EntryReadsBack(name, launch);
  }

  /**
   Registering is refused as a conflict exactly when the document has an entry of that name whose
   launch is neither recorded as owned nor the registration's, and no takeover is allowed.
   */
  lemma ConflictIff(
    document: Fields, path: seq<string>, registration: Registration, owned: set<string>, takeover: bool,
    hash: string -> string)
    ensures var planned := Planned(document, path, registration, owned, takeover, hash);
            var value := Find(Servers(document, path), registration.name);
            (planned.Ok? && Applied(document, path, planned.value) == Err(ClientConflict))
            <==> (value.Some? && !takeover &&
                  match ReadEntry(registration.name, value.value).command
                  case NoCommand => true
                  case CommandText(text) =>
                    var digest := LaunchDigest(Launch(text, ReadEntry(registration.name, value.value).args), hash);
                    digest !in owned && digest != LaunchDigest(LaunchOf(registration), hash)
                  case OddCommand => false)
  {
    InventoryFinds(Servers(document, path), registration.name);
    BlockedIff(registration, Readback(document, path, registration.name), owned, takeover, hash);
  }

  /**
   Once a plan was carried out, planning the same registration again finds nothing to do, whatever
   is owned by then and whether or not a takeover is allowed.
   */
  lemma NextPlanIsEmpty(document: Fields, path: seq<string>, registration: Registration,
                        owned: set<string>, takeover: bool, hash: string -> string,
                        nextOwned: set<string>, nextTakeover: bool)
    requires Planned(document, path, registration, owned, takeover, hash).Ok?
    requires Applied(document, path, Planned(document, path, registration, owned, takeover, hash).value).Ok?
    ensures var changed := Applied(document, path,
              Planned(document, path, registration, owned, takeover, hash).value).value;
            Planned(changed, path, registration, nextOwned, nextTakeover, hash)
              == Ok(RegistrationPlan(registration, [], [], []))
  {
    var current := Readback(document, path, registration.name);
    var plan := Planned(document, path, registration, owned, takeover, hash).value;
    if plan.ChangesNothing() {
      NothingToDoIff(registration, current, owned, takeover, hash);
    } else {
      AppliedReadsBack(document, path, plan);
    }
  }

  /**
   After a plan was carried out the client launches the registration, unless the plan found nothing
   to do because another launch has the same fingerprint.
   */
  lemma LaunchesUnlessCollision(document: Fields, path: seq<string>, registration: Registration,
                                owned: set<string>, takeover: bool, hash: string -> string)
    requires Planned(document, path, registration, owned, takeover, hash).Ok?
    requires Applied(document, path, Planned(document, path, registration, owned, takeover, hash).value).Ok?
    ensures var changed := Applied(document, path,
              Planned(document, path, registration, owned, takeover, hash).value).value;
            var current := Readback(document, path, registration.name);
            var after := Readback(changed, path, registration.name);
            var acted := !Planned(document, path, registration, owned, takeover, hash).value.ChangesNothing();
            && after.Some?
            && (Launches(after.value, LaunchOf(registration)) <==>
               acted || Distinguishes(hash, current.value, LaunchOf(registration)))
  {
    var current := Readback(document, path, registration.name);
    var plan := Planned(document, path, registration, owned, takeover, hash).value;
    if plan.ChangesNothing() {
      NothingToDoIff(registration, current, owned, takeover, hash);
    } else {
      AppliedReadsBack(document, path, plan);
    }
  }

  /**
   With a registration and an entry free of NULs and no collision of the hash, the client always
   launches the registration.
   */
  lemma LaunchesTheRegistration(document: Fields, path: seq<string>, registration: Registration,
                                owned: set<string>, takeover: bool, hash: string -> string)
    requires Planned(document, path, registration, owned, takeover, hash).Ok?
    requires Applied(document, path, Planned(document, path, registration, owned, takeover, hash).value).Ok?
    requires var current := Readback(document, path, registration.name);
             current.Some? && current.value.command.CommandText? ==>
             && NoHashCollision(hash, current.value, LaunchOf(registration))
             && AllNulFree(EntryArgv(current.value)) && AllNulFree(Argv(LaunchOf(registration)))
    ensures var changed := Applied(document, path,
              Planned(document, path, registration, owned, takeover, hash).value).value;
            var after := Readback(changed, path, registration.name);
            after.Some? && Launches(after.value, LaunchOf(registration))
  {
    var current := Readback(document, path, registration.name);
    if current.Some? && current.value.command.CommandText? {
      NulFreeDistinguishes(hash, current.value, LaunchOf(registration));
    }
    LaunchesUnlessCollision(document, path, registration, owned, takeover, hash);
  }

  /** Applying a plan leaves every place off the edited path, and the order of keys along it, alone. */
  lemma AppliedKeepsRest(document: Fields, path: seq<string>, plan: RegistrationPlan, other: seq<string>, level: nat)
    requires Applied(document, path, plan).Ok? && level <= |path|
    requires other != [] && !(other <= path + [plan.registration.name]) && !(path + [plan.registration.name] <= other)
    ensures var changed := Applied(document, path, plan).value;
            && At(changed, other) == At(document, other)
            && (KeysAt(changed, path[..level]) == KeysAt(document, path[..level])
                || KeysAt(changed, path[..level])
                   == KeysAt(document, path[..level]) + [(path + [plan.registration.name])[level]])
  {
    if !plan.ChangesNothing() {
      var name, value := plan.registration.name, EntryJson(LaunchOf(plan.registration));
      InsertedKeepsOthers(document, path, name, value, other);
      InsertedKeepsOrder(document, path, name, value, level);
    }
  }

  /** Another server's readback is what it was. */
  lemma OtherServersKept(document: Fields, path: seq<string>, plan: RegistrationPlan, other: string)
    requires Applied(document, path, plan).Ok? && other != plan.registration.name
    ensures Readback(Applied(document, path, plan).value, path, other) == Readback(document, path, other)
  {
    if !plan.ChangesNothing() {
      var name, value := plan.registration.name, EntryJson(LaunchOf(plan.registration));
      var changed := Applied(document, path, plan).value;
      var asked := path + [other];
      assert asked[|path|] != (path + [name])[|path|];
      InsertedKeepsOthers(document, path, name, value, asked);
      InsertedIsThere(document, path, name, value);
      AtServer(document, path, other);
      AtServer(changed, path, other);
      InventoryFinds(Servers(document, path), other);
      InventoryFinds(Servers(changed, path), other);
    }
  }

  lemma {:induction false} AtServer(document: Fields, path: seq<string>, name: string)
    ensures At(document, path + [name]) == Find(Servers(document, path), name)
    decreases |path|
  {
    if path != [] {
      PathStep(path, name);
      var value := Find(document, path[0]);
      if value.Some? && value.value.Object? {
        AtServer(value.value.fields, path[1..], name);
      }
    }
  }

  /** Removing what was newly added restores the document exactly when the key path was there. */
  lemma RemoveUndoesAddIff(
    document: Fields, path: seq<string>, registration: Registration, owned: set<string>, takeover: bool,
    hash: string -> string)
    requires Readback(document, path, registration.name).None?
    requires Applied(document, path, Planned(document, path, registration, owned, takeover, hash).value).Ok?
    ensures var changed := Applied(document, path,
              Planned(document, path, registration, owned, takeover, hash).value).value;
            (Removed(changed, path, registration.name) == document) <==> ObjectAt(document, path).Some?
  {
    InventoryFinds(Servers(document, path), registration.name);
    RemoveRestoresIff(document, path, registration.name, EntryJson(LaunchOf(registration)));
  }

  /** Removing a server leaves every place off its own alone, and all keys in their order. */
  lemma RemovedKeepsRest(document: Fields, path: seq<string>, name: string, other: seq<string>, level: nat)
    requires Readback(document, path, name).Some? && UniqueKeys(Servers(document, path)) && level <= |path|
    requires other != [] && !(other <= path + [name]) && !(path + [name] <= other)
    ensures var changed := Removed(document, path, name);
            && At(changed, other) == At(document, other)
            && KeysAt(changed, path[..level])
               == if level == |path| then WithoutKey(KeysAt(document, path[..level]), name)
                  else KeysAt(document, path[..level])
  {
    InventoryFinds(Servers(document, path), name);
    RemovedKeepsOthers(document, path, name, other);
    RemovedKeepsOrder(document, path, name, level);
  }

  // ---------------------------------------------------------------- runs of registrations and removals

  /** A server is written where the walk succeeds; a removal of a server that is not there changes nothing. */
  function AfterChange(document: Fields, path: seq<string>, change: Change): Fields {
    match change
    case Add(name, launch) =>
      var inserted := Inserted(document, path, name, EntryJson(launch));
      if inserted.Ok? then inserted.value else document
    case Drop(name) => if Readback(document, path, name).None? then document else Removed(document, path, name)
  }

  function AfterChanges(document: Fields, path: seq<string>, changes: seq<Change>): Fields {
    if changes == [] then document
    else AfterChange(AfterChanges(document, path, changes[..|changes| - 1]), path, changes[|changes| - 1])
  }

  /** Nothing on the key path is in the way of a registration. */
  predicate Open(document: Fields, path: seq<string>) {
    Inserted(document, path, "", Null).Ok?
  }

  lemma AfterChangeServers(document: Fields, path: seq<string>, change: Change)
    requires Open(document, path)
    ensures Open(AfterChange(document, path, change), path)
    ensures Servers(AfterChange(document, path, change), path) ==
            match change
            case Add(name, launch) => Put(Servers(document, path), name, EntryJson(launch))
            case Drop(name) =>
              if Find(Servers(document, path), name).None? then Servers(document, path)
              else Without(Servers(document, path), name)
  {
    match change {
      case Add(name, launch) =>
        InsertsAlike(document, path, "", Null, name, EntryJson(launch));
        InsertedObject(document, path, name, EntryJson(launch));
        ObjectAdmits(AfterChange(document, path, change), path, "", Null);
      case Drop(name) =>
        InventoryFinds(Servers(document, path), name);
        if Find(Servers(document, path), name).Some? {
          RemovedObject(document, path, name);
          ObjectAdmits(AfterChange(document, path, change), path, "", Null);
        }
    }
  }

  lemma AfterChangeReads(document: Fields, path: seq<string>, change: Change, asked: string)
    requires Open(document, path) && UniqueKeys(Servers(document, path))
    ensures UniqueKeys(Servers(AfterChange(document, path, change), path))
    ensures Readback(AfterChange(document, path, change), path, asked) ==
            if change.name != asked then Readback(document, path, asked)
            else if change.Add? then Some(Entry(asked, CommandText(change.launch.command), change.launch.args))
            else None
  {
    var servers := Servers(document, path);
    AfterChangeServers(document, path, change);
    InventoryFinds(servers, asked);
    InventoryFinds(Servers(AfterChange(document, path, change), path), asked);
    match change {
      case Add(name, launch) =>
        PutThenFind(servers, name, EntryJson(launch), asked);
        PutUnique(servers, name, EntryJson(launch));
        EntryReadsBack(name, launch);
      case Drop(name) =>
        WithoutThenFind(servers, name, asked);
        WithoutUnique(servers, name);
    }
  }

  /** The entry that a registered launch reads back as. */
  function EntryNamed(name: string): Launch -> Option<Entry> {
    (launch: Launch) => Some(Entry(name, CommandText(launch.command), launch.args))
  }

  /**
   Over any run of registrations and removals the document is a map from server to entry: a server
   last registered has exactly that launch, one last removed has none, and one never named has the
   entry it had.
   */
  lemma {:induction false} RunIsMapUpdate(document: Fields, path: seq<string>, changes: seq<Change>, asked: string)
    requires Open(document, path) && UniqueKeys(Servers(document, path))
    ensures Open(AfterChanges(document, path, changes), path)
    ensures UniqueKeys(Servers(AfterChanges(document, path, changes), path))
    ensures Readback(AfterChanges(document, path, changes), path, asked)
         == HeldAfter(Readback(document, path, asked), changes, asked, EntryNamed(asked))
  {
    if changes != [] {
      var n := |changes| - 1;
      RunIsMapUpdate(document, path, changes[..n], asked);
      var earlier := AfterChanges(document, path, changes[..n]);
      AfterChangeServers(earlier, path, changes[n]);
      AfterChangeReads(earlier, path, changes[n], asked);
    }
  }

  /** Where something is in the way, no run changes anything. */
  lemma {:induction false} ObstructedRunIsIdle(document: Fields, path: seq<string>, changes: seq<Change>)
    requires !Open(document, path)
    ensures AfterChanges(document, path, changes) == document
  {
    if changes != [] {
      ObstructedRunIsIdle(document, path, changes[..|changes| - 1]);
      match changes[|changes| - 1] {
        case Add(name, launch) => InsertsAlike(document, path, "", Null, name, EntryJson(launch));
        case Drop(name) =>
          if ObjectAt(document, path).Some? { ObjectAdmits(document, path, "", Null); }
          InventoryFinds(Servers(document, path), name);
      }
    }
  }

  // ---------------------------------------------------------------- the adapter

  /** The client's file: none yet (or blank), one that may not be edited, or a document. */
  datatype ClientFile = NoFile | Unusable | Document(fields: Fields)

  function DocumentOf(file: ClientFile): Fields {
    if file.Document? then file.fields else End
  }

  class JsonMcpServersAdapter {
    const keyPath: seq<string>
    var file: ClientFile

    constructor (keyPath: seq<string>, file: ClientFile)
      ensures this.keyPath == keyPath && this.file == file
    {
      this.keyPath := keyPath;
      this.file := file;
    }

    /** Walks down the key path without creating anything. */
    method FindServers(document: Fields) returns (servers: Fields)
      ensures servers == Servers(document, keyPath)
    {
      var node, i := document, 0;
      while i < |keyPath|
        invariant i <= |keyPath|
        invariant ObjectAt(document, keyPath) == ObjectAt(node, keyPath[i..])
      {
        assert keyPath[i..][1..] == keyPath[i + 1..];
        match Find(node, keyPath[i]) {
          case Some(Object(child)) => node := child;
          case _ => return End;
        }
        i := i + 1;
      }
      return node;
    }

    method Apply(plan: RegistrationPlan, writes: bool) returns (r: Result<(), StoreError>)
      modifies this`file
      ensures plan.Blocked() ==> r == Err(ClientConflict)
      ensures r.Err? || plan.ChangesNothing() ==> file == old(file)
      ensures r.Ok? <==> !plan.Blocked() && (plan.ChangesNothing()
                         || (writes && !old(file).Unusable? && Applied(old(DocumentOf(file)), keyPath, plan).Ok?))
      ensures r.Ok? && !plan.ChangesNothing() ==>
        file.Document? && Applied(old(DocumentOf(file)), keyPath, plan) == Ok(file.fields)
    {
      if plan.Blocked() {
        return Err(ClientConflict);
      }
      if plan.ChangesNothing() {
        return Ok(());
      }
      if file.Unusable? {
        return Err(ClientUnsupported);
      }
      match Inserted(DocumentOf(file), keyPath, plan.registration.name, EntryJson(LaunchOf(plan.registration))) {
        case Err(key) => return Err(KeyInTheWay(key));
        case Ok(changed) =>
          if !writes {
            return Err(WriteFailed);
          }
          file := Document(changed);
          return Ok(());
      }
    }

    method Remove(name: string, writes: bool) returns (r: Result<bool, StoreError>)
      modifies this`file
      ensures r.Err? || !r.value ==> file == old(file)
      ensures r.Ok? ==> (r.value <==> Readback(old(DocumentOf(file)), keyPath, name).Some?)
      ensures r == Ok(true) ==> file == Document(Removed(old(DocumentOf(file)), keyPath, name))
      ensures r.Err? ==> old(file).Unusable? || !writes
    {
      if file.Unusable? {
        return Err(ClientUnsupported);
      }
      var servers := FindServers(DocumentOf(file));
      InventoryFinds(servers, name);
      if Find(servers, name).None? {
        return Ok(false);
      }
      if !writes {
        return Err(WriteFailed);
      }
      file := Document(Removed(DocumentOf(file), keyPath, name));
      return Ok(true);
    }
  }
}

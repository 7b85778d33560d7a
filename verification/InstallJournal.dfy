/**
 The ownership and recovery journal of the desktop installation: what was intended, what was
 observed to finish, and which resources this installation created.
 */
module InstallJournals {
  import opened Common

  /** How many of the latest records survive. */
  const WINDOW: nat := 200

  datatype ResourceKind =
    | ConfigKind
    | CredentialKind
    | ClientRegistrationKind
    | ClientAssetKind
    | CleanupTimerKind
    | TemporaryAudioAreaKind

  datatype PhaseState = Intended | Applied | Failed | Compensated

  datatype OwnedResource = OwnedResource(kind: ResourceKind, identifier: string, fingerprint: Option<string>)

  /** The phases the setup service records. */
  datatype PhaseName = Credentials | Config | CleanupTimer | Engine | Client | Disconnect | Erase

  /** What is noted beside a phase; the text of an error code is kept out of the model. */
  datatype OutcomeCode = ErrorCode | Remove | Removed | ReadbackUnavailable

  datatype PhaseRecord = PhaseRecord(name: PhaseName, state: PhaseState, outcomeCode: Option<OutcomeCode>)

  /** The persistent part of a journal: the document that is saved and loaded. */
  datatype JournalDocument = JournalDocument(
    phases: seq<PhaseRecord>,
    owned: seq<OwnedResource>,
    pendingCleanup: seq<OwnedResource>)

  // ---------------------------------------------------------------- the recovery window

  /** The records that survive when `log` is the complete history. */
  function Window(log: seq<PhaseRecord>): seq<PhaseRecord> {
    if |log| <= WINDOW then log else log[|log| - WINDOW..]
  }

  /** The record at `i` is the last one written under its name. */
  ghost predicate IsLatest(log: seq<PhaseRecord>, i: nat) {
    i < |log| && forall j :: i < j < |log| ==> log[j].name != log[i].name
  }

  predicate Unfinished(record: PhaseRecord) {
    record.state == Intended || record.state == Failed
  }

  /** `record` is the latest under its name, at or after position `from`, and never finished. */
  ghost predicate UnfinishedSince(log: seq<PhaseRecord>, from: int, record: PhaseRecord) {
    exists i: nat :: from <= i && IsLatest(log, i) && log[i] == record && Unfinished(record)
  }

  lemma LatestInSuffix(log: seq<PhaseRecord>, shift: nat, i: nat)
    requires shift <= |log|
    ensures IsLatest(log[shift..], i) <==> IsLatest(log, i + shift)
  {
    var w := log[shift..];
    if IsLatest(w, i) {
      forall j | i + shift < j < |log| ensures log[j].name != log[i + shift].name {
        assert log[j] == w[j - shift];
      }
    }
    if IsLatest(log, i + shift) {
      forall j | i < j < |w| ensures w[j].name != w[i].name {
        assert w[j] == log[j + shift];
      }
    }
  }

  lemma UnfinishedInSuffix(log: seq<PhaseRecord>, shift: nat, record: PhaseRecord)
    requires shift <= |log|
    ensures UnfinishedSince(log[shift..], 0, record) <==> UnfinishedSince(log, shift, record)
  {
    var w := log[shift..];
    if UnfinishedSince(w, 0, record) {
      var i: nat :| IsLatest(w, i) && w[i] == record && Unfinished(record);
      LatestInSuffix(log, shift, i);
      assert IsLatest(log, i + shift) && log[i + shift] == record;
    }
    if UnfinishedSince(log, shift, record) {
      var i: nat :| shift <= i && IsLatest(log, i) && log[i] == record && Unfinished(record);
      LatestInSuffix(log, shift, i - shift);
      assert IsLatest(w, i - shift) && w[i - shift] == record;
    }
  }

  /**
   What the window reports as unfinished is exactly what the whole history leaves unfinished and
   whose latest record is recent enough to be kept; a phase the full history settled never shows.
   */
  lemma WindowReportsRecentUnfinished(log: seq<PhaseRecord>, record: PhaseRecord)
    ensures UnfinishedSince(Window(log), 0, record) <==> UnfinishedSince(log, |log| - WINDOW, record)
  {
    var shift: nat := if |log| <= WINDOW then 0 else |log| - WINDOW;
    assert Window(log) == log[shift..];
    UnfinishedInSuffix(log, shift, record);
    if UnfinishedSince(log, |log| - WINDOW, record) {
      var i: nat :| |log| - WINDOW <= i && IsLatest(log, i) && log[i] == record && Unfinished(record);
      assert shift <= i;
    }
  }

  // ---------------------------------------------------------------- ownership as a map

  datatype ResourceKey = ResourceKey(kind: ResourceKind, identifier: string)

  function KeyOf(resource: OwnedResource): ResourceKey {
    ResourceKey(resource.kind, resource.identifier)
  }

  /** `owned` lists the resources of `registry`, each key exactly once. */
  ghost predicate Represents(owned: seq<OwnedResource>, registry: map<ResourceKey, OwnedResource>) {
    if owned == [] then registry == map[]
    else
      var last := owned[|owned| - 1];
      && KeyOf(last) in registry && registry[KeyOf(last)] == last
      && Represents(owned[..|owned| - 1], registry - {KeyOf(last)})
  }

  lemma RepresentsAppend(owned: seq<OwnedResource>, registry: map<ResourceKey, OwnedResource>, resource: OwnedResource)
    requires Represents(owned, registry) && KeyOf(resource) !in registry
    ensures Represents(owned + [resource], registry[KeyOf(resource) := resource])
  {
    assert (owned + [resource])[..|owned|] == owned;
    assert registry[KeyOf(resource) := resource] - {KeyOf(resource)} == registry;
  }

  /** Each listed resource is the value of its key, so no two of them share a key. */
  lemma {:induction false} RepresentsAt(owned: seq<OwnedResource>, registry: map<ResourceKey, OwnedResource>, i: nat)
    requires Represents(owned, registry) && i < |owned|
    ensures KeyOf(owned[i]) in registry && registry[KeyOf(owned[i])] == owned[i]
  {
    var last := |owned| - 1;
    if i < last {
      RepresentsAt(owned[..last], registry - {KeyOf(owned[last])}, i);
    }
  }

  lemma {:induction false} RepresentsDistinct(
    owned: seq<OwnedResource>, registry: map<ResourceKey, OwnedResource>, i: nat, j: nat)
    requires Represents(owned, registry) && i < j < |owned|
    ensures KeyOf(owned[i]) != KeyOf(owned[j])
  {
    var last := |owned| - 1;
    if j < last {
      RepresentsDistinct(owned[..last], registry - {KeyOf(owned[last])}, i, j);
    } else {
      RepresentsAt(owned[..last], registry - {KeyOf(owned[last])}, i);
    }
  }

  lemma {:induction false} RepresentsKey(
    owned: seq<OwnedResource>, registry: map<ResourceKey, OwnedResource>, key: ResourceKey)
    requires Represents(owned, registry) && key in registry
    ensures exists i :: 0 <= i < |owned| && KeyOf(owned[i]) == key
  {
    var last := |owned| - 1;
    if KeyOf(owned[last]) != key {
      RepresentsKey(owned[..last], registry - {KeyOf(owned[last])}, key);
      var i :| 0 <= i < last && KeyOf(owned[..last][i]) == key;
      assert owned[i] == owned[..last][i];
    }
  }

  /** Popping one entry removes exactly its key. */
  lemma {:induction false} RepresentsPop(
    owned: seq<OwnedResource>, registry: map<ResourceKey, OwnedResource>, index: nat)
    requires Represents(owned, registry) && index < |owned|
    ensures Represents(owned[..index] + owned[index + 1..], registry - {KeyOf(owned[index])})
  {
    var last := |owned| - 1;
    var rest := owned[..index] + owned[index + 1..];
    if index == last {
      assert rest == owned[..last];
    } else {
      var front := owned[..last];
      RepresentsPop(front, registry - {KeyOf(owned[last])}, index);
      RepresentsDistinct(owned, registry, index, last);
      assert rest[..|rest| - 1] == front[..index] + front[index + 1..];
      assert rest[|rest| - 1] == owned[last];
      assert registry - {KeyOf(owned[index])} - {KeyOf(owned[last])}
               == registry - {KeyOf(owned[last])} - {KeyOf(front[index])};
    }
  }

  /** The list without its first resource under `key`. */
  function WithoutFirst(owned: seq<OwnedResource>, key: ResourceKey): seq<OwnedResource> {
    if owned == [] then []
    else if KeyOf(owned[0]) == key then owned[1..]
    else [owned[0]] + WithoutFirst(owned[1..], key)
  }

  function FirstUnder(owned: seq<OwnedResource>, key: ResourceKey): Option<OwnedResource> {
    if owned == [] then None else if KeyOf(owned[0]) == key then Some(owned[0]) else FirstUnder(owned[1..], key)
  }

  /** How often a key is listed. */
  function CountUnder(owned: seq<OwnedResource>, key: ResourceKey): nat {
    if owned == [] then 0 else (if KeyOf(owned[0]) == key then 1 else 0) + CountUnder(owned[1..], key)
  }

  lemma {:induction false} FoundFirst(owned: seq<OwnedResource>, key: ResourceKey, index: nat)
    requires index <= |owned| && (index < |owned| ==> KeyOf(owned[index]) == key)
    requires forall j :: 0 <= j < index ==> KeyOf(owned[j]) != key
    ensures if index < |owned|
            then FirstUnder(owned, key) == Some(owned[index])
                 && WithoutFirst(owned, key) == owned[..index] + owned[index + 1..]
            else FirstUnder(owned, key) == None && WithoutFirst(owned, key) == owned
  {
    if owned != [] && index > 0 {
      assert forall j :: 0 <= j < index - 1 ==> owned[1..][j] == owned[j + 1];
      FoundFirst(owned[1..], key, index - 1);
      assert owned == [owned[0]] + owned[1..];
      if index < |owned| {
        assert owned[..index] + owned[index + 1..] == [owned[0]] + (owned[1..][..index - 1] + owned[1..][index..]);
      }
    }
  }

  lemma DisownedMap(owned: seq<OwnedResource>, registry: map<ResourceKey, OwnedResource>, key: ResourceKey, index: nat)
    requires Represents(owned, registry) && index <= |owned| && (index < |owned| ==> KeyOf(owned[index]) == key)
    requires forall j :: 0 <= j < index ==> KeyOf(owned[j]) != key
    ensures Represents(if index < |owned| then owned[..index] + owned[index + 1..] else owned, registry - {key})
    ensures index < |owned| <==> key in registry
    ensures index < |owned| ==> registry[key] == owned[index]
  {
    FoundIffKey(owned, registry, key, index);
    if index < |owned| {
      RepresentsPop(owned, registry, index);
      RepresentsAt(owned, registry, index);
    } else {
      assert registry - {key} == registry;
    }
  }

  /** Disowning takes one occurrence of its own key away and none of any other. */
  lemma {:induction false} CountWithoutFirst(owned: seq<OwnedResource>, key: ResourceKey, asked: ResourceKey)
    ensures CountUnder(WithoutFirst(owned, key), asked) ==
            if asked == key && CountUnder(owned, asked) > 0 then CountUnder(owned, asked) - 1
            else CountUnder(owned, asked)
  {
    if owned != [] && KeyOf(owned[0]) != key {
      var rest := WithoutFirst(owned[1..], key);
      CountWithoutFirst(owned[1..], key, asked);
      assert ([owned[0]] + rest)[1..] == rest;
    }
  }

  lemma {:induction false} CountAppend(owned: seq<OwnedResource>, resource: OwnedResource, asked: ResourceKey)
    ensures CountUnder(owned + [resource], asked)
         == CountUnder(owned, asked) + if KeyOf(resource) == asked then 1 else 0
  {
    if owned == [] {
      assert owned + [resource] == [resource] && [resource][1..] == [];
    } else {
      assert (owned + [resource])[1..] == owned[1..] + [resource];
      CountAppend(owned[1..], resource, asked);
    }
  }

  /** Owning lists its key at least once, never more often than before, and leaves every other key's count. */
  lemma CountAfterOwn(owned: seq<OwnedResource>, resource: OwnedResource, asked: ResourceKey)
    ensures CountUnder(WithoutFirst(owned, KeyOf(resource)) + [resource], asked) ==
            if asked == KeyOf(resource) && CountUnder(owned, asked) == 0 then 1 else CountUnder(owned, asked)
  {
    CountWithoutFirst(owned, KeyOf(resource), asked);
    CountAppend(WithoutFirst(owned, KeyOf(resource)), resource, asked);
  }

  class InstallJournal {
    var phases: seq<PhaseRecord>
    var owned: seq<OwnedResource>
    var pendingCleanup: seq<OwnedResource>
    /** Every record ever written through this object, including those the window dropped. */
    ghost var log: seq<PhaseRecord>
    /** The map that the list of owned resources stands for. */
    ghost var registry: map<ResourceKey, OwnedResource>

    ghost predicate Valid()
      reads this
    {
      HistoryValid() && OwnershipValid()
    }

    ghost predicate HistoryValid()
      reads this`phases, this`log
    {
      phases == Window(log) || phases == log
    }

    ghost predicate OwnershipValid()
      reads this`owned, this`registry
    {
      Represents(owned, registry)
    }

    function Document(): JournalDocument
      reads this
    {
      JournalDocument(phases, owned, pendingCleanup)
    }

    /**
     A journal that was just loaded; a missing file loads as the empty document. Any document may be
     loaded: one longer than the window is cut by the next record, and one that lists a resource
     twice keeps doing so, as `CountAfterOwn` and `CountWithoutFirst` tell.
     */
    constructor (document: JournalDocument, ghost registry: map<ResourceKey, OwnedResource>)
      ensures HistoryValid() && Document() == document && log == document.phases && this.registry == registry
      ensures Represents(document.owned, registry) ==> Valid()
    {
      phases, owned, pendingCleanup := document.phases, document.owned, document.pendingCleanup;
      log, this.registry := document.phases, registry;
    }

    method Record(name: PhaseName, state: PhaseState, outcomeCode: Option<OutcomeCode>)
      requires HistoryValid()
      modifies this`phases, this`log
      ensures HistoryValid() && phases == Window(log)
      ensures log == old(log) + [PhaseRecord(name, state, outcomeCode)]
    {
      var record := PhaseRecord(name, state, outcomeCode);
      phases := phases + [record];
      log := log + [record];
      if |phases| > WINDOW {
        phases := phases[|phases| - WINDOW..];
      }
    }

    method Disown(kind: ResourceKind, identifier: string) returns (popped: Option<OwnedResource>)
      modifies this`owned, this`registry
      ensures owned == WithoutFirst(old(owned), ResourceKey(kind, identifier))
      ensures popped == FirstUnder(old(owned), ResourceKey(kind, identifier))
      ensures registry == old(registry) - {ResourceKey(kind, identifier)}
      ensures old(OwnershipValid()) ==>
        && OwnershipValid()
        && popped == if ResourceKey(kind, identifier) in old(registry)
                     then Some(old(registry)[ResourceKey(kind, identifier)])
                     else None
    {
      var key := ResourceKey(kind, identifier);
      var index := FindOwned(owned, key);
      FoundFirst(owned, key, index);
      if Represents(owned, registry) {
        DisownedMap(owned, registry, key, index);
      }
      if index < |owned| {
        popped := Some(owned[index]);
        owned := owned[..index] + owned[index + 1..];
      } else {
        popped := None;
      }
      registry := registry - {key};
    }

    method Own(resource: OwnedResource)
      modifies this`owned, this`registry
      ensures owned == WithoutFirst(old(owned), KeyOf(resource)) + [resource]
      ensures registry == old(registry)[KeyOf(resource) := resource]
      ensures old(OwnershipValid()) ==> OwnershipValid()
    {
      var _ := Disown(resource.kind, resource.identifier);
      if Represents(owned, registry) {
        RepresentsAppend(owned, registry, resource);
      }
      owned := owned + [resource];
      registry := registry[KeyOf(resource) := resource];
    }

    method Owns(kind: ResourceKind, identifier: string) returns (found: bool)
      ensures found <==> FirstUnder(owned, ResourceKey(kind, identifier)).Some?
      ensures OwnershipValid() ==> (found <==> ResourceKey(kind, identifier) in registry)
    {
      var key := ResourceKey(kind, identifier);
      var index := FindOwned(owned, key);
      FoundFirst(owned, key, index);
      if Represents(owned, registry) {
        FoundIffKey(owned, registry, key, index);
      }
      found := index < |owned|;
    }

    /** The unfinished phases of the kept window. */
    method Incomplete() returns (pending: seq<PhaseRecord>)
      ensures pending == IncompleteOf(phases)
    {
      var latest := LatestRecords(phases);
      pending := [];
      for k := 0 to |latest.order|
        invariant pending == Unsettled(latest.records, latest.order[..k])
      {
        assert latest.order[..k + 1][..k] == latest.order[..k];
        var name := latest.order[k];
        if name in latest.records && Unfinished(latest.records[name]) {
          pending := pending + [latest.records[name]];
        }
      }
      assert latest.order[..|latest.order|] == latest.order;
    }
  }

  /** The position of the first resource under `key`, or the length if there is none. */
  method FindOwned(owned: seq<OwnedResource>, key: ResourceKey) returns (index: nat)
    ensures index <= |owned|
    ensures index < |owned| ==> KeyOf(owned[index]) == key
    ensures forall j :: 0 <= j < index ==> KeyOf(owned[j]) != key
  {
    index := 0;
    while index < |owned| && KeyOf(owned[index]) != key
      invariant index <= |owned|
      invariant forall j :: 0 <= j < index ==> KeyOf(owned[j]) != key
    {
      index := index + 1;
    }
  }

  lemma FoundIffKey(owned: seq<OwnedResource>, registry: map<ResourceKey, OwnedResource>, key: ResourceKey, index: nat)
    requires Represents(owned, registry)
    requires index < |owned| ==> KeyOf(owned[index]) == key
    requires index >= |owned| ==> forall j :: 0 <= j < |owned| ==> KeyOf(owned[j]) != key
    ensures index < |owned| <==> key in registry
  {
    if index < |owned| {
      RepresentsAt(owned, registry, index);
    } else if key in registry {
      RepresentsKey(owned, registry, key);
    }
  }

  method LatestRecords(phases: seq<PhaseRecord>) returns (latest: Latest)
    ensures latest == LatestOf(phases)
  {
    latest := Latest(map[], []);
    for n := 0 to |phases|
      invariant latest == LatestOf(phases[..n])
    {
      assert phases[..n + 1][..n] == phases[..n];
      latest := Remember(latest, phases[n]);
    }
    assert phases[..|phases|] == phases;
  }

  // ---------------------------------------------------------------- unfinished phases

  /** A dictionary with its insertion order, as Python keeps it. */
  datatype Latest = Latest(records: map<PhaseName, PhaseRecord>, order: seq<PhaseName>)

  function Remember(latest: Latest, record: PhaseRecord): Latest {
    Latest(
      latest.records[record.name := record],
      if record.name in latest.records then latest.order else latest.order + [record.name])
  }

  /** The dictionary of latest records built from `log`. */
  function LatestOf(log: seq<PhaseRecord>): Latest {
    if log == [] then Latest(map[], []) else Remember(LatestOf(log[..|log| - 1]), log[|log| - 1])
  }

  function Unsettled(records: map<PhaseName, PhaseRecord>, order: seq<PhaseName>): seq<PhaseRecord> {
    if order == [] then []
    else
      var name := order[|order| - 1];
      Unsettled(records, order[..|order| - 1])
      + if name in records && Unfinished(records[name]) then [records[name]] else []
  }

  function IncompleteOf(log: seq<PhaseRecord>): seq<PhaseRecord> {
    Unsettled(LatestOf(log).records, LatestOf(log).order)
  }

  /** `record` is the latest record of `log` under `name`. */
  ghost predicate HoldsLatest(log: seq<PhaseRecord>, record: PhaseRecord, name: PhaseName) {
    record.name == name && exists i: nat :: IsLatest(log, i) && log[i] == record
  }

  lemma LatestAppend(log: seq<PhaseRecord>, record: PhaseRecord, kept: PhaseRecord, name: PhaseName)
    requires name != record.name ==> HoldsLatest(log, kept, name)
    ensures HoldsLatest(log + [record], if name == record.name then record else kept, name)
  {
    var longer := log + [record];
    if name == record.name {
      assert IsLatest(longer, |log|) && longer[|log|] == record;
    } else {
      var i: nat :| IsLatest(log, i) && log[i] == kept;
      assert IsLatest(longer, i) && longer[i] == kept;
    }
  }

  lemma {:induction false} LatestOfHolds(log: seq<PhaseRecord>, name: PhaseName)
    ensures var latest := LatestOf(log);
            if name in latest.records then HoldsLatest(log, latest.records[name], name)
            else forall i :: 0 <= i < |log| ==> log[i].name != name
  {
    if log != [] {
      var front, record := log[..|log| - 1], log[|log| - 1];
      LatestOfHolds(front, name);
      assert log == front + [record];
      var latest := LatestOf(front);
      if name == record.name || name in latest.records {
        LatestAppend(front, record, if name in latest.records then latest.records[name] else record, name);
      }
    }
  }

  lemma {:induction false} OrderHoldsKeys(log: seq<PhaseRecord>, name: PhaseName)
    ensures name in LatestOf(log).order <==> name in LatestOf(log).records
  {
    if log != [] {
      OrderHoldsKeys(log[..|log| - 1], name);
      OrderHoldsKeys(log[..|log| - 1], log[|log| - 1].name);
    }
  }

  lemma {:induction false} UnsettledMembers(
    records: map<PhaseName, PhaseRecord>, order: seq<PhaseName>, record: PhaseRecord)
    ensures record in Unsettled(records, order) <==>
            exists name :: name in order && name in records && records[name] == record && Unfinished(record)
  {
    if order != [] {
      var front, last := order[..|order| - 1], order[|order| - 1];
      UnsettledMembers(records, front, record);
      assert order == front + [last];
    }
  }

  /** The computed list holds exactly the latest records that never finished. */
  lemma IncompleteIsUnfinished(log: seq<PhaseRecord>, record: PhaseRecord)
    ensures record in IncompleteOf(log) <==> UnfinishedSince(log, 0, record)
  {
    var latest := LatestOf(log);
    UnsettledMembers(latest.records, latest.order, record);
    LatestOfHolds(log, record.name);
    OrderHoldsKeys(log, record.name);
    if record in IncompleteOf(log) {
      var name :| name in latest.order && name in latest.records && latest.records[name] == record;
      LatestOfHolds(log, name);
    }
    if UnfinishedSince(log, 0, record) {
      var i: nat :| IsLatest(log, i) && log[i] == record && Unfinished(record);
      assert record.name in latest.records;
      var j: nat :| IsLatest(log, j) && log[j] == latest.records[record.name];
      assert i == j;
    }
  }

  /**
   Over the window of a history, the list holds exactly the phases that the whole history leaves
   unfinished and whose latest record the window still keeps.
   */
  lemma IncompleteOfWindow(log: seq<PhaseRecord>, record: PhaseRecord)
    ensures record in IncompleteOf(Window(log)) <==> UnfinishedSince(log, |log| - WINDOW, record)
  {
    IncompleteIsUnfinished(Window(log), record);
    WindowReportsRecentUnfinished(log, record);
  }

  // ---------------------------------------------------------------- the order of the list

  /** Where a phase was first recorded. */
  function FirstAt(log: seq<PhaseRecord>, name: PhaseName): nat {
    if log == [] then 0
    else
      var n := |log| - 1;
      if name in LatestOf(log[..n]).records then FirstAt(log[..n], name) else n
  }

  /** Where it was last recorded. */
  function LastAt(log: seq<PhaseRecord>, name: PhaseName): nat {
    if log == [] then 0
    else
      var n := |log| - 1;
      if log[n].name == name then n else LastAt(log[..n], name)
  }

  lemma {:induction false} FirstAtIs(log: seq<PhaseRecord>, name: PhaseName)
    requires name in LatestOf(log).records
    ensures FirstAt(log, name) < |log| && log[FirstAt(log, name)].name == name
    ensures forall j :: 0 <= j < FirstAt(log, name) ==> log[j].name != name
  {
    var n := |log| - 1;
    if name in LatestOf(log[..n]).records {
      FirstAtIs(log[..n], name);
    } else {
      LatestOfHolds(log[..n], name);
    }
  }

  lemma {:induction false} LastAtIs(log: seq<PhaseRecord>, name: PhaseName)
    requires name in LatestOf(log).records
    ensures LastAt(log, name) < |log| && log[LastAt(log, name)] == LatestOf(log).records[name]
    ensures log[LastAt(log, name)].name == name
    ensures IsLatest(log, LastAt(log, name))
  {
    var n := |log| - 1;
    if log[n].name != name {
      LastAtIs(log[..n], name);
    }
  }

  lemma {:induction false} OrderIsByFirst(log: seq<PhaseRecord>, i: nat, j: nat)
    requires i < j < |LatestOf(log).order|
    ensures FirstAt(log, LatestOf(log).order[i]) < FirstAt(log, LatestOf(log).order[j])
  {
    var n := |log| - 1;
    var front, order := log[..n], LatestOf(log).order;
    OrderHoldsKeys(front, order[i]);
    FirstAtIs(front, order[i]);
    if j < |LatestOf(front).order| {
      OrderHoldsKeys(front, order[j]);
      OrderIsByFirst(front, i, j);
    }
  }

  lemma {:induction false} UnsettledPlaces(
    records: map<PhaseName, PhaseRecord>, order: seq<PhaseName>, i: nat, j: nat) returns (p: nat, q: nat)
    requires i < j < |Unsettled(records, order)|
    ensures p < q < |order| && order[p] in records && order[q] in records
    ensures records[order[p]] == Unsettled(records, order)[i] && records[order[q]] == Unsettled(records, order)[j]
  {
    var n := |order| - 1;
    var earlier := Unsettled(records, order[..n]);
    if j < |earlier| {
      p, q := UnsettledPlaces(records, order[..n], i, j);
    } else {
      p := UnsettledPlace(records, order[..n], i);
      q := n;
    }
  }

  lemma {:induction false} UnsettledPlace(
    records: map<PhaseName, PhaseRecord>, order: seq<PhaseName>, i: nat) returns (p: nat)
    requires i < |Unsettled(records, order)|
    ensures p < |order| && order[p] in records && records[order[p]] == Unsettled(records, order)[i]
  {
    var n := |order| - 1;
    if i < |Unsettled(records, order[..n])| {
      p := UnsettledPlace(records, order[..n], i);
    } else {
      p := n;
    }
  }

  /** The list is ordered by the first appearance of each phase, whatever came last. */
  lemma ListedByFirstAppearance(log: seq<PhaseRecord>, i: nat, j: nat)
    requires i < j < |IncompleteOf(log)|
    ensures var list := IncompleteOf(log);
            && list[i].name in LatestOf(log).records && list[j].name in LatestOf(log).records
            && FirstAt(log, list[i].name) < FirstAt(log, list[j].name)
  {
    var latest := LatestOf(log);
    var p, q := UnsettledPlaces(latest.records, latest.order, i, j);
    LatestOfHolds(log, latest.order[p]);
    LatestOfHolds(log, latest.order[q]);
    OrderIsByFirst(log, p, q);
  }

  /** As the operation is documented: a phase recorded later comes earlier in the list. */
  ghost predicate MostRecentFirst(log: seq<PhaseRecord>, list: seq<PhaseRecord>) {
    forall i, j :: 0 <= i < j < |list| ==> LastAt(log, list[i].name) > LastAt(log, list[j].name)
  }

  /** The unfinished phases were last recorded in the reverse of the order in which they first appeared. */
  ghost predicate LastReversesFirst(log: seq<PhaseRecord>) {
    forall r, t ::
      UnfinishedSince(log, 0, r) && UnfinishedSince(log, 0, t) && FirstAt(log, r.name) < FirstAt(log, t.name)
      ==> LastAt(log, r.name) > LastAt(log, t.name)
  }

  /** Exactly then does the list come most recent first. */
  lemma MostRecentFirstIff(log: seq<PhaseRecord>)
    ensures MostRecentFirst(log, IncompleteOf(log)) <==> LastReversesFirst(log)
  {
    var list := IncompleteOf(log);
    if MostRecentFirst(log, list) {
      forall r, t | UnfinishedSince(log, 0, r) && UnfinishedSince(log, 0, t)
        && FirstAt(log, r.name) < FirstAt(log, t.name)
        ensures LastAt(log, r.name) > LastAt(log, t.name)
      {
        IncompleteIsUnfinished(log, r);
        IncompleteIsUnfinished(log, t);
        var i :| 0 <= i < |list| && list[i] == r;
        var j :| 0 <= j < |list| && list[j] == t;
        if j < i { ListedByFirstAppearance(log, j, i); }
      }
    }
    if LastReversesFirst(log) {
      forall i, j | 0 <= i < j < |list| ensures LastAt(log, list[i].name) > LastAt(log, list[j].name) {
        IncompleteIsUnfinished(log, list[i]);
        IncompleteIsUnfinished(log, list[j]);
        ListedByFirstAppearance(log, i, j);
      }
    }
  }

  lemma LatestAppended(log: seq<PhaseRecord>, record: PhaseRecord)
    ensures LatestOf(log + [record]) == Remember(LatestOf(log), record)
  {
    assert (log + [record])[..|log|] == log;
  }

  lemma UnsettledAppended(records: map<PhaseName, PhaseRecord>, order: seq<PhaseName>, name: PhaseName)
    ensures Unsettled(records, order + [name])
         == Unsettled(records, order) + if name in records && Unfinished(records[name]) then [records[name]] else []
  {
    assert (order + [name])[..|order|] == order;
  }

  lemma TwoFailuresListed(older: PhaseRecord, newer: PhaseRecord)
    requires older.name != newer.name && Unfinished(older) && Unfinished(newer)
    ensures IncompleteOf([older] + [newer]) == [older] + [newer]
  {
    var records := map[older.name := older, newer.name := newer];
    LatestAppended([], older);
    assert [] + [older] == [older];
    LatestAppended([older], newer);
    assert LatestOf([older] + [newer]) == Latest(records, [older.name] + [newer.name]);
    UnsettledAppended(records, [], older.name);
    assert [] + [older.name] == [older.name];
    UnsettledAppended(records, [older.name], newer.name);
  }

  /** Two failures in a row: the older one is listed first. */
  lemma OlderFailureListedFirst(older: PhaseRecord, newer: PhaseRecord)
    requires older.name != newer.name && Unfinished(older) && Unfinished(newer)
    ensures IncompleteOf([older, newer]) == [older, newer]
    ensures !MostRecentFirst([older, newer], IncompleteOf([older, newer]))
  {
    var log := [older, newer];
    TwoFailuresListed(older, newer);
    assert log == [older] + [newer];
    assert log[..1] == [older];
    assert LastAt(log, newer.name) == 1 && LastAt(log, older.name) == 0;
    assert log[0] == older && log[1] == newer;
  }
}

/** The setup transaction as the service runs it: planning, applying, compensating, registering. */
module SetupServices {
  import opened Common
  import opened InstallJournals
  import opened PrivateFiles
  import opened SetupTransaction
  import ClientBase

  // ---------------------------------------------------------------- prefixes of the writes

  lemma {:induction false} PutPrefix(d: Durable, short: seq<Write>, long: seq<Write>, faults: Faults, n: nat)
    requires n <= |short| && short <= long
    ensures AfterPuts(d, short, faults, n) == AfterPuts(d, long, faults, n)
    ensures PutEvents(d, short, faults, n) == PutEvents(d, long, faults, n)
  {
    if n > 0 {
      PutPrefix(d, short, long, faults, n - 1);
    }
  }

  lemma {:induction false} AttemptedPast(writes: seq<Write>, faults: Faults, i: nat, n: nat)
    requires i <= n <= |writes| && forall j :: i <= j < n ==> !PutFails(writes[j], At(faults.put, j))
    ensures Attempted(writes, faults, i) == Attempted(writes, faults, n)
    decreases n - i
  {
    if i < n {
      AttemptedPast(writes, faults, i + 1, n);
    }
  }

  lemma {:induction false} ItemWritesPrefix(item: ProviderIntent, managed: ManagedProvider, m: nat, n: nat)
    requires m <= n <= |item.secrets|
    ensures ItemWrites(item, managed, m) <= ItemWrites(item, managed, n)
  {
    if m < n {
      ItemWritesPrefix(item, managed, m, n - 1);
    }
  }

  lemma {:induction false} WritesPrefix(items: seq<ProviderIntent>, config: ManagedConfig, i: nat)
    requires Covers(config, items) && i <= |items|
    ensures Writes(items[..i], config) <= Writes(items, config)
  {
    if i < |items| {
      WritesPrefix(items[..|items| - 1], config, i);
      assert items[..|items| - 1][..i] == items[..i];
    } else {
      assert items[..i] == items;
    }
  }

  /** What is written when `n` secrets of the provider at `i` have been handled. */
  function WrittenSoFar(items: seq<ProviderIntent>, config: ManagedConfig, i: nat, n: nat): seq<Write>
    requires Covers(config, items) && i < |items| && n <= |items[i].secrets|
  {
    Writes(items[..i], config) + ItemWrites(items[i], config.providers[items[i].providerId], n)
  }

  lemma WrittenPrefix(items: seq<ProviderIntent>, config: ManagedConfig, i: nat, n: nat)
    requires Covers(config, items) && i < |items| && n <= |items[i].secrets|
    ensures WrittenSoFar(items, config, i, n) <= Writes(items, config)
    ensures n == |items[i].secrets| ==> WrittenSoFar(items, config, i, n) == Writes(items[..i + 1], config)
  {
    WritesPrefix(items, config, i + 1);
    assert items[..i + 1][..i] == items[..i];
    ItemWritesPrefix(items[i], config.providers[items[i].providerId], n, |items[i].secrets|);
  }

  // ---------------------------------------------------------------- the stores

  function LabelOf(slot: Slot): string {
    slot.provider + ":" + slot.role
  }

  // ---------------------------------------------------------------- the blocks of one apply

  /** What a block of the transaction changed, the stores it leaves, and what it recorded. */
  datatype Block = Block(events: seq<Event>, after: Durable, records: seq<PhaseRecord>)

  /** Everything a block can change: the history of the stores, the stores, and the records. */
  datatype Snapshot = Snapshot(events: seq<Event>, state: Durable, log: seq<PhaseRecord>)

  function Advance(s: Snapshot, b: Block): Snapshot {
    Snapshot(s.events + b.events, b.after, s.log + b.records)
  }

  function Chain(first: Block, second: Block): Block {
    Block(first.events + second.events, second.after, first.records + second.records)
  }

  lemma AdvanceChain(s: Snapshot, first: Block, second: Block)
    ensures Advance(Advance(s, first), second) == Advance(s, Chain(first, second))
  {
    assert s.events + first.events + second.events == s.events + (first.events + second.events);
    assert s.log + first.records + second.records == s.log + (first.records + second.records);
  }

  function RecordBlock(d: Durable, records: seq<PhaseRecord>): Block {
    Block([], d, records)
  }

  function PutBlock(d: Durable, writes: seq<Write>, faults: Faults): Block {
    var n := Attempted(writes, faults, 0);
    Block(PutEvents(d, writes, faults, n), AfterPuts(d, writes, faults, n), [])
  }

  function DeleteBlock(d: Durable, refs: seq<CredentialRef>, faults: Faults): Block {
    Block(DeleteEvents(d, refs, faults, |refs|), AfterDeletes(d, refs, faults, |refs|), [])
  }

  /** A block that failed: record the failure, then undo the written keys. */
  function UndoBlock(d: Durable, writes: seq<Write>, faults: Faults, failure: PhaseRecord): Block {
    Chain(RecordBlock(d, [failure]), DeleteBlock(d, RefsOf(writes), faults))
  }

  function StoreBlock(d: Durable, writes: seq<Write>, faults: Faults): Block {
    var puts := Chain(RecordBlock(d, [Note(Credentials, Intended)]), PutBlock(d, writes, faults));
    if !AllPut(writes, faults) then Chain(puts, RecordBlock(puts.after, [FailureNote(Credentials)]))
    else
      var applied := Chain(puts, RecordBlock(puts.after, [Note(Credentials, Applied)]));
      if faults.firstSave == SetupFailure
        then Chain(applied, UndoBlock(applied.after, writes, faults, FailureNote(Credentials)))
      else applied
  }

  function StoreStop(writes: seq<Write>, faults: Faults): Option<Outcome> {
    if !AllPut(writes, faults) || faults.firstSave == SetupFailure then Some(Returned(false, false, true, []))
    else if faults.firstSave == SystemFailure then Some(Raised)
    else None
  }

  function ReplaceBlock(d: Durable, plan: SetupPlan, faults: Faults): Block {
    var committed := Durable(d.keyring, Some(plan.config));
    if faults.commit == FailedBeforeReplace then RecordBlock(d, [Note(Config, Intended)])
    else if faults.commit == FailedAfterReplace
      then Block([Event(CommitConfig, committed)], committed, [Note(Config, Intended)])
    else Block([Event(CommitConfig, committed)], committed, [Note(Config, Intended), Note(Config, Applied)])
  }

  function SwitchBlock(d: Durable, plan: SetupPlan, writes: seq<Write>, faults: Faults): Block {
    var replaced := ReplaceBlock(d, plan, faults);
    if CommitHeld(faults) then replaced
    else Chain(replaced, UndoBlock(replaced.after, writes, faults, Note(Config, Failed)))
  }

  function ProbeBlock(d: Durable, work: ClientWork, faults: Faults): Block {
    var probe := Block([Event(EngineProbe(faults.engine), d)], d,
                       [Note(Engine, Intended), if faults.engine then Note(Engine, Applied) else FailureNote(Engine)]);
    if faults.engine && !work.NoClient? then Chain(probe, ClientBlock(d, work, faults)) else probe
  }

  function ClientBlock(d: Durable, work: ClientWork, faults: Faults): Block {
    Block(if ClientWrites(work, faults) then [Event(WriteClient, d)] else [], d, ClientReport(work, faults))
  }

  function ProbeOutcome(work: ClientWork, faults: Faults): Outcome {
    if !faults.engine then Returned(true, false, true, [Engine])
    else if work.NoClient? then Returned(true, false, false, [])
    else ClientOutcome(work, faults)
  }

  function FinishBlock(d: Durable, plan: SetupPlan, work: ClientWork, faults: Faults, timer: TimerState): Block {
    var retired := DeleteBlock(d, plan.retired, faults);
    var timed := Chain(retired, RecordBlock(retired.after, TimerReport(plan, faults, timer)));
    if TimerFails(plan, faults, timer) then timed
    else Chain(timed, ProbeBlock(timed.after, work, faults))
  }

  function FinishOutcome(plan: SetupPlan, work: ClientWork, faults: Faults, timer: TimerState): Outcome {
    if TimerFails(plan, faults, timer) then Returned(true, false, true, [CleanupTimer]) else ProbeOutcome(work, faults)
  }

  /** The blocks of one apply, up to the one that ends it. */
  function RunBlock(
    d: Durable, plan: SetupPlan, writes: seq<Write>, work: ClientWork, faults: Faults, timer: TimerState): Block
  {
    var store := StoreBlock(d, writes, faults);
    if StoreStop(writes, faults).Some? then store
    else
      var switched := Chain(store, SwitchBlock(store.after, plan, writes, faults));
      if !CommitHeld(faults) then switched
      else Chain(switched, FinishBlock(switched.after, plan, work, faults, timer))
  }

  function RunOutcome(
    plan: SetupPlan, writes: seq<Write>, work: ClientWork, faults: Faults, timer: TimerState): Outcome
  {
    if StoreStop(writes, faults).Some? then StoreStop(writes, faults).value
    else if !CommitHeld(faults) then Returned(false, false, true, [])
    else FinishOutcome(plan, work, faults, timer)
  }

  lemma StoreStops(d: Durable, plan: SetupPlan, writes: seq<Write>, work: ClientWork, faults: Faults, timer: TimerState)
    requires StoreStop(writes, faults).Some?
    ensures StoreBlock(d, writes, faults).events == RunEvents(d, plan, writes, work, faults, timer)
    ensures StoreBlock(d, writes, faults).records == RunReport(plan, writes, work, faults, timer).records
  {
  }

  lemma StoreHolds(d: Durable, writes: seq<Write>, faults: Faults)
    requires StoreStop(writes, faults).None?
    ensures var store, n := StoreBlock(d, writes, faults), Attempted(writes, faults, 0);
            store
              == Block(PutEvents(d, writes, faults, n), AfterPuts(d, writes, faults, n),
                [Note(Credentials, Intended), Note(Credentials, Applied)])
  {
  }

  lemma UndoBlockShape(d: Durable, writes: seq<Write>, faults: Faults, failure: PhaseRecord)
    ensures var refs := RefsOf(writes);
            UndoBlock(d, writes, faults, failure)
            == Block(DeleteEvents(d, refs, faults, |refs|), AfterDeletes(d, refs, faults, |refs|), [failure])
  {
  }

  lemma SwitchStops(d: Durable, plan: SetupPlan, writes: seq<Write>, faults: Faults)
    requires !CommitHeld(faults)
    ensures var switched, committed := SwitchBlock(d, plan, writes, faults), Durable(d.keyring, Some(plan.config));
            && (faults.commit == FailedBeforeReplace ==>
               switched.events == DeleteEvents(d, RefsOf(writes), faults, |writes|))
            && (LateFailure(faults) ==>
                  switched.events
                    == [Event(CommitConfig, committed)] + DeleteEvents(committed, RefsOf(writes), faults, |writes|))
            && switched.records
               == [Note(Config, Intended)]
                  + (if faults.commit.Committed? then [Note(Config, Applied)] else [])
                  + [Note(Config, Failed)]
  {
    var replaced := ReplaceBlock(d, plan, faults);
    UndoBlockShape(replaced.after, writes, faults, Note(Config, Failed));
  }

  lemma ProbeEvents(d: Durable, plan: SetupPlan, work: ClientWork, faults: Faults, timer: TimerState)
    requires !TimerFails(plan, faults, timer)
    ensures ProbeBlock(d, work, faults).events == TailEvents(d, plan, work, faults, timer)
  {
  }

  lemma ProbeReport(d: Durable, plan: SetupPlan, work: ClientWork, faults: Faults, timer: TimerState)
    requires !TimerFails(plan, faults, timer)
    ensures Report(TimerReport(plan, faults, timer) + ProbeBlock(d, work, faults).records, ProbeOutcome(work, faults))
         == TailReport(plan, work, faults, timer)
  {
  }

  lemma FinishShape(d: Durable, plan: SetupPlan, work: ClientWork, faults: Faults, timer: TimerState)
    ensures var finish := FinishBlock(d, plan, work, faults, timer);
            var retired := AfterDeletes(d, plan.retired, faults, |plan.retired|);
            && finish.events
               == DeleteEvents(d, plan.retired, faults, |plan.retired|) + TailEvents(retired, plan, work, faults, timer)
            && Report(finish.records, FinishOutcome(plan, work, faults, timer)) == TailReport(plan, work, faults, timer)
  {
    var retired := AfterDeletes(d, plan.retired, faults, |plan.retired|);
    if !TimerFails(plan, faults, timer) {
      ProbeEvents(retired, plan, work, faults, timer);
      ProbeReport(retired, plan, work, faults, timer);
    }
    assert [] + TimerReport(plan, faults, timer) == TimerReport(plan, faults, timer);
  }

  lemma SwitchStopsEvents(
    d: Durable, plan: SetupPlan, writes: seq<Write>, work: ClientWork, faults: Faults, timer: TimerState)
    requires StoreStop(writes, faults).None? && !CommitHeld(faults)
    ensures var store := StoreBlock(d, writes, faults);
            store.events + SwitchBlock(store.after, plan, writes, faults).events
              == RunEvents(d, plan, writes, work, faults, timer)
  {
    StoreHolds(d, writes, faults);
    var store := StoreBlock(d, writes, faults);
    SwitchStops(store.after, plan, writes, faults);
    if LateFailure(faults) {
      var committed := Durable(store.after.keyring, Some(plan.config));
      Associates(
        store.events, [Event(CommitConfig, committed)], DeleteEvents(committed, RefsOf(writes), faults, |writes|));
    }
  }

  lemma SwitchStopsRecords(
    d: Durable, plan: SetupPlan, writes: seq<Write>, work: ClientWork, faults: Faults, timer: TimerState)
    requires StoreStop(writes, faults).None? && !CommitHeld(faults)
    ensures var store := StoreBlock(d, writes, faults);
            store.records + SwitchBlock(store.after, plan, writes, faults).records
              == RunReport(plan, writes, work, faults, timer).records
  {
    StoreHolds(d, writes, faults);
    var store := StoreBlock(d, writes, faults);
    SwitchStops(store.after, plan, writes, faults);
    var replaced := if faults.commit.Committed? then [Note(Config, Applied)] else [];
    Associates(store.records, [Note(Config, Intended)] + replaced, [Note(Config, Failed)]);
    Associates(store.records, [Note(Config, Intended)], replaced);
  }

  lemma SwitchStopsTheRun(
    d: Durable, plan: SetupPlan, writes: seq<Write>, work: ClientWork, faults: Faults, timer: TimerState)
    requires StoreStop(writes, faults).None? && !CommitHeld(faults)
    ensures var run := RunBlock(d, plan, writes, work, faults, timer);
            && run.events == RunEvents(d, plan, writes, work, faults, timer)
            && run.records == RunReport(plan, writes, work, faults, timer).records
  {
    SwitchStopsEvents(d, plan, writes, work, faults, timer);
    SwitchStopsRecords(d, plan, writes, work, faults, timer);
  }

  lemma FinishEndsTheRun(
    d: Durable, plan: SetupPlan, writes: seq<Write>, work: ClientWork, faults: Faults, timer: TimerState)
    requires StoreStop(writes, faults).None? && CommitHeld(faults)
    ensures var run := RunBlock(d, plan, writes, work, faults, timer);
            && run.events == RunEvents(d, plan, writes, work, faults, timer)
            && run.records == RunReport(plan, writes, work, faults, timer).records
  {
    StoreHolds(d, writes, faults);
    var store := StoreBlock(d, writes, faults);
    var committed := Durable(store.after.keyring, Some(plan.config));
    FinishShape(committed, plan, work, faults, timer);
    var first := store.events + [Event(CommitConfig, committed)];
    var retire := DeleteEvents(committed, plan.retired, faults, |plan.retired|);
    var tail := TailEvents(AfterDeletes(committed, plan.retired, faults, |plan.retired|), plan, work, faults, timer);
    assert first + (retire + tail) == first + retire + tail;
    assert store.records + [Note(Config, Intended), Note(Config, Applied)]
        == [Note(Credentials, Intended), Note(Credentials, Applied)] + [Note(Config, Intended), Note(Config, Applied)];
  }

  /** Running the blocks one after the other is the specified run. */
  lemma BlocksAreTheRun(
    d: Durable, plan: SetupPlan, writes: seq<Write>, work: ClientWork, faults: Faults, timer: TimerState)
    ensures var run := RunBlock(d, plan, writes, work, faults, timer);
            && run.events == RunEvents(d, plan, writes, work, faults, timer)
            && run.records == RunReport(plan, writes, work, faults, timer).records
            && RunOutcome(plan, writes, work, faults, timer) == RunReport(plan, writes, work, faults, timer).outcome
  {
    if StoreStop(writes, faults).Some? {
      StoreStops(d, plan, writes, work, faults, timer);
    } else if !CommitHeld(faults) {
      SwitchStopsTheRun(d, plan, writes, work, faults, timer);
    } else {
      FinishEndsTheRun(d, plan, writes, work, faults, timer);
      FinishShape(d, plan, work, faults, timer);
    }
  }

  /** The deletions that failed, left for a later cleanup. */
  function PendingOf(refs: seq<CredentialRef>, faults: Faults, n: nat): seq<OwnedResource>
    requires n <= |refs|
  {
    if n == 0 then []
    else
      PendingOf(refs, faults, n - 1)
      + if At(faults.remove, n - 1) == Done then [] else [OwnedResource(CredentialKind, refs[n - 1].account, None)]
  }

  /** How an adapter's call ends: as asked, with a setup error, or with any other. */
  datatype AdapterEnding = Succeeds | Reports | Raises

  /** The keyring, the configuration file, the client's store and the saved journal. */
  class Stores {
    var keyring: map<CredentialRef, string>
    var config: Option<ManagedConfig>
    var journalFile: Option<JournalDocument>
    /** Every durable change to the keyring, the configuration and the client, oldest first. */
    ghost var events: seq<Event>

    ghost function State(): Durable
      reads this`keyring, this`config
    {
      Durable(keyring, config)
    }

    constructor (
      keyring: map<CredentialRef, string>, config: Option<ManagedConfig>, journalFile: Option<JournalDocument>)
      ensures State() == Durable(keyring, config) && this.journalFile == journalFile && events == []
    {
      this.keyring, this.config, this.journalFile, this.events := keyring, config, journalFile, [];
    }

    method Put(w: Write, result: StoreResult) returns (failed: bool)
      modifies this`keyring, this`events
      ensures keyring == PutKeyring(old(keyring), w, result)
      ensures events == old(events) + [Event(PutKey, State())]
      ensures failed <==> PutFails(w, result)
    {
      failed := w.secret == "" || result != Done;
      if w.secret != "" && result != Refused {
        keyring := keyring[w.ref := w.secret];
      }
      events := events + [Event(PutKey, State())];
    }

    method Delete(ref: CredentialRef, result: StoreResult) returns (failed: bool)
      modifies this`keyring, this`events
      ensures keyring == DeleteKeyring(old(keyring), ref, result)
      ensures events == old(events) + [Event(DeleteKey, State())]
      ensures failed <==> result != Done
    {
      failed := result != Done;
      if result != Refused {
        keyring := keyring - {ref};
      }
      events := events + [Event(DeleteKey, State())];
    }

    /** Replacing the file is atomic, so a failure leaves it as it was or already replaced. */
    method SaveConfig(updated: ManagedConfig, result: CommitResult) returns (failed: bool)
      modifies this`config, this`events
      ensures failed <==> !result.Committed?
      ensures result.FailedBeforeReplace? ==> config == old(config) && events == old(events)
      ensures !result.FailedBeforeReplace? ==>
                config == Some(updated) && events == old(events) + [Event(CommitConfig, State())]
    {
      failed := !result.Committed?;
      if !result.FailedBeforeReplace? {
        config := Some(updated);
        events := events + [Event(CommitConfig, State())];
      }
    }

    method ProbeEngine(answers: bool)
      modifies this`events
      ensures events == old(events) + [Event(EngineProbe(answers), State())]
    {
      events := events + [Event(EngineProbe(answers), State())];
    }

    /** What the adapter does with its plan: refuse a conflict, do nothing for no action, or write. */
    method ApplyPlan(work: ClientWork, result: ClientResult) returns (ending: AdapterEnding)
      modifies this`events
      ensures events == old(events)
              + if work.Acts? && !result.ClientRefused? && !result.Escaped? then [Event(WriteClient, State())] else []
      ensures ending == if work.Conflicts? then Reports
                        else if !work.Acts? || result.Written? then Succeeds
                        else if result.ClientRefused? || result.WrittenButFailed? then Reports
                        else Raises
    {
      if work.Conflicts? {
        return Reports;
      }
      if !work.Acts? {
        return Succeeds;
      }
      if !result.ClientRefused? && !result.Escaped? {
        events := events + [Event(WriteClient, State())];
      }
      match result {
        case Written => ending := Succeeds;
        case ClientRefused => ending := Reports;
        case WrittenButFailed => ending := Reports;
        case Escaped => ending := Raises;
        case WrittenButEscaped => ending := Raises;
      }
    }

    method SaveJournal(journal: InstallJournal)
      modifies this`journalFile
      ensures journalFile == Some(journal.Document())
    {
      journalFile := Some(journal.Document());
    }
  }

  /** A registration owned under a fingerprint. */
  predicate IsRegistration(resource: OwnedResource) {
    resource.kind == ClientRegistrationKind && resource.fingerprint.Some? && resource.fingerprint.value != ""
  }

  function OwnedFingerprints(owned: seq<OwnedResource>): set<string> {
    if owned == [] then {}
    else
      OwnedFingerprints(owned[..|owned| - 1])
      + if IsRegistration(owned[|owned| - 1]) then {owned[|owned| - 1].fingerprint.value} else {}
  }

  lemma {:induction false} FingerprintIsOwned(owned: seq<OwnedResource>, resource: OwnedResource)
    requires resource in owned && IsRegistration(resource)
    ensures resource.fingerprint.value in OwnedFingerprints(owned)
  {
    var n := |owned| - 1;
    if owned[n] != resource {
      assert owned == owned[..n] + [owned[n]];
      FingerprintIsOwned(owned[..n], resource);
    }
  }

  /**
   What this installation registered stays its own: as long as the journal owns the registration and
   the client still launches it, no later registration under that name is a conflict, and no
   takeover is needed, however the new registration differs.
   */
  lemma OwnRegistrationIsNeverConflict(
    owned: seq<OwnedResource>, identifier: string, earlier: ClientBase.Registration, later: ClientBase.Registration,
    current: ClientBase.Entry, takeover: bool, hash: string -> string)
    requires OwnedResource(ClientRegistrationKind, identifier,
               Some(ClientBase.LaunchDigest(ClientBase.LaunchOf(earlier), hash))) in owned
    requires ClientBase.LaunchDigest(ClientBase.LaunchOf(earlier), hash) != ""
    requires ClientBase.Launches(current, ClientBase.LaunchOf(earlier))
    ensures var plan := ClientBase.PlanFor(later, Some(current), OwnedFingerprints(owned), takeover, hash);
            && plan.Ok? && !plan.value.Blocked() && plan.value.takeover == []
            && (plan.value.actions == [] || plan.value.actions == [ClientBase.UpdateServer])
  {
    var digest := ClientBase.LaunchDigest(ClientBase.LaunchOf(earlier), hash);
    FingerprintIsOwned(owned, OwnedResource(ClientRegistrationKind, identifier, Some(digest)));
  }

  const CONFIG_FILE := "config.toml"
  const TIMER_NAME := "open-transcribe-cleanup.timer"

  const TIMER_KEY := ResourceKey(CleanupTimerKind, TIMER_NAME)

  class SetupService {
    const stores: Stores
    const journal: InstallJournal

    ghost function Now(): Snapshot
      reads stores`events, stores`keyring, stores`config, journal`log
    {
      Snapshot(stores.events, stores.State(), journal.log)
    }

    constructor (stores: Stores, journal: InstallJournal)
      ensures this.stores == stores && this.journal == journal
    {
      this.stores, this.journal := stores, journal;
    }

    /** Stops at the first write that fails; the caller then learns of none of them. */
    method WriteCredentials(
      plan: SetupPlan, items: seq<ProviderIntent>, faults: Faults) returns (failed: bool, written: seq<Write>)
      requires Covers(plan.config, items)
      modifies stores`keyring, stores`events
      ensures var writes := Writes(items, plan.config);
              var n := Attempted(writes, faults, 0);
              && (failed <==> !AllPut(writes, faults)) && written == (if failed then [] else writes)
              && stores.State() == AfterPuts(old(stores.State()), writes, faults, n)
              && stores.events == old(stores.events) + PutEvents(old(stores.State()), writes, faults, n)
    {
      ghost var start, events, all := stores.State(), stores.events, Writes(items, plan.config);
      written := [];
      for i := 0 to |items|
        invariant written == Writes(items[..i], plan.config)
        invariant Progress(start, events, written, all, faults)
      {
        failed, written := WriteProvider(plan, items, i, faults, written, start, events, all);
        if failed {
          return true, [];
        }
      }
      assert items[..|items|] == items;
      AttemptedPast(all, faults, 0, |all|);
      failed := false;
    }

    method WriteProvider(
      plan: SetupPlan, items: seq<ProviderIntent>, i: nat, faults: Faults, before: seq<Write>,
      ghost start: Durable, ghost events: seq<Event>, ghost all: seq<Write>) returns (failed: bool, written: seq<Write>)
      requires Covers(plan.config, items) && i < |items|
      requires before == Writes(items[..i], plan.config) && all == Writes(items, plan.config)
      requires Progress(start, events, before, all, faults)
      modifies stores`keyring, stores`events
      ensures !failed ==>
                written == Writes(items[..i + 1], plan.config) && Progress(start, events, written, all, faults)
      ensures failed ==> Stopped(start, events, all, faults)
    {
      var item := items[i];
      var managed := plan.config.providers[item.providerId];
      written := before;
      for n := 0 to |item.secrets|
        invariant written == WrittenSoFar(items, plan.config, i, n)
        invariant Progress(start, events, written, all, faults)
      {
        var entry := item.secrets[n];
        WrittenPrefix(items, plan.config, i, n + 1);
        if entry.role in managed.credentials {
          var w := Write(Slot(item.providerId, entry.role), managed.credentials[entry.role], entry.secret);
          assert WrittenSoFar(items, plan.config, i, n + 1) == written + [w];
          failed := PutNext(w, faults, written, start, events, all);
          if failed {
            return;
          }
          written := written + [w];
        } else {
          assert WrittenSoFar(items, plan.config, i, n + 1) == written;
        }
      }
      WrittenPrefix(items, plan.config, i, |item.secrets|);
      failed := false;
    }

    method PutNext(
      w: Write, faults: Faults, written: seq<Write>,
      ghost start: Durable, ghost events: seq<Event>, ghost all: seq<Write>) returns (failed: bool)
      requires written + [w] <= all && Progress(start, events, written, all, faults)
      modifies stores`keyring, stores`events
      ensures !failed ==> Progress(start, events, written + [w], all, faults)
      ensures failed ==> Stopped(start, events, all, faults)
    {
      failed := stores.Put(w, At(faults.put, |written|));
      PutStep(start, written, w, all, faults);
      AttemptedPast(all, faults, 0, |written|);
      assert all[|written|] == w;
    }

    /** All of `written` was put, and the stores show exactly that. */
    ghost predicate Progress(start: Durable, events: seq<Event>, written: seq<Write>, all: seq<Write>, faults: Faults)
      reads stores
    {
      && (forall j :: 0 <= j < |written| && j < |all| ==> !PutFails(all[j], At(faults.put, j)))
      && stores.State() == AfterPuts(start, written, faults, |written|)
      && stores.events == events + PutEvents(start, written, faults, |written|)
    }

    /** Some write failed, and the stores show everything up to it. */
    ghost predicate Stopped(start: Durable, events: seq<Event>, all: seq<Write>, faults: Faults)
      reads stores
    {
      && !AllPut(all, faults)
      && stores.State() == AfterPuts(start, all, faults, Attempted(all, faults, 0))
      && stores.events == events + PutEvents(start, all, faults, Attempted(all, faults, 0))
    }

    static lemma PutStep(start: Durable, written: seq<Write>, w: Write, all: seq<Write>, faults: Faults)
      requires written + [w] <= all
      ensures var n := |written| + 1;
              && AfterPuts(start, all, faults, n) == AfterPuts(start, written + [w], faults, n)
              && AfterPuts(start, written + [w], faults, n)
                 == Durable(PutKeyring(AfterPuts(start, written, faults, n - 1).keyring, w, At(faults.put, n - 1)),
                   AfterPuts(start, written, faults, n - 1).config)
              && PutEvents(start, all, faults, n) == PutEvents(start, written + [w], faults, n)
              && PutEvents(start, written + [w], faults, n)
                 == PutEvents(start, written, faults, n - 1)
                   + [Event(PutKey, AfterPuts(start, written + [w], faults, n))]
    {
      PutPrefix(start, written + [w], all, faults, |written| + 1);
      PutPrefix(start, written, written + [w], faults, |written|);
    }

    /** Deletes a key, or leaves it for a later cleanup. */
    method DeleteOrQueue(ref: CredentialRef, result: StoreResult) returns (failed: bool)
      modifies stores`keyring, stores`events, journal`pendingCleanup
      ensures stores.keyring == DeleteKeyring(old(stores.keyring), ref, result)
      ensures stores.events == old(stores.events) + [Event(DeleteKey, stores.State())]
      ensures journal.pendingCleanup
           == old(journal.pendingCleanup)
              + if result == Done then [] else [OwnedResource(CredentialKind, ref.account, None)]
      ensures failed <==> result != Done
    {
      failed := stores.Delete(ref, result);
      if failed {
        journal.pendingCleanup := journal.pendingCleanup + [OwnedResource(CredentialKind, ref.account, None)];
      }
    }

    /** Deletes a key this run wrote and gives up its ownership, or leaves it for a later cleanup. */
    method Compensate(w: Write, result: StoreResult)
      requires journal.Valid()
      modifies stores`keyring, stores`events, journal
      ensures journal.Valid() && journal.log == old(journal.log)
      ensures TIMER_KEY in journal.registry <==> TIMER_KEY in old(journal.registry)
      ensures stores.keyring == DeleteKeyring(old(stores.keyring), w.ref, result)
      ensures stores.events == old(stores.events) + [Event(DeleteKey, stores.State())]
      ensures journal.pendingCleanup
           == old(journal.pendingCleanup)
              + if result == Done then [] else [OwnedResource(CredentialKind, w.ref.account, None)]
    {
      var failed := DeleteOrQueue(w.ref, result);
      if !failed {
        var _ := journal.Disown(CredentialKind, w.ref.account + "|" + LabelOf(w.slot));
      }
    }

    /** Deletes only the keys this run wrote; what cannot be deleted is left for a later cleanup. */
    method CompensateCredentials(written: seq<Write>, faults: Faults)
      requires journal.Valid()
      modifies stores`keyring, stores`events, journal
      ensures journal.Valid() && journal.log == old(journal.log)
      ensures TIMER_KEY in journal.registry <==> TIMER_KEY in old(journal.registry)
      ensures stores.State() == AfterDeletes(old(stores.State()), RefsOf(written), faults, |written|)
      ensures stores.events
                == old(stores.events) + DeleteEvents(old(stores.State()), RefsOf(written), faults, |written|)
      ensures journal.pendingCleanup == old(journal.pendingCleanup) + PendingOf(RefsOf(written), faults, |written|)
    {
      ghost var refs := RefsOf(written);
      for n := 0 to |written|
        invariant journal.Valid() && journal.log == old(journal.log)
        invariant TIMER_KEY in journal.registry <==> TIMER_KEY in old(journal.registry)
        invariant stores.State() == AfterDeletes(old(stores.State()), refs, faults, n)
        invariant stores.events == old(stores.events) + DeleteEvents(old(stores.State()), refs, faults, n)
        invariant journal.pendingCleanup == old(journal.pendingCleanup) + PendingOf(refs, faults, n)
      {
        Compensate(written[n], At(faults.remove, n));
      }
    }

    /** Deletes replaced keys; called only once the new configuration is in place. */
    method Retire(refs: seq<CredentialRef>, faults: Faults)
      requires journal.Valid()
      modifies stores`keyring, stores`events, stores`journalFile, journal`pendingCleanup
      ensures journal.Valid()
      ensures stores.State() == AfterDeletes(old(stores.State()), refs, faults, |refs|)
      ensures stores.events == old(stores.events) + DeleteEvents(old(stores.State()), refs, faults, |refs|)
      ensures journal.pendingCleanup == old(journal.pendingCleanup) + PendingOf(refs, faults, |refs|)
    {
      for n := 0 to |refs|
        invariant journal.Valid()
        invariant stores.State() == AfterDeletes(old(stores.State()), refs, faults, n)
        invariant stores.events == old(stores.events) + DeleteEvents(old(stores.State()), refs, faults, n)
        invariant journal.pendingCleanup == old(journal.pendingCleanup) + PendingOf(refs, faults, n)
      {
        var _ := DeleteOrQueue(refs[n], At(faults.remove, n));
      }
      if refs != [] {
        stores.SaveJournal(journal);
      }
    }

    /** Ownership of every written key, recorded one by one. */
    method OwnCredentials(written: seq<Write>)
      requires journal.Valid()
      modifies journal`owned, journal`registry
      ensures journal.Valid()
      ensures forall w :: w in written ==>
                ResourceKey(CredentialKind, w.ref.account + "|" + LabelOf(w.slot)) in journal.registry
      ensures TIMER_KEY in journal.registry <==> TIMER_KEY in old(journal.registry)
    {
      for n := 0 to |written|
        invariant journal.Valid()
        invariant forall w :: w in written[..n] ==>
                    ResourceKey(CredentialKind, w.ref.account + "|" + LabelOf(w.slot)) in journal.registry
        invariant TIMER_KEY in journal.registry <==> TIMER_KEY in old(journal.registry)
      {
        journal.Own(OwnedResource(CredentialKind, written[n].ref.account + "|" + LabelOf(written[n].slot), None));
        assert written[..n + 1] == written[..n] + [written[n]];
      }
      assert written[..|written|] == written;
    }

    /** Makes the timer follow the permission for temporary audio: present and owned with it, gone without. */
    method ReconcileTimer(plan: SetupPlan, timer: TimerState, faults: Faults) returns (failed: bool)
      requires journal.Valid()
      requires timer.owned <==> TIMER_KEY in journal.registry
      modifies stores`journalFile, journal
      ensures journal.Valid() && journal.pendingCleanup == old(journal.pendingCleanup)
      ensures journal.log == old(journal.log) + TimerReport(plan, faults, timer)
      ensures failed <==> TimerFails(plan, faults, timer)
      ensures failed ==> stores.journalFile == Some(journal.Document())
    {
      failed := false;
      if timer.available {
        var owned := journal.Owns(CleanupTimerKind, TIMER_NAME);
        if plan.config.temporaryAudio {
          if !(owned && timer.installed) {
            InstallTimer(faults);
            failed := !faults.timerInstall;
          }
        } else if owned {
          RemoveTimer(faults);
        }
      }
    }

    method InstallTimer(faults: Faults)
      requires journal.Valid()
      modifies stores`journalFile, journal`phases, journal`log, journal`owned, journal`registry
      ensures journal.Valid() && stores.journalFile == Some(journal.Document())
      ensures journal.log == old(journal.log) + [Note(CleanupTimer, Intended),
                if faults.timerInstall then Note(CleanupTimer, Applied) else FailureNote(CleanupTimer)]
      ensures faults.timerInstall ==> TIMER_KEY in journal.registry
    {
      journal.Record(CleanupTimer, Intended, None);
      if faults.timerInstall {
        OwnTimer();
        journal.Record(CleanupTimer, Applied, None);
      } else {
        journal.Record(CleanupTimer, Failed, Some(ErrorCode));
      }
      stores.SaveJournal(journal);
    }

    method OwnTimer()
      requires journal.Valid()
      modifies journal`owned, journal`registry
      ensures journal.Valid() && TIMER_KEY in journal.registry
    {
      journal.Own(OwnedResource(CleanupTimerKind, TIMER_NAME, None));
    }

    method RemoveTimer(faults: Faults)
      requires journal.Valid()
      modifies stores`journalFile, journal`phases, journal`log, journal`owned, journal`registry
      ensures journal.Valid() && stores.journalFile == Some(journal.Document())
      ensures journal.log == old(journal.log) + [PhaseRecord(CleanupTimer, Intended, Some(Remove)),
                if faults.timerRemove then PhaseRecord(CleanupTimer, Applied, Some(Removed))
                else PhaseRecord(CleanupTimer, Failed, Some(Remove))]
      ensures TIMER_KEY in journal.registry <==> TIMER_KEY in old(journal.registry) && !faults.timerRemove
    {
      journal.Record(CleanupTimer, Intended, Some(Remove));
      if faults.timerRemove {
        var _ := journal.Disown(CleanupTimerKind, TIMER_NAME);
      }
      journal.Record(
        CleanupTimer, if faults.timerRemove then Applied else Failed,
        if faults.timerRemove then Some(Removed) else Some(Remove));
      stores.SaveJournal(journal);
    }

    /** The journal owns the registration under its fingerprint. */
    ghost predicate OwnsRegistration(identifier: string, fingerprint: string)
      reads journal`registry
    {
      var key := ResourceKey(ClientRegistrationKind, identifier);
      key in journal.registry
        && journal.registry[key] == OwnedResource(ClientRegistrationKind, identifier, Some(fingerprint))
    }

    /**
     Registers with the client after the engine answered; a reported error leaves everything else. An
     error that escapes ends the run with what was saved before.
     */
    method Register(
      work: ClientWork, faults: Faults, identifier: string, fingerprint: string) returns (outcome: Outcome)
      requires journal.Valid()
      modifies stores`events, stores`journalFile, journal
      ensures journal.Valid() && Now() == Advance(old(Now()), ClientBlock(old(stores.State()), work, faults))
      ensures outcome == ClientOutcome(work, faults)
      ensures outcome.Returned? ==> stores.journalFile == Some(journal.Document())
      ensures outcome.Raised? ==>
                stores.journalFile == old(stores.journalFile) && journal.registry == old(journal.registry)
      ensures outcome.Returned? && outcome.registered ==> OwnsRegistration(identifier, fingerprint)
    {
      journal.Record(Client, Intended, None);
      var ending := CallClient(work, faults);
      if ending.Raises? {
        return Raised;
      }
      SettleClient(ending.Reports?, faults.readback.EntryFound?, identifier, fingerprint);
      outcome := if ending.Reports? then Returned(true, false, true, [Client]) else Returned(true, true, false, []);
    }

    /** The adapter's call and, when it succeeds, the readback. */
    method CallClient(work: ClientWork, faults: Faults) returns (ending: AdapterEnding)
      modifies stores`events
      ensures stores.events
           == old(stores.events) + if ClientWrites(work, faults) then [Event(WriteClient, stores.State())] else []
      ensures ending
           == if ClientFails(work, faults) then Reports else if ClientEscapes(work, faults) then Raises else Succeeds
    {
      ending := stores.ApplyPlan(work, faults.client);
      if ending.Succeeds? && faults.readback.ReadbackRaises? {
        ending := Raises;
      }
    }

    method SettleClient(failed: bool, found: bool, identifier: string, fingerprint: string)
      requires journal.Valid()
      modifies stores`journalFile, journal`phases, journal`log, journal`owned, journal`registry
      ensures journal.Valid() && stores.journalFile == Some(journal.Document())
      ensures journal.log == old(journal.log) + [if failed then FailureNote(Client)
                else PhaseRecord(Client, Applied, if found then None else Some(ReadbackUnavailable))]
      ensures !failed ==> OwnsRegistration(identifier, fingerprint)
    {
      if failed {
        journal.Record(Client, Failed, Some(ErrorCode));
      } else {
        journal.Own(OwnedResource(ClientRegistrationKind, identifier, Some(fingerprint)));
        journal.Record(Client, Applied, if found then None else Some(ReadbackUnavailable));
      }
      stores.SaveJournal(journal);
    }

    /** A failed block: record it, undo the written keys, save. */
    method Undo(written: seq<Write>, faults: Faults, phase: PhaseName, code: Option<OutcomeCode>)
      requires journal.Valid()
      modifies stores, journal
      ensures journal.Valid() && (TIMER_KEY in journal.registry <==> TIMER_KEY in old(journal.registry))
      ensures Now()
                == Advance(old(Now()), UndoBlock(old(stores.State()), written, faults,
                  PhaseRecord(phase, Failed, code)))
      ensures stores.journalFile == Some(journal.Document())
    {
      journal.Record(phase, Failed, code);
      CompensateCredentials(written, faults);
      stores.SaveJournal(journal);
    }

    /** Writes the keys and, when all are stored, owns them. */
    method PutCredentials(
      plan: SetupPlan, items: seq<ProviderIntent>, faults: Faults) returns (failed: bool, written: seq<Write>)
      requires journal.Valid() && Covers(plan.config, items)
      modifies stores, journal
      ensures journal.Valid() && (TIMER_KEY in journal.registry <==> TIMER_KEY in old(journal.registry))
      ensures var d, writes := old(stores.State()), Writes(items, plan.config);
              && Now()
                 == Advance(old(Now()), Chain(RecordBlock(d, [Note(Credentials, Intended)]),
                   PutBlock(d, writes, faults)))
              && (failed <==> !AllPut(writes, faults)) && (!failed ==> written == writes)
    {
      ghost var before, d := Now(), stores.State();
      journal.Record(Credentials, Intended, None);
      ghost var intended := RecordBlock(d, [Note(Credentials, Intended)]);
      assert Now() == Advance(before, intended);
      failed, written := WriteCredentials(plan, items, faults);
      assert Now() == Advance(Advance(before, intended), PutBlock(d, Writes(items, plan.config), faults));
      AdvanceChain(before, intended, PutBlock(d, Writes(items, plan.config), faults));
      if !failed {
        OwnCredentials(written);
      }
    }

    /** The first block: write the keys, own them, save; undo them if saving reports a setup error. */
    method StoreCredentials(
      plan: SetupPlan, items: seq<ProviderIntent>, faults: Faults) returns (stop: Option<Outcome>, written: seq<Write>)
      requires journal.Valid() && Covers(plan.config, items)
      modifies stores, journal
      ensures journal.Valid() && (TIMER_KEY in journal.registry <==> TIMER_KEY in old(journal.registry))
      ensures var writes := Writes(items, plan.config);
              && Now() == Advance(old(Now()), StoreBlock(old(stores.State()), writes, faults))
              && stop == StoreStop(writes, faults) && (stop.None? ==> written == writes)
      ensures stop.Some? && stop.value.Returned? ==> stores.journalFile == Some(journal.Document())
    {
      ghost var before, d, writes := Now(), stores.State(), Writes(items, plan.config);
      var failed;
      failed, written := PutCredentials(plan, items, faults);
      ghost var puts := Chain(RecordBlock(d, [Note(Credentials, Intended)]), PutBlock(d, writes, faults));
      journal.Record(Credentials, if failed then Failed else Applied, if failed then Some(ErrorCode) else None);
      ghost var note := RecordBlock(puts.after,
        [if failed then FailureNote(Credentials) else Note(Credentials, Applied)]);
      AdvanceChain(before, puts, note);
      assert Now() == Advance(before, Chain(puts, note));
      if failed {
        stores.SaveJournal(journal);
        stop := Some(Returned(false, false, true, []));
      } else {
        stop := SaveCredentials(written, faults);
        AdvanceChain(before, Chain(puts, note), UndoBlock(puts.after, writes, faults, FailureNote(Credentials)));
      }
    }

    method SaveCredentials(written: seq<Write>, faults: Faults) returns (stop: Option<Outcome>)
      requires journal.Valid()
      modifies stores, journal
      ensures journal.Valid() && (TIMER_KEY in journal.registry <==> TIMER_KEY in old(journal.registry))
      ensures Now() == if faults.firstSave == SetupFailure
                       then Advance(old(Now()), UndoBlock(old(stores.State()), written, faults,
                         FailureNote(Credentials)))
                       else old(Now())
      ensures stop == if faults.firstSave == SetupFailure then Some(Returned(false, false, true, []))
                      else if faults.firstSave == SystemFailure then Some(Raised) else None
      ensures stop.Some? && stop.value.Returned? ==> stores.journalFile == Some(journal.Document())
    {
      match faults.firstSave
      case SystemFailure =>
        stop := Some(Raised);
      case SetupFailure =>
        Undo(written, faults, Credentials, Some(ErrorCode));
        stop := Some(Returned(false, false, true, []));
      case Saved =>
        stores.SaveJournal(journal);
        stop := None;
    }

    method ReplaceConfig(plan: SetupPlan, faults: Faults) returns (failed: bool)
      requires journal.Valid()
      modifies stores`config, stores`events, journal
      ensures journal.Valid() && (TIMER_KEY in journal.registry <==> TIMER_KEY in old(journal.registry))
      ensures Now() == Advance(old(Now()), ReplaceBlock(old(stores.State()), plan, faults))
      ensures failed <==> !faults.commit.Committed?
    {
      journal.Record(Config, Intended, None);
      failed := stores.SaveConfig(plan.config, faults.commit);
      if !failed {
        journal.Own(OwnedResource(ConfigKind, CONFIG_FILE, None));
        journal.Record(Config, Applied, None);
      }
    }

    /** The second block: switch the configuration; on any error undo the keys, switched or not. */
    method SwitchConfig(plan: SetupPlan, written: seq<Write>, faults: Faults) returns (failed: bool)
      requires journal.Valid()
      modifies stores, journal
      ensures journal.Valid() && (TIMER_KEY in journal.registry <==> TIMER_KEY in old(journal.registry))
      ensures Now() == Advance(old(Now()), SwitchBlock(old(stores.State()), plan, written, faults))
      ensures failed <==> !CommitHeld(faults)
      ensures stores.journalFile == Some(journal.Document())
    {
      ghost var before, replaced := Now(), ReplaceBlock(stores.State(), plan, faults);
      failed := ReplaceConfig(plan, faults);
      if failed || !faults.secondSave {
        Undo(written, faults, Config, None);
        AdvanceChain(before, replaced, UndoBlock(replaced.after, written, faults, Note(Config, Failed)));
        failed := true;
      } else {
        stores.SaveJournal(journal);
      }
    }

    /** The probe, and only if it succeeds the client. */
    method ProbeAndRegister(
      work: ClientWork, faults: Faults, identifier: string, fingerprint: string) returns (outcome: Outcome)
      requires journal.Valid()
      modifies stores`events, stores`journalFile, journal
      ensures journal.Valid() && (outcome.Returned? ==> stores.journalFile == Some(journal.Document()))
      ensures Now() == Advance(old(Now()), ProbeBlock(old(stores.State()), work, faults))
      ensures outcome == ProbeOutcome(work, faults)
    {
      ghost var before, d := Now(), stores.State();
      Probe(faults);
      if !faults.engine {
        outcome := Returned(true, false, true, [Engine]);
      } else if work.NoClient? {
        outcome := Returned(true, false, false, []);
      } else {
        outcome := Register(work, faults, identifier, fingerprint);
        AdvanceChain(before, ProbeBlock(d, NoClient, faults), ClientBlock(d, work, faults));
      }
    }

    method Probe(faults: Faults)
      requires journal.Valid()
      modifies stores`events, stores`journalFile, journal
      ensures journal.Valid() && stores.journalFile == Some(journal.Document())
      ensures Now() == Advance(old(Now()), ProbeBlock(old(stores.State()), NoClient, faults))
    {
      journal.Record(Engine, Intended, None);
      stores.ProbeEngine(faults.engine);
      journal.Record(
        Engine, if faults.engine then Applied else Failed, if faults.engine then None else Some(ErrorCode));
      stores.SaveJournal(journal);
    }

    /** What follows a committed configuration: retire, timer, engine, client. */
    method FinishCommitted(
      plan: SetupPlan, work: ClientWork, timer: TimerState, faults: Faults, identifier: string, fingerprint: string)
      returns (outcome: Outcome)
      requires journal.Valid()
      requires timer.owned <==> TIMER_KEY in journal.registry
      modifies stores, journal
      ensures journal.Valid() && (outcome.Returned? ==> stores.journalFile == Some(journal.Document()))
      ensures Now() == Advance(old(Now()), FinishBlock(old(stores.State()), plan, work, faults, timer))
      ensures outcome == FinishOutcome(plan, work, faults, timer)
    {
      ghost var before, retired := Now(), DeleteBlock(stores.State(), plan.retired, faults);
      Retire(plan.retired, faults);
      assert Now() == Advance(before, retired);
      var failed := ReconcileTimer(plan, timer, faults);
      ghost var timing := RecordBlock(retired.after, TimerReport(plan, faults, timer));
      assert Now() == Advance(Advance(before, retired), timing);
      AdvanceChain(before, retired, timing);
      if failed {
        outcome := Returned(true, false, true, [CleanupTimer]);
      } else {
        outcome := ProbeAndRegister(work, faults, identifier, fingerprint);
        AdvanceChain(before, Chain(retired, timing), ProbeBlock(retired.after, work, faults));
      }
    }

    /** One apply runs its blocks in order and stops at the first that fails. */
    method ApplyLocked(
      plan: SetupPlan, intent: SetupIntent, timer: TimerState, faults: Faults, identifier: string, fingerprint: string)
      returns (outcome: Outcome)
      requires journal.Valid() && Covers(plan.config, intent.providers)
      requires timer.owned <==> TIMER_KEY in journal.registry
      modifies stores, journal
      ensures journal.Valid() && (outcome.Returned? ==> stores.journalFile == Some(journal.Document()))
      ensures var writes := Writes(intent.providers, plan.config);
              && Now() == Advance(old(Now()), RunBlock(old(stores.State()), plan, writes, intent.Work(), faults, timer))
              && outcome == RunOutcome(plan, writes, intent.Work(), faults, timer)
    {
      ghost var before, d, writes := Now(), stores.State(), Writes(intent.providers, plan.config);
      ghost var store := StoreBlock(d, writes, faults);
      var stop, written := StoreCredentials(plan, intent.providers, faults);
      if stop.Some? {
        return stop.value;
      }
      ghost var switched := SwitchBlock(store.after, plan, writes, faults);
      var failed := SwitchConfig(plan, written, faults);
      AdvanceChain(before, store, switched);
      if failed {
        return Returned(false, false, true, []);
      }
      outcome := FinishCommitted(plan, intent.Work(), timer, faults, identifier, fingerprint);
      AdvanceChain(before, Chain(store, switched), FinishBlock(switched.after, plan, intent.Work(), faults, timer));
    }

    /**
     One apply: its durable changes, its records and its report are exactly those specified, and
     the journal on disk at every report is the one in memory.
     */
    method Apply(
      plan: SetupPlan, intent: SetupIntent, timer: TimerState, faults: Faults, identifier: string, fingerprint: string)
      returns (outcome: Outcome)
      requires journal.Valid() && Covers(plan.config, intent.providers)
      requires timer.owned <==> TIMER_KEY in journal.registry
      modifies stores, journal
      ensures journal.Valid() && (outcome.Returned? ==> stores.journalFile == Some(journal.Document()))
      ensures var writes := Writes(intent.providers, plan.config);
              var report := RunReport(plan, writes, intent.Work(), faults, timer);
              && stores.events
                 == old(stores.events) + RunEvents(old(stores.State()), plan, writes, intent.Work(), faults, timer)
              && journal.log == old(journal.log) + report.records && outcome == report.outcome
    {
      BlocksAreTheRun(stores.State(), plan, Writes(intent.providers, plan.config), intent.Work(), faults, timer);
      outcome := ApplyLocked(plan, intent, timer, faults, identifier, fingerprint);
    }
  
    /** The planned configuration and the keys it moves; no store and no journal is touched. */
    method Plan(
      intent: SetupIntent, descriptors: Descriptors, newId: string,
      tokens: nat -> string) returns (plan: Option<SetupPlan>)
      ensures plan.Some? <==> Described(intent.providers, descriptors)
      ensures plan.Some? ==> plan.value == PlanOf(intent, stores.config, descriptors, newId, tokens)
    {
      var previous, items := stores.config, intent.providers;
      var installation := InstallationOf(previous, newId);
      var draft := Draft(map[], [], []);
      for i := 0 to |items|
        invariant Described(items[..i], descriptors)
        invariant draft == DraftItems(items[..i], previous, descriptors, installation, tokens)
      {
        if items[i].providerId !in descriptors {
          return None;
        }
        draft := PlanProvider(draft, items[i], previous, descriptors[items[i].providerId], installation, tokens);
        assert items[..i + 1][..i] == items[..i];
      }
      assert items[..|items|] == items;
      var config := ManagedConfig(installation, draft.providers, intent.temporaryAudio, intent.client);
      plan := Some(SetupPlan(config, draft.retired, draft.minted));
    }

    /** What registering with the client would do, given the entry the client has under that name. */
    method PlanClient(
      registration: ClientBase.Registration, current: Option<ClientBase.Entry>, takeover: bool, hash: string -> string)
      returns (plan: Result<ClientBase.RegistrationPlan, ClientBase.Fingerprint>)
      ensures plan == ClientBase.PlanFor(registration, current, OwnedFingerprints(journal.owned), takeover, hash)
    {
      var owned: set<string> := {};
      for i := 0 to |journal.owned|
        invariant owned == OwnedFingerprints(journal.owned[..i])
      {
        assert journal.owned[..i + 1][..i] == journal.owned[..i];
        if IsRegistration(journal.owned[i]) {
          owned := owned + {journal.owned[i].fingerprint.value};
        }
      }
      assert journal.owned[..|journal.owned|] == journal.owned;
      plan := ClientBase.PlanFor(registration, current, owned, takeover, hash);
    }

    method PlanProvider(
      draft: Draft, item: ProviderIntent, previous: Option<ManagedConfig>, roles: seq<string>, installation: string,
      tokens: nat -> string)
      returns (planned: Draft)
      ensures planned == DraftItem(draft, item, previous, roles, installation, tokens)
    {
      ghost var start := RoleDraft(ExistingRefs(previous, item.providerId), draft.minted, draft.retired);
      var refs, minted, retired := ExistingRefs(previous, item.providerId), draft.minted, draft.retired;
      for i := 0 to |roles|
        invariant RoleDraft(refs, minted, retired) == DraftRoles(start, item, roles[..i], installation, tokens)
      {
        assert roles[..i + 1][..i] == roles[..i];
        var role := roles[i];
        if SecretOf(item.secrets, role).Some? {
          if role in refs {
            retired := retired + [refs[role]];
          }
          refs := refs[role := NewCredentialRef(installation, Slot(item.providerId, role), tokens(|minted|))];
          minted := minted + [Slot(item.providerId, role)];
        }
      }
      assert roles[..|roles|] == roles;
      planned := Draft(draft.providers[item.providerId := ManagedProvider(item.enabled, refs)], minted, retired);
    }

    /**
     Removes the registration only if this installation owns it, then saves a configuration that
     names no client. No key and no reference changes, whatever fails.
     */
    method Disconnect(adapter: Option<string>, removal: StoreResult, removed: bool, commit: CommitResult)
      returns (failed: bool)
      requires journal.Valid()
      modifies stores`config, stores`events, stores`journalFile, journal
      ensures journal.Valid() && stores.keyring == old(stores.keyring)
      ensures stores.events == old(stores.events)
              + DisconnectEvents(old(stores.State()), old(RemovalFails(adapter, removal)), commit)
      ensures stores.config == if stores.events == old(stores.events) then old(stores.config)
                               else Some(old(stores.config).value.(client := None))
      ensures old(stores.config).None? ==> journal.log == old(journal.log)
      ensures old(stores.config).Some? && !failed ==> stores.journalFile == Some(journal.Document())
      ensures failed <==> old(stores.config).Some? && (old(RemovalFails(adapter, removal)) || !commit.Committed?)
      ensures old(Resolves(stores.State())) ==> Resolves(stores.State())
    {
      failed := false;
      if stores.config.None? {
        return;
      }
      var config := stores.config.value;
      journal.Record(PhaseName.Disconnect, Intended, None);
      var gone, error := RemoveRegistration(adapter, removal, removed);
      if error {
        journal.Record(PhaseName.Disconnect, Failed, Some(ErrorCode));
        stores.SaveJournal(journal);
        return true;
      }
      failed := stores.SaveConfig(config.(client := None), commit);
      SameReferences(old(stores.State()), stores.State());
      if !failed {
        journal.Record(PhaseName.Disconnect, if gone then Applied else Failed, None);
        stores.SaveJournal(journal);
      }
    }

    /** Removes the client's registration if the journal owns it, and disowns it when it is gone. */
    method RemoveRegistration(adapter: Option<string>, removal: StoreResult, removed: bool)
      returns (gone: bool, error: bool)
      requires journal.Valid() && stores.config.Some?
      modifies journal`owned, journal`registry
      ensures journal.Valid()
      ensures error <==> old(RemovalFails(adapter, removal))
      ensures error ==> journal.registry == old(journal.registry)
    {
      gone, error := true, false;
      var client := stores.config.value.client;
      if client.Some? && adapter.Some? {
        var identifier := adapter.value + ":" + client.value;
        var owned := journal.Owns(ClientRegistrationKind, identifier);
        if owned {
          if removal != Done {
            return false, true;
          }
          gone := removed;
          if gone {
            var _ := journal.Disown(ClientRegistrationKind, identifier);
          }
        }
      }
    }

    static lemma SameReferences(before: Durable, after: Durable)
      requires before.keyring == after.keyring && before.config.Some? && after.config.Some?
      requires before.config.value.providers == after.config.value.providers
      ensures Resolves(before) ==> Resolves(after)
    {
      assert forall slot :: HasSlot(after.config.value, slot) ==>
        HasSlot(before.config.value, slot) && RefAt(after.config.value, slot) == RefAt(before.config.value, slot);
    }

    /** The registration is one this installation owns, and removing it reports an error. */
    ghost predicate RemovalFails(adapter: Option<string>, removal: StoreResult)
      reads stores`config, journal`registry
    {
      && stores.config.Some? && stores.config.value.client.Some? && adapter.Some? && removal != Done
      && ResourceKey(ClientRegistrationKind, adapter.value + ":" + stores.config.value.client.value) in journal.registry
    }
  }
}

/**
 The setup transaction as a specification: what a plan contains, which durable changes one apply
 makes, in order and under every fault, and what it records. The keyring, the configuration file
 and the client's store share no transaction manager, so a run is the list of its durable changes
 and a crash cuts that list anywhere.
 */
module SetupTransaction {
  import opened Common
  import opened InstallJournals
  import opened PrivateFiles

  // ---------------------------------------------------------------- the saved setup

  datatype CredentialRef = CredentialRef(account: string)

  /** A role's new secret, as the user typed it. */
  datatype SecretEntry = SecretEntry(role: string, secret: string)

  datatype ProviderIntent = ProviderIntent(providerId: string, enabled: bool, secrets: seq<SecretEntry>)

  /** What the client adapter's plan asks of it: nothing when there is no client or nothing changes. */
  datatype ClientWork = NoClient | Conflicts | Idle | Acts

  /** `client` names the server entry to register, when a client adapter was chosen; `planned` is its plan. */
  datatype SetupIntent = SetupIntent(
    providers: seq<ProviderIntent>, temporaryAudio: bool, client: Option<string>, planned: ClientWork)
  {
    function Work(): ClientWork {
      if client.None? then NoClient else if planned.NoClient? then Idle else planned
    }
  }

  datatype ManagedProvider = ManagedProvider(enabled: bool, credentials: map<string, CredentialRef>)

  datatype ManagedConfig = ManagedConfig(
    installationId: string,
    providers: map<string, ManagedProvider>,
    temporaryAudio: bool,
    client: Option<string>)

  /** One place in a configuration where a credential reference lives. */
  datatype Slot = Slot(provider: string, role: string)

  predicate HasSlot(config: ManagedConfig, slot: Slot) {
    slot.provider in config.providers && slot.role in config.providers[slot.provider].credentials
  }

  function RefAt(config: ManagedConfig, slot: Slot): CredentialRef
    requires HasSlot(config, slot)
  {
    config.providers[slot.provider].credentials[slot.role]
  }

  ghost predicate References(config: ManagedConfig, ref: CredentialRef) {
    exists slot :: HasSlot(config, slot) && RefAt(config, slot) == ref
  }

  /** No two places share one keyring item. */
  ghost predicate Unshared(config: ManagedConfig) {
    forall s, t :: HasSlot(config, s) && HasSlot(config, t) && RefAt(config, s) == RefAt(config, t) ==> s == t
  }

  // ---------------------------------------------------------------- planning

  /** The random part of an account is sixteen hexadecimal digits. */
  const TOKEN_LENGTH: nat := 16

  function NewCredentialRef(installationId: string, slot: Slot, token: string): CredentialRef {
    CredentialRef(installationId + ":" + slot.provider + ":" + slot.role + ":" + token)
  }

  /** The first `n` tokens are pairwise distinct and end no known account: fresh random names. */
  ghost predicate FreshTokens(tokens: nat -> string, n: nat, known: set<CredentialRef>) {
    && (forall k :: 0 <= k < n ==> |tokens(k)| == TOKEN_LENGTH)
    && (forall j, k :: 0 <= j < n && 0 <= k < n && tokens(j) == tokens(k) ==> j == k)
    && (forall ref, k :: ref in known && 0 <= k < n ==> !EndsWith(ref.account, tokens(k)))
  }

  function SecretOf(secrets: seq<SecretEntry>, role: string): Option<string> {
    if secrets == [] then None
    else if secrets[0].role == role then Some(secrets[0].secret)
    else SecretOf(secrets[1..], role)
  }

  /** What planning accumulates; the k-th minted place uses the k-th token. */
  datatype Draft = Draft(providers: map<string, ManagedProvider>, minted: seq<Slot>, retired: seq<CredentialRef>)

  datatype RoleDraft = RoleDraft(refs: map<string, CredentialRef>, minted: seq<Slot>, retired: seq<CredentialRef>)

  function ExistingRefs(previous: Option<ManagedConfig>, providerId: string): map<string, CredentialRef> {
    if previous.Some? && providerId in previous.value.providers then previous.value.providers[providerId].credentials
    else map[]
  }

  function InstallationOf(previous: Option<ManagedConfig>, minted: string): string {
    if previous.Some? then previous.value.installationId else minted
  }

  /** One credential role: a stated secret moves the reference to a brand-new item. */
  function DraftRole(
    draft: RoleDraft, item: ProviderIntent, role: string, installation: string, tokens: nat -> string): RoleDraft
  {
    if SecretOf(item.secrets, role).None? then draft
    else
      var slot := Slot(item.providerId, role);
      RoleDraft(
        draft.refs[role := NewCredentialRef(installation, slot, tokens(|draft.minted|))],
        draft.minted + [slot],
        if role in draft.refs then draft.retired + [draft.refs[role]] else draft.retired)
  }

  function DraftRoles(
    draft: RoleDraft, item: ProviderIntent, roles: seq<string>, installation: string, tokens: nat -> string): RoleDraft
  {
    if roles == [] then draft
    else
      DraftRole(DraftRoles(draft, item, roles[..|roles| - 1], installation, tokens), item, roles[|roles| - 1],
        installation, tokens)
  }

  function DraftItem(
    draft: Draft, item: ProviderIntent, previous: Option<ManagedConfig>, roles: seq<string>,
    installation: string, tokens: nat -> string): Draft
  {
    var start := RoleDraft(ExistingRefs(previous, item.providerId), draft.minted, draft.retired);
    var done := DraftRoles(start, item, roles, installation, tokens);
    Draft(draft.providers[item.providerId := ManagedProvider(item.enabled, done.refs)], done.minted, done.retired)
  }

  type Descriptors = map<string, seq<string>>

  predicate Described(items: seq<ProviderIntent>, descriptors: Descriptors) {
    forall i :: 0 <= i < |items| ==> items[i].providerId in descriptors
  }

  function DraftItems(
    items: seq<ProviderIntent>, previous: Option<ManagedConfig>, descriptors: Descriptors,
    installation: string, tokens: nat -> string): Draft
    requires Described(items, descriptors)
  {
    if items == [] then Draft(map[], [], [])
    else
      var item := items[|items| - 1];
      DraftItem(
        DraftItems(items[..|items| - 1], previous, descriptors, installation, tokens),
        item, previous, descriptors[item.providerId], installation, tokens)
  }

  datatype SetupPlan = SetupPlan(config: ManagedConfig, retired: seq<CredentialRef>, minted: seq<Slot>)

  function PlanOf(
    intent: SetupIntent, previous: Option<ManagedConfig>, descriptors: Descriptors,
    freshInstallation: string, tokens: nat -> string): SetupPlan
    requires Described(intent.providers, descriptors)
  {
    var installation := InstallationOf(previous, freshInstallation);
    var draft := DraftItems(intent.providers, previous, descriptors, installation, tokens);
    SetupPlan(ManagedConfig(installation, draft.providers, intent.temporaryAudio, intent.client), draft.retired,
      draft.minted)
  }

  // ---------------------------------------------------------------- what apply writes

  /** One keyring write: `put(ref, secret)`. */
  datatype Write = Write(slot: Slot, ref: CredentialRef, secret: string)

  function ItemWrites(item: ProviderIntent, managed: ManagedProvider, n: nat): seq<Write>
    requires n <= |item.secrets|
  {
    if n == 0 then []
    else
      var entry := item.secrets[n - 1];
      ItemWrites(item, managed, n - 1)
      + if entry.role in managed.credentials
        then [Write(Slot(item.providerId, entry.role), managed.credentials[entry.role], entry.secret)] else []
  }

  predicate Covers(config: ManagedConfig, items: seq<ProviderIntent>) {
    forall i :: 0 <= i < |items| ==> items[i].providerId in config.providers
  }

  function Writes(items: seq<ProviderIntent>, config: ManagedConfig): seq<Write>
    requires Covers(config, items)
  {
    if items == [] then []
    else
      var item := items[|items| - 1];
      Writes(items[..|items| - 1], config)
      + ItemWrites(item, config.providers[item.providerId], |item.secrets|)
  }

  function RefsOf(writes: seq<Write>): (refs: seq<CredentialRef>)
    ensures |refs| == |writes|
    ensures forall i :: 0 <= i < |refs| ==> refs[i] == writes[i].ref
  {
    seq(|writes|, i requires 0 <= i < |writes| => writes[i].ref)
  }

  // ---------------------------------------------------------------- faults

  /** A keyring call: done, refused with no effect, or reported as failed after taking effect. */
  datatype StoreResult = Done | Refused | Lost

  /** Saving the journal: saved, a setup error, or an operating-system error. */
  datatype SaveResult = Saved | SetupFailure | SystemFailure

  /**
   Writing the client's store: written, refused with the store as it was, reported as failed after it
   was written, or ended by an error that nothing catches, before or after the store was written.
   */
  datatype ClientResult = Written | ClientRefused | WrittenButFailed | Escaped | WrittenButEscaped

  datatype Readback = EntryFound | NoEntry | ReadbackRaises

  datatype Faults = Faults(
    put: seq<StoreResult>,      // the keyring writes, in order; Done beyond the list
    remove: seq<StoreResult>,   // the keyring deletions, in order; Done beyond the list
    firstSave: SaveResult,      // the journal save after the credentials
    commit: CommitResult,       // replacing the configuration file
    secondSave: bool,           // the journal save after the configuration succeeds
    timerInstall: bool,
    timerRemove: bool,
    engine: bool,
    client: ClientResult,
    readback: Readback)

  function At(results: seq<StoreResult>, i: nat): StoreResult {
    if i < |results| then results[i] else Done
  }

  /** What the run finds outside the stores: the timer adapter and the journal's ownership of it. */
  datatype TimerState = TimerState(available: bool, owned: bool, installed: bool)

  // ---------------------------------------------------------------- the run of durable changes

  /** The stores a crash leaves behind. */
  datatype Durable = Durable(keyring: map<CredentialRef, string>, config: Option<ManagedConfig>)

  /** `get` answers: the item exists and is not empty. */
  predicate Present(keyring: map<CredentialRef, string>, ref: CredentialRef) {
    ref in keyring && keyring[ref] != ""
  }

  /** Every reference of the saved configuration resolves. */
  ghost predicate Resolves(d: Durable) {
    d.config.Some? ==> forall slot :: HasSlot(d.config.value, slot) ==> Present(d.keyring, RefAt(d.config.value, slot))
  }

  datatype EventKind = PutKey | DeleteKey | CommitConfig | EngineProbe(ok: bool) | WriteClient

  datatype Event = Event(kind: EventKind, after: Durable)

  /** An empty secret is refused before the backend is asked. */
  predicate PutFails(write: Write, result: StoreResult) {
    write.secret == "" || result != Done
  }

  function PutKeyring(
    keyring: map<CredentialRef, string>, write: Write, result: StoreResult): map<CredentialRef, string>
  {
    if write.secret == "" || result == Refused then keyring else keyring[write.ref := write.secret]
  }

  function DeleteKeyring(
    keyring: map<CredentialRef, string>, ref: CredentialRef, result: StoreResult): map<CredentialRef, string>
  {
    if result == Refused then keyring else keyring - {ref}
  }

  /** The stores after the first `n` writes. */
  function AfterPuts(d: Durable, writes: seq<Write>, faults: Faults, n: nat): Durable
    requires n <= |writes|
  {
    if n == 0 then d
    else
      var before := AfterPuts(d, writes, faults, n - 1);
      Durable(PutKeyring(before.keyring, writes[n - 1], At(faults.put, n - 1)), before.config)
  }

  function PutEvents(d: Durable, writes: seq<Write>, faults: Faults, n: nat): seq<Event>
    requires n <= |writes|
  {
    if n == 0 then [] else PutEvents(d, writes, faults, n - 1) + [Event(PutKey, AfterPuts(d, writes, faults, n))]
  }

  /** How many writes are attempted from `i` on before the first failure ends the phase. */
  function Attempted(writes: seq<Write>, faults: Faults, i: nat): (n: nat)
    requires i <= |writes|
    ensures i <= n <= |writes|
    decreases |writes| - i
  {
    if i == |writes| then i
    else if PutFails(writes[i], At(faults.put, i)) then i + 1
    else Attempted(writes, faults, i + 1)
  }

  predicate AllPut(writes: seq<Write>, faults: Faults) {
    forall i :: 0 <= i < |writes| ==> !PutFails(writes[i], At(faults.put, i))
  }

  /** The stores after the first `n` deletions. */
  function AfterDeletes(d: Durable, refs: seq<CredentialRef>, faults: Faults, n: nat): Durable
    requires n <= |refs|
  {
    if n == 0 then d
    else
      var before := AfterDeletes(d, refs, faults, n - 1);
      Durable(DeleteKeyring(before.keyring, refs[n - 1], At(faults.remove, n - 1)), before.config)
  }

  function DeleteEvents(d: Durable, refs: seq<CredentialRef>, faults: Faults, n: nat): seq<Event>
    requires n <= |refs|
  {
    if n == 0 then [] else DeleteEvents(d, refs, faults, n - 1) + [Event(DeleteKey, AfterDeletes(d, refs, faults, n))]
  }

  /** The configuration was replaced, and everything in the block that replaced it succeeded. */
  predicate CommitHeld(faults: Faults) {
    faults.commit.Committed? && faults.secondSave
  }

  /** The block failed although the new configuration is already in place. */
  predicate LateFailure(faults: Faults) {
    faults.commit.FailedAfterReplace? || (faults.commit.Committed? && !faults.secondSave)
  }

  predicate TimerFails(plan: SetupPlan, faults: Faults, timer: TimerState) {
    && timer.available && plan.config.temporaryAudio
    && !(timer.owned && timer.installed) && !faults.timerInstall
  }

  /** Registering touches the client's store only when the plan has an action. */
  predicate ClientWrites(work: ClientWork, faults: Faults) {
    work.Acts? && (faults.client.Written? || faults.client.WrittenButFailed? || faults.client.WrittenButEscaped?)
  }

  /** The adapter reports an error: a conflict, or a write that failed. */
  predicate ClientFails(work: ClientWork, faults: Faults) {
    work.Conflicts? || (work.Acts? && (faults.client.ClientRefused? || faults.client.WrittenButFailed?))
  }

  /** An error of the adapter or of the readback leaves the run without a report. */
  predicate ClientEscapes(work: ClientWork, faults: Faults) {
    || (work.Acts? && (faults.client.Escaped? || faults.client.WrittenButEscaped?))
    || (!ClientFails(work, faults) && faults.readback.ReadbackRaises?)
  }

  /** The end of a run whose configuration is committed: the probe, then perhaps the client. */
  function TailEvents(d: Durable, plan: SetupPlan, work: ClientWork, faults: Faults, timer: TimerState): seq<Event> {
    if TimerFails(plan, faults, timer) then []
    else if !faults.engine then [Event(EngineProbe(false), d)]
    else if ClientWrites(work, faults) then [Event(EngineProbe(true), d), Event(WriteClient, d)]
    else [Event(EngineProbe(true), d)]
  }

  /** Every durable change of one apply, in order. */
  function RunEvents(
    d: Durable, plan: SetupPlan, writes: seq<Write>, work: ClientWork, faults: Faults, timer: TimerState): seq<Event>
  {
    var n := Attempted(writes, faults, 0);
    var puts := PutEvents(d, writes, faults, n);
    var stored := AfterPuts(d, writes, faults, n);
    var committed := Durable(stored.keyring, Some(plan.config));
    if !AllPut(writes, faults) || faults.firstSave == SystemFailure then puts
    else if faults.firstSave == SetupFailure || faults.commit == FailedBeforeReplace then
      puts + DeleteEvents(stored, RefsOf(writes), faults, |writes|)
    else if LateFailure(faults) then
      puts + [Event(CommitConfig, committed)] + DeleteEvents(committed, RefsOf(writes), faults, |writes|)
    else
      puts + [Event(CommitConfig, committed)] + DeleteEvents(committed, plan.retired, faults, |plan.retired|)
      + TailEvents(AfterDeletes(committed, plan.retired, faults, |plan.retired|), plan, work, faults, timer)
  }

  /**
   The durable changes of a disconnection: the configuration without its client, unless there is
   none, removing the registration reported an error first, or the file could not be replaced.
   */
  function DisconnectEvents(d: Durable, removalFails: bool, commit: CommitResult): seq<Event> {
    if d.config.None? || removalFails || commit.FailedBeforeReplace? then []
    else [Event(CommitConfig, Durable(d.keyring, Some(d.config.value.(client := None))))]
  }

  // ---------------------------------------------------------------- what apply records and reports

  datatype Outcome =
    | Raised  // an error that nothing catches left the run without a report
    | Returned(configSaved: bool, registered: bool, failed: bool, repair: seq<PhaseName>)

  datatype Report = Report(records: seq<PhaseRecord>, outcome: Outcome)

  function Note(name: PhaseName, state: PhaseState): PhaseRecord {
    PhaseRecord(name, state, None)
  }

  /** The error of the phase that failed; its exact code is the caller's error code. */
  function FailureNote(name: PhaseName): PhaseRecord {
    PhaseRecord(name, Failed, Some(ErrorCode))
  }

  function TimerReport(plan: SetupPlan, faults: Faults, timer: TimerState): seq<PhaseRecord> {
    if !timer.available then []
    else if plan.config.temporaryAudio then
      if timer.owned && timer.installed then []
      else if faults.timerInstall then [Note(CleanupTimer, Intended), Note(CleanupTimer, Applied)]
      else [Note(CleanupTimer, Intended), FailureNote(CleanupTimer)]
    else if timer.owned then
      [PhaseRecord(CleanupTimer, Intended, Some(Remove)),
       if faults.timerRemove then PhaseRecord(CleanupTimer, Applied, Some(Removed))
       else PhaseRecord(CleanupTimer, Failed, Some(Remove))]
    else []
  }

  /** How registering with a client ends; what is noted besides the intention. */
  function ClientOutcome(work: ClientWork, faults: Faults): Outcome {
    if ClientFails(work, faults) then Returned(true, false, true, [Client])
    else if ClientEscapes(work, faults) then Raised
    else Returned(true, true, false, [])
  }

  function ClientReport(work: ClientWork, faults: Faults): seq<PhaseRecord> {
    [Note(Client, Intended)] +
    if ClientFails(work, faults) then [FailureNote(Client)]
    else if ClientEscapes(work, faults) then []
    else [PhaseRecord(Client, Applied, if faults.readback.EntryFound? then None else Some(ReadbackUnavailable))]
  }

  function TailReport(plan: SetupPlan, work: ClientWork, faults: Faults, timer: TimerState): Report {
    var timing := TimerReport(plan, faults, timer);
    if TimerFails(plan, faults, timer) then Report(timing, Returned(true, false, true, [CleanupTimer]))
    else if !faults.engine then
      Report(timing + [Note(Engine, Intended), FailureNote(Engine)], Returned(true, false, true, [Engine]))
    else if work.NoClient? then
      Report(timing + [Note(Engine, Intended), Note(Engine, Applied)], Returned(true, false, false, []))
    else
      Report(timing + [Note(Engine, Intended), Note(Engine, Applied)]
        + ClientReport(work, faults), ClientOutcome(work, faults))
  }

  function RunReport(plan: SetupPlan, writes: seq<Write>, work: ClientWork, faults: Faults, timer: TimerState): Report {
    var credentials := [Note(Credentials, Intended), Note(Credentials, Applied)];
    if !AllPut(writes, faults) then
      Report([Note(Credentials, Intended), FailureNote(Credentials)], Returned(false, false, true, []))
    else if faults.firstSave == SystemFailure then Report(credentials, Raised)
    else if faults.firstSave == SetupFailure then
      Report(credentials + [FailureNote(Credentials)], Returned(false, false, true, []))
    else if !CommitHeld(faults) then
      Report(credentials + [Note(Config, Intended)]
             + (if faults.commit.Committed? then [Note(Config, Applied)] else [])
             + [Note(Config, Failed)],
             Returned(false, false, true, []))
    else
      var tail := TailReport(plan, work, faults, timer);
      Report(credentials + [Note(Config, Intended), Note(Config, Applied)] + tail.records, tail.outcome)
  }
}

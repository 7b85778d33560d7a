# Verified model of OpenTranscribe

OpenTranscribe sends recordings to transcription providers on behalf of MCP clients, and its desktop
edition installs itself into a client, a keyring and a configuration file. This project models the
parts of it that must hold over runs rather than over single calls, and proves them in Dafny. Check it
with `dafny verify dfyconfig.toml`.

| files | what they model |
|---|---|
| `InstallJournal`, `PrivateFile` | the ownership and recovery journal; the atomic replacement of a managed file, step by step |
| `SetupTransaction`, `SetupPlanning`, `SetupSafety`, `SetupReports`, `SetupService`, `SetupRegistration` | the setup transaction: planning fresh credential references, storing keys, switching the configuration, retiring old keys, the timer, the engine probe, the client registration, and compensation; every run is a list of durable changes that a crash may cut anywhere |
| `TempAudioProtocol`, `TempAudioWindow`, `TempAudioArea` | the temporary audio area as an interleaving of single system calls by any number of processes, when a sweep can take a file it should not, and one caller's operations |
| `ClientBase`, `TomlText`, `TomlLines`, `TomlSplice`, `TomlStore`, `TomlAdapter` | the TOML client store: quoting, finding and replacing one table, runs of edits, and the text as a map from server to launch vector |
| `JsonTree`, `JsonStore` | the JSON client store: an ordered tree in which one entry changes |
| `Sorting`, `Router`, `RoutingSafety`, `TranscriptionService` | routing, capability negotiation and the fallback loop, up to who can receive audio |
| `Chunks`, `Cursor` | reading a stored transcript in chunks, and the authenticated cursor between calls |
| `SpeakerTurns` | grouping provider items into speaker turns with labels in order of appearance |
| `Download` | relaying a source: redirects, streaming within a limit, cleaning up |
| `Common` | shared vocabulary |

A class stands for each object of the program that updates its fields; its methods are proved against
functions whose properties are then proved as lemmas. Faults, clocks, random tokens, processes, network
answers and parsers enter as parameters: a script of results, a fresh token, an abstract function.

## Findings

Where a stated property does not hold of the code, the code was kept as it is and the exact condition proved:

- An error reported after the new configuration is already in place (the directory cannot be synced, or
  the journal cannot be saved) makes the handler delete keys that the saved configuration uses. It happens
  at every setup that brings a key (`SetupPlanning.LateFailureDangles`), and `SetupPlanning.AttemptSoundIff`
  gives the exact condition, which is all that the no-dangling theorem over runs assumes.
- Three kinds of input make a saved reference dangle although nothing, or only the configuration write,
  fails: a provider stated twice, a key shared by two places, and a secret under an undeclared role
  (`SetupPlanning.RepeatedProviderDangles`, `SharedKeyDangles`, `UndeclaredRoleDangles`).
  `SetupPlanning.PlannedSafeIff` gives the exact condition, for every intent that names known providers.
- `apply` reports a registration whenever the adapter's calls raise nothing, also when the registration plan
  has no action and so nothing is written: at every rerun for a client that already launches the server
  (`SetupRegistrations.JsonRerunRegisters`, `TomlRerunRegisters`) and at every run with the manual adapter
  (`ManualRegisters`). `SetupReports.RegisteredMeansSettled` says what such a report does mean, and
  `WritesClientIff` exactly when the client store is written.
- A sweep that looks at an audio file between its creation and its claim can remove it after the claim is
  complete, and one that cannot read the process table can remove any protected file:
  `TempAudioWindows.DecidedRemovalHurtsIff` says from which states, `UnreadableTableTakes` and
  `WindowIsReal` how.
- A TOML header line with a trailing comment is not recognized, so a second table is appended and a
  removal leaves the table while it reports success: `TomlAdapters.CommentedHeaderIsMissed`. The same
  silent removal meets every listed server without a matching line, such as one whose header line ends in
  a carriage return, or that stands inline or only as a sub-table: `TomlAdapters.RemovalChangesIff`.
  `TomlLines.PatternNames` and `NamedMatches` say exactly which lines are recognized; all properties of
  the TOML text are relative to these patterns.
- The TOML store is documented to leave every other byte as it was, but a table is taken to reach to the
  next opening line. What the user wrote between the rendered table and that line, such as a comment above
  the next table, is lost at every update and removal: `TomlAdapters.TextBehindTableIsLost`.
- A fingerprint joins a launch's parts with NULs, so an entry with a NUL inside a part can be taken for
  another launch: `ClientBase.MergedEntryIsMistaken` for every registration, and
  `ClientBase.FingerprintTellsIff` for exactly which entries.
- `InstallJournal.incomplete` is documented as most recent first, but its dictionary keeps the order of
  first appearance: `InstallJournals.ListedByFirstAppearance`, `OlderFailureListedFirst`, and
  `MostRecentFirstIff` for when the two orders agree.

## Model

| member | source | states |
|---|---|---|
| `InstallJournals.InstallJournal.constructor` | src/open_transcribe/desktop/journal.py:96-122 | any document may be loaded, whatever its length and whatever it lists; it is the journal's state and its history, and a list without repeated keys stands for a map |
| `InstallJournals.InstallJournal.Record` | src/open_transcribe/desktop/journal.py:63-65 | one record is added to the full history, and what is kept is the latest two hundred |
| `InstallJournals.InstallJournal.Own` | src/open_transcribe/desktop/journal.py:67-69 | the first resource of that key goes and the new one is appended; where the list stands for a map, the map is updated at exactly that key |
| `InstallJournals.InstallJournal.Disown` | src/open_transcribe/desktop/journal.py:71-75 | the first resource of that key is popped and returned; where the list stands for a map, the map loses exactly that key |
| `InstallJournals.InstallJournal.Owns` | src/open_transcribe/desktop/journal.py:77-78 | true exactly when some listed resource has the key |
| `InstallJournals.RepresentsDistinct` | src/open_transcribe/desktop/journal.py:67-78 | no two owned resources share kind and identifier |
| `InstallJournals.RepresentsPop` | src/open_transcribe/desktop/journal.py:71-75 | popping one entry of the list removes exactly its key from the map and keeps every other |
| `InstallJournals.CountAfterOwn` | src/open_transcribe/desktop/journal.py:67-75 | owning lists a key once if it was not listed and otherwise as often as before, and no other key's count changes, so a list without repetitions keeps none |
| `InstallJournals.InstallJournal.Incomplete` | src/open_transcribe/desktop/journal.py:83-93 | returns the unfinished latest record of each phase of the window |
| `InstallJournals.LatestOfHolds` | src/open_transcribe/desktop/journal.py:90-92 | the dictionary built in the loop holds, for each phase name, its latest record |
| `InstallJournals.IncompleteIsUnfinished` | src/open_transcribe/desktop/journal.py:83-93 | a record is listed exactly when it is the latest of its phase and is intended or failed |
| `InstallJournals.IncompleteOfWindow` | src/open_transcribe/desktop/journal.py:63-93 | computed from the two-hundred-record window, the list is exactly the phases unfinished in the full history whose latest record the window still holds |
| `InstallJournals.LastAtIs` | src/open_transcribe/desktop/journal.py:90-92 | the position used below is that of the phase's latest record |
| `InstallJournals.ListedByFirstAppearance` | src/open_transcribe/desktop/journal.py:90-93 | the list is in the order in which its phases first appear |
| `InstallJournals.MostRecentFirstIff` | src/open_transcribe/desktop/journal.py:85-93 | it is most recent first, as documented, exactly when the unfinished phases of the log were last recorded in the reverse of that order |
| `InstallJournals.OlderFailureListedFirst` | src/open_transcribe/desktop/journal.py:85-93 | of any two unfinished phases recorded one after the other the older one is listed first |
| `PrivateFiles.FileSystem.WritePrivateFile` | src/open_transcribe/desktop/paths.py:141-159 | whatever call fails and wherever the process stops, the target holds its old content or the whole new one and no other file changes; an error before the rename leaves every file as it was, or the temporary one behind when removing it fails as well |
| `SetupPlanning.PlannedSlot` | src/open_transcribe/desktop/setup.py:162-193 | every reference of the planned configuration is either freshly minted for its place, exactly when the intent states a secret for a declared role, or the one the saved configuration had there |
| `SetupPlanning.ReplacedIsPlanned` | src/open_transcribe/desktop/setup.py:175-184 | every place for which the intent states a secret under a declared role is in the planned configuration |
| `SetupPlanning.RetiredMoved` | src/open_transcribe/desktop/setup.py:175-183 | each retired key is the saved reference of a place that moved to a fresh one |
| `SetupPlanning.MintUnknown` | src/open_transcribe/desktop/credentials.py:18-23 | a new reference with a fresh random part is none of the known ones |
| `SetupPlanning.PlanSupplied` | src/open_transcribe/desktop/setup.py:162-193 | every reference of a planned configuration resolves already or is among the keys to be written, for every intent that names known providers |
| `SetupPlanning.PlannedSafeIff` | src/open_transcribe/desktop/setup.py:162-193 | for every intent that names known providers and every saved configuration that resolves, the planned run is safe under every early fault exactly when it writes no key in use and retires none still used, or stops at an empty secret |
| `SetupPlanning.PlanIsSafe` | src/open_transcribe/desktop/setup.py:162-193 | from stores whose references resolve and are unshared, planning yields a configuration in which each reference is supplied, unshared, and none is retired, and every key to be written is new |
| `SetupPlanning.AttemptSoundIff` | src/open_transcribe/desktop/setup.py:243-309 | one well-planned apply under any faults leaves every saved reference resolving wherever a crash cuts it, exactly unless an error is reported after the configuration was replaced and a compensating deletion takes effect |
| `SetupPlanning.DisconnectKeepsSound` | src/open_transcribe/desktop/setup.py:425-449 | a disconnection, wherever a crash cuts it and whichever of its calls fails, leaves every saved reference resolving and unshared |
| `SetupPlanning.ReferencesNeverDangle` | src/open_transcribe/desktop/setup.py:243-309 | over any number of setups, each planned from the stores it finds, and disconnections, each with its own faults and its own crash, every saved reference resolves, as long as no setup meets that exact condition |
| `SetupPlanning.RepeatedProviderDangles` | src/open_transcribe/desktop/setup.py:169-184 | an intent that lists one provider twice, once with a new key, leaves a dangling reference without any fault |
| `SetupPlanning.SharedKeyDangles` | src/open_transcribe/desktop/setup.py:180-182 | when two places share one key, replacing it in one place makes the other dangle |
| `SetupPlanning.UndeclaredRoleDangles` | src/open_transcribe/desktop/setup.py:383-395 | a secret under a role that the provider does not declare overwrites the saved key, and undoing that write makes it dangle |
| `SetupPlanning.LateFailureDangles` | src/open_transcribe/desktop/setup.py:270-282 | for every sound stores and every well-formed intent that brings a key, a journal that cannot be saved after the switch or a directory that cannot be synced leaves a reachable state with a dangling reference |
| `SetupPlanning.FirstSetupCanDangle` | src/open_transcribe/desktop/setup.py:270-282 | the first setup of an installation is such a case |
| `SetupSafety.EarlyRunResolves` | src/open_transcribe/desktop/setup.py:248-309 | unless an error is reported after the configuration was already replaced, every state of a run resolves every saved reference |
| `SetupSafety.RunResolvesIff` | src/open_transcribe/desktop/setup.py:270-282 | every state of a run resolves exactly unless such a late error occurs and one of the compensating deletions takes effect |
| `SetupSafety.PlanSafeIff` | src/open_transcribe/desktop/setup.py:383-421 | any plan whose references are supplied is safe under every early fault exactly when it writes no key in use and retires none still used, or stops at an empty secret |
| `SetupSafety.CommitResolves` | src/open_transcribe/desktop/setup.py:270-283 | once every key was stored, the new configuration resolves from the moment it is in place |
| `SetupSafety.CompensationResolves` | src/open_transcribe/desktop/setup.py:397-409 | undoing the written keys before the switch leaves what the saved configuration uses |
| `SetupSafety.OverwriteDangles` | src/open_transcribe/desktop/setup.py:397-409 | writing over a key in use dangles as soon as the configuration cannot be saved |
| `SetupSafety.RetireDangles` | src/open_transcribe/desktop/setup.py:411-421 | retiring a key that the new configuration still uses dangles without any fault |
| `SetupReports.ReportSettles` | src/open_transcribe/desktop/setup.py:248-381 | when apply returns, each phase it touched ended as applied or failed; a reported failure comes with a failed phase; without one at most the timer removal failed |
| `SetupReports.RunRecordsAreKept` | src/open_transcribe/desktop/journal.py:63-93 | what a run leaves unfinished is in the journal's list afterwards, whatever the history before it |
| `SetupReports.FailureIsListed` | src/open_transcribe/desktop/setup.py:263-287 | a reported failure has a failed phase among the unfinished ones of the saved journal |
| `SetupReports.ClientWrittenLast` | src/open_transcribe/desktop/setup.py:283-340 | the client store is written only in a run that had already saved the planned configuration and then seen the engine answer, and nothing follows it in the keyring, the configuration or the client; only the journal is saved afterwards |
| `SetupReports.RegisteredMeansSettled` | src/open_transcribe/desktop/setup.py:322-346 | a registration is reported only with the planned configuration in place, and the last change is the write of the client store, right after the engine answered, exactly when the registration plan has an action, and the engine's answer otherwise |
| `SetupReports.WritesClientIff` | src/open_transcribe/desktop/setup.py:300-324 | a run writes the client store exactly when everything before the client succeeded, the registration plan has an action and is no conflict, and the write takes effect |
| `SetupReports.UnchangedRerunRegisters` | src/open_transcribe/desktop/setup.py:322-346 | a run that gets to the client with a plan without actions reports a registration and never writes the client store |
| `SetupRegistrations.ManualRegisters` | src/open_transcribe/desktop/clients/manual.py:28-41 | so does every run with the manual adapter |
| `SetupRegistrations.JsonRerunRegisters` | src/open_transcribe/desktop/clients/json_store.py:63-117 | once a registration was carried out in a JSON store, a rerun plans nothing, leaves the document as it is and reports a registration, whatever is owned or may be taken over |
| `SetupRegistrations.TomlRerunRegisters` | src/open_transcribe/desktop/clients/toml_store.py:86-133 | once a server was registered in a TOML store, a rerun plans nothing and reports a registration without a write |
| `SetupServices.BlocksAreTheRun` | src/open_transcribe/desktop/setup.py:248-346 | the phases run one after the other make exactly the durable changes, records and outcome of the specified run |
| `SetupServices.SetupService.Plan` | src/open_transcribe/desktop/setup.py:162-193 | computes the providers, the moved references and the retired keys in loops over providers and roles, and fails only for an unknown provider |
| `SetupServices.SetupService.PlanClient` | src/open_transcribe/desktop/setup.py:195-203 | plans the registration against the client's entry, recognizing what the journal owns |
| `SetupServices.OwnRegistrationIsNeverConflict` | src/open_transcribe/desktop/setup.py:153-158 | a registration this installation recorded and the client still launches is never a conflict for a later one and needs no takeover |
| `SetupServices.SetupService.WriteCredentials` | src/open_transcribe/desktop/setup.py:383-395 | writes the keys in order up to the first failure, and reports none of them written if one failed |
| `SetupServices.SetupService.CompensateCredentials` | src/open_transcribe/desktop/setup.py:397-409 | deletes each written key in order, and queues for cleanup exactly those whose deletion failed |
| `SetupServices.SetupService.Retire` | src/open_transcribe/desktop/setup.py:411-421 | deletes the replaced keys in order, and queues for cleanup exactly those whose deletion failed |
| `SetupServices.SetupService.ReconcileTimer` | src/open_transcribe/desktop/setup.py:348-381 | installs the timer with the permission and removes an owned one without it, recording exactly that |
| `SetupServices.SetupService.StoreCredentials` | src/open_transcribe/desktop/setup.py:253-268 | the credential phase: written and owned, or undone and reported |
| `SetupServices.SetupService.SwitchConfig` | src/open_transcribe/desktop/setup.py:270-283 | the configuration phase, which undoes the written keys on every error, also one after the replacement |
| `SetupServices.SetupService.Register` | src/open_transcribe/desktop/setup.py:311-346 | the client phase: a refused or conflicting plan leaves configuration and keys, a plan without actions writes nothing, success makes the registration owned, and an error that is no setup error, of the adapter or of the readback, leaves the run without a report and the registration unowned |
| `SetupServices.SetupService.Apply` | src/open_transcribe/desktop/setup.py:243-309 | durable changes, journal records and outcome are exactly the specified run's, for plans with and without an action and for errors that escape, and at every returned outcome the saved journal is the current one |
| `SetupServices.SetupService.Disconnect` | src/open_transcribe/desktop/setup.py:425-449 | changes no key and no reference; the configuration is saved without its client, unless there is none, removing an owned registration reported an error, or the file was not replaced; it fails exactly in the last two cases or when the error came after the replacement |
| `TempAudioProtocol.LapsedStays` | src/open_transcribe/desktop/tempaudio.py:179-210 | a claim that no longer protects its file never protects it again within this boot |
| `TempAudioProtocol.RunInv` | src/open_transcribe/desktop/tempaudio.py:85-139 | the invariant of the protocol holds in every state of every interleaving |
| `TempAudioProtocol.ClaimedFilesAreSafe` | src/open_transcribe/desktop/tempaudio.py:106-139 | a removal decided on a complete claim never takes a file of this boot that is unexpired and whose owner lives |
| `TempAudioProtocol.SweepNeverTakesLiveFile` | src/open_transcribe/desktop/tempaudio.py:106-139 | in every interleaving with deaths, reused PIDs and reboots, a sweep that unlinks a protected file is one that itself looked at it before its claim was complete, or could not read the claim or the process table, and has stood at that removal ever since |
| `TempAudioProtocol.DecidedThroughout` | src/open_transcribe/desktop/tempaudio.py:124-127 | from the look that decided to the removal the call is in one and the same state |
| `TempAudioWindows.DecidedRemovalHurtsIff` | src/open_transcribe/desktop/tempaudio.py:92-94 | from any reachable state with a decided removal, some continuation takes the file while it is protected exactly when it exists, its creator lives, and its unexpired claim is complete or on the way |
| `TempAudioWindows.UnreadableTableTakes` | src/open_transcribe/desktop/tempaudio.py:202-210 | from any reachable state with a protected file, a sweep that a live process starts and that cannot read the process table takes it, with no other step |
| `TempAudioWindows.RunRegular` | src/open_transcribe/desktop/tempaudio.py:90-93 | in every reachable state the files that callers created are regular ones |
| `TempAudioWindows.WindowIsReal` | src/open_transcribe/desktop/tempaudio.py:92-94 | one full run: a sweep that looked between creation and claim unlinks a claimed, unexpired file of a live owner |
| `TempAudioProtocol.ClaimNeverOutlivedByAudio` | src/open_transcribe/desktop/tempaudio.py:134-138 | no orphan pass, sweep or release removes the claim of an audio file that still exists |
| `TempAudioProtocol.NamesAreNotReused` | src/open_transcribe/desktop/tempaudio.py:90-93 | an audio name that is gone stays gone |
| `TempAudioProtocol.WhyRemoving` | src/open_transcribe/desktop/tempaudio.py:187-191 | a removal without a readable claim or owner was decided by a look of the same call of the same sweep, which has not moved since |
| `TempAudioAreas.SoloLookDecides` | src/open_transcribe/desktop/tempaudio.py:179-210 | taken without interruption, the protocol's steps for one entry decide exactly as the predicate does |
| `TempAudioAreas.SweptShape` | src/open_transcribe/desktop/tempaudio.py:114-133 | visiting the entries removes exactly the doomed ones that can be deleted, with the claims that can be, and counts each entry once |
| `TempAudioAreas.TemporaryAudioArea.CreateFile` | src/open_transcribe/desktop/tempaudio.py:85-95 | sweeps, with whatever deletions are refused, stops at the size bound, and otherwise adds one file with its complete claim, or with none or an unfinished one when writing it fails |
| `TempAudioAreas.TemporaryAudioArea.Release` | src/open_transcribe/desktop/tempaudio.py:97-104 | removes one file and then its claim as far as the system lets it, and nothing for a path outside the area |
| `TempAudioAreas.TemporaryAudioArea.Sweep` | src/open_transcribe/desktop/tempaudio.py:106-139 | removes exactly the reclaimable files that can be deleted, keeps all others with their claims, leaves a claim without a file only where the system refuses to delete it, reports as failed exactly the entries whose file or claim stayed, and counts add up |
| `TomlText.ReplacingIsEscaping` | src/open_transcribe/desktop/clients/toml_store.py:40-48 | the five successive replacements equal one escape per character |
| `TomlText.QuotedValueReadsBack` | src/open_transcribe/desktop/clients/toml_store.py:40-48 | a quoted value reads back by the rules for TOML basic strings exactly when it has no other control character |
| `TomlText.QuotedValueOneLine` | src/open_transcribe/desktop/clients/toml_store.py:40-48 | a quoted value contains no raw newline |
| `TomlText.HeaderReadsBack` | src/open_transcribe/desktop/clients/toml_store.py:32-37 | a dotted header reads back as the key path it was made of |
| `TomlText.HeadersDiffer` | src/open_transcribe/desktop/clients/toml_store.py:147-148 | distinct key paths give distinct headers |
| `TomlLines.PatternNames` | src/open_transcribe/desktop/clients/toml_store.py:244 | a line of the header pattern's form is recognized as naming that header |
| `TomlLines.NamedMatches` | src/open_transcribe/desktop/clients/toml_store.py:244-248 | a recognized line has the pattern's form and also opens a table |
| `TomlLines.FindIsLeftmost` | src/open_transcribe/desktop/clients/toml_store.py:245-248 | the line search finds the leftmost matching line start |
| `TomlLines.CutIsBounds` | src/open_transcribe/desktop/clients/toml_store.py:242-249 | any division of the text into what precedes, one block and what follows is what the bounds locate |
| `TomlLines.BoundsAreCut` | src/open_transcribe/desktop/clients/toml_store.py:242-249 | located bounds divide the text in that way |
| `TomlSplices.ReplaceThenLocate` | src/open_transcribe/desktop/clients/toml_store.py:252-263 | after a replacement the bounds locate exactly the new table, and the text before and after it is unchanged, wherever the table was or was not |
| `TomlSplices.LastReplaceWins` | src/open_transcribe/desktop/clients/toml_store.py:252-263 | replacing twice equals replacing once with the second table |
| `TomlSplices.DropAfterReplace` | src/open_transcribe/desktop/clients/toml_store.py:252-263 | dropping the table after a replacement leaves the text before and after it, which for a new table is the text and its separator |
| `TomlSplices.SeparatorCompletes` | src/open_transcribe/desktop/clients/toml_store.py:258-261 | after the separator the text ends a line and needs no further separator |
| `TomlSplices.EditsStayWithinBounds` | src/open_transcribe/desktop/clients/toml_store.py:252-263 | over any sequence of adds, updates and removals the text is the original, the original with one separator, or that with the latest table |
| `TomlSplices.DroppedIsGoneIff` | src/open_transcribe/desktop/clients/toml_store.py:252-263 | a dropped table is gone exactly when its header line stood only once |
| `TomlSplices.OtherBlocksKept` | src/open_transcribe/desktop/clients/toml_store.py:252-263 | replacing or dropping a table leaves every other table as it was, character for character |
| `TomlSplices.OtherReadingsKept` | src/open_transcribe/desktop/clients/toml_store.py:252-263 | replacing or appending a table leaves whatever is read from every other table as it was, for any reading that ignores newlines after a table |
| `TomlSplices.ReadingsEdited` | src/open_transcribe/desktop/clients/toml_store.py:252-263 | of all tables under one header a replacement rewrites the first and a removal takes the first away |
| `TomlSplices.ReadingsOfOthers` | src/open_transcribe/desktop/clients/toml_store.py:252-263 | and all tables under any other header read as before, in their order |
| `TomlStores.HeadersAreApart` | src/open_transcribe/desktop/clients/toml_store.py:244-248 | no line is the header line of two headers, and every header line opens a table |
| `TomlStores.TableIsTable` | src/open_transcribe/desktop/clients/toml_store.py:150-156 | a rendered table holds its own header line and no other line that opens a table |
| `TomlAdapters.TableReadsBack` | src/open_transcribe/desktop/clients/toml_store.py:150-156 | a rendered table reads back as exactly its command and arguments, of any number, when they hold no control character TOML forbids |
| `TomlAdapters.OtherTablesKept` | src/open_transcribe/desktop/clients/toml_store.py:252-263 | replacing or dropping a table leaves every other header's table as it was, character for character |
| `TomlAdapters.OtherLaunchesKept` | src/open_transcribe/desktop/clients/toml_store.py:252-263 | writing a table, also by appending it, changes no other header's launch vector |
| `TomlAdapters.RegisteredIsUpdate` | src/open_transcribe/desktop/clients/toml_store.py:121-133 | registering a server updates the map from names to launch vectors at that name and nowhere else |
| `TomlAdapters.UnregisteredKeepsOthers` | src/open_transcribe/desktop/clients/toml_store.py:138-143 | removing a server changes no other server's vector |
| `TomlAdapters.UnregisteredIsGoneIff` | src/open_transcribe/desktop/clients/toml_store.py:138-143 | after removal the header is gone exactly when no second one followed |
| `TomlAdapters.RunIsListUpdate` | src/open_transcribe/desktop/clients/toml_store.py:121-143 | over any run of registrations and removals, and however often a header stands in the text, each server's tables are what the changes that name it make of them |
| `TomlAdapters.RunIsMapUpdate` | src/open_transcribe/desktop/clients/toml_store.py:121-143 | where the asked header stands at most once, a server last registered has that launch vector, one last removed has none, and one never named has the vector it had |
| `TomlAdapters.GoneAfterRunIff` | src/open_transcribe/desktop/clients/toml_store.py:138-143 | after any run a header is gone exactly when the run removed it as often as it stood |
| `TomlAdapters.OneServerRun` | src/open_transcribe/desktop/clients/toml_store.py:121-143 | however often one server is registered, changed and removed, the user's text is the original, the original with at most two newlines, or that with the latest table |
| `TomlAdapters.NextPlanIsEmpty` | src/open_transcribe/desktop/clients/toml_store.py:86-119 | after registering, the next plan finds nothing to do, whatever is owned and whether or not a takeover is allowed |
| `TomlAdapters.CommentedHeaderIsMissed` | src/open_transcribe/desktop/clients/toml_store.py:244-261 | a header followed by a comment is not recognized: a second table is appended, and a removal changes nothing |
| `TomlAdapters.RemovalChangesIff` | src/open_transcribe/desktop/clients/toml_store.py:242-263 | a removal changes the text exactly when some line matches the header pattern of the server |
| `TomlAdapters.TextBehindTableIsLost` | src/open_transcribe/desktop/clients/toml_store.py:248-263 | whatever stands between a rendered table and the next line that opens one goes with the table, on an update as on a removal, and registering the same launch again gives back the text exactly when nothing stood there |
| `TomlAdapters.TomlMcpServersAdapter.Apply` | src/open_transcribe/desktop/clients/toml_store.py:121-133 | the file becomes the registered text or stays as it was; blocked, unreadable and failed writes change nothing |
| `TomlAdapters.TomlMcpServersAdapter.Remove` | src/open_transcribe/desktop/clients/toml_store.py:135-145 | returns whether the parsed document lists the server, and then writes the text without the first table whose header line matches the pattern; a server that is not listed and any failure leave the file as it was |
| `ClientBase.JoinInjective` | src/open_transcribe/desktop/clients/base.py:58-80 | argument lists without NUL characters join to different strings |
| `ClientBase.JoinAlikeIff` | src/open_transcribe/desktop/clients/base.py:58-80 | two argument lists join to one string exactly when cutting their parts at NULs gives the same pieces |
| `ClientBase.SameListIff` | src/open_transcribe/desktop/clients/base.py:58-80 | so lists are equal exactly when they join alike and their parts hold as many NULs each |
| `ClientBase.FingerprintTellsIff` | src/open_transcribe/desktop/clients/base.py:132-145 | where an entry is compared with a registration, equal fingerprints mean equal launches exactly unless the entry holds the same pieces in other parts |
| `ClientBase.MergedEntryIsMistaken` | src/open_transcribe/desktop/clients/base.py:132-145 | every registration has an entry that launches something else and is yet taken for it, whatever the hash, the ownership and the takeover |
| `JsonTree.InsertedIsThere` | src/open_transcribe/desktop/clients/json_store.py:108-114 | the written entry stands at its name under the key path |
| `JsonTree.InsertedKeepsOthers` | src/open_transcribe/desktop/clients/json_store.py:171-186 | every path that neither leads to the entry nor through it reads the same |
| `JsonTree.InsertedKeepsOrder` | src/open_transcribe/desktop/clients/json_store.py:171-186 | at each level of the key path the keys keep their order and a new one comes last |
| `JsonTree.BlockedSomewhere` | src/open_transcribe/desktop/clients/json_store.py:178-183 | a walk that fails met a value on the key path that is neither an object nor null, and names its key |
| `JsonTree.BlockedByObstruction` | src/open_transcribe/desktop/clients/json_store.py:178-183 | such a value anywhere on the key path makes the walk fail |
| `JsonTree.RemoveRestoresIff` | src/open_transcribe/desktop/clients/json_store.py:119-126 | removing a newly added entry restores the document exactly when the key path already existed |
| `JsonTree.RemovedIsGone` | src/open_transcribe/desktop/clients/json_store.py:119-126 | a removed entry is gone and its siblings are kept |
| `JsonTree.RemovedKeepsOrder` | src/open_transcribe/desktop/clients/json_store.py:119-126 | a removal keeps the order of all keys and takes out only its own |
| `JsonStores.InventoryFinds` | src/open_transcribe/desktop/clients/json_store.py:52-61 | the inventory shows each server as the document has it |
| `JsonStores.EntryReadsBack` | src/open_transcribe/desktop/clients/json_store.py:52-61 | a written entry reads back as its launch vector |
| `JsonStores.AppliedReadsBack` | src/open_transcribe/desktop/clients/json_store.py:98-117 | after a change was applied the readback is the registration's exact launch vector |
| `JsonStores.NextPlanIsEmpty` | src/open_transcribe/desktop/clients/json_store.py:63-96 | once a plan was carried out the next one has no action and no conflict, for any ownership and takeover |
| `JsonStores.LaunchesUnlessCollision` | src/open_transcribe/desktop/clients/json_store.py:63-117 | afterwards the client launches the registration, exactly unless the plan took another launch with the same fingerprint for it |
| `JsonStores.LaunchesTheRegistration` | src/open_transcribe/desktop/clients/json_store.py:63-117 | without NULs and without a collision of the hash it always does |
| `JsonStores.ConflictIff` | src/open_transcribe/desktop/clients/json_store.py:63-105 | registering is refused exactly when the document has an unrecognized entry of that name and no takeover is allowed |
| `JsonStores.AppliedKeepsRest` | src/open_transcribe/desktop/clients/json_store.py:98-114 | applying keeps every place off the edited path and the order of keys along it |
| `JsonStores.RemovedKeepsRest` | src/open_transcribe/desktop/clients/json_store.py:119-126 | removing keeps every other place, and all other keys in their order |
| `JsonStores.RunIsMapUpdate` | src/open_transcribe/desktop/clients/json_store.py:98-126 | over any run of registrations and removals a server last registered has exactly that launch, one last removed has none, and one never named has the entry it had: the same map as for TOML |
| `JsonStores.ObstructedRunIsIdle` | src/open_transcribe/desktop/clients/json_store.py:178-183 | where something on the key path is in the way, no run changes anything |
| `JsonStores.OtherServersKept` | src/open_transcribe/desktop/clients/json_store.py:98-117 | another server's readback does not change |
| `JsonStores.RemoveUndoesAddIff` | src/open_transcribe/desktop/clients/json_store.py:98-126 | plan, apply and remove for a new server give back the document exactly when the key path was there |
| `JsonStores.JsonMcpServersAdapter.FindServers` | src/open_transcribe/desktop/clients/json_store.py:171-186 | walks the key path to the servers, or to none when anything on it is not an object |
| `JsonStores.JsonMcpServersAdapter.Apply` | src/open_transcribe/desktop/clients/json_store.py:98-114 | the file becomes the document the plan describes or stays as it was; a blocked plan changes nothing |
| `JsonStores.JsonMcpServersAdapter.Remove` | src/open_transcribe/desktop/clients/json_store.py:119-126 | removes the entry exactly when it is there; failures change nothing |
| `Sorting.SortForgetsOrder` | src/open_transcribe/routing/router.py:189-224 | sequences of the same elements, told apart by their ranks, sort to the same sequence |
| `Routers.MissingCapabilities` | src/open_transcribe/routing/router.py:163-187 | collects exactly the capabilities that the request demands and the model lacks, in their fixed order |
| `Routers.BoundIsSupported` | src/open_transcribe/routing/router.py:126-161 | every bound value is supported by the model, given nonempty mode sets |
| `Routers.StatedValuesKeptIff` | src/open_transcribe/routing/router.py:126-187 | a stated timestamp mode, style or diarization is kept exactly when it is not reported missing |
| `Routers.ExplicitToFront` | src/open_transcribe/routing/router.py:105-107 | moving the named model to the front leaves the others in the policy's order |
| `Routers.Route` | src/open_transcribe/routing/router.py:45-115 | the list built step by step is the specified one: for a named model that model and then the other eligible ones sorted, otherwise the eligible ones sorted, both cut by the fallback limits; and the same errors |
| `RoutingSafety.RouteForgetsRegistryOrder` | src/open_transcribe/routing/router.py:45-115 | the route or its error does not depend on registry order unless a provider is named without a model |
| `RoutingSafety.AutoRouteIsSortedPermutation` | src/open_transcribe/routing/router.py:78-105 | without a named provider the route is the sorted permutation of the fitting models, or of all when none fits and the request is not strict |
| `RoutingSafety.FittingIsEligible` | src/open_transcribe/routing/router.py:48-52 | the fitting models are exactly the configured, permitted ones that lack nothing |
| `RoutingSafety.NamedRouteShape` | src/open_transcribe/routing/router.py:58-107 | with a named provider the named model is first, fixed routing is that model alone, and otherwise the other eligible models follow sorted |
| `RoutingSafety.RoutedIsPermitted` | src/open_transcribe/routing/router.py:45-76 | every routed model is of a permitted provider, and configured unless the request names it |
| `RoutingSafety.AllConfiguredIff` | src/open_transcribe/routing/router.py:48-76 | every routed model is configured exactly when the request names no model or a configured one |
| `RoutingSafety.RoutedIsConfigured` | src/open_transcribe/routing/router.py:48-76 | as each provider flags its models alike, every routed model is configured |
| `RoutingSafety.FlagsMustAgree` | src/open_transcribe/routing/router.py:71-76 | a registry in which a provider does not would route to an unconfigured model |
| `RoutingSafety.RouteIsSafe` | src/open_transcribe/routing/router.py:45-115 | every candidate is permitted, bound to supported values and warned about exactly what it lacks; strict requests yield no warning; the fallback limits hold |
| `RoutingSafety.RouteIsNotEmpty` | src/open_transcribe/routing/router.py:97-115 | a route that succeeds is never empty |
| `RoutingSafety.RouteHasNoRepeats` | src/open_transcribe/routing/router.py:48-115 | no model occurs twice in a route |
| `TranscriptionServices.TranscriptionService.Preflight` | src/open_transcribe/service.py:107-132 | a request passes exactly when its stated duration and estimated cost are within the limits |
| `TranscriptionServices.TranscriptionService.Attempts` | src/open_transcribe/service.py:45-105 | those who receive the audio are a permitted prefix of the route; each but the last failed retryably with fallback allowed; the end and the fallback history are what the outcomes say |
| `TranscriptionServices.TranscriptionService.FormatResult` | src/open_transcribe/service.py:134-166 | a result is stored when asked for or when too large, refused only when inline is demanded above the hard byte limit, and never returned inline above it |
| `TranscriptionServices.TranscriptionService.Transcribe` | src/open_transcribe/service.py:40-105 | routing, preflight, attempts and delivery of one request, with every way it can end |
| `TranscriptionServices.RecipientsAreSafe` | src/open_transcribe/service.py:43-96 | in any run the recipients are distinct, permitted models of the registry, at most one without fallback, and of one provider when fallback may not cross providers |
| `Chunks.GetChunk` | src/open_transcribe/result_store/chunks.py:12-64 | checks its arguments in order and returns the text slice or the greedily packed page at the cursor |
| `Chunks.PackPage` | src/open_transcribe/result_store/chunks.py:42-60 | the loop packs the specified page or fails on a first segment that is too large |
| `Chunks.TakenIsMaximal` | src/open_transcribe/result_store/chunks.py:47-58 | a page takes exactly as many segments as fit |
| `Chunks.PagesReadEverything` | src/open_transcribe/result_store/chunks.py:42-64 | following the cursors reads every segment once and in order, each page within max_chars and only the last marked done |
| `Chunks.ReadFailsIff` | src/open_transcribe/result_store/chunks.py:51-55 | the read fails exactly when some segment alone is larger than max_chars |
| `Chunks.PagesAreFewest` | src/open_transcribe/result_store/chunks.py:42-60 | no order-preserving division into pages within max_chars has fewer pages |
| `Chunks.FollowedTextIsAll` | src/open_transcribe/result_store/chunks.py:28-41 | following text cursors with a bound chosen afresh at each call gives the whole text, each chunk within its bound, only the last done, in at most as many calls as characters, or one |
| `Cursors.UnpaddedLength` | src/open_transcribe/result_store/cursor.py:17-21 | the stripped padding is what the length modulo four rebuilds |
| `Cursors.TokenReadsBack` | src/open_transcribe/result_store/cursor.py:17-22 | bytes of any number survive encoding, stripping, padding and decoding |
| `Cursors.DecodeEncode` | src/open_transcribe/result_store/cursor.py:14-35 | decoding an encoded cursor gives its payload for every body length |
| `Cursors.DecodesIff` | src/open_transcribe/result_store/cursor.py:19-35 | a token decodes exactly when its bytes are a body that parses followed by that body's code |
| `SpeakerTurns.LabelsDiffer` | src/open_transcribe/providers/normalization.py:19-20 | different speaker numbers have different labels |
| `SpeakerTurns.SpeakerNormalizer.Normalize` | src/open_transcribe/providers/normalization.py:11-21 | an identifier's label is given by the place of its first appearance and never changes |
| `SpeakerTurns.Normalize` | src/open_transcribe/providers/elevenlabs/adapter.py:151-182 | the loop groups the kept items into one segment per maximal run of a label, with its times, text and words |
| `SpeakerTurns.TurnsKeepContent` | src/open_transcribe/providers/elevenlabs/adapter.py:151-182 | the segments' texts are the kept items' texts in order, and their words the word items in order |
| `SpeakerTurns.TurnsAreMaximal` | src/open_transcribe/providers/elevenlabs/adapter.py:159-168 | adjacent segments have different speakers |
| `SpeakerTurns.TurnsIgnoreNames` | src/open_transcribe/providers/normalization.py:15-21 | renaming speaker identifiers by an injection changes nothing |
| `SpeakerTurns.LabelsTellSpeakers` | src/open_transcribe/providers/normalization.py:15-21 | two kept items have one label exactly when they have one speaker |
| `Downloads.SourceBroker.Save` | src/open_transcribe/sources/resolver.py:151-163 | the file receives the whole stream or the step that breaks it is reported; it never holds more than the limit; the prefix is its first sixteen bytes |
| `Downloads.SourceBroker.Follow` | src/open_transcribe/sources/resolver.py:98-171 | the requests sent are exactly the redirect chain, each hop validated anew, and the outcome is the last answer's |
| `Downloads.SourceBroker.Download` | src/open_transcribe/sources/resolver.py:86-175 | the file is there exactly when the download succeeded, holding the whole body; every failure takes it away |
| `Downloads.SourceBroker.Open` | src/open_transcribe/sources/resolver.py:57-81 | nothing is requested or stored when the URL is rejected, the delivery is not a relay, or temporary audio is not permitted; otherwise the file is there exactly on success |
| `Downloads.SourceBroker.Resolve` | src/open_transcribe/sources/resolver.py:54-84 | whoever uses the source sees the whole downloaded file, and when the use is over no file is left |
| `Downloads.FewRequests` | src/open_transcribe/sources/resolver.py:98-124 | at most one request more than the redirects allowed |
| `Downloads.EachRequestIsValidated` | src/open_transcribe/sources/resolver.py:99-123 | each request goes to an address that its own URL's validation gave at that hop, and each later URL is where the answer before pointed |
| `Downloads.StreamCompleteIff` | src/open_transcribe/sources/resolver.py:154-163 | a stream is kept exactly when no step breaks it and its bytes stay within the limit |
| `Downloads.OutcomeIsAudio` | src/open_transcribe/sources/resolver.py:164-165 | a successful download is the whole body of one answer, within the limit, and passes the audio check on its first sixteen bytes |

## Left out

- SetupServices.SetupService.Apply: a journal save that fails outside the two guarded blocks propagates from the code as an exception; the model treats it as a crash at that point, which the safety theorems cover.
- SetupServices.SetupService.Disconnect: an error of the adapter that is no setup error, and a journal that cannot be saved, escape from the code; the model treats them as a crash, which the theorem over runs covers.
- SetupServices.SetupService.Apply: endpoint, API version, check outcome, locale, limits and timestamps of a provider or a configuration are not part of the model; they carry no reference.
- InstallJournals.InstallJournal.Record: phase names and outcome codes are closed datatypes and an error's exact code is one value.
- SetupPlanning.ReferencesNeverDangle: random name parts are fresh, setup runs one at a time, and each intent states every provider once and only declared roles (the counterexample lemmas show why).
- TempAudioProtocol.SweepNeverTakesLiveFile: time does not run backwards, a PID and a start tick name one process within a boot, and tokens are drawn once; a boot identifier that cannot be read, which the code replaces by one fixed word, is not modelled.
- TomlAdapters.TomlMcpServersAdapter.Apply: parsing the user's whole file is a parameter; only the table that the adapter writes has a reader here, so the map is about tables in that form.
- JsonStores.JsonMcpServersAdapter.Apply: the document is a value that is replaced rather than nested dictionaries updated in place, so aliasing inside one document is not captured; parsing and printing JSON are not part of the model.
- JsonStores.LaunchesUnlessCollision: SHA-256 is any function, so collisions of the hash are stated and not excluded.
- SetupServices.SetupService.PlanClient: the entry that the client has is a parameter; the two store adapters say what it is.
- Cursors.DecodesIff: HMAC is any function with 32-byte results and the JSON form of a payload any function that its parser inverts; exceptions other than the caught ones are not modelled.
- Routers.Route: prices are real numbers, so infinities and NaN are not modelled; the parts of a request that routing does not read are left out, and details of an error are kept as a set.
- TranscriptionServices.TranscriptionService.Transcribe: serialization of the finished result is a size, and the retries inside one provider call are part of its outcome.
- SpeakerTurns.Normalize: language, confidence conversion, and the total duration and cost estimate are left out; times arrive already converted to milliseconds.
- Downloads.SourceBroker.Download: URL syntax, DNS and connection handling are behind the validation parameter; only exceptions that the handler catches are failures, so cancellation is not modelled.
- Erasing an installation, which deletes keys before the configuration and so is meant to pass through other states.
- Two setup operations at once: plans are read outside the lock.
- The other providers' adapters, the desktop windows, the MCP server, authentication, storage backends, packaging and diagnostics: they would add only single-call members.

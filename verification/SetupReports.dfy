/** What an apply may report, and when it may touch the client's store. */
module SetupReports {
  import opened Common
  import opened InstallJournals
  import opened PrivateFiles
  import opened SetupTransaction
  import opened SetupSafety

  /** No phase of these records is left merely intended. */
  ghost predicate NothingMerelyIntended(records: seq<PhaseRecord>) {
    forall i: nat :: IsLatest(records, i) ==> records[i].state == Applied || records[i].state == Failed
  }

  ghost predicate SomePhaseFailed(records: seq<PhaseRecord>) {
    exists i: nat :: IsLatest(records, i) && records[i].state == Failed
  }

  predicate IsTimerRemoval(record: PhaseRecord) {
    record.name == CleanupTimer && record.outcomeCode == Some(Remove)
  }

  ghost predicate OnlyTimerRemovalFailed(records: seq<PhaseRecord>) {
    forall i: nat :: IsLatest(records, i) && records[i].state == Failed ==> IsTimerRemoval(records[i])
  }

  /** The last record decides its own phase; the others are decided by what precedes it. */
  lemma LatestOfAppend(records: seq<PhaseRecord>, last: PhaseRecord, i: nat)
    ensures IsLatest(records + [last], i) <==> i == |records| || (IsLatest(records, i) && records[i].name != last.name)
  {
    var longer := records + [last];
    if IsLatest(records, i) && records[i].name != last.name {
      forall j | i < j < |longer| ensures longer[j].name != longer[i].name {
        assert j < |records| ==> longer[j] == records[j];
      }
    }
    if IsLatest(longer, i) && i < |records| {
      forall j | i < j < |records| ensures records[j].name != records[i].name {
        assert longer[j] == records[j];
      }
      assert longer[|records|] == last;
    }
  }

  /** Every phase intended so far except the one called `open` has ended, failing only if `tolerated`. */
  ghost predicate EndedExcept(records: seq<PhaseRecord>, open: Option<PhaseName>) {
    forall i: nat :: IsLatest(records, i) && Some(records[i].name) != open ==>
      records[i].state == Applied || (records[i].state == Failed && IsTimerRemoval(records[i]))
  }

  /** A phase that was intended and then ended is settled, and settles nothing else. */
  lemma PhasePair(records: seq<PhaseRecord>, first: PhaseRecord, second: PhaseRecord)
    requires EndedExcept(records, Some(first.name)) && first.name == second.name
    ensures EndedExcept(records + [first, second], Some(first.name))
    ensures second.state == Applied || (second.state == Failed && IsTimerRemoval(second)) ==>
              EndedExcept(records + [first, second], None)
    ensures second.state == Failed ==>
              NothingMerelyIntended(records + [first, second]) && SomePhaseFailed(records + [first, second])
  {
    var longer := records + [first, second];
    assert longer == (records + [first]) + [second];
    forall i: nat
      ensures IsLatest(longer, i) <==> i == |records| + 1 || (IsLatest(records, i) && records[i].name != first.name)
    {
      LatestOfAppend(records, first, i);
      LatestOfAppend(records + [first], second, i);
    }
    assert IsLatest(longer, |records| + 1);
  }

  /** Ended without failure, except perhaps for removing the timer. */
  lemma EndedSettles(records: seq<PhaseRecord>)
    requires EndedExcept(records, None)
    ensures NothingMerelyIntended(records) && OnlyTimerRemovalFailed(records)
  {
  }

  lemma EndedOther(records: seq<PhaseRecord>, name: PhaseName)
    requires EndedExcept(records, None)
    ensures EndedExcept(records, Some(name))
  {
  }

  const STORED := [Note(Credentials, Intended), Note(Credentials, Applied)]

  const SWITCHED := [Note(Credentials, Intended), Note(Credentials, Applied), Note(Config, Intended),
    Note(Config, Applied)]

  lemma StoredEnded()
    ensures EndedExcept(STORED, None) && EndedExcept(SWITCHED, None)
  {
    assert STORED == [] + [Note(Credentials, Intended), Note(Credentials, Applied)];
    PhasePair([], Note(Credentials, Intended), Note(Credentials, Applied));
    EndedOther(STORED, Config);
    assert SWITCHED == STORED + [Note(Config, Intended), Note(Config, Applied)];
    PhasePair(STORED, Note(Config, Intended), Note(Config, Applied));
  }

  /** After the timer step, either every phase ended or the timer's installation just failed. */
  lemma TimerEnded(plan: SetupPlan, faults: Faults, timer: TimerState)
    ensures var records := SWITCHED + TimerReport(plan, faults, timer);
            if TimerFails(plan, faults, timer) then NothingMerelyIntended(records) && SomePhaseFailed(records)
            else EndedExcept(records, None)
  {
    StoredEnded();
    EndedOther(SWITCHED, CleanupTimer);
    var timing := TimerReport(plan, faults, timer);
    if timing == [] {
      assert SWITCHED + timing == SWITCHED;
    } else {
      assert timing == [timing[0], timing[1]];
      PhasePair(SWITCHED, timing[0], timing[1]);
    }
  }

  /**
   Whenever apply returns a report, every phase it touched ended as applied or failed. A reported
   failure has a failed phase to show for it; without one, at most removing the timer is unfinished.
   */
  lemma ReportSettles(plan: SetupPlan, writes: seq<Write>, work: ClientWork, faults: Faults, timer: TimerState)
    requires RunReport(plan, writes, work, faults, timer).outcome.Returned?
    ensures var report := RunReport(plan, writes, work, faults, timer);
            && NothingMerelyIntended(report.records)
            && (report.outcome.failed ==> SomePhaseFailed(report.records))
            && (!report.outcome.failed ==> OnlyTimerRemovalFailed(report.records))
  {
    var report := RunReport(plan, writes, work, faults, timer);
    if !AllPut(writes, faults) {
      PhasePair([], Note(Credentials, Intended), FailureNote(Credentials));
      assert report.records == [] + [Note(Credentials, Intended), FailureNote(Credentials)];
    } else if faults.firstSave == SetupFailure {
      FailedLast([Note(Credentials, Intended), Note(Credentials, Applied)], FailureNote(Credentials));
    } else if !CommitHeld(faults) {
      ConfigFailureSettles(faults);
    } else {
      TailSettles(plan, work, faults, timer);
      assert STORED + [Note(Config, Intended), Note(Config, Applied)] == SWITCHED;
    }
  }

  /** Records of one phase only, the last of them a failure. */
  lemma FailedLast(records: seq<PhaseRecord>, last: PhaseRecord)
    requires last.state == Failed && forall i :: 0 <= i < |records| ==> records[i].name == last.name
    ensures NothingMerelyIntended(records + [last]) && SomePhaseFailed(records + [last])
  {
    forall i: nat ensures IsLatest(records + [last], i) <==> i == |records| {
      LatestOfAppend(records, last, i);
    }
    assert IsLatest(records + [last], |records|);
  }

  lemma ConfigFailureSettles(faults: Faults)
    ensures var records := STORED + [Note(Config, Intended)]
                           + (if faults.commit.Committed? then [Note(Config, Applied)] else [])
                           + [Note(Config, Failed)];
            NothingMerelyIntended(records) && SomePhaseFailed(records)
  {
    StoredEnded();
    EndedOther(STORED, Config);
    if faults.commit.Committed? {
      PhasePair(STORED, Note(Config, Intended), Note(Config, Applied));
      var records := STORED + [Note(Config, Intended), Note(Config, Applied)];
      forall i: nat
        ensures IsLatest(records + [Note(Config, Failed)], i) <==>
                  i == |records| || (IsLatest(records, i) && records[i].name != Config)
      {
        LatestOfAppend(records, Note(Config, Failed), i);
      }
      assert IsLatest(records + [Note(Config, Failed)], |records|);
      assert STORED + [Note(Config, Intended)] + [Note(Config, Applied)] == records;
    } else {
      PhasePair(STORED, Note(Config, Intended), Note(Config, Failed));
      assert STORED + [Note(Config, Intended)] + [] + [Note(Config, Failed)]
               == STORED + [Note(Config, Intended), Note(Config, Failed)];
    }
  }

  lemma TailSettles(plan: SetupPlan, work: ClientWork, faults: Faults, timer: TimerState)
    requires TailReport(plan, work, faults, timer).outcome.Returned?
    ensures var tail := TailReport(plan, work, faults, timer);
            var records := SWITCHED + tail.records;
            && NothingMerelyIntended(records)
            && (tail.outcome.failed ==> SomePhaseFailed(records))
            && (!tail.outcome.failed ==> OnlyTimerRemovalFailed(records))
  {
    var timing := TimerReport(plan, faults, timer);
    var timed := SWITCHED + timing;
    TimerEnded(plan, faults, timer);
    if !TimerFails(plan, faults, timer) {
      EndedOther(timed, Engine);
      var probe := if faults.engine then Note(Engine, Applied) else FailureNote(Engine);
      PhasePair(timed, Note(Engine, Intended), probe);
      var probed := timed + [Note(Engine, Intended), probe];
      assert probed == SWITCHED + (timing + [Note(Engine, Intended), probe]);
      if faults.engine {
        EndedSettles(probed);
        if !work.NoClient? {
          ClientSettles(probed, work, faults);
          assert probed + ClientReport(work, faults)
              == SWITCHED + (timing + [Note(Engine, Intended), probe] + ClientReport(work, faults));
        }
      }
    }
  }

  lemma ClientSettles(probed: seq<PhaseRecord>, work: ClientWork, faults: Faults)
    requires EndedExcept(probed, None) && ClientOutcome(work, faults).Returned?
    ensures var records := probed + ClientReport(work, faults);
            && NothingMerelyIntended(records)
            && (ClientFails(work, faults) ==> SomePhaseFailed(records))
            && (!ClientFails(work, faults) ==> OnlyTimerRemovalFailed(records))
  {
    var last := ClientReport(work, faults)[1];
    assert ClientReport(work, faults) == [Note(Client, Intended), last];
    EndedOther(probed, Client);
    PhasePair(probed, Note(Client, Intended), last);
    if !ClientFails(work, faults) {
      EndedSettles(probed + [Note(Client, Intended), last]);
    }
  }

  /** What one run records stays decisive in the whole history, and is short enough to be kept. */
  lemma RunRecordsAreKept(
    history: seq<PhaseRecord>, plan: SetupPlan, writes: seq<Write>, work: ClientWork, faults: Faults, timer: TimerState,
    record: PhaseRecord)
    ensures var records := RunReport(plan, writes, work, faults, timer).records;
            UnfinishedSince(records, 0, record) ==> record in IncompleteOf(Window(history + records))
  {
    var records := RunReport(plan, writes, work, faults, timer).records;
    if UnfinishedSince(records, 0, record) {
      assert |records| <= WINDOW;
      var log := history + records;
      assert log[|history|..] == records;
      UnfinishedInSuffix(log, |history|, record);
      var i: nat :| |history| <= i && IsLatest(log, i) && log[i] == record && Unfinished(record);
      assert |log| - WINDOW <= i;
      IncompleteOfWindow(log, record);
    }
  }

  /** A reported failure is always still listed as unfinished by the journal that was saved. */
  lemma FailureIsListed(
    history: seq<PhaseRecord>, plan: SetupPlan, writes: seq<Write>, work: ClientWork, faults: Faults, timer: TimerState)
    returns (record: PhaseRecord)
    requires RunReport(plan, writes, work, faults, timer).outcome.Returned?
    requires RunReport(plan, writes, work, faults, timer).outcome.failed
    ensures record.state == Failed
    ensures record in IncompleteOf(Window(history + RunReport(plan, writes, work, faults, timer).records))
  {
    var records := RunReport(plan, writes, work, faults, timer).records;
    ReportSettles(plan, writes, work, faults, timer);
    var i: nat :| IsLatest(records, i) && records[i].state == Failed;
    record := records[i];
    assert UnfinishedSince(records, 0, record);
    RunRecordsAreKept(history, plan, writes, work, faults, timer, record);
  }

  // ---------------------------------------------------------------- the client is last

  lemma {:induction false} PutEventKinds(d: Durable, writes: seq<Write>, faults: Faults, n: nat)
    requires n <= |writes|
    ensures forall i :: 0 <= i < |PutEvents(d, writes, faults, n)| ==> PutEvents(d, writes, faults, n)[i].kind == PutKey
  {
    if n > 0 {
      PutEventKinds(d, writes, faults, n - 1);
    }
  }

  lemma {:induction false} DeleteEventKinds(d: Durable, refs: seq<CredentialRef>, faults: Faults, n: nat)
    requires n <= |refs|
    ensures forall i :: 0 <= i < |DeleteEvents(d, refs, faults, n)| ==>
              DeleteEvents(d, refs, faults, n)[i].kind == DeleteKey
  {
    if n > 0 {
      DeleteEventKinds(d, refs, faults, n - 1);
    }
  }

  /**
   The client's store is written only in a run that has already put the planned configuration in
   place and then seen the engine answer under it, and it is the last thing that run writes.
   */
  lemma ClientWrittenLast(
    d: Durable, plan: SetupPlan, writes: seq<Write>, work: ClientWork, faults: Faults, timer: TimerState, i: nat)
    requires i < |RunEvents(d, plan, writes, work, faults, timer)|
    requires RunEvents(d, plan, writes, work, faults, timer)[i].kind == WriteClient
    ensures var events := RunEvents(d, plan, writes, work, faults, timer);
            && CommitHeld(faults) && i == |events| - 1
            && events[i - 1].kind == EngineProbe(true)
            && exists j ::
                 0 <= j < i - 1 && events[j].kind == CommitConfig && events[j].after.config == Some(plan.config)
  {
    var n := Attempted(writes, faults, 0);
    var stored := AfterPuts(d, writes, faults, n);
    var committed := Durable(stored.keyring, Some(plan.config));
    PutEventKinds(d, writes, faults, n);
    DeleteEventKinds(stored, RefsOf(writes), faults, |writes|);
    DeleteEventKinds(committed, RefsOf(writes), faults, |writes|);
    DeleteEventKinds(committed, plan.retired, faults, |plan.retired|);
    if AllPut(writes, faults) && faults.firstSave == Saved && CommitHeld(faults) {
      var puts := PutEvents(d, writes, faults, n);
      var events := RunEvents(d, plan, writes, work, faults, timer);
      assert events[|puts|].kind == CommitConfig;
    }
  }

  /**
   A run that reports a registration ends, as far as the keyring, the configuration and the client's
   store go, with writing that store if the client's plan has an action, and with the engine's answer
   if it has none; and the planned configuration is in place.
   */
  lemma RegisteredMeansSettled(
    d: Durable, plan: SetupPlan, writes: seq<Write>, work: ClientWork, faults: Faults, timer: TimerState)
    requires RunReport(plan, writes, work, faults, timer).outcome.Returned?
    requires RunReport(plan, writes, work, faults, timer).outcome.registered
    ensures var events := RunEvents(d, plan, writes, work, faults, timer);
            var last := |events| - 1;
            && last >= 1 && events[last].after.config == Some(plan.config)
            && (events[last].kind == WriteClient <==> work.Acts?)
            && (events[last].kind == EngineProbe(true) <==> !work.Acts?)
            && (work.Acts? ==> last >= 2 && events[last - 1].kind == EngineProbe(true))
  {
    var events := RunEvents(d, plan, writes, work, faults, timer);
    var committed := Durable(AfterPuts(d, writes, faults, Attempted(writes, faults, 0)).keyring, Some(plan.config));
    DeletesKeepConfig(committed, plan.retired, faults, |plan.retired|);
    var retired := AfterDeletes(committed, plan.retired, faults, |plan.retired|);
    assert TailEvents(retired, plan, work, faults, timer)
        == [Event(EngineProbe(true), retired)] + if work.Acts? then [Event(WriteClient, retired)] else [];
  }

  /**
   Whether a registering run writes the client's store: exactly when it gets as far as the client,
   the plan has an action, and the write takes effect.
   */
  lemma WritesClientIff(
    d: Durable, plan: SetupPlan, writes: seq<Write>, work: ClientWork, faults: Faults, timer: TimerState)
    ensures (exists i :: 0 <= i < |RunEvents(d, plan, writes, work, faults, timer)|
                         && RunEvents(d, plan, writes, work, faults, timer)[i].kind == WriteClient)
            <==> ReachesClient(plan, writes, faults, timer) && ClientWrites(work, faults)
  {
    var n := Attempted(writes, faults, 0);
    var stored := AfterPuts(d, writes, faults, n);
    var committed := Durable(stored.keyring, Some(plan.config));
    var events := RunEvents(d, plan, writes, work, faults, timer);
    PutEventKinds(d, writes, faults, n);
    DeleteEventKinds(stored, RefsOf(writes), faults, |writes|);
    DeleteEventKinds(committed, RefsOf(writes), faults, |writes|);
    DeleteEventKinds(committed, plan.retired, faults, |plan.retired|);
    if ReachesClient(plan, writes, faults, timer) && ClientWrites(work, faults) {
      assert events[|events| - 1].kind == WriteClient;
    }
  }

  /** Everything before the client succeeds. */
  predicate ReachesClient(plan: SetupPlan, writes: seq<Write>, faults: Faults, timer: TimerState) {
    && AllPut(writes, faults) && faults.firstSave == Saved && CommitHeld(faults)
    && !TimerFails(plan, faults, timer) && faults.engine
  }

  /** A run whose client plan has no action reports a registration without writing the client's store. */
  lemma UnchangedRerunRegisters(d: Durable, plan: SetupPlan, writes: seq<Write>, faults: Faults, timer: TimerState)
    requires ReachesClient(plan, writes, faults, timer) && !faults.readback.ReadbackRaises?
    ensures RunReport(plan, writes, Idle, faults, timer).outcome == Returned(true, true, false, [])
    ensures var events := RunEvents(d, plan, writes, Idle, faults, timer);
            forall i :: 0 <= i < |events| ==> events[i].kind != WriteClient
  {
    WritesClientIff(d, plan, writes, Idle, faults, timer);
  }
}

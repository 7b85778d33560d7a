/**
 No saved reference ever dangles: what a run of durable changes keeps, for which plans it keeps it,
 and exactly which late failure breaks it.
 */
module SetupSafety {
  import opened Common
  import opened PrivateFiles
  import opened SetupTransaction

  ghost predicate AllResolve(events: seq<Event>) {
    forall i :: 0 <= i < |events| ==> Resolves(events[i].after)
  }

  /** No key the run writes is one the saved configuration already uses. */
  ghost predicate WritesAreFresh(d: Durable, writes: seq<Write>) {
    d.config.Some? ==>
      forall slot, i :: HasSlot(d.config.value, slot) && 0 <= i < |writes| ==>
        writes[i].ref != RefAt(d.config.value, slot)
  }

  /** No key the run retires is one the new configuration still uses. */
  ghost predicate RetiresOnlyReplaced(plan: SetupPlan) {
    forall slot :: HasSlot(plan.config, slot) ==> RefAt(plan.config, slot) !in plan.retired
  }

  /** Each reference of the new configuration already resolves or is written by the run. */
  ghost predicate Supplied(d: Durable, plan: SetupPlan, writes: seq<Write>) {
    forall slot :: HasSlot(plan.config, slot) ==>
      Present(d.keyring, RefAt(plan.config, slot)) || RefAt(plan.config, slot) in RefsOf(writes)
  }

  /** Each key the run writes is referenced by the new configuration. */
  ghost predicate WritesAreUsed(plan: SetupPlan, writes: seq<Write>) {
    forall i :: 0 <= i < |writes| ==> References(plan.config, writes[i].ref)
  }

  // ---------------------------------------------------------------- keyring writes

  lemma {:induction false} PutsKeep(d: Durable, writes: seq<Write>, faults: Faults, n: nat, ref: CredentialRef)
    requires n <= |writes| && Present(d.keyring, ref)
    ensures Present(AfterPuts(d, writes, faults, n).keyring, ref)
  {
    if n > 0 {
      PutsKeep(d, writes, faults, n - 1, ref);
    }
  }

  lemma {:induction false} PutsKeepConfig(d: Durable, writes: seq<Write>, faults: Faults, n: nat)
    requires n <= |writes|
    ensures AfterPuts(d, writes, faults, n).config == d.config
  {
    if n > 0 {
      PutsKeepConfig(d, writes, faults, n - 1);
    }
  }

  lemma {:induction false} PutsStore(d: Durable, writes: seq<Write>, faults: Faults, n: nat, i: nat)
    requires i < n <= |writes| && AllPut(writes, faults)
    ensures Present(AfterPuts(d, writes, faults, n).keyring, writes[i].ref)
  {
    assert !PutFails(writes[n - 1], At(faults.put, n - 1));
    if i < n - 1 {
      PutsStore(d, writes, faults, n - 1, i);
    }
  }

  lemma PutsResolve(d: Durable, writes: seq<Write>, faults: Faults, n: nat)
    requires n <= |writes| && Resolves(d)
    ensures Resolves(AfterPuts(d, writes, faults, n))
  {
    PutsKeepConfig(d, writes, faults, n);
    if d.config.Some? {
      forall slot | HasSlot(d.config.value, slot)
        ensures Present(AfterPuts(d, writes, faults, n).keyring, RefAt(d.config.value, slot))
      {
        PutsKeep(d, writes, faults, n, RefAt(d.config.value, slot));
      }
    }
  }

  lemma {:induction false} PutEventsResolve(d: Durable, writes: seq<Write>, faults: Faults, n: nat)
    requires n <= |writes| && Resolves(d)
    ensures AllResolve(PutEvents(d, writes, faults, n))
  {
    if n > 0 {
      PutEventsResolve(d, writes, faults, n - 1);
      PutsResolve(d, writes, faults, n);
    }
  }

  lemma {:induction false} AttemptedAll(writes: seq<Write>, faults: Faults, i: nat)
    requires i <= |writes|
    requires forall j :: i <= j < |writes| ==> !PutFails(writes[j], At(faults.put, j))
    ensures Attempted(writes, faults, i) == |writes|
    decreases |writes| - i
  {
    if i < |writes| {
      AttemptedAll(writes, faults, i + 1);
    }
  }

  // ---------------------------------------------------------------- keyring deletions

  lemma {:induction false} DeletesKeep(d: Durable, refs: seq<CredentialRef>, faults: Faults, n: nat, ref: CredentialRef)
    requires n <= |refs| && Present(d.keyring, ref)
    requires forall i :: 0 <= i < n ==> refs[i] != ref || At(faults.remove, i) == Refused
    ensures Present(AfterDeletes(d, refs, faults, n).keyring, ref)
  {
    if n > 0 {
      DeletesKeep(d, refs, faults, n - 1, ref);
    }
  }

  lemma {:induction false} DeletesKeepConfig(d: Durable, refs: seq<CredentialRef>, faults: Faults, n: nat)
    requires n <= |refs|
    ensures AfterDeletes(d, refs, faults, n).config == d.config
  {
    if n > 0 {
      DeletesKeepConfig(d, refs, faults, n - 1);
    }
  }

  /** A deletion that took effect is not undone by later ones. */
  lemma {:induction false} DeletesRemove(d: Durable, refs: seq<CredentialRef>, faults: Faults, n: nat, i: nat)
    requires i < n <= |refs| && At(faults.remove, i) != Refused
    ensures refs[i] !in AfterDeletes(d, refs, faults, n).keyring
  {
    if i < n - 1 {
      DeletesRemove(d, refs, faults, n - 1, i);
    }
  }

  /** None of the listed keys whose deletion can take effect is used by the configuration. */
  ghost predicate DeletesSpareConfig(d: Durable, refs: seq<CredentialRef>, faults: Faults) {
    d.config.Some? ==>
      forall slot, i :: HasSlot(d.config.value, slot) && 0 <= i < |refs| ==>
        refs[i] != RefAt(d.config.value, slot) || At(faults.remove, i) == Refused
  }

  lemma DeletesResolve(d: Durable, refs: seq<CredentialRef>, faults: Faults, n: nat)
    requires n <= |refs| && Resolves(d) && DeletesSpareConfig(d, refs, faults)
    ensures Resolves(AfterDeletes(d, refs, faults, n))
  {
    DeletesKeepConfig(d, refs, faults, n);
    if d.config.Some? {
      forall slot | HasSlot(d.config.value, slot)
        ensures Present(AfterDeletes(d, refs, faults, n).keyring, RefAt(d.config.value, slot))
      {
        DeletesKeep(d, refs, faults, n, RefAt(d.config.value, slot));
      }
    }
  }

  lemma {:induction false} DeleteEventsResolve(d: Durable, refs: seq<CredentialRef>, faults: Faults, n: nat)
    requires n <= |refs| && Resolves(d) && DeletesSpareConfig(d, refs, faults)
    ensures AllResolve(DeleteEvents(d, refs, faults, n))
  {
    if n > 0 {
      DeleteEventsResolve(d, refs, faults, n - 1);
      DeletesResolve(d, refs, faults, n);
    }
  }

  /** Once a used key is gone, some state of the deletions dangles. */
  lemma DeleteEventsDangle(d: Durable, refs: seq<CredentialRef>, faults: Faults, i: nat, slot: Slot)
    requires i < |refs| && At(faults.remove, i) != Refused
    requires d.config.Some? && HasSlot(d.config.value, slot) && RefAt(d.config.value, slot) == refs[i]
    ensures !AllResolve(DeleteEvents(d, refs, faults, |refs|))
  {
    var events := DeleteEvents(d, refs, faults, |refs|);
    var last := AfterDeletes(d, refs, faults, |refs|);
    DeletesKeepConfig(d, refs, faults, |refs|);
    DeletesRemove(d, refs, faults, |refs|, i);
    assert events[|events| - 1].after == last;
    assert !Present(last.keyring, RefAt(last.config.value, slot));
  }

  // ---------------------------------------------------------------- one run

  lemma AllResolveConcat(first: seq<Event>, second: seq<Event>)
    ensures AllResolve(first + second) <==> AllResolve(first) && AllResolve(second)
  {
    var both := first + second;
    if AllResolve(both) {
      forall i | 0 <= i < |first| ensures Resolves(first[i].after) {
        assert both[i] == first[i];
      }
      forall i | 0 <= i < |second| ensures Resolves(second[i].after) {
        assert both[|first| + i] == second[i];
      }
    }
  }

  function StoredState(d: Durable, writes: seq<Write>, faults: Faults): Durable {
    AfterPuts(d, writes, faults, Attempted(writes, faults, 0))
  }

  function CommittedState(d: Durable, plan: SetupPlan, writes: seq<Write>, faults: Faults): Durable {
    Durable(StoredState(d, writes, faults).keyring, Some(plan.config))
  }

  /** When every write succeeded, the new configuration resolves the moment it is in place. */
  lemma CommitResolves(d: Durable, plan: SetupPlan, writes: seq<Write>, faults: Faults)
    requires Supplied(d, plan, writes) && AllPut(writes, faults)
    ensures Resolves(CommittedState(d, plan, writes, faults))
  {
    AttemptedAll(writes, faults, 0);
    forall slot | HasSlot(plan.config, slot)
      ensures Present(StoredState(d, writes, faults).keyring, RefAt(plan.config, slot))
    {
      var ref := RefAt(plan.config, slot);
      if Present(d.keyring, ref) {
        PutsKeep(d, writes, faults, |writes|, ref);
      } else {
        var i :| 0 <= i < |writes| && RefsOf(writes)[i] == ref;
        PutsStore(d, writes, faults, |writes|, i);
      }
    }
  }

  /** Undoing the writes before the switch touches nothing the old configuration uses. */
  lemma CompensationResolves(d: Durable, writes: seq<Write>, faults: Faults)
    requires Resolves(d) && WritesAreFresh(d, writes)
    ensures AllResolve(DeleteEvents(StoredState(d, writes, faults), RefsOf(writes), faults, |writes|))
  {
    var n := Attempted(writes, faults, 0);
    PutsResolve(d, writes, faults, n);
    PutsKeepConfig(d, writes, faults, n);
    DeleteEventsResolve(StoredState(d, writes, faults), RefsOf(writes), faults, |writes|);
  }

  lemma RetirementResolves(
    d: Durable, plan: SetupPlan, writes: seq<Write>, work: ClientWork, faults: Faults, timer: TimerState)
    requires Supplied(d, plan, writes) && RetiresOnlyReplaced(plan) && AllPut(writes, faults)
    ensures var committed := CommittedState(d, plan, writes, faults);
            AllResolve([Event(CommitConfig, committed)] + DeleteEvents(committed, plan.retired, faults, |plan.retired|)
                       + TailEvents(AfterDeletes(committed, plan.retired, faults, |plan.retired|), plan, work, faults,
                         timer))
  {
    var committed := CommittedState(d, plan, writes, faults);
    var last := AfterDeletes(committed, plan.retired, faults, |plan.retired|);
    CommitResolves(d, plan, writes, faults);
    DeleteEventsResolve(committed, plan.retired, faults, |plan.retired|);
    DeletesResolve(committed, plan.retired, faults, |plan.retired|);
    AllResolveConcat([Event(CommitConfig, committed)], DeleteEvents(committed, plan.retired, faults, |plan.retired|));
    AllResolveConcat(
      [Event(CommitConfig, committed)] + DeleteEvents(committed, plan.retired, faults, |plan.retired|),
      TailEvents(last, plan, work, faults, timer));
  }

  /** The committed configuration is undone key by key although it is already in place. */
  predicate UndoesCommitted(writes: seq<Write>, faults: Faults) {
    AllPut(writes, faults) && faults.firstSave == Saved && LateFailure(faults)
  }

  lemma EarlyRunResolves(
    d: Durable, plan: SetupPlan, writes: seq<Write>, work: ClientWork, faults: Faults, timer: TimerState)
    requires Resolves(d) && Supplied(d, plan, writes) && WritesAreFresh(d, writes) && RetiresOnlyReplaced(plan)
    requires !UndoesCommitted(writes, faults)
    ensures AllResolve(RunEvents(d, plan, writes, work, faults, timer))
  {
    var n := Attempted(writes, faults, 0);
    var puts := PutEvents(d, writes, faults, n);
    var committed := CommittedState(d, plan, writes, faults);
    PutEventsResolve(d, writes, faults, n);
    if !AllPut(writes, faults) || faults.firstSave == SystemFailure {
    } else if faults.firstSave == SetupFailure || faults.commit == FailedBeforeReplace {
      CompensationResolves(d, writes, faults);
      AllResolveConcat(puts, DeleteEvents(StoredState(d, writes, faults), RefsOf(writes), faults, |writes|));
    } else {
      var retire := DeleteEvents(committed, plan.retired, faults, |plan.retired|);
      var tail := TailEvents(AfterDeletes(committed, plan.retired, faults, |plan.retired|), plan, work, faults, timer);
      RetirementResolves(d, plan, writes, work, faults, timer);
      AllResolveConcat(puts, [Event(CommitConfig, committed)] + retire + tail);
      assert puts + ([Event(CommitConfig, committed)] + retire + tail)
               == puts + [Event(CommitConfig, committed)] + retire + tail;
    }
  }

  /**
   In every state the run goes through, every saved reference resolves, except exactly when the
   switch itself or the journal save after it reports an error once the new configuration is
   already in place and one of the compensating deletions takes effect.
   */
  lemma RunResolvesIff(
    d: Durable, plan: SetupPlan, writes: seq<Write>, work: ClientWork, faults: Faults, timer: TimerState)
    requires Resolves(d) && Supplied(d, plan, writes) && WritesAreUsed(plan, writes)
    requires WritesAreFresh(d, writes) && RetiresOnlyReplaced(plan)
    ensures AllResolve(RunEvents(d, plan, writes, work, faults, timer)) <==>
            (UndoesCommitted(writes, faults) ==> forall i :: 0 <= i < |writes| ==> At(faults.remove, i) == Refused)
  {
    if UndoesCommitted(writes, faults) {
      var n := Attempted(writes, faults, 0);
      var puts := PutEvents(d, writes, faults, n);
      var committed := CommittedState(d, plan, writes, faults);
      PutEventsResolve(d, writes, faults, n);
      CommitResolves(d, plan, writes, faults);
      LateCompensation(committed, plan, writes, faults);
      AllResolveConcat(puts, [Event(CommitConfig, committed)]);
      AllResolveConcat(
        puts + [Event(CommitConfig, committed)], DeleteEvents(committed, RefsOf(writes), faults, |writes|));
    } else {
      EarlyRunResolves(d, plan, writes, work, faults, timer);
    }
  }

  lemma LateCompensation(committed: Durable, plan: SetupPlan, writes: seq<Write>, faults: Faults)
    requires Resolves(committed) && committed.config == Some(plan.config) && WritesAreUsed(plan, writes)
    ensures AllResolve(DeleteEvents(committed, RefsOf(writes), faults, |writes|)) <==>
            forall i :: 0 <= i < |writes| ==> At(faults.remove, i) == Refused
  {
    var refs := RefsOf(writes);
    if i :| 0 <= i < |writes| && At(faults.remove, i) != Refused {
      assert References(plan.config, writes[i].ref);
      var slot :| HasSlot(plan.config, slot) && RefAt(plan.config, slot) == writes[i].ref;
      DeleteEventsDangle(committed, refs, faults, i, slot);
    } else {
      DeleteEventsResolve(committed, refs, faults, |refs|);
    }
  }

  // ---------------------------------------------------------------- which plans are safe

  /** Whatever fails before the switch has happened, every state of the run resolves. */
  ghost predicate SafeUnderEarlyFaults(
    d: Durable, plan: SetupPlan, writes: seq<Write>, work: ClientWork, timer: TimerState)
  {
    forall faults: Faults :: !LateFailure(faults) ==> AllResolve(RunEvents(d, plan, writes, work, faults, timer))
  }

  const NOTHING_FAILS := Faults([], [], Saved, Committed, true, true, true, true, Written, EntryFound)

  const SWITCH_FAILS := NOTHING_FAILS.(commit := FailedBeforeReplace)

  /**
   A plan is safe under every early fault exactly when the keys it writes are none the saved
   configuration uses and the keys it retires are none the new configuration uses; a plan with an
   empty secret stops at that secret and is safe as well.
   */
  lemma PlanSafeIff(d: Durable, plan: SetupPlan, writes: seq<Write>, work: ClientWork, timer: TimerState)
    requires Resolves(d) && Supplied(d, plan, writes)
    ensures SafeUnderEarlyFaults(d, plan, writes, work, timer) <==>
            (exists i :: 0 <= i < |writes| && writes[i].secret == "")
              || (WritesAreFresh(d, writes) && RetiresOnlyReplaced(plan))
  {
    if i :| 0 <= i < |writes| && writes[i].secret == "" {
      forall faults: Faults ensures AllResolve(RunEvents(d, plan, writes, work, faults, timer)) {
        assert PutFails(writes[i], At(faults.put, i));
        PutEventsResolve(d, writes, faults, Attempted(writes, faults, 0));
      }
    } else if WritesAreFresh(d, writes) && RetiresOnlyReplaced(plan) {
      forall faults: Faults | !LateFailure(faults)
        ensures AllResolve(RunEvents(d, plan, writes, work, faults, timer))
      {
        EarlyRunResolves(d, plan, writes, work, faults, timer);
      }
    } else if !WritesAreFresh(d, writes) {
      OverwriteDangles(d, plan, writes, work, timer);
    } else {
      RetireDangles(d, plan, writes, work, timer);
    }
  }

  /** Writing over a key in use dangles as soon as the switch fails and the write is undone. */
  lemma OverwriteDangles(d: Durable, plan: SetupPlan, writes: seq<Write>, work: ClientWork, timer: TimerState)
    requires !WritesAreFresh(d, writes)
    requires forall i :: 0 <= i < |writes| ==> writes[i].secret != ""
    ensures !LateFailure(SWITCH_FAILS)
    ensures !AllResolve(RunEvents(d, plan, writes, work, SWITCH_FAILS, timer))
  {
    var faults := SWITCH_FAILS;
    var n := Attempted(writes, faults, 0);
    var slot, i :| HasSlot(d.config.value, slot) && 0 <= i < |writes| && writes[i].ref == RefAt(d.config.value, slot);
    PutsKeepConfig(d, writes, faults, n);
    DeleteEventsDangle(StoredState(d, writes, faults), RefsOf(writes), faults, i, slot);
    AllResolveConcat(
      PutEvents(d, writes, faults, n), DeleteEvents(StoredState(d, writes, faults), RefsOf(writes), faults, |writes|));
  }

  /** Retiring a key the new configuration still uses dangles with no fault at all. */
  lemma RetireDangles(d: Durable, plan: SetupPlan, writes: seq<Write>, work: ClientWork, timer: TimerState)
    requires !RetiresOnlyReplaced(plan)
    requires forall i :: 0 <= i < |writes| ==> writes[i].secret != ""
    ensures !LateFailure(NOTHING_FAILS)
    ensures !AllResolve(RunEvents(d, plan, writes, work, NOTHING_FAILS, timer))
  {
    var faults := NOTHING_FAILS;
    var puts := PutEvents(d, writes, faults, Attempted(writes, faults, 0));
    var committed := CommittedState(d, plan, writes, faults);
    var retire := DeleteEvents(committed, plan.retired, faults, |plan.retired|);
    var tail := TailEvents(AfterDeletes(committed, plan.retired, faults, |plan.retired|), plan, work, faults, timer);
    var slot :| HasSlot(plan.config, slot) && RefAt(plan.config, slot) in plan.retired;
    var i :| 0 <= i < |plan.retired| && plan.retired[i] == RefAt(plan.config, slot);
    DeleteEventsDangle(committed, plan.retired, faults, i, slot);
    AllResolveConcat(puts + [Event(CommitConfig, committed)], retire);
    AllResolveConcat(puts + [Event(CommitConfig, committed)] + retire, tail);
  }
}

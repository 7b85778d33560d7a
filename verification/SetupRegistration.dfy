/**
 Where the setup transaction meets the client stores: what a registration plan asks of its adapter,
 and what a rerun of an unchanged setup does to the client's store.
 */
module SetupRegistrations {
  import opened Common
  import opened SetupTransaction
  import opened SetupReports
  import ClientBase
  import JsonTree
  import JsonStores
  import TomlText
  import TomlAdapters

  /** A conflict is refused, a plan without actions is not carried out, any other writes. */
  function WorkOf(plan: ClientBase.RegistrationPlan): ClientWork {
    if plan.Blocked() then Conflicts else if plan.ChangesNothing() then Idle else Acts
  }

  /** A client without a supported store is planned for without reading or changing anything. */
  function ManualPlan(registration: ClientBase.Registration): ClientBase.RegistrationPlan {
    ClientBase.RegistrationPlan(registration, [], [], [])
  }

  /** The run reports a registration although it has not written the client's store. */
  ghost predicate RegistersIdly(
    d: Durable, plan: SetupPlan, writes: seq<Write>, work: ClientWork, faults: Faults, timer: TimerState)
  {
    && RunReport(plan, writes, work, faults, timer).outcome == Returned(true, true, false, [])
    && var events := RunEvents(d, plan, writes, work, faults, timer);
       forall i :: 0 <= i < |events| ==> events[i].kind != WriteClient
  }

  /** Registering by hand is reported by every run that gets there. */
  lemma ManualRegisters(
    registration: ClientBase.Registration,
    d: Durable, plan: SetupPlan, writes: seq<Write>, faults: Faults, timer: TimerState)
    requires ReachesClient(plan, writes, faults, timer) && !faults.readback.ReadbackRaises?
    ensures RegistersIdly(d, plan, writes, WorkOf(ManualPlan(registration)), faults, timer)
  {
    UnchangedRerunRegisters(d, plan, writes, faults, timer);
  }

  /**
   Once a registration was carried out in a JSON store, every rerun that plans it again reports a
   registration without writing the store, whatever is owned by then or may be taken over.
   */
  lemma JsonRerunRegisters(
    document: JsonTree.Fields, path: seq<string>, registration: ClientBase.Registration,
    owned: set<string>, takeover: bool, hash: string -> string, nextOwned: set<string>, nextTakeover: bool,
    d: Durable, plan: SetupPlan, writes: seq<Write>, faults: Faults, timer: TimerState)
    requires JsonStores.Planned(document, path, registration, owned, takeover, hash).Ok?
    requires JsonStores.Applied(document, path,
               JsonStores.Planned(document, path, registration, owned, takeover, hash).value).Ok?
    requires ReachesClient(plan, writes, faults, timer) && !faults.readback.ReadbackRaises?
    ensures var first := JsonStores.Planned(document, path, registration, owned, takeover, hash).value;
            var changed := JsonStores.Applied(document, path, first).value;
            var again := JsonStores.Planned(changed, path, registration, nextOwned, nextTakeover, hash);
            && again.Ok? && JsonStores.Applied(changed, path, again.value) == Ok(changed)
            && RegistersIdly(d, plan, writes, WorkOf(again.value), faults, timer)
  {
    JsonStores.NextPlanIsEmpty(document, path, registration, owned, takeover, hash, nextOwned, nextTakeover);
    UnchangedRerunRegisters(d, plan, writes, faults, timer);
  }

  /** The same for a TOML store. */
  lemma TomlRerunRegisters(
    text: string, path: seq<string>, registration: ClientBase.Registration, owned: set<string>, takeover: bool,
    hash: string -> string, d: Durable, plan: SetupPlan, writes: seq<Write>, faults: Faults, timer: TimerState)
    requires TomlAdapters.OneLineNames(path) && TomlText.OneLine(registration.name)
    requires TomlAdapters.CleanLaunch(ClientBase.LaunchOf(registration))
    requires ReachesClient(plan, writes, faults, timer) && !faults.readback.ReadbackRaises?
    ensures var name, launch := registration.name, ClientBase.LaunchOf(registration);
            var read := TomlAdapters.LaunchNamed(TomlAdapters.Registered(text, path, name, launch), path, name);
            var again := ClientBase.PlanFor(registration, TomlAdapters.EntryOf(name, read), owned, takeover, hash);
            again.Ok? && RegistersIdly(d, plan, writes, WorkOf(again.value), faults, timer)
  {
    TomlAdapters.NextPlanIsEmpty(text, path, registration, owned, takeover, hash);
    UnchangedRerunRegisters(d, plan, writes, faults, timer);
  }
}

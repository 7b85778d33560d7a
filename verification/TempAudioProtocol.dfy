/**
 The temporary audio area as several processes use it at once, without a lock: each system call is
 one step, and between any two steps time may pass, other processes may act, owners may die, their
 PIDs may be reused, and the machine may reboot.
 */
module TempAudioProtocol {
  import opened Common

  /** The random part of a file name. Tokens are never drawn twice. */
  type Token = nat

  /** A process of one boot; the kernel never starts the same PID twice in one clock tick. */
  datatype ProcessId = ProcessId(boot: nat, pid: nat, ticks: nat)

  datatype StartTicks = Unknown | Ticks(value: nat) | NotANumber

  /** What a claim file may hold once it parses as JSON. */
  datatype Claim =
    | NotAnObject
    | Claim(pid: Option<int>, startTicks: StartTicks, boot: Option<nat>, expiresAt: Option<int>)

  /** A claim file: created but not yet holding a parsable document, or complete. */
  datatype Meta = Incomplete | Complete(claim: Claim)

  datatype Audio = Audio(regular: bool, mtime: int)

  datatype Owner = Owner(process: ProcessId, actor: nat)

  /** One running `sweep`: what it sampled when it started, and the entries still to visit. */
  datatype Sweep = Sweep(now: int, boot: nat, expireAll: bool, pending: seq<Token>)

  /** Why a sweep decided to remove a file. */
  datatype Verdict =
    | ByClaim(claim: Claim)      // it read a complete claim, and the claim says so
    | WithoutClaim               // it found no complete claim, or could not read it
    | OwnerUnreadable            // the process table could not be read
    | Purging

  /** Where one `create_file`, `release` or `sweep` call stands. */
  datatype Pc =
    | Claiming(token: Token)
    | Opening(token: Token, claim: Claim)
    | Writing(token: Token, claim: Claim)
    | Releasing(token: Token)
    | Dropping(token: Token, next: Option<Sweep>)
    | Visiting(sweep: Sweep)
    | Inspecting(sweep: Sweep, token: Token, mtime: int)
    | CheckingMissing(sweep: Sweep, token: Token)
    | CheckingOwner(sweep: Sweep, token: Token, claim: Claim)
    | Removing(sweep: Sweep, token: Token, verdict: Verdict)
    | Orphans(pending: seq<Token>)
    | OrphanDropping(token: Token, pending: seq<Token>)

  datatype Actor = Actor(process: ProcessId, pc: Pc)

  datatype State = State(
    ttl: nat,
    clock: int,
    boot: nat,
    running: map<nat, nat>,             // live PIDs and their start ticks
    audio: map<Token, Audio>,
    meta: map<Token, Meta>,
    actors: map<nat, Actor>,
    // what happened so far; no step reads these
    boots: set<nat>,
    spawned: set<ProcessId>,
    used: set<Token>,
    owners: map<Token, Owner>,
    written: map<Token, Claim>)

  /** One atomic change. `Act` is the next system call of a call in progress. */
  datatype Step =
    | Tick(delta: nat)
    | Spawn(pid: nat, ticks: nat)
    | Die(pid: nat)
    | Reboot(boot: nat)
    | Touch(token: Token)
    | CreateAudio(actor: nat, process: ProcessId, token: Token)
    | StartRelease(actor: nat, process: ProcessId, token: Token)
    | StartSweep(actor: nat, process: ProcessId, expireAll: bool, listing: seq<Token>)
    | Act(actor: nat, succeeds: bool, listing: seq<Token>)

  predicate Alive(s: State, p: ProcessId) {
    p.boot == s.boot && p.pid in s.running && s.running[p.pid] == p.ticks
  }

  // ---------------------------------------------------------------- decisions

  /** Before asking for the owner: the claim is malformed, from another boot, or expired. */
  predicate TakenAtOnce(claim: Claim, now: int, boot: nat) {
    claim.NotAnObject? || claim.boot != Some(boot) || claim.expiresAt.None? || now >= claim.expiresAt.value
  }

  /** `_owner_alive`, given a readable process table. */
  predicate OwnerAlive(claim: Claim, running: map<nat, nat>) {
    && claim.Claim? && claim.pid.Some? && claim.pid.value > 0
    && claim.pid.value in running
    && (claim.startTicks.Unknown? || claim.startTicks == Ticks(running[claim.pid.value]))
  }

  function ClaimBy(p: ProcessId, ticksReadable: bool, now: int, ttl: nat): Claim {
    Claim(Some(p.pid), if ticksReadable then Ticks(p.ticks) else Unknown, Some(p.boot), Some(now + ttl))
  }

  // ---------------------------------------------------------------- steps

  /** What one system call changes: the directory, and where the call stands after it. */
  datatype Effect = Effect(audio: map<Token, Audio>, meta: map<Token, Meta>, pc: Option<Pc>)

  function ActEffect(s: State, process: ProcessId, pc: Pc, succeeds: bool, listing: seq<Token>): Effect {
    match pc
    case Claiming(t) => Effect(s.audio, s.meta, Some(Opening(t, ClaimBy(process, succeeds, s.clock, s.ttl))))
    case Opening(t, c) =>
      if t in s.meta then Effect(s.audio, s.meta, None)
      else Effect(s.audio, s.meta[t := Incomplete], Some(Writing(t, c)))
    case Writing(t, c) => Effect(s.audio, if t in s.meta then s.meta[t := Complete(c)] else s.meta, None)
    case Releasing(t) =>
      if succeeds then Effect(s.audio - {t}, s.meta, Some(Dropping(t, None))) else Effect(s.audio, s.meta, None)
    case Dropping(t, next) =>
      Effect(s.audio, if succeeds then s.meta - {t} else s.meta, if next.Some? then Some(Visiting(next.value))
        else None)
    case Visiting(w) =>
      if w.pending == [] then Effect(s.audio, s.meta, Some(Orphans(listing)))
      else
        var t, rest := w.pending[0], w.(pending := w.pending[1..]);
        if w.expireAll then Effect(s.audio, s.meta, Some(Removing(rest, t, Purging)))
        else if t !in s.audio || !s.audio[t].regular then Effect(s.audio, s.meta, Some(Visiting(rest)))
        else Effect(s.audio, s.meta, Some(Inspecting(rest, t, s.audio[t].mtime)))
    case Inspecting(w, t, mtime) =>
      if succeeds && t in s.meta && s.meta[t].Complete? then
        if TakenAtOnce(s.meta[t].claim, w.now, w.boot)
          then Effect(s.audio, s.meta, Some(Removing(w, t, ByClaim(s.meta[t].claim))))
        else Effect(s.audio, s.meta, Some(CheckingOwner(w, t, s.meta[t].claim)))
      else if w.now - mtime > s.ttl then Effect(s.audio, s.meta, Some(Removing(w, t, WithoutClaim)))
      else Effect(s.audio, s.meta, Some(CheckingMissing(w, t)))
    case CheckingMissing(w, t) =>
      Effect(s.audio, s.meta, Some(if t in s.meta then Visiting(w) else Removing(w, t, WithoutClaim)))
    case CheckingOwner(w, t, c) =>
      Effect(s.audio, s.meta,
             Some(if !succeeds then Removing(w, t, OwnerUnreadable)
                  else if OwnerAlive(c, s.running) then Visiting(w)
                  else Removing(w, t, ByClaim(c))))
    case Removing(w, t, verdict) =>
      if succeeds then Effect(s.audio - {t}, s.meta, Some(Dropping(t, Some(w))))
      else Effect(s.audio, s.meta, Some(Visiting(w)))
    case Orphans(pending) =>
      if pending == [] then Effect(s.audio, s.meta, None)
      else if pending[0] in s.audio then Effect(s.audio, s.meta, Some(Orphans(pending[1..])))
      else Effect(s.audio, s.meta, Some(OrphanDropping(pending[0], pending[1..])))
    case OrphanDropping(t, pending) =>
      Effect(s.audio, if succeeds then s.meta - {t} else s.meta, Some(Orphans(pending)))
  }

  /** The claim a `Writing` call completes, if its file still has a name. */
  function WrittenBy(s: State, pc: Pc): map<Token, Claim> {
    if pc.Writing? then s.written[pc.token := pc.claim] else s.written
  }

  predicate Enabled(s: State, step: Step) {
    match step
    case Tick(_) => true
    case Spawn(pid, ticks) => pid > 0 && pid !in s.running && ProcessId(s.boot, pid, ticks) !in s.spawned
    case Die(pid) => pid in s.running
    case Reboot(boot) => boot !in s.boots
    case Touch(t) => t in s.audio
    case CreateAudio(a, p, t) => a !in s.actors && Alive(s, p) && t !in s.used
    case StartRelease(a, p, t) => a !in s.actors && Alive(s, p) && t in s.used
    case StartSweep(a, p, _, listing) => a !in s.actors && Alive(s, p) && forall t :: t in listing ==> t in s.used
    case Act(a, _, listing) => a in s.actors && forall t :: t in listing ==> t in s.used
  }

  function Next(s: State, step: Step): State
    requires Enabled(s, step)
  {
    match step
    case Tick(delta) => s.(clock := s.clock + delta)
    case Spawn(pid, ticks) =>
      s.(running := s.running[pid := ticks], spawned := s.spawned + {ProcessId(s.boot, pid, ticks)})
    case Die(pid) =>
      s.(running := s.running - {pid},
         actors := map a | a in s.actors && s.actors[a].process != ProcessId(s.boot, pid, s.running[pid]) ::
           s.actors[a])
    case Reboot(boot) => s.(boot := boot, boots := s.boots + {boot}, running := map[], actors := map[])
    case Touch(t) => s.(audio := s.audio[t := s.audio[t].(mtime := s.clock)])
    case CreateAudio(a, p, t) =>
      s.(audio := s.audio[t := Audio(true, s.clock)], used := s.used + {t}, owners := s.owners[t := Owner(p, a)],
         actors := s.actors[a := Actor(p, Claiming(t))])
    case StartRelease(a, p, t) => s.(actors := s.actors[a := Actor(p, Releasing(t))])
    case StartSweep(a, p, expireAll, listing) =>
      s.(actors := s.actors[a := Actor(p, Visiting(Sweep(s.clock, s.boot, expireAll, listing)))])
    case Act(a, succeeds, listing) =>
      var actor := s.actors[a];
      var e := ActEffect(s, actor.process, actor.pc, succeeds, listing);
      s.(audio := e.audio, meta := e.meta, written := WrittenBy(s, actor.pc),
         actors := if e.pc.Some? then s.actors[a := actor.(pc := e.pc.value)] else s.actors - {a})
  }

  /** Any directory with any contents, of any age, before the first call. */
  ghost predicate Init(s: State) {
    && s.actors == map[] && s.owners == map[]
    && s.boot in s.boots
    && s.audio.Keys <= s.used && s.meta.Keys <= s.used && s.written.Keys <= s.used
    && (forall t :: t in s.meta && s.meta[t].Complete? ==> t in s.written && s.written[t] == s.meta[t].claim)
    && (forall p :: p in s.spawned ==> p.boot in s.boots && p.pid > 0)
    && (forall pid :: pid in s.running ==> ProcessId(s.boot, pid, s.running[pid]) in s.spawned)
  }

  /** `run` can be taken from `s`, step by step. */
  ghost predicate IsRun(s: State, run: seq<Step>)
    decreases |run|, 0
  {
    run == [] || (IsRun(s, run[..|run| - 1]) && Enabled(After(s, run[..|run| - 1]), run[|run| - 1]))
  }

  ghost function After(s: State, run: seq<Step>): State
    requires IsRun(s, run)
    decreases |run|, 1
  {
    if run == [] then s else Next(After(s, run[..|run| - 1]), run[|run| - 1])
  }

  // ---------------------------------------------------------------- what stays true

  /** The claim names the process that created the file. */
  ghost predicate ClaimNames(claim: Claim, p: ProcessId) {
    && claim.Claim? && claim.pid == Some(p.pid) && claim.boot == Some(p.boot)
    && (claim.startTicks.Unknown? || claim.startTicks == Ticks(p.ticks))
  }

  /** The claim no longer protects the file it was written for, now or ever again in this boot. */
  ghost predicate Lapsed(s: State, t: Token, claim: Claim) {
    t in s.owners ==>
      || claim.NotAnObject? || claim.boot != Some(s.boot)
      || claim.expiresAt.None? || s.clock >= claim.expiresAt.value
      || !Alive(s, s.owners[t].process)
  }

  ghost predicate SweepOk(s: State, w: Sweep) {
    w.now <= s.clock && w.boot == s.boot && forall t :: t in w.pending ==> t in s.used
  }

  /** The call `a` is still on the way to completing the claim of the file it created. */
  ghost predicate CreatorOk(s: State, a: nat, p: ProcessId, t: Token) {
    t in s.used && t in s.owners && s.owners[t] == Owner(p, a) && t !in s.written
  }

  ghost predicate SeenOk(s: State, t: Token, claim: Claim) {
    t in s.used && t in s.written && s.written[t] == claim
  }

  ghost predicate ActorOk(s: State, a: nat, actor: Actor) {
    && Alive(s, actor.process)
    && match actor.pc
       case Claiming(t) => CreatorOk(s, a, actor.process, t)
       case Opening(t, c) => CreatorOk(s, a, actor.process, t) && ClaimNames(c, actor.process)
       case Writing(t, c) => CreatorOk(s, a, actor.process, t) && ClaimNames(c, actor.process)
       case Releasing(t) => t in s.used
       case Dropping(t, next) => t in s.used && t !in s.audio && (next.Some? ==> SweepOk(s, next.value))
       case Visiting(w) => SweepOk(s, w)
       case Inspecting(w, t, _) => SweepOk(s, w) && t in s.used
       case CheckingMissing(w, t) => SweepOk(s, w) && t in s.used
       case CheckingOwner(w, t, c) => SweepOk(s, w) && SeenOk(s, t, c)
       case Removing(w, t, v) =>
         SweepOk(s, w) && t in s.used && (v.ByClaim? ==> SeenOk(s, t, v.claim) && Lapsed(s, t, v.claim))
       case Orphans(pending) => forall t :: t in pending ==> t in s.used
       case OrphanDropping(t, pending) => t in s.used && t !in s.audio && forall o :: o in pending ==> o in s.used
  }

  ghost predicate Base(s: State) {
    && s.boot in s.boots
    && s.audio.Keys <= s.used && s.meta.Keys <= s.used && s.written.Keys <= s.used && s.owners.Keys <= s.used
    && (forall p :: p in s.spawned ==> p.boot in s.boots && p.pid > 0)
    && (forall pid :: pid in s.running ==> ProcessId(s.boot, pid, s.running[pid]) in s.spawned)
  }

  ghost predicate ClaimsOk(s: State) {
    && (forall t :: t in s.meta && s.meta[t].Complete? ==> t in s.written && s.written[t] == s.meta[t].claim)
    && (forall t :: t in s.owners ==> s.owners[t].process in s.spawned)
    && (forall t :: t in s.owners && t in s.written ==> ClaimNames(s.written[t], s.owners[t].process))
  }

  ghost predicate Inv(s: State) {
    Base(s) && ClaimsOk(s) && forall a :: a in s.actors ==> ActorOk(s, a, s.actors[a])
  }

  /** A file that no sweep may take: its complete claim is of this boot, unexpired, its owner lives. */
  ghost predicate Protected(s: State, t: Token) {
    && t in s.audio && t in s.owners
    && t in s.meta && s.meta[t].Complete? && s.meta[t].claim.Claim?
    && s.meta[t].claim.boot == Some(s.boot)
    && s.meta[t].claim.expiresAt.Some? && s.clock < s.meta[t].claim.expiresAt.value
    && Alive(s, s.owners[t].process)
  }

  /** A process that is gone never comes back: its PID may be reused, but not its start tick. */
  lemma DeadStaysDead(s: State, step: Step, p: ProcessId)
    requires Base(s) && Enabled(s, step) && p in s.spawned && !Alive(s, p)
    ensures !Alive(Next(s, step), p)
  {
  }

  /** A lapsed claim stays lapsed, whatever step comes next. */
  lemma LapsedStays(s: State, step: Step, t: Token, claim: Claim)
    requires Base(s) && ClaimsOk(s) && Enabled(s, step) && t in s.used && Lapsed(s, t, claim)
    requires !step.Reboot?
    ensures Lapsed(Next(s, step), t, claim)
  {
    if t in s.owners && !Alive(s, s.owners[t].process) {
      DeadStaysDead(s, step, s.owners[t].process);
    }
  }

  /** What one call may change is confined to tokens that exist. */
  lemma ActBase(s: State, a: nat, succeeds: bool, listing: seq<Token>)
    requires Base(s) && Enabled(s, Act(a, succeeds, listing)) && ActorOk(s, a, s.actors[a])
    ensures Base(Next(s, Act(a, succeeds, listing)))
  {
  }

  lemma NextBase(s: State, step: Step)
    requires Inv(s) && Enabled(s, step)
    ensures Base(Next(s, step))
  {
    if step.Act? {
      ActBase(s, step.actor, step.succeeds, step.listing);
    }
  }

  /** Completing a claim writes it once, and it names the creator; no other call writes claims. */
  lemma ActClaims(s: State, a: nat, succeeds: bool, listing: seq<Token>)
    requires Base(s) && ClaimsOk(s) && Enabled(s, Act(a, succeeds, listing)) && ActorOk(s, a, s.actors[a])
    ensures ClaimsOk(Next(s, Act(a, succeeds, listing)))
  {
    var s' := Next(s, Act(a, succeeds, listing));
    var pc := s.actors[a].pc;
    assert s'.owners == s.owners && s'.spawned == s.spawned;
    if !pc.Writing? {
      assert s'.written == s.written;
      assert forall t :: t in s'.meta && s'.meta[t].Complete? ==> t in s.meta && s.meta[t] == s'.meta[t];
    }
  }

  lemma NextClaims(s: State, step: Step)
    requires Inv(s) && Enabled(s, step)
    ensures ClaimsOk(Next(s, step))
  {
    if step.Act? {
      ActClaims(s, step.actor, step.succeeds, step.listing);
    } else {
      AliveSpawned(s, step);
    }
  }

  lemma AliveSpawned(s: State, step: Step)
    requires Base(s) && ClaimsOk(s) && Enabled(s, step) && !step.Act?
    ensures ClaimsOk(Next(s, step))
  {
  }

  /** What a step of the rest of the system may do, seen from the call `a`. */
  ghost predicate Evolves(s: State, s': State, a: nat) {
    && s'.boot == s.boot && s.clock <= s'.clock && s.used <= s'.used
    && (forall t :: t in s.owners ==> t in s'.owners && s'.owners[t] == s.owners[t])
    && (forall t :: t in s.written ==> t in s'.written && s'.written[t] == s.written[t])
    && (forall t :: t in s'.written && t !in s.written ==> t in s.owners && s.owners[t].actor != a)
    && (forall t :: t in s.used && t !in s.audio ==> t !in s'.audio)
  }

  lemma ActorEvolves(s: State, s': State, a: nat, actor: Actor)
    requires ActorOk(s, a, actor) && Evolves(s, s', a) && Alive(s', actor.process)
    requires actor.pc.Removing? && actor.pc.verdict.ByClaim? ==> Lapsed(s', actor.pc.token, actor.pc.verdict.claim)
    ensures ActorOk(s', a, actor)
  {
  }

  lemma ActEvolves(s: State, b: nat, succeeds: bool, listing: seq<Token>, a: nat)
    requires Base(s) && Enabled(s, Act(b, succeeds, listing)) && ActorOk(s, b, s.actors[b]) && a != b
    ensures Evolves(s, Next(s, Act(b, succeeds, listing)), a)
  {
  }

  lemma StepEvolves(s: State, step: Step, a: nat)
    requires Inv(s) && Enabled(s, step) && !step.Reboot? && (step.Act? ==> step.actor != a)
    ensures Evolves(s, Next(s, step), a)
  {
    if step.Act? {
      ActEvolves(s, step.actor, step.succeeds, step.listing, a);
    }
  }

  /** Another step does not disturb a call in progress, as long as its process survives. */
  lemma OthersKept(s: State, step: Step, a: nat)
    requires Inv(s) && Enabled(s, step) && a in s.actors && a in Next(s, step).actors
    requires step.Act? ==> step.actor != a
    ensures ActorOk(Next(s, step), a, Next(s, step).actors[a])
  {
    var actor := s.actors[a];
    var pc := actor.pc;
    assert ActorOk(s, a, actor);
    StepEvolves(s, step, a);
    StillAlive(s, step, a);
    if pc.Removing? && pc.verdict.ByClaim? {
      LapsedStays(s, step, pc.token, pc.verdict.claim);
    }
    ActorEvolves(s, Next(s, step), a, actor);
  }

  /** A call still in progress belongs to a process that is still alive, and is unchanged. */
  lemma StillAlive(s: State, step: Step, a: nat)
    requires Enabled(s, step) && a in s.actors && a in Next(s, step).actors && Alive(s, s.actors[a].process)
    requires step.Act? ==> step.actor != a
    ensures !step.Reboot? && Next(s, step).actors[a] == s.actors[a] && Alive(Next(s, step), s.actors[a].process)
  {
  }

  // ---------------------------------------------------------------- the acting call

  ghost predicate Continues(s: State, a: nat, succeeds: bool, listing: seq<Token>) {
    && Base(s) && ClaimsOk(s) && Enabled(s, Act(a, succeeds, listing)) && ActorOk(s, a, s.actors[a])
    && a in Next(s, Act(a, succeeds, listing)).actors
  }

  ghost predicate KeepsPromise(s: State, a: nat, succeeds: bool, listing: seq<Token>)
    requires Continues(s, a, succeeds, listing)
  {
    ActorOk(Next(s, Act(a, succeeds, listing)), a, Next(s, Act(a, succeeds, listing)).actors[a])
  }

  lemma CreatorKept(s: State, a: nat, succeeds: bool, listing: seq<Token>)
    requires Continues(s, a, succeeds, listing)
    requires s.actors[a].pc.Claiming? || s.actors[a].pc.Opening? || s.actors[a].pc.Writing?
    ensures KeepsPromise(s, a, succeeds, listing)
  {
  }

  /** A promise does not depend on where the calls stand. */
  lemma SamePromise(s: State, s': State, a: nat, actor: Actor)
    requires s' == s.(actors := s'.actors)
    ensures ActorOk(s', a, actor) <==> ActorOk(s, a, actor)
  {
  }

  lemma OnlyMoves(s: State, a: nat, succeeds: bool, listing: seq<Token>)
    requires Continues(s, a, succeeds, listing)
    requires var pc := s.actors[a].pc;
             pc.Visiting? || pc.Inspecting? || pc.CheckingMissing? || pc.CheckingOwner?
    ensures var s' := Next(s, Act(a, succeeds, listing));
            s' == s.(actors := s'.actors)
  {
  }

  lemma VisitorKept(s: State, a: nat, succeeds: bool, listing: seq<Token>)
    requires Continues(s, a, succeeds, listing) && s.actors[a].pc.Visiting?
    ensures KeepsPromise(s, a, succeeds, listing)
  {
    var s' := Next(s, Act(a, succeeds, listing));
    OnlyMoves(s, a, succeeds, listing);
    VisitorPromise(s, a, s.actors[a], succeeds, listing);
    SamePromise(s, s', a, s'.actors[a]);
  }

  lemma VisitorPromise(s: State, a: nat, actor: Actor, succeeds: bool, listing: seq<Token>)
    requires ActorOk(s, a, actor) && actor.pc.Visiting? && forall t :: t in listing ==> t in s.used
    ensures var e := ActEffect(s, actor.process, actor.pc, succeeds, listing);
            e.pc.Some? ==> ActorOk(s, a, actor.(pc := e.pc.value))
  {
  }

  lemma InspectorKept(s: State, a: nat, succeeds: bool, listing: seq<Token>)
    requires Continues(s, a, succeeds, listing)
    requires s.actors[a].pc.Inspecting? || s.actors[a].pc.CheckingMissing? || s.actors[a].pc.CheckingOwner?
    ensures KeepsPromise(s, a, succeeds, listing)
  {
    var s' := Next(s, Act(a, succeeds, listing));
    OnlyMoves(s, a, succeeds, listing);
    var pc := s.actors[a].pc;
    if pc.CheckingOwner? && !OwnerAlive(pc.claim, s.running) {
      OwnerGone(s, pc.token, pc.claim);
    }
    InspectorPromise(s, a, s.actors[a], succeeds, listing);
    SamePromise(s, s', a, s'.actors[a]);
  }

  lemma InspectorPromise(s: State, a: nat, actor: Actor, succeeds: bool, listing: seq<Token>)
    requires ActorOk(s, a, actor) && (actor.pc.Inspecting? || actor.pc.CheckingMissing? || actor.pc.CheckingOwner?)
    requires actor.pc.CheckingOwner? && !OwnerAlive(actor.pc.claim, s.running) ==>
               Lapsed(s, actor.pc.token, actor.pc.claim)
    requires forall t :: t in s.meta && s.meta[t].Complete? ==> t in s.written && s.written[t] == s.meta[t].claim
    ensures var e := ActEffect(s, actor.process, actor.pc, succeeds, listing);
            e.pc.Some? ==> ActorOk(s, a, actor.(pc := e.pc.value))
  {
  }

  lemma RemoverKept(s: State, a: nat, succeeds: bool, listing: seq<Token>)
    requires Continues(s, a, succeeds, listing)
    requires s.actors[a].pc.Releasing? || s.actors[a].pc.Dropping? || s.actors[a].pc.Removing?
             || s.actors[a].pc.Orphans? || s.actors[a].pc.OrphanDropping?
    ensures KeepsPromise(s, a, succeeds, listing)
  {
  }

  /** The next step of a call keeps its own promise. */
  lemma ActKept(s: State, a: nat, succeeds: bool, listing: seq<Token>)
    requires Continues(s, a, succeeds, listing)
    ensures KeepsPromise(s, a, succeeds, listing)
  {
    match s.actors[a].pc
    case Claiming(_) => CreatorKept(s, a, succeeds, listing);
    case Opening(_, _) => CreatorKept(s, a, succeeds, listing);
    case Writing(_, _) => CreatorKept(s, a, succeeds, listing);
    case Visiting(_) => VisitorKept(s, a, succeeds, listing);
    case Inspecting(_, _, _) => InspectorKept(s, a, succeeds, listing);
    case CheckingMissing(_, _) => InspectorKept(s, a, succeeds, listing);
    case CheckingOwner(_, _, _) => InspectorKept(s, a, succeeds, listing);
    case Releasing(_) => RemoverKept(s, a, succeeds, listing);
    case Dropping(_, _) => RemoverKept(s, a, succeeds, listing);
    case Removing(_, _, _) => RemoverKept(s, a, succeeds, listing);
    case Orphans(_) => RemoverKept(s, a, succeeds, listing);
    case OrphanDropping(_, _) => RemoverKept(s, a, succeeds, listing);
  }

  /** If the code finds no living owner, the process that created the file is gone. */
  lemma OwnerGone(s: State, t: Token, claim: Claim)
    requires Base(s) && ClaimsOk(s) && SeenOk(s, t, claim) && !OwnerAlive(claim, s.running)
    ensures Lapsed(s, t, claim)
  {
  }

  lemma NewActor(s: State, step: Step, a: nat)
    requires Inv(s) && Enabled(s, step) && a !in s.actors && a in Next(s, step).actors
    ensures ActorOk(Next(s, step), a, Next(s, step).actors[a])
  {
  }

  lemma NextInv(s: State, step: Step)
    requires Inv(s) && Enabled(s, step)
    ensures Inv(Next(s, step))
  {
    NextBase(s, step);
    NextClaims(s, step);
    forall a | a in Next(s, step).actors ensures ActorOk(Next(s, step), a, Next(s, step).actors[a]) {
      if a !in s.actors {
        NewActor(s, step, a);
      } else if step.Act? && step.actor == a {
        ActKept(s, a, step.succeeds, step.listing);
      } else {
        OthersKept(s, step, a);
      }
    }
  }

  lemma {:induction false} RunInv(s: State, run: seq<Step>)
    requires Init(s) && IsRun(s, run)
    ensures Inv(After(s, run))
  {
    if run != [] {
      RunInv(s, run[..|run| - 1]);
      NextInv(After(s, run[..|run| - 1]), run[|run| - 1]);
    }
  }

  // ---------------------------------------------------------------- what no interleaving can do

  /** The step unlinks the audio file `t` on behalf of a sweep. */
  predicate SweepTakes(s: State, step: Step, t: Token) {
    && step.Act? && step.actor in s.actors && step.succeeds
    && s.actors[step.actor].pc.Removing? && s.actors[step.actor].pc.token == t
  }

  /** A removal decided on a complete claim never takes a protected file. */
  lemma ClaimedFilesAreSafe(s: State, step: Step, t: Token)
    requires Inv(s) && Enabled(s, step) && SweepTakes(s, step, t)
    requires s.actors[step.actor].pc.verdict.ByClaim?
    ensures !Protected(s, t)
  {
    assert ActorOk(s, step.actor, s.actors[step.actor]);
  }

  /** In this step the call `a` looks at `t` and finds no complete claim, or cannot read it or the process table. */
  predicate LooksTooEarly(s: State, step: Step, a: nat, t: Token) {
    && step.Act? && step.actor == a && a in s.actors
    && var pc := s.actors[a].pc;
       || (pc.Inspecting? && pc.token == t && !(step.succeeds && t in s.meta && s.meta[t].Complete?))
       || (pc.CheckingMissing? && pc.token == t && t !in s.meta)
       || (pc.CheckingOwner? && pc.token == t && !step.succeeds)
  }

  ghost predicate LookedTooEarly(s: State, run: seq<Step>, k: nat, a: nat, t: Token)
    requires IsRun(s, run) && k < |run|
  {
    IsRun(s, run[..k]) && LooksTooEarly(After(s, run[..k]), run[k], a, t)
  }

  predicate RemovesUnclaimed(s: State, a: nat) {
    && a in s.actors && s.actors[a].pc.Removing?
    && (s.actors[a].pc.verdict.WithoutClaim? || s.actors[a].pc.verdict.OwnerUnreadable?)
  }

  /** The decision to remove without a claim is taken in the step that looks, and then kept. */
  lemma DecisionStep(s: State, step: Step, a: nat)
    requires Enabled(s, step) && RemovesUnclaimed(Next(s, step), a)
    ensures var actor := Next(s, step).actors[a];
            (LooksTooEarly(s, step, a, actor.pc.token) && SameSweep(s, a, actor))
              || (RemovesUnclaimed(s, a) && s.actors[a] == actor)
  {
    if step.Act? && step.actor == a {
      ActDecides(s, a, step.succeeds, step.listing);
    }
  }

  lemma ActDecides(s: State, a: nat, succeeds: bool, listing: seq<Token>)
    requires Enabled(s, Act(a, succeeds, listing))
    requires var e := ActEffect(s, s.actors[a].process, s.actors[a].pc, succeeds, listing);
             e.pc.Some? && e.pc.value.Removing?
               && (e.pc.value.verdict.WithoutClaim? || e.pc.value.verdict.OwnerUnreadable?)
    ensures var e := ActEffect(s, s.actors[a].process, s.actors[a].pc, succeeds, listing);
            && LooksTooEarly(s, Act(a, succeeds, listing), a, e.pc.value.token)
            && SameSweep(s, a, s.actors[a].(pc := e.pc.value))
  {
  }

  lemma {:induction false} RunPrefix(s: State, run: seq<Step>, k: nat)
    requires IsRun(s, run) && k <= |run|
    ensures IsRun(s, run[..k])
  {
    if k < |run| {
      RunPrefix(s, run[..|run| - 1], k);
      assert run[..|run| - 1][..k] == run[..k];
    } else {
      assert run[..k] == run;
    }
  }

  /**
   The step at k is the look that decided, and from the state after it to the end of the run the
   call stands at the removal it decided on: it is one call of one sweep throughout.
   */
  ghost predicate DecidedAt(s: State, run: seq<Step>, k: nat, a: nat, actor: Actor)
    requires IsRun(s, run) && k < |run| && actor.pc.Removing?
    decreases |run|
  {
    var front := run[..|run| - 1];
    && a in After(s, run).actors && After(s, run).actors[a] == actor
    && if k == |front| then LooksTooEarly(After(s, front), run[k], a, actor.pc.token)
       && SameSweep(After(s, front), a, actor)
       else DecidedAt(s, front, k, a, actor)
  }

  /** The look belongs to the sweep that removes. */
  predicate SameSweep(s: State, a: nat, actor: Actor) {
    && actor.pc.Removing? && a in s.actors && s.actors[a].process == actor.process
    && match s.actors[a].pc
       case Inspecting(w, _, _) => w == actor.pc.sweep
       case CheckingMissing(w, _) => w == actor.pc.sweep
       case CheckingOwner(w, _, _) => w == actor.pc.sweep
       case _ => false
  }

  /** The same, state by state. */
  lemma {:induction false} DecidedThroughout(s: State, run: seq<Step>, k: nat, a: nat, actor: Actor, j: nat)
    requires IsRun(s, run) && k < |run| && actor.pc.Removing? && DecidedAt(s, run, k, a, actor) && k < j <= |run|
    ensures IsRun(s, run[..j]) && a in After(s, run[..j]).actors && After(s, run[..j]).actors[a] == actor
    ensures LookedTooEarly(s, run, k, a, actor.pc.token) && SameSweep(After(s, run[..k]), a, actor)
  {
    var front := run[..|run| - 1];
    RunPrefix(s, run, j);
    assert run[..|run|] == run;
    if k < |front| {
      DecidedThroughout(s, front, k, a, actor, if j <= |front| then j else |front|);
      assert front[..k] == run[..k] && (j <= |front| ==> front[..j] == run[..j]);
    } else {
      assert run[..k] == front;
    }
  }

  /**
   A call about to remove without a claim looked at the file and saw no complete claim or no owner,
   and has stood there since.
   */
  lemma {:induction false} WhyRemoving(s: State, run: seq<Step>, a: nat) returns (k: nat)
    requires Init(s) && IsRun(s, run) && RemovesUnclaimed(After(s, run), a)
    ensures k < |run| && DecidedAt(s, run, k, a, After(s, run).actors[a])
  {
    var front, last := run[..|run| - 1], run[|run| - 1];
    var actor := After(s, run).actors[a];
    DecisionStep(After(s, front), last, a);
    if LooksTooEarly(After(s, front), last, a, actor.pc.token) && SameSweep(After(s, front), a, actor) {
      k := |front|;
    } else {
      k := WhyRemoving(s, front, a);
    }
  }

  /**
   In every interleaving of creations, releases and sweeps, with time passing, owners dying, PIDs
   reused and reboots: if a sweep that is not a purge unlinks a file of this boot that is unexpired
   and whose owner is alive, then this very sweep looked at the file before its claim was complete,
   or could not read the claim or the process table, and has been about to remove it ever since.
   */
  lemma SweepNeverTakesLiveFile(s: State, run: seq<Step>, step: Step, t: Token) returns (k: nat)
    requires Init(s) && IsRun(s, run) && Enabled(After(s, run), step)
    requires SweepTakes(After(s, run), step, t) && !After(s, run).actors[step.actor].pc.verdict.Purging?
    requires Protected(After(s, run), t)
    ensures k < |run| && LookedTooEarly(s, run, k, step.actor, t)
    ensures SameSweep(After(s, run[..k]), step.actor, After(s, run).actors[step.actor])
    ensures forall j :: k < j <= |run| ==>
      IsRun(s, run[..j]) && step.actor in After(s, run[..j]).actors
        && After(s, run[..j]).actors[step.actor] == After(s, run).actors[step.actor]
  {
    RunInv(s, run);
    if After(s, run).actors[step.actor].pc.verdict.ByClaim? {
      ClaimedFilesAreSafe(After(s, run), step, t);
      assert false;
    }
    k := WhyRemoving(s, run, step.actor);
    var actor := After(s, run).actors[step.actor];
    DecidedThroughout(s, run, k, step.actor, actor, |run|);
    forall j | k < j <= |run|
      ensures IsRun(s, run[..j]) && step.actor in After(s, run[..j]).actors
      ensures After(s, run[..j]).actors[step.actor] == actor
    {
      DecidedThroughout(s, run, k, step.actor, actor, j);
    }
  }

  lemma ClaimStep(s: State, step: Step, t: Token)
    requires Enabled(s, step) && (step.Act? ==> ActorOk(s, step.actor, s.actors[step.actor]))
    requires t in s.meta && t !in Next(s, step).meta
    ensures t !in s.audio
  {
  }

  /** No step of any call, sweep, orphan pass or release, removes the claim of a file that exists. */
  lemma ClaimNeverOutlivedByAudio(s: State, run: seq<Step>, step: Step, t: Token)
    requires Init(s) && IsRun(s, run) && Enabled(After(s, run), step)
    requires t in After(s, run).meta && t !in Next(After(s, run), step).meta
    ensures t !in After(s, run).audio
  {
    RunInv(s, run);
    ClaimStep(After(s, run), step, t);
  }

  lemma NameStep(s: State, step: Step, t: Token)
    requires Enabled(s, step) && t in s.used && t !in s.audio
    ensures t !in Next(s, step).audio && t in Next(s, step).used
  {
  }

  /** A file that is gone stays gone: its name is never given to another. */
  lemma {:induction false} NamesAreNotReused(s: State, run: seq<Step>, t: Token)
    requires IsRun(s, run) && t in s.used && t !in s.audio
    ensures t !in After(s, run).audio && t in After(s, run).used
  {
    if run != [] {
      NamesAreNotReused(s, run[..|run| - 1], t);
      NameStep(After(s, run[..|run| - 1]), run[|run| - 1], t);
    }
  }
}

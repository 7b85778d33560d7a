/**
 When a sweep does take a file that should be safe: exactly from which states, by which continuation,
 and by a process table that cannot be read.
 */
module TempAudioWindows {
  import opened Common
  import opened TempAudioProtocol

  // ---------------------------------------------------------------- the creator's own slot

  /** A creator that has not made its claim file yet finds none, and one that has finds it while its file exists. */
  predicate SlotOk(audio: map<Token, Audio>, meta: map<Token, Meta>, pc: Pc) {
    match pc
    case Claiming(t) => t !in meta
    case Opening(t, c) => t !in meta && c.Claim? && c.expiresAt.Some?
    case Writing(t, c) => (t in audio ==> t in meta) && c.Claim? && c.expiresAt.Some?
    case _ => true
  }

  ghost predicate Slots(s: State) {
    forall a :: a in s.actors ==> SlotOk(s.audio, s.meta, s.actors[a].pc)
  }

  predicate Creating(pc: Pc) {
    pc.Claiming? || pc.Opening? || pc.Writing?
  }

  /** Two calls never create one file. */
  lemma OneCreator(s: State, a: nat, b: nat)
    requires Inv(s) && a in s.actors && b in s.actors && Creating(s.actors[a].pc) && Creating(s.actors[b].pc)
    requires s.actors[a].pc.token == s.actors[b].pc.token
    ensures a == b
  {
    assert ActorOk(s, a, s.actors[a]) && ActorOk(s, b, s.actors[b]);
  }

  lemma OwnSlot(s: State, process: ProcessId, pc: Pc, succeeds: bool, listing: seq<Token>)
    requires SlotOk(s.audio, s.meta, pc)
    ensures var e := ActEffect(s, process, pc, succeeds, listing);
            e.pc.Some? ==> SlotOk(e.audio, e.meta, e.pc.value)
  {
  }

  lemma OtherSlot(s: State, process: ProcessId, pc: Pc, succeeds: bool, listing: seq<Token>, other: Pc)
    requires SlotOk(s.audio, s.meta, other)
    requires pc.Dropping? || pc.OrphanDropping? ==> pc.token !in s.audio
    requires Creating(pc) && Creating(other) ==> pc.token != other.token
    ensures var e := ActEffect(s, process, pc, succeeds, listing);
            SlotOk(e.audio, e.meta, other)
  {
  }

  lemma ActSlot(s: State, b: nat, succeeds: bool, listing: seq<Token>, a: nat)
    requires Inv(s) && Slots(s) && Enabled(s, Act(b, succeeds, listing))
    requires a in Next(s, Act(b, succeeds, listing)).actors
    ensures var s' := Next(s, Act(b, succeeds, listing));
            SlotOk(s'.audio, s'.meta, s'.actors[a].pc)
  {
    var actor := s.actors[b];
    assert ActorOk(s, b, actor);
    if a == b {
      OwnSlot(s, actor.process, actor.pc, succeeds, listing);
    } else {
      if Creating(s.actors[a].pc) && Creating(actor.pc) && s.actors[a].pc.token == actor.pc.token {
        OneCreator(s, a, b);
      }
      OtherSlot(s, actor.process, actor.pc, succeeds, listing, s.actors[a].pc);
    }
  }

  lemma StepSlot(s: State, step: Step, a: nat)
    requires Inv(s) && Slots(s) && Enabled(s, step) && !step.Act? && a in Next(s, step).actors
    ensures var s' := Next(s, step);
            SlotOk(s'.audio, s'.meta, s'.actors[a].pc)
  {
    if a in s.actors {
      assert ActorOk(s, a, s.actors[a]);
    }
  }

  lemma NextSlots(s: State, step: Step)
    requires Inv(s) && Slots(s) && Enabled(s, step)
    ensures Slots(Next(s, step))
  {
    var s' := Next(s, step);
    forall a | a in s'.actors ensures SlotOk(s'.audio, s'.meta, s'.actors[a].pc) {
      if step.Act? {
        ActSlot(s, step.actor, step.succeeds, step.listing, a);
      } else {
        StepSlot(s, step, a);
      }
    }
  }

  lemma {:induction false} RunSlots(s: State, run: seq<Step>)
    requires Init(s) && IsRun(s, run)
    ensures Inv(After(s, run)) && Slots(After(s, run))
  {
    RunInv(s, run);
    if run != [] {
      RunSlots(s, run[..|run| - 1]);
      NextSlots(After(s, run[..|run| - 1]), run[|run| - 1]);
    }
  }

  // ---------------------------------------------------------------- files a decided removal can still hurt

  /** The call is on the way to a claim for `t` that will be unexpired. */
  predicate OnTheWay(s: State, pc: Pc, t: Token) {
    match pc
    case Claiming(t') => t' == t && s.ttl > 0
    case Opening(t', c) => t' == t && c.Claim? && c.expiresAt.Some? && s.clock < c.expiresAt.value
    case Writing(t', c) => t' == t && c.Claim? && c.expiresAt.Some? && s.clock < c.expiresAt.value
    case _ => false
  }

  predicate Creates(s: State, b: nat, t: Token) {
    b in s.actors && OnTheWay(s, s.actors[b].pc, t)
  }

  /** The file exists, its creator lives, and its unexpired claim is complete or on the way. */
  ghost predicate Endangered(s: State, t: Token) {
    && t in s.audio && t in s.owners && Alive(s, s.owners[t].process)
    && (Protected(s, t) || exists b :: Creates(s, b, t))
  }

  lemma ActProtects(s: State, b: nat, succeeds: bool, listing: seq<Token>, t: Token)
    requires Inv(s) && Slots(s) && Enabled(s, Act(b, succeeds, listing))
    requires Protected(Next(s, Act(b, succeeds, listing)), t)
    ensures Protected(s, t) || Creates(s, b, t)
  {
    assert SlotOk(s.audio, s.meta, s.actors[b].pc) && ActorOk(s, b, s.actors[b]);
  }

  lemma StepProtects(s: State, step: Step, t: Token)
    requires Inv(s) && Slots(s) && Enabled(s, step) && !step.Act? && Protected(Next(s, step), t) && t in s.used
    ensures Protected(s, t)
  {
    if t in s.owners && !Alive(s, s.owners[t].process) {
      DeadStaysDead(s, step, s.owners[t].process);
    }
  }

  /** Where a call that is creating `t` came from. */
  lemma EffectCreates(s: State, process: ProcessId, pc: Pc, succeeds: bool, listing: seq<Token>, t: Token)
    ensures var e := ActEffect(s, process, pc, succeeds, listing);
            e.pc.Some? && OnTheWay(s, e.pc.value, t) ==> OnTheWay(s, pc, t)
  {
  }

  lemma StepCreates(s: State, step: Step, b: nat, t: Token)
    requires Enabled(s, step) && t in s.used && Creates(Next(s, step), b, t)
    ensures Creates(s, b, t)
  {
    if step.Act? && step.actor == b {
      EffectCreates(s, s.actors[b].process, s.actors[b].pc, step.succeeds, step.listing, t);
    }
  }

  /** What is not endangered never is. */
  lemma SafeStep(s: State, step: Step, t: Token)
    requires Inv(s) && Slots(s) && Enabled(s, step) && t in s.used && !Endangered(s, t)
    ensures !Endangered(Next(s, step), t) && t in Next(s, step).used
  {
    var s' := Next(s, step);
    if Endangered(s', t) {
      if t !in s.audio { NameStep(s, step, t); }
      assert t in s.owners && s'.owners[t] == s.owners[t];
      if !Alive(s, s.owners[t].process) { DeadStaysDead(s, step, s.owners[t].process); }
      if Protected(s', t) {
        if step.Act? { ActProtects(s, step.actor, step.succeeds, step.listing, t); } else { StepProtects(s, step, t); }
      } else {
        var b :| Creates(s', b, t);
        StepCreates(s, step, b, t);
      }
    }
  }

  lemma {:induction false} SafeForever(s: State, run: seq<Step>, t: Token)
    requires Inv(s) && Slots(s) && IsRun(s, run) && t in s.used && !Endangered(s, t)
    ensures Inv(After(s, run)) && Slots(After(s, run)) && t in After(s, run).used && !Endangered(After(s, run), t)
  {
    if run != [] {
      var front := run[..|run| - 1];
      SafeForever(s, front, t);
      NextInv(After(s, front), run[|run| - 1]);
      NextSlots(After(s, front), run[|run| - 1]);
      SafeStep(After(s, front), run[|run| - 1], t);
    }
  }

  // ---------------------------------------------------------------- the continuation that takes it

  /** The creator's next step leaves it closer to its claim, or with it. */
  lemma CreatorAdvances(s: State, b: nat, t: Token)
    requires Inv(s) && Slots(s) && t in s.audio && Creates(s, b, t)
    ensures Enabled(s, Act(b, true, []))
    ensures var s' := Next(s, Act(b, true, []));
            && s'.audio == s.audio
            && (forall o :: o != b && o in s.actors ==> o in s'.actors && s'.actors[o] == s.actors[o])
            && if s.actors[b].pc.Writing? then Protected(s', t)
               else Creates(s', b, t) && Stage(s'.actors[b].pc) < Stage(s.actors[b].pc)
  {
    assert SlotOk(s.audio, s.meta, s.actors[b].pc) && ActorOk(s, b, s.actors[b]);
  }

  /** How many steps the claim still takes. */
  function Stage(pc: Pc): nat {
    if pc.Claiming? then 3 else if pc.Opening? then 2 else if pc.Writing? then 1 else 0
  }

  lemma {:induction false} RunOn(s: State, step: Step, rest: seq<Step>)
    requires Enabled(s, step) && IsRun(Next(s, step), rest)
    ensures IsRun(s, [step] + rest) && After(s, [step] + rest) == After(Next(s, step), rest)
  {
    if rest == [] {
      Extend(s, [], step);
      assert [] + [step] == [step] + rest;
    } else {
      var front, last := rest[..|rest| - 1], rest[|rest| - 1];
      RunOn(s, step, front);
      Extend(s, [step] + front, last);
      assert [step] + front + [last] == [step] + rest;
    }
  }

  lemma {:induction false} ClaimFollows(s: State, b: nat, t: Token, a: nat) returns (run: seq<Step>)
    requires Inv(s) && Slots(s) && t in s.audio && Creates(s, b, t) && a in s.actors && a != b
    ensures IsRun(s, run) && Protected(After(s, run), t)
    ensures a in After(s, run).actors && After(s, run).actors[a] == s.actors[a]
    decreases Stage(s.actors[b].pc)
  {
    CreatorAdvances(s, b, t);
    var step := Act(b, true, []);
    NextInv(s, step);
    NextSlots(s, step);
    var rest: seq<Step> := [];
    if !s.actors[b].pc.Writing? {
      rest := ClaimFollows(Next(s, step), b, t, a);
    }
    run := [step] + rest;
    RunOn(s, step, rest);
  }

  /** After the run the call still stands at its removal, and the file it is about to unlink is protected. */
  ghost predicate TakesProtected(s: State, run: seq<Step>, a: nat, t: Token) {
    && IsRun(s, run) && a in s.actors && a in After(s, run).actors && After(s, run).actors[a] == s.actors[a]
    && Protected(After(s, run), t)
    && Enabled(After(s, run), Act(a, true, [])) && SweepTakes(After(s, run), Act(a, true, []), t)
  }

  lemma RemovalHurtsIff(s: State, a: nat)
    requires Inv(s) && Slots(s) && a in s.actors && s.actors[a].pc.Removing?
    ensures (exists run :: TakesProtected(s, run, a, s.actors[a].pc.token)) <==> Endangered(s, s.actors[a].pc.token)
  {
    var t := s.actors[a].pc.token;
    assert ActorOk(s, a, s.actors[a]);
    if Endangered(s, t) {
      var run := EndangeredIsTaken(s, a);
      assert TakesProtected(s, run, a, t);
    } else if exists run :: TakesProtected(s, run, a, t) {
      var run :| TakesProtected(s, run, a, t);
      SafeForever(s, run, t);
    }
  }

  lemma EndangeredIsTaken(s: State, a: nat) returns (run: seq<Step>)
    requires Inv(s) && Slots(s) && a in s.actors && s.actors[a].pc.Removing? && Endangered(s, s.actors[a].pc.token)
    ensures TakesProtected(s, run, a, s.actors[a].pc.token)
  {
    var t := s.actors[a].pc.token;
    if Protected(s, t) {
      run := [];
    } else {
      var b :| Creates(s, b, t);
      run := ClaimFollows(s, b, t, a);
    }
  }

  /**
   From any reachable state in which a sweep has decided to remove a file, some continuation lets it
   take the file while it is protected exactly when the file exists, its creator lives, and its
   unexpired claim is complete or on the way. Otherwise no continuation ever does.
   */
  lemma DecidedRemovalHurtsIff(start: State, run: seq<Step>, a: nat)
    requires Init(start) && IsRun(start, run)
    requires a in After(start, run).actors && After(start, run).actors[a].pc.Removing?
    ensures var s := After(start, run);
            var t := s.actors[a].pc.token;
            (exists more :: TakesProtected(s, more, a, t)) <==> Endangered(s, t)
  {
    RunSlots(start, run);
    RemovalHurtsIff(After(start, run), a);
  }

  // ---------------------------------------------------------------- an unreadable process table

  /** A file that a caller created is a regular file. */
  ghost predicate OwnedRegular(s: State) {
    forall t :: t in s.owners && t in s.audio ==> s.audio[t].regular
  }

  /** A call only takes files away. */
  lemma EffectOnlyRemoves(s: State, process: ProcessId, pc: Pc, succeeds: bool, listing: seq<Token>, t: Token)
    ensures var e := ActEffect(s, process, pc, succeeds, listing);
            t in e.audio ==> t in s.audio && e.audio[t] == s.audio[t]
  {
  }

  lemma NextRegular(s: State, step: Step, t: Token)
    requires Base(s) && OwnedRegular(s) && Enabled(s, step)
    ensures var s' := Next(s, step);
            t in s'.owners && t in s'.audio ==> s'.audio[t].regular
  {
    if step.Act? {
      var actor := s.actors[step.actor];
      EffectOnlyRemoves(s, actor.process, actor.pc, step.succeeds, step.listing, t);
    }
  }

  lemma {:induction false} RunRegular(s: State, run: seq<Step>)
    requires Init(s) && IsRun(s, run)
    ensures OwnedRegular(After(s, run))
  {
    if run != [] {
      RunInv(s, run[..|run| - 1]);
      RunRegular(s, run[..|run| - 1]);
      var last := After(s, run);
      forall t | t in last.owners && t in last.audio ensures last.audio[t].regular {
        NextRegular(After(s, run[..|run| - 1]), run[|run| - 1], t);
      }
    }
  }

  /**
   From every reachable state with a protected file: a process that starts a sweep and cannot read
   the process table takes the file, and nothing else needs to happen.
   */
  lemma UnreadableTableTakes(start: State, before: seq<Step>, a: nat, p: ProcessId, t: Token) returns (run: seq<Step>)
    requires Init(start) && IsRun(start, before)
    requires var s := After(start, before);
             Protected(s, t) && Alive(s, p) && a !in s.actors
    ensures IsRun(After(start, before), run)
    ensures var last := After(After(start, before), run);
            && Protected(last, t) && Enabled(last, Act(a, true, [])) && SweepTakes(last, Act(a, true, []), t)
            && last.actors[a].pc.verdict.OwnerUnreadable?
  {
    var s := After(start, before);
    RunInv(start, before);
    RunRegular(start, before);
    run := SweepVisits(s, a, p, t);
    run := TableFails(s, run, a, p, t);
  }

  /** The same area with the call `a` of process `p` standing at `pc`. */
  function Standing(s: State, a: nat, p: ProcessId, pc: Pc): State {
    s.(actors := s.actors[a := Actor(p, pc)])
  }

  lemma StandingMoves(s: State, a: nat, p: ProcessId, pc: Pc, succeeds: bool, next: Pc)
    requires ActEffect(s, p, pc, succeeds, []) == Effect(s.audio, s.meta, Some(next)) && !pc.Writing?
    ensures var step := Act(a, succeeds, []);
            Enabled(Standing(s, a, p, pc), step) && Next(Standing(s, a, p, pc), step) == Standing(s, a, p, next)
  {
    assert ActEffect(Standing(s, a, p, pc), p, pc, succeeds, []) == ActEffect(s, p, pc, succeeds, []);
    assert s.actors[a := Actor(p, pc)][a := Actor(p, next)] == s.actors[a := Actor(p, next)];
  }

  lemma Moves(
    s: State, before: seq<Step>, a: nat, p: ProcessId, pc: Pc, succeeds: bool, next: Pc) returns (run: seq<Step>)
    requires IsRun(s, before) && After(s, before) == Standing(s, a, p, pc)
    requires ActEffect(s, p, pc, succeeds, []) == Effect(s.audio, s.meta, Some(next)) && !pc.Writing?
    ensures IsRun(s, run) && After(s, run) == Standing(s, a, p, next)
  {
    var step := Act(a, succeeds, []);
    StandingMoves(s, a, p, pc, succeeds, next);
    Extend(s, before, step);
    run := before + [step];
  }

  /** A sweep of one regular file that has just read its age. */
  function Looking(s: State, t: Token): Pc
    requires t in s.audio
  {
    Inspecting(Sweep(s.clock, s.boot, false, []), t, s.audio[t].mtime)
  }

  lemma SweepVisits(s: State, a: nat, p: ProcessId, t: Token) returns (run: seq<Step>)
    requires t in s.audio && s.audio[t].regular && t in s.used && Alive(s, p) && a !in s.actors
    ensures IsRun(s, run) && After(s, run) == Standing(s, a, p, Looking(s, t))
  {
    var listing: seq<Token> := [t];
    Extend(s, [], StartSweep(a, p, false, listing));
    run := [] + [StartSweep(a, p, false, listing)];
    assert listing[1..] == [];
    run := Moves(s, run, a, p, Visiting(Sweep(s.clock, s.boot, false, listing)), true, Looking(s, t));
  }

  lemma TableFails(s: State, before: seq<Step>, a: nat, p: ProcessId, t: Token) returns (run: seq<Step>)
    requires Protected(s, t) && IsRun(s, before) && After(s, before) == Standing(s, a, p, Looking(s, t))
    ensures IsRun(s, run)
    ensures After(s, run) == Standing(s, a, p, Removing(Sweep(s.clock, s.boot, false, []), t, OwnerUnreadable))
  {
    var w := Sweep(s.clock, s.boot, false, []);
    var asking := CheckingOwner(w, t, s.meta[t].claim);
    run := Moves(s, before, a, p, Looking(s, t), true, asking);
    run := Moves(s, run, a, p, asking, false, Removing(w, t, OwnerUnreadable));
  }

  // ---------------------------------------------------------------- one run through the window

  lemma Extend(s: State, run: seq<Step>, step: Step)
    requires IsRun(s, run) && Enabled(After(s, run), step)
    ensures IsRun(s, run + [step]) && After(s, run + [step]) == Next(After(s, run), step)
  {
    assert (run + [step])[..|run|] == run;
  }

  const CREATOR := ProcessId(0, 1, 5)

  const SWEEPER := ProcessId(0, 2, 7)

  /** An empty area and two live processes. */
  const FRESH_AREA := State(3600, 0, 0, map[1 := 5, 2 := 7], map[], map[], map[], {0}, {CREATOR, SWEEPER}, {}, map[],
    map[])

  const NO_CLAIM_SEEN := Actor(SWEEPER, Removing(Sweep(0, 0, false, []), 7, WithoutClaim))

  /** The creator has made its file, and a sweep has already decided to remove it. */
  const DECIDED := FRESH_AREA.(
    audio := map[7 := Audio(true, 0)], used := {7}, owners := map[7 := Owner(CREATOR, 1)],
    actors := map[1 := Actor(CREATOR, Claiming(7)), 2 := NO_CLAIM_SEEN])

  lemma SweepDecides() returns (run: seq<Step>)
    ensures IsRun(FRESH_AREA, run) && After(FRESH_AREA, run) == DECIDED
  {
    var s := FRESH_AREA;
    run := [];
    Extend(s, run, CreateAudio(1, CREATOR, 7));
    run := run + [CreateAudio(1, CREATOR, 7)];
    Extend(s, run, StartSweep(2, SWEEPER, false, [7]));
    run := run + [StartSweep(2, SWEEPER, false, [7])];
    var listing: seq<Token> := [7];
    assert After(s, run).actors[2] == Actor(SWEEPER, Visiting(Sweep(0, 0, false, listing)));
    assert listing[1..] == [];
    Extend(s, run, Act(2, true, []));
    run := run + [Act(2, true, [])];
    assert After(s, run).actors[2] == Actor(SWEEPER, Inspecting(Sweep(0, 0, false, []), 7, 0));
    Extend(s, run, Act(2, true, []));
    run := run + [Act(2, true, [])];
    Extend(s, run, Act(2, true, []));
    run := run + [Act(2, true, [])];
  }

  const FULL_CLAIM := Claim(Some(1), Ticks(5), Some(0), Some(3600))

  /** The creator completes its claim after the sweep has decided. */
  lemma ClaimCompletes(before: seq<Step>) returns (run: seq<Step>)
    requires IsRun(FRESH_AREA, before) && After(FRESH_AREA, before) == DECIDED
    ensures IsRun(FRESH_AREA, run)
    ensures var s := After(FRESH_AREA, run);
            s == DECIDED.(meta := map[7 := Complete(FULL_CLAIM)], written := map[7 := FULL_CLAIM], actors :=
              map[2 := NO_CLAIM_SEEN])
  {
    var s := FRESH_AREA;
    run := before;
    Extend(s, run, Act(1, true, []));
    run := run + [Act(1, true, [])];
    assert After(s, run).actors[1] == Actor(CREATOR, Opening(7, FULL_CLAIM));
    Extend(s, run, Act(1, true, []));
    run := run + [Act(1, true, [])];
    Extend(s, run, Act(1, true, []));
    run := run + [Act(1, true, [])];
  }

  /**
   The exception is real: a sweep that looked between the creation of a file and its claim removes
   it after the claim is complete, unexpired and held by a living owner.
   */
  lemma WindowIsReal() returns (run: seq<Step>)
    ensures Init(FRESH_AREA) && IsRun(FRESH_AREA, run)
    ensures var s := After(FRESH_AREA, run);
            Protected(s, 7) && Enabled(s, Act(2, true, [])) && SweepTakes(s, Act(2, true, []), 7)
            && !s.actors[2].pc.verdict.Purging?
  {
    run := SweepDecides();
    run := ClaimCompletes(run);
  }
}

/**
 * Concrete plans of the game's domain, computed by the reference loop and
 * by the planner object: the default plan of the first melee adventurer,
 * a replan that reuses the previous call's checkpoints, a backtrack that
 * keeps an accepted task, and the sharing of a plan's task list.
 */
module Scenarios {
  import opened WorldFacts
  import opened Closures
  import opened WorldStates
  import opened Tasks
  import opened Plans
  import opened Domain
  import opened Planning

  /** The three primitive tasks of SeekChest's first method, as pushed. */
  const SeekChestBlock: seq<PrimitiveTask> := [GoToCornerTask, PickUpChestTask, GoToChestTask]

  /**
   * From the default state, adventurer 0 with root BeMeleeAdventurer plans
   * Go to Chest, Pick Up Chest, Go to Corner in five iterations: two
   * decompositions, each recording one checkpoint, and three accepted
   * tasks, with no backtrack. The simulated world ends with the game won.
   */
  lemma {:induction false} DefaultMeleePlan(l: TaskList, contents: map<TaskList, seq<PrimitiveTask>>, fuel: nat)
    requires fuel >= 5
    ensures var r := Run(Config([BeMeleeAdventurer], [], DefaultSnapshot(), l, contents[l := []]), fuel, 0);
      && r.stack == [] && r.plan == l
      && r.contents == contents[l := [GoToChestTask, PickUpChestTask, GoToCornerTask]]
      && r.history == [Checkpoint([], l, BeMeleeAdventurer.methods[0], BeMeleeAdventurer),
                       Checkpoint([], l, SeekChest.methods[0], SeekChest)]
      && r.world.adventurersWin && r.world.adventurersHaveChest[0]
  {
    var c0 := Config([BeMeleeAdventurer], [], DefaultSnapshot(), l, contents[l := []]);
    var c2 := MeleeDecomposes(l, contents);
    MeleeBlockRuns(c2, l, contents);
    RunFinishedIsStable(c0, 5, fuel, 0);
  }

  /** The last three iterations accept SeekChest's block, last-listed task first. */
  lemma MeleeBlockRuns(c2: Config, l: TaskList, contents: map<TaskList, seq<PrimitiveTask>>)
    requires c2 == Config(SeekChestBlock,
                          [Checkpoint([], l, BeMeleeAdventurer.methods[0], BeMeleeAdventurer),
                           Checkpoint([], l, SeekChest.methods[0], SeekChest)],
                          DefaultSnapshot(), l, contents[l := []])
    ensures var r := Run(c2, 3, 0);
      && r.stack == [] && r.plan == l && r.history == c2.history
      && r.contents == contents[l := [GoToChestTask, PickUpChestTask, GoToCornerTask]]
      && r.world.adventurersWin && r.world.adventurersHaveChest[0]
  {
    SeekChestBlockFromDefault();
    assert c2.stack == [] + SeekChestBlock;
    PrimitiveBlockRunsLastFirst(c2, [], SeekChestBlock, 0);
    var accepted := CopyStack(SeekChestBlock);
    assert [] + accepted == accepted;
    assert contents[l := []][l := accepted] == contents[l := accepted];
  }

  /** The first two iterations from the default state: BeMeleeAdventurer, then SeekChest, are decomposed. */
  lemma MeleeDecomposes(l: TaskList, contents: map<TaskList, seq<PrimitiveTask>>) returns (c2: Config)
    ensures var c0 := Config([BeMeleeAdventurer], [], DefaultSnapshot(), l, contents[l := []]);
      && c2 == Config(SeekChestBlock,
                      [Checkpoint([], l, BeMeleeAdventurer.methods[0], BeMeleeAdventurer),
                       Checkpoint([], l, SeekChest.methods[0], SeekChest)],
                      DefaultSnapshot(), l, contents[l := []])
      && Run(c0, 5, 0) == Run(c2, 3, 0)
  {
    var s := DefaultSnapshot();
    var c0 := Config([BeMeleeAdventurer], [], s, l, contents[l := []]);
    DecompositionStep(c0, 0, BeMeleeAdventurer.methods[0]);
    var c1 := Step(c0, 0);
    assert c1.stack == [SeekChest];
    TwoWayTasksAlwaysDecompose(s, 0);
    DecompositionStep(c1, 0, SeekChest.methods[0]);
    c2 := Step(c1, 0);
    RunTakesStep(c0, 5, 0);
    RunTakesStep(c1, 4, 0);
  }

  /** The reversed copy of a three-element stack, top first. */
  lemma CopyStackOfThree<T>(a: T, b: T, c: T)
    ensures CopyStack([a, b, c]) == [c, b, a]
  {
    assert [a, b, c][..2] == [a, b];
    assert [a, b][..1] == [a];
    assert [a][..0] == [];
    assert CopyStack([a]) == [a] + CopyStack([]);
    assert CopyStack([a, b]) == [b] + CopyStack([a]);
    assert CopyStack([a, b, c]) == [c] + CopyStack([a, b]);
  }

  /** SeekChest's block runs from the default state for adventurer 0, taking the chest to the corner. */
  lemma SeekChestBlockFromDefault()
    ensures CopyStack(SeekChestBlock) == [GoToChestTask, PickUpChestTask, GoToCornerTask]
    ensures Consistent(DefaultSnapshot(), [GoToChestTask, PickUpChestTask, GoToCornerTask], 0)
    ensures var r := Simulate(DefaultSnapshot(), [GoToChestTask, PickUpChestTask, GoToCornerTask], 0);
      r.adventurersWin && r.adventurersHaveChest[0]
  {
    CopyStackOfThree(GoToCornerTask, PickUpChestTask, GoToChestTask);
    var s0 := DefaultSnapshot();
    var s1 := ApplyAll(s0, GoToChestTask.effects, 0);
    assert s1 == s0.(adventurersLocations := [Chest, Other, Other, Other]);
    var s2 := ApplyAll(s1, PickUpChestTask.effects, 0);
    PickUpChestTakesTheChest(s1, 0);
    var s3 := ApplyAll(s2, GoToCornerTask.effects, 0);
    GoToCornerWins(s2, 0);
    var tasks := [GoToChestTask, PickUpChestTask, GoToCornerTask];
    assert tasks[1..] == [PickUpChestTask, GoToCornerTask];
    assert tasks[1..][1..] == [GoToCornerTask];
    assert tasks[1..][1..][1..] == [];
    assert Consistent(s3, [], 0) && Simulate(s3, [], 0) == s3;
    assert Consistent(s2, [GoToCornerTask], 0) && Simulate(s2, [GoToCornerTask], 0) == s3;
    assert Consistent(s1, tasks[1..], 0) && Simulate(s1, tasks[1..], 0) == s3;
    assert Consistent(s0, tasks, 0) && Simulate(s0, tasks, 0) == s3;
  }

  /**
   * A replan of the melee adventurer after it has picked up the chest finds
   * no method for BeMeleeAdventurer, so it restores the newest checkpoint
   * left by an EARLIER call: the plan it ends with is that checkpoint's list,
   * and the list given to this call stays empty.
   */
  lemma StaleReplan(c: Config, id: AgentId, fuel: nat)
    requires c.Valid() && c.stack == [BeMeleeAdventurer] && c.history != [] && fuel >= 1
    requires c.world.chestPickedUp && c.world.adventurersHaveChest[id]
    requires c.history[|c.history| - 1].tasksToProcess == []
    ensures var r := Run(c, fuel, id);
      && r.stack == [] && r.plan == c.history[|c.history| - 1].finalPlan
      && r.history == c.history[..|c.history| - 1]
      && r.world == c.world && r.contents == c.contents
  {
    MeleeDeadEndIffHoldingChest(c.world, id);
    DeadEndStep(c, id);
    RunTakesStep(c, 1, id);
    RunFinishedIsStable(c, 1, fuel, id);
  }

  /**
   * A range adventurer that holds the chest while adventurer 0 is alive goes
   * to distract the minotaur: Get within Range is accepted, Range Attack then
   * fails, and the backtrack restores the checkpoint of RangeDistractMinotaur.
   * The accepted task stays in the plan and the simulated world keeps its
   * effect. The starting state is not one the game reaches (see
   * RangeHoldingChest); it exercises a backtrack after an accepted task.
   */
  lemma {:induction false} RangeBacktrackKeepsAcceptedTask(
    l: TaskList, contents: map<TaskList, seq<PrimitiveTask>>, fuel: nat)
    requires fuel >= 4
    ensures var s := RangeHoldingChest();
      var r := Run(Config([BeRangeAdventurer], [], s, l, contents[l := []]), fuel, 1);
      && r.stack == [] && r.plan == l
      && r.contents == contents[l := [GetWithinLongRangeTask]]
      && r.history == [Checkpoint([], l, BeRangeAdventurer.methods[0], BeRangeAdventurer)]
      && r.world == s.(adventurersWithinLongRange := [false, true, false, false])
  {
    var c2 := RangeDecomposes(l, contents);
    RangeAcceptsThenBacktracks(c2, l, contents);
    RunFinishedIsStable(Config([BeRangeAdventurer], [], RangeHoldingChest(), l, contents[l := []]), 4, fuel, 1);
  }

  /**
   * The default state, except that adventurer 1 has picked up the chest. The
   * game does not reach this state: a range adventurer seeks the chest only
   * once adventurers 0 and 2 are both dead, and nothing revives them. It is
   * built to drive the planner into a backtrack after an accepted task.
   */
  function RangeHoldingChest(): (s: Snapshot)
    ensures s.WellFormed() && s.chestPickedUp && s.adventurersHaveChest[1] && s.adventurersAlive[0]
    ensures !s.adventurersWithinLongRange[1]
  {
    DefaultSnapshot().(chestPickedUp := true, adventurersHaveChest := [false, true, false, false])
  }

  /** The first two iterations: BeRangeAdventurer, then RangeDistractMinotaur, are decomposed. */
  lemma RangeDecomposes(l: TaskList, contents: map<TaskList, seq<PrimitiveTask>>) returns (c2: Config)
    ensures var c0 := Config([BeRangeAdventurer], [], RangeHoldingChest(), l, contents[l := []]);
      && c2 == Config([RangeAttackTask, GetWithinLongRangeTask],
                      [Checkpoint([], l, BeRangeAdventurer.methods[0], BeRangeAdventurer),
                       Checkpoint([], l, RangeDistractMinotaur.methods[0], RangeDistractMinotaur)],
                      RangeHoldingChest(), l, contents[l := []])
      && Run(c0, 4, 1) == Run(c2, 2, 1)
  {
    var s := RangeHoldingChest();
    var c0 := Config([BeRangeAdventurer], [], s, l, contents[l := []]);
    RangeDistractsWhileMeleeAlive(s, 1);
    DecompositionStep(c0, 1, BeRangeAdventurer.methods[0]);
    var c1 := Step(c0, 1);
    assert c1.stack == [RangeDistractMinotaur];
    TwoWayTasksAlwaysDecompose(s, 1);
    DecompositionStep(c1, 1, RangeDistractMinotaur.methods[0]);
    c2 := Step(c1, 1);
    RunTakesStep(c0, 4, 1);
    RunTakesStep(c1, 3, 1);
  }

  /** Get within Range is accepted; Range Attack fails and the newest checkpoint is restored. */
  lemma RangeAcceptsThenBacktracks(c2: Config, l: TaskList, contents: map<TaskList, seq<PrimitiveTask>>)
    requires c2 == Config([RangeAttackTask, GetWithinLongRangeTask],
                          [Checkpoint([], l, BeRangeAdventurer.methods[0], BeRangeAdventurer),
                           Checkpoint([], l, RangeDistractMinotaur.methods[0], RangeDistractMinotaur)],
                          RangeHoldingChest(), l, contents[l := []])
    ensures var r := Run(c2, 2, 1);
      && r.stack == [] && r.plan == l
      && r.contents == contents[l := [GetWithinLongRangeTask]]
      && r.history == c2.history[..1]
      && r.world == RangeHoldingChest().(adventurersWithinLongRange := [false, true, false, false])
  {
    AcceptStep(c2, 1);
    var c3 := Step(c2, 1);
    assert c3.stack == [RangeAttackTask];
    assert [] + [GetWithinLongRangeTask] == [GetWithinLongRangeTask];
    assert c3.contents == contents[l := [GetWithinLongRangeTask]];
    assert c3.world == RangeHoldingChest().(adventurersWithinLongRange := [false, true, false, false]);
    assert !ConditionMet(RangeAttackTask, c3.world, 1);
    DeadEndStep(c3, 1);
    RunTakesStep(c2, 2, 1);
    RunTakesStep(c3, 1, 1);
  }

  // ---------------------------------------------------------------------
  // The same plans through the planner object
  // ---------------------------------------------------------------------

  /** A fresh planner plans Go to Chest, Pick Up Chest, Go to Corner for adventurer 0 from the default state. */
  method PlanFromDefaultState(fuel: nat) returns (plan: Plan)
    requires fuel >= 5
    ensures plan.tasks.items == [GoToChestTask, PickUpChestTask, GoToCornerTask]
  {
    var planner := new HTNPlanner();
    var world := new WorldState();
    ghost var l;
    plan, l := FirstPlan(planner, world, fuel);
  }

  /**
   * A first call on a planner with no history, from the default state: the
   * plan is complete after five iterations and the planner keeps both
   * checkpoints of this call.
   */
  method FirstPlan(planner: HTNPlanner, world: WorldState, fuel: nat) returns (plan: Plan, ghost l: TaskList)
    requires planner.Valid() && planner.decompHistory == [] && world.Valid() && fuel >= 5
    requires world.Value() == DefaultSnapshot()
    modifies planner, planner.Repr
    ensures planner.Valid() && fresh(l) && planner.Repr == old(planner.Repr) + {l}
    ensures plan.tasks == l && planner.tasksToProcess == []
    ensures l.items == [GoToChestTask, PickUpChestTask, GoToCornerTask]
    ensures AbsHistory(planner.decompHistory) ==
            [Checkpoint([], l, BeMeleeAdventurer.methods[0], BeMeleeAdventurer),
             Checkpoint([], l, SeekChest.methods[0], SeekChest)]
  {
    ghost var contents := planner.contents;
    var done;
    plan, done, l := planner.GeneratePlan(BeMeleeAdventurer, world, 0, fuel);
    DefaultMeleePlan(l, contents, fuel);
  }

  /**
   * The same planner, asked again once adventurer 0 has gone to the chest and
   * picked it up (each task applied while its precondition holds), returns
   * the first call's task list unchanged: the dead end restores a checkpoint
   * of the first call.
   */
  method ReplanAfterPickingUpChest(firstFuel: nat, secondFuel: nat) returns (first: Plan, second: Plan)
    requires firstFuel >= 5 && secondFuel >= 1
    ensures second.tasks == first.tasks
    ensures second.tasks.items == [GoToChestTask, PickUpChestTask, GoToCornerTask]
  {
    var planner := new HTNPlanner();
    var world := new WorldState();
    ghost var l1;
    first, l1 := FirstPlan(planner, world, firstFuel);
    PreconditionsAsWritten(world.Value(), 0);
    assert ConditionMet(GoToChestTask, world.Value(), 0);
    world.ApplyEffects(GoToChestTask.effects, 0);
    PreconditionsAsWritten(world.Value(), 0);
    assert ConditionMet(PickUpChestTask, world.Value(), 0);
    PickUpChestTakesTheChest(world.Value(), 0);
    world.ApplyEffects(PickUpChestTask.effects, 0);
    second := ReplanHoldingChest(planner, world, 0, secondFuel);
  }

  /**
   * A melee replan for an adventurer that holds the chest, on a planner whose
   * newest checkpoint has an empty work stack: the root task is a dead end,
   * that checkpoint is restored, and the plan returned is the checkpoint's
   * list, contents unchanged, rather than this call's new empty list.
   */
  method ReplanHoldingChest(planner: HTNPlanner, world: WorldState, id: AgentId, fuel: nat) returns (plan: Plan)
    requires planner.Valid() && world.Valid() && fuel >= 1
    requires world.Value().chestPickedUp && world.Value().adventurersHaveChest[id]
    requires planner.decompHistory != []
    requires planner.decompHistory[|planner.decompHistory| - 1].tasksToProcess == []
    modifies planner, planner.Repr
    ensures var last := old(planner.decompHistory[|planner.decompHistory| - 1].finalPlan.tasks);
      plan.tasks == last && last.items == old(last.items)
  {
    ghost var history := AbsHistory(planner.decompHistory);
    ghost var contents := planner.contents;
    var done;
    ghost var l;
    plan, done, l := planner.GeneratePlan(BeMeleeAdventurer, world, id, fuel);
    StaleReplan(Config([BeMeleeAdventurer], history, world.Value(), l, contents[l := []]), id, fuel);
  }

  /** A plan made by the sharing constructor sees every task appended through the original. */
  method SharedPlanList() returns (p: Plan, q: Plan)
    ensures p.tasks == q.tasks && q.tasks.items == [GoToChestTask]
  {
    p := new Plan();
    q := new Plan.Share(p);
    p.tasks.Add(GoToChestTask);
  }

  /** Writing the original after a copy was made leaves the copy as the original was. */
  method CopyIsIndependent(original: WorldState, effect: Effect, id: AgentId) returns (copy: WorldState)
    requires original.Valid()
    modifies original
    ensures fresh(copy) && copy.Valid() && copy.Value() == old(original.Value())
    ensures original.Value() == EffectOn(effect, old(original.Value()), id)
  {
    copy := new WorldState.Copy(original);
    ApplyEffect(effect, original, id);
  }

  /** Writing a copy leaves the original as it was. */
  method CopyWriteLeavesOriginal(original: WorldState, effect: Effect, id: AgentId) returns (copy: WorldState)
    requires original.Valid()
    ensures fresh(copy) && copy.Valid() && copy.Value() == EffectOn(effect, original.Value(), id)
    ensures original.Value() == old(original.Value())
  {
    copy := new WorldState.Copy(original);
    ApplyEffect(effect, copy, id);
  }
}

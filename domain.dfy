/**
 * The static domain: seven primitive tasks and five compound tasks, with
 * their preconditions, effects, method guards and subtask lists. The
 * operators that move adventurers in the game are not part of a task here.
 */
module Domain {
  import opened WorldFacts
  import opened Closures
  import opened WorldStates
  import opened Tasks

  const GoToChestTask: PrimitiveTask :=
    Primitive("Go to Chest", GoToChestPre, [SetOwnLocation(Chest)])
  const GoToMinotaurTask: PrimitiveTask :=
    Primitive("Go to Minotaur", GoToMinotaurPre, [SetOwnLocation(Minotaur)])
  const GoToCornerTask: PrimitiveTask :=
    Primitive("Go to Corner", GoToCornerPre, [SetAdventurersWin])
  const GetWithinLongRangeTask: PrimitiveTask :=
    Primitive("Get within Range", GetWithinLongRangePre, [SetOwnWithinLongRange])
  const PickUpChestTask: PrimitiveTask :=
    Primitive("Pick Up Chest", PickUpChestPre, [SetChestPickedUp, SetOwnHasChest])
  const MeleeAttackTask: PrimitiveTask :=
    Primitive("Melee Attack", MeleeAttackPre, [])
  const RangeAttackTask: PrimitiveTask :=
    Primitive("Range Attack", RangeAttackPre, [])

  const DistractMinotaur: Task := Compound([
    Method(NotAtMinotaur, [MeleeAttackTask, GoToMinotaurTask]),
    Method(AtMinotaur, [MeleeAttackTask])])

  const RangeDistractMinotaur: Task := Compound([
    Method(NotWithinLongRange, [RangeAttackTask, GetWithinLongRangeTask]),
    Method(WithinLongRange, [RangeAttackTask])])

  const SeekChest: Task := Compound([
    Method(NotAtChest, [GoToCornerTask, PickUpChestTask, GoToChestTask]),
    Method(AtChest, [GoToCornerTask, PickUpChestTask])])

  const BeMeleeAdventurer: Task := Compound([
    Method(ChestNotPickedUp, [SeekChest]),
    Method(ChestHeldByAnother, [DistractMinotaur])])

  const BeRangeAdventurer: Task := Compound([
    Method(MeleeAliveOrChestHeldByAnother, [RangeDistractMinotaur]),
    Method(ChestNotPickedUp, [SeekChest])])

  /** Each primitive task's precondition, as the domain's lambda states it. */
  lemma PreconditionsAsWritten(s: Snapshot, id: AgentId)
    requires s.WellFormed()
    ensures ConditionMet(GoToChestTask, s, id) <==> s.adventurersLocations[id] != Chest && !s.chestPickedUp
    ensures ConditionMet(GoToMinotaurTask, s, id) <==> s.adventurersLocations[id] != Minotaur
    ensures ConditionMet(GoToCornerTask, s, id) <==> s.chestPickedUp && s.adventurersHaveChest[id]
    ensures ConditionMet(GetWithinLongRangeTask, s, id) <==> !s.adventurersWithinLongRange[id]
    ensures ConditionMet(PickUpChestTask, s, id) <==> s.adventurersLocations[id] == Chest && !s.chestPickedUp
    ensures ConditionMet(MeleeAttackTask, s, id) <==>
            s.adventurersLocations[id] == Minotaur && !s.adventurersHaveChest[id]
    ensures ConditionMet(RangeAttackTask, s, id) <==>
            s.adventurersWithinLongRange[id] && !s.adventurersHaveChest[id]
  {
  }

  /** Each compound task's methods, in list order, with their guards as the domain's lambdas state them. */
  lemma MethodConditionsAsWritten(s: Snapshot, id: AgentId)
    requires s.WellFormed()
    ensures |DistractMinotaur.methods| == 2 && |RangeDistractMinotaur.methods| == 2
    ensures |SeekChest.methods| == 2 && |BeMeleeAdventurer.methods| == 2 && |BeRangeAdventurer.methods| == 2
    ensures IsConditionSatisfied(DistractMinotaur.methods[0], s, id) <==> s.adventurersLocations[id] != Minotaur
    ensures IsConditionSatisfied(DistractMinotaur.methods[1], s, id) <==> s.adventurersLocations[id] == Minotaur
    ensures IsConditionSatisfied(RangeDistractMinotaur.methods[0], s, id) <==> !s.adventurersWithinLongRange[id]
    ensures IsConditionSatisfied(RangeDistractMinotaur.methods[1], s, id) <==> s.adventurersWithinLongRange[id]
    ensures IsConditionSatisfied(SeekChest.methods[0], s, id) <==> s.adventurersLocations[id] != Chest
    ensures IsConditionSatisfied(SeekChest.methods[1], s, id) <==> s.adventurersLocations[id] == Chest
    ensures IsConditionSatisfied(BeMeleeAdventurer.methods[0], s, id) <==> !s.chestPickedUp
    ensures IsConditionSatisfied(BeMeleeAdventurer.methods[1], s, id) <==>
            s.chestPickedUp && !s.adventurersHaveChest[id]
    ensures IsConditionSatisfied(BeRangeAdventurer.methods[0], s, id) <==>
            s.adventurersAlive[0] || s.adventurersAlive[2] || (s.chestPickedUp && !s.adventurersHaveChest[id])
    ensures IsConditionSatisfied(BeRangeAdventurer.methods[1], s, id) <==> !s.chestPickedUp
  {
  }

  /**
   * Pick Up Chest needs the adventurer at the chest while nobody has picked
   * it up; its two effects, in order, mark the chest as picked up and held
   * by this adventurer, and change nothing else.
   */
  lemma PickUpChestTakesTheChest(s: Snapshot, id: AgentId)
    requires s.WellFormed()
    ensures ConditionMet(PickUpChestTask, s, id) <==>
            s.adventurersLocations[id] == Chest && !s.chestPickedUp
    ensures ApplyAll(s, PickUpChestTask.effects, id) ==
            s.(chestPickedUp := true,
               adventurersHaveChest := s.adventurersHaveChest[id := true])
  {
  }

  /** Go to Corner needs the chest picked up and held by this adventurer; it wins the game. */
  lemma GoToCornerWins(s: Snapshot, id: AgentId)
    requires s.WellFormed()
    ensures ConditionMet(GoToCornerTask, s, id) <==>
            s.chestPickedUp && s.adventurersHaveChest[id]
    ensures ApplyAll(s, GoToCornerTask.effects, id) == s.(adventurersWin := true)
  {
  }

  /** The two attacks have no effect on the world state. */
  lemma AttacksChangeNothing(s: Snapshot, id: AgentId)
    requires s.WellFormed()
    ensures ApplyAll(s, MeleeAttackTask.effects, id) == s
    ensures ApplyAll(s, RangeAttackTask.effects, id) == s
  {
  }

  /** After moving to a landmark or into range, the same move is no longer applicable. */
  lemma MovesDisableThemselves(s: Snapshot, id: AgentId)
    requires s.WellFormed()
    ensures !ConditionMet(GoToChestTask, ApplyAll(s, GoToChestTask.effects, id), id)
    ensures !ConditionMet(GoToMinotaurTask, ApplyAll(s, GoToMinotaurTask.effects, id), id)
    ensures !ConditionMet(GetWithinLongRangeTask, ApplyAll(s, GetWithinLongRangeTask.effects, id), id)
  {
  }

  /**
   * The two methods of SeekChest, DistractMinotaur and RangeDistractMinotaur
   * have complementary guards, so a method is always found: the first when
   * its guard holds and the second otherwise.
   */
  lemma TwoWayTasksAlwaysDecompose(s: Snapshot, id: AgentId)
    requires s.WellFormed()
    ensures FindMethod(SeekChest.methods, s, id) ==
            Some(if s.adventurersLocations[id] != Chest then SeekChest.methods[0] else SeekChest.methods[1])
    ensures FindMethod(DistractMinotaur.methods, s, id) ==
            Some(if s.adventurersLocations[id] != Minotaur then DistractMinotaur.methods[0]
                 else DistractMinotaur.methods[1])
    ensures FindMethod(RangeDistractMinotaur.methods, s, id) ==
            Some(if !s.adventurersWithinLongRange[id] then RangeDistractMinotaur.methods[0]
                 else RangeDistractMinotaur.methods[1])
  {
  }

  /** BeMeleeAdventurer is a dead end exactly when this adventurer already holds the chest. */
  lemma MeleeDeadEndIffHoldingChest(s: Snapshot, id: AgentId)
    requires s.WellFormed()
    ensures FindMethod(BeMeleeAdventurer.methods, s, id).None? <==>
            s.chestPickedUp && s.adventurersHaveChest[id]
  {
    FindMethodIsFirstMatch(BeMeleeAdventurer.methods, s, id);
  }

  /** While adventurer 0 or 2 is alive, a range adventurer always goes to distract the minotaur. */
  lemma RangeDistractsWhileMeleeAlive(s: Snapshot, id: AgentId)
    requires s.WellFormed()
    requires s.adventurersAlive[0] || s.adventurersAlive[2]
    ensures FindMethod(BeRangeAdventurer.methods, s, id) == Some(Method(MeleeAliveOrChestHeldByAnother, [RangeDistractMinotaur]))
  {
  }
}

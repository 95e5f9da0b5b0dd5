/**
 * The condition and effect closures of the static domain, as enumerations
 * with one interpreting function each. Every closure of the domain reads
 * only the adventurer's id, so each kind is evaluated on a snapshot and an
 * AgentId.
 */
module Closures {
  import opened WorldFacts

  /** The precondition of each of the seven primitive tasks. */
  datatype Precondition =
    | GoToChestPre | GoToMinotaurPre | GoToCornerPre | GetWithinLongRangePre
    | PickUpChestPre | MeleeAttackPre | RangeAttackPre

  /** The distinct conditions guarding the domain's methods. */
  datatype MethodCondition =
    | NotAtMinotaur | AtMinotaur
    | NotWithinLongRange | WithinLongRange
    | NotAtChest | AtChest
    | ChestNotPickedUp | ChestHeldByAnother
    | MeleeAliveOrChestHeldByAnother

  /** The distinct effects: each writes one slot of the acting adventurer or one global flag. */
  datatype Effect =
    | SetOwnLocation(location: Location)
    | SetChestPickedUp
    | SetOwnHasChest
    | SetAdventurersWin
    | SetOwnWithinLongRange

  /** Whether a precondition holds for adventurer `id`. */
  predicate Holds(p: Precondition, s: Snapshot, id: AgentId)
    requires s.WellFormed()
  {
    match p
    case GoToChestPre => s.adventurersLocations[id] != Chest && !s.chestPickedUp
    case GoToMinotaurPre => s.adventurersLocations[id] != Minotaur
    case GoToCornerPre => s.chestPickedUp && s.adventurersHaveChest[id]
    case GetWithinLongRangePre => !s.adventurersWithinLongRange[id]
    case PickUpChestPre => s.adventurersLocations[id] == Chest && !s.chestPickedUp
    case MeleeAttackPre => s.adventurersLocations[id] == Minotaur && !s.adventurersHaveChest[id]
    case RangeAttackPre => s.adventurersWithinLongRange[id] && !s.adventurersHaveChest[id]
  }

  /** Whether a method condition holds for adventurer `id`. */
  predicate Satisfied(c: MethodCondition, s: Snapshot, id: AgentId)
    requires s.WellFormed()
  {
    match c
    case NotAtMinotaur => s.adventurersLocations[id] != Minotaur
    case AtMinotaur => s.adventurersLocations[id] == Minotaur
    case NotWithinLongRange => !s.adventurersWithinLongRange[id]
    case WithinLongRange => s.adventurersWithinLongRange[id]
    case NotAtChest => s.adventurersLocations[id] != Chest
    case AtChest => s.adventurersLocations[id] == Chest
    case ChestNotPickedUp => !s.chestPickedUp
    case ChestHeldByAnother => s.chestPickedUp && !s.adventurersHaveChest[id]
    case MeleeAliveOrChestHeldByAnother =>
      s.adventurersAlive[0] || s.adventurersAlive[2]
      || (s.chestPickedUp && !s.adventurersHaveChest[id])
  }

  /** The snapshot an effect leaves when applied for adventurer `id`. */
  function EffectOn(e: Effect, s: Snapshot, id: AgentId): (r: Snapshot)
    requires s.WellFormed()
    ensures r.WellFormed()
  {
    match e
    case SetOwnLocation(l) =>
      s.(adventurersLocations := s.adventurersLocations[id := l])
    case SetChestPickedUp => s.(chestPickedUp := true)
    case SetOwnHasChest => s.(adventurersHaveChest := s.adventurersHaveChest[id := true])
    case SetAdventurersWin => s.(adventurersWin := true)
    case SetOwnWithinLongRange =>
      s.(adventurersWithinLongRange := s.adventurersWithinLongRange[id := true])
  }

  /**
   * An effect changes only the acting adventurer's slot of one list, or one
   * global flag: every other adventurer's slots are left as they were, and
   * each field the effect does not name keeps its value.
   */
  lemma EffectWritesOnlyItsTarget(e: Effect, s: Snapshot, id: AgentId, other: AgentId)
    requires s.WellFormed() && other != id
    ensures var r := EffectOn(e, s, id);
      && r.adventurersLocations[other] == s.adventurersLocations[other]
      && r.adventurersHaveChest[other] == s.adventurersHaveChest[other]
      && r.adventurersAlive == s.adventurersAlive
      && r.adventurersWithinLongRange[other] == s.adventurersWithinLongRange[other]
      && (!e.SetOwnLocation? ==> r.adventurersLocations == s.adventurersLocations)
      && (!e.SetChestPickedUp? ==> r.chestPickedUp == s.chestPickedUp)
      && (!e.SetOwnHasChest? ==> r.adventurersHaveChest == s.adventurersHaveChest)
      && (!e.SetAdventurersWin? ==> r.adventurersWin == s.adventurersWin)
      && (!e.SetOwnWithinLongRange? ==> r.adventurersWithinLongRange == s.adventurersWithinLongRange)
  {
  }
}

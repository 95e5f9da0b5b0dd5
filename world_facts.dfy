/**
 * The value part of the planner's world model: the three locations an
 * adventurer can be at, adventurer ids, and a snapshot of every fact the
 * planner reads. A snapshot holds four-slot lists indexed by adventurer id
 * plus two global flags, exactly the fields of the game's WorldState.
 */
module WorldFacts {

  /** Where an adventurer is, as far as planning is concerned. */
  datatype Location = Chest | Minotaur | Other

  /** The number of adventurers; every per-adventurer list has this many slots. */
  const AdventurerCount: nat := 4

  /** An adventurer id: the only thing conditions and effects read of an adventurer. */
  type AgentId = i: nat | i < AdventurerCount

  /** Every fact of the world state, as a value. */
  datatype Snapshot = Snapshot(
    adventurersLocations: seq<Location>,
    chestPickedUp: bool,
    adventurersHaveChest: seq<bool>,
    adventurersWin: bool,
    adventurersAlive: seq<bool>,
    adventurersWithinLongRange: seq<bool>)
  {
    /** Every per-adventurer list has one slot per adventurer. */
    predicate WellFormed() {
      && |adventurersLocations| == AdventurerCount
      && |adventurersHaveChest| == AdventurerCount
      && |adventurersAlive| == AdventurerCount
      && |adventurersWithinLongRange| == AdventurerCount
    }
  }

  /** The facts a freshly built world state holds. */
  function DefaultSnapshot(): (s: Snapshot)
    ensures s.WellFormed()
    ensures forall id: AgentId :: s.adventurersLocations[id] == Other
    ensures forall id: AgentId :: !s.adventurersHaveChest[id]
    ensures forall id: AgentId :: s.adventurersAlive[id]
    ensures forall id: AgentId :: !s.adventurersWithinLongRange[id]
    ensures !s.chestPickedUp && !s.adventurersWin
  {
    Snapshot(
      [Other, Other, Other, Other], false,
      [false, false, false, false], false,
      [true, true, true, true],
      [false, false, false, false])
  }
}

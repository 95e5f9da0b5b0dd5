/**
 * The mutable world state: a default constructor, a copy constructor that
 * yields an independent object, the in-place effects of the domain, and
 * ApplyEffects, which runs a list of effects in order on this object.
 */
module WorldStates {
  import opened WorldFacts
  import opened Closures

  class WorldState {
    var adventurersLocations: seq<Location>
    var chestPickedUp: bool
    var adventurersHaveChest: seq<bool>
    var adventurersWin: bool
    var adventurersAlive: seq<bool>
    var adventurersWithinLongRange: seq<bool>

    /** The facts this object currently holds. */
    function Value(): Snapshot
      reads this
    {
      Snapshot(adventurersLocations, chestPickedUp, adventurersHaveChest,
               adventurersWin, adventurersAlive, adventurersWithinLongRange)
    }

    /**
     * Every list has one slot per adventurer. Both constructors establish
     * this and no operation changes a list's length.
     */
    predicate Valid()
      reads this
    {
      Value().WellFormed()
    }

    /** Four adventurers at no landmark, alive, out of range, without the chest; nobody has won. */
    constructor ()
      ensures Valid() && Value() == DefaultSnapshot()
    {
      adventurersLocations := [Other, Other, Other, Other];
      chestPickedUp := false;
      adventurersHaveChest := [false, false, false, false];
      adventurersWin := false;
      adventurersAlive := [true, true, true, true];
      adventurersWithinLongRange := [false, false, false, false];
    }

    /**
     * A new object holding the same facts. The lists are values, so writing
     * a slot of either object afterwards never shows in the other one.
     */
    constructor Copy(worldState: WorldState)
      ensures Value() == worldState.Value()
      ensures worldState.Valid() ==> Valid()
    {
      adventurersLocations := worldState.adventurersLocations;
      chestPickedUp := worldState.chestPickedUp;
      adventurersHaveChest := worldState.adventurersHaveChest;
      adventurersWin := worldState.adventurersWin;
      adventurersAlive := worldState.adventurersAlive;
      adventurersWithinLongRange := worldState.adventurersWithinLongRange;
    }

    /** Runs the effects in list order, each on the state the previous one left. */
    method ApplyEffects(effects: seq<Effect>, id: AgentId)
      requires Valid()
      modifies this
      ensures Valid()
      ensures Value() == ApplyAll(old(Value()), effects, id)
    {
      for i := 0 to |effects|
        invariant Valid()
        invariant Value() == ApplyAll(old(Value()), effects[..i], id)
      {
        ApplyAllSnoc(old(Value()), effects[..i], effects[i], id);
        assert effects[..i + 1] == effects[..i] + [effects[i]];
        ApplyEffect(effects[i], this, id);
      }
      assert effects[..|effects|] == effects;
    }
  }

  /** One effect, written into the object in place. */
  method ApplyEffect(effect: Effect, worldState: WorldState, id: AgentId)
    requires worldState.Valid()
    modifies worldState
    ensures worldState.Valid()
    ensures worldState.Value() == EffectOn(effect, old(worldState.Value()), id)
  {
    match effect
    case SetOwnLocation(l) =>
      worldState.adventurersLocations := worldState.adventurersLocations[id := l];
    case SetChestPickedUp =>
      worldState.chestPickedUp := true;
    case SetOwnHasChest =>
      worldState.adventurersHaveChest := worldState.adventurersHaveChest[id := true];
    case SetAdventurersWin =>
      worldState.adventurersWin := true;
    case SetOwnWithinLongRange =>
      worldState.adventurersWithinLongRange := worldState.adventurersWithinLongRange[id := true];
  }

  /** The snapshot left by applying `effects` in list order, starting from `s`. */
  function ApplyAll(s: Snapshot, effects: seq<Effect>, id: AgentId): (r: Snapshot)
    requires s.WellFormed()
    ensures r.WellFormed()
    decreases |effects|
  {
    if effects == [] then s else ApplyAll(EffectOn(effects[0], s, id), effects[1..], id)
  }

  /** The last effect of a list is applied to the state the ones before it left. */
  lemma {:induction false} ApplyAllSnoc(s: Snapshot, effects: seq<Effect>, e: Effect, id: AgentId)
    requires s.WellFormed()
    ensures ApplyAll(s, effects + [e], id) == EffectOn(e, ApplyAll(s, effects, id), id)
    decreases |effects|
  {
    if effects == [] {
      assert [e][1..] == [];
    } else {
      assert (effects + [e])[1..] == effects[1..] + [e];
      ApplyAllSnoc(EffectOn(effects[0], s, id), effects[1..], e, id);
    }
  }

  /** Applying two lists one after the other is applying their concatenation. */
  lemma {:induction false} ApplyAllAppend(s: Snapshot, first: seq<Effect>, second: seq<Effect>, id: AgentId)
    requires s.WellFormed()
    ensures ApplyAll(s, first + second, id) == ApplyAll(ApplyAll(s, first, id), second, id)
    decreases |first|
  {
    if first != [] {
      assert (first + second)[1..] == first[1..] + second;
      ApplyAllAppend(EffectOn(first[0], s, id), first[1..], second, id);
    } else {
      assert first + second == second;
    }
  }

  /** An empty effect list leaves the state unchanged. */
  lemma ApplyNothing(s: Snapshot, id: AgentId)
    requires s.WellFormed()
    ensures ApplyAll(s, [], id) == s
  {
  }
}

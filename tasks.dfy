/**
 * The task graph types: a task is either compound, with an ordered list of
 * methods, or primitive, with a display name, a precondition and an ordered
 * list of effects. A method is a guard and an ordered list of subtasks,
 * which may mix compound and primitive tasks; it carries no per-plan state.
 */
module Tasks {
  import opened WorldFacts
  import opened Closures

  datatype Option<T> = None | Some(value: T)

  datatype Task =
    | Compound(methods: seq<Method>)
    | Primitive(name: string, precondition: Precondition, effects: seq<Effect>)

  datatype Method = Method(condition: MethodCondition, subtasks: seq<Task>)

  /** The tasks a plan may hold. */
  type PrimitiveTask = t: Task | t.Primitive? witness Primitive("", GoToChestPre, [])

  /** A primitive task's precondition, evaluated on the given state. */
  predicate ConditionMet(task: PrimitiveTask, s: Snapshot, id: AgentId)
    requires s.WellFormed()
  {
    Holds(task.precondition, s, id)
  }

  /** A method's guard, evaluated on the given state. */
  predicate IsConditionSatisfied(m: Method, s: Snapshot, id: AgentId)
    requires s.WellFormed()
  {
    Satisfied(m.condition, s, id)
  }

  /** Method `i` is satisfied and no method listed before it is. */
  predicate FirstSatisfiedAt(methods: seq<Method>, i: nat, s: Snapshot, id: AgentId)
    requires s.WellFormed()
  {
    && i < |methods|
    && IsConditionSatisfied(methods[i], s, id)
    && forall j | 0 <= j < i :: !IsConditionSatisfied(methods[j], s, id)
  }

  /** The first method, in list order, whose condition holds; None when there is none. */
  function FindMethod(methods: seq<Method>, s: Snapshot, id: AgentId): (r: Option<Method>)
    requires s.WellFormed()
    ensures r.Some? ==> r.value in methods && IsConditionSatisfied(r.value, s, id)
    ensures methods != [] && IsConditionSatisfied(methods[0], s, id) ==> r == Some(methods[0])
    decreases |methods|
  {
    if methods == [] then None
    else if IsConditionSatisfied(methods[0], s, id) then Some(methods[0])
    else FindMethod(methods[1..], s, id)
  }

  /**
   * FindMethod returns the first method, in list order, whose condition
   * holds, and None exactly when no method's condition holds (in particular
   * for an empty list).
   */
  lemma {:induction false} FindMethodIsFirstMatch(methods: seq<Method>, s: Snapshot, id: AgentId)
    requires s.WellFormed()
    ensures FindMethod(methods, s, id).None? <==>
            forall i | 0 <= i < |methods| :: !IsConditionSatisfied(methods[i], s, id)
    ensures FindMethod(methods, s, id).Some? ==>
            exists i: nat :: FirstSatisfiedAt(methods, i, s, id) && FindMethod(methods, s, id).value == methods[i]
    decreases |methods|
  {
    if methods == [] {
    } else if IsConditionSatisfied(methods[0], s, id) {
      assert FirstSatisfiedAt(methods, 0, s, id);
    } else {
      FindMethodIsFirstMatch(methods[1..], s, id);
      var r := FindMethod(methods[1..], s, id);
      if r.None? {
        forall i | 0 <= i < |methods| ensures !IsConditionSatisfied(methods[i], s, id) {
          if i > 0 { assert methods[i] == methods[1..][i - 1]; }
        }
      } else {
        var k: nat :| FirstSatisfiedAt(methods[1..], k, s, id) && r.value == methods[1..][k];
        assert FirstSatisfiedAt(methods, k + 1, s, id);
      }
    }
  }
}

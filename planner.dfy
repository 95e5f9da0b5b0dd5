/**
 * The HTN planner. Its loop pops a work stack (whose top is the LAST element
 * of the sequence here), decomposes compound tasks with the first applicable
 * method, forward-simulates primitive tasks on a private copy of the world
 * state, and on a dead end restores the most recent checkpoint.
 *
 * `Step` and `Run` describe one iteration and a bounded number of iterations
 * on an abstract configuration; the class HTNPlanner is proved to follow
 * them, and the lemmas below are about them.
 */
module Planning {
  import opened WorldFacts
  import opened Closures
  import opened WorldStates
  import opened Tasks
  import opened Plans

  // ---------------------------------------------------------------------
  // Stacks
  // ---------------------------------------------------------------------

  /**
   * `new Stack<T>(s)`: the source stack is enumerated from the top down and
   * each element is pushed in that order, so the old top ends up at the
   * bottom of the copy.
   */
  function CopyStack<T>(s: seq<T>): (r: seq<T>)
    ensures |r| == |s|
    decreases |s|
  {
    if s == [] then [] else [s[|s| - 1]] + CopyStack(s[..|s| - 1])
  }

  /** The copy holds the same elements in reverse order. */
  lemma {:induction false} CopyStackReverses<T>(s: seq<T>)
    ensures |CopyStack(s)| == |s|
    ensures forall i | 0 <= i < |s| :: CopyStack(s)[i] == s[|s| - 1 - i]
    decreases |s|
  {
    if s != [] {
      CopyStackReverses(s[..|s| - 1]);
    }
  }

  /** Copying a copy gives back the original order. */
  lemma CopyStackTwice<T>(s: seq<T>)
    ensures CopyStack(CopyStack(s)) == s
  {
    CopyStackReverses(s);
    CopyStackReverses(CopyStack(s));
  }

  // ---------------------------------------------------------------------
  // The abstract configuration and one iteration of the planner's loop
  // ---------------------------------------------------------------------

  /** A decomposition checkpoint, with its plan given by the task list that plan uses. */
  datatype Checkpoint = Checkpoint(
    tasksToProcess: seq<Task>, finalPlan: TaskList, methodChosen: Method, decomposedTask: Task)

  /**
   * The planner between two iterations: work stack, checkpoint history,
   * simulated world, the task list of the current plan, and the contents of
   * every task list the planner can reach.
   */
  datatype Config = Config(
    stack: seq<Task>, history: seq<Checkpoint>, world: Snapshot,
    plan: TaskList, contents: map<TaskList, seq<PrimitiveTask>>)
  {
    predicate Valid() {
      world.WellFormed()
    }
  }

  /** The contents of task list `l`; a list the map does not know is empty. */
  function Lookup(contents: map<TaskList, seq<PrimitiveTask>>, l: TaskList): seq<PrimitiveTask> {
    if l in contents then contents[l] else []
  }

  /** RestoreToLastDecomposedTask: pop the newest checkpoint, if any, and take its stack and plan. */
  function Restore(c: Config): (r: Config)
    requires c.Valid()
    ensures r.Valid()
  {
    if |c.history| > 0 then
      var last := c.history[|c.history| - 1];
      c.(stack := last.tasksToProcess, history := c.history[..|c.history| - 1], plan := last.finalPlan)
    else c
  }

  /** One iteration of the loop of GeneratePlan for adventurer `id`. */
  function Step(c: Config, id: AgentId): (r: Config)
    requires c.Valid() && c.stack != []
    ensures r.Valid()
  {
    var top := c.stack[|c.stack| - 1];
    var rest := c.stack[..|c.stack| - 1];
    match top
    case Compound(methods) =>
      (match FindMethod(methods, c.world, id)
       case Some(m) =>
         c.(stack := rest + m.subtasks,
            history := c.history + [Checkpoint(CopyStack(rest), c.plan, m, top)])
       case None => Restore(c.(stack := rest)))
    case Primitive(_, _, effects) =>
      if ConditionMet(top, c.world, id) then
        c.(stack := rest, world := ApplyAll(c.world, effects, id),
           contents := c.contents[c.plan := Lookup(c.contents, c.plan) + [top]])
      else Restore(c.(stack := rest))
  }

  /** The loop, for at most `fuel` iterations: it stops as soon as the work stack is empty. */
  function Run(c: Config, fuel: nat, id: AgentId): (r: Config)
    requires c.Valid()
    ensures r.Valid()
    decreases fuel, 1
  {
    if fuel == 0 || c.stack == [] then c else RunOn(c, fuel, id)
  }

  /** An iteration that the loop does take, followed by the rest of the run. */
  function RunOn(c: Config, fuel: nat, id: AgentId): (r: Config)
    requires c.Valid() && fuel > 0 && c.stack != []
    ensures r.Valid()
    decreases fuel, 0
  {
    Run(Step(c, id), fuel - 1, id)
  }

  /** The next iteration accepts a primitive task into the plan. */
  predicate Accepts(c: Config, id: AgentId)
    requires c.Valid()
  {
    c.stack != [] && c.stack[|c.stack| - 1].Primitive?
    && ConditionMet(c.stack[|c.stack| - 1], c.world, id)
  }

  /** The primitive tasks the loop accepts, in the order it accepts them. */
  function Accepted(c: Config, fuel: nat, id: AgentId): seq<PrimitiveTask>
    requires c.Valid()
    decreases fuel
  {
    if fuel == 0 || c.stack == [] then []
    else (if Accepts(c, id) then [c.stack[|c.stack| - 1]] else []) + Accepted(Step(c, id), fuel - 1, id)
  }

  // ---------------------------------------------------------------------
  // Forward simulation of a sequence of primitive tasks
  // ---------------------------------------------------------------------

  /** Each task's precondition holds on the state left by the tasks before it. */
  predicate Consistent(s: Snapshot, tasks: seq<PrimitiveTask>, id: AgentId)
    requires s.WellFormed()
    decreases |tasks|
  {
    tasks == []
    || (ConditionMet(tasks[0], s, id) && Consistent(ApplyAll(s, tasks[0].effects, id), tasks[1..], id))
  }

  /** The state left by applying the tasks' effects in order. */
  function Simulate(s: Snapshot, tasks: seq<PrimitiveTask>, id: AgentId): (r: Snapshot)
    requires s.WellFormed()
    ensures r.WellFormed()
    decreases |tasks|
  {
    if tasks == [] then s else Simulate(ApplyAll(s, tasks[0].effects, id), tasks[1..], id)
  }

  // ---------------------------------------------------------------------
  // What one iteration does
  // ---------------------------------------------------------------------

  /**
   * A compound task with an applicable method is replaced by that method's
   * subtasks, pushed in list order, so the last-listed one is processed
   * next; exactly one checkpoint is pushed, holding the reversed copy of the
   * stack as it was after the compound task was popped and the current plan.
   */
  lemma DecompositionStep(c: Config, id: AgentId, m: Method)
    requires c.Valid() && c.stack != [] && c.stack[|c.stack| - 1].Compound?
    requires FindMethod(c.stack[|c.stack| - 1].methods, c.world, id) == Some(m)
    ensures var rest := c.stack[..|c.stack| - 1]; var r := Step(c, id);
      && r.stack == rest + m.subtasks
      && (m.subtasks != [] ==> r.stack[|r.stack| - 1] == m.subtasks[|m.subtasks| - 1])
      && r.history == c.history + [Checkpoint(CopyStack(rest), c.plan, m, c.stack[|c.stack| - 1])]
      && r.world == c.world && r.plan == c.plan && r.contents == c.contents
  {
  }

  /**
   * A primitive task whose precondition holds has its effects applied to the
   * simulated state and is appended to the current plan's list; the history
   * is untouched.
   */
  lemma AcceptStep(c: Config, id: AgentId)
    requires c.Valid() && Accepts(c, id)
    ensures var t := c.stack[|c.stack| - 1]; var r := Step(c, id);
      && r.stack == c.stack[..|c.stack| - 1] && r.history == c.history && r.plan == c.plan
      && r.world == ApplyAll(c.world, t.effects, id)
      && r.contents == c.contents[c.plan := Lookup(c.contents, c.plan) + [t]]
  {
  }

  /**
   * A dead end (no applicable method, or a failed precondition) pops at most
   * one checkpoint. With an empty history the failed task is simply dropped;
   * otherwise the stack and plan become the checkpoint's. Neither the
   * simulated world nor any task list is rolled back.
   */
  lemma DeadEndStep(c: Config, id: AgentId)
    requires c.Valid() && c.stack != [] && !Accepts(c, id)
    requires var t := c.stack[|c.stack| - 1]; t.Compound? ==> FindMethod(t.methods, c.world, id).None?
    ensures var r := Step(c, id);
      && r.world == c.world && r.contents == c.contents
      && (c.history == [] ==> r == c.(stack := c.stack[..|c.stack| - 1]))
      && (c.history != [] ==>
            var last := c.history[|c.history| - 1];
            && r.history == c.history[..|c.history| - 1]
            && r.stack == last.tasksToProcess && r.plan == last.finalPlan)
  {
  }

  /** An iteration that accepts nothing leaves the simulated world and every task list as they were. */
  lemma NonAcceptingStepKeepsWorld(c: Config, id: AgentId)
    requires c.Valid() && c.stack != [] && !Accepts(c, id)
    ensures Step(c, id).world == c.world && Step(c, id).contents == c.contents
  {
  }

  // ---------------------------------------------------------------------
  // What a run does
  // ---------------------------------------------------------------------

  /**
   * Whatever the history, the simulated world is only ever advanced by
   * accepted tasks: the tasks accepted during a run, in order, each meet
   * their precondition on the state the earlier ones left, and the final
   * simulated world is the result of applying all their effects. It is
   * never rolled back on a backtrack.
   */
  lemma {:induction false} RunSimulatesAcceptedTasks(c: Config, fuel: nat, id: AgentId)
    requires c.Valid()
    ensures Consistent(c.world, Accepted(c, fuel, id), id)
    ensures Run(c, fuel, id).world == Simulate(c.world, Accepted(c, fuel, id), id)
    decreases fuel
  {
    if fuel > 0 && c.stack != [] {
      var d := Step(c, id);
      RunSimulatesAcceptedTasks(d, fuel - 1, id);
      var rest := Accepted(d, fuel - 1, id);
      if Accepts(c, id) {
        var t := c.stack[|c.stack| - 1];
        assert Accepted(c, fuel, id) == [t] + rest;
        assert ([t] + rest)[1..] == rest;
      } else {
        NonAcceptingStepKeepsWorld(c, id);
        assert Accepted(c, fuel, id) == rest;
      }
    }
  }

  /** The current plan and every checkpoint's plan use the list `l`. */
  predicate OwnsList(c: Config, l: TaskList) {
    c.plan == l && forall i | 0 <= i < |c.history| :: c.history[i].finalPlan == l
  }

  /**
   * When every checkpoint shares the current plan's list (as happens when the
   * planner starts with an empty history), the plan never changes list, that
   * list gains exactly the accepted tasks, and no other list is touched.
   */
  lemma {:induction false} RunKeepsOwnList(c: Config, fuel: nat, id: AgentId, l: TaskList)
    requires c.Valid() && OwnsList(c, l) && l in c.contents
    ensures OwnsList(Run(c, fuel, id), l)
    ensures Run(c, fuel, id).contents == c.contents[l := Lookup(c.contents, l) + Accepted(c, fuel, id)]
    decreases fuel
  {
    if fuel == 0 || c.stack == [] {
      assert Lookup(c.contents, l) + [] == c.contents[l];
      assert c.contents[l := c.contents[l]] == c.contents;
    } else {
      var d := Step(c, id);
      var now := if Accepts(c, id) then [c.stack[|c.stack| - 1]] else [];
      OwnListStep(c, id, l);
      RunKeepsOwnList(d, fuel - 1, id, l);
      var rest := Accepted(d, fuel - 1, id);
      assert Accepted(c, fuel, id) == now + rest;
      UpdateTwice(c.contents, l, now, rest);
    }
  }

  /** One iteration of RunKeepsOwnList. */
  lemma OwnListStep(c: Config, id: AgentId, l: TaskList)
    requires c.Valid() && OwnsList(c, l) && l in c.contents && c.stack != []
    ensures var d := Step(c, id);
      && OwnsList(d, l) && l in d.contents
      && d.contents == c.contents[l := Lookup(c.contents, l)
                                       + (if Accepts(c, id) then [c.stack[|c.stack| - 1]] else [])]
  {
    var d := Step(c, id);
    if !Accepts(c, id) {
      NonAcceptingStepKeepsWorld(c, id);
      assert Lookup(c.contents, l) + [] == c.contents[l];
      assert c.contents[l := c.contents[l]] == c.contents;
    }
  }

  /**
   * Subtasks are pushed in list order, so a block of primitive tasks on top
   * of the stack is processed last-listed first: if each precondition holds
   * in that order, the block is appended to the plan reversed.
   */
  lemma {:induction false} PrimitiveBlockRunsLastFirst(
    c: Config, below: seq<Task>, block: seq<PrimitiveTask>, id: AgentId)
    requires c.Valid() && c.stack == below + block && c.plan in c.contents
    requires Consistent(c.world, CopyStack(block), id)
    ensures Run(c, |block|, id) ==
            c.(stack := below, world := Simulate(c.world, CopyStack(block), id),
               contents := c.contents[c.plan := c.contents[c.plan] + CopyStack(block)])
    decreases |block|
  {
    if block == [] {
      assert c.stack == below;
      assert c.contents[c.plan] + [] == c.contents[c.plan];
      assert c.contents[c.plan := c.contents[c.plan]] == c.contents;
    } else {
      var n := |block|;
      var t := block[n - 1];
      var front := block[..n - 1];
      FirstOfReversedBlock(c.world, block, id);
      var d := c.(stack := below + front, world := ApplyAll(c.world, t.effects, id),
                  contents := c.contents[c.plan := Lookup(c.contents, c.plan) + [t]]);
      RunBlockTop(c, below, block, id);
      PrimitiveBlockRunsLastFirst(d, below, front, id);
      UpdateTwice(c.contents, c.plan, [t], CopyStack(front));
    }
  }

  /** The reversed block starts with the block's last task, which therefore runs first. */
  lemma FirstOfReversedBlock(s: Snapshot, block: seq<PrimitiveTask>, id: AgentId)
    requires s.WellFormed() && block != [] && Consistent(s, CopyStack(block), id)
    ensures var t := block[|block| - 1]; var front := block[..|block| - 1];
      var w := ApplyAll(s, t.effects, id);
      && CopyStack(block) == [t] + CopyStack(front)
      && ConditionMet(t, s, id) && Consistent(w, CopyStack(front), id)
      && Simulate(s, CopyStack(block), id) == Simulate(w, CopyStack(front), id)
  {
    var t := block[|block| - 1];
    var front := block[..|block| - 1];
    assert CopyStack(block) == [t] + CopyStack(front);
    assert CopyStack(block)[1..] == CopyStack(front);
  }

  /** Appending to a map entry twice is appending the concatenation once. */
  lemma UpdateTwice<K, V>(m: map<K, seq<V>>, k: K, a: seq<V>, b: seq<V>)
    requires k in m
    ensures m[k := m[k] + a][k := (m[k] + a) + b] == m[k := m[k] + (a + b)]
  {
    assert (m[k] + a) + b == m[k] + (a + b);
  }

  /** The block's last task is on top of the stack, and the first iteration accepts it. */
  lemma RunBlockTop(c: Config, below: seq<Task>, block: seq<PrimitiveTask>, id: AgentId)
    requires c.Valid() && c.stack == below + block && block != []
    requires ConditionMet(block[|block| - 1], c.world, id)
    ensures var t := block[|block| - 1];
      Run(c, |block|, id) ==
      Run(c.(stack := below + block[..|block| - 1], world := ApplyAll(c.world, t.effects, id),
             contents := c.contents[c.plan := Lookup(c.contents, c.plan) + [t]]), |block| - 1, id)
  {
    assert c.stack[|c.stack| - 1] == block[|block| - 1];
    assert c.stack[..|c.stack| - 1] == below + block[..|block| - 1];
    RunAfterAccept(c, |block|, id);
  }

  /** Unfolds one accepting iteration of a run. */
  lemma RunAfterAccept(c: Config, fuel: nat, id: AgentId)
    requires c.Valid() && Accepts(c, id) && fuel > 0
    ensures var t := c.stack[|c.stack| - 1];
      Run(c, fuel, id) ==
      Run(c.(stack := c.stack[..|c.stack| - 1], world := ApplyAll(c.world, t.effects, id),
             contents := c.contents[c.plan := Lookup(c.contents, c.plan) + [t]]), fuel - 1, id)
  {
    AcceptStep(c, id);
  }

  /** Once the work stack is empty the loop has finished: longer fuel changes nothing. */
  lemma {:induction false} RunFinishedIsStable(c: Config, fuel: nat, longer: nat, id: AgentId)
    requires c.Valid() && fuel <= longer && Run(c, fuel, id).stack == []
    ensures Run(c, longer, id) == Run(c, fuel, id)
    decreases fuel
  {
    if fuel > 0 && c.stack != [] {
      var d := Step(c, id);
      assert Run(c, fuel, id) == Run(d, fuel - 1, id);
      assert Run(c, longer, id) == Run(d, longer - 1, id);
      RunFinishedIsStable(d, fuel - 1, longer - 1, id);
    } else if c.stack != [] {
      assert false;
    }
  }

  /** A run with fuel left and work to do starts with one iteration. */
  lemma RunTakesStep(c: Config, fuel: nat, id: AgentId)
    requires c.Valid() && fuel > 0 && c.stack != []
    ensures Run(c, fuel, id) == Run(Step(c, id), fuel - 1, id)
  {
    assert Run(c, fuel, id) == RunOn(c, fuel, id);
  }

  /** A run that has not finished after `n` iterations takes one more step in the next. */
  lemma {:induction false} RunExtend(c: Config, n: nat, id: AgentId)
    requires c.Valid() && Run(c, n, id).stack != []
    ensures Run(c, n + 1, id) == Step(Run(c, n, id), id)
    decreases n
  {
    var d := Step(c, id);
    RunTakesStep(c, n + 1, id);
    if n > 0 {
      RunTakesStep(c, n, id);
      RunExtend(d, n - 1, id);
    } else {
      assert Run(d, 0, id) == d;
    }
  }

  // ---------------------------------------------------------------------
  // The planner object
  // ---------------------------------------------------------------------

  /** A checkpoint as the planner stores it, holding a Plan object. */
  datatype PlannerState = PlannerState(
    tasksToProcess: seq<Task>, finalPlan: Plan, methodChosen: Method, decomposedTask: Task)

  /** The abstract view of a stored checkpoint: its plan is the list that plan uses. */
  function AbsCheckpoint(p: PlannerState): Checkpoint {
    Checkpoint(p.tasksToProcess, p.finalPlan.tasks, p.methodChosen, p.decomposedTask)
  }

  function AbsHistory(h: seq<PlannerState>): (r: seq<Checkpoint>)
    ensures |r| == |h|
    ensures forall i | 0 <= i < |h| :: r[i] == AbsCheckpoint(h[i])
  {
    seq(|h|, i requires 0 <= i < |h| => AbsCheckpoint(h[i]))
  }

  lemma AbsHistoryPush(h: seq<PlannerState>, p: PlannerState)
    ensures AbsHistory(h + [p]) == AbsHistory(h) + [AbsCheckpoint(p)]
  {
    assert forall i | 0 <= i < |h| :: (h + [p])[i] == h[i];
  }

  lemma AbsHistoryPop(h: seq<PlannerState>)
    requires h != []
    ensures AbsHistory(h[..|h| - 1]) == AbsHistory(h)[..|h| - 1]
  {
  }

  class HTNPlanner {
    var decompHistory: seq<PlannerState>
    var tasksToProcess: seq<Task>
    var plan: Plan?
    var currentWorldState: WorldState?
    /** Every task list this planner's plans and checkpoints have used ... */
    ghost var Repr: set<TaskList>
    /** ... and the contents of each of them. */
    ghost var contents: map<TaskList, seq<PrimitiveTask>>

    ghost predicate Valid()
      reads this, Repr
    {
      && contents.Keys == Repr
      && (forall l | l in Repr :: contents[l] == l.items)
      && (forall i | 0 <= i < |decompHistory| :: decompHistory[i].finalPlan.tasks in Repr)
      && (plan != null ==> plan.tasks in Repr)
    }

    constructor ()
      ensures Valid() && decompHistory == [] && tasksToProcess == []
      ensures plan == null && currentWorldState == null && Repr == {}
    {
      decompHistory := [];
      tasksToProcess := [];
      plan := null;
      currentWorldState := null;
      Repr := {};
      contents := map[];
    }

    /** The planner's state as a configuration of Step. */
    ghost function Abstract(): Config
      requires plan != null && currentWorldState != null
      reads this, currentWorldState
    {
      Config(tasksToProcess, AbsHistory(decompHistory), currentWorldState.Value(), plan.tasks, contents)
    }

    /**
     * Plans for adventurer `id` from root task `rootTask`, simulating on a
     * copy of `globalWorldState`. The work stack, plan and simulated state
     * are reset; the checkpoint history is not. The loop runs at most
     * `fuel` iterations; `done` says that the work stack was emptied.
     */
    method GeneratePlan(rootTask: Task, globalWorldState: WorldState, id: AgentId, fuel: nat)
      returns (result: Plan, done: bool, ghost newList: TaskList)
      requires Valid() && globalWorldState.Valid()
      modifies this, Repr
      ensures Valid() && fresh(newList) && Repr == old(Repr) + {newList}
      ensures result == plan && currentWorldState != null && fresh(currentWorldState)
      ensures currentWorldState.Valid()
      ensures globalWorldState.Value() == old(globalWorldState.Value())
      ensures var start := Config([rootTask], AbsHistory(old(decompHistory)), old(globalWorldState.Value()),
                                  newList, old(contents)[newList := []]);
        && Abstract() == Run(start, fuel, id)
        && (old(decompHistory) == [] ==>
              && result.tasks == newList
              && newList.items == Accepted(start, fuel, id)
              && Consistent(old(globalWorldState.Value()), newList.items, id)
              && currentWorldState.Value() == Simulate(old(globalWorldState.Value()), newList.items, id))
      ensures done <==> tasksToProcess == []
    {
      newList := Reset(rootTask, globalWorldState);
      ghost var start := Abstract();
      done := ProcessTasks(id, fuel);
      result := plan;
      if old(decompHistory) == [] {
        RunKeepsOwnList(start, fuel, id, newList);
        RunSimulatesAcceptedTasks(start, fuel, id);
      }
    }

    /** The loop of GeneratePlan, for at most `fuel` iterations. */
    method ProcessTasks(id: AgentId, fuel: nat) returns (done: bool)
      requires Valid() && plan != null && currentWorldState != null && currentWorldState.Valid()
      modifies this`decompHistory, this`tasksToProcess, this`plan, this`contents, currentWorldState, Repr
      ensures Valid() && plan != null && currentWorldState == old(currentWorldState)
      ensures currentWorldState.Valid() && Repr == old(Repr)
      ensures Abstract() == Run(old(Abstract()), fuel, id)
      ensures done <==> tasksToProcess == []
    {
      ghost var start := Abstract();
      ghost var n := 0;
      var fuelLeft := fuel;
      while |tasksToProcess| > 0 && fuelLeft > 0
        invariant Valid() && plan != null && currentWorldState == old(currentWorldState)
        invariant currentWorldState.Valid() && Repr == old(Repr)
        invariant n + fuelLeft == fuel && Abstract() == Run(start, n, id)
        decreases fuelLeft
      {
        ProcessNextTask(id);
        RunExtend(start, n, id);
        n := n + 1;
        fuelLeft := fuelLeft - 1;
      }
      if fuelLeft > 0 {
        RunFinishedIsStable(start, n, fuel, id);
      }
      done := |tasksToProcess| == 0;
    }

    /** The start of GeneratePlan: a fresh work stack holding the root task, a fresh plan and a copy of the world. */
    method Reset(rootTask: Task, globalWorldState: WorldState) returns (ghost newList: TaskList)
      requires Valid() && globalWorldState.Valid()
      modifies this
      ensures Valid() && fresh(newList) && Repr == old(Repr) + {newList}
      ensures plan != null && currentWorldState != null && fresh(currentWorldState)
      ensures currentWorldState.Valid()
      ensures Abstract() == Config([rootTask], AbsHistory(old(decompHistory)), globalWorldState.Value(),
                                   newList, old(contents)[newList := []])
    {
      tasksToProcess := [];
      plan := new Plan();
      newList := plan.tasks;
      Repr := Repr + {newList};
      contents := contents[newList := []];
      currentWorldState := new WorldState.Copy(globalWorldState);
      tasksToProcess := tasksToProcess + [rootTask];
    }

    /** One iteration of the loop of GeneratePlan: pop a task and decompose, accept or backtrack. */
    method ProcessNextTask(id: AgentId)
      requires Valid() && plan != null && currentWorldState != null && currentWorldState.Valid()
      requires tasksToProcess != []
      modifies this`decompHistory, this`tasksToProcess, this`plan, this`contents, currentWorldState, Repr
      ensures Valid() && plan != null && currentWorldState == old(currentWorldState)
      ensures currentWorldState.Valid() && Repr == old(Repr)
      ensures Abstract() == Step(old(Abstract()), id)
    {
      ghost var c := Abstract();
      var currentTask := tasksToProcess[|tasksToProcess| - 1];
      tasksToProcess := tasksToProcess[..|tasksToProcess| - 1];
      match currentTask
      case Compound(methods) =>
        var satisfiedMethod := FindMethod(methods, currentWorldState.Value(), id);
        if satisfiedMethod.Some? {
          DecompositionStep(c, id, satisfiedMethod.value);
          Decompose(currentTask, satisfiedMethod.value);
        } else {
          DeadEndStep(c, id);
          RestoreToLastDecomposedTask();
        }
      case Primitive(_, _, _) =>
        if ConditionMet(currentTask, currentWorldState.Value(), id) {
          AcceptStep(c, id);
          AcceptTask(currentTask, id);
        } else {
          DeadEndStep(c, id);
          RestoreToLastDecomposedTask();
        }
    }

    /** Records a checkpoint for `task`, then pushes the subtasks of the chosen method in list order. */
    method Decompose(task: Task, methodChosen: Method)
      requires Valid() && plan != null
      modifies this`decompHistory, this`tasksToProcess
      ensures Valid()
      ensures tasksToProcess == old(tasksToProcess) + methodChosen.subtasks
      ensures AbsHistory(decompHistory) == AbsHistory(old(decompHistory))
              + [Checkpoint(CopyStack(old(tasksToProcess)), plan.tasks, methodChosen, task)]
    {
      RecordPlannerState(task, plan, methodChosen);
      var subtasks := methodChosen.subtasks;
      ghost var below := tasksToProcess;
      for k := 0 to |subtasks|
        invariant tasksToProcess == below + subtasks[..k]
        modifies this`tasksToProcess
      {
        tasksToProcess := tasksToProcess + [subtasks[k]];
      }
      assert subtasks[..|subtasks|] == subtasks;
    }

    /** Applies the effects of an accepted task to the simulated state and appends it to the plan. */
    method AcceptTask(task: PrimitiveTask, id: AgentId)
      requires Valid() && plan != null && currentWorldState != null && currentWorldState.Valid()
      modifies currentWorldState, plan.tasks, this`contents
      ensures Valid() && currentWorldState.Valid()
      ensures currentWorldState.Value() == ApplyAll(old(currentWorldState.Value()), task.effects, id)
      ensures contents == old(contents)[plan.tasks := old(contents)[plan.tasks] + [task]]
    {
      currentWorldState.ApplyEffects(task.effects, id);
      plan.tasks.Add(task);
      contents := contents[plan.tasks := plan.tasks.items];
    }

    /** Pushes a checkpoint: a reversed copy of the work stack and a plan sharing the current list. */
    method RecordPlannerState(task: Task, plan: Plan, methodChosen: Method)
      requires Valid() && plan.tasks in Repr
      modifies this`decompHistory
      ensures Valid()
      ensures AbsHistory(decompHistory)
              == AbsHistory(old(decompHistory)) + [Checkpoint(CopyStack(tasksToProcess), plan.tasks, methodChosen, task)]
    {
      var finalPlan := new Plan.Share(plan);
      AbsHistoryPush(decompHistory, PlannerState(CopyStack(tasksToProcess), finalPlan, methodChosen, task));
      decompHistory := decompHistory + [PlannerState(CopyStack(tasksToProcess), finalPlan, methodChosen, task)];
    }

    /** Pops the newest checkpoint, if there is one, and takes its work stack and plan. */
    method RestoreToLastDecomposedTask()
      requires Valid() && plan != null
      modifies this`decompHistory, this`tasksToProcess, this`plan
      ensures Valid() && plan != null
      ensures old(decompHistory) == [] ==>
        decompHistory == [] && tasksToProcess == old(tasksToProcess) && plan == old(plan)
      ensures old(decompHistory) != [] ==>
        var last := AbsHistory(old(decompHistory))[|old(decompHistory)| - 1];
        && AbsHistory(decompHistory) == AbsHistory(old(decompHistory))[..|old(decompHistory)| - 1]
        && tasksToProcess == last.tasksToProcess && plan.tasks == last.finalPlan
    {
      if |decompHistory| > 0 {
        var lastState := decompHistory[|decompHistory| - 1];
        AbsHistoryPop(decompHistory);
        decompHistory := decompHistory[..|decompHistory| - 1];
        tasksToProcess := lastState.tasksToProcess;
        plan := lastState.finalPlan;
      }
    }
  }
}

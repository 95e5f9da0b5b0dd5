# HTN planner of the minotaur game, in Dafny

This project models the planning core of a small Unity game. In the game, four adventurers try to steal a chest guarded by a minotaur. Each adventurer gets its course of action from a hierarchical task network (HTN) planner. The planner takes a root task and a copy of the shared world state. It decomposes compound tasks depth-first with an explicit stack of tasks still to process, and it keeps a history stack of checkpoints for backtracking. It returns a `Plan`, an ordered list of primitive tasks.

The project has eight modules:

- `WorldFacts` (`world_facts.dfy`) holds the value view of the world state. That view is the `Snapshot` datatype: four adventurer slots in each list, plus the global flags. It also holds the state a new `WorldState` starts in.
- `Closures` (`closures.dfy`) holds the game's C# lambdas, written as enumerations. There is one for task preconditions, one for method conditions and one for effects. Each is interpreted by a pure function on a `Snapshot` and an adventurer id.
- `WorldStates` (`world_state.dfy`) holds the mutable `WorldState` class. Its fields are four lists and two flags. It has the default constructor, the copy constructor and the in-order `ApplyEffects` loop.
- `Tasks` (`tasks.dfy`) holds the task graph: `Task = Compound(methods) | Primitive(name, precondition, effects)` and `Method(condition, subtasks)`. It also holds `FindMethod`, `ConditionMet` and `IsConditionSatisfied`.
- `Plans` (`plans.dfy`) holds `Plan` and the `TaskList` object it points to. The list is an object because `new Plan(plan)` shares the other plan's list and does not copy it.
- `Domain` (`domain.dfy`) holds the seven primitive and five compound tasks of the game, and lemmas about them.
- `Planning` (`planner.dfy`) holds two things. The first is a pure reference model of the planner loop: `Config`, `Step` and `Run`, with lemmas about them. The second is the `HTNPlanner` class with its four fields. It is proved to follow the reference model iteration by iteration.
- `Scenarios` (`scenarios.dfy`) holds concrete plans of the game, proved both on the reference model and through the planner object.

Stacks are sequences with the top at the end. A push appends and a pop drops the last element. An adventurer is replaced by its id, a number below 4, because every condition and effect only reads the adventurer's id.

## The planner as written

The model follows the code, which behaves differently from a textbook HTN planner in these ways:

- Subtasks are pushed in list order, so the last-listed subtask is processed first. The domain lists subtasks in reverse so that plans come out in the intended order.
- A checkpoint is recorded after the compound task has been popped. It keeps a copy of the stack made by `new Stack<Task>(tasksToProcess)`. That copy enumerates the stack from the top and pushes in that order, so it is reversed (`CopyStack`).
- A checkpoint's plan is `new Plan(plan)`, which shares the live task list. Restoring a checkpoint therefore never removes tasks appended after it was taken.
- The simulated world state is not rolled back on a backtrack.
- A backtrack restores the checkpoint's stack, which does not contain the decomposed task. Alternative methods of that task are never tried.
- A dead end with an empty history drops the failing task and goes on.
- `decompHistory` is never cleared. A later call on the same planner can restore a checkpoint of an earlier call, together with that earlier call's task list. The game keeps one planner per adventurer and calls it again on every replan, so this happens in play. `Scenarios.ReplanAfterPickingUpChest` shows it: once adventurer 0 has gone to the chest and picked it up, the replan returns the first call's list, not an empty plan.
- The result is never null. There is no distinct "planning failed" value; a failure shows up as a plan list that does not reach the goal.

A textbook HTN planner rolls back everything decided since the checkpoint, tries the decomposed task's next method, and reports failure once the history is empty. This code does none of these things, and the model follows the code.

The loop `while (tasksToProcess.Count > 0)` has no evident bound: stacks are restored and the history persists across calls. The model therefore gives `GeneratePlan` a `fuel` bound on the number of iterations. It reports through `done` whether the stack was emptied within that bound. The properties of the loop and of `GeneratePlan` are stated for any fuel. `PrimitiveBlockRunsLastFirst` is the exception: it is stated after exactly as many iterations as the block has tasks. The concrete plans, on the reference model and through the planner object, are stated for every fuel at or above the number of iterations they need.

`PlannerState` (`planner.dfy`) is the checkpoint record of `HTNPlanner` (`Assets/Scripts/HTNPlanner.cs:66-71`), and `AbsCheckpoint` and `AbsHistory` are its view as the reference model's `Checkpoint`s. What a record holds is stated by the `RecordPlannerState` and `RestoreToLastDecomposedTask` rows below.

`ConditionMet` and `IsConditionSatisfied` are defined as the interpretation of the task's precondition and of the method's condition. They are pure functions, so they change neither the world state nor the task. `Plan.tasks` is a `const`, matching the private setter of `Plan.Tasks`.

## Model

| member | source | states |
|---|---|---|
| WorldFacts.DefaultSnapshot | Assets/Scripts/HTNWorldState.cs:20-27 | four adventurer slots in every list; all at `Other`, none holding the chest, all alive, none within long range; chest not picked up and game not won |
| WorldStates.WorldState.constructor | Assets/Scripts/HTNWorldState.cs:20-27 | a new world state holds exactly the default snapshot and has four slots per list |
| WorldStates.WorldState.Copy | Assets/Scripts/HTNWorldState.cs:29-36 | the copy equals the original in every field and list slot, and keeps its list lengths |
| WorldStates.WorldState.ApplyEffects | Assets/Scripts/HTNWorldState.cs:38-42 | the new state is the old one with each effect applied in list order, each to the state the previous one left; the slot counts are kept |
| WorldStates.ApplyEffect | Assets/Scripts/HTNDomain.cs:28-54 | the in-place effect writes exactly what the effect's interpretation prescribes |
| WorldStates.ApplyAllSnoc | Assets/Scripts/HTNWorldState.cs:38-42 | applying a list extended by one effect applies that effect to the state the rest left |
| WorldStates.ApplyAllAppend | Assets/Scripts/HTNWorldState.cs:38-42 | applying two lists in sequence is the same as applying their concatenation |
| WorldStates.ApplyNothing | Assets/Scripts/HTNWorldState.cs:38-42 | an empty effect list leaves the state unchanged |
| WorldStates.ApplyAll | Assets/Scripts/HTNWorldState.cs:38-42 | the in-order fold of a list of effects over a state keeps four slots per list; it is the reference that `ApplyEffects` is proved against |
| Closures.EffectOn | Assets/Scripts/HTNDomain.cs:28-54 | every effect keeps four slots in every list |
| Closures.EffectWritesOnlyItsTarget | Assets/Scripts/HTNDomain.cs:28-54 | each effect writes only the acting adventurer's slot or one global flag; other fields and other adventurers' slots are unchanged |
| Tasks.FindMethod | Assets/Scripts/HTNTask.cs:13-20 | a found method is one of the task's methods and its condition holds; when the first method's condition holds, that method is returned |
| Tasks.FindMethodIsFirstMatch | Assets/Scripts/HTNTask.cs:13-20 | no method is found exactly when no condition holds, including for an empty list; a found method is the first in list order whose condition holds, and every earlier condition is false |
| Plans.TaskList.Add | Assets/Scripts/HTNPlanner.cs:38 | the list gains the task at its end and nothing else changes |
| Plans.Plan.constructor | Assets/Scripts/HTNPlan.cs:7-9 | a new plan has a new, empty task list |
| Plans.Plan.Share | Assets/Scripts/HTNPlan.cs:11-13 | the new plan uses the very list of the given plan |
| Domain.PreconditionsAsWritten | Assets/Scripts/HTNDomain.cs:25-67 | the seven primitive task constants: each task's `ConditionMet`, through `Closures.Holds`, holds exactly when the domain's precondition lambda does |
| Domain.MethodConditionsAsWritten | Assets/Scripts/HTNDomain.cs:69-127 | the five compound task constants: each has two methods, and each method's `IsConditionSatisfied`, through `Closures.Satisfied`, holds exactly when the domain's condition lambda does |
| Domain.PickUpChestTakesTheChest | Assets/Scripts/HTNDomain.cs:49-54 | Pick Up Chest applies exactly when the adventurer is at the chest and nobody has picked it up; its two effects set `ChestPickedUp` and this adventurer's `AdventurersHaveChest` slot and nothing else |
| Domain.GoToCornerWins | Assets/Scripts/HTNDomain.cs:37-40 | Go to Corner applies exactly when the chest is picked up and held by this adventurer; its effect sets only `AdventurersWin` |
| Domain.AttacksChangeNothing | Assets/Scripts/HTNDomain.cs:57-66 | Melee Attack and Range Attack leave the state unchanged |
| Domain.MovesDisableThemselves | Assets/Scripts/HTNDomain.cs:25-46 | after Go to Chest, Go to Minotaur or Get within Range, that task's own precondition is false |
| Domain.TwoWayTasksAlwaysDecompose | Assets/Scripts/HTNDomain.cs:69-103 | SeekChest, DistractMinotaur and RangeDistractMinotaur always find a method: the first when its condition holds, the second otherwise |
| Domain.MeleeDeadEndIffHoldingChest | Assets/Scripts/HTNDomain.cs:105-115 | BeMeleeAdventurer finds no method exactly when the chest is picked up and held by this adventurer |
| Domain.RangeDistractsWhileMeleeAlive | Assets/Scripts/HTNDomain.cs:117-127 | while adventurer 0 or 2 is alive, BeRangeAdventurer picks its RangeDistractMinotaur method |
| Planning.CopyStack | Assets/Scripts/HTNPlanner.cs:51 | copying a stack keeps its length; the order of the copy is stated by `CopyStackReverses` |
| Planning.CopyStackReverses | Assets/Scripts/HTNPlanner.cs:51 | the checkpoint's copy of the stack has the same length and holds the elements in reverse order |
| Planning.CopyStackTwice | Assets/Scripts/HTNPlanner.cs:51 | copying a copied stack gives back the original order |
| Planning.Restore | Assets/Scripts/HTNPlanner.cs:58-64 | restoring a checkpoint keeps the simulated world well formed |
| Planning.Step | Assets/Scripts/HTNPlanner.cs:21-43 | one iteration keeps the simulated world well formed |
| Planning.Run | Assets/Scripts/HTNPlanner.cs:20-44 | any number of iterations keeps the simulated world well formed |
| Planning.Simulate | Assets/Scripts/HTNPlanner.cs:37 | applying a well-formed state's accepted tasks keeps it well formed |
| Planning.DecompositionStep | Assets/Scripts/HTNPlanner.cs:22-29 | a compound task with a found method is replaced by that method's subtasks in list order, so the last-listed subtask is on top; exactly one checkpoint is pushed, holding the reversed copy of the stack below the task, the current plan list, the method and the task; world and plans are unchanged |
| Planning.AcceptStep | Assets/Scripts/HTNPlanner.cs:35-39 | a primitive task whose precondition holds is popped, its effects are applied to the simulated world, and it is appended to the current plan list and to no other; the history is unchanged |
| Planning.DeadEndStep | Assets/Scripts/HTNPlanner.cs:58-64 | on a dead end, with an empty history the failing task is only dropped; otherwise exactly one checkpoint is popped and its stack and plan list become current; the world and every list's contents are left as they were |
| Planning.NonAcceptingStepKeepsWorld | Assets/Scripts/HTNPlanner.cs:31-42 | an iteration that accepts no task changes neither the simulated world nor any plan list |
| Planning.RunSimulatesAcceptedTasks | Assets/Scripts/HTNPlanner.cs:35-39 | every accepted task's precondition held on the state left by the tasks accepted before it, and the final simulated world is the start state with all accepted tasks' effects applied in acceptance order |
| Planning.RunKeepsOwnList | Assets/Scripts/HTNPlanner.cs:49-64 | when every checkpoint shares the current list, the run never changes list and that list gains exactly the accepted tasks; no other list changes |
| Planning.PrimitiveBlockRunsLastFirst | Assets/Scripts/HTNPlanner.cs:27-39 | a block of primitive tasks on top of the stack is accepted last-listed first when their preconditions hold in that order; the world and the plan list then reflect the reversed block |
| Planning.RunFinishedIsStable | Assets/Scripts/HTNPlanner.cs:20 | once the stack is empty the loop stops, so more fuel gives the same result |
| Planning.RunExtend | Assets/Scripts/HTNPlanner.cs:20-44 | a run that has not emptied the stack after n iterations takes one more iteration in the next |
| Planning.HTNPlanner.constructor | Assets/Scripts/HTNPlanner.cs:8-11 | a new planner has an empty history and no plan or world state yet; its stack starts empty where the source leaves it null, which `GeneratePlan` overwrites before reading |
| Planning.HTNPlanner.GeneratePlan | Assets/Scripts/HTNPlanner.cs:12-47 | the caller's world state is unchanged and the result is the plan field; the planner's state is the reference run from the root task, the old history, a copy of the world and a new empty list; with an empty old history the result uses that new list, which holds exactly the accepted tasks, each consistent with the simulated world, and the simulated world is the effects of those tasks applied in order; `done` tells whether the stack was emptied |
| Planning.HTNPlanner.Reset | Assets/Scripts/HTNPlanner.cs:14-18 | the stack holds only the root task, the plan is new and empty, the simulated world is a fresh copy of the caller's, and the history is kept |
| Planning.HTNPlanner.ProcessTasks | Assets/Scripts/HTNPlanner.cs:20-44 | the loop leaves the planner in the state the reference run reaches from where it started; it stops early only when the stack is empty |
| Planning.HTNPlanner.ProcessNextTask | Assets/Scripts/HTNPlanner.cs:21-43 | one pass of the loop body takes the planner to the next state of the reference run |
| Planning.HTNPlanner.Decompose | Assets/Scripts/HTNPlanner.cs:26-29 | one checkpoint holding the reversed copy of the stack is recorded, then the method's subtasks are pushed in list order |
| Planning.HTNPlanner.AcceptTask | Assets/Scripts/HTNPlanner.cs:37-38 | the simulated world gets the task's effects in order, and the current plan list, and no other, gains the task at its end |
| Planning.HTNPlanner.RecordPlannerState | Assets/Scripts/HTNPlanner.cs:49-56 | the history gains exactly one checkpoint: the reversed copy of the stack, a plan sharing the current list, the method and the task |
| Planning.HTNPlanner.RestoreToLastDecomposedTask | Assets/Scripts/HTNPlanner.cs:58-64 | with an empty history nothing changes; otherwise the newest checkpoint is popped and its stack and plan become current |
| Scenarios.DefaultMeleePlan | Assets/Scripts/HTNDomain.cs:93-115 | from the default state, adventurer 0 with root BeMeleeAdventurer ends with exactly Go to Chest, Pick Up Chest, Go to Corner in the new list, two checkpoints and no backtrack, and the simulated game is won |
| Scenarios.SeekChestBlockFromDefault | Assets/Scripts/HTNDomain.cs:25-54 | from the default state, Go to Chest, Pick Up Chest and Go to Corner apply in that order and leave adventurer 0 holding the chest and the game won |
| Scenarios.StaleReplan | Assets/Scripts/HTNPlanner.cs:8-18 | a melee replan by an adventurer holding the chest, on a history left by an earlier call, ends with that checkpoint's list as the plan and the new list untouched |
| Scenarios.RangeBacktrackKeepsAcceptedTask | Assets/Scripts/HTNPlanner.cs:58-64 | a range adventurer holding the chest accepts Get within Range, hits a dead end on Range Attack and backtracks, and the plan and world keep the accepted task; the starting state is built to exercise this backtrack and is not one the game reaches |
| Scenarios.PlanFromDefaultState | Assets/Scripts/HTNPlanner.cs:12-47 | a new planner given a new world state plans Go to Chest, Pick Up Chest, Go to Corner for adventurer 0, for any fuel of at least 5 |
| Scenarios.FirstPlan | Assets/Scripts/HTNPlanner.cs:12-47 | a first call from the default state returns a plan list with those three tasks, empties the stack, and leaves the call's two checkpoints in the planner, for any fuel of at least 5 |
| Scenarios.ReplanAfterPickingUpChest | Assets/Scripts/HTNPlanner.cs:8-18 | after adventurer 0 goes to the chest and picks it up, each with its precondition holding, the same planner returns the first call's very list, still holding the first plan, for any fuels of at least 5 and 1 |
| Scenarios.ReplanHoldingChest | Assets/Scripts/HTNPlanner.cs:58-64 | a replan whose root task is a dead end returns the newest checkpoint's list with its contents unchanged, for any fuel of at least 1 |
| Scenarios.SharedPlanList | Assets/Scripts/HTNPlan.cs:11-13 | a task appended through one plan is seen through the plan that shares its list |
| Scenarios.CopyIsIndependent | Assets/Scripts/HTNWorldState.cs:29-36 | writing the original after a copy is made leaves the copy as the original was |
| Scenarios.CopyWriteLeavesOriginal | Assets/Scripts/HTNWorldState.cs:29-36 | writing a copy leaves the original as it was, and the copy holds the written value |

## Left out

- `HTNPlanRunner.cs` is not part of this model. It covers the coroutine execution of a plan and the replanning of every other agent after an effect. Its per-step checks are `ConditionMet` and `ApplyEffects`, which are modelled.
- `PrimitiveTask.Operator`, `OperatorCoroutine` and the `Operator` assignments of the domain are left out. They are engine waits on navigation and animation, outside the planner.
- Creating tasks as Unity components is left out: tasks are plain values. `taskName` is kept only as a label.
- `Adventurer.cs`, `MinotaurAI.cs`, `WorldStateManager.cs` and `MinotaurSpawner.cs` are not part of this model. They cover movement, the minotaur's distance-driven behaviour, the win and lose screens and random spawning. The planner's inputs taken from them are parameters: the adventurer id, the root task and the world state.
- Planning.HTNPlanner.GeneratePlan: the loop is bounded by `fuel` rather than running until the stack is empty, because its termination is not evident. When the bound is hit, `done` is false and the state is the run's state after `fuel` iterations.
- Planning.HTNPlanner.GeneratePlan: when the old history is not empty, the result's list is stated only through the reference run `Run`. This is because the run may restore a list from an earlier call. `Scenarios.StaleReplan` works out one such case.
- Planning.HTNPlanner.ProcessTasks, Planning.HTNPlanner.ProcessNextTask, Planning.HTNPlanner.Decompose, Planning.HTNPlanner.AcceptTask and Planning.HTNPlanner.Reset: these split the body of `GeneratePlan` into parts, one per branch of the source, so that each proof stays small.
- Planning.Step, Planning.Run, Planning.Restore and Planning.Simulate: their own contracts state only well-formedness. What they compute is stated by the step and run lemmas listed above.
- WorldStates.ApplyAll: its own contract states only well-formedness; what it computes is stated by `ApplyAllSnoc`, `ApplyAllAppend` and `ApplyNothing`.
- Planning.CopyStack: its own contract states only the length; the order is stated by `CopyStackReverses`.
- Tasks.FindMethod: its own contract states only that a found method is listed and satisfied; the first-match property and the None case are stated by `FindMethodIsFirstMatch`.
- Planning.HTNPlanner.constructor: the work stack starts as the empty sequence, where the source leaves the field null until `GeneratePlan` assigns it; nothing reads it before that.
- Tasks.ConditionMet, Tasks.IsConditionSatisfied, Closures.Holds and Closures.Satisfied are plain definitions with no contract of their own. `Domain.PreconditionsAsWritten` and `Domain.MethodConditionsAsWritten` connect them to every condition of the domain.

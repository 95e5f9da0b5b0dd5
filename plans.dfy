/**
 * A plan wraps a mutable list of primitive tasks. The list is an object of
 * its own: the copy constructor of Plan shares it instead of copying it, so
 * two plans built one from the other see every later append to either.
 */
module Plans {
  import opened Tasks

  /** The list of primitive tasks a plan holds, appended to in place. */
  class TaskList {
    var items: seq<PrimitiveTask>

    constructor ()
      ensures items == []
    {
      items := [];
    }

    method Add(task: PrimitiveTask)
      modifies this
      ensures items == old(items) + [task]
    {
      items := items + [task];
    }
  }

  class Plan {
    /** Set only by the constructors; later changes are edits of the list itself. */
    const tasks: TaskList

    /** A plan with a new, empty task list. */
    constructor ()
      ensures fresh(tasks) && tasks.items == []
    {
      tasks := new TaskList();
    }

    /** A plan that uses `plan`'s very list as its own: no copy is made. */
    constructor Share(plan: Plan)
      ensures tasks == plan.tasks
    {
      tasks := plan.tasks;
    }
  }
}

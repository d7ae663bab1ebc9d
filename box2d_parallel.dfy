/**
 * The task hooks Box2D calls to run work on the enki task scheduler
 * (engine/src/box2d_parallel.cpp, game/src/engine/box2d_parallel.hpp): a
 * fixed array of 16 task slots and a counter. The scheduler itself is
 * foreign; what the hooks ask of it is recorded in `log`.
 */
module Box2dParallel {
  import opened Wrappers
  import opened MachineInts

  /** `maxTasks`. */
  const MAX_TASKS: nat := 16

  /** A `b2TaskCallback*` and a `void*` context, by identity. */
  type Callback = nat
  type Address = nat

  /** `SampleTask`: the range fields of the task set and the Box2D callback it forwards to. */
  datatype SampleTask = SampleTask(setSize: I32, minRange: I32, task: Option<Callback>, taskContext: Option<Address>)

  /**
   * A slot as `SampleTask() = default` leaves it: callback and context null.
   * The range fields belong to the scheduler's task-set base, which is not
   * part of this model; they are given 1, and no property depends on them.
   */
  const DEFAULT_TASK := SampleTask(1, 1, None, None)

  /** What the hooks ask of the scheduler or of Box2D. */
  datatype SchedulerCall =
    | AddTaskSetToPipe(slot: nat)
    | WaitforTask(slot: nat)
    | RunInline(task: Callback, start: int, end: int, threadIndex: int, taskContext: Option<Address>)

  /** `Sample`: the task slots, `m_taskCount`, and the calls made to the scheduler. */
  class Sample {
    const tasks: array<SampleTask>
    var taskCount: I32
    var log: seq<SchedulerCall>

    /** The slot count is fixed and the counter never leaves [0, 16]. */
    ghost predicate Valid()
      reads this
    {
      tasks.Length == MAX_TASKS && 0 <= taskCount as int <= MAX_TASKS
    }

    constructor ()
      ensures Valid() && fresh(tasks)
      ensures taskCount == 0 && log == []
      ensures forall i | 0 <= i < tasks.Length :: tasks[i] == DEFAULT_TASK
    {
      tasks := new SampleTask[MAX_TASKS](_ => DEFAULT_TASK);
      taskCount := 0;
      log := [];
    }

    /**
     * `EnqueueTask`: below capacity, slot `taskCount` and no other is filled
     * with the task, it is handed to the scheduler, the counter goes up by
     * one and the slot is returned. At capacity (release build, where the
     * `assert(false)` is compiled out) the task runs inline over
     * [0, itemCount) on thread 0, nothing is stored and null is returned.
     */
    method EnqueueTask(task: Callback, itemCount: I32, minRange: I32, taskContext: Option<Address>)
      returns (taskPtr: Option<nat>)
      requires Valid()
      modifies this`taskCount, this`log, tasks
      ensures Valid()
      ensures old(taskCount) as int < MAX_TASKS ==>
        && taskPtr == Some(old(taskCount) as nat)
        && taskCount as int == old(taskCount) as int + 1
        && tasks[..] == old(tasks[..])[old(taskCount) as int := SampleTask(itemCount, minRange, Some(task), taskContext)]
        && log == old(log) + [AddTaskSetToPipe(old(taskCount) as nat)]
      ensures old(taskCount) as int == MAX_TASKS ==>
        && taskPtr == None
        && taskCount == old(taskCount)
        && tasks[..] == old(tasks[..])
        && log == old(log) + [RunInline(task, 0, itemCount as int, 0, taskContext)]
    {
      if (taskCount as int) < MAX_TASKS {
        var i := taskCount as int;
        tasks[i] := SampleTask(itemCount, minRange, Some(task), taskContext);
        log := log + [AddTaskSetToPipe(i)];
        taskCount := taskCount + 1;
        taskPtr := Some(i);
      } else {
        log := log + [RunInline(task, 0, itemCount as int, 0, taskContext)];
        taskPtr := None;
      }
    }

    /** `FinishTask`: wait for a scheduled task; a null task pointer does nothing. */
    method FinishTask(taskPtr: Option<nat>)
      modifies this`log
      ensures taskPtr.None? ==> log == old(log)
      ensures taskPtr.Some? ==> log == old(log) + [WaitforTask(taskPtr.value)]
    {
      if taskPtr.Some? {
        log := log + [WaitforTask(taskPtr.value)];
      }
    }
  }
}

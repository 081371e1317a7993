/** Turning a declaration into a task for one host object: the all-empty task
    state, the choice between a group's shared scheduler and a private one, and
    the task record that couples the chosen scheduler with the task's own state.
    The scheduler's run-time behaviour is not modelled; a scheduler is the record
    of what it was built from. */
module Resolution {
  import opened Wrappers
  import opened TaskModifiers

  /** An opaque reference to one performance of a task. */
  type PerformanceId = nat

  /** The eight "last ..." fields observers read; `None` is `null`. */
  datatype TaskState = TaskState(
    lastPerformed: Option<PerformanceId>,
    lastStarted: Option<PerformanceId>,
    lastRunning: Option<PerformanceId>,
    lastSuccessful: Option<PerformanceId>,
    lastComplete: Option<PerformanceId>,
    lastErrored: Option<PerformanceId>,
    lastCanceled: Option<PerformanceId>,
    lastIncomplete: Option<PerformanceId>)

  /** A state in which no performance has been recorded. */
  predicate NothingRecorded(s: TaskState) {
    && s.lastPerformed.None? && s.lastStarted.None? && s.lastRunning.None?
    && s.lastSuccessful.None? && s.lastComplete.None? && s.lastErrored.None?
    && s.lastCanceled.None? && s.lastIncomplete.None?
  }

  /** The state a task starts with. */
  function InitialTaskState(): (s: TaskState)
    ensures NothingRecorded(s)
  {
    TaskState(None, None, None, None, None, None, None, None)
  }

  /** A scheduler as built: its buffer policy, its limit, and the state it writes. */
  datatype Scheduler = Scheduler(bufferPolicy: BufferPolicy, maxConcurrency: Limit, taskState: TaskState)

  /** What a path on the host object can hold: a task group, which carries its
      shared scheduler, or anything else. */
  datatype HostValue = TaskGroupValue(scheduler: Scheduler) | OtherValue {
    predicate IsTaskGroup() {
      TaskGroupValue?
    }
  }

  /** Looking a path up on the host object; `None` is `undefined`. */
  type Lookup = string -> Option<HostValue>

  /** Choosing the scheduler for a task. A truthy group path binds the task to the
      group's scheduler, and fails unless the path holds a task group; otherwise a
      new scheduler is built from the declaration's own policy and limit and seeded
      with the given state. */
  function MakeScheduler(d: Declaration, lookup: Lookup, state: TaskState): (r: Result<Scheduler, ConfigError>)
    ensures HasGroup(d) ==>
      var found := lookup(d.taskGroupPath.value);
      && (r.Success? <==> found.Some? && found.value.IsTaskGroup())
      && (r.Success? ==> r.value == found.value.scheduler)
      && (found.None? ==> r == Failure(GroupNotFound(d.taskGroupPath.value)))
      && (found.Some? && !found.value.IsTaskGroup() ==> r == Failure(NotATaskGroup(d.taskGroupPath.value)))
    ensures !HasGroup(d) ==>
      && r.Success?
      && r.value.bufferPolicy == d.bufferPolicy
      && r.value.maxConcurrency == d.maxConcurrency
      && r.value.taskState == state
  {
    if HasGroup(d) then
      var path := d.taskGroupPath.value;
      match lookup(path)
      case None => Failure(GroupNotFound(path))
      case Some(v) => if v.IsTaskGroup() then Success(v.scheduler) else Failure(NotATaskGroup(path))
    else
      Success(Scheduler(d.bufferPolicy, d.maxConcurrency, state))
  }

  /** A task instance: its group path, its scheduler and its state. The work
      function, the host object and the debugging hooks are not modelled. */
  datatype Task = Task(taskGroupPath: GroupPath, scheduler: Scheduler, taskState: TaskState)

  /** Creating the task for one host object: a fresh state, handed both to the task
      and to the scheduler chosen for it. */
  function CreateTask(d: Declaration, lookup: Lookup): (r: Result<Task, ConfigError>)
    ensures r.Success? <==> MakeScheduler(d, lookup, InitialTaskState()).Success?
    ensures r.Success? ==>
      && NothingRecorded(r.value.taskState)
      && r.value.taskGroupPath == d.taskGroupPath
      && r.value.scheduler == MakeScheduler(d, lookup, r.value.taskState).value
      && (!HasGroup(d) ==> r.value.scheduler.taskState == r.value.taskState)
    ensures r.Failure? ==> r.error == MakeScheduler(d, lookup, InitialTaskState()).error
  {
    var state := InitialTaskState();
    var scheduler :- MakeScheduler(d, lookup, state);
    Success(Task(d.taskGroupPath, scheduler, state))
  }

  /** Every task bound to the same group on the same host object shares one
      scheduler, whatever each declaration's own policy and limit say. */
  lemma SameGroupSharesScheduler(d1: Declaration, d2: Declaration, lookup: Lookup)
    requires HasGroup(d1) && d1.taskGroupPath == d2.taskGroupPath
    requires CreateTask(d1, lookup).Success?
    ensures CreateTask(d2, lookup).Success?
    ensures CreateTask(d1, lookup).value.scheduler == CreateTask(d2, lookup).value.scheduler
  {
  }

  /** A task without a group gets a private scheduler that carries exactly its
      declaration's policy and limit and writes the task's own, empty state. */
  lemma PrivateSchedulerFollowsDeclaration(d: Declaration, lookup: Lookup)
    requires !HasGroup(d)
    ensures CreateTask(d, lookup).Success?
    ensures var t := CreateTask(d, lookup).value;
      && t.scheduler == Scheduler(d.bufferPolicy, d.maxConcurrency, t.taskState)
      && NothingRecorded(t.taskState)
  {
  }

  /** Without a group, the host object is never consulted: any two lookups give
      the same task. */
  lemma PrivateTaskIgnoresHost(d: Declaration, lookup1: Lookup, lookup2: Lookup)
    requires !HasGroup(d)
    ensures CreateTask(d, lookup1) == CreateTask(d, lookup2)
  {
  }
}

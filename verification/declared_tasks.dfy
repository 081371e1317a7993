/** From a chain of modifier calls to the task a host object receives: the
    properties that need both the builder and the resolution step. */
module DeclaredTasks {
  import opened Wrappers
  import opened TaskModifiers
  import opened ModifierChains
  import opened Resolution

  /** Declaring with a chain and creating the task for one host object. */
  function DeclareTask(ms: seq<Modifier>, lookup: Lookup): (r: Result<Task, ConfigError>)
    ensures Declare(ms).Failure? ==> r == Failure(ModifiersMixedWithGroup)
    ensures r.Success? <==>
      Declare(ms).Success? && MakeScheduler(Declare(ms).value, lookup, InitialTaskState()).Success?
    ensures r.Success? ==>
      && NothingRecorded(r.value.taskState)
      && r.value.taskGroupPath == Declare(ms).value.taskGroupPath
      && r.value.scheduler == MakeScheduler(Declare(ms).value, lookup, r.value.taskState).value
    ensures Declare(ms).Success? && r.Failure? ==>
      r.error == MakeScheduler(Declare(ms).value, lookup, InitialTaskState()).error
  {
    var d :- Declare(ms);
    CreateTask(d, lookup)
  }

  /** A task declared with a group runs on the group's scheduler when the path holds
      a task group, and fails to be created otherwise. Its declaration's own policy
      and limit, which this ignores, are still the defaults. */
  lemma GroupedTaskUsesGroupScheduler(ms: seq<Modifier>, lookup: Lookup)
    requires Declare(ms).Success? && HasGroup(Declare(ms).value)
    ensures var found := lookup(Declare(ms).value.taskGroupPath.value);
      && (DeclareTask(ms, lookup).Success? <==> found.Some? && found.value.IsTaskGroup())
      && (DeclareTask(ms, lookup).Success? ==> DeclareTask(ms, lookup).value.scheduler == found.value.scheduler)
    ensures Declare(ms).value.bufferPolicy == EnqueueTasks
    ensures Declare(ms).value.maxConcurrency == Unbounded
  {
    GroupedDeclarationKeepsDefaults(ms);
  }

  /** A task declared without any modifier other than `group`, whose path ends up
      falsy, gets a private scheduler with policy `enqueue` and no limit. */
  lemma UnmodifiedTaskIsUnboundedEnqueue(ms: seq<Modifier>, lookup: Lookup)
    requires forall k :: 0 <= k < |ms| ==> ms[k].CallGroup?
    requires |ms| == 0 || !IsTruthy(ms[|ms| - 1].path)
    ensures DeclareTask(ms, lookup).Success?
    ensures DeclareTask(ms, lookup).value.scheduler.bufferPolicy == EnqueueTasks
    ensures DeclareTask(ms, lookup).value.scheduler.maxConcurrency == Unbounded
    ensures NothingRecorded(DeclareTask(ms, lookup).value.scheduler.taskState)
  {
    GroupOnlyChainKeepsDefaults(ms);
    CheckedChainMatchesUnchecked(Fresh, ms);
    if |ms| > 0 {
      LastGroupCallWins(Fresh, ms, |ms| - 1);
    }
  }

  /** A task declared with buffer-policy setters only gets a private scheduler with
      the policy of the last setter and a limit of 1. */
  lemma PolicyOnlyTaskHasLastPolicyAndLimitOne(ms: seq<Modifier>, lookup: Lookup)
    requires |ms| > 0 && forall k :: 0 <= k < |ms| ==> IsBufferSetter(ms[k])
    ensures DeclareTask(ms, lookup).Success?
    ensures DeclareTask(ms, lookup).value.scheduler.bufferPolicy == PolicyOf(ms[|ms| - 1])
    ensures DeclareTask(ms, lookup).value.scheduler.maxConcurrency == Bounded(1)
  {
    BufferSettersLastWins(Fresh, ms);
  }
}

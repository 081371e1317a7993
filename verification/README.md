# ember-concurrency task modifiers — a Dafny model

This project models the task-declaration builder of ember-concurrency and the step
that resolves a declaration into a task for one host object
(`addon/-task-modifiers-mixin.js`).

A task declaration carries five fields: a buffer policy, a concurrency limit, an
optional task-group path, and the flags `hasUsedModifier` and `hasSetBufferPolicy`.
Six chainable modifiers change those fields:

- `restartable`, `enqueue`, `drop` and `keepLatest` select a buffer policy. They
  set both flags and narrow an unbounded limit to 1.
- `maxConcurrency(n)` sets the limit.
- `group(path)` records a group path.

Every modifier asserts that a group is never combined with another modifier. When
the task is created for a host object, a truthy group path binds it to the
scheduler of the task group found at that path, and fails if no task group is
there. Without a group path, the task gets a private scheduler built from the
declaration's policy and limit. That scheduler shares the task's all-empty
initial state.

Modules:

- `Wrappers` (`wrappers.dfy`): `Option` and `Result`.
- `TaskModifiers` (`task_modifiers.dfy`): the declaration record, its defaults and
  the six modifiers, each a pure function returning `Result<Declaration, ConfigError>`.
- `ModifierChains` (`modifier_chains.dfy`): chains of modifier calls.
  - `ApplyAll` is the checked chain, which stops at the first failing call.
  - `MutateAll` is a reference semantics that performs only the field updates.
    This is what the chain does when `Ember.assert` is stripped, as in a
    production build.
  - The lemmas relate the two and state the builder's rules over whole chains.
- `Resolution` (`resolution.dfy`): the initial task state, `makeScheduler` and the
  data flow of `_createTask`.
- `DeclaredTasks` (`declared_tasks.dfy`): properties from a modifier chain through
  to the created task.

Representation choices:

- `Infinity` is `Limit.Unbounded`. A number given to `maxConcurrency` is
  `Bounded(n)` for any integer `n`, because the code does not validate it.
- A group path is `Option<string>`. It counts as set only when it is truthy, that
  is, neither `null` nor `""`.
- `context.get(path)` is an abstract `Lookup = string -> Option<HostValue>`. A
  `HostValue` is either a task group carrying its scheduler or some other value.
- A scheduler is the record `(policy, limit, taskState)` it was built from.
- A failed `Ember.assert` is a `Failure` carrying a `ConfigError`.

Two details of the code the model follows:

- `maxConcurrency` stores whatever it is given, unvalidated (lines 39-44). So the
  model accepts any integer and also `Unbounded`.
- Reading `_isTaskGroup` from an `undefined` lookup result throws a `TypeError`
  rather than the assertion (line 82). The model gives this case its own error,
  `GroupNotFound`. A value that is present but not a task group gives `NotATaskGroup`.

## Model

| member | source | states |
|---|---|---|
| TaskModifiers.FreshDefaults | addon/-task-modifiers-mixin.js:14-21 | an unmodified declaration has policy enqueue, an unbounded limit, no group path and both flags false |
| TaskModifiers.AssertNotMixedWithGroup | addon/-task-modifiers-mixin.js:119-121 | passes a declaration through unchanged exactly when it does not combine a truthy group path with a used modifier, and otherwise fails with the mixed-with-group error |
| TaskModifiers.SetBufferPolicy | addon/-task-modifiers-mixin.js:106-117 | fails exactly when the declaration already has a truthy group; otherwise installs the policy, sets both flags, keeps the group path, turns an unbounded limit into 1 and keeps a finite one |
| TaskModifiers.Restartable | addon/-task-modifiers-mixin.js:23-25 | the buffer-policy setter contract for the cancel-ongoing policy |
| TaskModifiers.Enqueue | addon/-task-modifiers-mixin.js:27-29 | the buffer-policy setter contract for the enqueue policy |
| TaskModifiers.Drop | addon/-task-modifiers-mixin.js:31-33 | the buffer-policy setter contract for the drop-queued policy |
| TaskModifiers.KeepLatest | addon/-task-modifiers-mixin.js:35-37 | the buffer-policy setter contract for the drop-but-keep-latest policy |
| TaskModifiers.MaxConcurrency | addon/-task-modifiers-mixin.js:39-44 | fails exactly when a truthy group is set; otherwise the limit becomes exactly n, hasUsedModifier is set, and policy, group path and hasSetBufferPolicy are unchanged |
| TaskModifiers.Group | addon/-task-modifiers-mixin.js:46-50 | fails exactly when a modifier was used and the new path is truthy; otherwise only the group path changes, so a null or empty path never fails |
| ModifierChains.ApplyAll | addon/-task-modifiers-mixin.js:23-50 | chaining calls, each of which returns the builder after running the group assertion (lines 106-121 for the setters): a chain only ever fails with the mixed-with-group error, and a non-empty chain that succeeds never leaves a group together with a used modifier |
| ModifierChains.Declare | addon/-task-modifiers-mixin.js:14-50 | any chain from the defaults either fails with the mixed-with-group error or yields a declaration that does not mix a group with a modifier |
| ModifierChains.MutateAll | addon/-task-modifiers-mixin.js:23-50 | the field updates of a chain with the assertions stripped (the setters' updates are lines 106-117): neither flag is ever cleared, the policy changes only through a policy setter, and a finite limit changes only through maxConcurrency; CheckedChainMatchesUnchecked ties it to the checked chain |
| ModifierChains.ApplyIsCheckedMutate | addon/-task-modifiers-mixin.js:106-121 | one checked call succeeds exactly when its plain field update passes the group assertion, and then yields that update |
| ModifierChains.CheckedChainMatchesUnchecked | addon/-task-modifiers-mixin.js:23-50 | over chained calls, each running the group assertion after its update (lines 106-121 for the setters): a checked chain succeeds if and only if no prefix of the unchecked chain mixes a group with a modifier, and on success it equals the unchecked result |
| ModifierChains.UsedIffNonGroupCall | addon/-task-modifiers-mixin.js:39-50 | after a chain, hasUsedModifier holds if and only if it held before or the chain contains a call other than group |
| ModifierChains.LastGroupCallWins | addon/-task-modifiers-mixin.js:46-50 | the group path after a chain is the path of its last group call |
| ModifierChains.NoGroupCallKeepsPath | addon/-task-modifiers-mixin.js:23-44 | a chain without group calls leaves the group path as it was |
| ModifierChains.GroupWithOtherModifierFails | addon/-task-modifiers-mixin.js:119-121 | a chain holding group(p) with p truthy, not followed by another group call, and any other modifier anywhere, fails from any starting declaration |
| ModifierChains.GroupAndOtherModifierFailInEitherOrder | addon/-task-modifiers-mixin.js:119-121 | group(p) with p truthy followed by any other modifier fails, and so does the reverse order |
| ModifierChains.BufferSettersLastWins | addon/-task-modifiers-mixin.js:106-117 | a run of policy setters on a declaration without a group never fails; the last setter's policy is in force, both flags are set, the group path is kept, and the limit becomes 1 only if it was unbounded |
| ModifierChains.LimitThenPolicyKeepsLimit | addon/-task-modifiers-mixin.js:112-114 | maxConcurrency(n) followed by a policy setter keeps the limit n and installs that policy |
| ModifierChains.PolicyThenLimitOverwrites | addon/-task-modifiers-mixin.js:39-44 | a policy setter followed by maxConcurrency(n) ends with limit n, even an unbounded one, and keeps the policy |
| ModifierChains.MutateAllKeepsCoherent | addon/-task-modifiers-mixin.js:14-50 | from the defaults onwards, hasSetBufferPolicy implies hasUsedModifier, and without a used modifier the policy and limit keep their defaults |
| ModifierChains.GroupedDeclarationKeepsDefaults | addon/-task-modifiers-mixin.js:14-50 | a successfully declared task with a group has the default policy and an unbounded limit, and both flags false |
| ModifierChains.GroupOnlyChainKeepsDefaults | addon/-task-modifiers-mixin.js:46-50 | a chain of group calls alone never fails and keeps policy enqueue with an unbounded limit |
| Resolution.InitialTaskState | addon/-task-modifiers-mixin.js:93-104 | all eight "last ..." fields of the initial task state are absent |
| Resolution.MakeScheduler | addon/-task-modifiers-mixin.js:78-91 | with a truthy group path, it succeeds exactly when the lookup yields a task group, returns that group's scheduler, and otherwise fails naming the path. Without one, it builds a scheduler with exactly the declaration's policy and limit and the given state |
| Resolution.CreateTask | addon/-task-modifiers-mixin.js:60-73 | creation fails exactly when scheduler resolution fails, and then with the error makeScheduler raised; on success the task gets an empty state, the declaration's group path, and exactly the scheduler makeScheduler resolves for that state; without a group, that scheduler holds the task's own state |
| Resolution.SameGroupSharesScheduler | addon/-task-modifiers-mixin.js:79-83 | two declarations with the same truthy group path on the same host object get the same scheduler, whatever their own policies and limits |
| Resolution.PrivateSchedulerFollowsDeclaration | addon/-task-modifiers-mixin.js:84-90 | without a group, creation always succeeds with a scheduler carrying the declaration's policy and limit and the task's own empty state |
| Resolution.PrivateTaskIgnoresHost | addon/-task-modifiers-mixin.js:78-91 | without a group, the task created does not depend on the host object's lookup |
| DeclaredTasks.DeclareTask | addon/-task-modifiers-mixin.js:60-73 | a chain that fails gives the mixed-with-group error; the task is created exactly when the chain succeeds and its scheduler resolves, and then has an empty state, the declared group path and the resolved scheduler; when the chain succeeds but resolution fails, the failure carries the error makeScheduler raised |
| DeclaredTasks.GroupedTaskUsesGroupScheduler | addon/-task-modifiers-mixin.js:78-91 | a task declared with a group is created exactly when its path holds a task group, and then runs on that group's scheduler; the policy and limit it ignores are the defaults |
| DeclaredTasks.UnmodifiedTaskIsUnboundedEnqueue | addon/-task-modifiers-mixin.js:14-21 | a task declared without modifiers, or only with group calls the last of which has a falsy path, gets a private enqueue scheduler with no limit and an empty state |
| DeclaredTasks.PolicyOnlyTaskHasLastPolicyAndLimitOne | addon/-task-modifiers-mixin.js:106-117 | a task declared with policy setters alone gets a private scheduler with the last setter's policy and a limit of 1 |

## Left out

- `_sharedConstructor` (lines 52-58): Ember `ComputedProperty` wiring belongs to the host framework. Memoisation of one task per host object belongs there too.
- `_TaskConstructor.create`: a foreign call. The task is modelled as a record of its group path, scheduler and state. The work function, host object, `_origin`, `_propertyName` and `_debugCallback` are dropped.
- `context.get(path)`: Ember path resolution is replaced by an abstract lookup function.
- Scheduler admission, queueing and cancellation, and the four buffer-policy algorithms (`-scheduler.js`, `-buffer-policy.js`) are not part of this model. Policies are tags, and a scheduler is the record it was built from.
- Object identity: the code mutates and returns one builder object, and hands one state object to the task and the scheduler. The model uses values, so "the same object" becomes equal values.
- Non-string group paths and non-integer limits (objects, fractions, `NaN`) are not modelled. A path is a string or `null`, and a limit is an integer or `Infinity`.
- Task-group declarations use the same modifiers but build a `TaskGroup` instead of a task. Only task creation is modelled.
- Builder state after a failed assertion: the code has already changed the builder before it throws. The model returns only the error, because the failure is fatal to the declaration.

/** The task-declaration builder: the default field values of a declaration and the
    six chainable modifiers `restartable`, `enqueue`, `drop`, `keepLatest`,
    `maxConcurrency` and `group`. Each modifier is a pure function from the
    declaration before the call to the declaration after it, or to the
    configuration error the call raises. */
module TaskModifiers {
  import opened Wrappers

  /** The four buffer policies. Their admission algorithms belong to the scheduler
      and are not part of this model; here they are tags. */
  datatype BufferPolicy =
    | EnqueueTasks        // `enqueue()`
    | DropQueuedTasks     // `drop()`
    | CancelOngoingTasks  // `restartable()`
    | DropButKeepLatest   // `keepLatest()`

  /** A concurrency limit. `Unbounded` is JavaScript's `Infinity`. The number given
      to `maxConcurrency` is not validated, so any integer may be `Bounded`. */
  datatype Limit = Unbounded | Bounded(n: int)

  /** A task-group path as the declaration stores it: `None` is `null`. */
  type GroupPath = Option<string>

  /** JavaScript truthiness of a stored group path: `null` and `""` are falsy. */
  predicate IsTruthy(p: GroupPath) {
    p.Some? && p.value != ""
  }

  /** The configuration errors the declaration and its resolution can raise. */
  datatype ConfigError =
    | ModifiersMixedWithGroup   // `.group()` used together with another modifier
    | GroupNotFound(path: string)   // the group path resolved to nothing
    | NotATaskGroup(path: string)   // the group path resolved to something else

  /** A task declaration: the five fields the modifiers read and write. */
  datatype Declaration = Declaration(
    bufferPolicy: BufferPolicy,
    maxConcurrency: Limit,
    taskGroupPath: GroupPath,
    hasUsedModifier: bool,
    hasSetBufferPolicy: bool)

  /** The declaration before any modifier is called. */
  const Fresh: Declaration := Declaration(EnqueueTasks, Unbounded, None, false, false)

  predicate HasGroup(d: Declaration) {
    IsTruthy(d.taskGroupPath)
  }

  /** The cross-field rule: a group never coexists with another modifier. */
  predicate NotMixedWithGroup(d: Declaration) {
    !d.hasUsedModifier || !HasGroup(d)
  }

  /** The assertion every modifier runs on the declaration it has just changed. */
  function AssertNotMixedWithGroup(d: Declaration): (r: Result<Declaration, ConfigError>)
    ensures r.Success? <==> NotMixedWithGroup(d)
    ensures r.Success? ==> r.value == d
    ensures r.Failure? ==> r.error == ModifiersMixedWithGroup
  {
    if NotMixedWithGroup(d) then Success(d) else Failure(ModifiersMixedWithGroup)
  }

  /** What a buffer-policy setter promises, for policy `p`, from `d` to `r`. */
  predicate SetsBufferPolicy(d: Declaration, p: BufferPolicy, r: Result<Declaration, ConfigError>) {
    && (r.Failure? <==> HasGroup(d))
    && (r.Failure? ==> r.error == ModifiersMixedWithGroup)
    && (r.Success? ==>
          && r.value.bufferPolicy == p
          && r.value.hasUsedModifier
          && r.value.hasSetBufferPolicy
          && r.value.taskGroupPath == d.taskGroupPath
          && (d.maxConcurrency.Unbounded? ==> r.value.maxConcurrency == Bounded(1))
          && (d.maxConcurrency.Bounded? ==> r.value.maxConcurrency == d.maxConcurrency)
          && NotMixedWithGroup(r.value))
  }

  /** Shared body of the four buffer-policy setters: mark both flags, replace the
      policy, assert, and only then narrow an unbounded limit to 1. */
  function SetBufferPolicy(d: Declaration, p: BufferPolicy): (r: Result<Declaration, ConfigError>)
    ensures SetsBufferPolicy(d, p, r)
  {
    var marked := d.(hasSetBufferPolicy := true, hasUsedModifier := true, bufferPolicy := p);
    var checked :- AssertNotMixedWithGroup(marked);
    if checked.maxConcurrency == Unbounded then
      Success(checked.(maxConcurrency := Bounded(1)))
    else
      Success(checked)
  }

  function Restartable(d: Declaration): (r: Result<Declaration, ConfigError>)
    ensures SetsBufferPolicy(d, CancelOngoingTasks, r)
  {
    SetBufferPolicy(d, CancelOngoingTasks)
  }

  function Enqueue(d: Declaration): (r: Result<Declaration, ConfigError>)
    ensures SetsBufferPolicy(d, EnqueueTasks, r)
  {
    SetBufferPolicy(d, EnqueueTasks)
  }

  function Drop(d: Declaration): (r: Result<Declaration, ConfigError>)
    ensures SetsBufferPolicy(d, DropQueuedTasks, r)
  {
    SetBufferPolicy(d, DropQueuedTasks)
  }

  function KeepLatest(d: Declaration): (r: Result<Declaration, ConfigError>)
    ensures SetsBufferPolicy(d, DropButKeepLatest, r)
  {
    SetBufferPolicy(d, DropButKeepLatest)
  }

  /** `maxConcurrency(n)`: sets the limit to exactly `n` (unvalidated) and marks a
      modifier as used; nothing else changes. */
  function MaxConcurrency(d: Declaration, n: Limit): (r: Result<Declaration, ConfigError>)
    ensures r.Failure? <==> HasGroup(d)
    ensures r.Failure? ==> r.error == ModifiersMixedWithGroup
    ensures r.Success? ==>
      && r.value.maxConcurrency == n
      && r.value.hasUsedModifier
      && r.value.bufferPolicy == d.bufferPolicy
      && r.value.taskGroupPath == d.taskGroupPath
      && r.value.hasSetBufferPolicy == d.hasSetBufferPolicy
      && NotMixedWithGroup(r.value)
  {
    AssertNotMixedWithGroup(d.(hasUsedModifier := true, maxConcurrency := n))
  }

  /** `group(path)`: records the path and nothing else. It fails exactly when a
      modifier was already used and the new path is truthy; a `null` or empty path
      never fails, and clears any earlier group. */
  function Group(d: Declaration, path: GroupPath): (r: Result<Declaration, ConfigError>)
    ensures r.Failure? <==> d.hasUsedModifier && IsTruthy(path)
    ensures r.Failure? ==> r.error == ModifiersMixedWithGroup
    ensures r.Success? ==>
      && r.value.taskGroupPath == path
      && r.value.bufferPolicy == d.bufferPolicy
      && r.value.maxConcurrency == d.maxConcurrency
      && r.value.hasUsedModifier == d.hasUsedModifier
      && r.value.hasSetBufferPolicy == d.hasSetBufferPolicy
      && NotMixedWithGroup(r.value)
  {
    AssertNotMixedWithGroup(d.(taskGroupPath := path))
  }

  /** The defaults of a declaration nobody has modified. */
  lemma FreshDefaults()
    ensures Fresh.bufferPolicy == EnqueueTasks
    ensures Fresh.maxConcurrency == Unbounded
    ensures !HasGroup(Fresh) && Fresh.taskGroupPath == None
    ensures !Fresh.hasUsedModifier && !Fresh.hasSetBufferPolicy
    ensures NotMixedWithGroup(Fresh)
  {
  }
}

/** Chains of modifier calls, as a task is declared: `task(fn).drop().maxConcurrency(3)`.
    A chain is applied left to right and stops at the first call that throws.
    Beside the checked chain stands a reference semantics, `MutateAll`, that only
    performs the field updates: it is what the same chain does when the assertions
    are stripped, as they are in a production build of Ember. */
module ModifierChains {
  import opened Wrappers
  import opened TaskModifiers

  /** One modifier call. */
  datatype Modifier =
    | CallRestartable
    | CallEnqueue
    | CallDrop
    | CallKeepLatest
    | CallMaxConcurrency(n: Limit)
    | CallGroup(path: GroupPath)

  predicate IsBufferSetter(m: Modifier) {
    m.CallRestartable? || m.CallEnqueue? || m.CallDrop? || m.CallKeepLatest?
  }

  /** The policy a buffer-policy setter selects. */
  function PolicyOf(m: Modifier): BufferPolicy
    requires IsBufferSetter(m)
  {
    match m
    case CallRestartable => CancelOngoingTasks
    case CallEnqueue => EnqueueTasks
    case CallDrop => DropQueuedTasks
    case CallKeepLatest => DropButKeepLatest
  }

  /** One checked call. */
  function Apply(d: Declaration, m: Modifier): Result<Declaration, ConfigError> {
    match m
    case CallRestartable => Restartable(d)
    case CallEnqueue => Enqueue(d)
    case CallDrop => Drop(d)
    case CallKeepLatest => KeepLatest(d)
    case CallMaxConcurrency(n) => MaxConcurrency(d, n)
    case CallGroup(p) => Group(d, p)
  }

  /** A checked chain: the first failing call ends it with that call's error. */
  function ApplyAll(d: Declaration, ms: seq<Modifier>): (r: Result<Declaration, ConfigError>)
    ensures r.Failure? ==> r.error == ModifiersMixedWithGroup
    ensures r.Success? && (|ms| > 0 || NotMixedWithGroup(d)) ==> NotMixedWithGroup(r.value)
    decreases |ms|
  {
    if |ms| == 0 then
      Success(d)
    else
      var next :- Apply(d, ms[0]);
      ApplyAll(next, ms[1..])
  }

  /** Declaring a task: a chain applied to the default declaration. Whatever the
      chain, a declaration that comes out never mixes a group with a modifier. */
  function Declare(ms: seq<Modifier>): (r: Result<Declaration, ConfigError>)
    ensures r.Failure? ==> r.error == ModifiersMixedWithGroup
    ensures r.Success? ==> NotMixedWithGroup(r.value)
  {
    ApplyAll(Fresh, ms)
  }

  /** The field updates of one call, without its assertion. */
  function Mutate(d: Declaration, m: Modifier): Declaration {
    match m
    case CallMaxConcurrency(n) => d.(hasUsedModifier := true, maxConcurrency := n)
    case CallGroup(p) => d.(taskGroupPath := p)
    case _ =>
      d.(hasSetBufferPolicy := true, hasUsedModifier := true, bufferPolicy := PolicyOf(m),
         maxConcurrency := if d.maxConcurrency == Unbounded then Bounded(1) else d.maxConcurrency)
  }

  /** The field updates of a whole chain, without any assertion. Neither flag is
      ever cleared, a policy changes only through a buffer-policy setter, and a
      finite limit changes only through `maxConcurrency`. */
  function MutateAll(d: Declaration, ms: seq<Modifier>): (r: Declaration)
    ensures d.hasUsedModifier ==> r.hasUsedModifier
    ensures d.hasSetBufferPolicy ==> r.hasSetBufferPolicy
    ensures (forall k :: 0 <= k < |ms| ==> !IsBufferSetter(ms[k])) ==> r.bufferPolicy == d.bufferPolicy
    ensures d.maxConcurrency.Bounded? && (forall k :: 0 <= k < |ms| ==> !ms[k].CallMaxConcurrency?) ==>
      r.maxConcurrency == d.maxConcurrency
    decreases |ms|
  {
    if |ms| == 0 then d
    else
      assert forall k :: 0 <= k < |ms[1..]| ==> ms[1..][k] == ms[k + 1];
      MutateAll(Mutate(d, ms[0]), ms[1..])
  }

  /** One checked call is its field update followed by the group assertion. */
  lemma ApplyIsCheckedMutate(d: Declaration, m: Modifier)
    ensures Apply(d, m).Success? <==> NotMixedWithGroup(Mutate(d, m))
    ensures Apply(d, m).Success? ==> Apply(d, m).value == Mutate(d, m)
  {
  }

  /** The checked chain succeeds exactly when no prefix of the unchecked chain
      leaves a group mixed with a modifier, and then it agrees with the unchecked
      chain: the assertions reject configurations but never alter one. */
  lemma {:induction false} CheckedChainMatchesUnchecked(d: Declaration, ms: seq<Modifier>)
    ensures ApplyAll(d, ms).Success? <==>
      forall k :: 1 <= k <= |ms| ==> NotMixedWithGroup(MutateAll(d, ms[..k]))
    ensures ApplyAll(d, ms).Success? ==> ApplyAll(d, ms).value == MutateAll(d, ms)
    decreases |ms|
  {
    if |ms| > 0 {
      var m, rest := ms[0], ms[1..];
      var d' := Mutate(d, m);
      ApplyIsCheckedMutate(d, m);
      CheckedChainMatchesUnchecked(d', rest);
      assert MutateAll(d, ms[..1]) == d' by {
        assert ms[..1][1..] == [];
      }
      forall k | 1 <= k <= |ms|
        ensures MutateAll(d, ms[..k]) == MutateAll(d', rest[..k - 1])
      {
        assert ms[..k][0] == m;
        assert ms[..k][1..] == rest[..k - 1];
      }
      if ApplyAll(d, ms).Success? {
        assert Apply(d, m).Success?;
        forall k | 1 <= k <= |ms|
          ensures NotMixedWithGroup(MutateAll(d, ms[..k]))
        {
          if k > 1 {
            assert MutateAll(d, ms[..k]) == MutateAll(d', rest[..k - 1]);
          }
        }
      }
      if forall k :: 1 <= k <= |ms| ==> NotMixedWithGroup(MutateAll(d, ms[..k])) {
        assert NotMixedWithGroup(d');
        forall k | 1 <= k <= |rest|
          ensures NotMixedWithGroup(MutateAll(d', rest[..k]))
        {
          assert MutateAll(d, ms[..k + 1]) == MutateAll(d', rest[..k]);
        }
      }
    }
  }

  /** After a chain, a modifier has been used exactly when one was used before it
      or the chain holds a call other than `group`. */
  lemma {:induction false} UsedIffNonGroupCall(d: Declaration, ms: seq<Modifier>)
    ensures MutateAll(d, ms).hasUsedModifier <==>
      d.hasUsedModifier || exists j :: 0 <= j < |ms| && !ms[j].CallGroup?
    decreases |ms|
  {
    if |ms| > 0 {
      UsedIffNonGroupCall(Mutate(d, ms[0]), ms[1..]);
      if exists j :: 0 <= j < |ms| && !ms[j].CallGroup? {
        var j :| 0 <= j < |ms| && !ms[j].CallGroup?;
        if j > 0 {
          assert ms[1..][j - 1] == ms[j];
        }
      }
      if exists j :: 0 <= j < |ms[1..]| && !ms[1..][j].CallGroup? {
        var j :| 0 <= j < |ms[1..]| && !ms[1..][j].CallGroup?;
        assert ms[j + 1] == ms[1..][j];
      }
    }
  }

  /** The group path after a chain is the one given to its last `group` call. */
  lemma {:induction false} LastGroupCallWins(d: Declaration, ms: seq<Modifier>, i: nat)
    requires i < |ms| && ms[i].CallGroup?
    requires forall k :: i < k < |ms| ==> !ms[k].CallGroup?
    ensures MutateAll(d, ms).taskGroupPath == ms[i].path
    decreases i
  {
    if i == 0 {
      NoGroupCallKeepsPath(Mutate(d, ms[0]), ms[1..]);
    } else {
      forall k | i - 1 < k < |ms[1..]|
        ensures !ms[1..][k].CallGroup?
      {
        assert ms[1..][k] == ms[k + 1];
      }
      LastGroupCallWins(Mutate(d, ms[0]), ms[1..], i - 1);
    }
  }

  /** A chain without `group` calls leaves the group path alone. */
  lemma {:induction false} NoGroupCallKeepsPath(d: Declaration, ms: seq<Modifier>)
    requires forall k :: 0 <= k < |ms| ==> !ms[k].CallGroup?
    ensures MutateAll(d, ms).taskGroupPath == d.taskGroupPath
    decreases |ms|
  {
    if |ms| > 0 {
      assert forall k :: 0 <= k < |ms[1..]| ==> ms[1..][k] == ms[k + 1];
      NoGroupCallKeepsPath(Mutate(d, ms[0]), ms[1..]);
    }
  }

  /** `group(p)` with a truthy path and any other modifier in one chain fail,
      whichever comes first and whatever lies between, as long as no later
      `group` call clears the path. */
  lemma GroupWithOtherModifierFails(d: Declaration, ms: seq<Modifier>, i: nat, j: nat)
    requires i < |ms| && ms[i].CallGroup? && IsTruthy(ms[i].path)
    requires forall k :: i < k < |ms| ==> !ms[k].CallGroup?
    requires j < |ms| && !ms[j].CallGroup?
    ensures ApplyAll(d, ms).Failure?
  {
    LastGroupCallWins(d, ms, i);
    UsedIffNonGroupCall(d, ms);
    CheckedChainMatchesUnchecked(d, ms);
  }

  /** The two-call case of the rule, in both orders, from any declaration. */
  lemma GroupAndOtherModifierFailInEitherOrder(d: Declaration, p: GroupPath, m: Modifier)
    requires IsTruthy(p) && !m.CallGroup?
    ensures ApplyAll(d, [CallGroup(p), m]).Failure?
    ensures ApplyAll(d, [m, CallGroup(p)]).Failure?
  {
  }

  /** A sequence of buffer-policy setters never fails on a declaration without a
      group; the last one called is the policy in force, both flags are set, and
      the limit is narrowed to 1 only if it was unbounded. */
  lemma {:induction false} BufferSettersLastWins(d: Declaration, ms: seq<Modifier>)
    requires |ms| > 0 && forall k :: 0 <= k < |ms| ==> IsBufferSetter(ms[k])
    requires !HasGroup(d)
    ensures ApplyAll(d, ms).Success?
    ensures var r := ApplyAll(d, ms).value;
      && r.bufferPolicy == PolicyOf(ms[|ms| - 1])
      && r.hasUsedModifier && r.hasSetBufferPolicy
      && r.taskGroupPath == d.taskGroupPath
      && r.maxConcurrency == (if d.maxConcurrency.Unbounded? then Bounded(1) else d.maxConcurrency)
    decreases |ms|
  {
    var next := Apply(d, ms[0]).value;
    if |ms| > 1 {
      assert forall k :: 0 <= k < |ms[1..]| ==> ms[1..][k] == ms[k + 1];
      BufferSettersLastWins(next, ms[1..]);
    }
  }

  /** `maxConcurrency(n)` then a buffer-policy setter keeps `n`. */
  lemma LimitThenPolicyKeepsLimit(d: Declaration, n: int, m: Modifier)
    requires !HasGroup(d) && IsBufferSetter(m)
    ensures ApplyAll(d, [CallMaxConcurrency(Bounded(n)), m]).Success?
    ensures ApplyAll(d, [CallMaxConcurrency(Bounded(n)), m]).value.maxConcurrency == Bounded(n)
    ensures ApplyAll(d, [CallMaxConcurrency(Bounded(n)), m]).value.bufferPolicy == PolicyOf(m)
  {
    TwoCalls(d, CallMaxConcurrency(Bounded(n)), m);
  }

  /** A buffer-policy setter then `maxConcurrency(n)` ends at `n`, overwriting the
      implicit 1; `n` may even be `Infinity` again. */
  lemma PolicyThenLimitOverwrites(d: Declaration, m: Modifier, n: Limit)
    requires !HasGroup(d) && IsBufferSetter(m)
    ensures ApplyAll(d, [m, CallMaxConcurrency(n)]).Success?
    ensures ApplyAll(d, [m, CallMaxConcurrency(n)]).value.maxConcurrency == n
    ensures ApplyAll(d, [m, CallMaxConcurrency(n)]).value.bufferPolicy == PolicyOf(m)
  {
    TwoCalls(d, m, CallMaxConcurrency(n));
  }

  /** Proof helper only: unrolls `ApplyAll` over a two-call chain. */
  lemma TwoCalls(d: Declaration, a: Modifier, b: Modifier)
    ensures Apply(d, a).Failure? ==> ApplyAll(d, [a, b]) == Apply(d, a)
    ensures Apply(d, a).Success? ==> ApplyAll(d, [a, b]) == Apply(Apply(d, a).value, b)
  {
    assert [a, b][1..] == [b];
    assert [b][1..] == [];
    if Apply(d, a).Success? {
      var next := Apply(d, a).value;
      assert ApplyAll(d, [a, b]) == ApplyAll(next, [b]);
      if Apply(next, b).Success? {
        assert ApplyAll(next, [b]) == ApplyAll(Apply(next, b).value, []);
      }
    }
  }

  /** The relation between the flags and the fields they guard: a policy is only set
      by a modifier, and without any modifier policy and limit keep their defaults. */
  predicate Coherent(d: Declaration) {
    && (d.hasSetBufferPolicy ==> d.hasUsedModifier)
    && (!d.hasUsedModifier ==> d.bufferPolicy == EnqueueTasks && d.maxConcurrency == Unbounded)
  }

  lemma {:induction false} MutateAllKeepsCoherent(d: Declaration, ms: seq<Modifier>)
    requires Coherent(d)
    ensures Coherent(MutateAll(d, ms))
    decreases |ms|
  {
    if |ms| > 0 {
      MutateAllKeepsCoherent(Mutate(d, ms[0]), ms[1..]);
    }
  }

  /** A declaration that comes out with a group still has the default policy and an
      unbounded limit, and never set a policy: its own scheduling fields are never
      anything the group's scheduler would override. */
  lemma GroupedDeclarationKeepsDefaults(ms: seq<Modifier>)
    requires Declare(ms).Success? && HasGroup(Declare(ms).value)
    ensures Declare(ms).value.bufferPolicy == EnqueueTasks
    ensures Declare(ms).value.maxConcurrency == Unbounded
    ensures !Declare(ms).value.hasSetBufferPolicy && !Declare(ms).value.hasUsedModifier
  {
    CheckedChainMatchesUnchecked(Fresh, ms);
    MutateAllKeepsCoherent(Fresh, ms);
  }

  /** A chain of `group` calls only never changes the defaults and never fails. */
  lemma {:induction false} GroupOnlyChainKeepsDefaults(ms: seq<Modifier>)
    requires forall k :: 0 <= k < |ms| ==> ms[k].CallGroup?
    ensures Declare(ms).Success?
    ensures Declare(ms).value.bufferPolicy == EnqueueTasks
    ensures Declare(ms).value.maxConcurrency == Unbounded
  {
    CheckedChainMatchesUnchecked(Fresh, ms);
    UsedIffNonGroupCall(Fresh, ms);
    forall k | 1 <= k <= |ms|
      ensures NotMixedWithGroup(MutateAll(Fresh, ms[..k]))
    {
      UsedIffNonGroupCall(Fresh, ms[..k]);
    }
    MutateAllKeepsCoherent(Fresh, ms);
  }
}

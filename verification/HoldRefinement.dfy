/**
 What the update loop commits on holder lists is what the protocols do on maps:
 every operation of the compare-and-swap model, decided on a list, means the
 same operation on the map that the list stands for.
 */
module HoldRefinement {
  import opened Options
  import opened HoldSet
  import opened HoldMap
  import Lists = Admission
  import CompareAndSwap
  import Fence

  /** An operation on the map that a stored object stands for. */
  function Applied(op: CompareAndSwap.Operation, obj: CompareAndSwap.Object): Hold {
    var h := Meaning(obj.state);
    match op
    case Acquire(c, policy) => HoldMap.Admit(h, c.Key(), c.mode, policy).after
    case AdmitMount(c, generation, claim) =>
      if obj.generation != generation || obj.claim != claim then h
      else
        var fenced := h.(closed := h.closed || obj.deleting);
        h.(modes := HoldMap.Admit(fenced, c.Key(), c.mode, Lists.WorktreePolicy).after.modes)
    case Release(key) => Drop(h, {key})
    case Close => h.(closed := true)
    case RemoveStale(keys) => Drop(h, Lists.KeySeqSet(keys))
    case RetainMount(key, kept) => HoldMap.Retain(h, key, kept)
    case ImportLegacy(c) => HoldMap.Import(h, c.Key()).after
  }

  lemma MountMeans(s: State, closed: bool, c: Holder, now: nat)
    requires Lists.Good(Lists.WorktreePolicy, s)
    ensures
      var list := Lists.Admit(s.(closed := closed), c, Lists.WorktreePolicy, now);
      var hold := HoldMap.Admit(Meaning(s).(closed := closed), c.Key(), c.mode, Lists.WorktreePolicy);
      Meaning(s.(holders := list.state.holders)) == Meaning(s).(modes := hold.after.modes)
  {
    AdmitMeans(s.(closed := closed), c, Lists.WorktreePolicy, now);
  }

  /** Deciding on the list and taking its meaning is taking its meaning and applying the operation. */
  lemma DecideMeans(op: CompareAndSwap.Operation, obj: CompareAndSwap.Object, now: nat, policy: Lists.Policy)
    requires Fence.Fits(op, policy) && Lists.Good(policy, obj.state)
    ensures
      var d := CompareAndSwap.Decide(op, Some(obj), now);
      d.Some? && Meaning(d.value.state) == Applied(op, obj)
  {
    match op
    case Acquire(c, p) => AdmitMeans(obj.state, c, p, now);
    case AdmitMount(c, _, _) => MountMeans(obj.state, obj.state.closed || obj.deleting, c, now);
    case Release(key) => ReleaseMeans(obj.state, key, policy);
    case Close =>
    case RemoveStale(keys) => RemoveMeans(obj.state, keys, policy);
    case RetainMount(key, kept) => RetainMeans(obj.state, key, kept, now);
    case ImportLegacy(c) => ImportMeans(obj.state, c, now);
  }

  /** The map that an operation leaves obeys the policy, because the list does. */
  lemma AppliedAllowed(op: CompareAndSwap.Operation, obj: CompareAndSwap.Object, now: nat, policy: Lists.Policy)
    requires Fence.Fits(op, policy) && Lists.Good(policy, obj.state)
    ensures Allowed(policy, Applied(op, obj))
  {
    DecideMeans(op, obj, now, policy);
    Fence.DecideKeepsPolicy(op, Some(obj), now, policy);
    MeaningAllowed(CompareAndSwap.Decide(op, Some(obj), now).value.state, policy);
  }
}

/** The decoded hold set that one change callback edits in place. */
module HoldStates {
  import opened Options
  import opened HoldSet
  import opened Admission

  class HoldState {
    var closed: bool
    var holders: seq<Holder>

    function Value(): State
      reads this
    {
      State(closed, holders)
    }

    constructor (s: State)
      ensures Value() == s
    {
      closed, holders := s.closed, s.holders;
    }

    /** State.Find: the first holder with key. */
    method Lookup(key: string) returns (r: Option<Holder>)
      ensures r == Find(holders, key)
    {
      for i := 0 to |holders|
        invariant Find(holders, key) == Find(holders[i..], key)
      {
        assert holders[i..][1..] == holders[i + 1..];
        if holders[i].Key() == key {
          return Some(holders[i]);
        }
      }
      return None;
    }

    /** State.Remove: drops key and reports whether it was present. */
    method Remove(key: string) returns (present: bool)
      modifies this
      ensures Value() == old(Value()).(holders := Without(old(holders), key))
      ensures present <==> key in KeySet(old(holders))
    {
      var kept := [];
      for i := 0 to |holders|
        invariant kept + Without(holders[i..], key) == Without(holders, key)
      {
        assert holders[i..][1..] == holders[i + 1..];
        if holders[i].Key() != key {
          kept := kept + [holders[i]];
        }
      }
      var before := |holders|;
      holders := kept;
      present := |holders| != before;
    }

    /** State.Put: replaces the holder with h's key and keeps its start time. */
    method Put(h: Holder, now: nat)
      modifies this
      ensures Value() == old(Value()).(holders := HoldSet.Put(old(holders), h, now))
    {
      var recorded := h;
      var existing := Lookup(h.Key());
      if existing.Some? && existing.value.since != 0 {
        recorded := recorded.(since := existing.value.since);
      }
      if recorded.since == 0 {
        recorded := recorded.(since := now);
      }
      var _ := Remove(h.Key());
      holders := Sort(holders + [recorded]);
    }

    /** State.Admit: the fence first, then the policy, then Put. */
    method Admit(candidate: Holder, policy: Policy, now: nat) returns (result: Result, changed: bool)
      modifies this
      ensures Change(changed, result, Value()) == Admission.Admit(old(Value()), candidate, policy, now)
    {
      var existing := Lookup(candidate.Key());
      if existing.Some? && existing.value.mode == candidate.mode {
        return Result(!closed, true, closed, []), false;
      }
      if closed {
        return NOTHING.(closed := true), false;
      }
      var others := new HoldState(Value());
      var _ := others.Remove(candidate.Key());
      var blocking;
      if policy.RepositoryPolicy? {
        blocking := RepositoryConflicts(others.holders, candidate);
      } else {
        blocking := WorktreeConflicts(others.holders, candidate);
      }
      if |blocking| > 0 {
        return NOTHING.(conflicts := blocking), false;
      }
      Put(candidate, now);
      return NOTHING.(admitted := true), true;
    }

    /**
     The change Sweep commits: every candidate still present is removed and
     returned, holders that were not candidates stay.
     */
    method RemoveStale(candidates: seq<Holder>) returns (removed: seq<Holder>)
      modifies this
      ensures Value() == old(Value()).(holders := WithoutAll(old(holders), Keys(candidates)))
      ensures removed == Removable(old(holders), candidates)
    {
      removed := [];
      for i := 0 to |candidates|
        invariant closed == old(closed)
        invariant WithoutAll(holders, Keys(candidates[i..])) == WithoutAll(old(holders), Keys(candidates))
        invariant removed + Removable(holders, candidates[i..]) == Removable(old(holders), candidates)
      {
        StaleStep(holders, candidates, i);
        Regroup(removed, candidates[i], Removable(Without(holders, candidates[i].Key()), candidates[i + 1..]));
        var present := Remove(candidates[i].Key());
        if present {
          removed := removed + [candidates[i]];
        }
      }
    }
  }

  /** The candidates that are still held when Sweep's write is prepared. */
  function Removable(hs: seq<Holder>, candidates: seq<Holder>): seq<Holder>
    decreases |candidates|
  {
    if candidates == [] then []
    else
      var h := candidates[0];
      (if h.Key() in KeySet(hs) then [h] else []) + Removable(Without(hs, h.Key()), candidates[1..])
  }

  lemma Regroup(a: seq<Holder>, h: Holder, b: seq<Holder>)
    ensures a + ([h] + b) == a + [h] + b && [] + b == b
  {
  }

  lemma StaleStep(hs: seq<Holder>, candidates: seq<Holder>, i: nat)
    requires i < |candidates|
    ensures
      var h, rest := candidates[i], candidates[i + 1..];
      var left := Without(hs, h.Key());
      && WithoutAll(hs, Keys(candidates[i..])) == WithoutAll(left, Keys(rest))
      && Removable(hs, candidates[i..]) == (if h.Key() in KeySet(hs) then [h] else []) + Removable(left, rest)
  {
    assert candidates[i..][1..] == candidates[i + 1..];
    assert Keys(candidates[i..])[1..] == Keys(candidates[i + 1..]);
  }

  /** Sweep returns a candidate for every candidate key it removed, once. */
  lemma {:induction false} RemovableExact(hs: seq<Holder>, candidates: seq<Holder>)
    ensures KeySet(Removable(hs, candidates)) == KeySet(candidates) * KeySet(hs)
    ensures DistinctKeys(Removable(hs, candidates))
    decreases |candidates|
  {
    if candidates != [] {
      var h := candidates[0];
      var rest := Removable(Without(hs, h.Key()), candidates[1..]);
      RemovableExact(Without(hs, h.Key()), candidates[1..]);
      WithoutKeySet(hs, h.Key());
      KeySetCons(h, candidates[1..]);
      KeySetCons(h, rest);
      assert candidates == [h] + candidates[1..];
      if h.Key() in KeySet(hs) {
        assert Removable(hs, candidates) == [h] + rest;
        DistinctCons(h, rest);
      } else {
        assert Removable(hs, candidates) == rest;
      }
    }
  }

  lemma DistinctCons(h: Holder, hs: seq<Holder>)
    requires DistinctKeys(hs) && h.Key() !in KeySet(hs)
    ensures DistinctKeys([h] + hs)
  {
    forall x | x in hs
      ensures x.Key() != h.Key()
    {
    }
  }

  function Keys(hs: seq<Holder>): seq<string> {
    seq(|hs|, i requires 0 <= i < |hs| => hs[i].Key())
  }

  lemma KeySetCons(h: Holder, hs: seq<Holder>)
    ensures KeySet([h] + hs) == KeySet(hs) + {h.Key()}
  {
    assert forall x :: x in [h] + hs <==> x in hs || x == h;
    forall k | k in KeySet(hs) + {h.Key()}
      ensures k in KeySet([h] + hs)
    {
      var x :| (x in hs || x == h) && x.Key() == k;
      assert x in [h] + hs;
    }
  }

  lemma WithoutKeySet(hs: seq<Holder>, key: string)
    ensures KeySet(Without(hs, key)) == KeySet(hs) - {key}
  {
    forall k | k in KeySet(hs) && k != key
      ensures k in KeySet(Without(hs, key))
    {
      var x :| x in hs && x.Key() == k;
      assert x in Without(hs, key);
    }
  }
}

/**
 Admission to a hold set: the two conflict policies, the in-memory state
 changes that the compare-and-swap loop commits, and what each of them keeps.
 */
module Admission {
  import opened Options
  import opened HoldSet
  import opened Sets

  /** A Repository access Lease or a Worktree. */
  datatype Policy = RepositoryPolicy | WorktreePolicy

  /** Two modes that different holders may have at the same time. */
  predicate Compatible(policy: Policy, a: Mode, b: Mode) {
    match policy
    case RepositoryPolicy => a == b && a != WRITE
    case WorktreePolicy => a != WRITE || b != WRITE
  }

  predicate Blocks(policy: Policy, existing: Mode, candidate: Mode) {
    match policy
    case RepositoryPolicy => candidate == WRITE || existing != candidate
    case WorktreePolicy => candidate == WRITE && existing == WRITE
  }

  function Conflicts(policy: Policy, existing: seq<Holder>, candidate: Holder): (r: seq<Holder>)
    ensures forall h :: h in r <==> h in existing && !Compatible(policy, h.mode, candidate.mode)
  {
    if existing == [] then []
    else
      assert forall h :: h in existing <==> h == existing[0] || h in existing[1..];
      var rest := Conflicts(policy, existing[1..], candidate);
      if Blocks(policy, existing[0].mode, candidate.mode) then [existing[0]] + rest else rest
  }

  /** repositoryaccess.Conflicts: writers are exclusive, modes never mix. */
  method RepositoryConflicts(existing: seq<Holder>, candidate: Holder) returns (blocking: seq<Holder>)
    ensures blocking == Conflicts(RepositoryPolicy, existing, candidate)
  {
    blocking := [];
    for i := 0 to |existing|
      invariant blocking + Conflicts(RepositoryPolicy, existing[i..], candidate)
             == Conflicts(RepositoryPolicy, existing, candidate)
    {
      assert existing[i..][1..] == existing[i + 1..];
      if candidate.mode == WRITE || existing[i].mode != candidate.mode {
        blocking := blocking + [existing[i]];
      }
    }
  }

  /** worktreeownership.Conflicts: any number of readers, at most one writer. */
  method WorktreeConflicts(existing: seq<Holder>, candidate: Holder) returns (blocking: seq<Holder>)
    ensures blocking == Conflicts(WorktreePolicy, existing, candidate)
  {
    if candidate.mode != WRITE {
      assert forall h :: h !in Conflicts(WorktreePolicy, existing, candidate);
      NoMembers(Conflicts(WorktreePolicy, existing, candidate));
      return [];
    }
    blocking := [];
    for i := 0 to |existing|
      invariant blocking + Conflicts(WorktreePolicy, existing[i..], candidate)
             == Conflicts(WorktreePolicy, existing, candidate)
    {
      assert existing[i..][1..] == existing[i + 1..];
      if existing[i].mode == WRITE {
        blocking := blocking + [existing[i]];
      }
    }
  }

  lemma NoMembers(hs: seq<Holder>)
    requires forall h :: h !in hs
    ensures hs == []
  {
    if |hs| > 0 {
      HeadIsMember(hs);
      assert false;
    }
  }

  // ---- what the policies promise ---------------------------------------

  /** Every two holders of the set may coexist. */
  predicate Allowed(policy: Policy, m: map<string, Holder>) {
    forall a, b :: a in m && b in m && a != b ==> Compatible(policy, m[a].mode, m[b].mode)
  }

  /** The stored list is strictly sorted and its holders may coexist. */
  predicate Good(policy: Policy, s: State) {
    SortedByKey(s.holders) && Allowed(policy, View(s.holders))
  }

  /** A Worktree set is allowed exactly when it has at most one writer. */
  lemma WorktreeAllowsOneWriter(m: map<string, Holder>)
    ensures Allowed(WorktreePolicy, m)
       <==> |set k | k in m && m[k].mode == WRITE| <= 1
  {
    var writers := set k | k in m && m[k].mode == WRITE;
    if Allowed(WorktreePolicy, m) {
      if a :| a in writers {
        assert writers == {a};
      }
    } else {
      var a, b :| a in m && b in m && a != b && !Compatible(WorktreePolicy, m[a].mode, m[b].mode);
      assert {a, b} <= writers;
      SubsetSize({a, b}, writers);
    }
  }

  predicate AllInMode(m: map<string, Holder>, mode: Mode) {
    forall k :: k in m ==> m[k].mode == mode
  }

  /** A Repository set is empty, one lone writer, or non-writers in one mode. */
  lemma RepositoryAllowsOneMode(m: map<string, Holder>)
    ensures Allowed(RepositoryPolicy, m)
       <==> |m| <= 1 || exists mode :: mode != WRITE && AllInMode(m, mode)
  {
    if Allowed(RepositoryPolicy, m) {
      if a, b :| a in m && b in m && a != b {
        assert m[a].mode != WRITE && AllInMode(m, m[a].mode);
      } else {
        if a :| a in m {
          assert m.Keys == {a};
        } else {
          assert m.Keys == {};
        }
      }
    } else {
      var a, b :| a in m && b in m && a != b && !Compatible(RepositoryPolicy, m[a].mode, m[b].mode);
      assert {a, b} <= m.Keys;
      SubsetSize({a, b}, m.Keys);
    }
  }

  // ---- admission -------------------------------------------------------

  datatype Result = Result(admitted: bool, held: bool, closed: bool, conflicts: seq<Holder>)

  const NOTHING := Result(false, false, false, [])

  /** What one change callback reports and leaves in memory. */
  datatype Change = Change(changed: bool, result: Result, state: State)

  predicate Holds(s: State, key: string, mode: Mode) {
    var existing := Find(s.holders, key);
    existing.Some? && existing.value.mode == mode
  }

  function Admit(s: State, candidate: Holder, policy: Policy, now: nat): Change {
    if Holds(s, candidate.Key(), candidate.mode) then
      Change(false, Result(!s.closed, true, s.closed, []), s)
    else if s.closed then
      Change(false, Result(false, false, true, []), s)
    else
      var blocking := Conflicts(policy, Without(s.holders, candidate.Key()), candidate);
      if |blocking| > 0 then
        Change(false, Result(false, false, false, blocking), s)
      else
        Change(true, Result(true, false, false, []), s.(holders := Put(s.holders, candidate, now)))
  }

  /** MountAccess.Retain: release, or downgrade a writer to a reader. */
  function Retain(s: State, key: string, kept: bool, now: nat): Change {
    var existing := Find(s.holders, key);
    if existing.None? then
      Change(false, NOTHING, s)
    else if !kept then
      Change(true, NOTHING, s.(holders := Without(s.holders, key)))
    else if existing.value.mode == WRITE then
      Change(true, NOTHING, s.(holders := Put(s.holders, existing.value.(mode := READ), now)))
    else
      Change(false, NOTHING, s)
  }

  /** importLegacyWriter: records an existing writer and ignores the fence. */
  function ImportWriter(s: State, holder: Holder, now: nat): Change {
    if Holds(s, holder.Key(), WRITE) then
      Change(false, NOTHING.(held := true), s)
    else if |Conflicts(WorktreePolicy, Without(s.holders, holder.Key()), holder)| > 0 then
      Change(false, NOTHING, s)
    else
      Change(true, NOTHING.(held := true), s.(holders := Put(s.holders, holder, now)))
  }

  function WithoutAll(hs: seq<Holder>, keys: seq<string>): seq<Holder>
    decreases |keys|
  {
    if keys == [] then hs else WithoutAll(Without(hs, keys[0]), keys[1..])
  }

  function KeySeqSet(keys: seq<string>): set<string> {
    set k | k in keys
  }

  // ---- what every change keeps -----------------------------------------

  /** Two hold sets agree on every key but one. */
  ghost predicate SameElsewhere(m: map<string, Holder>, m': map<string, Holder>, key: string) {
    forall k :: k != key ==> (k in m <==> k in m') && (k in m ==> m[k] == m'[k])
  }

  /** No holder other than key excludes mode. */
  predicate Unopposed(policy: Policy, m: map<string, Holder>, key: string, mode: Mode) {
    forall k :: k in m && k != key ==> Compatible(policy, m[k].mode, mode)
  }

  lemma NoConflictsIffUnopposed(s: State, c: Holder, policy: Policy)
    requires DistinctKeys(s.holders)
    ensures |Conflicts(policy, Without(s.holders, c.Key()), c)| == 0
       <==> Unopposed(policy, View(s.holders), c.Key(), c.mode)
  {
    var m := View(s.holders);
    var blocking := Conflicts(policy, Without(s.holders, c.Key()), c);
    if |blocking| > 0 {
      HeadIsMember(blocking);
      FindUnique(s.holders, blocking[0]);
      assert m[blocking[0].Key()] == blocking[0];
    } else {
      forall k | k in m && k != c.Key()
        ensures Compatible(policy, m[k].mode, c.mode)
      {
        assert m[k] !in blocking;
      }
    }
  }

  lemma PutAllowed(s: State, h: Holder, policy: Policy, now: nat)
    requires Good(policy, s)
    requires Unopposed(policy, View(s.holders), h.Key(), h.mode)
    ensures Good(policy, s.(holders := Put(s.holders, h, now)))
    ensures SameElsewhere(View(s.holders), View(Put(s.holders, h, now)), h.Key())
    ensures Find(Put(s.holders, h, now), h.Key()) == Some(Stamp(s.holders, h, now))
  {
    SortedIsDistinct(s.holders);
    PutView(s.holders, h, now);
    var m, m' := View(s.holders), View(Put(s.holders, h, now));
    assert m'[h.Key()] == Stamp(s.holders, h, now);
    forall a, b | a in m' && b in m' && a != b
      ensures Compatible(policy, m'[a].mode, m'[b].mode)
    {
      assert a != h.Key() ==> a in m && m[a] == m'[a];
      assert b != h.Key() ==> b in m && m[b] == m'[b];
    }
  }

  /**
   What an admission decision must be: a candidate is admitted iff the set is
   open and either it already holds its mode or no other holder excludes it. An
   admitted candidate is in the set with its mode, only its own key changes, the
   policy survives, and nothing is written unless a holder is added or changes
   mode.
   */
  ghost predicate AdmissionSpec(s: State, c: Holder, policy: Policy, r: Change) {
    && Good(policy, r.state)
    && r.state.closed == s.closed
    && SameElsewhere(View(s.holders), View(r.state.holders), c.Key())
    && (r.result.held <==> Holds(s, c.Key(), c.mode))
    && (r.result.admitted <==>
          !s.closed && (r.result.held || Unopposed(policy, View(s.holders), c.Key(), c.mode)))
    && (r.result.admitted ==> Holds(r.state, c.Key(), c.mode))
    && (r.changed <==> r.result.admitted && !r.result.held)
    && (!r.changed ==> r.state == s)
  }

  lemma AdmitExact(s: State, c: Holder, policy: Policy, now: nat)
    requires Good(policy, s)
    ensures AdmissionSpec(s, c, policy, Admit(s, c, policy, now))
  {
    SortedIsDistinct(s.holders);
    NoConflictsIffUnopposed(s, c, policy);
    if !s.closed && !Holds(s, c.Key(), c.mode) && Unopposed(policy, View(s.holders), c.Key(), c.mode) {
      WrittenSpec(s, c, policy, now);
    } else {
      var r := Admit(s, c, policy, now);
      assert r.state == s && !r.changed;
    }
  }

  /** The admission that writes. */
  lemma WrittenSpec(s: State, c: Holder, policy: Policy, now: nat)
    requires Good(policy, s) && !s.closed && !Holds(s, c.Key(), c.mode)
    requires Unopposed(policy, View(s.holders), c.Key(), c.mode)
    ensures
      var written := s.(holders := Put(s.holders, c, now));
      AdmissionSpec(s, c, policy, Change(true, Result(true, false, false, []), written))
  {
    PutAllowed(s, c, policy, now);
  }

  lemma RemoveGood(s: State, key: string, policy: Policy)
    requires Good(policy, s)
    ensures Good(policy, s.(holders := Without(s.holders, key)))
    ensures View(Without(s.holders, key)) == View(s.holders) - {key}
  {
    WithoutKeepsSorted(s.holders, key);
    WithoutView(s.holders, key);
  }

  lemma {:induction false} RemoveAllSorted(hs: seq<Holder>, keys: seq<string>)
    requires SortedByKey(hs)
    ensures SortedByKey(WithoutAll(hs, keys))
    decreases |keys|
  {
    if keys != [] {
      WithoutKeepsSorted(hs, keys[0]);
      RemoveAllSorted(Without(hs, keys[0]), keys[1..]);
    }
  }

  lemma {:induction false} RemoveAllView(hs: seq<Holder>, keys: seq<string>)
    ensures View(WithoutAll(hs, keys)) == View(hs) - KeySeqSet(keys)
    decreases |keys|
  {
    if keys == [] {
      assert View(hs) - KeySeqSet(keys) == View(hs);
    } else {
      WithoutView(hs, keys[0]);
      RemoveAllView(Without(hs, keys[0]), keys[1..]);
      MinusTwice(View(hs), keys);
    }
  }

  lemma MinusTwice(m: map<string, Holder>, keys: seq<string>)
    requires keys != []
    ensures m - {keys[0]} - KeySeqSet(keys[1..]) == m - KeySeqSet(keys)
  {
    assert KeySeqSet(keys) == {keys[0]} + KeySeqSet(keys[1..]);
  }

  /** Removing any keys keeps the order and the policy, and only those keys go. */
  lemma RemoveAllGood(s: State, keys: seq<string>, policy: Policy)
    requires Good(policy, s)
    ensures Good(policy, s.(holders := WithoutAll(s.holders, keys)))
    ensures View(WithoutAll(s.holders, keys)) == View(s.holders) - KeySeqSet(keys)
  {
    RemoveAllSorted(s.holders, keys);
    RemoveAllView(s.holders, keys);
  }

  /** Retain never upgrades and never adds: it drops or downgrades one key. */
  lemma RetainExact(s: State, key: string, kept: bool, now: nat)
    requires Good(WorktreePolicy, s)
    ensures var r := Retain(s, key, kept, now);
      && Good(WorktreePolicy, r.state)
      && r.state.closed == s.closed
      && SameElsewhere(View(s.holders), View(r.state.holders), key)
      && (key in View(r.state.holders) <==> key in View(s.holders) && kept)
      && (key in View(r.state.holders) ==>
            var before, after := View(s.holders)[key], View(r.state.holders)[key];
            && after == before.(mode := after.mode, since := after.since)
            && after.mode == (if before.mode == WRITE then READ else before.mode)
            && (before.since != 0 ==> after.since == before.since))
      && (!r.changed ==> r.state == s)
  {
    SortedIsDistinct(s.holders);
    var existing := Find(s.holders, key);
    if existing.Some? {
      if !kept {
        RemoveGood(s, key, WorktreePolicy);
      } else if existing.value.mode == WRITE {
        PutAllowed(s, existing.value.(mode := READ), WorktreePolicy, now);
      }
    }
  }

  /** An import adds at most its own writer, and never beside another writer. */
  lemma ImportExact(s: State, h: Holder, now: nat)
    requires Good(WorktreePolicy, s) && h.mode == WRITE
    ensures var r := ImportWriter(s, h, now);
      && Good(WorktreePolicy, r.state)
      && r.state.closed == s.closed
      && SameElsewhere(View(s.holders), View(r.state.holders), h.Key())
      && (r.result.held <==> Unopposed(WorktreePolicy, View(s.holders), h.Key(), WRITE))
      && (r.result.held <==> Holds(r.state, h.Key(), WRITE))
      && (!r.changed ==> r.state == s)
  {
    SortedIsDistinct(s.holders);
    NoConflictsIffUnopposed(s, h, WorktreePolicy);
    var m := View(s.holders);
    if Holds(s, h.Key(), WRITE) {
      assert m[h.Key()].mode == WRITE;
    }
    if Unopposed(WorktreePolicy, m, h.Key(), WRITE) {
      PutAllowed(s, h, WorktreePolicy, now);
    }
  }
}

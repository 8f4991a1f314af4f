/**
 What every run keeps of one hold set: its conflict policy, and the permanence
 of the Closed fence. Both are proved for the sequential log, which
 CompareAndSwap.Linearizable shows every interleaving to equal.
 */
module Fence {
  import opened Options
  import opened HoldSet
  import opened Admission
  import opened CompareAndSwap

  /** The operations that a Repository gate or a Worktree performs. */
  predicate Fits(op: Operation, policy: Policy) {
    match op
    case Acquire(_, p) => p == policy
    case AdmitMount(_, _, _) => policy.WorktreePolicy?
    case RetainMount(_, _) => policy.WorktreePolicy?
    case ImportLegacy(h) => policy.WorktreePolicy? && h.mode == WRITE
    case _ => true
  }

  predicate Conforms(log: seq<Event>, policy: Policy) {
    forall i :: 0 <= i < |log| && log[i].Commit? ==> Fits(log[i].request.operation, policy)
  }

  predicate GoodObject(policy: Policy, store: Option<Object>) {
    store.Some? ==> Good(policy, store.value.state)
  }

  lemma MountKeepsPolicy(s: State, closed: bool, c: Holder, now: nat)
    requires Good(WorktreePolicy, s)
    ensures var r := Admit(s.(closed := closed), c, WorktreePolicy, now);
      Good(WorktreePolicy, s.(holders := r.state.holders))
  {
    AdmitExact(s.(closed := closed), c, WorktreePolicy, now);
  }

  lemma DecideKeepsPolicy(op: Operation, obj: Option<Object>, now: nat, policy: Policy)
    requires Fits(op, policy) && GoodObject(policy, obj)
    ensures var d := Decide(op, obj, now); d.Some? ==> Good(policy, d.value.state)
  {
    var s := if obj.Some? then obj.value.state else EMPTY;
    assert Good(policy, s);
    match op
    case Acquire(c, p) => AdmitExact(s, c, p, now);
    case AdmitMount(c, _, _) =>
      if obj.Some? {
        MountKeepsPolicy(s, s.closed || obj.value.deleting, c, now);
      }
    case Release(key) => RemoveGood(s, key, policy);
    case Close =>
    case RemoveStale(keys) => RemoveAllGood(s, keys, policy);
    case RetainMount(key, kept) => RetainExact(s, key, kept, now);
    case ImportLegacy(h) => ImportExact(s, h, now);
  }

  lemma EventKeepsPolicy(store: Option<Object>, e: Event, version: nat, policy: Policy)
    requires GoodObject(policy, store) && (e.Commit? ==> Fits(e.request.operation, policy))
    ensures GoodObject(policy, Exec(store, e, version))
  {
    if e.Commit? {
      var r := e.request;
      DecideKeepsPolicy(r.operation, Visible(r.target, store), r.now, policy);
    }
  }

  /**
   At every position of every log the holders may coexist: a Worktree has at
   most one writer, a Repository is empty, has one lone writer, or non-writers
   in one mode; and the list is strictly sorted by key.
   */
  lemma {:induction false} PolicyHolds(init: Option<Object>, log: seq<Event>, policy: Policy)
    requires GoodObject(policy, init) && Conforms(log, policy)
    ensures GoodObject(policy, Replay(init, log))
    decreases |log|
  {
    if log != [] {
      PolicyHolds(init, log[..|log| - 1], policy);
      EventKeepsPolicy(Replay(init, log[..|log| - 1]), log[|log| - 1], |log|, policy);
    }
  }

  // ---- the fence -------------------------------------------------------

  /** The closed set s' grew out of the closed set s without admitting anyone. */
  ghost predicate Fenced(s: State, s': State, imported: set<string>) {
    && s'.closed
    && forall k :: k in View(s'.holders) && k !in imported ==>
         && k in View(s.holders)
         && (View(s'.holders)[k].mode == View(s.holders)[k].mode || View(s'.holders)[k].mode == READ)
  }

  function ImportedKey(e: Event): set<string> {
    if e.Commit? && e.request.operation.ImportLegacy? then {e.request.operation.writer.Key()} else {}
  }

  function Imported(log: seq<Event>): set<string> {
    if log == [] then {} else Imported(log[..|log| - 1]) + ImportedKey(log[|log| - 1])
  }

  lemma FencedStep(a: State, b: State, c: State, more: set<string>, one: set<string>)
    requires Fenced(a, b, more) && Fenced(b, c, one)
    ensures Fenced(a, c, more + one)
  {
    forall k | k in View(c.holders) && k !in more + one
      ensures k in View(a.holders)
      ensures View(c.holders)[k].mode == View(a.holders)[k].mode || View(c.holders)[k].mode == READ
    {
      assert k in View(b.holders);
    }
  }

  /** No operation of a closed set adds a key, upgrades a mode, or reopens it. */
  lemma ClosedStaysFenced(op: Operation, obj: Object, now: nat, policy: Policy)
    requires Fits(op, policy) && Good(policy, obj.state) && obj.state.closed
    ensures var d := Decide(op, Some(obj), now); d.Some? ==>
      Fenced(obj.state, d.value.state, if op.ImportLegacy? then {op.writer.Key()} else {})
  {
    var s := obj.state;
    match op
    case Acquire(c, p) => AdmitExact(s, c, p, now);
    case AdmitMount(c, _, _) =>
      AdmitExact(s.(closed := s.closed || obj.deleting), c, WorktreePolicy, now);
    case Release(key) => RemoveGood(s, key, policy);
    case Close =>
    case RemoveStale(keys) => RemoveAllGood(s, keys, policy);
    case RetainMount(key, kept) => RetainExact(s, key, kept, now);
    case ImportLegacy(h) => ImportExact(s, h, now);
  }

  lemma EventStaysFenced(store: Option<Object>, e: Event, version: nat, policy: Policy)
    requires store.Some? && Good(policy, store.value.state) && store.value.state.closed
    requires e.Commit? ==> Fits(e.request.operation, policy)
    requires Exec(store, e, version).Some?
    ensures Exec(store, e, version).value.uid == store.value.uid
    ensures Fenced(store.value.state, Exec(store, e, version).value.state, ImportedKey(e))
  {
    if e.Commit? {
      ClosedStaysFenced(e.request.operation, store.value, e.request.now, policy);
      ExecCommit(store, e.request, version);
    }
    FencedSelf(store.value.state, ImportedKey(e));
  }

  lemma FencedSelf(s: State, imported: set<string>)
    requires s.closed
    ensures Fenced(s, s, imported)
  {
  }

  /** A committed request leaves the object alone or stores what it decided on it. */
  lemma ExecCommit(store: Option<Object>, r: Request, version: nat)
    requires store.Some?
    ensures Exec(store, Commit(r), version).Some?
    ensures Exec(store, Commit(r), version).value.uid == store.value.uid
    ensures Exec(store, Commit(r), version).value.state == store.value.state ||
      (Decide(r.operation, store, r.now).Some? &&
       Exec(store, Commit(r), version).value.state == Decide(r.operation, store, r.now).value.state)
  {
  }

  lemma OneMoreEvent(a: State, store: Option<Object>, e: Event, version: nat, policy: Policy, more: set<string>)
    requires store.Some? && Good(policy, store.value.state) && Fenced(a, store.value.state, more)
    requires e.Commit? ==> Fits(e.request.operation, policy)
    requires Exec(store, e, version).Some?
    ensures Fenced(a, Exec(store, e, version).value.state, more + ImportedKey(e))
  {
    EventStaysFenced(store, e, version, policy);
    FencedStep(a, store.value.state, Exec(store, e, version).value.state, more, ImportedKey(e));
  }

  lemma ImportedSnoc(log: seq<Event>, i: nat)
    requires i < |log|
    ensures Imported(log[i..]) == Imported(log[..|log| - 1][i..]) + ImportedKey(log[|log| - 1])
  {
    assert log[i..][..|log[i..]| - 1] == log[..|log| - 1][i..];
  }

  /** A uid names one uninterrupted life of the object. */
  lemma SameIncarnation(init: Option<Object>, log: seq<Event>, uid: nat)
    requires Fresh(init) && log != []
    requires Replay(init, log).Some? && Replay(init, log).value.uid == uid < |log|
    ensures var before := Replay(init, log[..|log| - 1]); before.Some? && before.value.uid == uid
  {
  }

  /**
   The fence is permanent: once the set of an incarnation is closed, at every
   later position of that incarnation it is closed, every holder that was not
   imported from a legacy Lease already held then, and no mode was raised.
   */
  lemma {:induction false} FenceIsPermanent(init: Option<Object>, log: seq<Event>, i: nat, policy: Policy)
    requires Fresh(init) && GoodObject(policy, init) && Conforms(log, policy) && i <= |log|
    requires At(init, log, i).Some? && At(init, log, i).value.state.closed
    requires Replay(init, log).Some? && Replay(init, log).value.uid == At(init, log, i).value.uid
    ensures Fenced(At(init, log, i).value.state, Replay(init, log).value.state, Imported(log[i..]))
    decreases |log|
  {
    if i == |log| {
      AtEnd(init, log);
    } else {
      var shorter, last := log[..|log| - 1], log[|log| - 1];
      assert shorter[..i] == log[..i];
      VersionIsPosition(init, log[..i]);
      SameIncarnation(init, log, At(init, log, i).value.uid);
      FenceIsPermanent(init, shorter, i, policy);
      PolicyHolds(init, shorter, policy);
      ImportedSnoc(log, i);
      OneMoreEvent(At(init, log, i).value.state, Replay(init, shorter), last, |log|, policy, Imported(shorter[i..]));
    }
  }

  // ---- runs ------------------------------------------------------------

  predicate StepsConform(steps: seq<Step>, policy: Policy) {
    forall i :: 0 <= i < |steps| && steps[i].Load? ==> Fits(steps[i].request.operation, policy)
  }

  /** Whatever clients load, hold and commit are conforming requests. */
  predicate WorldConforms(w: World, policy: Policy) {
    && Conforms(w.log, policy)
    && forall c :: c in w.clients && w.clients[c].Loaded? ==> Fits(w.clients[c].request.operation, policy)
  }

  lemma {:induction false} RunsConform(init: Option<Object>, steps: seq<Step>, policy: Policy)
    requires StepsConform(steps, policy)
    ensures WorldConforms(Run(init, steps), policy)
    decreases |steps|
  {
    if steps != [] {
      RunsConform(init, steps[..|steps| - 1], policy);
      NextConforms(Run(init, steps[..|steps| - 1]), steps[|steps| - 1], policy);
    }
  }

  lemma NextConforms(w: World, step: Step, policy: Policy)
    requires WorldConforms(w, policy)
    requires step.Load? ==> Fits(step.request.operation, policy)
    ensures WorldConforms(Next(w, step), policy)
  {
    match step
    case Load(_, _) =>
    case Save(c, lost) => SaveConforms(w, c, lost, policy);
    case Other(e) => LogConforms(w.log, e, policy);
  }

  lemma LogConforms(log: seq<Event>, e: Event, policy: Policy)
    requires Conforms(log, policy)
    ensures (e.Commit? ==> Fits(e.request.operation, policy)) ==> Conforms(log + [e], policy)
  {
  }

  lemma SaveConforms(w: World, c: nat, lost: bool, policy: Policy)
    requires WorldConforms(w, policy)
    ensures WorldConforms(SaveStep(w, c, lost), policy)
  {
    if PhaseOf(w, c).Loaded? {
      LogConforms(w.log, Commit(PhaseOf(w, c).request), policy);
    }
  }

  /** In every reachable state the stored hold set satisfies its policy. */
  lemma ReachableSetsObeyPolicy(init: Option<Object>, steps: seq<Step>, policy: Policy)
    requires Fresh(init) && GoodObject(policy, init) && StepsConform(steps, policy)
    ensures GoodObject(policy, Run(init, steps).store)
  {
    Linearizable(init, steps);
    RunsConform(init, steps, policy);
    PolicyHolds(init, Run(init, steps).log, policy);
  }

  /** The incarnation and position at which a finished Close took effect. */
  function ClosePosition(p: Phase): nat
    requires p.Returned?
  {
    if p.saved then p.at + 1 else p.at
  }

  /** What a decided Close says about the object it was decided on. */
  lemma CloseDecides(store: Option<Object>, r: Request, change: Change, version: nat)
    requires r.operation == Close && Decide(Close, Visible(r.target, store), r.now) == Some(change)
    ensures store.Some? && change.state == store.value.state.(closed := true)
    ensures !change.changed ==> change.state == store.value.state
    ensures change.changed ==>
      Exec(store, Commit(r), version) == Some(store.value.(version := version, state := change.state))
  {
  }

  /** A Close that returned saw a closed set whose holders it reports. */
  lemma CloseReportsTheSet(init: Option<Object>, w: World, c: nat)
    requires Fresh(init) && Inv(init, w) && c in w.clients
    requires w.clients[c].Returned? && w.clients[c].request.operation == Close
    ensures var p := w.clients[c];
      && ClosePosition(p) <= |w.log|
      && At(init, w.log, ClosePosition(p)).Some?
      && At(init, w.log, ClosePosition(p)).value.state == p.change.state
      && p.change.state.closed
  {
    assert PhaseOk(init, w.log, w.clients[c]);
    ReturnedClose(init, w.log, w.clients[c]);
  }

  lemma ReturnedClose(init: Option<Object>, log: seq<Event>, p: Phase)
    requires PhaseOk(init, log, p) && p.Returned? && p.request.operation == Close
    ensures ClosePosition(p) <= |log| && At(init, log, ClosePosition(p)).Some?
    ensures At(init, log, ClosePosition(p)).value.state == p.change.state && p.change.state.closed
  {
    CloseDecides(At(init, log, p.at), p.request, p.change, p.at + 1);
    if p.saved {
      AtNext(init, log, p.at);
    }
  }

  /**
   Once some client's Close returned no holders, the set of that incarnation is
   closed and empty in every later state, as long as no legacy writer is
   imported after that Close.
   */
  lemma EmptyCloseIsFinal(init: Option<Object>, steps: seq<Step>, c: nat, policy: Policy)
    requires Fresh(init) && GoodObject(policy, init) && StepsConform(steps, policy)
    requires var w := Run(init, steps);
      && c in w.clients && w.clients[c].Returned?
      && w.clients[c].request.operation == Close && w.clients[c].change.state.holders == []
    requires var w := Run(init, steps); ClosePosition(w.clients[c]) <= |w.log| ==>
      Imported(w.log[ClosePosition(w.clients[c])..]) == {}
    ensures var w := Run(init, steps);
      && ClosePosition(w.clients[c]) <= |w.log|
      && At(init, w.log, ClosePosition(w.clients[c])).Some?
      && ((w.store.Some? && w.store.value.uid == At(init, w.log, ClosePosition(w.clients[c])).value.uid) ==>
            w.store.value.state == State(true, []))
  {
    var w := Run(init, steps);
    Linearizable(init, steps);
    RunsConform(init, steps, policy);
    CloseReportsTheSet(init, w, c);
    var i := ClosePosition(w.clients[c]);
    if w.store.Some? && w.store.value.uid == At(init, w.log, i).value.uid {
      FenceIsPermanent(init, w.log, i, policy);
      NoKeysNoHolders(w.store.value.state.holders);
    }
  }

  lemma FirstHolderHasKey(hs: seq<Holder>)
    requires |hs| > 0
    ensures hs[0].Key() in View(hs)
  {
    HeadIsMember(hs);
    assert hs[0].Key() in KeySet(hs);
  }

  lemma NoKeysNoHolders(hs: seq<Holder>)
    requires forall k :: k !in View(hs)
    ensures hs == []
  {
    if |hs| > 0 {
      FirstHolderHasKey(hs);
      assert false;
    }
  }
}

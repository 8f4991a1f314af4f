/**
 The load / change / save loop on one versioned object. Any number of clients
 interleave loads, guarded saves, conflicts and lost responses with writers of
 other fields, deletion and re-creation. Every such run is shown to equal the
 committed changes executed one after another.
 */
module CompareAndSwap {
  import opened Options
  import opened HoldSet
  import opened Admission

  /** The parts of a Lease or Worktree that hold-set changes read. */
  datatype Object = Object(uid: nat, version: nat, generation: nat, claim: string, deleting: bool, state: State)

  datatype Operation =
    | Acquire(candidate: Holder, policy: Policy)
    | AdmitMount(mounter: Holder, generation: nat, claim: string)
    | Release(key: string)
    | Close
    | RemoveStale(keys: seq<string>)
    | RetainMount(workspace: string, kept: bool)
    | ImportLegacy(writer: Holder)

  /** A Lease is created on first use; an annotated object never is. */
  datatype Target = LeaseStore | AnnotationStore(pinned: Option<nat>)

  datatype Request = Request(target: Target, operation: Operation, now: nat)

  /** Load: another incarnation than the pinned one is absent. */
  function Visible(target: Target, store: Option<Object>): Option<Object> {
    if target.AnnotationStore? && target.pinned.Some? && store.Some? && store.value.uid != target.pinned.value
    then None else store
  }

  /** The change callback; None is ErrAbsent. */
  function Decide(op: Operation, obj: Option<Object>, now: nat): Option<Change> {
    var s := if obj.Some? then obj.value.state else EMPTY;
    match op
    case Acquire(candidate, policy) =>
      Some(Admit(s, candidate, policy, now))
    case AdmitMount(holder, generation, claim) =>
      if obj.None? then
        Some(Change(false, NOTHING, s))
      else if obj.value.generation != generation || obj.value.claim != claim then
        Some(Change(false, NOTHING.(held := Holds(s, holder.Key(), holder.mode)), s))
      else
        var r := Admit(s.(closed := s.closed || obj.value.deleting), holder, WorktreePolicy, now);
        Some(Change(r.changed, r.result, if r.changed then s.(holders := r.state.holders) else s))
    case Release(key) =>
      Some(Change(key in KeySet(s.holders), NOTHING, s.(holders := Without(s.holders, key))))
    case Close =>
      if obj.None? then None
      else Some(Change(!s.closed, NOTHING, s.(closed := true)))
    case RemoveStale(keys) =>
      var left := WithoutAll(s.holders, keys);
      Some(Change(left != s.holders, NOTHING, s.(holders := left)))
    case RetainMount(key, kept) =>
      Some(Retain(s, key, kept, now))
    case ImportLegacy(holder) =>
      if obj.None? then Some(Change(false, NOTHING, s)) else Some(ImportWriter(s, holder, now))
  }

  // ---- the sequential specification ------------------------------------

  /** One committed change of the object, by this protocol or by others. */
  datatype Event =
    | Commit(request: Request)
    | Touch(generation: nat, claim: string, deleting: bool)
    | Delete
    | Create(generation: nat, claim: string)

  /** The change of a request that can write the stored object, if any. */
  function Write(store: Option<Object>, r: Request): Option<State> {
    var obj := Visible(r.target, store);
    var d := Decide(r.operation, obj, r.now);
    if d.Some? && d.value.changed && (obj.Some? || (r.target.LeaseStore? && store.None?))
    then Some(d.value.state) else None
  }

  function Exec(store: Option<Object>, e: Event, version: nat): Option<Object> {
    match e
    case Commit(r) =>
      var w := Write(store, r);
      if w.None? then store
      else Some(Stored(store, version, w.value))
    case Touch(generation, claim, deleting) =>
      if store.None? then None
      else Some(store.value.(version := version, generation := generation, claim := claim, deleting := deleting))
    case Delete => None
    case Create(generation, claim) =>
      if store.None? then Some(Object(version, version, generation, claim, false, EMPTY)) else store
  }

  /** The events executed one after another. */
  function Replay(init: Option<Object>, log: seq<Event>): Option<Object> {
    if log == [] then init
    else Exec(Replay(init, log[..|log| - 1]), log[|log| - 1], |log|)
  }

  /** The object after the first n events. */
  function At(init: Option<Object>, log: seq<Event>, n: nat): Option<Object>
    requires n <= |log|
  {
    Replay(init, log[..n])
  }

  // ---- the concurrent system -------------------------------------------

  datatype Phase =
    | Idle
    | Loaded(request: Request, snapshot: Option<Object>, at: nat)
    | Returned(request: Request, change: Change, saved: bool, at: nat)
    | Absent
    | Unknown

  datatype World = World(store: Option<Object>, log: seq<Event>, clients: map<nat, Phase>)

  datatype Step =
    | Load(client: nat, request: Request)
    | Save(client: nat, lost: bool)
    | Other(event: Event)

  function PhaseOf(w: World, c: nat): Phase {
    if c in w.clients then w.clients[c] else Idle
  }

  /** Store.Save of a changed state: the resourceVersion or create race decides. */
  predicate SaveSucceeds(target: Target, snapshot: Option<Object>, store: Option<Object>) {
    if snapshot.None? then target.LeaseStore? && store.None?
    else store.Some? && store.value.version == snapshot.value.version
  }

  /** The object a successful save leaves: updated, or a new Lease. */
  function Stored(store: Option<Object>, version: nat, state: State): Object {
    if store.None? then Object(version, version, 0, "", false, state)
    else store.value.(version := version, state := state)
  }

  function SaveStep(w: World, c: nat, lost: bool): World {
    var p := PhaseOf(w, c);
    if !p.Loaded? then w else
    var d := Decide(p.request.operation, p.snapshot, p.request.now);
    if d.None? then
      w.(clients := w.clients[c := Absent])
    else if !d.value.changed then
      w.(clients := w.clients[c := Returned(p.request, d.value, false, p.at)])
    else if p.snapshot.None? && p.request.target.AnnotationStore? then
      w.(clients := w.clients[c := Absent])
    else if !SaveSucceeds(p.request.target, p.snapshot, w.store) then
      w.(clients := w.clients[c := Idle])
    else
      var settled := if lost then Unknown else Returned(p.request, d.value, true, |w.log|);
      World(Some(Stored(w.store, |w.log| + 1, d.value.state)), w.log + [Commit(p.request)], w.clients[c := settled])
  }

  function Next(w: World, step: Step): World {
    match step
    case Load(c, request) =>
      if PhaseOf(w, c).Loaded? then w
      else w.(clients := w.clients[c := Loaded(request, Visible(request.target, w.store), |w.log|)])
    case Save(c, lost) => SaveStep(w, c, lost)
    case Other(e) =>
      if e.Commit? || (e.Create? <==> w.store.Some?) then w
      else w.(store := Exec(w.store, e, |w.log| + 1), log := w.log + [e])
  }

  function Run(init: Option<Object>, steps: seq<Step>): World {
    if steps == [] then World(init, [], map[])
    else Next(Run(init, steps[..|steps| - 1]), steps[|steps| - 1])
  }

  // ---- linearizability -------------------------------------------------

  /** What a client knows is true of the object at one position of the log. */
  predicate PhaseOk(init: Option<Object>, log: seq<Event>, p: Phase) {
    match p
    case Loaded(r, snapshot, at) =>
      at <= |log| && snapshot == Visible(r.target, At(init, log, at))
    case Returned(r, change, saved, at) =>
      && at <= |log|
      && Decide(r.operation, Visible(r.target, At(init, log, at)), r.now) == Some(change)
      && change.changed == saved
      && (saved ==> at < |log| && log[at] == Commit(r))
    case _ => true
  }

  predicate Fresh(init: Option<Object>) {
    init.Some? ==> init.value.uid == 0 && init.value.version == 0
  }

  predicate Inv(init: Option<Object>, w: World) {
    && w.store == Replay(init, w.log)
    && (w.store.Some? ==> w.store.value.version == |w.log|)
    && forall c :: c in w.clients ==> PhaseOk(init, w.log, w.clients[c])
  }

  lemma PhaseOkExtends(init: Option<Object>, log: seq<Event>, e: Event, p: Phase)
    requires PhaseOk(init, log, p)
    ensures PhaseOk(init, log + [e], p)
  {
    if p.Loaded? || p.Returned? {
      assert (log + [e])[..p.at] == log[..p.at];
    }
  }

  lemma {:induction false} VersionIsPosition(init: Option<Object>, log: seq<Event>)
    requires Fresh(init)
    ensures Replay(init, log).Some? ==> Replay(init, log).value.version <= |log| && Replay(init, log).value.uid <= |log|
    decreases |log|
  {
    if log != [] {
      VersionIsPosition(init, log[..|log| - 1]);
    }
  }

  /** The object at every position of a log. */
  function Trace(init: Option<Object>, log: seq<Event>): nat -> Option<Object> {
    (k: nat) => if k <= |log| then At(init, log, k) else None
  }

  /** Two positions with one version hold one object. */
  lemma SameVersionSameObject(init: Option<Object>, log: seq<Event>, i: nat, j: nat)
    requires Fresh(init) && i <= j <= |log|
    requires var f := Trace(init, log); f(i).Some? && f(j).Some? && f(i).value.version == f(j).value.version
    ensures At(init, log, i) == At(init, log, j)
  {
    var f := Trace(init, log);
    forall k: nat | 0 < k <= j ensures Unless(f, k) {
      TraceUnless(init, log, k);
    }
    TraceBound(init, log, i);
    UnchangedSince(f, i, j);
  }

  lemma TraceUnless(init: Option<Object>, log: seq<Event>, k: nat)
    requires 0 < k <= |log|
    ensures Unless(Trace(init, log), k)
  {
    var f := Trace(init, log);
    if f(k).Some? && f(k).value.version != k {
      OlderIsUnchanged(init, log, k);
    }
  }

  lemma TraceBound(init: Option<Object>, log: seq<Event>, k: nat)
    requires Fresh(init) && k <= |log|
    ensures Trace(init, log)(k).Some? ==> Trace(init, log)(k).value.version <= k
  {
    VersionIsPosition(init, log[..k]);
  }

  /** The object at k is new there, gone, or the one before. */
  predicate Unless(f: nat -> Option<Object>, k: nat)
    requires k > 0
  {
    f(k).None? || f(k).value.version == k || f(k) == f(k - 1)
  }

  lemma {:induction false} UnchangedSince(f: nat -> Option<Object>, i: nat, j: nat)
    requires i <= j && (forall k: nat :: 0 < k <= j ==> Unless(f, k))
    requires f(i).Some? && f(j).Some? && f(i).value.version == f(j).value.version <= i
    ensures f(i) == f(j)
    decreases j
  {
    if i < j {
      assert Unless(f, j);
      UnchangedSince(f, i, j - 1);
    }
  }

  /** An object older than its position was left alone by the event before. */
  lemma OlderIsUnchanged(init: Option<Object>, log: seq<Event>, j: nat)
    requires 0 < j <= |log| && At(init, log, j).Some? && At(init, log, j).value.version != j
    ensures At(init, log, j) == At(init, log, j - 1)
  {
    AtNext(init, log, j - 1);
    ExecBumps(At(init, log, j - 1), log[j - 1], j);
  }

  /** An event leaves the object alone, removes it, or gives it the event's version. */
  lemma ExecBumps(store: Option<Object>, e: Event, version: nat)
    ensures var after := Exec(store, e, version);
      after == store || after.None? || after.value.version == version
  {
  }

  lemma ReplaySnoc(init: Option<Object>, log: seq<Event>, e: Event)
    ensures Replay(init, log + [e]) == Exec(Replay(init, log), e, |log| + 1)
  {
    assert (log + [e])[..|log|] == log;
  }

  lemma AtNext(init: Option<Object>, log: seq<Event>, n: nat)
    requires n < |log|
    ensures At(init, log, n + 1) == Exec(At(init, log, n), log[n], n + 1)
  {
    assert log[..n + 1][..n] == log[..n];
  }

  lemma AtEnd(init: Option<Object>, log: seq<Event>)
    ensures At(init, log, |log|) == Replay(init, log)
  {
    assert log[..|log|] == log;
  }

  lemma AllPhasesExtend(init: Option<Object>, w: World, e: Event)
    requires Inv(init, w)
    ensures forall c :: c in w.clients ==> PhaseOk(init, w.log + [e], w.clients[c])
  {
    forall c | c in w.clients
      ensures PhaseOk(init, w.log + [e], w.clients[c])
    {
      PhaseOkExtends(init, w.log, e, w.clients[c]);
    }
  }

  /** A save whose version still matches writes what the snapshot decided. */
  lemma GuardedSaveIsCurrent(init: Option<Object>, w: World, p: Phase)
    requires Fresh(init) && Inv(init, w) && p.Loaded? && PhaseOk(init, w.log, p)
    requires SaveSucceeds(p.request.target, p.snapshot, w.store)
    ensures p.snapshot == Visible(p.request.target, w.store)
  {
    if p.snapshot.Some? {
      VersionIsPosition(init, w.log[..p.at]);
      assert p.at == |w.log|;
      AtEnd(init, w.log);
    }
  }

  /** A committed request becomes the last event, and its client's result is true of it. */
  lemma CommitKeepsInv(init: Option<Object>, w: World, c: nat, r: Request, change: Change, settled: Phase)
    requires Inv(init, w) && change.changed
    requires Decide(r.operation, Visible(r.target, w.store), r.now) == Some(change)
    requires SaveSucceeds(r.target, Visible(r.target, w.store), w.store)
    requires settled == Unknown || settled == Returned(r, change, true, |w.log|)
    ensures Inv(init,
      World(Some(Stored(w.store, |w.log| + 1, change.state)), w.log + [Commit(r)], w.clients[c := settled]))
  {
    CommitExecutes(w.store, r, change, |w.log| + 1);
    ReplaySnoc(init, w.log, Commit(r));
    AllPhasesExtend(init, w, Commit(r));
    SettledOk(init, w.log, r, change);
  }

  lemma CommitExecutes(store: Option<Object>, r: Request, change: Change, version: nat)
    requires Decide(r.operation, Visible(r.target, store), r.now) == Some(change) && change.changed
    requires SaveSucceeds(r.target, Visible(r.target, store), store)
    ensures Exec(store, Commit(r), version) == Some(Stored(store, version, change.state))
  {
    assert Write(store, r) == Some(change.state);
  }

  lemma SettledOk(init: Option<Object>, log: seq<Event>, r: Request, change: Change)
    requires Decide(r.operation, Visible(r.target, Replay(init, log)), r.now) == Some(change) && change.changed
    ensures PhaseOk(init, log + [Commit(r)], Returned(r, change, true, |log|))
  {
    assert (log + [Commit(r)])[..|log|] == log;
  }

  lemma SaveKeepsInv(init: Option<Object>, w: World, c: nat, lost: bool)
    requires Fresh(init) && Inv(init, w)
    ensures Inv(init, SaveStep(w, c, lost))
  {
    var p := PhaseOf(w, c);
    if p.Loaded? {
      var d := Decide(p.request.operation, p.snapshot, p.request.now);
      if d.Some? && d.value.changed && SaveSucceeds(p.request.target, p.snapshot, w.store) {
        var settled := if lost then Unknown else Returned(p.request, d.value, true, |w.log|);
        GuardedSaveIsCurrent(init, w, p);
        CommitKeepsInv(init, w, c, p.request, d.value, settled);
      }
    }
  }

  lemma NextKeepsInv(init: Option<Object>, w: World, step: Step)
    requires Fresh(init) && Inv(init, w)
    ensures Inv(init, Next(w, step))
  {
    match step
    case Load(c, request) => LoadKeepsInv(init, w, c, request);
    case Save(c, lost) => SaveKeepsInv(init, w, c, lost);
    case Other(e) => OtherKeepsInv(init, w, e);
  }

  lemma LoadKeepsInv(init: Option<Object>, w: World, c: nat, request: Request)
    requires Inv(init, w)
    ensures Inv(init, Next(w, Load(c, request)))
  {
    AtEnd(init, w.log);
  }

  lemma OtherKeepsInv(init: Option<Object>, w: World, e: Event)
    requires Inv(init, w)
    ensures Inv(init, Next(w, Other(e)))
  {
    ReplaySnoc(init, w.log, e);
    AllPhasesExtend(init, w, e);
  }

  /**
   Linearizability. For every interleaving, the stored object is the committed
   changes executed one after another; every write that returned is in that
   order at the position where its decision was taken, and every unchanged
   result is what the change decides on the object it loaded.
   */
  lemma {:induction false} Linearizable(init: Option<Object>, steps: seq<Step>)
    requires Fresh(init)
    ensures Inv(init, Run(init, steps))
    decreases |steps|
  {
    if steps != [] {
      Linearizable(init, steps[..|steps| - 1]);
      NextKeepsInv(init, Run(init, steps[..|steps| - 1]), steps[|steps| - 1]);
    }
  }
}

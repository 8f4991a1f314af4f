/**
 Worktree cleanup against concurrent mount creators. Workspaces and
 WorktreeExecs admit themselves before they create a consumer; the Worktree
 controller imports a legacy writer, sweeps, closes the fence and removes its
 guards (the deletion finalizer and the PVC protection finalizer) last. A
 WorktreeExec has no finalizer, so it may vanish at any moment: with its Pod
 running, or in the middle of the pass that is about to create one. It reads its
 Job through a cache, so it may also end and release its key with the Job there.
 */
module WorktreeCleanup {
  import opened Options
  import opened HoldMap
  import opened Lists = Admission
  import opened Modes = HoldSet

  datatype CreatorPass =
    | Idle
    | Entered
    | AdmitLoaded(version: nat, snapshot: Hold, deleting: bool)
    | Permitted
    | Confirmed
    | Releasing
    | AmendLoaded(version: nat, snapshot: Hold, keep: bool)

  /**
   Whether the owner still exists, or how it vanished: between its admission
   and the start of its Pod (Strayed), with its Pod running under a sweep that
   had already listed the Pods (Unlisted), or at any other moment (Quietly).
   */
  datatype Exit = Present | Quietly | Strayed | Unlisted

  /** A Job whose Pod does not exist yet is Pending; Pod lists show Running ones. */
  datatype Consumer = NoConsumer | Pending | Running

  /**
   A Workspace, with a finalizer, or a WorktreeExec, without. It is blind once a
   pass of it took its Job for lost or never created, as a lagging cache can make
   it do: that pass, or a later one of the ended exec, releases its key.
   */
  datatype Creator =
    Creator(mode: Mode, finalizer: bool, exit: Exit, blind: bool, consumer: Consumer, pass: CreatorPass)

  predicate Live(c: Creator) {
    !c.consumer.NoConsumer?
  }

  datatype Cleanup =
    | Resting
    | ImportLoaded(version: nat, snapshot: Hold, writer: string)
    | Imported(writer: string)
    | Judging(seen: set<string>, stale: set<string>, listed: bool)
    | SweepLoaded(stale: set<string>, version: nat, snapshot: Hold)
    | CloseLoaded(version: nat, snapshot: Hold)
    | Drained
    | NoLegacyWriter
    | NoPods

  /** lease is the holder key of the legacy write Lease while it exists; legacy is its holder for good. */
  datatype World = World(
    holds: Hold,
    version: nat,
    deleting: bool,
    lease: Option<string>,
    legacy: Option<string>,
    creators: map<string, Creator>,
    used: set<string>,
    cleanup: Cleanup,
    guarded: bool)

  datatype Step =
    | NewCreator(key: string, mode: Mode, finalizer: bool)
    | CreatorGone(key: string)
    | ConsumerStops(key: string)
    | Crash(key: string)
    | AdmitStart(key: string)
    | AdmitLoad(key: string)
    | AdmitSave(key: string, lost: bool)
    | Recheck(key: string)
    | Withdraw(key: string)
    | CreateConsumer(key: string)
    | PodStarts(key: string)
    | Forget(key: string)
    | AmendLoad(key: string, keep: bool)
    | AmendSave(key: string)
    | Touch(deleting: bool)
    | LeaseReleased
    | CleanupCrash
    | ImportLoad
    | ImportSave
    | DeleteLease
    | SweepStart
    | Judge(key: string)
    | SweepLoad
    | SweepSave
    | CloseLoad
    | CloseSave
    | CheckLease
    | CheckPods
    | RemoveGuard

  function SetCreator(w: World, key: string, c: Creator): World {
    w.(creators := w.creators[key := c])
  }

  function SaveHolds(w: World, h: Hold): World {
    if h == w.holds then w else w.(holds := h, version := w.version + 1)
  }

  // ---- creators --------------------------------------------------------

  /** The pass has read its owner for admission and not yet created. */
  predicate MidAdmission(p: CreatorPass) {
    p.Entered? || p.AdmitLoaded? || p.Permitted? || p.Confirmed?
  }

  predicate CanCreate(p: CreatorPass) {
    p.Permitted? || p.Confirmed?
  }

  /** The controller's sweep has listed the Pods and not finished judging. */
  predicate Listed(p: Cleanup) {
    p.Judging? && p.listed
  }

  /** A finalizer lets its owner go only when nothing runs; without one nothing holds it. */
  function Vanish(c: Creator, listed: bool): Creator {
    if !c.exit.Present? || (c.finalizer && (Live(c) || !c.pass.Idle?)) then c
    else if MidAdmission(c.pass) || c.consumer.Pending? then c.(exit := Strayed)
    else if c.consumer.Running? && listed then c.(exit := Unlisted)
    else c.(exit := Quietly)
  }

  /** What MountAccess.Admit decides on the loaded Worktree: the fence is Closed or a deletion timestamp. */
  function Decided(key: string, c: Creator): Decision
    requires c.pass.AdmitLoaded?
  {
    var s := c.pass.snapshot;
    HoldMap.Admit(s.(closed := s.closed || c.pass.deleting), key, c.mode, WorktreePolicy)
  }

  /** A creator goes on when it is admitted, or already holds its mode. */
  function AdmitSaveStep(w: World, key: string, c: Creator, lost: bool): World {
    if !c.pass.AdmitLoaded? then w else
    var d := Decided(key, c);
    if !d.changed then SetCreator(w, key, c.(pass := if d.admitted || d.held then Permitted else Idle))
    else if c.pass.version != w.version then SetCreator(w, key, c.(pass := AdmitLoaded(w.version, w.holds, w.deleting)))
    else SetCreator(SaveHolds(w, w.holds.(modes := d.after.modes)), key, c.(pass := if lost then Idle else Permitted))
  }

  /** MountAccess.Release and Retain: drop the key, or downgrade and keep it. */
  function AmendSaveStep(w: World, key: string, c: Creator): World {
    if !c.pass.AmendLoaded? then w
    else if c.pass.version == w.version
    then SetCreator(SaveHolds(w, HoldMap.Retain(c.pass.snapshot, key, c.pass.keep)), key, c.(pass := Idle))
    else SetCreator(w, key, c.(pass := AmendLoaded(w.version, w.holds, c.pass.keep)))
  }

  /**
   A pass after admission reads the Worktree once more: a closed one is given
   up and its key released. A pass that finds its consumer running only verified.
   */
  function RecheckMove(w: World, c: Creator): Creator {
    if !c.pass.Permitted? then c
    else if Live(c) then c.(pass := Idle)
    else if w.holds.closed || w.deleting then c.(pass := Releasing)
    else c.(pass := Confirmed)
  }

  /** A WorktreeExec creates its Job only after the second look; a Workspace creates its Pod. */
  function CreateMove(c: Creator): Creator {
    if !c.pass.Confirmed? && !(c.pass.Permitted? && c.finalizer) then c
    else if Live(c) then c.(pass := Idle)
    else c.(consumer := if c.finalizer then Running else Pending, pass := Idle)
  }

  predicate Forgetful(c: Creator) {
    c.exit.Present? && !c.finalizer && Live(c) && !c.blind && c.pass.Idle?
  }

  /** A pass that does not see its Job ends the exec; releasing its key is next. */
  function ForgetMove(c: Creator): Creator {
    if Forgetful(c) then c.(blind := true, pass := Releasing) else c
  }

  function AmendLoadMove(w: World, c: Creator, keep: bool): Creator {
    if (c.exit.Present? && c.pass.Idle? && (keep || !Live(c) || c.blind)) || (c.pass.Releasing? && !keep)
    then c.(pass := AmendLoaded(w.version, w.holds, keep)) else c
  }

  function Move(w: World, step: Step, c: Creator): Creator {
    match step
    case CreatorGone(_) => Vanish(c, Listed(w.cleanup))
    case ConsumerStops(_) => c.(consumer := NoConsumer, blind := false)
    case Forget(_) => ForgetMove(c)
    case PodStarts(_) => if c.consumer.Pending? then c.(consumer := Running) else c
    case Crash(_) => c.(pass := Idle)
    case AdmitStart(_) => if c.exit.Present? && c.pass.Idle? then c.(pass := Entered) else c
    case AdmitLoad(_) => if c.pass.Entered? then c.(pass := AdmitLoaded(w.version, w.holds, w.deleting)) else c
    case Recheck(_) => RecheckMove(w, c)
    case Withdraw(_) => if CanCreate(c.pass) && !Live(c) then c.(pass := Releasing) else c
    case CreateConsumer(_) => CreateMove(c)
    case AmendLoad(_, keep) => AmendLoadMove(w, c, keep)
    case _ => c
  }

  function CreatorStep(w: World, step: Step, key: string, c: Creator): World {
    match step
    case AdmitSave(_, lost) => AdmitSaveStep(w, key, c, lost)
    case AmendSave(_) => AmendSaveStep(w, key, c)
    case _ => SetCreator(w, key, Move(w, step, c))
  }

  predicate HasCreator(w: World, step: Step) {
    && (|| step.CreatorGone? || step.ConsumerStops? || step.Crash? || step.Forget?
        || step.AdmitStart? || step.AdmitLoad? || step.AdmitSave? || step.Recheck? || step.Withdraw?
        || step.CreateConsumer? || step.PodStarts? || step.AmendLoad? || step.AmendSave?)
    && step.key in w.creators
  }

  // ---- the Worktree controller -----------------------------------------

  predicate OwnerGone(w: World, key: string) {
    key in w.creators ==> !w.creators[key].exit.Present?
  }

  predicate PodsRun(w: World) {
    exists k :: k in w.creators && w.creators[k].consumer.Running?
  }

  /** importLegacyWriter: the writer is recorded first, whatever the fence. */
  function ImportSaveStep(w: World): World {
    if !w.cleanup.ImportLoaded? then w else
    var d := Import(w.cleanup.snapshot, w.cleanup.writer);
    if !d.held || (d.changed && w.cleanup.version != w.version) then w.(cleanup := Resting)
    else SaveHolds(w, if d.changed then d.after else w.holds).(cleanup := Imported(w.cleanup.writer))
  }

  /** holdset.Close: an already closed set is returned as it was loaded. */
  function CloseSaveStep(w: World): World {
    if !w.cleanup.CloseLoaded? then w else
    var next := if w.cleanup.snapshot.modes == map[] then Drained else Resting;
    if w.cleanup.snapshot.closed then w.(cleanup := next)
    else if w.cleanup.version != w.version then w.(cleanup := Resting)
    else SaveHolds(w, w.holds.(closed := true)).(cleanup := next)
  }

  /**
   One holder is judged. The first whose owner is gone makes the sweep list the
   Pods, once; if any runs, nobody is stale, otherwise everybody gone is.
   */
  function JudgeStep(w: World, key: string): World {
    if !w.cleanup.Judging? || key !in w.cleanup.seen || !OwnerGone(w, key) then w
    else if !w.cleanup.listed && PodsRun(w) then w.(cleanup := Resting)
    else w.(cleanup := Judging(w.cleanup.seen, w.cleanup.stale + {key}, true))
  }

  function SweepStep(w: World, step: Step): World {
    match step
    case SweepStart => if w.cleanup.Resting? then w.(cleanup := Judging(w.holds.modes.Keys, {}, false)) else w
    case Judge(key) => JudgeStep(w, key)
    case SweepLoad =>
      if w.cleanup.Judging? then w.(cleanup := SweepLoaded(w.cleanup.stale, w.version, w.holds)) else w
    case SweepSave =>
      if !w.cleanup.SweepLoaded? then w
      else if w.cleanup.version != w.version then w.(cleanup := SweepLoaded(w.cleanup.stale, w.version, w.holds))
      else SaveHolds(w, Drop(w.holds, w.cleanup.stale)).(cleanup := Resting)
    case _ => w
  }

  /** The controller's pass, in the order of its API calls. */
  function CleanupStep(w: World, step: Step): World {
    match step
    case CleanupCrash => w.(cleanup := Resting)
    case ImportLoad =>
      if w.cleanup.Resting? && w.lease.Some? then w.(cleanup := ImportLoaded(w.version, w.holds, w.lease.value)) else w
    case ImportSave => ImportSaveStep(w)
    case DeleteLease => if w.cleanup.Imported? then w.(lease := None, cleanup := Resting) else w
    case CloseLoad => if w.cleanup.Resting? then w.(cleanup := CloseLoaded(w.version, w.holds)) else w
    case CloseSave => CloseSaveStep(w)
    case CheckLease =>
      if w.cleanup.Drained? then w.(cleanup := if w.lease.None? then NoLegacyWriter else Resting) else w
    case CheckPods =>
      if w.cleanup.NoLegacyWriter? then w.(cleanup := if PodsRun(w) then Resting else NoPods) else w
    case RemoveGuard => if w.cleanup.NoPods? then w.(guarded := false, cleanup := Resting) else w
    case _ => SweepStep(w, step)
  }

  /** The consumer of an owner that exists and knows of it. */
  predicate Minded(c: Creator) {
    Live(c) && c.exit.Present? && !c.blind
  }

  /** The Lease stays while its owner minds its consumer; without an owner it is collected. */
  predicate LeaseStays(w: World) {
    w.lease.Some? && w.lease.value in w.creators && Minded(w.creators[w.lease.value])
  }

  function Next(w: World, step: Step): World {
    if HasCreator(w, step) then CreatorStep(w, step, step.key, w.creators[step.key])
    else match step
    case NewCreator(key, mode, finalizer) =>
      if key in w.used then w
      else SetCreator(w, key, Creator(mode, finalizer, Present, false, NoConsumer, Idle)).(used := w.used + {key})
    case Touch(deleting) => w.(version := w.version + 1, deleting := w.deleting || deleting)
    case LeaseReleased => if LeaseStays(w) then w else w.(lease := None)
    case _ => CleanupStep(w, step)
  }

  /** A writer that an older controller admitted: a Workspace or a WorktreeExec. */
  datatype Legacy = Legacy(key: string, finalizer: bool, consumer: Consumer)

  /** An upgraded cluster: one legacy writer may already run under its Lease. */
  function Start(legacy: Option<Legacy>): World {
    match legacy
    case None => World(NOBODY, 0, false, None, None, map[], {}, Resting, true)
    case Some(l) =>
      World(NOBODY, 0, false, Some(l.key), Some(l.key),
            map[l.key := Creator(WRITE, l.finalizer, Present, false, l.consumer, Idle)], {l.key}, Resting, true)
  }

  function RunFrom(w: World, steps: seq<Step>): World
    decreases |steps|
  {
    if steps == [] then w else RunFrom(Next(w, steps[0]), steps[1..])
  }

  function Run(legacy: Option<Legacy>, steps: seq<Step>): World {
    RunFrom(Start(legacy), steps)
  }

  // ---- the invariant ---------------------------------------------------

  predicate SnapshotOk(w: World, at: nat, snapshot: Hold) {
    && at <= w.version && (at == w.version ==> snapshot == w.holds)
    && (snapshot.closed ==> w.holds.closed)
  }

  predicate Dropping(p: CreatorPass) {
    p.Releasing? || (p.AmendLoaded? && !p.keep)
  }

  /** Who runs or may create is in the set, unless it vanished; how it vanished says what is left of that. */
  predicate CreatorCore(c: Creator, inside: bool, leased: bool, legacy: bool) {
    && (c.finalizer ==> c.exit.Present? || (c.exit.Quietly? && !Live(c) && c.pass.Idle?))
    && (MidAdmission(c.pass) || c.consumer.Pending? ==> c.exit.Present? || c.exit.Strayed?)
    && (c.blind ==> !c.finalizer && Live(c))
    && (Minded(c) ==> inside || leased)
    && (Live(c) && c.exit.Quietly? ==> inside || legacy || c.blind)
    && (CanCreate(c.pass) && !c.exit.Strayed? ==> inside)
    && (Dropping(c.pass) && Live(c) ==> c.blind)
  }

  predicate CreatorSnapshot(w: World, key: string, c: Creator) {
    match c.pass
    case AdmitLoaded(at, snapshot, deleting) =>
      && SnapshotOk(w, at, snapshot) && (deleting ==> w.deleting)
      && (!c.exit.Strayed? && key in snapshot.modes ==> key in w.holds.modes)
    case AmendLoaded(at, snapshot, _) => SnapshotOk(w, at, snapshot)
    case _ => true
  }

  predicate CreatorOk(w: World, key: string, c: Creator) {
    CreatorCore(c, key in w.holds.modes, w.lease == Some(key), w.legacy == Some(key)) && CreatorSnapshot(w, key, c)
  }

  /** What a sweep removes: owners that are gone, and no running consumer that the Pod list could show. */
  predicate StaleOk(w: World, stale: set<string>) {
    forall k :: k in stale ==> k in w.used && OwnerGone(w, k) && (k in w.creators ==> Stopped(w.creators[k]))
  }

  predicate Stopped(c: Creator) {
    c.exit.Quietly? ==> !Live(c)
  }

  predicate Empty(w: World) {
    w.holds == Hold(true, map[])
  }

  /** A consumer that its owner minds is recorded. */
  predicate Covered(w: World, key: string) {
    key in w.creators && Minded(w.creators[key]) ==> key in w.holds.modes
  }

  /** Its owner vanished between its admission and the start of its Pod, or forgot it. */
  predicate Astray(c: Creator) {
    c.exit.Strayed? || c.blind
  }

  /** Nobody has a consumer but who is astray. */
  predicate NobodyRuns(w: World) {
    forall k :: k in w.creators && Live(w.creators[k]) ==> Astray(w.creators[k])
  }

  predicate Settled(w: World) {
    Empty(w) && w.lease.None? && NobodyRuns(w)
  }

  predicate CleanupOk(w: World) {
    match w.cleanup
    case Resting => true
    case ImportLoaded(at, snapshot, writer) =>
      && SnapshotOk(w, at, snapshot) && w.guarded && writer in w.used
      && (w.lease.Some? ==> w.lease.value == writer)
      && (writer in snapshot.modes ==> Covered(w, writer))
    case Imported(writer) => w.guarded && (w.lease.Some? ==> w.lease.value == writer) && Covered(w, writer)
    case Judging(seen, stale, listed) =>
      && seen <= w.used && StaleOk(w, stale)
      && (listed ==> forall k :: k in w.creators ==> Stopped(w.creators[k]))
    case SweepLoaded(stale, at, snapshot) => SnapshotOk(w, at, snapshot) && StaleOk(w, stale)
    case CloseLoaded(at, snapshot) =>
      SnapshotOk(w, at, snapshot) && (snapshot == Hold(true, map[]) ==> Empty(w))
    case Drained => Empty(w)
    case NoLegacyWriter => Empty(w) && w.lease.None?
    case NoPods => Settled(w)
  }

  predicate Inv(w: World) {
    && HoldMap.Allowed(WorktreePolicy, w.holds)
    && w.holds.modes.Keys <= w.used && w.creators.Keys <= w.used
    && (w.lease.Some? ==> w.lease == w.legacy)
    && (w.legacy.Some? ==> w.legacy.value in w.used)
    && (forall k :: k in w.creators ==> CreatorOk(w, k, w.creators[k]))
    && CleanupOk(w)
    && (!w.guarded ==> Settled(w))
  }

  // ---- creator steps keep it -------------------------------------------

  ghost predicate SameBut(h: Hold, h': Hold, key: string) {
    && h'.closed == h.closed
    && forall k :: k != key ==> (k in h.modes <==> k in h'.modes) && (k in h.modes ==> h.modes[k] == h'.modes[k])
  }

  /** What a step of one creator, to c with set h, must respect for the controller's sake. */
  predicate Follows(w: World, h: Hold, key: string, c: Creator)
    requires key in w.creators
  {
    var was := w.creators[key];
    && (!was.exit.Present? ==> c.exit == was.exit) && (was.blind && Live(c) ==> c.blind)
    && (Live(c) && !Astray(c) ==> Live(was) || key in h.modes)
    && (Minded(c) && key in w.holds.modes ==> key in h.modes)
    && (Live(c) && c.exit.Quietly? ==> Live(was))
    && (Live(c) && c.exit.Quietly? && Listed(w.cleanup) ==> was.exit.Quietly?)
    && (Empty(w) ==> h == w.holds)
  }

  lemma OtherUndisturbed(w: World, h: Hold, key: string, k: string, c: Creator)
    requires CreatorOk(w, k, c) && SameBut(w.holds, h, key) && k != key
    ensures CreatorOk(SaveHolds(w, h), k, c)
  {
    assert k in h.modes <==> k in w.holds.modes;
  }

  lemma OthersUndisturbed(w: World, h: Hold, key: string, c: Creator)
    requires forall k :: k in w.creators ==> CreatorOk(w, k, w.creators[k])
    requires key in w.creators && SameBut(w.holds, h, key) && CreatorOk(SaveHolds(w, h), key, c)
    ensures
      var w' := SetCreator(SaveHolds(w, h), key, c);
      forall k :: k in w'.creators ==> CreatorOk(w', k, w'.creators[k])
  {
    var v := SaveHolds(w, h);
    var w' := SetCreator(v, key, c);
    forall k | k in w'.creators
      ensures CreatorOk(w', k, w'.creators[k])
    {
      if k != key {
        OtherUndisturbed(w, h, key, k, w.creators[k]);
      }
      SameWorldForCreators(v, w', k, w'.creators[k]);
    }
  }

  /** What a creator's invariant speaks of does not include the other creators. */
  lemma SameWorldForCreators(v: World, w: World, k: string, c: Creator)
    requires v.holds == w.holds && v.version == w.version && v.deleting == w.deleting
    requires v.lease == w.lease && v.legacy == w.legacy && CreatorOk(v, k, c)
    ensures CreatorOk(w, k, c)
  {
  }

  lemma StaleUndisturbed(w: World, h: Hold, key: string, c: Creator, stale: set<string>)
    requires key in w.creators && StaleOk(w, stale) && Follows(w, h, key, c)
    ensures StaleOk(SetCreator(SaveHolds(w, h), key, c), stale)
  {
  }

  lemma RestUndisturbed(w: World, h: Hold, key: string, c: Creator)
    requires Settled(w) && key in w.creators && Follows(w, h, key, c)
    ensures Settled(SetCreator(SaveHolds(w, h), key, c))
  {
  }

  lemma CoverUndisturbed(w: World, h: Hold, key: string, c: Creator, writer: string)
    requires key in w.creators && SameBut(w.holds, h, key) && Follows(w, h, key, c) && Covered(w, writer)
    ensures Covered(SetCreator(SaveHolds(w, h), key, c), writer)
  {
    assert writer != key ==> (writer in h.modes <==> writer in w.holds.modes);
  }

  lemma ImportUndisturbed(w: World, h: Hold, key: string, c: Creator)
    requires CleanupOk(w) && (w.cleanup.ImportLoaded? || w.cleanup.Imported?)
    requires key in w.creators && SameBut(w.holds, h, key) && Follows(w, h, key, c)
    ensures CleanupOk(SetCreator(SaveHolds(w, h), key, c))
  {
    if Covered(w, w.cleanup.writer) {
      CoverUndisturbed(w, h, key, c, w.cleanup.writer);
    }
  }

  lemma SweepUndisturbed(w: World, h: Hold, key: string, c: Creator)
    requires CleanupOk(w) && (w.cleanup.Judging? || w.cleanup.SweepLoaded?)
    requires key in w.creators && SameBut(w.holds, h, key) && Follows(w, h, key, c)
    ensures CleanupOk(SetCreator(SaveHolds(w, h), key, c))
  {
    StaleUndisturbed(w, h, key, c, w.cleanup.stale);
    if Listed(w.cleanup) {
      assert Stopped(w.creators[key]);
    }
  }

  lemma CleanupUndisturbed(w: World, h: Hold, key: string, c: Creator)
    requires CleanupOk(w) && key in w.creators && SameBut(w.holds, h, key) && Follows(w, h, key, c)
    ensures CleanupOk(SetCreator(SaveHolds(w, h), key, c))
  {
    if w.cleanup.ImportLoaded? || w.cleanup.Imported? {
      ImportUndisturbed(w, h, key, c);
    } else if w.cleanup.Judging? || w.cleanup.SweepLoaded? {
      SweepUndisturbed(w, h, key, c);
    } else if w.cleanup.NoPods? {
      RestUndisturbed(w, h, key, c);
    }
  }

  /** A save by one creator changes its key only and nothing others rely on. */
  lemma SaveKeepsInv(w: World, h: Hold, key: string, c: Creator)
    requires Inv(w) && key in w.creators
    requires HoldMap.Allowed(WorktreePolicy, h) && SameBut(w.holds, h, key) && Follows(w, h, key, c)
    requires CreatorOk(SaveHolds(w, h), key, c)
    ensures Inv(SetCreator(SaveHolds(w, h), key, c))
  {
    OthersUndisturbed(w, h, key, c);
    CleanupUndisturbed(w, h, key, c);
    if !w.guarded {
      RestUndisturbed(w, h, key, c);
    }
    forall k | k in h.modes
      ensures k in w.used
    {
      assert k != key ==> k in w.holds.modes;
    }
  }

  lemma CreatorChangeKeepsInv(w: World, key: string, c: Creator)
    requires Inv(w) && key in w.creators && CreatorOk(w, key, c) && Follows(w, w.holds, key, c)
    ensures Inv(SetCreator(w, key, c))
  {
    SaveKeepsInv(w, w.holds, key, c);
  }

  lemma MoveFollows(w: World, key: string, step: Step)
    requires key in w.creators && CreatorOk(w, key, w.creators[key]) && (w.lease.Some? ==> w.lease == w.legacy)
    ensures var c := Move(w, step, w.creators[key]); CreatorOk(w, key, c) && Follows(w, w.holds, key, c)
  {
  }

  lemma MoveKeepsInv(w: World, key: string, step: Step)
    requires Inv(w) && key in w.creators
    ensures Inv(SetCreator(w, key, Move(w, step, w.creators[key])))
  {
    assert CreatorOk(w, key, w.creators[key]);
    MoveFollows(w, key, step);
    CreatorChangeKeepsInv(w, key, Move(w, step, w.creators[key]));
  }

  /** An answer without a write: the key of a present creator is where its snapshot has it. */
  lemma AdmitAnswerKeepsInv(w: World, key: string, pass: CreatorPass)
    requires Inv(w) && key in w.creators && w.creators[key].pass.AdmitLoaded?
    requires pass.Idle? || pass == AdmitLoaded(w.version, w.holds, w.deleting)
      || (pass.Permitted? && key in w.creators[key].pass.snapshot.modes)
    ensures Inv(SetCreator(w, key, w.creators[key].(pass := pass)))
  {
    assert CreatorOk(w, key, w.creators[key]);
    CreatorChangeKeepsInv(w, key, w.creators[key].(pass := pass));
  }

  /** An admission that writes did not find the fence closed at that version. */
  lemma AdmitWriteKeepsInv(w: World, key: string, pass: CreatorPass)
    requires Inv(w) && key in w.creators && w.creators[key].pass.AdmitLoaded? && (pass.Idle? || pass.Permitted?)
    requires w.creators[key].pass.version == w.version && Decided(key, w.creators[key]).changed
    ensures
      var h := w.holds.(modes := Decided(key, w.creators[key]).after.modes);
      Inv(SetCreator(SaveHolds(w, h), key, w.creators[key].(pass := pass)))
  {
    var c := w.creators[key];
    assert CreatorOk(w, key, c);
    var s := c.pass.snapshot;
    AdmitKeeps(s.(closed := s.closed || c.pass.deleting), key, c.mode, WorktreePolicy);
    SaveKeepsInv(w, w.holds.(modes := Decided(key, c).after.modes), key, c.(pass := pass));
  }

  lemma AdmitSaveKeepsInv(w: World, key: string, lost: bool)
    requires Inv(w) && key in w.creators
    ensures Inv(AdmitSaveStep(w, key, w.creators[key], lost))
  {
    var c := w.creators[key];
    if c.pass.AdmitLoaded? {
      var d := Decided(key, c);
      if !d.changed {
        AdmitAnswerKeepsInv(w, key, if d.admitted || d.held then Permitted else Idle);
      } else if c.pass.version != w.version {
        AdmitAnswerKeepsInv(w, key, AdmitLoaded(w.version, w.holds, w.deleting));
      } else {
        AdmitWriteKeepsInv(w, key, if lost then Idle else Permitted);
      }
    } else {
      assert AdmitSaveStep(w, key, c, lost) == w;
    }
  }

  lemma AmendWriteKeepsInv(w: World, key: string)
    requires Inv(w) && key in w.creators && w.creators[key].pass.AmendLoaded?
    requires w.creators[key].pass.version == w.version
    ensures Inv(AmendSaveStep(w, key, w.creators[key]))
  {
    var c := w.creators[key];
    assert CreatorOk(w, key, c);
    RetainKeeps(w.holds, key, c.pass.keep);
    SaveKeepsInv(w, HoldMap.Retain(w.holds, key, c.pass.keep), key, c.(pass := Idle));
  }

  lemma AmendSaveKeepsInv(w: World, key: string)
    requires Inv(w) && key in w.creators
    ensures Inv(AmendSaveStep(w, key, w.creators[key]))
  {
    var c := w.creators[key];
    if !c.pass.AmendLoaded? {
      assert AmendSaveStep(w, key, c) == w;
    } else if c.pass.version == w.version {
      AmendWriteKeepsInv(w, key);
    } else {
      assert CreatorOk(w, key, c);
      CreatorChangeKeepsInv(w, key, c.(pass := AmendLoaded(w.version, w.holds, c.pass.keep)));
    }
  }

  lemma RetainKeeps(h: Hold, key: string, kept: bool)
    requires HoldMap.Allowed(WorktreePolicy, h)
    ensures HoldMap.Allowed(WorktreePolicy, HoldMap.Retain(h, key, kept))
    ensures SameBut(h, HoldMap.Retain(h, key, kept), key)
    ensures h.modes == map[] ==> HoldMap.Retain(h, key, kept) == h
  {
    var after := HoldMap.Retain(h, key, kept);
    forall a, b | a in after.modes && b in after.modes && a != b
      ensures Compatible(WorktreePolicy, after.modes[a], after.modes[b])
    {
      assert Compatible(WorktreePolicy, h.modes[a], h.modes[b]);
    }
    assert h.modes == map[] ==> h.modes - {key} == h.modes;
  }

  lemma CreatorStepKeepsInv(w: World, step: Step, key: string)
    requires Inv(w) && key in w.creators
    ensures Inv(CreatorStep(w, step, key, w.creators[key]))
  {
    if step.AdmitSave? {
      AdmitSaveKeepsInv(w, key, step.lost);
    } else if step.AmendSave? {
      AmendSaveKeepsInv(w, key);
    } else {
      MoveKeepsInv(w, key, step);
      assert CreatorStep(w, step, key, w.creators[key]) == SetCreator(w, key, Move(w, step, w.creators[key]));
    }
  }

  // ---- controller steps keep it ----------------------------------------

  /** Creators survive a controller write that keeps the key of every owner that exists or runs where it is listed. */
  lemma ControllerWriteKeepsInv(w: World, h: Hold, lease: Option<string>, cleanup: Cleanup, guarded: bool)
    requires Inv(w) && HoldMap.Allowed(WorktreePolicy, h) && h.modes.Keys <= w.used
    requires w.holds.closed ==> h.closed
    requires forall k :: k in w.creators && k in w.holds.modes && k !in h.modes ==>
      !w.creators[k].exit.Present? && Stopped(w.creators[k])
    requires lease == w.lease || (lease.None? && forall k :: w.lease == Some(k) ==> Covered(SaveHolds(w, h), k))
    requires var w' := SaveHolds(w, h).(lease := lease, cleanup := cleanup, guarded := guarded);
      CleanupOk(w') && (!guarded ==> Settled(w'))
    ensures Inv(SaveHolds(w, h).(lease := lease, cleanup := cleanup, guarded := guarded))
  {
    var w' := SaveHolds(w, h).(lease := lease, cleanup := cleanup, guarded := guarded);
    forall k | k in w.creators
      ensures CreatorOk(w', k, w.creators[k])
    {
      assert CreatorOk(w, k, w.creators[k]);
      assert w.lease == Some(k) ==> w.legacy == Some(k);
    }
  }

  lemma CleanupChangeKeepsInv(w: World, cleanup: Cleanup)
    requires Inv(w) && CleanupOk(w.(cleanup := cleanup))
    ensures Inv(w.(cleanup := cleanup))
  {
    ControllerWriteKeepsInv(w, w.holds, w.lease, cleanup, w.guarded);
  }

  lemma ImportSaveKeepsInv(w: World)
    requires Inv(w)
    ensures Inv(ImportSaveStep(w))
  {
    if w.cleanup.ImportLoaded? {
      var d := Import(w.cleanup.snapshot, w.cleanup.writer);
      if !d.held || (d.changed && w.cleanup.version != w.version) {
        CleanupChangeKeepsInv(w, Resting);
      } else if d.changed {
        ImportKeeps(w.holds, w.cleanup.writer);
        ControllerWriteKeepsInv(w, d.after, w.lease, Imported(w.cleanup.writer), true);
      } else {
        CleanupChangeKeepsInv(w, Imported(w.cleanup.writer));
      }
    }
  }

  lemma CloseSaveKeepsInv(w: World)
    requires Inv(w)
    ensures Inv(CloseSaveStep(w))
  {
    if w.cleanup.CloseLoaded? {
      var next := if w.cleanup.snapshot.modes == map[] then Drained else Resting;
      if w.cleanup.snapshot.closed {
        CleanupChangeKeepsInv(w, next);
      } else if w.cleanup.version != w.version {
        CleanupChangeKeepsInv(w, Resting);
      } else {
        ControllerWriteKeepsInv(w, w.holds.(closed := true), w.lease, next, w.guarded);
      }
    }
  }

  lemma JudgeKeepsInv(w: World, key: string)
    requires Inv(w)
    ensures Inv(JudgeStep(w, key))
  {
    if !PodsRun(w) {
      NoPodsMeansStopped(w);
    }
    CleanupChangeKeepsInv(w, JudgeStep(w, key).cleanup);
  }

  lemma NoPodsMeansStopped(w: World)
    requires Inv(w) && !PodsRun(w)
    ensures forall k :: k in w.creators ==> Stopped(w.creators[k])
  {
    forall k | k in w.creators ensures Stopped(w.creators[k]) {
      assert CreatorOk(w, k, w.creators[k]);
    }
  }

  lemma SweepSaveKeepsInv(w: World)
    requires Inv(w) && w.cleanup.SweepLoaded? && w.cleanup.version == w.version
    ensures Inv(SaveHolds(w, Drop(w.holds, w.cleanup.stale)).(cleanup := Resting))
  {
    var h := Drop(w.holds, w.cleanup.stale);
    assert w.holds.modes == map[] ==> h.modes == map[];
    ControllerWriteKeepsInv(w, h, w.lease, Resting, w.guarded);
  }

  lemma SweepStepKeepsInv(w: World, step: Step)
    requires Inv(w)
    ensures Inv(SweepStep(w, step))
  {
    match step
    case SweepSave =>
      if w.cleanup.SweepLoaded? {
        if w.cleanup.version != w.version {
          CleanupChangeKeepsInv(w, SweepLoaded(w.cleanup.stale, w.version, w.holds));
        } else {
          SweepSaveKeepsInv(w);
        }
      }
    case SweepStart =>
      if w.cleanup.Resting? {
        CleanupChangeKeepsInv(w, Judging(w.holds.modes.Keys, {}, false));
      }
    case Judge(key) => JudgeKeepsInv(w, key);
    case SweepLoad =>
      if w.cleanup.Judging? {
        CleanupChangeKeepsInv(w, SweepLoaded(w.cleanup.stale, w.version, w.holds));
      }
    case _ =>
  }

  lemma LoadStepsKeepInv(w: World)
    requires Inv(w)
    ensures Inv(CleanupStep(w, CleanupCrash))
    ensures Inv(CleanupStep(w, ImportLoad))
    ensures Inv(CleanupStep(w, CloseLoad))
  {
    CleanupChangeKeepsInv(w, Resting);
    if w.cleanup.Resting? {
      CleanupChangeKeepsInv(w, CloseLoaded(w.version, w.holds));
      if w.lease.Some? {
        ImportLoadKeepsInv(w);
      }
    }
  }

  /** The snapshot is current, so the writer's key in it is its key now. */
  lemma ImportLoadKeepsInv(w: World)
    requires Inv(w) && w.cleanup.Resting? && w.lease.Some?
    ensures Inv(w.(cleanup := ImportLoaded(w.version, w.holds, w.lease.value)))
  {
    CleanupChangeKeepsInv(w, ImportLoaded(w.version, w.holds, w.lease.value));
  }

  lemma DeleteLeaseKeepsInv(w: World)
    requires Inv(w)
    ensures Inv(CleanupStep(w, DeleteLease))
  {
    if w.cleanup.Imported? {
      ControllerWriteKeepsInv(w, w.holds, None, Resting, w.guarded);
    }
  }

  /** Only the Pod list tells about consumers whose owner and key are gone. */
  lemma NoPodsMeansNobody(w: World)
    requires Inv(w) && w.cleanup.NoLegacyWriter? && !PodsRun(w)
    ensures NobodyRuns(w)
  {
    forall k | k in w.creators && Live(w.creators[k]) ensures Astray(w.creators[k]) {
      assert CreatorOk(w, k, w.creators[k]);
    }
  }

  lemma CheckStepsKeepInv(w: World)
    requires Inv(w)
    ensures Inv(CleanupStep(w, CheckLease))
    ensures Inv(CleanupStep(w, CheckPods))
  {
    if w.cleanup.Drained? {
      CleanupChangeKeepsInv(w, if w.lease.None? then NoLegacyWriter else Resting);
    }
    if w.cleanup.NoLegacyWriter? {
      if !PodsRun(w) {
        NoPodsMeansNobody(w);
      }
      CleanupChangeKeepsInv(w, if PodsRun(w) then Resting else NoPods);
    }
  }

  lemma RemoveGuardKeepsInv(w: World)
    requires Inv(w)
    ensures Inv(CleanupStep(w, RemoveGuard))
  {
    if w.cleanup.NoPods? {
      ControllerWriteKeepsInv(w, w.holds, w.lease, Resting, false);
    }
  }

  lemma CleanupStepKeepsInv(w: World, step: Step)
    requires Inv(w)
    ensures Inv(CleanupStep(w, step))
  {
    if step.CleanupCrash? || step.ImportLoad? || step.CloseLoad? {
      LoadStepsKeepInv(w);
    } else if step.CheckLease? || step.CheckPods? {
      CheckStepsKeepInv(w);
    } else if step.RemoveGuard? {
      RemoveGuardKeepsInv(w);
    } else if step.ImportSave? {
      ImportSaveKeepsInv(w);
    } else if step.DeleteLease? {
      DeleteLeaseKeepsInv(w);
    } else if step.CloseSave? {
      CloseSaveKeepsInv(w);
    } else {
      SweepStepKeepsInv(w, step);
      assert CleanupStep(w, step) == SweepStep(w, step);
    }
  }

  // ---- everything else keeps it ----------------------------------------

  lemma NewCreatorKeepsInv(w: World, key: string, mode: Mode, finalizer: bool)
    requires Inv(w) && key !in w.used
    ensures Inv(SetCreator(w, key, Creator(mode, finalizer, Present, false, NoConsumer, Idle)).(used := w.used + {key}))
  {
    var w' := SetCreator(w, key, Creator(mode, finalizer, Present, false, NoConsumer, Idle)).(used := w.used + {key});
    forall k | k in w'.creators
      ensures CreatorOk(w', k, w'.creators[k])
    {
      assert k != key ==> CreatorOk(w, k, w.creators[k]);
    }
  }

  lemma TouchKeepsInv(w: World, deleting: bool)
    requires Inv(w) && (w.deleting ==> deleting)
    ensures Inv(w.(version := w.version + 1, deleting := deleting))
  {
    var w' := w.(version := w.version + 1, deleting := deleting);
    forall k | k in w.creators
      ensures CreatorOk(w', k, w.creators[k])
    {
      assert CreatorOk(w, k, w.creators[k]);
    }
  }

  lemma LeaseReleasedKeepsInv(w: World)
    requires Inv(w) && !LeaseStays(w)
    ensures Inv(w.(lease := None))
  {
    ControllerWriteKeepsInv(w, w.holds, None, w.cleanup, w.guarded);
  }

  lemma NextKeepsInv(w: World, step: Step)
    requires Inv(w)
    ensures Inv(Next(w, step))
  {
    if HasCreator(w, step) {
      CreatorStepKeepsInv(w, step, step.key);
    } else if step.NewCreator? {
      if step.key !in w.used {
        NewCreatorKeepsInv(w, step.key, step.mode, step.finalizer);
      }
    } else if step.Touch? {
      TouchKeepsInv(w, w.deleting || step.deleting);
    } else if step.LeaseReleased? {
      if !LeaseStays(w) {
        LeaseReleasedKeepsInv(w);
      }
    } else {
      CleanupStepKeepsInv(w, step);
      assert Next(w, step) == CleanupStep(w, step);
    }
  }

  lemma {:induction false} RunFromKeepsInv(w: World, steps: seq<Step>)
    requires Inv(w)
    ensures Inv(RunFrom(w, steps))
    decreases |steps|
  {
    if steps != [] {
      NextKeepsInv(w, steps[0]);
      RunFromKeepsInv(Next(w, steps[0]), steps[1..]);
    }
  }

  lemma EveryRunKeepsInv(legacy: Option<Legacy>, steps: seq<Step>)
    ensures Inv(Run(legacy, steps))
  {
    assert Inv(Start(legacy));
    RunFromKeepsInv(Start(legacy), steps);
  }
}

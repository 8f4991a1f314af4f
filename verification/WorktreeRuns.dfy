/**
 The runs behind the exceptions of WorktreeRaces: how an exec outlives the guards
 of its Worktree, and how a running Pod comes to be recorded nowhere.
 */
module WorktreeRuns {
  import opened Options
  import opened HoldMap
  import opened Lists = Admission
  import opened Modes = HoldSet
  import opened WorktreeCleanup
  import opened WorktreeRaces

  // ---- following a run -------------------------------------------------

  lemma {:induction false} RunFromSnoc(w: World, steps: seq<Step>, k: nat)
    requires k < |steps|
    ensures RunFrom(w, steps[..k + 1]) == Next(RunFrom(w, steps[..k]), steps[k])
    decreases |steps|
  {
    if k == 0 {
      assert steps[..1][1..] == [] && steps[..0] == [];
      assert RunFrom(Next(w, steps[0]), []) == Next(w, steps[0]);
    } else {
      RunFromSnoc(Next(w, steps[0]), steps[1..], k - 1);
      assert steps[..k + 1][1..] == steps[1..][..k] && steps[..k][1..] == steps[1..][..k - 1];
    }
  }

  /** One more step of a run that stands in world u. */
  lemma StepsTo(w: World, steps: seq<Step>, k: nat, u: World, v: World)
    requires k < |steps| && RunFrom(w, steps[..k]) == u && Next(u, steps[k]) == v
    ensures RunFrom(w, steps[..k + 1]) == v
  {
    RunFromSnoc(w, steps, k);
  }

  /** One WorktreeExec under a key, with the controller where it stands. */
  function Lone(key: string, h: Hold, version: nat, c: Creator, cleanup: Cleanup, guarded: bool): World {
    World(h, version, false, None, None, map[key := c], {key}, cleanup, guarded)
  }

  function Exec(exit: Exit, consumer: Consumer, pass: CreatorPass): Creator {
    Creator(WRITE, false, exit, false, consumer, pass)
  }

  function Held(key: string): Hold {
    Hold(false, map[key := WRITE])
  }

  /** A step of the exec that touches only itself. */
  predicate Moves(step: Step) {
    step.CreatorGone? || step.AdmitStart? || step.AdmitLoad? || step.Recheck? || step.CreateConsumer? || step.PodStarts?
    || step.Forget? || step.AmendLoad?
  }

  lemma OwnStepsTo(
      w: World, s: seq<Step>, k: nat, key: string, h: Hold, version: nat, cleanup: Cleanup, guarded: bool, c: Creator,
      d: Creator)
    requires k < |s| && RunFrom(w, s[..k]) == Lone(key, h, version, c, cleanup, guarded)
    requires Moves(s[k]) && s[k].key == key && Move(Lone(key, h, version, c, cleanup, guarded), s[k], c) == d
    ensures RunFrom(w, s[..k + 1]) == Lone(key, h, version, d, cleanup, guarded)
  {
    assert map[key := c][key := d] == map[key := d];
    StepsTo(w, s, k, Lone(key, h, version, c, cleanup, guarded), Lone(key, h, version, d, cleanup, guarded));
  }

  lemma ControlsTo(w: World, steps: seq<Step>, k: nat, u: World, v: World)
    requires k < |steps| && RunFrom(w, steps[..k]) == u && CleanupStep(u, steps[k]) == v
    requires Controls(steps[k]) || steps[k].Judge?
    ensures RunFrom(w, steps[..k + 1]) == v
  {
    NextControls(u, steps[k]);
    StepsTo(w, steps, k, u, v);
  }

  // ---- an exec up to its create ----------------------------------------

  lemma FirstExec(key: string)
    ensures Next(Start(None), NewCreator(key, WRITE, false))
      == Lone(key, NOBODY, 0, Exec(Present, NoConsumer, Idle), Resting, true)
  {
    assert {} + {key} == {key};
  }

  lemma FirstAdmission(key: string)
    ensures
      Next(Lone(key, NOBODY, 0, Exec(Present, NoConsumer, AdmitLoaded(0, NOBODY, false)), Resting, true),
        AdmitSave(key, false))
      == Lone(key, Held(key), 1, Exec(Present, NoConsumer, Permitted), Resting, true)
  {
    var c := Exec(Present, NoConsumer, AdmitLoaded(0, NOBODY, false));
    var w := Lone(key, NOBODY, 0, c, Resting, true);
    assert Decided(key, c) == HoldMap.Decision(true, true, false, Held(key));
    assert AdmitSaveStep(w, key, c, false).creators == map[key := Exec(Present, NoConsumer, Permitted)];
  }

  /** It begins its admission. */
  lemma ExecEnters(key: string, w: World, s: seq<Step>)
    requires w == Start(None) && |s| >= 3
    requires s[0] == NewCreator(key, WRITE, false) && s[1] == AdmitStart(key) && s[2] == AdmitLoad(key)
    ensures RunFrom(w, s[..3])
      == Lone(key, NOBODY, 0, Exec(Present, NoConsumer, AdmitLoaded(0, NOBODY, false)), Resting, true)
  {
    assert s[..0] == [];
    FirstExec(key);
    StepsTo(w, s, 0, w, Lone(key, NOBODY, 0, Exec(Present, NoConsumer, Idle), Resting, true));
    var entered := Exec(Present, NoConsumer, Entered);
    OwnStepsTo(w, s, 1, key, NOBODY, 0, Resting, true, Exec(Present, NoConsumer, Idle), entered);
    OwnStepsTo(w, s, 2, key, NOBODY, 0, Resting, true, entered,
      Exec(Present, NoConsumer, AdmitLoaded(0, NOBODY, false)));
  }

  /** It is admitted and looks twice. */
  lemma ExecConfirmed(key: string, w: World, s: seq<Step>)
    requires |s| >= 5 && s[3] == AdmitSave(key, false) && s[4] == Recheck(key)
    requires RunFrom(w, s[..3])
      == Lone(key, NOBODY, 0, Exec(Present, NoConsumer, AdmitLoaded(0, NOBODY, false)), Resting, true)
    ensures RunFrom(w, s[..5]) == Lone(key, Held(key), 1, Exec(Present, NoConsumer, Confirmed), Resting, true)
  {
    var permitted, confirmed := Exec(Present, NoConsumer, Permitted), Exec(Present, NoConsumer, Confirmed);
    var w3 := Lone(key, NOBODY, 0, Exec(Present, NoConsumer, AdmitLoaded(0, NOBODY, false)), Resting, true);
    FirstAdmission(key);
    StepsTo(w, s, 3, w3, Lone(key, Held(key), 1, permitted, Resting, true));
    OwnStepsTo(w, s, 4, key, Held(key), 1, Resting, true, permitted, confirmed);
  }

  /** The first five steps of the runs. */
  predicate Admits(key: string, s: seq<Step>) {
    && |s| >= 5 && s[0] == NewCreator(key, WRITE, false) && s[1] == AdmitStart(key) && s[2] == AdmitLoad(key)
    && s[3] == AdmitSave(key, false) && s[4] == Recheck(key)
  }

  // ---- the controller's pass after the exec is gone --------------------

  /** A vanished exec that no Pod list shows. */
  predicate Hidden(c: Creator) {
    c.exit.Strayed? && !c.consumer.Running?
  }

  lemma SweepsHidden(key: string, c: Creator)
    requires Hidden(c)
    ensures
      var h := Held(key);
      && CleanupStep(Lone(key, h, 1, c, Resting, true), SweepStart)
        == Lone(key, h, 1, c, Judging({key}, {}, false), true)
      && CleanupStep(Lone(key, h, 1, c, Judging({key}, {key}, true), true), SweepLoad)
         == Lone(key, h, 1, c, SweepLoaded({key}, 1, h), true)
      && CleanupStep(Lone(key, h, 1, c, SweepLoaded({key}, 1, h), true), SweepSave)
        == Lone(key, NOBODY, 2, c, Resting, true)
  {
    assert Held(key).modes.Keys == {key} && Drop(Held(key), {key}) == NOBODY;
  }

  lemma JudgesHidden(key: string, c: Creator)
    requires Hidden(c)
    ensures CleanupStep(Lone(key, Held(key), 1, c, Judging({key}, {}, false), true), Judge(key))
      == Lone(key, Held(key), 1, c, Judging({key}, {key}, true), true)
  {
    var w := Lone(key, Held(key), 1, c, Judging({key}, {}, false), true);
    assert {} + {key} == {key} && !PodsRun(w) && OwnerGone(w, key);
    assert JudgeStep(w, key) == w.(cleanup := Judging({key}, {} + {key}, true));
  }

  /** The sweep finds no owner and no Pod. */
  lemma HiddenSwept(key: string, c: Creator, w: World, s: seq<Step>, k: nat)
    requires Hidden(c) && |s| >= k + 4 && RunFrom(w, s[..k]) == Lone(key, Held(key), 1, c, Resting, true)
    requires s[k] == SweepStart && s[k + 1] == Judge(key) && s[k + 2] == SweepLoad && s[k + 3] == SweepSave
    ensures RunFrom(w, s[..k + 4]) == Lone(key, NOBODY, 2, c, Resting, true)
  {
    var h := Held(key);
    SweepsHidden(key, c);
    JudgesHidden(key, c);
    var w1 := Lone(key, h, 1, c, Judging({key}, {}, false), true);
    var w2 := Lone(key, h, 1, c, Judging({key}, {key}, true), true);
    var w3 := Lone(key, h, 1, c, SweepLoaded({key}, 1, h), true);
    ControlsTo(w, s, k, Lone(key, h, 1, c, Resting, true), w1);
    ControlsTo(w, s, k + 1, w1, w2);
    ControlsTo(w, s, k + 2, w2, w3);
    ControlsTo(w, s, k + 3, w3, Lone(key, NOBODY, 2, c, Resting, true));
  }

  lemma ClosesHidden(key: string, c: Creator)
    ensures
      var h := Hold(true, map[]);
      && CleanupStep(Lone(key, NOBODY, 2, c, Resting, true), CloseLoad)
         == Lone(key, NOBODY, 2, c, CloseLoaded(2, NOBODY), true)
      && CleanupStep(Lone(key, NOBODY, 2, c, CloseLoaded(2, NOBODY), true), CloseSave)
        == Lone(key, h, 3, c, Drained, true)
      && CleanupStep(Lone(key, h, 3, c, Drained, true), CheckLease) == Lone(key, h, 3, c, NoLegacyWriter, true)
  {
  }

  lemma ChecksHidden(key: string, c: Creator)
    requires !c.consumer.Running?
    ensures
      var h := Hold(true, map[]);
      && CleanupStep(Lone(key, h, 3, c, NoLegacyWriter, true), CheckPods) == Lone(key, h, 3, c, NoPods, true)
      && CleanupStep(Lone(key, h, 3, c, NoPods, true), RemoveGuard) == Lone(key, h, 3, c, Resting, false)
  {
    assert !PodsRun(Lone(key, Hold(true, map[]), 3, c, NoLegacyWriter, true));
  }

  predicate Cleans(s: seq<Step>, k: nat) {
    && |s| >= k + 5 && s[k] == CloseLoad && s[k + 1] == CloseSave
    && s[k + 2] == CheckLease && s[k + 3] == CheckPods && s[k + 4] == RemoveGuard
  }

  /** The cleanup finds nobody and removes the guards. */
  lemma HiddenUnguarded(key: string, c: Creator, w: World, s: seq<Step>, k: nat)
    requires !c.consumer.Running? && Cleans(s, k) && RunFrom(w, s[..k]) == Lone(key, NOBODY, 2, c, Resting, true)
    ensures RunFrom(w, s[..k + 5]) == Lone(key, Hold(true, map[]), 3, c, Resting, false)
  {
    var h := Hold(true, map[]);
    ClosesHidden(key, c);
    ChecksHidden(key, c);
    var w1 := Lone(key, NOBODY, 2, c, CloseLoaded(2, NOBODY), true);
    ControlsTo(w, s, k, Lone(key, NOBODY, 2, c, Resting, true), w1);
    ControlsTo(w, s, k + 1, w1, Lone(key, h, 3, c, Drained, true));
    ControlsTo(w, s, k + 2, Lone(key, h, 3, c, Drained, true), Lone(key, h, 3, c, NoLegacyWriter, true));
    ControlsTo(w, s, k + 3, Lone(key, h, 3, c, NoLegacyWriter, true), Lone(key, h, 3, c, NoPods, true));
    ControlsTo(w, s, k + 4, Lone(key, h, 3, c, NoPods, true), Lone(key, h, 3, c, Resting, false));
  }

  // ---- the three races -------------------------------------------------

  /** The exec is deleted before it creates its Job. */
  predicate Orphaned(key: string, s: seq<Step>) {
    && Admits(key, s) && |s| >= 17 && s[5] == CreatorGone(key)
    && s[6] == SweepStart && s[7] == Judge(key) && s[8] == SweepLoad && s[9] == SweepSave
    && Cleans(s, 10) && s[15] == CreateConsumer(key) && s[16] == PodStarts(key)
  }

  /** Its Pod runs on a volume whose guards are gone. */
  lemma OrphanOutlivesGuards(key: string, w: World, s: seq<Step>)
    requires w == Start(None) && Orphaned(key, s)
    ensures Fallen(RunFrom(w, s[..17])) && RunFrom(w, s[..17]).holds == Hold(true, map[])
  {
    var c := Exec(Strayed, NoConsumer, Confirmed);
    ExecEnters(key, w, s);
    ExecConfirmed(key, w, s);
    OrphanGone(key, w, s);
    HiddenSwept(key, c, w, s, 6);
    HiddenUnguarded(key, c, w, s, 10);
    OrphanRuns(key, w, s);
  }

  lemma OrphanGone(key: string, w: World, s: seq<Step>)
    requires |s| >= 6 && s[5] == CreatorGone(key)
    requires RunFrom(w, s[..5]) == Lone(key, Held(key), 1, Exec(Present, NoConsumer, Confirmed), Resting, true)
    ensures RunFrom(w, s[..6]) == Lone(key, Held(key), 1, Exec(Strayed, NoConsumer, Confirmed), Resting, true)
  {
    var c := Exec(Present, NoConsumer, Confirmed);
    OwnStepsTo(w, s, 5, key, Held(key), 1, Resting, true, c, Exec(Strayed, NoConsumer, Confirmed));
  }

  lemma OrphanRuns(key: string, w: World, s: seq<Step>)
    requires |s| >= 17 && s[15] == CreateConsumer(key) && s[16] == PodStarts(key)
    requires RunFrom(w, s[..15])
      == Lone(key, Hold(true, map[]), 3, Exec(Strayed, NoConsumer, Confirmed), Resting, false)
    ensures Fallen(RunFrom(w, s[..17])) && RunFrom(w, s[..17]).holds == Hold(true, map[])
  {
    var h, job := Hold(true, map[]), Exec(Strayed, Pending, Idle);
    OwnStepsTo(w, s, 15, key, h, 3, Resting, false, Exec(Strayed, NoConsumer, Confirmed), job);
    OwnStepsTo(w, s, 16, key, h, 3, Resting, false, job, Exec(Strayed, Running, Idle));
    LoneFalls(key, h, 3, Exec(Strayed, Running, Idle));
  }

  lemma LoneFalls(key: string, h: Hold, version: nat, c: Creator)
    requires c.consumer.Running?
    ensures Fallen(Lone(key, h, version, c, Resting, false))
  {
    assert Lone(key, h, version, c, Resting, false).creators[key].consumer.Running?;
  }

  /** The exec is deleted after it created its Job and before the Job's Pod exists. */
  predicate Podless(key: string, s: seq<Step>) {
    && Admits(key, s) && |s| >= 17 && s[5] == CreateConsumer(key) && s[6] == CreatorGone(key)
    && s[7] == SweepStart && s[8] == Judge(key) && s[9] == SweepLoad && s[10] == SweepSave
    && Cleans(s, 11) && s[16] == PodStarts(key)
  }

  /** Its Pod, too, runs on a volume whose guards are gone. */
  lemma PodlessJobOutlivesGuards(key: string, w: World, s: seq<Step>)
    requires w == Start(None) && Podless(key, s)
    ensures Fallen(RunFrom(w, s[..17])) && RunFrom(w, s[..17]).holds == Hold(true, map[])
  {
    var c := Exec(Strayed, Pending, Idle);
    ExecEnters(key, w, s);
    ExecConfirmed(key, w, s);
    JobCreated(key, w, s);
    HiddenSwept(key, c, w, s, 7);
    HiddenUnguarded(key, c, w, s, 11);
    PodlessRuns(key, w, s);
  }

  lemma PodlessRuns(key: string, w: World, s: seq<Step>)
    requires |s| >= 17 && s[16] == PodStarts(key)
    requires RunFrom(w, s[..16]) == Lone(key, Hold(true, map[]), 3, Exec(Strayed, Pending, Idle), Resting, false)
    ensures Fallen(RunFrom(w, s[..17])) && RunFrom(w, s[..17]).holds == Hold(true, map[])
  {
    var h, c := Hold(true, map[]), Exec(Strayed, Running, Idle);
    OwnStepsTo(w, s, 16, key, h, 3, Resting, false, Exec(Strayed, Pending, Idle), c);
    LoneFalls(key, h, 3, c);
  }

  lemma JobCreated(key: string, w: World, s: seq<Step>)
    requires |s| >= 7 && s[5] == CreateConsumer(key) && s[6] == CreatorGone(key)
    requires RunFrom(w, s[..5]) == Lone(key, Held(key), 1, Exec(Present, NoConsumer, Confirmed), Resting, true)
    ensures RunFrom(w, s[..7]) == Lone(key, Held(key), 1, Exec(Strayed, Pending, Idle), Resting, true)
  {
    var job := Exec(Present, Pending, Idle);
    OwnStepsTo(w, s, 5, key, Held(key), 1, Resting, true, Exec(Present, NoConsumer, Confirmed), job);
    OwnStepsTo(w, s, 6, key, Held(key), 1, Resting, true, job, Exec(Strayed, Pending, Idle));
  }

  /** The next pass of the exec does not see the Job it created, and releases its key. */
  predicate Forgets(key: string, s: seq<Step>) {
    && Admits(key, s) && |s| >= 15 && s[5] == CreateConsumer(key) && s[6] == Forget(key)
    && s[7] == AmendLoad(key, false) && s[8] == AmendSave(key)
    && Cleans(s, 9) && s[14] == PodStarts(key)
  }

  /** The exec never goes away, and its Pod runs on a volume whose guards are gone. */
  lemma ForgottenJobOutlivesGuards(key: string, w: World, s: seq<Step>)
    requires w == Start(None) && Forgets(key, s)
    ensures
      var v := RunFrom(w, s[..15]);
      Fallen(v) && v.holds == Hold(true, map[]) && key in v.creators && v.creators[key].exit.Present?
  {
    var c := Exec(Present, Pending, Idle).(blind := true);
    ExecEnters(key, w, s);
    ExecConfirmed(key, w, s);
    JobForgotten(key, w, s);
    ForgottenReleased(key, w, s);
    HiddenUnguarded(key, c, w, s, 9);
    ForgottenRuns(key, w, s);
  }

  lemma ForgottenRuns(key: string, w: World, s: seq<Step>)
    requires |s| >= 15 && s[14] == PodStarts(key)
    requires RunFrom(w, s[..14])
      == Lone(key, Hold(true, map[]), 3, Exec(Present, Pending, Idle).(blind := true), Resting, false)
    ensures
      var v := RunFrom(w, s[..15]);
      Fallen(v) && v.holds == Hold(true, map[]) && key in v.creators && v.creators[key].exit.Present?
  {
    var h, c := Hold(true, map[]), Exec(Present, Running, Idle).(blind := true);
    OwnStepsTo(w, s, 14, key, h, 3, Resting, false, Exec(Present, Pending, Idle).(blind := true), c);
    LoneFalls(key, h, 3, c);
  }

  lemma JobForgotten(key: string, w: World, s: seq<Step>)
    requires |s| >= 7 && s[5] == CreateConsumer(key) && s[6] == Forget(key)
    requires RunFrom(w, s[..5]) == Lone(key, Held(key), 1, Exec(Present, NoConsumer, Confirmed), Resting, true)
    ensures RunFrom(w, s[..7])
      == Lone(key, Held(key), 1, Exec(Present, Pending, Releasing).(blind := true), Resting, true)
  {
    var job := Exec(Present, Pending, Idle);
    OwnStepsTo(w, s, 5, key, Held(key), 1, Resting, true, Exec(Present, NoConsumer, Confirmed), job);
    OwnStepsTo(w, s, 6, key, Held(key), 1, Resting, true, job, Exec(Present, Pending, Releasing).(blind := true));
  }

  lemma ForgottenReleased(key: string, w: World, s: seq<Step>)
    requires |s| >= 9 && s[7] == AmendLoad(key, false) && s[8] == AmendSave(key)
    requires RunFrom(w, s[..7])
      == Lone(key, Held(key), 1, Exec(Present, Pending, Releasing).(blind := true), Resting, true)
    ensures RunFrom(w, s[..9]) == Lone(key, NOBODY, 2, Exec(Present, Pending, Idle).(blind := true), Resting, true)
  {
    var h, forgotten := Held(key), Exec(Present, Pending, Releasing).(blind := true);
    var loaded := Exec(Present, Pending, AmendLoaded(1, h, false)).(blind := true);
    OwnStepsTo(w, s, 7, key, h, 1, Resting, true, forgotten, loaded);
    var v := Lone(key, NOBODY, 2, Exec(Present, Pending, Idle).(blind := true), Resting, true);
    assert HoldMap.Retain(h, key, false) == NOBODY;
    assert AmendSaveStep(Lone(key, h, 1, loaded, Resting, true), key, loaded).creators == v.creators;
    StepsTo(w, s, 8, Lone(key, h, 1, loaded, Resting, true), v);
  }

  // ---- a running Pod that is recorded nowhere --------------------------

  /** A Workspace's mount under r, an exec under e. */
  function Pair(
      r: string, e: string, h: Hold, version: nat, reader: Creator, exec: Creator, cleanup: Cleanup): World
    requires r != e
  {
    World(h, version, false, None, None, map[r := reader, e := exec], {r, e}, cleanup, true)
  }

  function Reader(exit: Exit, pass: CreatorPass): Creator {
    Creator(READ, true, exit, false, NoConsumer, pass)
  }

  /** The Workspace alone, before the exec exists. */
  function Single(r: string, h: Hold, version: nat, reader: Creator): World {
    World(h, version, false, None, None, map[r := reader], {r}, Resting, true)
  }

  lemma ReaderMoves(u: World, r: string, h: Hold, version: nat, c: Creator, step: Step, d: Creator)
    requires Reaches(u, Single(r, h, version, c)) && c.finalizer
    requires (step.AdmitStart? || step.AdmitLoad? || step.Crash? || step.CreatorGone?) && step.key == r
    requires Move(Single(r, h, version, c), step, c) == d
    ensures Reaches(u, Single(r, h, version, d))
  {
    assert map[r := c][r := d] == map[r := d];
    ReachesThen(u, Single(r, h, version, c), step);
  }

  /** A Workspace is admitted as a reader and goes away with its key in the set. */
  lemma ReaderLeaves(r: string)
    ensures Reaches(Start(None), Single(r, Hold(false, map[r := READ]), 1, Reader(Quietly, Idle)))
  {
    var u, h := Start(None), Hold(false, map[r := READ]);
    assert {} + {r} == {r};
    assert Next(u, NewCreator(r, READ, true)) == Single(r, NOBODY, 0, Reader(Present, Idle));
    ReachesNext(u, NewCreator(r, READ, true));
    ReaderMoves(u, r, NOBODY, 0, Reader(Present, Idle), AdmitStart(r), Reader(Present, Entered));
    var loaded := Reader(Present, AdmitLoaded(0, NOBODY, false));
    ReaderMoves(u, r, NOBODY, 0, Reader(Present, Entered), AdmitLoad(r), loaded);
    ReaderAdmitted(r);
    ReachesThen(u, Single(r, NOBODY, 0, loaded), AdmitSave(r, false));
    ReaderGoes(u, r, h);
  }

  lemma ReaderGoes(u: World, r: string, h: Hold)
    requires Reaches(u, Single(r, h, 1, Reader(Present, Permitted)))
    ensures Reaches(u, Single(r, h, 1, Reader(Quietly, Idle)))
  {
    ReaderMoves(u, r, h, 1, Reader(Present, Permitted), Crash(r), Reader(Present, Idle));
    ReaderMoves(u, r, h, 1, Reader(Present, Idle), CreatorGone(r), Reader(Quietly, Idle));
  }

  lemma ReaderAdmitted(r: string)
    ensures Next(Single(r, NOBODY, 0, Reader(Present, AdmitLoaded(0, NOBODY, false))), AdmitSave(r, false))
      == Single(r, Hold(false, map[r := READ]), 1, Reader(Present, Permitted))
  {
    var c := Reader(Present, AdmitLoaded(0, NOBODY, false));
    var w := Single(r, NOBODY, 0, c);
    assert Decided(r, c) == HoldMap.Decision(true, true, false, Hold(false, map[r := READ]));
    assert AdmitSaveStep(w, r, c, false).creators == map[r := Reader(Present, Permitted)];
  }

  lemma ExecMoves(
      u: World, r: string, e: string, h: Hold, version: nat, reader: Creator, cleanup: Cleanup, c: Creator, step: Step,
      d: Creator)
    requires r != e && Reaches(u, Pair(r, e, h, version, reader, c, cleanup))
    requires Moves(step) && !step.CreatorGone? && !step.Forget? && step.key == e
    requires Move(Pair(r, e, h, version, reader, c, cleanup), step, c) == d
    ensures Reaches(u, Pair(r, e, h, version, reader, d, cleanup))
  {
    assert map[r := reader, e := c][e := d] == map[r := reader, e := d];
    ReachesThen(u, Pair(r, e, h, version, reader, c, cleanup), step);
  }

  function Both(r: string, e: string): Hold
    requires r != e
  {
    Hold(false, map[r := READ, e := WRITE])
  }

  lemma ExecJoins(r: string, e: string)
    requires r != e
    ensures Reaches(Start(None),
      Pair(r, e, Both(r, e), 2, Reader(Quietly, Idle), Exec(Present, Pending, Idle), Resting))
  {
    var u, gone, h := Start(None), Reader(Quietly, Idle), Hold(false, map[r := READ]);
    ReaderLeaves(r);
    ExecAppears(r, e);
    ReachesThen(u, Single(r, h, 1, gone), NewCreator(e, WRITE, false));
    var entered, loaded := Exec(Present, NoConsumer, Entered), Exec(Present, NoConsumer, AdmitLoaded(1, h, false));
    ExecMoves(u, r, e, h, 1, gone, Resting, Exec(Present, NoConsumer, Idle), AdmitStart(e), entered);
    ExecMoves(u, r, e, h, 1, gone, Resting, entered, AdmitLoad(e), loaded);
    WriterAdmitted(r, e);
    ReachesThen(u, Pair(r, e, h, 1, gone, loaded, Resting), AdmitSave(e, false));
    var permitted, confirmed := Exec(Present, NoConsumer, Permitted), Exec(Present, NoConsumer, Confirmed);
    ExecMoves(u, r, e, Both(r, e), 2, gone, Resting, permitted, Recheck(e), confirmed);
    ExecMoves(u, r, e, Both(r, e), 2, gone, Resting, confirmed, CreateConsumer(e), Exec(Present, Pending, Idle));
  }

  lemma ExecAppears(r: string, e: string)
    requires r != e
    ensures Next(Single(r, Hold(false, map[r := READ]), 1, Reader(Quietly, Idle)), NewCreator(e, WRITE, false))
      == Pair(r, e, Hold(false, map[r := READ]), 1, Reader(Quietly, Idle), Exec(Present, NoConsumer, Idle), Resting)
  {
    var gone, idle := Reader(Quietly, Idle), Exec(Present, NoConsumer, Idle);
    assert {r} + {e} == {r, e} && map[r := gone][e := idle] == map[r := gone, e := idle];
  }

  lemma WriterAdmitted(r: string, e: string)
    requires r != e
    ensures
      var gone, h := Reader(Quietly, Idle), Hold(false, map[r := READ]);
      Next(Pair(r, e, h, 1, gone, Exec(Present, NoConsumer, AdmitLoaded(1, h, false)), Resting), AdmitSave(e, false))
      == Pair(r, e, Both(r, e), 2, gone, Exec(Present, NoConsumer, Permitted), Resting)
  {
    var gone, h := Reader(Quietly, Idle), Hold(false, map[r := READ]);
    var c := Exec(Present, NoConsumer, AdmitLoaded(1, h, false));
    var w := Pair(r, e, h, 1, gone, c, Resting);
    assert map[r := READ][e := WRITE] == map[r := READ, e := WRITE];
    assert Decided(e, c) == HoldMap.Decision(true, true, false, Both(r, e));
    assert AdmitSaveStep(w, e, c, false).creators == map[r := gone, e := Exec(Present, NoConsumer, Permitted)];
  }

  /**
   A sweep judges the vanished reader first and lists no Pod; then the exec's Pod
   starts, the exec vanishes, and the old list makes the sweep take its key.
   */
  lemma LateOwnerIsSwept(r: string, e: string)
    requires r != e
    ensures exists v ::
      Reaches(Start(None), v) && e in v.creators && v.creators[e].consumer.Running? && e !in v.holds.modes
  {
    var u, gone, job := Start(None), Reader(Quietly, Idle), Exec(Present, Pending, Idle);
    var h, pod := Both(r, e), Exec(Present, Running, Idle);
    ExecJoins(r, e);
    SweepListsNobody(r, e);
    var listed := Judging({r, e}, {r}, true);
    ExecMoves(u, r, e, h, 2, gone, listed, job, PodStarts(e), pod);
    var w := Pair(r, e, h, 2, gone, pod, listed);
    SweepMissesLateOwner(w, e);
    var v :| Reaches(w, v) && e in v.creators && v.creators[e].consumer.Running? && e !in v.holds.modes;
    ReachesOn(u, w, v);
  }

  lemma SweepListsNobody(r: string, e: string)
    requires r != e
    requires Reaches(Start(None),
      Pair(r, e, Both(r, e), 2, Reader(Quietly, Idle), Exec(Present, Pending, Idle), Resting))
    ensures Reaches(Start(None),
                    Pair(r, e, Both(r, e), 2, Reader(Quietly, Idle), Exec(Present, Pending, Idle),
                      Judging({r, e}, {r}, true)))
  {
    var u, h, gone, job := Start(None), Both(r, e), Reader(Quietly, Idle), Exec(Present, Pending, Idle);
    assert h.modes.Keys == {r, e};
    var w, w1 := Pair(r, e, h, 2, gone, job, Resting), Pair(r, e, h, 2, gone, job, Judging({r, e}, {}, false));
    ControllerReaches(u, w, SweepStart, w1);
    ReaderJudged(r, e);
    NextControls(w1, Judge(r));
    ReachesThen(u, w1, Judge(r));
  }

  lemma ReaderJudged(r: string, e: string)
    requires r != e
    ensures
      var h, gone, job := Both(r, e), Reader(Quietly, Idle), Exec(Present, Pending, Idle);
      CleanupStep(Pair(r, e, h, 2, gone, job, Judging({r, e}, {}, false)), Judge(r))
      == Pair(r, e, h, 2, gone, job, Judging({r, e}, {r}, true))
  {
    var w := Pair(r, e, Both(r, e), 2, Reader(Quietly, Idle), Exec(Present, Pending, Idle), Judging({r, e}, {}, false));
    assert !PodsRun(w) && OwnerGone(w, r) && {} + {r} == {r};
    assert JudgeStep(w, r) == w.(cleanup := Judging({r, e}, {} + {r}, true));
  }

  /** A legacy exec vanishes with its Pod running, and its Lease is collected before it was imported. */
  lemma CollectedLeaseHidesWriter(key: string)
    ensures exists v ::
      && Reaches(Start(Some(Legacy(key, false, Running))), v)
      && key in v.creators && v.creators[key].consumer.Running? && v.creators[key].exit.Quietly?
      && key !in v.holds.modes && v.lease.None?
  {
    var w := Start(Some(Legacy(key, false, Running)));
    var w1 := SetCreator(w, key, Exec(Quietly, Running, Idle));
    assert Next(w, CreatorGone(key)) == w1;
    ReachesNext(w, CreatorGone(key));
    var w2 := w1.(lease := None);
    assert Next(w1, LeaseReleased) == w2;
    ReachesThen(w, w1, LeaseReleased);
    assert w2.creators[key].consumer.Running?;
  }
}

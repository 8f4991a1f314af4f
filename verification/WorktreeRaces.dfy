/**
 What fallen guards of a Worktree exclude. Unconditionally: everybody but an
 owner without a finalizer that vanished between its admission and the start of
 its Pod, or released its key without seeing its Job. And exactly when they
 exclude that too.
 */
module WorktreeRaces {
  import opened Options
  import opened HoldMap
  import opened Lists = Admission
  import opened Modes = HoldSet
  import opened WorktreeCleanup

  // ---- what holds in every run -----------------------------------------

  /**
   After every run, once a guard of the Worktree or of its volume was removed:
   the set is closed and empty, no legacy Lease is left, and whoever has a
   consumer or may still create one is astray: it vanished between its admission
   and the start of its Pod, or released its key without seeing its Job.
   */
  lemma GuardsFallOnlyWhenDrained(legacy: Option<Legacy>, steps: seq<Step>)
    requires !Run(legacy, steps).guarded
    ensures var w := Run(legacy, steps);
      && w.holds == Hold(true, map[])
      && w.lease.None?
      && forall k :: k in w.creators && (Live(w.creators[k]) || CanCreate(w.creators[k].pass)) ==>
           Astray(w.creators[k]) && !w.creators[k].finalizer
  {
    var w := Run(legacy, steps);
    EveryRunKeepsInv(legacy, steps);
    forall k | k in w.creators && (Live(w.creators[k]) || CanCreate(w.creators[k].pass))
      ensures Astray(w.creators[k]) && !w.creators[k].finalizer
    {
      assert CreatorOk(w, k, w.creators[k]);
    }
  }

  /**
   After every run, the creator of a Job or Pod is in the set or in its Lease,
   unless the owner is astray, or vanished under a sweep that had listed the Pods
   before, or with the Lease it held.
   */
  lemma RunningCreatorsAreRecorded(legacy: Option<Legacy>, steps: seq<Step>, key: string)
    requires var w := Run(legacy, steps); key in w.creators && Live(w.creators[key])
    ensures var w := Run(legacy, steps);
      || key in w.holds.modes
      || w.lease == Some(key)
      || Astray(w.creators[key])
      || w.creators[key].exit.Unlisted?
      || (w.creators[key].exit.Quietly? && w.legacy == Some(key))
  {
    EveryRunKeepsInv(legacy, steps);
    assert CreatorOk(Run(legacy, steps), key, Run(legacy, steps).creators[key]);
  }

  // ---- calm runs -------------------------------------------------------

  /** Between its admission and the start of its Pod, nothing holds an owner without a finalizer. */
  predicate Window(c: Creator) {
    c.exit.Present? && !c.finalizer && (MidAdmission(c.pass) || c.consumer.Pending?)
  }

  /** One of the two ways to go astray: the step is taken for a creator that it leads astray. */
  predicate GoesAstray(step: Step, c: Creator) {
    (step.CreatorGone? && Window(c)) || (step.Forget? && Forgetful(c))
  }

  predicate Strays(w: World, step: Step) {
    (step.CreatorGone? || step.Forget?) && step.key in w.creators && GoesAstray(step, w.creators[step.key])
  }

  predicate Calm(w: World, steps: seq<Step>)
    decreases |steps|
  {
    steps == [] || (!Strays(w, steps[0]) && Calm(Next(w, steps[0]), steps[1..]))
  }

  /** The refused admissions: neither written nor already held. */
  predicate Refused(key: string, c: Creator)
    requires c.pass.AdmitLoaded?
  {
    var d := Decided(key, c);
    !d.changed && !d.admitted && !d.held
  }

  /** A vanished owner whose Job or pass can still end in a Pod, while the Worktree is open or not. */
  predicate Loose(key: string, c: Creator, open: bool) {
    && c.exit.Strayed?
    && (|| c.consumer.Pending?
        || c.pass.Confirmed?
        || (open && MidAdmission(c.pass) && (c.pass.AdmitLoaded? ==> !Refused(key, c))))
  }

  predicate Open(w: World) {
    !w.holds.closed && !w.deleting
  }

  /** No Pod list is left between a running Pod and the fall of the guards. */
  predicate Exposed(w: World) {
    w.cleanup.NoPods? || !w.guarded
  }

  predicate Unseen(c: Creator, exposed: bool) {
    Astray(c) && c.consumer.Running? && exposed
  }

  /** A Job that its owner forgot before its Pod existed. */
  predicate Forgotten(c: Creator) {
    c.blind && c.consumer.Pending?
  }

  predicate Dangerous(key: string, c: Creator, open: bool, exposed: bool) {
    Loose(key, c, open) || Unseen(c, exposed) || Forgotten(c)
  }

  predicate Endangers(w: World, k: string)
    requires k in w.creators
  {
    Dangerous(k, w.creators[k], Open(w), Exposed(w))
  }

  ghost predicate Danger(w: World) {
    exists k :: k in w.creators && Endangers(w, k)
  }

  /** The guards are gone and a Pod runs. */
  predicate Fallen(w: World) {
    !w.guarded && PodsRun(w)
  }

  /** The continuation is calm and ends so. */
  predicate Breaks(w: World, more: seq<Step>) {
    Calm(w, more) && Fallen(RunFrom(w, more))
  }

  // ---- danger does not arise in calm steps -----------------------------

  lemma MoveStaysSafe(
      w: World, step: Step, key: string, c: Creator, exposed: bool, inside: bool, leased: bool, legacy: bool)
    requires !Dangerous(key, c, Open(w), exposed) && CreatorCore(c, inside, leased, legacy) && !GoesAstray(step, c)
    ensures !Dangerous(key, Move(w, step, c), Open(w), exposed)
  {
  }

  lemma AdmitFrame(w: World, key: string, c: Creator, lost: bool)
    requires key in w.creators && w.creators[key] == c && CreatorSnapshot(w, key, c)
    ensures
      var v := AdmitSaveStep(w, key, c, lost);
      OwnChange(w, v, key) && v.creators[key] == c.(pass := v.creators[key].pass)
  {
    assert w.creators[key := c] == w.creators;
  }

  lemma AdmitStaysTight(w: World, key: string, c: Creator, lost: bool, open: bool)
    requires key in w.creators && w.creators[key] == c && !Loose(key, c, open) && (open ==> Open(w))
    ensures !Loose(key, AdmitSaveStep(w, key, c, lost).creators[key], open)
  {
  }

  lemma AdmitStaysSafe(w: World, key: string, c: Creator, lost: bool)
    requires key in w.creators && w.creators[key] == c && CreatorSnapshot(w, key, c) && !Endangers(w, key)
    ensures
      var v := AdmitSaveStep(w, key, c, lost);
      OwnChange(w, v, key) && !Endangers(v, key)
  {
    AdmitFrame(w, key, c, lost);
    AdmitStaysTight(w, key, c, lost, Open(w));
  }

  lemma AmendStaysSafe(w: World, key: string, c: Creator)
    requires key in w.creators && w.creators[key] == c && CreatorSnapshot(w, key, c) && !Endangers(w, key)
    ensures
      var v := AmendSaveStep(w, key, c);
      OwnChange(w, v, key) && !Endangers(v, key)
  {
    assert w.creators[key := c] == w.creators;
  }

  /** A creator's step touches neither the fence, the deletion, the controller nor another creator. */
  predicate OwnChange(w: World, v: World, key: string) {
    && Open(v) == Open(w) && Exposed(v) == Exposed(w)
    && key in v.creators && v.creators == w.creators[key := v.creators[key]]
  }

  lemma OwnStepStaysSafe(w: World, step: Step, key: string, c: Creator)
    requires key in w.creators && w.creators[key] == c && CreatorOk(w, key, c)
    requires !Endangers(w, key) && !GoesAstray(step, c)
    ensures
      var v := CreatorStep(w, step, key, c);
      OwnChange(w, v, key) && !Endangers(v, key)
  {
    if step.AdmitSave? {
      AdmitStaysSafe(w, key, c, step.lost);
    } else if step.AmendSave? {
      AmendStaysSafe(w, key, c);
    } else {
      MoveStaysSafe(w, step, key, c, Exposed(w), key in w.holds.modes, w.lease == Some(key), w.legacy == Some(key));
      assert CreatorStep(w, step, key, c) == SetCreator(w, key, Move(w, step, c));
    }
  }

  /**
   The controller leaves the creators alone; a fence stays, and the guards fall
   only after an empty Pod list.
   */
  predicate ControllerChange(w: World, v: World) {
    && v.creators == w.creators
    && (Open(v) ==> Open(w))
    && (Exposed(v) ==> Exposed(w) || !PodsRun(w))
  }

  lemma SweepFrame(w: World, step: Step)
    requires CleanupOk(w) && (step.SweepStart? || step.Judge? || step.SweepLoad? || step.SweepSave?)
    ensures ControllerChange(w, SweepStep(w, step))
  {
    if step.Judge? {
      assert ControllerChange(w, JudgeStep(w, step.key));
    }
  }

  lemma ControllerFrame(w: World, step: Step)
    requires CleanupOk(w)
    ensures ControllerChange(w, CleanupStep(w, step))
  {
    if step.ImportSave? {
      assert ControllerChange(w, ImportSaveStep(w));
    } else if step.CloseSave? {
      assert ControllerChange(w, CloseSaveStep(w));
    } else if step.SweepStart? || step.Judge? || step.SweepLoad? || step.SweepSave? {
      SweepFrame(w, step);
      assert CleanupStep(w, step) == SweepStep(w, step);
    }
  }

  lemma OtherStepFrame(w: World, step: Step)
    requires CleanupOk(w) && !HasCreator(w, step)
    ensures
      var v := Next(w, step);
      && (Open(v) ==> Open(w))
      && (Exposed(v) ==> Exposed(w) || !PodsRun(w))
      && (forall k :: k in v.creators ==> New(v.creators[k]) || (k in w.creators && v.creators[k] == w.creators[k]))
  {
    ControllerFrame(w, step);
  }

  /** A creator that has done nothing yet. */
  predicate New(c: Creator) {
    c.exit.Present? && !c.blind
  }

  lemma BystanderStaysSafe(w: World, v: World, k: string)
    requires k in w.creators && k in v.creators && v.creators[k] == w.creators[k] && !Endangers(w, k)
    requires (Open(v) ==> Open(w)) && (Exposed(v) ==> Exposed(w) || !PodsRun(w))
    ensures !Endangers(v, k)
  {
  }

  lemma SafeStaysSafe(w: World, step: Step)
    requires Inv(w) && !Danger(w) && !Strays(w, step)
    ensures !Danger(Next(w, step))
  {
    if HasCreator(w, step) {
      OwnStepSafe(w, step, step.key);
    } else {
      OtherStepSafe(w, step);
    }
  }

  lemma OwnStepSafe(w: World, step: Step, key: string)
    requires Inv(w) && !Danger(w) && !Strays(w, step) && HasCreator(w, step) && step.key == key
    ensures !Danger(Next(w, step))
  {
    var v := CreatorStep(w, step, key, w.creators[key]);
    assert CreatorOk(w, key, w.creators[key]) && !Endangers(w, key);
    OwnStepStaysSafe(w, step, key, w.creators[key]);
    forall k | k in v.creators
      ensures !Endangers(v, k)
    {
      if k != key {
        assert !Endangers(w, k);
        BystanderStaysSafe(w, v, k);
      }
    }
  }

  lemma OtherStepSafe(w: World, step: Step)
    requires Inv(w) && !Danger(w) && !HasCreator(w, step)
    ensures !Danger(Next(w, step))
  {
    var v := Next(w, step);
    OtherStepFrame(w, step);
    forall k | k in v.creators
      ensures !Endangers(v, k)
    {
      if k in w.creators && v.creators[k] == w.creators[k] {
        assert !Endangers(w, k);
        BystanderStaysSafe(w, v, k);
      } else {
        assert New(v.creators[k]);
      }
    }
  }

  lemma {:induction false} SafeRunsStaySafe(w: World, steps: seq<Step>)
    requires Inv(w) && !Danger(w) && Calm(w, steps)
    ensures Inv(RunFrom(w, steps)) && !Danger(RunFrom(w, steps)) && !Fallen(RunFrom(w, steps))
    decreases |steps|
  {
    if steps == [] {
      if !w.guarded {
        assert forall k :: k in w.creators ==> !Unseen(w.creators[k], Exposed(w));
      }
    } else {
      NextKeepsInv(w, steps[0]);
      SafeStaysSafe(w, steps[0]);
      SafeRunsStaySafe(Next(w, steps[0]), steps[1..]);
    }
  }

  // ---- danger is real: a calm run to fallen guards ----------------------

  ghost predicate Reaches(w: World, v: World) {
    exists steps :: Calm(w, steps) && RunFrom(w, steps) == v
  }

  lemma ReachesSelf(w: World)
    ensures Reaches(w, w)
  {
    assert Calm(w, []) && RunFrom(w, []) == w;
  }

  lemma ReachesNext(w: World, step: Step)
    requires !Strays(w, step)
    ensures Reaches(w, Next(w, step))
  {
    var steps, v := [step], Next(w, step);
    assert steps[0] == step && steps[1..] == [];
    assert RunFrom(v, []) == v && Calm(v, []);
    assert RunFrom(w, steps) == RunFrom(v, steps[1..]);
    assert Calm(w, steps);
  }

  lemma {:induction false} RunFromAppend(w: World, a: seq<Step>, b: seq<Step>)
    requires Calm(w, a) && Calm(RunFrom(w, a), b)
    ensures Calm(w, a + b) && RunFrom(w, a + b) == RunFrom(RunFrom(w, a), b)
    decreases |a|
  {
    if a == [] {
      assert a + b == b;
    } else {
      RunFromAppend(Next(w, a[0]), a[1..], b);
      assert (a + b)[0] == a[0] && (a + b)[1..] == a[1..] + b;
    }
  }

  lemma ReachesOn(u: World, v: World, w: World)
    requires Reaches(u, v) && Reaches(v, w)
    ensures Reaches(u, w)
  {
    var a :| Calm(u, a) && RunFrom(u, a) == v;
    var b :| Calm(v, b) && RunFrom(v, b) == w;
    RunFromAppend(u, a, b);
  }

  lemma ReachesThen(u: World, v: World, step: Step)
    requires Reaches(u, v) && !Strays(v, step)
    ensures Reaches(u, Next(v, step))
  {
    ReachesNext(v, step);
    ReachesOn(u, v, Next(v, step));
  }

  /** The steps of the controller's own pass. */
  predicate Controls(step: Step) {
    step.SweepStart? || step.SweepLoad? || step.SweepSave? || step.CloseLoad? || step.CloseSave?
    || step.CheckLease? || step.CheckPods? || step.RemoveGuard? || step.CleanupCrash?
  }

  lemma ControllerReaches(u: World, w: World, step: Step, v: World)
    requires Reaches(u, w) && Controls(step) && CleanupStep(w, step) == v
    ensures Reaches(u, v)
  {
    ReachesThen(u, w, step);
  }

  /** A creator whose consumer stopped, whose pass crashed and whose owner was deleted. */
  function Retired(c: Creator): Creator {
    c.(consumer := NoConsumer, blind := false, pass := Idle, exit := if c.exit.Present? then Quietly else c.exit)
  }

  lemma StopReaches(u: World, w: World, key: string, c: Creator)
    requires Reaches(u, SetCreator(w, key, c))
    ensures Reaches(u, SetCreator(w, key, c.(consumer := NoConsumer, blind := false)))
  {
    var d := c.(consumer := NoConsumer, blind := false);
    ReachesThen(u, SetCreator(w, key, c), ConsumerStops(key));
    assert w.creators[key := c][key := d] == w.creators[key := d];
  }

  lemma CrashReaches(u: World, w: World, key: string, c: Creator)
    requires Reaches(u, SetCreator(w, key, c))
    ensures Reaches(u, SetCreator(w, key, c.(pass := Idle)))
  {
    ReachesThen(u, SetCreator(w, key, c), Crash(key));
    assert w.creators[key := c][key := c.(pass := Idle)] == w.creators[key := c.(pass := Idle)];
  }

  lemma GoneReaches(u: World, w: World, key: string, c: Creator)
    requires Reaches(u, SetCreator(w, key, c)) && !Live(c) && !c.blind && c.pass.Idle?
    ensures Reaches(u, SetCreator(w, key, Retired(c)))
  {
    ReachesThen(u, SetCreator(w, key, c), CreatorGone(key));
    assert w.creators[key := c][key := Retired(c)] == w.creators[key := Retired(c)];
  }

  lemma RetireOne(w: World, key: string)
    requires key in w.creators
    ensures Reaches(w, SetCreator(w, key, Retired(w.creators[key])))
  {
    var c := w.creators[key];
    ReachesSelf(w);
    assert w.creators[key := c] == w.creators;
    StopReaches(w, w, key, c);
    CrashReaches(w, w, key, c.(consumer := NoConsumer, blind := false));
    GoneReaches(w, w, key, c.(consumer := NoConsumer, blind := false, pass := Idle));
  }

  function RetireAll(w: World, todo: set<string>): World {
    w.(creators := map k | k in w.creators :: if k in todo then Retired(w.creators[k]) else w.creators[k])
  }

  lemma {:induction false} RetireOthers(w: World, todo: set<string>)
    requires todo <= w.creators.Keys
    ensures Reaches(w, RetireAll(w, todo))
    decreases |todo|
  {
    if todo == {} {
      assert RetireAll(w, todo) == w;
      ReachesSelf(w);
    } else {
      var key :| key in todo;
      RetireOthers(w, todo - {key});
      var v := RetireAll(w, todo - {key});
      RetireOne(v, key);
      assert SetCreator(v, key, Retired(v.creators[key])) == RetireAll(w, todo);
      ReachesOn(w, v, RetireAll(w, todo));
    }
  }

  /** No holder has an owner, nobody minds a consumer, no Pod runs and the controller is between passes. */
  predicate Deserted(w: World) {
    && w.cleanup.Resting?
    && forall k :: k in w.creators ==>
         && !w.creators[k].consumer.Running? && !Minded(w.creators[k])
         && (k in w.holds.modes ==> !w.creators[k].exit.Present?)
  }

  /** A Pod can still come: its Job exists, or its create is next. */
  predicate Armed(c: Creator) {
    !c.finalizer && (c.consumer.Pending? || (c.consumer.NoConsumer? && c.pass.Confirmed?))
  }

  lemma {:induction false} JudgeAll(w: World, seen: set<string>, stale: set<string>)
    requires Deserted(w) && stale <= seen && seen <= w.holds.modes.Keys
    ensures exists listed :: Reaches(w.(cleanup := Judging(seen, {}, false)),
      w.(cleanup := Judging(seen, stale, listed)))
    decreases |stale|
  {
    var w0 := w.(cleanup := Judging(seen, {}, false));
    if stale == {} {
      ReachesSelf(w0);
    } else {
      var key :| key in stale;
      JudgeAll(w, seen, stale - {key});
      var listed :| Reaches(w0, w.(cleanup := Judging(seen, stale - {key}, listed)));
      var v := w.(cleanup := Judging(seen, stale - {key}, listed));
      assert !PodsRun(v);
      assert stale - {key} + {key} == stale;
      assert Next(v, Judge(key)) == w.(cleanup := Judging(seen, stale, true));
      ReachesThen(w0, v, Judge(key));
    }
  }

  /** The write of a sweep whose candidates are judged. */
  lemma SweepWrites(u: World, w: World, stale: set<string>)
    requires Reaches(u, w) && w.cleanup.Judging? && w.cleanup.stale == stale
    ensures Reaches(u, SaveHolds(w, Drop(w.holds, stale)).(cleanup := Resting))
  {
    var w1 := w.(cleanup := SweepLoaded(stale, w.version, w.holds));
    ControllerReaches(u, w, SweepLoad, w1);
    ControllerReaches(u, w1, SweepSave, SaveHolds(w, Drop(w.holds, stale)).(cleanup := Resting));
  }

  /** The sweep removes every holder of a deserted Worktree. */
  lemma SweepAll(w: World)
    requires Deserted(w)
    ensures Reaches(w, SaveHolds(w, w.holds.(modes := map[])))
  {
    var seen := w.holds.modes.Keys;
    var w0 := w.(cleanup := Judging(seen, {}, false));
    ReachesSelf(w);
    ControllerReaches(w, w, SweepStart, w0);
    JudgeAll(w, seen, seen);
    var listed :| Reaches(w0, w.(cleanup := Judging(seen, seen, listed)));
    var w1 := w.(cleanup := Judging(seen, seen, listed));
    ReachesOn(w, w0, w1);
    SweepWrites(w, w1, seen);
    DropsAll(w.holds);
  }

  lemma DropsAll(h: Hold)
    ensures Drop(h, h.modes.Keys) == h.(modes := map[])
  {
  }

  /** A loaded snapshot that is still current is the set itself. */
  predicate Timely(w: World, p: CreatorPass) {
    p.AdmitLoaded? ==> p.version <= w.version && (p.version == w.version ==> p.snapshot == w.holds)
  }

  /** A permission that left the set with at most the creator's key. */
  ghost predicate Admitted(w: World, h: Hold, key: string)
    requires key in w.creators
  {
    && !h.closed && h.modes.Keys <= {key}
    && Reaches(w, SetCreator(SaveHolds(w, h), key, w.creators[key].(pass := Permitted)))
  }

  /** A strayed pass that is not refused gets its permission on an open, empty set. */
  lemma GetsPermission(w: World, key: string)
    requires Deserted(w) && w.holds == Hold(false, map[]) && !w.deleting
    requires key in w.creators && Loose(key, w.creators[key], true)
    requires w.creators[key].consumer.NoConsumer? && !w.creators[key].pass.Confirmed?
    requires Timely(w, w.creators[key].pass)
    ensures exists h :: Admitted(w, h, key)
  {
    var c := w.creators[key];
    if c.pass.Permitted? {
      assert SetCreator(SaveHolds(w, w.holds), key, c.(pass := Permitted)) == w;
      ReachesSelf(w);
      assert Admitted(w, w.holds, key);
    } else if c.pass.Entered? {
      var v := SetCreator(w, key, c.(pass := AdmitLoaded(w.version, w.holds, w.deleting)));
      assert Next(w, AdmitLoad(key)) == v;
      ReachesNext(w, AdmitLoad(key));
      CurrentAdmission(w, v, key);
    } else if !Decided(key, c).changed {
      assert SetCreator(SaveHolds(w, w.holds), key, c.(pass := Permitted)) == Next(w, AdmitSave(key, false));
      ReachesNext(w, AdmitSave(key, false));
      assert Admitted(w, w.holds, key);
    } else if c.pass.version != w.version {
      var v := SetCreator(w, key, c.(pass := AdmitLoaded(w.version, w.holds, w.deleting)));
      assert Next(w, AdmitSave(key, false)) == v;
      ReachesNext(w, AdmitSave(key, false));
      CurrentAdmission(w, v, key);
    } else {
      var h := Hold(false, map[key := c.mode]);
      assert Decided(key, c).after.modes == h.modes;
      assert Next(w, AdmitSave(key, false)) == SetCreator(SaveHolds(w, h), key, c.(pass := Permitted));
      ReachesNext(w, AdmitSave(key, false));
      assert Admitted(w, h, key);
    }
  }

  lemma CurrentAdmission(w: World, v: World, key: string)
    requires w.holds == Hold(false, map[]) && !w.deleting && key in w.creators && Reaches(w, v)
    requires v == SetCreator(w, key, w.creators[key].(pass := AdmitLoaded(w.version, w.holds, w.deleting)))
    ensures exists h :: Admitted(w, h, key)
  {
    var h := Hold(false, map[key := w.creators[key].mode]);
    assert Decided(key, v.creators[key]).after.modes == h.modes;
    assert Next(v, AdmitSave(key, false)) == SetCreator(SaveHolds(w, h), key, w.creators[key].(pass := Permitted));
    ReachesThen(w, v, AdmitSave(key, false));
    assert Admitted(w, h, key);
  }

  /** Everybody else is gone, the set is empty, and the creator is armed. */
  predicate Ready(w: World, key: string) {
    Deserted(w) && w.holds.modes == map[] && key in w.creators && Armed(w.creators[key])
  }

  /** The second look of a strayed pass finds the Worktree open, and the sweep takes its key afterwards. */
  lemma GetsArmed(w: World, key: string)
    requires Deserted(w) && Open(w) && key in w.creators && Loose(key, w.creators[key], true)
    requires Timely(w, w.creators[key].pass)
    requires !w.creators[key].finalizer && w.creators[key].consumer.NoConsumer? && !w.creators[key].pass.Confirmed?
    ensures exists v :: Reaches(w, v) && Ready(v, key) && v.guarded == w.guarded
  {
    SweepAll(w);
    var w1 := SaveHolds(w, Hold(false, map[]));
    GetsPermission(w1, key);
    var h :| Admitted(w1, h, key);
    var w2 := SetCreator(SaveHolds(w1, h), key, w1.creators[key].(pass := Permitted));
    ReachesOn(w, w1, w2);
    SecondLook(w, w2, key);
  }

  lemma SecondLook(u: World, w: World, key: string)
    requires Reaches(u, w) && Deserted(w) && Open(w) && key in w.creators && w.creators[key].pass.Permitted?
    requires !w.creators[key].finalizer && w.creators[key].consumer.NoConsumer?
    ensures exists v :: Reaches(u, v) && Ready(v, key) && v.guarded == w.guarded
  {
    var w1 := SetCreator(w, key, w.creators[key].(pass := Confirmed));
    assert Next(w, Recheck(key)) == w1;
    ReachesThen(u, w, Recheck(key));
    SweepAll(w1);
    var w2 := SaveHolds(w1, w1.holds.(modes := map[]));
    ReachesOn(u, w1, w2);
    assert Ready(w2, key);
  }

  /** The cleanup finds nobody, removes the guards, and only then the Pod starts. */
  lemma GuardsFallFirst(w: World, key: string)
    requires Ready(w, key) && w.guarded
    ensures exists v :: Reaches(w, v) && Fallen(v)
  {
    var w1 := w.(lease := None);
    assert Next(w, LeaseReleased) == w1;
    ReachesNext(w, LeaseReleased);
    CloseEmpty(w, w1);
    var w2 := SaveHolds(w1, Hold(true, map[])).(cleanup := NoLegacyWriter);
    PodAfterGuards(w, w2, key);
  }

  lemma CloseEmpty(u: World, w: World)
    requires Reaches(u, w) && w.cleanup.Resting? && w.holds.modes == map[] && w.lease.None?
    ensures Reaches(u, SaveHolds(w, Hold(true, map[])).(cleanup := NoLegacyWriter))
  {
    var w1 := w.(cleanup := CloseLoaded(w.version, w.holds));
    ControllerReaches(u, w, CloseLoad, w1);
    var w2 := SaveHolds(w, Hold(true, map[])).(cleanup := Drained);
    assert w.holds.closed ==> w.holds == Hold(true, map[]);
    ControllerReaches(u, w1, CloseSave, w2);
    ControllerReaches(u, w2, CheckLease, w2.(cleanup := NoLegacyWriter));
  }

  lemma PodAfterGuards(u: World, w: World, key: string)
    requires Reaches(u, w) && w.cleanup.NoLegacyWriter? && !PodsRun(w) && key in w.creators && Armed(w.creators[key])
    ensures exists v :: Reaches(u, v) && Fallen(v)
  {
    ControllerReaches(u, w, CheckPods, w.(cleanup := NoPods));
    var w1 := w.(guarded := false, cleanup := Resting);
    ControllerReaches(u, w.(cleanup := NoPods), RemoveGuard, w1);
    ArmedRuns(u, w1, key);
  }

  /** Without guards, an armed creator gets its Pod. */
  lemma ArmedRuns(u: World, w: World, key: string)
    requires Reaches(u, w) && !w.guarded && key in w.creators && Armed(w.creators[key])
    ensures exists v :: Reaches(u, v) && Fallen(v)
  {
    var c := w.creators[key];
    if c.consumer.Pending? {
      PendingRuns(u, w, key);
    } else {
      var w1 := SetCreator(w, key, c.(consumer := Pending, pass := Idle));
      assert Next(w, CreateConsumer(key)) == w1;
      ReachesThen(u, w, CreateConsumer(key));
      PendingRuns(u, w1, key);
    }
  }

  lemma PendingRuns(u: World, w: World, key: string)
    requires Reaches(u, w) && !w.guarded && key in w.creators && w.creators[key].consumer.Pending?
    ensures exists v :: Reaches(u, v) && Fallen(v)
  {
    var v := SetCreator(w, key, w.creators[key].(consumer := Running));
    assert Next(w, PodStarts(key)) == v;
    ReachesThen(u, w, PodStarts(key));
    assert v.creators[key].consumer.Running?;
  }

  /** Every danger leads, in calm steps, to a Pod on a Worktree without guards. */
  lemma DangerIsReal(w: World)
    requires Inv(w) && Danger(w)
    ensures exists v :: Reaches(w, v) && Fallen(v)
  {
    var key :| key in w.creators && Endangers(w, key);
    var c := w.creators[key];
    assert CreatorOk(w, key, c);
    if Unseen(c, Exposed(w)) {
      UnseenIsReal(w, key);
    } else if !w.guarded {
      assert !Open(w) && !c.finalizer && Armed(c);
      ReachesSelf(w);
      ArmedRuns(w, w, key);
    } else if Loose(key, c, Open(w)) {
      LooseIsReal(w, key);
    } else {
      ForgottenIsReal(w, key);
    }
  }

  lemma UnseenIsReal(w: World, key: string)
    requires key in w.creators && Unseen(w.creators[key], Exposed(w))
    ensures exists v :: Reaches(w, v) && Fallen(v)
  {
    ReachesSelf(w);
    if !w.guarded {
      assert Fallen(w);
    } else {
      var v := w.(guarded := false, cleanup := Resting);
      ControllerReaches(w, w, RemoveGuard, v);
      assert v.creators[key].consumer.Running?;
    }
  }

  lemma LooseIsReal(w: World, key: string)
    requires w.guarded && key in w.creators && Loose(key, w.creators[key], Open(w)) && !w.creators[key].finalizer
    requires Timely(w, w.creators[key].pass)
    ensures exists v :: Reaches(w, v) && Fallen(v)
  {
    var c := w.creators[key];
    var w1 := w.(cleanup := Resting);
    ReachesSelf(w);
    ControllerReaches(w, w, CleanupCrash, w1);
    if c.consumer.Pending? {
      OthersRetire(w, w1, key);
    } else {
      var w2 := SetCreator(w1, key, c.(consumer := NoConsumer, blind := false));
      assert Next(w1, ConsumerStops(key)) == w2;
      ReachesThen(w, w1, ConsumerStops(key));
      OthersRetire(w, w2, key);
    }
  }

  /** The set loses the key of a creator, and its pass is over. */
  predicate Released(w: World, v: World, key: string)
    requires key in w.creators
  {
    && v.cleanup == w.cleanup && v.guarded == w.guarded && key !in v.holds.modes
    && key in v.creators && v.creators[key] == w.creators[key].(pass := Idle)
  }

  lemma ReleaseLands(u: World, w: World, key: string)
    requires Reaches(u, w) && key in w.creators
    requires w.creators[key].pass == AmendLoaded(w.version, w.holds, false)
    ensures exists v :: Reaches(u, v) && Released(w, v, key)
  {
    ReachesThen(u, w, AmendSave(key));
    assert Released(w, Next(w, AmendSave(key)), key);
  }

  lemma ReleaseReaches(w: World, key: string)
    requires key in w.creators && w.creators[key].blind && w.creators[key].exit.Present?
    ensures exists v :: Reaches(w, v) && Released(w, v, key)
  {
    var c := w.creators[key];
    assert w.creators[key := c] == w.creators;
    ReachesSelf(w);
    CrashReaches(w, w, key, c);
    var w1 := SetCreator(w, key, c.(pass := Idle));
    var w2 := SetCreator(w, key, c.(pass := AmendLoaded(w.version, w.holds, false)));
    assert w1.creators[key := w2.creators[key]] == w2.creators;
    assert Next(w1, AmendLoad(key, false)) == w2;
    ReachesThen(w, w1, AmendLoad(key, false));
    ReleaseLands(w, w2, key);
    var v :| Reaches(w, v) && Released(w2, v, key);
    assert Released(w, v, key);
  }

  /** A forgotten Job loses its key; then nobody sees it until its Pod starts. */
  lemma ForgottenIsReal(w: World, key: string)
    requires w.guarded && key in w.creators && Forgotten(w.creators[key])
    requires w.creators[key].exit.Present? && !w.creators[key].finalizer
    ensures exists v :: Reaches(w, v) && Fallen(v)
  {
    ReleaseReaches(w, key);
    var v :| Reaches(w, v) && Released(w, v, key);
    UnheldIsReal(w, v, key);
  }

  lemma UnheldIsReal(u: World, w: World, key: string)
    requires Reaches(u, w) && w.guarded && key in w.creators && Unheld(w, key)
    ensures exists v :: Reaches(u, v) && Fallen(v)
  {
    var w1 := w.(cleanup := Resting);
    ControllerReaches(u, w, CleanupCrash, w1);
    OthersRetire(u, w1, key);
  }

  predicate Unheld(w: World, key: string)
    requires key in w.creators
  {
    var c := w.creators[key];
    c.blind && !c.finalizer && c.consumer.Pending? && key !in w.holds.modes
  }

  lemma OthersRetire(u: World, w: World, key: string)
    requires Reaches(u, w) && w.cleanup.Resting? && w.guarded && key in w.creators
    requires Unheld(w, key) || (Loose(key, w.creators[key], Open(w)) && Timely(w, w.creators[key].pass))
    requires !w.creators[key].finalizer && !w.creators[key].consumer.Running?
    ensures exists v :: Reaches(u, v) && Fallen(v)
  {
    var v := RetireAll(w, w.creators.Keys - {key});
    RetireOthers(w, w.creators.Keys - {key});
    ReachesOn(u, w, v);
    DesertedIsReal(u, v, key);
  }

  lemma DesertedIsReal(u: World, w: World, key: string)
    requires Reaches(u, w) && Deserted(w) && w.guarded && key in w.creators && !w.creators[key].finalizer
    requires Armed(w.creators[key]) || (Loose(key, w.creators[key], Open(w)) && Timely(w, w.creators[key].pass))
    ensures exists v :: Reaches(u, v) && Fallen(v)
  {
    if Armed(w.creators[key]) {
      SweepAll(w);
      var v := SaveHolds(w, w.holds.(modes := map[]));
      assert Ready(v, key);
      ReadyIsReal(u, w, v, key);
    } else {
      GetsArmed(w, key);
      var v :| Reaches(w, v) && Ready(v, key) && v.guarded == w.guarded;
      ReadyIsReal(u, w, v, key);
    }
  }

  lemma ReadyIsReal(u: World, w: World, x: World, key: string)
    requires Reaches(u, w) && Reaches(w, x) && Ready(x, key) && x.guarded
    ensures exists v :: Reaches(u, v) && Fallen(v)
  {
    ReachesOn(u, w, x);
    GuardsFallFirst(x, key);
    var v :| Reaches(x, v) && Fallen(v);
    ReachesOn(u, x, v);
  }

  // ---- the exact condition ---------------------------------------------

  /**
   From every reachable state: some calm continuation ends with the guards gone
   and a Pod running, exactly if an owner has already gone astray and its Pod runs
   with no Pod list left before the guards, or can still start: from the Job or
   the pass of an owner that vanished, or from a forgotten Job.
   */
  lemma GuardsFailExactly(legacy: Option<Legacy>, steps: seq<Step>)
    ensures var w := Run(legacy, steps);
      Danger(w) <==> exists more :: Breaks(w, more)
  {
    EveryRunKeepsInv(legacy, steps);
    FailsExactly(Run(legacy, steps));
  }

  lemma FailsExactly(w: World)
    requires Inv(w)
    ensures Danger(w) <==> exists more :: Breaks(w, more)
  {
    if Danger(w) {
      DangerIsReal(w);
      var v :| Reaches(w, v) && Fallen(v);
      var more :| Calm(w, more) && RunFrom(w, more) == v;
      assert Breaks(w, more);
    } else {
      forall more ensures !Breaks(w, more) {
        if Calm(w, more) {
          SafeRunsStaySafe(w, more);
        }
      }
    }
  }

  /** If no owner goes astray, fallen guards exclude every Pod. */
  lemma CalmRunsAreSafe(legacy: Option<Legacy>, steps: seq<Step>)
    requires Calm(Start(legacy), steps)
    ensures !Danger(Run(legacy, steps)) && !Fallen(Run(legacy, steps))
  {
    EveryRunKeepsInv(legacy, []);
    SafeRunsStaySafe(Start(legacy), steps);
  }

  // ---- after the guards fell -------------------------------------------

  /** The guards are gone, nobody has a Job or Pod, and no pass has passed its second look. */
  predicate Over(w: World) {
    !w.guarded && forall k :: k in w.creators ==> !Live(w.creators[k]) && !w.creators[k].pass.Confirmed?
  }

  lemma OverStaysOver(w: World, step: Step)
    requires Inv(w) && Over(w)
    ensures Over(Next(w, step))
  {
    if HasCreator(w, step) {
      assert CreatorOk(w, step.key, w.creators[step.key]);
      OwnStepStaysOver(w, step, step.key, w.creators[step.key]);
    } else {
      OtherStepStaysOver(w, step);
    }
  }

  lemma OtherStepStaysOver(w: World, step: Step)
    requires CleanupOk(w) && !HasCreator(w, step) && Over(w)
    ensures Over(Next(w, step))
  {
    ControllerFrame(w, step);
    assert !CleanupStep(w, step).guarded;
  }

  lemma OwnStepStaysOver(w: World, step: Step, key: string, c: Creator)
    requires key in w.creators && w.creators[key] == c && CreatorOk(w, key, c) && Empty(w) && Over(w)
    ensures Over(CreatorStep(w, step, key, c))
  {
    if step.AdmitSave? {
      AdmitStaysOver(w, key, c, step.lost);
    } else if step.AmendSave? {
      AmendStaysOver(w, key, c);
    } else {
      MoveStaysOver(w, step, key, c);
      assert CreatorStep(w, step, key, c) == SetCreator(w, key, Move(w, step, c));
    }
  }

  lemma MoveStaysOver(w: World, step: Step, key: string, c: Creator)
    requires CreatorOk(w, key, c) && Empty(w) && !Live(c) && !c.pass.Confirmed?
    ensures !Live(Move(w, step, c)) && !Move(w, step, c).pass.Confirmed?
  {
  }

  lemma AdmitStaysOver(w: World, key: string, c: Creator, lost: bool)
    requires key in w.creators && w.creators[key] == c && !Live(c) && !c.pass.Confirmed?
    ensures StillOver(w, AdmitSaveStep(w, key, c, lost), key)
  {
    assert w.creators[key := c] == w.creators;
  }

  lemma AmendStaysOver(w: World, key: string, c: Creator)
    requires key in w.creators && w.creators[key] == c && !Live(c) && !c.pass.Confirmed?
    ensures StillOver(w, AmendSaveStep(w, key, c), key)
  {
    assert w.creators[key := c] == w.creators;
  }

  predicate StillOver(w: World, v: World, key: string) {
    && v.guarded == w.guarded && key in v.creators && v.creators == w.creators[key := v.creators[key]]
    && !Live(v.creators[key]) && !v.creators[key].pass.Confirmed?
  }

  lemma {:induction false} OverIsForGood(w: World, steps: seq<Step>)
    requires Inv(w) && Over(w)
    ensures Over(RunFrom(w, steps))
    decreases |steps|
  {
    if steps != [] {
      NextKeepsInv(w, steps[0]);
      OverStaysOver(w, steps[0]);
      OverIsForGood(Next(w, steps[0]), steps[1..]);
    }
  }

  predicate RunsLater(w: World, more: seq<Step>) {
    PodsRun(RunFrom(w, more))
  }

  /**
   Once the guards fell, no continuation whatever, calm or not, runs a Pod exactly
   if there is no Job or Pod then and no pass has passed its second look.
   */
  lemma FallIsFinalExactly(legacy: Option<Legacy>, steps: seq<Step>)
    requires !Run(legacy, steps).guarded
    ensures var w := Run(legacy, steps); Over(w) <==> forall more :: !RunsLater(w, more)
  {
    EveryRunKeepsInv(legacy, steps);
    FinalExactly(Run(legacy, steps));
  }

  lemma FinalExactly(w: World)
    requires Inv(w) && !w.guarded
    ensures Over(w) <==> forall more :: !RunsLater(w, more)
  {
    if Over(w) {
      forall more ensures !RunsLater(w, more) {
        OverIsForGood(w, more);
      }
    } else {
      var key :| key in w.creators && (Live(w.creators[key]) || w.creators[key].pass.Confirmed?);
      assert CreatorOk(w, key, w.creators[key]);
      if w.creators[key].consumer.Running? {
        assert RunsLater(w, []);
      } else {
        ReachesSelf(w);
        ArmedRuns(w, w, key);
        var v :| Reaches(w, v) && Fallen(v);
        var more :| Calm(w, more) && RunFrom(w, more) == v;
        assert RunsLater(w, more);
      }
    }
  }

  // ---- the sweep's single Pod list -------------------------------------

  /**
   A sweep lists the Pods once. An exec that creates its Pod and vanishes after
   that is judged stale by the old list: its key goes while its Pod runs, and
   only the cleanup's own Pod list holds the guards for it.
   */
  lemma SweepMissesLateOwner(w: World, key: string)
    requires w.cleanup.Judging? && w.cleanup.listed && key in w.cleanup.seen && key in w.creators
    requires var c := w.creators[key]; c.exit.Present? && !c.finalizer && c.consumer.Running? && c.pass.Idle?
    ensures exists v ::
      Reaches(w, v) && key in v.creators && v.creators[key].consumer.Running? && key !in v.holds.modes
  {
    var w1 := SetCreator(w, key, w.creators[key].(exit := Unlisted));
    assert Next(w, CreatorGone(key)) == w1;
    ReachesNext(w, CreatorGone(key));
    SweepTakesGoneOwner(w, w1, key);
  }

  lemma SweepTakesGoneOwner(u: World, w: World, key: string)
    requires Reaches(u, w) && w.cleanup.Judging? && w.cleanup.listed && key in w.cleanup.seen && key in w.creators
    requires !w.creators[key].exit.Present?
    ensures exists v ::
      Reaches(u, v) && key in v.creators && v.creators[key] == w.creators[key] && key !in v.holds.modes
  {
    var stale := w.cleanup.stale + {key};
    var w1 := w.(cleanup := Judging(w.cleanup.seen, stale, true));
    NextControls(w, Judge(key));
    assert CleanupStep(w, Judge(key)) == w1;
    ReachesThen(u, w, Judge(key));
    SweepWrites(u, w1, stale);
    var v := SaveHolds(w1, Drop(w1.holds, stale)).(cleanup := Resting);
    assert key in v.creators && v.creators[key] == w.creators[key] && key !in v.holds.modes;
  }

  lemma NextControls(w: World, step: Step)
    requires Controls(step) || step.Judge?
    ensures Next(w, step) == CleanupStep(w, step)
  {
  }
}

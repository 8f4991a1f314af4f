/**
 When a live Job can lose its hold on the Repository: exactly when its name was
 never recorded, because the status write that should have done so was answered
 from a cache that did not show the request.
 */
module RepositoryRaces {
  import opened Options
  import opened HoldMap
  import opened Lists = Admission
  import opened Modes = HoldSet
  import opened RepositoryProtocol

  /** The Job runs and its owner's key is not in the access Lease. */
  predicate Unheld(w: World, key: string) {
    key in w.owners && w.owners[key].consumer.Live? && !Has(w.holds, key, ModeOf(w.owners[key].kind))
  }

  predicate Loses(w: World, key: string, more: seq<Step>) {
    Unheld(RunFrom(w, more), key)
  }

  // ---- a recorded name is enough ---------------------------------------

  /** The name is recorded, or the request ended without a Job and creates none any more. */
  predicate Sealed(o: Owner) {
    && o.kind.Operation?
    && (|| o.recorded
        || (o.terminal && !o.consumer.Live? && (o.pass.Idle? || o.pass.ReleaseCheck? || Quiet(o.pass))))
  }

  lemma MoveStaysSealed(step: Step, o: Owner)
    requires Sealed(o)
    ensures Sealed(Move(step, o))
  {
  }

  lemma AcquireStaysSealed(w: World, key: string, o: Owner, lost: bool)
    requires key in w.owners && w.owners[key] == o && Sealed(o)
    ensures Sealed(AcquireSaveStep(w, key, o, lost).owners[key])
  {
  }

  lemma ReleaseStaysSealed(w: World, key: string, o: Owner, lost: bool)
    requires key in w.owners && w.owners[key] == o && Sealed(o)
    ensures Sealed(ReleaseSaveStep(w, key, o, lost).owners[key])
  {
  }

  lemma LoadsStaySealed(w: World, o: Owner, gone: bool)
    requires Sealed(o)
    ensures Sealed(AcquireLoadMove(o, w.holds, w.version))
    ensures Sealed(ReleaseLoadMove(o, w.holds, w.version, gone))
  {
  }

  lemma OwnStepStaysSealed(w: World, step: Step, key: string)
    requires key in w.owners && Sealed(w.owners[key])
    ensures key in OwnerStep(w, step, key, w.owners[key]).owners
    ensures Sealed(OwnerStep(w, step, key, w.owners[key]).owners[key])
  {
    var o := w.owners[key];
    if step.AcquireSave? {
      AcquireStaysSealed(w, key, o, step.lost);
    } else if step.ReleaseSave? {
      ReleaseStaysSealed(w, key, o, step.lost);
    } else if step.AcquireLoad? || step.ReleaseLoad? {
      LoadsStaySealed(w, o, step.ReleaseLoad? && step.repositoryGone);
    } else {
      MoveStaysSealed(step, o);
    }
  }

  lemma OthersLeaveAlone(w: World, step: Step, key: string)
    requires key in w.owners && w.owners.Keys <= w.used && !(HasOwner(w, step) && step.key == key)
    ensures key in Next(w, step).owners && Next(w, step).owners[key] == w.owners[key]
  {
  }

  lemma {:induction false} SealedIsHeld(w: World, key: string, steps: seq<Step>)
    requires Inv(w) && key in w.owners && Sealed(w.owners[key])
    ensures !Unheld(RunFrom(w, steps), key)
    decreases |steps|
  {
    if steps == [] {
      assert OwnerInv(w.holds, w.version, key, w.owners[key]);
    } else {
      NextKeepsInv(w, steps[0]);
      if HasOwner(w, steps[0]) && steps[0].key == key {
        OwnStepStaysSealed(w, steps[0], key);
      } else {
        OthersLeaveAlone(w, steps[0], key);
      }
      SealedIsHeld(Next(w, steps[0]), key, steps[1..]);
    }
  }

  // ---- an unrecorded Job can lose its hold -----------------------------

  lemma RunOne(w: World, step: Step, v: World)
    requires Next(w, step) == v
    ensures RunFrom(w, [step]) == v
  {
    assert [step][0] == step && [step][1..] == [];
    assert RunFrom(v, []) == v;
  }

  lemma {:induction false} RunTwo(w: World, a: seq<Step>, b: seq<Step>)
    ensures RunFrom(w, a + b) == RunFrom(RunFrom(w, a), b)
    decreases |a|
  {
    if a == [] {
      assert a + b == b;
    } else {
      RunTwo(Next(w, a[0]), a[1..], b);
      assert (a + b)[0] == a[0] && (a + b)[1..] == a[1..] + b;
    }
  }

  predicate Leads(w: World, steps: seq<Step>, v: World) {
    RunFrom(w, steps) == v
  }

  /** The world can be reached from another one. */
  ghost predicate Reaches(w: World, v: World) {
    exists steps :: Leads(w, steps, v)
  }

  lemma ReachesSelf(w: World)
    ensures Reaches(w, w)
  {
    assert Leads(w, [], w);
  }

  lemma ReachesThen(u: World, w: World, step: Step, v: World)
    requires Reaches(u, w) && Next(w, step) == v
    ensures Reaches(u, v)
  {
    var steps :| Leads(u, steps, w);
    RunTwo(u, steps, [step]);
    RunOne(w, step, v);
    assert Leads(u, steps + [step], v);
  }

  /** A step of one owner that touches only itself. */
  predicate Moves(step: Step) {
    step.UserDelete? || step.Crash? || step.Enter? || step.Protect? || step.Observe? || step.GateCheck?
    || step.Schedule? || step.CreateConsumer? || step.CheckConsumer?
  }

  lemma OwnerReaches(u: World, w: World, key: string, o: Owner, step: Step, d: Owner)
    requires Reaches(u, SetOwner(w, key, o)) && Moves(step) && step.key == key && Move(step, o) == d
    ensures Reaches(u, SetOwner(w, key, d))
  {
    var v := SetOwner(w, key, o);
    assert SetOwner(v, key, d) == SetOwner(w, key, d);
    ReachesThen(u, v, step, SetOwner(w, key, d));
  }

  /** The owner of an unrecorded Job is deleted and releases without looking for it. */
  lemma ReleaseFrees(w: World, key: string)
    requires key in w.owners && w.owners[key].kind.Operation? && w.owners[key].consumer.Live?
    requires !w.owners[key].recorded && w.owners[key].present && key in w.holds.modes
    ensures exists v :: Reaches(w, v) && Unheld(v, key)
  {
    var o0 := w.owners[key];
    var o1 := o0.(pass := Idle);
    var o2 := o1.(deleting := true);
    var o3 := o2.(pass := ReleaseCheck(false));
    var o4 := o3.(pass := Releasing(true));
    assert SetOwner(w, key, o0) == w;
    ReachesSelf(w);
    OwnerReaches(w, w, key, o0, Crash(key), o1);
    OwnerReaches(w, w, key, o1, UserDelete(key, true), o2);
    OwnerReaches(w, w, key, o2, Enter(key), o3);
    OwnerReaches(w, w, key, o3, CheckConsumer(key), o4);
    DropFrees(w, key, o4);
  }

  lemma DropFrees(w: World, key: string, o: Owner)
    requires Reaches(w, SetOwner(w, key, o)) && o.pass == Releasing(true) && o.consumer.Live? && key in w.holds.modes
    ensures exists v :: Reaches(w, v) && Unheld(v, key)
  {
    var w1 := SetOwner(w, key, o);
    var d := o.(pass := ReleaseLoaded(w.version, w.holds, true));
    var w2 := SetOwner(w, key, d);
    assert SetOwner(w1, key, d) == w2;
    ReachesThen(w, w1, ReleaseLoad(key, false), w2);
    var w3 := ReleaseSaveStep(w2, key, d, false);
    NextReleases(w2, key);
    ReachesThen(w, w2, ReleaseSave(key, false), w3);
  }

  lemma NextReleases(w: World, key: string)
    requires key in w.owners && w.owners[key].consumer.Live? && key in w.holds.modes
    requires w.owners[key].pass == ReleaseLoaded(w.version, w.holds, true)
    ensures
      var v := ReleaseSaveStep(w, key, w.owners[key], false);
      Next(w, ReleaseSave(key, false)) == v && Unheld(v, key)
  {
  }

  lemma SweepReaches(u: World, w: World, step: Step, v: World)
    requires Reaches(u, w) && SweepStep(w, step) == v
    requires step.SweepStart? || step.Judge? || step.SweepLoad? || step.SweepSave?
    ensures Reaches(u, v)
  {
    ReachesThen(u, w, step, v);
  }

  /** A key whose owner is gone is swept. */
  lemma SweepFrees(w: World, key: string)
    requires key in w.owners && w.owners[key].consumer.Live? && !w.owners[key].present && key in w.holds.modes
    ensures exists v :: Reaches(w, v) && Unheld(v, key)
  {
    var keys := w.holds.modes.Keys;
    var w1 := w.(sweeper := Judging(keys, {}));
    ReachesSelf(w);
    SweepReaches(w, w, SweepStart, w1);
    var w2 := w.(sweeper := Judging(keys, {} + {key}));
    SweepReaches(w, w1, Judge(key), w2);
    var w3 := w.(sweeper := SweepLoaded({} + {key}, w.version, w.holds));
    SweepReaches(w, w2, SweepLoad, w3);
    var w4 := SaveHolds(w, Drop(w.holds, {} + {key})).(sweeper := SweepIdle);
    SweepReaches(w, w3, SweepSave, w4);
    assert Unheld(w4, key);
  }

  /**
   The exact condition: from every reachable state, a live Job can come to run
   without its owner's key in the Lease exactly if its name is not recorded.
   */
  lemma LosesHoldExactly(steps: seq<Step>, key: string)
    requires var w := Run(steps);
      key in w.owners && w.owners[key].kind.Operation? && w.owners[key].consumer.Live?
    ensures var w := Run(steps); !w.owners[key].recorded <==> exists more :: Loses(w, key, more)
  {
    EveryRunKeepsInv(steps);
    LosesExactly(Run(steps), key);
  }

  lemma LosesExactly(w: World, key: string)
    requires Inv(w) && key in w.owners && w.owners[key].kind.Operation? && w.owners[key].consumer.Live?
    ensures !w.owners[key].recorded <==> exists more :: Loses(w, key, more)
  {
    if w.owners[key].recorded {
      forall more ensures !Loses(w, key, more) {
        SealedIsHeld(w, key, more);
      }
    } else {
      if key !in w.holds.modes {
        ReachesSelf(w);
        assert Unheld(w, key);
      } else if w.owners[key].present {
        ReleaseFrees(w, key);
      } else {
        SweepFrees(w, key);
      }
      var v :| Reaches(w, v) && Unheld(v, key);
      ReachesLoses(w, key, v);
    }
  }

  lemma ReachesLoses(w: World, key: string, v: World)
    requires Reaches(w, v) && Unheld(v, key)
    ensures exists more :: Loses(w, key, more)
  {
    var more :| Leads(w, more, v);
    assert Loses(w, key, more);
  }

  // ---- the run ---------------------------------------------------------

  lemma {:induction false} RunFromSnoc(w: World, steps: seq<Step>, k: nat)
    requires k < |steps|
    ensures RunFrom(w, steps[..k + 1]) == Next(RunFrom(w, steps[..k]), steps[k])
  {
    RunTwo(w, steps[..k], [steps[k]]);
    assert steps[..k + 1] == steps[..k] + [steps[k]];
    RunOne(RunFrom(w, steps[..k]), steps[k], Next(RunFrom(w, steps[..k]), steps[k]));
  }

  lemma StepsTo(w: World, steps: seq<Step>, k: nat, u: World, v: World)
    requires k < |steps| && RunFrom(w, steps[..k]) == u && Next(u, steps[k]) == v
    ensures RunFrom(w, steps[..k + 1]) == v
  {
    RunFromSnoc(w, steps, k);
  }

  /** One RepositoryExec under a key. */
  function Solo(key: string, holds: Hold, version: nat, o: Owner): World {
    World(holds, version, map[key := o], {key}, SweepIdle)
  }

  function Exec(deleting: bool, finalizer: bool, live: bool, pass: Pass): Owner {
    Owner(Operation, true, deleting, finalizer, false, false, if live then Live else NoConsumer, pass)
  }

  lemma SoloMoves(w: World, steps: seq<Step>, k: nat, key: string, holds: Hold, version: nat, o: Owner, d: Owner)
    requires k < |steps| && RunFrom(w, steps[..k]) == Solo(key, holds, version, o)
    requires Moves(steps[k]) && steps[k].key == key && Move(steps[k], o) == d
    ensures RunFrom(w, steps[..k + 1]) == Solo(key, holds, version, d)
  {
    assert map[key := o][key := d] == map[key := d];
    StepsTo(w, steps, k, Solo(key, holds, version, o), Solo(key, holds, version, d));
  }

  lemma ExecAppears(key: string, w: World, s: seq<Step>)
    requires w == START && |s| >= 1 && s[0] == NewOwner(key, Operation)
    ensures RunFrom(w, s[..1]) == Solo(key, NOBODY, 0, Exec(false, false, false, Idle))
  {
    assert s[..0] == [] && {} + {key} == {key};
    StepsTo(w, s, 0, w, Solo(key, NOBODY, 0, Exec(false, false, false, Idle)));
  }

  /** The exec is protected and finds no Job. */
  lemma ExecActs(key: string, w: World, s: seq<Step>)
    requires |s| >= 4 && RunFrom(w, s[..1]) == Solo(key, NOBODY, 0, Exec(false, false, false, Idle))
    requires s[1] == Enter(key) && s[2] == Protect(key) && s[3] == Observe(key, false, false)
    ensures RunFrom(w, s[..4]) == Solo(key, NOBODY, 0, Exec(false, true, false, Acting))
  {
    var entered := Exec(false, false, false, Entered(false, false));
    var observing := Exec(false, true, false, Observing(false));
    SoloMoves(w, s, 1, key, NOBODY, 0, Exec(false, false, false, Idle), entered);
    SoloMoves(w, s, 2, key, NOBODY, 0, entered, observing);
    SoloMoves(w, s, 3, key, NOBODY, 0, observing, Exec(false, true, false, Acting));
  }

  function Held(key: string): Hold {
    Hold(false, map[key := WRITE])
  }

  /** It is admitted. */
  lemma ExecAdmitted(key: string, w: World, s: seq<Step>)
    requires |s| >= 7 && RunFrom(w, s[..4]) == Solo(key, NOBODY, 0, Exec(false, true, false, Acting))
    requires s[4] == AcquireLoad(key) && s[5] == AcquireSave(key, false) && s[6] == GateCheck(key, Clear)
    ensures RunFrom(w, s[..7]) == Solo(key, Held(key), 1, Exec(false, true, false, Permitted))
  {
    var loaded := Exec(false, true, false, AcquireLoaded(0, NOBODY));
    var w4 := Solo(key, NOBODY, 0, Exec(false, true, false, Acting));
    assert w4.owners[key := loaded] == map[key := loaded];
    StepsTo(w, s, 4, w4, Solo(key, NOBODY, 0, loaded));
    FirstAdmission(key);
    StepsTo(w, s, 5, Solo(key, NOBODY, 0, loaded), Solo(key, Held(key), 1, Exec(false, true, false, Checking)));
    SoloMoves(w, s, 6, key, Held(key), 1, Exec(false, true, false, Checking), Exec(false, true, false, Permitted));
  }

  lemma FirstAdmission(key: string)
    ensures Next(Solo(key, NOBODY, 0, Exec(false, true, false, AcquireLoaded(0, NOBODY))), AcquireSave(key, false))
      == Solo(key, Held(key), 1, Exec(false, true, false, Checking))
  {
    var o := Exec(false, true, false, AcquireLoaded(0, NOBODY));
    var w := Solo(key, NOBODY, 0, o);
    assert HoldMap.Admit(NOBODY, key, WRITE, RepositoryPolicy) == HoldMap.Decision(true, true, false, Held(key));
    assert AcquireSaveStep(w, key, o, false) == Solo(key, Held(key), 1, Exec(false, true, false, Checking));
  }

  /** The write of its Job's name is missed, and the Job is created. */
  lemma ExecCreates(key: string, w: World, s: seq<Step>)
    requires |s| >= 9 && RunFrom(w, s[..7]) == Solo(key, Held(key), 1, Exec(false, true, false, Permitted))
    requires s[7] == Schedule(key, true) && s[8] == CreateConsumer(key, false)
    ensures RunFrom(w, s[..9]) == Solo(key, Held(key), 1, Exec(false, true, true, Idle))
  {
    var h := Held(key);
    SoloMoves(w, s, 7, key, h, 1, Exec(false, true, false, Permitted), Exec(false, true, false, Scheduled));
    SoloMoves(w, s, 8, key, h, 1, Exec(false, true, false, Scheduled), Exec(false, true, true, Idle));
  }

  /** The exec is deleted and does not look for its Job. */
  lemma ExecReleases(key: string, w: World, s: seq<Step>)
    requires |s| >= 12 && RunFrom(w, s[..9]) == Solo(key, Held(key), 1, Exec(false, true, true, Idle))
    requires s[9] == UserDelete(key, false) && s[10] == Enter(key) && s[11] == CheckConsumer(key)
    ensures RunFrom(w, s[..12]) == Solo(key, Held(key), 1, Exec(true, true, true, Releasing(true)))
  {
    var h := Held(key);
    var checking := Exec(true, true, true, ReleaseCheck(false));
    SoloMoves(w, s, 9, key, h, 1, Exec(false, true, true, Idle), Exec(true, true, true, Idle));
    SoloMoves(w, s, 10, key, h, 1, Exec(true, true, true, Idle), checking);
    SoloMoves(w, s, 11, key, h, 1, checking, Exec(true, true, true, Releasing(true)));
  }

  /** Runs that begin so. */
  predicate Unrecorded(key: string, s: seq<Step>) {
    && |s| >= 14
    && s[0] == NewOwner(key, Operation) && s[1] == Enter(key) && s[2] == Protect(key)
      && s[3] == Observe(key, false, false)
    && s[4] == AcquireLoad(key) && s[5] == AcquireSave(key, false) && s[6] == GateCheck(key, Clear)
    && s[7] == Schedule(key, true) && s[8] == CreateConsumer(key, false) && s[9] == UserDelete(key, false)
    && s[10] == Enter(key) && s[11] == CheckConsumer(key)
    && s[12] == ReleaseLoad(key, false) && s[13] == ReleaseSave(key, false)
  }

  lemma ExecFreed(key: string, w: World, s: seq<Step>)
    requires |s| >= 14 && s[12] == ReleaseLoad(key, false) && s[13] == ReleaseSave(key, false)
    requires RunFrom(w, s[..12]) == Solo(key, Held(key), 1, Exec(true, true, true, Releasing(true)))
    ensures Unheld(RunFrom(w, s[..14]), key)
  {
    var loaded := Exec(true, true, true, ReleaseLoaded(1, Held(key), true));
    var w12 := Solo(key, Held(key), 1, Exec(true, true, true, Releasing(true)));
    assert w12.owners[key := loaded] == map[key := loaded];
    var w13 := Solo(key, Held(key), 1, loaded);
    StepsTo(w, s, 12, w12, w13);
    NextReleases(w13, key);
    StepsTo(w, s, 13, w13, ReleaseSaveStep(w13, key, loaded, false));
  }

  /** A deleted exec whose Job was never recorded releases its key while that Job runs. */
  lemma UnrecordedJobLosesHold(key: string, w: World, s: seq<Step>)
    requires w == START && Unrecorded(key, s)
    ensures Unheld(RunFrom(w, s[..14]), key)
  {
    ExecAppears(key, w, s);
    ExecActs(key, w, s);
    ExecAdmitted(key, w, s);
    ExecCreates(key, w, s);
    ExecReleases(key, w, s);
    ExecFreed(key, w, s);
  }
}

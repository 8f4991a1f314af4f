/**
 Any number of RepositoryExecs, RepositorySyncs and Worktree clones sharing one
 Repository volume. Each owner runs serialized reconcile passes that may crash
 between any two API calls; the access Lease is changed only by guarded saves.
 */
module RepositoryProtocol {
  import opened Options
  import opened HoldMap
  import opened Lists = Admission
  import opened Modes = HoldSet

  /** An Operation runs one Job; a Clone creates one PVC from the parent. */
  datatype Kind = Operation | Clone

  function ModeOf(kind: Kind): Mode {
    if kind.Operation? then WRITE else CLONE
  }

  /** A Job with its Pods, or a clone PVC, which is live until it is Bound. */
  datatype Consumer = NoConsumer | Live | Ended

  /** Where the owner's current reconcile pass stands. */
  datatype Pass =
    | Idle
    | Entered(protected: bool, recorded: bool)
    | Observing(recorded: bool)
    | Acting
    | AcquireLoaded(version: nat, snapshot: Hold)
    | Checking
    | Permitted
    | Scheduled
    | ReleaseCheck(recorded: bool)
    | Releasing(last: bool)
    | ReleaseLoaded(version: nat, snapshot: Hold, last: bool)
    | Released

  datatype Owner = Owner(
    kind: Kind,
    present: bool,
    deleting: bool,
    finalizer: bool,
    terminal: bool,
    recorded: bool,
    consumer: Consumer,
    pass: Pass)

  datatype Sweeper =
    | SweepIdle
    | Judging(seen: set<string>, stale: set<string>)
    | SweepLoaded(stale: set<string>, version: nat, snapshot: Hold)

  /** The Lease (holds at version), the owners by holder key, and the sweeper. */
  datatype World = World(holds: Hold, version: nat, owners: map<string, Owner>, used: set<string>, sweeper: Sweeper)

  /** What the API answers to the gate's checks after a recorded admission. */
  datatype Answer = RepositoryChanged | ConsumersRemain | Clear

  datatype Step =
    | NewOwner(key: string, kind: Kind)
    | UserDelete(key: string, guarded: bool)
    | Collect(key: string)
    | ConsumerEnds(key: string)
    | ConsumerVanishes(key: string)
    | Crash(key: string)
    | OutsideAdmit(key: string, mode: Mode)
    | OutsideRelease(key: string)
    | Enter(key: string)
    | Protect(key: string)
    | Observe(key: string, conflict: bool, missed: bool)
    | LoseRepository(key: string)
    | GiveUp(key: string)
    | AcquireLoad(key: string)
    | AcquireSave(key: string, lost: bool)
    | GateCheck(key: string, answer: Answer)
    | Abandon(key: string)
    | Schedule(key: string, missed: bool)
    | CreateConsumer(key: string, taken: bool)
    | CheckConsumer(key: string)
    | ReleaseLoad(key: string, repositoryGone: bool)
    | ReleaseSave(key: string, lost: bool)
    | RemoveFinalizer(key: string)
    | SweepStart
    | Judge(key: string)
    | SweepLoad
    | SweepSave

  function SetOwner(w: World, key: string, o: Owner): World {
    w.(owners := w.owners[key := o])
  }

  /** A guarded save of a changed set; an unchanged set is not written. */
  function SaveHolds(w: World, h: Hold): World {
    if h == w.holds then w else w.(holds := h, version := w.version + 1)
  }

  // ---- one owner's pass ------------------------------------------------

  /** Reads the request: terminal or deleting requests only release. */
  function EnterMove(o: Owner): Owner {
    if !o.pass.Idle? || !o.present then o
    else if o.deleting || o.terminal then o.(pass := ReleaseCheck(o.recorded))
    else o.(pass := Entered(o.finalizer, o.recorded))
  }

  /** Adds the finalizer; an object that is deleting or gone refuses it. */
  function ProtectMove(o: Owner): Owner {
    if !o.pass.Entered? then o
    else if o.pass.protected then o.(pass := Observing(o.pass.recorded))
    else if o.present && !o.deleting then o.(finalizer := true, pass := Observing(o.pass.recorded))
    else o.(pass := Idle)
  }

  /**
   observeOneShotJob, or the Worktree's claim resolution, and its outcome. A
   status write that the cache answers in place of the request is missed.
   */
  function ObserveMove(o: Owner, conflict: bool, missed: bool): Owner {
    if !o.pass.Observing? then o
    else if o.kind.Operation? then
      match o.consumer
      case Live => o.(recorded := o.recorded || !missed, pass := Idle)
      case Ended => if missed then o.(pass := Idle) else o.(terminal := true, recorded := true, pass := Idle)
      case NoConsumer =>
        if missed && (conflict || o.pass.recorded) then o.(pass := Idle)
        else if conflict then o.(terminal := true, recorded := false, pass := Idle)
        else if o.pass.recorded then o.(terminal := true, pass := Idle)
        else o.(pass := Acting)
    else
      match o.consumer
      case Live => o.(recorded := true, pass := Idle)
      case Ended => o.(pass := Releasing(false))
      case NoConsumer =>
        if conflict then o.(pass := Idle)
        else if o.pass.recorded then o.(pass := Releasing(false))
        else o.(pass := Acting)
  }

  /** A sync whose Repository is gone ends before it looks for its Job, which may still run. */
  function LoseRepositoryMove(o: Owner): Owner {
    if !o.pass.Observing? || !o.kind.Operation? then o else o.(terminal := true, pass := Idle)
  }

  /** A missing or failed Repository ends an operation and frees a clone. */
  function GiveUpMove(o: Owner): Owner {
    if !o.pass.Acting? then o
    else if o.kind.Operation? then o.(terminal := true, pass := Idle)
    else o.(pass := Releasing(false))
  }

  /** Gate.Acquire after the reservation: drop it, keep it, or permit creation. */
  function GateCheckMove(o: Owner, answer: Answer): Owner {
    if !o.pass.Checking? then o
    else match answer
    case RepositoryChanged => o.(pass := Releasing(false))
    case ConsumersRemain => o.(pass := Idle)
    case Clear => o.(pass := Permitted)
  }

  /** A missing Credential ends an operation; a rejected plan frees a clone. */
  function AbandonMove(o: Owner): Owner {
    if !o.pass.Permitted? then o
    else if o.kind.Operation? then o.(terminal := true, pass := Idle)
    else o.(pass := Releasing(false))
  }

  /** The Job name is recorded before the Job is created, unless that write is missed. */
  function ScheduleMove(o: Owner, missed: bool): Owner {
    if !o.pass.Permitted? || o.kind.Clone? then o
    else o.(recorded := o.recorded || !missed, pass := Scheduled)
  }

  function CreateMove(o: Owner, taken: bool): Owner {
    if (o.kind.Operation? && !o.pass.Scheduled?) || (o.kind.Clone? && !o.pass.Permitted?) then o
    else if taken || !o.consumer.NoConsumer? then o.(pass := Idle)
    else o.(consumer := Live, pass := Idle)
  }

  /**
   releaseRepositoryOperation and reconcileDelete wait for live consumers;
   without a recorded name none is looked for.
   */
  function CheckConsumerMove(o: Owner): Owner {
    if !o.pass.ReleaseCheck? then o
    else if (o.kind.Clone? || o.pass.recorded) && o.consumer.Live? then o.(pass := Idle)
    else o.(pass := Releasing(true))
  }

  function AcquireLoadMove(o: Owner, holds: Hold, version: nat): Owner {
    if o.pass.Acting? then o.(pass := AcquireLoaded(version, holds)) else o
  }

  /** ReleaseNamed: a Repository that is gone has nothing left to release. */
  function ReleaseLoadMove(o: Owner, holds: Hold, version: nat, gone: bool): Owner {
    if !o.pass.Releasing? then o
    else if gone then o.(pass := if o.pass.last then Released else Idle)
    else o.(pass := ReleaseLoaded(version, holds, o.pass.last))
  }

  function RemoveFinalizerMove(o: Owner): Owner {
    if !o.pass.Released? then o else o.(finalizer := false, pass := Idle)
  }

  /** Users, the API server and the workload, between any two calls. */
  function WorldMove(step: Step, o: Owner): Owner {
    match step
    case UserDelete(_, guarded) => if o.finalizer || guarded then o.(deleting := true) else o.(present := false)
    case Collect(_) => if o.deleting && !o.finalizer then o.(present := false) else o
    case ConsumerEnds(_) => if o.consumer.Live? then o.(consumer := Ended) else o
    case ConsumerVanishes(_) => o.(consumer := NoConsumer)
    case Crash(_) => o.(pass := Idle)
    case _ => o
  }

  /** The steps of a pass that touch only the owner's own objects. */
  function Move(step: Step, o: Owner): Owner {
    match step
    case Enter(_) => EnterMove(o)
    case Protect(_) => ProtectMove(o)
    case Observe(_, conflict, missed) => ObserveMove(o, conflict, missed)
    case LoseRepository(_) => LoseRepositoryMove(o)
    case GiveUp(_) => GiveUpMove(o)
    case GateCheck(_, answer) => GateCheckMove(o, answer)
    case Abandon(_) => AbandonMove(o)
    case Schedule(_, missed) => ScheduleMove(o, missed)
    case CreateConsumer(_, taken) => CreateMove(o, taken)
    case CheckConsumer(_) => CheckConsumerMove(o)
    case RemoveFinalizer(_) => RemoveFinalizerMove(o)
    case _ => WorldMove(step, o)
  }

  /** holdset.Acquire: an unchanged result needs no write, a stale one retries. */
  function AcquireSaveStep(w: World, key: string, o: Owner, lost: bool): World {
    if !o.pass.AcquireLoaded? then w else
    var d := HoldMap.Admit(o.pass.snapshot, key, ModeOf(o.kind), RepositoryPolicy);
    if !d.changed then SetOwner(w, key, o.(pass := if d.admitted then Checking else Idle))
    else if o.pass.version != w.version then SetOwner(w, key, o.(pass := Acting))
    else SetOwner(SaveHolds(w, d.after), key, o.(pass := if lost then Idle else Checking))
  }

  /** holdset.Release of the owner's key. */
  function ReleaseSaveStep(w: World, key: string, o: Owner, lost: bool): World {
    if !o.pass.ReleaseLoaded? then w else
    var p := o.pass;
    var next := if p.last && !lost then Released else Idle;
    if key !in p.snapshot.modes then SetOwner(w, key, o.(pass := next))
    else if p.version != w.version then SetOwner(w, key, o.(pass := Releasing(p.last)))
    else SetOwner(SaveHolds(w, Drop(p.snapshot, {key})), key, o.(pass := next))
  }

  // ---- the whole system ------------------------------------------------

  function OwnerStep(w: World, step: Step, key: string, o: Owner): World {
    match step
    case AcquireSave(_, lost) => AcquireSaveStep(w, key, o, lost)
    case ReleaseSave(_, lost) => ReleaseSaveStep(w, key, o, lost)
    case AcquireLoad(_) => SetOwner(w, key, AcquireLoadMove(o, w.holds, w.version))
    case ReleaseLoad(_, gone) => SetOwner(w, key, ReleaseLoadMove(o, w.holds, w.version, gone))
    case _ => SetOwner(w, key, Move(step, o))
  }

  predicate HasOwner(w: World, step: Step) {
    && !step.NewOwner? && !step.OutsideAdmit? && !step.OutsideRelease?
    && !step.SweepStart? && !step.Judge? && !step.SweepLoad? && !step.SweepSave?
    && step.key in w.owners
  }

  /** holderOwnerGone for the owners of this protocol; others may be anything. */
  predicate OwnerGone(w: World, key: string) {
    key in w.owners ==> !w.owners[key].present
  }

  /** holdset.Sweep: staleness is judged outside the loop that removes. */
  function SweepStep(w: World, step: Step): World {
    match step
    case SweepStart => w.(sweeper := Judging(w.holds.modes.Keys, {}))
    case Judge(key) =>
      if w.sweeper.Judging? && key in w.sweeper.seen && OwnerGone(w, key)
      then w.(sweeper := Judging(w.sweeper.seen, w.sweeper.stale + {key})) else w
    case SweepLoad =>
      if w.sweeper.SweepIdle? then w
      else w.(sweeper := SweepLoaded(w.sweeper.stale, w.version, w.holds))
    case SweepSave =>
      if !w.sweeper.SweepLoaded? || w.sweeper.version != w.version then w
      else SaveHolds(w, Drop(w.sweeper.snapshot, w.sweeper.stale)).(sweeper := SweepIdle)
    case _ => w
  }

  function Next(w: World, step: Step): World {
    if HasOwner(w, step) then OwnerStep(w, step, step.key, w.owners[step.key])
    else match step
    case NewOwner(key, kind) =>
      if key in w.used then w
      else SetOwner(w, key, Owner(kind, true, false, false, false, false, NoConsumer, Idle)).(used := w.used + {key})
    case OutsideAdmit(key, mode) =>
      if key in w.owners then w
      else SaveHolds(w, HoldMap.Admit(w.holds, key, mode, RepositoryPolicy).after).(used := w.used + {key})
    case OutsideRelease(key) =>
      if key in w.owners then w else SaveHolds(w, Drop(w.holds, {key}))
    case _ => SweepStep(w, step)
  }

  const START := World(NOBODY, 0, map[], {}, SweepIdle)

  function RunFrom(w: World, steps: seq<Step>): World
    decreases |steps|
  {
    if steps == [] then w else RunFrom(Next(w, steps[0]), steps[1..])
  }

  function Run(steps: seq<Step>): World {
    RunFrom(START, steps)
  }

  // ---- the invariant ---------------------------------------------------

  /** A pass that may still create a consumer without asking again. */
  predicate Permission(p: Pass) {
    p.Checking? || p.Permitted? || p.Scheduled?
  }

  predicate NeedsFinalizer(p: Pass) {
    (p.Entered? && p.protected) || p.Observing? || p.Acting? || p.AcquireLoaded? || Permission(p)
  }

  predicate NothingYet(p: Pass) {
    p.Acting? || p.AcquireLoaded? || Permission(p)
  }

  predicate Quiet(p: Pass) {
    p.Releasing? || p.ReleaseLoaded? || p.Released?
  }

  predicate SnapshotOk(holds: Hold, version: nat, at: nat, snapshot: Hold) {
    at <= version && (at == version ==> snapshot == holds)
  }

  /** An operation that releases, or has released, without a recorded name: nobody looked for its Job. */
  predicate Freed(o: Owner) {
    && o.kind.Operation? && !o.recorded && (o.deleting || o.terminal)
    && (o.pass.Idle? || o.pass.ReleaseCheck? || Quiet(o.pass))
  }

  /** The owner's own invariant, given whether its key holds its mode now. */
  predicate Core(o: Owner, held: bool) {
    && (o.finalizer ==> o.present)
    && (NeedsFinalizer(o.pass) ==> o.finalizer)
    && (NothingYet(o.pass) ==> o.consumer.NoConsumer?)
    && (Quiet(o.pass) && o.consumer.Live? ==> Freed(o))
    && (o.consumer.Live? ==> (o.finalizer && held) || Freed(o))
    && (Permission(o.pass) ==> held)
    && (o.pass.ReleaseCheck? ==> o.pass.recorded == o.recorded && (o.deleting || o.terminal))
  }

  /** A loaded snapshot is current if its version is; a key seen stays held. */
  predicate SnapshotInv(holds: Hold, version: nat, key: string, o: Owner) {
    match o.pass
    case AcquireLoaded(at, snapshot) =>
      && SnapshotOk(holds, version, at, snapshot)
      && (Has(snapshot, key, ModeOf(o.kind)) ==> Has(holds, key, ModeOf(o.kind)))
    case ReleaseLoaded(at, snapshot, _) => SnapshotOk(holds, version, at, snapshot)
    case _ => true
  }

  predicate OwnerInv(holds: Hold, version: nat, key: string, o: Owner) {
    Core(o, Has(holds, key, ModeOf(o.kind))) && SnapshotInv(holds, version, key, o)
  }

  predicate StaleOk(w: World, stale: set<string>) {
    forall k :: k in stale ==> k in w.used && OwnerGone(w, k)
  }

  predicate SweeperInv(w: World) {
    match w.sweeper
    case SweepIdle => true
    case Judging(seen, stale) => seen <= w.used && StaleOk(w, stale)
    case SweepLoaded(stale, at, snapshot) => SnapshotOk(w.holds, w.version, at, snapshot) && StaleOk(w, stale)
  }

  predicate Inv(w: World) {
    && HoldMap.Allowed(RepositoryPolicy, w.holds)
    && w.holds.modes.Keys <= w.used
    && w.owners.Keys <= w.used
    && (forall k :: k in w.owners ==> OwnerInv(w.holds, w.version, k, w.owners[k]))
    && SweeperInv(w)
  }

  // ---- every step keeps it ---------------------------------------------

  /** The new set agrees with the old one on every key but one. */
  ghost predicate SameBut(h: Hold, h': Hold, key: string) {
    && h'.closed == h.closed
    && forall k :: k != key ==> (k in h.modes <==> k in h'.modes) && (k in h.modes ==> h.modes[k] == h'.modes[k])
  }

  /** Saving a set that differs only at key cannot disturb other owners. */
  lemma SaveKeepsInv(w: World, h: Hold, key: string, o: Owner)
    requires Inv(w) && key in w.owners
    requires SameBut(w.holds, h, key) && HoldMap.Allowed(RepositoryPolicy, h)
    requires var w' := SaveHolds(w, h); OwnerInv(w'.holds, w'.version, key, o)
    requires !w.owners[key].present ==> !o.present
    ensures Inv(SetOwner(SaveHolds(w, h), key, o))
  {
    var w' := SaveHolds(w, h);
    forall k | k in w.owners && k != key
      ensures OwnerInv(w'.holds, w'.version, k, w.owners[k])
    {
      assert OwnerInv(w.holds, w.version, k, w.owners[k]);
      assert k in h.modes <==> k in w.holds.modes;
    }
    forall k | k in h.modes
      ensures k in w.used
    {
      assert k != key ==> k in w.holds.modes;
    }
  }

  lemma OwnerChangeKeepsInv(w: World, key: string, o: Owner)
    requires Inv(w) && key in w.owners && OwnerInv(w.holds, w.version, key, o)
    requires !w.owners[key].present ==> !o.present
    ensures Inv(SetOwner(w, key, o))
  {
    SaveKeepsInv(w, w.holds, key, o);
  }

  lemma AcquireSaveKeepsInv(w: World, key: string, lost: bool)
    requires Inv(w) && key in w.owners
    ensures Inv(AcquireSaveStep(w, key, w.owners[key], lost))
  {
    var o := w.owners[key];
    assert OwnerInv(w.holds, w.version, key, o);
    if o.pass.AcquireLoaded? {
      var d := HoldMap.Admit(o.pass.snapshot, key, ModeOf(o.kind), RepositoryPolicy);
      if !d.changed {
        OwnerChangeKeepsInv(w, key, o.(pass := if d.admitted then Checking else Idle));
      } else if o.pass.version != w.version {
        OwnerChangeKeepsInv(w, key, o.(pass := Acting));
      } else {
        AdmitKeeps(w.holds, key, ModeOf(o.kind), RepositoryPolicy);
        SaveKeepsInv(w, d.after, key, o.(pass := if lost then Idle else Checking));
      }
    }
  }

  lemma ReleaseCommitKeepsInv(w: World, key: string, pass: Pass)
    requires Inv(w) && key in w.owners && Quiet(w.owners[key].pass) && (pass.Idle? || pass.Released?)
    ensures Inv(SetOwner(SaveHolds(w, Drop(w.holds, {key})), key, w.owners[key].(pass := pass)))
  {
    assert OwnerInv(w.holds, w.version, key, w.owners[key]);
    SaveKeepsInv(w, Drop(w.holds, {key}), key, w.owners[key].(pass := pass));
  }

  lemma QuietPassKeepsInv(w: World, key: string, pass: Pass)
    requires Inv(w) && key in w.owners && Quiet(w.owners[key].pass)
    requires pass.Idle? || pass.Released? || pass.Releasing?
    ensures Inv(SetOwner(w, key, w.owners[key].(pass := pass)))
  {
    assert OwnerInv(w.holds, w.version, key, w.owners[key]);
    OwnerChangeKeepsInv(w, key, w.owners[key].(pass := pass));
  }

  lemma ReleaseSaveKeepsInv(w: World, key: string, lost: bool)
    requires Inv(w) && key in w.owners
    ensures Inv(ReleaseSaveStep(w, key, w.owners[key], lost))
  {
    var o := w.owners[key];
    assert OwnerInv(w.holds, w.version, key, o);
    if o.pass.ReleaseLoaded? {
      var next := if o.pass.last && !lost then Released else Idle;
      QuietPassKeepsInv(w, key, next);
      QuietPassKeepsInv(w, key, Releasing(o.pass.last));
      ReleaseCommitKeepsInv(w, key, next);
    }
  }

  /** What a step of the owner itself must not disturb. */
  predicate Advances(o: Owner, o': Owner, held: bool) {
    && Core(o', held)
    && (!o.present ==> !o'.present)
    && o'.kind == o.kind
    && ((o'.pass.AcquireLoaded? || o'.pass.ReleaseLoaded?) ==> o'.pass == o.pass)
  }

  lemma WorldMoveAdvances(step: Step, o: Owner, held: bool)
    requires Core(o, held)
    ensures Advances(o, WorldMove(step, o), held)
  {
  }

  lemma FirstMovesAdvance(o: Owner, held: bool)
    requires Core(o, held)
    ensures Advances(o, EnterMove(o), held)
    ensures Advances(o, ProtectMove(o), held)
    ensures Advances(o, GiveUpMove(o), held)
  {
  }

  lemma ObserveAdvances(o: Owner, held: bool, conflict: bool, missed: bool)
    requires Core(o, held)
    ensures Advances(o, ObserveMove(o, conflict, missed), held)
    ensures Advances(o, LoseRepositoryMove(o), held)
  {
  }

  lemma PermittedMovesAdvance(o: Owner, held: bool, answer: Answer, missed: bool)
    requires Core(o, held)
    ensures Advances(o, GateCheckMove(o, answer), held)
    ensures Advances(o, AbandonMove(o), held)
    ensures Advances(o, ScheduleMove(o, missed), held)
  {
  }

  lemma LastMovesAdvance(o: Owner, held: bool, taken: bool)
    requires Core(o, held)
    ensures Advances(o, CreateMove(o, taken), held)
    ensures Advances(o, CheckConsumerMove(o), held)
    ensures Advances(o, RemoveFinalizerMove(o), held)
  {
  }

  lemma MoveAdvances(step: Step, o: Owner, held: bool)
    requires Core(o, held)
    ensures Advances(o, Move(step, o), held)
  {
    WorldMoveAdvances(step, o, held);
    FirstMovesAdvance(o, held);
    ObserveAdvances(o, held, step.Observe? && step.conflict, step.Observe? && step.missed);
    PermittedMovesAdvance(o, held, if step.GateCheck? then step.answer else Clear, step.Schedule? && step.missed);
    LastMovesAdvance(o, held, step.CreateConsumer? && step.taken);
  }

  lemma MoveKeepsInv(w: World, key: string, step: Step)
    requires Inv(w) && key in w.owners
    ensures Inv(SetOwner(w, key, Move(step, w.owners[key])))
  {
    var o := w.owners[key];
    MoveAdvances(step, o, Has(w.holds, key, ModeOf(o.kind)));
    OwnerChangeKeepsInv(w, key, Move(step, o));
  }

  lemma AcquireLoadKeepsInv(w: World, key: string)
    requires Inv(w) && key in w.owners
    ensures Inv(SetOwner(w, key, AcquireLoadMove(w.owners[key], w.holds, w.version)))
  {
    assert OwnerInv(w.holds, w.version, key, w.owners[key]);
    OwnerChangeKeepsInv(w, key, AcquireLoadMove(w.owners[key], w.holds, w.version));
  }

  lemma ReleaseLoadKeepsInv(w: World, key: string, gone: bool)
    requires Inv(w) && key in w.owners
    ensures Inv(SetOwner(w, key, ReleaseLoadMove(w.owners[key], w.holds, w.version, gone)))
  {
    assert OwnerInv(w.holds, w.version, key, w.owners[key]);
    OwnerChangeKeepsInv(w, key, ReleaseLoadMove(w.owners[key], w.holds, w.version, gone));
  }

  lemma OwnerStepKeepsInv(w: World, step: Step, key: string)
    requires Inv(w) && key in w.owners
    ensures Inv(OwnerStep(w, step, key, w.owners[key]))
  {
    var o := w.owners[key];
    if step.AcquireSave? {
      AcquireSaveKeepsInv(w, key, step.lost);
    } else if step.ReleaseSave? {
      ReleaseSaveKeepsInv(w, key, step.lost);
    } else if step.AcquireLoad? {
      AcquireLoadKeepsInv(w, key);
    } else if step.ReleaseLoad? {
      ReleaseLoadKeepsInv(w, key, step.repositoryGone);
    } else {
      MoveKeepsInv(w, key, step);
      assert OwnerStep(w, step, key, o) == SetOwner(w, key, Move(step, o));
    }
  }

  // ---- the environment and the sweeper ---------------------------------

  lemma NewOwnerKeepsInv(w: World, key: string, kind: Kind)
    requires Inv(w) && key !in w.used
    ensures Inv(SetOwner(w, key,
      Owner(kind, true, false, false, false, false, NoConsumer, Idle)).(used := w.used + {key}))
  {
  }

  /** Holders of other kinds come and go without disturbing these owners. */
  lemma OutsideSaveKeepsInv(w: World, h: Hold, key: string, used: set<string>)
    requires Inv(w) && key !in w.owners && w.used <= used
    requires SameBut(w.holds, h, key) && HoldMap.Allowed(RepositoryPolicy, h) && h.modes.Keys <= used
    ensures Inv(SaveHolds(w, h).(used := used))
  {
    var w' := SaveHolds(w, h);
    forall k | k in w.owners
      ensures OwnerInv(w'.holds, w'.version, k, w.owners[k])
    {
      assert OwnerInv(w.holds, w.version, k, w.owners[k]);
      assert k in h.modes <==> k in w.holds.modes;
    }
  }

  lemma SweepSaveKeepsInv(w: World)
    requires Inv(w) && w.sweeper.SweepLoaded? && w.sweeper.version == w.version
    ensures Inv(SaveHolds(w, Drop(w.holds, w.sweeper.stale)).(sweeper := SweepIdle))
  {
    var h := Drop(w.holds, w.sweeper.stale);
    forall k | k in w.owners
      ensures var w' := SaveHolds(w, h); OwnerInv(w'.holds, w'.version, k, w.owners[k])
    {
      assert OwnerInv(w.holds, w.version, k, w.owners[k]);
      assert w.owners[k].present ==> k !in w.sweeper.stale;
    }
  }

  lemma NextKeepsInv(w: World, step: Step)
    requires Inv(w)
    ensures Inv(Next(w, step))
  {
    if HasOwner(w, step) {
      OwnerStepKeepsInv(w, step, step.key);
    } else {
      match step
      case NewOwner(key, kind) =>
        if key !in w.used {
          NewOwnerKeepsInv(w, key, kind);
        }
      case OutsideAdmit(key, mode) =>
        if key !in w.owners {
          AdmitKeeps(w.holds, key, mode, RepositoryPolicy);
          OutsideSaveKeepsInv(w, HoldMap.Admit(w.holds, key, mode, RepositoryPolicy).after, key, w.used + {key});
        }
      case OutsideRelease(key) =>
        if key !in w.owners {
          OutsideSaveKeepsInv(w, Drop(w.holds, {key}), key, w.used);
        }
      case SweepSave =>
        if w.sweeper.SweepLoaded? && w.sweeper.version == w.version {
          SweepSaveKeepsInv(w);
        }
      case _ =>
    }
  }

  lemma {:induction false} RunFromKeepsInv(w: World, steps: seq<Step>)
    requires Inv(w)
    ensures Inv(RunFrom(w, steps))
    decreases |steps|
  {
    if steps != [] {
      NextKeepsInv(w, steps[0]);
      RunFromKeepsInv(Next(w, steps[0]), steps[1..]);
    }
  }

  lemma EveryRunKeepsInv(steps: seq<Step>)
    ensures Inv(Run(steps))
  {
    RunFromKeepsInv(START, steps);
  }

  // ---- the theorems ----------------------------------------------------

  /**
   Containment. After every run, each live Job or unbound clone PVC has its
   owner in the access Lease with the owner's mode, and that owner still exists
   behind its finalizer; except a Job whose name was never recorded and whose
   owner was deleted or ended.
   */
  lemma LiveConsumersAreHeld(steps: seq<Step>, key: string)
    requires var w := Run(steps); key in w.owners && w.owners[key].consumer.Live?
    ensures var w := Run(steps);
      || Freed(w.owners[key])
      || (Has(w.holds, key, ModeOf(w.owners[key].kind)) && w.owners[key].present && w.owners[key].finalizer)
  {
    EveryRunKeepsInv(steps);
    assert OwnerInv(Run(steps).holds, Run(steps).version, key, Run(steps).owners[key]);
  }

  /**
   Exclusion. After every run, a live Job is the only live consumer: it never
   overlaps another operation's Job or an unbound clone PVC, unless one of the
   two is a Job whose name was never recorded and whose owner was deleted or ended.
   */
  lemma WritersNeverOverlap(steps: seq<Step>, a: string, b: string)
    requires var w := Run(steps);
      a in w.owners && b in w.owners && w.owners[a].consumer.Live? && w.owners[b].consumer.Live?
    requires Run(steps).owners[a].kind.Operation?
    ensures var w := Run(steps); a == b || Freed(w.owners[a]) || Freed(w.owners[b])
  {
    EveryRunKeepsInv(steps);
    LiveConsumersAreHeld(steps, a);
    LiveConsumersAreHeld(steps, b);
  }

  /**
   A pass that was told Admitted without writing, because its key was already
   recorded, still finds its key recorded when it goes on to create.
   */
  lemma PermissionIsBacked(steps: seq<Step>, key: string)
    requires var w := Run(steps); key in w.owners && Permission(w.owners[key].pass)
    ensures var w := Run(steps);
      && Has(w.holds, key, ModeOf(w.owners[key].kind))
      && w.owners[key].consumer.NoConsumer?
  {
    EveryRunKeepsInv(steps);
    assert OwnerInv(Run(steps).holds, Run(steps).version, key, Run(steps).owners[key]);
  }
}

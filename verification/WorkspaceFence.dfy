/**
 The Workspace execution fence: Admit, Close and Reopen order themselves by the
 Workspace's resourceVersion, and the final DELETE is guarded by the version
 that Close left. Any number of executions, deleters and reopeners interleave
 with unrelated status writers.
 */
module WorkspaceFence {
  import opened Options

  datatype Workspace = Workspace(uid: nat, version: nat, closed: bool, deleting: bool)

  /** One WorkspaceExec, persisted with its finalizer before admission. */
  datatype Execution = Execution(target: nat, terminal: bool, admitted: bool, fetched: Option<Workspace>)

  datatype Deleter =
    | Resting
    | Captured(seen: Workspace)
    | Closing(uid: nat, version: nat)
    | Confirmed(uid: nat, version: nat)
    | Scanned(uid: nat, version: nat)

  /** clock is the largest version the server ever assigned. */
  datatype World = World(
    clock: nat,
    ws: Option<Workspace>,
    uids: nat,
    execs: map<nat, Execution>,
    deleters: map<nat, Deleter>,
    reopeners: map<nat, Workspace>,
    deleted: set<nat>)

  datatype Step =
    | NewWorkspace
    | Submit(e: nat, target: nat)
    | Finish(e: nat)
    | Crash(e: nat)
    | AdmitFetch(e: nat)
    | AdmitUpdate(e: nat, bump: bool, lost: bool)
    | Capture(d: nat)
    | CloseWrite(d: nat, pruned: bool)
    | Confirm(d: nat)
    | Scan(d: nat)
    | GuardedDelete(d: nat, finalizers: bool)
    | ReopenFetch(r: nat)
    | ReopenPatch(r: nat)
    | StatusWrite
    | UserDelete
    | Collect

  /** Check: a deleting or fenced Workspace admits nothing. */
  predicate Open(ws: Workspace) {
    !ws.deleting && !ws.closed
  }

  /** A write that the server accepts gets a version never used before. */
  function Commit(w: World, ws: Workspace): World {
    w.(clock := w.clock + 1, ws := Some(ws.(version := w.clock + 1)))
  }

  /** An optimistic write succeeds iff the version is still the stored one. */
  predicate Current(w: World, version: nat) {
    w.ws.Some? && w.ws.value.version == version
  }

  function SetDeleter(w: World, d: nat, phase: Deleter): World {
    w.(deleters := w.deleters[d := phase])
  }

  function PhaseOf(w: World, d: nat): Deleter {
    if d in w.deleters then w.deleters[d] else Resting
  }

  /** Gate.Admit up to its conditional update. */
  function AdmitFetchStep(w: World, e: nat): World {
    if e !in w.execs || w.execs[e].terminal || w.ws.None? then w
    else if w.ws.value.uid != w.execs[e].target || !Open(w.ws.value) then w
    else w.(execs := w.execs[e := w.execs[e].(fetched := w.ws)])
  }

  /** The conditional update: it may be a no-op that keeps the version. */
  function AdmitUpdateStep(w: World, e: nat, bump: bool, lost: bool): World {
    if e !in w.execs || w.execs[e].fetched.None? then w else
    var exec := w.execs[e].(fetched := None);
    if !Current(w, w.execs[e].fetched.value.version) then w.(execs := w.execs[e := exec])
    else
      var w' := if bump then Commit(w, w.ws.value) else w;
      w'.(execs := w.execs[e := exec.(admitted := exec.admitted || !lost)])
  }

  /** Gate.Close's patch; an older CRD prunes the field it sets. */
  function CloseWriteStep(w: World, d: nat, pruned: bool): World {
    var p := PhaseOf(w, d);
    if !p.Captured? then w
    else if p.seen.closed then SetDeleter(w, d, Closing(p.seen.uid, p.seen.version))
    else if !Current(w, p.seen.version) then SetDeleter(w, d, Resting)
    else
      var w' := Commit(w, w.ws.value.(closed := !pruned));
      SetDeleter(w', d, Closing(p.seen.uid, w'.clock))
  }

  /** Gate.Close's confirming read, which never replaces the kept version. */
  function ConfirmStep(w: World, d: nat): World {
    var p := PhaseOf(w, d);
    if !p.Closing? then w
    else if Current(w, p.version) && w.ws.value.closed && w.ws.value.uid == p.uid
    then SetDeleter(w, d, Confirmed(p.uid, p.version))
    else SetDeleter(w, d, Resting)
  }

  predicate Active(w: World, uid: nat) {
    exists e :: e in w.execs && w.execs[e].target == uid && !w.execs[e].terminal
  }

  function ScanStep(w: World, d: nat): World {
    var p := PhaseOf(w, d);
    if !p.Confirmed? then w
    else if Active(w, p.uid) then SetDeleter(w, d, Resting)
    else SetDeleter(w, d, Scanned(p.uid, p.version))
  }

  /** DELETE with UID and resourceVersion preconditions. */
  function GuardedDeleteStep(w: World, d: nat, finalizers: bool): World {
    var p := PhaseOf(w, d);
    if !p.Scanned? then w
    else if !Current(w, p.version) || w.ws.value.uid != p.uid then SetDeleter(w, d, Resting)
    else
      var w' := if finalizers then Commit(w, w.ws.value.(deleting := true)) else w.(ws := None);
      SetDeleter(w'.(deleted := w.deleted + {p.uid}), d, Resting)
  }

  /** Gate.Reopen: a deleting or open Workspace is left alone. */
  function ReopenFetchStep(w: World, r: nat): World {
    if w.ws.None? || w.ws.value.deleting || !w.ws.value.closed then w
    else w.(reopeners := w.reopeners[r := w.ws.value])
  }

  function ReopenPatchStep(w: World, r: nat): World {
    if r !in w.reopeners then w
    else
      var w' := if Current(w, w.reopeners[r].version) then Commit(w, w.ws.value.(closed := false)) else w;
      w'.(reopeners := w.reopeners - {r})
  }

  function ExecStep(w: World, step: Step): World {
    match step
    case Submit(e, target) =>
      if e in w.execs then w else w.(execs := w.execs[e := Execution(target, false, false, None)])
    case Finish(e) =>
      if e !in w.execs then w
      else w.(execs := w.execs[e := w.execs[e].(terminal := true)])
    case Crash(e) =>
      if e !in w.execs then w else w.(execs := w.execs[e := w.execs[e].(fetched := None)])
    case AdmitFetch(e) => AdmitFetchStep(w, e)
    case AdmitUpdate(e, bump, lost) => AdmitUpdateStep(w, e, bump, lost)
    case _ => w
  }

  function DeleterStep(w: World, step: Step): World {
    match step
    case Capture(d) =>
      if w.ws.None? || w.ws.value.deleting then w else SetDeleter(w, d, Captured(w.ws.value))
    case CloseWrite(d, pruned) => CloseWriteStep(w, d, pruned)
    case Confirm(d) => ConfirmStep(w, d)
    case Scan(d) => ScanStep(w, d)
    case GuardedDelete(d, finalizers) => GuardedDeleteStep(w, d, finalizers)
    case _ => w
  }

  function ObjectStep(w: World, step: Step): World {
    match step
    case NewWorkspace =>
      if w.ws.Some? then w
      else Commit(w, Workspace(w.uids, 0, false, false)).(uids := w.uids + 1)
    case ReopenFetch(r) => ReopenFetchStep(w, r)
    case ReopenPatch(r) => ReopenPatchStep(w, r)
    case StatusWrite => if w.ws.None? then w else Commit(w, w.ws.value)
    case UserDelete => if w.ws.None? then w else Commit(w, w.ws.value.(deleting := true))
    case Collect => if w.ws.Some? && w.ws.value.deleting then w.(ws := None) else w
    case _ => w
  }

  function Next(w: World, step: Step): World {
    if step.Submit? || step.Finish? || step.Crash? || step.AdmitFetch? || step.AdmitUpdate? then ExecStep(w, step)
    else if step.Capture? || step.CloseWrite? || step.Confirm? || step.Scan?
      || step.GuardedDelete? then DeleterStep(w, step)
    else ObjectStep(w, step)
  }

  const START := World(0, None, 0, map[], map[], map[], {})

  function Run(steps: seq<Step>): World {
    if steps == [] then START else Next(Run(steps[..|steps| - 1]), steps[|steps| - 1])
  }

  // ---- the invariant ---------------------------------------------------

  /** A version names one stored value: a snapshot with it is that value. */
  predicate SnapshotOk(w: World, s: Workspace) {
    s.version <= w.clock && s.uid < w.uids && (Current(w, s.version) ==> w.ws.value == s)
  }

  predicate Settled(w: World, uid: nat) {
    forall e :: e in w.execs && w.execs[e].target == uid && w.execs[e].admitted ==> w.execs[e].terminal
  }

  predicate DeleterOk(w: World, p: Deleter) {
    match p
    case Resting => true
    case Captured(seen) => SnapshotOk(w, seen)
    case Closing(_, version) => version <= w.clock
    case Confirmed(uid, version) =>
      version <= w.clock && (Current(w, version) ==> w.ws.value.closed && w.ws.value.uid == uid)
    case Scanned(uid, version) =>
      version <= w.clock && (Current(w, version) ==> w.ws.value.closed && w.ws.value.uid == uid && Settled(w, uid))
  }

  /** A guarded DELETE ended this incarnation for good. */
  predicate Ended(w: World, uid: nat) {
    && uid < w.uids
    && (w.ws.Some? && w.ws.value.uid == uid ==> w.ws.value.deleting)
    && Settled(w, uid)
  }

  predicate Inv(w: World) {
    && (w.ws.Some? ==> w.ws.value.version <= w.clock && w.ws.value.uid < w.uids)
    && (forall e :: e in w.execs && w.execs[e].fetched.Some? ==>
          SnapshotOk(w, w.execs[e].fetched.value) && Open(w.execs[e].fetched.value)
          && w.execs[e].fetched.value.uid == w.execs[e].target)
    && (forall d :: d in w.deleters ==> DeleterOk(w, w.deleters[d]))
    && (forall r :: r in w.reopeners ==> SnapshotOk(w, w.reopeners[r]) && !w.reopeners[r].deleting)
    && (forall uid :: uid in w.deleted ==> Ended(w, uid))
  }

  /** A committed write of the same incarnation makes every snapshot stale. */
  lemma CommitKeepsInv(w: World, ws: Workspace)
    requires Inv(w) && w.ws.Some? && ws.uid == w.ws.value.uid
    requires w.ws.value.deleting ==> ws.deleting
    ensures Inv(Commit(w, ws))
  {
    var w' := Commit(w, ws);
    forall uid | uid in w.deleted ensures Ended(w', uid) {
      assert Ended(w, uid);
    }
  }

  lemma ExecStepKeepsInv(w: World, step: Step)
    requires Inv(w) && !step.AdmitUpdate?
    ensures Inv(ExecStep(w, step))
  {
    var w' := ExecStep(w, step);
    forall uid | Settled(w, uid) ensures Settled(w', uid) {
    }
    forall d | d in w.deleters ensures DeleterOk(w', w'.deleters[d]) {
      assert DeleterOk(w, w.deleters[d]);
    }
    forall uid | uid in w.deleted ensures Ended(w', uid) {
      assert Ended(w, uid);
    }
  }

  /**
   The heart of the fence: an admission that succeeds does so at a version whose
   Workspace is open, so never between a Close and the DELETE it guards.
   */
  lemma AdmissionIsOpen(w: World, e: nat)
    requires Inv(w) && e in w.execs && w.execs[e].fetched.Some?
    requires Current(w, w.execs[e].fetched.value.version)
    ensures Open(w.ws.value) && w.ws.value.uid == w.execs[e].target
    ensures w.execs[e].target !in w.deleted
    ensures forall d :: d in w.deleters && (w.deleters[d].Confirmed? || w.deleters[d].Scanned?) ==>
      !Current(w, w.deleters[d].version)
  {
    assert w.execs[e].target in w.deleted ==> Ended(w, w.execs[e].target);
    forall d | d in w.deleters && (w.deleters[d].Confirmed? || w.deleters[d].Scanned?)
      ensures !Current(w, w.deleters[d].version)
    {
      assert DeleterOk(w, w.deleters[d]);
    }
  }

  lemma AdmitKeepsInv(w: World, e: nat, admitted: bool)
    requires Inv(w) && e in w.execs && w.execs[e].fetched.Some?
    requires admitted ==> Current(w, w.execs[e].fetched.value.version)
    ensures Inv(w.(execs := w.execs[e := w.execs[e].(fetched := None, admitted := w.execs[e].admitted || admitted)]))
  {
    var w' := w.(execs := w.execs[e := w.execs[e].(fetched := None, admitted := w.execs[e].admitted || admitted)]);
    if admitted {
      AdmissionIsOpen(w, e);
    }
    forall uid | Settled(w, uid) && (admitted ==> uid != w.execs[e].target) ensures Settled(w', uid) {
    }
    forall d | d in w.deleters ensures DeleterOk(w', w'.deleters[d]) {
      assert DeleterOk(w, w.deleters[d]);
    }
    forall uid | uid in w.deleted ensures Ended(w', uid) {
      assert Ended(w, uid);
    }
  }

  lemma AdmitUpdateKeepsInv(w: World, e: nat, bump: bool, lost: bool)
    requires Inv(w)
    ensures Inv(AdmitUpdateStep(w, e, bump, lost))
  {
    if e in w.execs && w.execs[e].fetched.Some? {
      var current := Current(w, w.execs[e].fetched.value.version);
      AdmitKeepsInv(w, e, current && !lost);
      if current && bump {
        var w1 := w.(execs := w.execs[e := w.execs[e].(fetched := None, admitted := w.execs[e].admitted || !lost)]);
        CommitKeepsInv(w1, w.ws.value);
        assert AdmitUpdateStep(w, e, bump, lost) == Commit(w1, w.ws.value);
      }
    }
  }

  lemma SetDeleterKeepsInv(w: World, d: nat, p: Deleter)
    requires Inv(w) && DeleterOk(w, p)
    ensures Inv(SetDeleter(w, d, p))
  {
    var w' := SetDeleter(w, d, p);
    forall x | x in w'.deleters ensures DeleterOk(w', w'.deleters[x]) {
      assert x != d ==> DeleterOk(w, w.deleters[x]);
    }
    forall uid | uid in w.deleted ensures Ended(w', uid) {
      assert Ended(w, uid);
    }
  }

  lemma CloseWriteKeepsInv(w: World, d: nat, pruned: bool)
    requires Inv(w)
    ensures Inv(CloseWriteStep(w, d, pruned))
  {
    var p := PhaseOf(w, d);
    if p.Captured? {
      assert DeleterOk(w, p);
      SetDeleterKeepsInv(w, d, Closing(p.seen.uid, p.seen.version));
      SetDeleterKeepsInv(w, d, Resting);
      if Current(w, p.seen.version) {
        var w' := Commit(w, w.ws.value.(closed := !pruned));
        CommitKeepsInv(w, w.ws.value.(closed := !pruned));
        SetDeleterKeepsInv(w', d, Closing(p.seen.uid, w'.clock));
      }
    }
  }

  lemma ScanKeepsInv(w: World, d: nat)
    requires Inv(w)
    ensures Inv(ScanStep(w, d))
  {
    var p := PhaseOf(w, d);
    if p.Confirmed? {
      assert DeleterOk(w, p);
      SetDeleterKeepsInv(w, d, Resting);
      if !Active(w, p.uid) {
        assert Settled(w, p.uid);
        SetDeleterKeepsInv(w, d, Scanned(p.uid, p.version));
      }
    }
  }

  lemma RemovalKeepsInv(w: World)
    requires Inv(w)
    ensures Inv(w.(ws := None))
  {
    forall uid | uid in w.deleted ensures Ended(w.(ws := None), uid) {
      assert Ended(w, uid);
    }
  }

  lemma MarkDeletedKeepsInv(w: World, uid: nat)
    requires Inv(w) && Ended(w, uid)
    ensures Inv(w.(deleted := w.deleted + {uid}))
  {
    var w' := w.(deleted := w.deleted + {uid});
    forall u | u in w'.deleted ensures Ended(w', u) {
      assert Ended(w, u);
    }
    forall d | d in w.deleters ensures DeleterOk(w', w'.deleters[d]) {
      assert DeleterOk(w, w.deleters[d]);
    }
  }

  lemma GuardedDeleteKeepsInv(w: World, d: nat, finalizers: bool)
    requires Inv(w)
    ensures Inv(GuardedDeleteStep(w, d, finalizers))
  {
    var p := PhaseOf(w, d);
    if p.Scanned? {
      assert DeleterOk(w, p);
      if Current(w, p.version) && w.ws.value.uid == p.uid {
        var w' := if finalizers then Commit(w, w.ws.value.(deleting := true)) else w.(ws := None);
        if finalizers {
          CommitKeepsInv(w, w.ws.value.(deleting := true));
        } else {
          RemovalKeepsInv(w);
        }
        assert Settled(w, p.uid) && Settled(w', p.uid);
        MarkDeletedKeepsInv(w', p.uid);
        SetDeleterKeepsInv(w'.(deleted := w.deleted + {p.uid}), d, Resting);
      } else {
        SetDeleterKeepsInv(w, d, Resting);
      }
    }
  }

  lemma DeleterStepKeepsInv(w: World, step: Step)
    requires Inv(w)
    ensures Inv(DeleterStep(w, step))
  {
    match step
    case Capture(d) =>
      if w.ws.Some? {
        SetDeleterKeepsInv(w, d, Captured(w.ws.value));
      }
    case CloseWrite(d, pruned) => CloseWriteKeepsInv(w, d, pruned);
    case Confirm(d) =>
      var p := PhaseOf(w, d);
      if p.Closing? {
        assert DeleterOk(w, p);
        SetDeleterKeepsInv(w, d, Resting);
        if Current(w, p.version) && w.ws.value.closed && w.ws.value.uid == p.uid {
          SetDeleterKeepsInv(w, d, Confirmed(p.uid, p.version));
        }
      }
    case Scan(d) => ScanKeepsInv(w, d);
    case GuardedDelete(d, finalizers) => GuardedDeleteKeepsInv(w, d, finalizers);
    case _ =>
  }

  lemma NewWorkspaceKeepsInv(w: World)
    requires Inv(w) && w.ws.None?
    ensures Inv(Commit(w, Workspace(w.uids, 0, false, false)).(uids := w.uids + 1))
  {
    var w' := Commit(w, Workspace(w.uids, 0, false, false)).(uids := w.uids + 1);
    forall uid | uid in w.deleted ensures Ended(w', uid) {
      assert Ended(w, uid);
    }
    forall d | d in w.deleters ensures DeleterOk(w', w'.deleters[d]) {
      assert DeleterOk(w, w.deleters[d]);
    }
  }

  lemma ReopenersKeepInv(w: World, reopeners: map<nat, Workspace>)
    requires Inv(w)
    requires forall r :: r in reopeners ==> SnapshotOk(w, reopeners[r]) && !reopeners[r].deleting
    ensures Inv(w.(reopeners := reopeners))
  {
    var w' := w.(reopeners := reopeners);
    forall uid | uid in w.deleted ensures Ended(w', uid) {
      assert Ended(w, uid);
    }
    forall d | d in w.deleters ensures DeleterOk(w', w'.deleters[d]) {
      assert DeleterOk(w, w.deleters[d]);
    }
  }

  lemma ReopenPatchKeepsInv(w: World, r: nat)
    requires Inv(w)
    ensures Inv(ReopenPatchStep(w, r))
  {
    if r in w.reopeners {
      if Current(w, w.reopeners[r].version) {
        CommitKeepsInv(w, w.ws.value.(closed := false));
        var w' := Commit(w, w.ws.value.(closed := false));
        ReopenersKeepInv(w', w.reopeners - {r});
      } else {
        ReopenersKeepInv(w, w.reopeners - {r});
      }
    }
  }

  lemma ObjectStepKeepsInv(w: World, step: Step)
    requires Inv(w)
    ensures Inv(ObjectStep(w, step))
  {
    match step
    case NewWorkspace =>
      if w.ws.None? {
        NewWorkspaceKeepsInv(w);
      }
    case ReopenFetch(r) =>
      if w.ws.Some? && !w.ws.value.deleting {
        ReopenersKeepInv(w, w.reopeners[r := w.ws.value]);
      }
    case ReopenPatch(r) => ReopenPatchKeepsInv(w, r);
    case StatusWrite =>
      if w.ws.Some? {
        CommitKeepsInv(w, w.ws.value);
      }
    case UserDelete =>
      if w.ws.Some? {
        CommitKeepsInv(w, w.ws.value.(deleting := true));
      }
    case Collect => RemovalKeepsInv(w);
    case _ =>
  }

  lemma {:induction false} EveryRunKeepsInv(steps: seq<Step>)
    ensures Inv(Run(steps))
    decreases |steps|
  {
    if steps != [] {
      var w, step := Run(steps[..|steps| - 1]), steps[|steps| - 1];
      EveryRunKeepsInv(steps[..|steps| - 1]);
      if step.AdmitUpdate? {
        AdmitUpdateKeepsInv(w, step.e, step.bump, step.lost);
      } else if step.Submit? || step.Finish? || step.Crash? || step.AdmitFetch? {
        ExecStepKeepsInv(w, step);
      } else if step.Capture? || step.CloseWrite? || step.Confirm? || step.Scan? || step.GuardedDelete? {
        DeleterStepKeepsInv(w, step);
      } else {
        ObjectStepKeepsInv(w, step);
      }
    }
  }

  /**
   After every run: once a guarded DELETE of an incarnation succeeded, every
   execution that was ever admitted to it is terminal, and the incarnation is
   gone or deleting, so it admits nothing more.
   */
  lemma GuardedDeleteMissesNothing(steps: seq<Step>, uid: nat, e: nat)
    requires uid in Run(steps).deleted
    requires e in Run(steps).execs && Run(steps).execs[e].target == uid && Run(steps).execs[e].admitted
    ensures Run(steps).execs[e].terminal
    ensures var w := Run(steps); w.ws.Some? && w.ws.value.uid == uid ==> w.ws.value.deleting
  {
    EveryRunKeepsInv(steps);
    assert Ended(Run(steps), uid);
  }

  /** No later step admits an execution to an incarnation so deleted. */
  lemma NoAdmissionAfterGuardedDelete(steps: seq<Step>, step: Step, e: nat)
    requires var w := Run(steps); e in w.execs && w.execs[e].target in w.deleted
    requires !Run(steps).execs[e].admitted && e in Next(Run(steps), step).execs
    ensures !Next(Run(steps), step).execs[e].admitted
  {
    var w := Run(steps);
    EveryRunKeepsInv(steps);
    if step.AdmitUpdate? && step.e == e && w.execs[e].fetched.Some? && Current(w, w.execs[e].fetched.value.version) {
      AdmissionIsOpen(w, e);
    }
  }
}

/**
 One RepositoryExec or RepositorySync under serialized reconcile passes. Each
 API call may find that the cluster changed meanwhile, or be the one before
 which the controller crashes; status writers may read a stale cache.
 */
module OneShot {
  import opened Options

  datatype Truth = Unknown | True | False

  datatype Condition = Condition(status: Truth, reason: string, since: nat)

  /** The status subresource that records the one-shot outcome. */
  datatype Status = Status(jobName: string, condition: Option<Condition>, completedAt: Option<nat>)

  datatype Outcome = Running | Complete | Failed

  datatype Job = Job(owned: bool, outcome: Outcome, finishedAt: Option<nat>)

  datatype JobChange = Unchanged | Finishes(ok: bool, at: nat) | Vanishes | Usurped

  datatype Repository = NotFound | Broken | NotReady | Ready

  /** What the cache shows: an earlier status of this request, nothing, or a predecessor of the same name. */
  datatype View = Lagging(age: nat) | Absent | Predecessor(status: Status)

  /** Whether the cache only lags, may show anything, or never shows this request. */
  datatype Cache = Following | Arbitrary | Blind

  /** A cached read: a status to patch from, nothing, or a predecessor's terminal result. */
  datatype Cached = Hit(status: Status, newest: bool) | Nothing | Finished

  /** What one API call meets: other actors first, then this call's answers. */
  datatype Meanwhile = Meanwhile(
    crash: bool,
    jobChange: JobChange,
    userDeletes: bool,
    view: View,
    now: nat,
    repository: Repository,
    admitted: bool,
    credential: bool,
    commit: bool)

  const QUIET := Meanwhile(false, Unchanged, false, Lagging(0), 0, Ready, true, true, true)

  /** The Job is gone before the next call is answered. */
  const VANISHED := QUIET.(jobChange := Vanishes)

  /** No crash, no deletion, and nobody else takes the Job's name; anything else may happen. */
  predicate Gentle(plan: seq<Meanwhile>) {
    forall i :: 0 <= i < |plan| ==> !plan[i].crash && !plan[i].userDeletes && !plan[i].jobChange.Usurped?
  }

  /** Every cached read is current. */
  predicate Synced(plan: seq<Meanwhile>) {
    forall i :: 0 <= i < |plan| ==> plan[i].view == Lagging(0)
  }

  predicate Terminal(s: Status) {
    s.condition.Some? && s.condition.value.status != Unknown
  }

  /** From one recorded status to a later one. */
  predicate Evolves(a: Status, b: Status) {
    && (Terminal(a) ==> b.condition == a.condition)
    && (Terminal(a) && a.completedAt.Some? ==> b.completedAt == a.completedAt)
    && (a.jobName != "" ==> b.jobName == a.jobName || Terminal(b))
  }

  predicate Monotone(history: seq<Status>) {
    forall i, j :: 0 <= i <= j < |history| ==> Evolves(history[i], history[j])
  }

  /** The statuses a request ever had: they evolve and name one Job only. */
  predicate HistoryOk(history: seq<Status>, name: string) {
    && history != [] && Monotone(history)
    && forall i :: 0 <= i < |history| ==>
         && (history[i].jobName == "" || history[i].jobName == name)
         && (history[i].completedAt.Some? ==> Terminal(history[i]))
  }

  function Newest(history: seq<Status>): Status
    requires history != []
  {
    history[|history| - 1]
  }

  /** What becomes of the Job under the request's name. */
  function Changed(job: Option<Job>, change: JobChange): (after: Option<Job>)
    ensures after.Some? && after.value.owned ==> job.Some? && job.value.owned
    ensures job.None? && !change.Usurped? ==> after.None?
  {
    match change
    case Unchanged => job
    case Finishes(ok, at) =>
      if job.Some? && job.value.outcome == Running
      then Some(job.value.(outcome := if ok then Complete else Failed, finishedAt := Some(at))) else job
    case Vanishes => None
    case Usurped => if job.None? then Some(Job(false, Running, None)) else job
  }

  /** meta.SetStatusCondition: the transition time moves with the status. */
  function SetCondition(was: Option<Condition>, status: Truth, reason: string, now: nat): Condition {
    Condition(status, reason, if was.Some? && was.value.status == status then was.value.since else now)
  }

  /** A JSON merge patch writes the fields that differ from what was read. */
  function Merge(actual: Status, before: Status, after: Status): Status {
    Status(
      if after.jobName != before.jobName then after.jobName else actual.jobName,
      if after.condition != before.condition then after.condition else actual.condition,
      if after.completedAt != before.completedAt then after.completedAt else actual.completedAt)
  }

  class Request {
    const name: string
    const cache: Cache
    var history: seq<Status>
    var present: bool
    var deleting: bool
    var finalizer: bool
    var job: Option<Job>
    var plan: seq<Meanwhile>
    ghost var created: nat
    /** A Job was created although no status names it. */
    ghost var slipped: bool

    function Current(): Status
      reads this
      requires history != []
    {
      Newest(history)
    }

    /** A Job of this request exists only if its name was recorded first. */
    ghost predicate Valid()
      reads this
    {
      && name != ""
      && HistoryOk(history, name)
      && (cache == Following ==> !slipped)
      && (!slipped ==> created <= 1)
      && (created >= 1 && !slipped ==> Terminal(Current()) || Current().jobName == name)
      && (job.Some? && job.value.owned ==> created >= 1)
      && (finalizer ==> present)
    }

    constructor (name: string, cache: Cache)
      requires name != ""
      ensures Valid() && created == 0 && !slipped && this.name == name && this.cache == cache
      ensures history == [Status("", None, None)] && present && !deleting && !finalizer && job.None? && plan == []
    {
      this.name, this.cache := name, cache;
      history, present, deleting, finalizer := [Status("", None, None)], true, false, false;
      job, plan, created, slipped := None, [], 0, false;
    }

    /** Nothing but the status changed since a moment with these values. */
    ghost predicate Untouched(plan': seq<Meanwhile>, job': Option<Job>, deleting': bool, present': bool)
      reads this
    {
      plan == plan' && job == job' && deleting == deleting' && present == present'
    }

    /** The plan stays gentle: a Job that is gone stays gone, and the request stays as it was. */
    ghost predicate GentleSince(plan': seq<Meanwhile>, job': Option<Job>, deleting': bool, present': bool)
      reads this
    {
      && Gentle(plan) && (Synced(plan') ==> Synced(plan)) && (Found(plan') ==> Found(plan))
      && (job'.None? ==> job.None?) && deleting == deleting' && present == present'
    }

    /** The recorded outcome is this one. */
    ghost predicate Ended(status: Truth, reason: string, completed: Option<nat>)
      reads this
      requires history != []
    {
      var s := Newest(history);
      && Terminal(s) && s.condition.value.status == status && s.condition.value.reason == reason
      && (completed.Some? ==> s.completedAt == completed)
    }

    /** A gentle plan whose cached reads all show the newest status. */
    ghost predicate Tracked(plan': seq<Meanwhile>)
      reads this
    {
      Gentle(plan') && Synced(plan') && cache == Following
    }

    /** An open request that records no Job. */
    ghost predicate Startable()
      reads this
      requires history != []
    {
      present && !deleting && !Terminal(Current()) && Current().jobName == ""
    }

    /** An open request whose recorded Job is gone. */
    ghost predicate Awaiting()
      reads this
      requires history != []
    {
      present && !deleting && !Terminal(Current()) && Current().jobName == name && job.None?
    }

    /** Nothing disturbs the pass, and no Job is there when it begins. */
    ghost predicate Vacant()
      reads this
    {
      (plan == [] && job.None?) || plan == [VANISHED]
    }

    /** Everything other actors and the cluster may do between two calls. */
    method Call() returns (m: Meanwhile)
      requires Valid()
      modifies this`plan, this`job, this`deleting, this`present
      ensures Valid()
      ensures old(plan) == [] ==> m == QUIET && Untouched(old(plan), old(job), old(deleting), old(present))
      ensures old(plan) != [] ==> m == old(plan)[0] && plan == old(plan)[1..]
      ensures m == QUIET ==> job == old(job) && deleting == old(deleting) && present == old(present)
      ensures m == VANISHED ==> job.None? && deleting == old(deleting) && present == old(present)
      ensures Gentle(old(plan)) ==> !m.crash && GentleSince(old(plan), old(job), old(deleting), old(present))
      ensures Synced(old(plan)) ==> m.view == Lagging(0)
      ensures Found(old(plan)) ==> m.repository != NotFound
      ensures (old(deleting) ==> deleting) && (present ==> old(present))
    {
      if plan == [] {
        return QUIET;
      }
      m, plan := plan[0], plan[1..];
      Others(m);
    }

    /** The cluster and the user act. */
    method Others(m: Meanwhile)
      requires Valid()
      modifies this`job, this`deleting, this`present
      ensures Valid()
      ensures m.jobChange.Unchanged? ==> job == old(job)
      ensures m.jobChange.Vanishes? ==> job.None?
      ensures !m.jobChange.Usurped? && old(job).None? ==> job.None?
      ensures !m.userDeletes ==> deleting == old(deleting) && present == old(present)
      ensures (old(deleting) ==> deleting) && (present ==> old(present))
    {
      job := Changed(job, m.jobChange);
      var gone := m.userDeletes && present && !finalizer;
      deleting := deleting || (m.userDeletes && present && finalizer);
      present := present && !gone;
    }

    /** A cached read. An open predecessor looks like an open status with no Job or this Job's name. */
    method ReadCache(m: Meanwhile) returns (c: Cached)
      requires Valid()
      ensures c.Hit? ==> Patchable(history, c.status, name) && (c.newest ==> c.status == Current())
      ensures c.Hit? && Terminal(c.status) ==> c.status in history
      ensures cache == Following ==> c.Hit? && c.status in history
      ensures cache == Blind ==> c.Nothing?
      ensures cache == Following && m.view == Lagging(0) ==> c.newest
    {
      if cache == Blind || (cache == Arbitrary && m.view.Absent?) {
        return Nothing;
      }
      if cache == Arbitrary && m.view.Predecessor? {
        if Terminal(m.view.status) {
          return Finished;
        }
        return Hit(Status(if m.view.status.jobName == name then name else "", m.view.status.condition, None), false);
      }
      var age := if m.view.Lagging? then m.view.age else 0;
      return Hit(history[if age < |history| then |history| - 1 - age else 0], age == 0);
    }

    method Append(s: Status)
      requires Valid() && HistoryOk(history + [s], name)
      requires created >= 1 && !slipped ==> Terminal(s) || s.jobName == name
      modifies this`history
      ensures Valid() && history == old(history) + [s]
    {
      history := history + [s];
    }

    /** Status().Patch with MergeFrom: no version guards it. */
    method MergePatch(before: Status, after: Status) returns (ok: bool)
      requires Valid() && !Terminal(Current()) && !Terminal(before) && Patchable(history, before, name)
        && after.condition.Some?
      requires after.jobName == "" || after.jobName == name
      requires after.jobName == "" ==> Current().jobName == "" || Terminal(after)
      requires after.completedAt.Some? ==> Terminal(after)
      modifies this`history, this`plan, this`job, this`deleting, this`present
      ensures Valid() && old(history) <= history && |history| <= |old(history)| + 1
      ensures !Terminal(after) ==> !Terminal(Current())
      ensures ok && present && !Terminal(after) && after.jobName != "" && before in old(history) ==>
        Current().jobName == after.jobName
      ensures old(plan) == [] ==> ok && Untouched(old(plan), old(job), old(deleting), old(present))
      ensures Gentle(old(plan)) ==> ok && GentleSince(old(plan), old(job), old(deleting), old(present))
      ensures Gentle(old(plan)) && present && Terminal(after) ==>
        Current().condition == after.condition
          && (after.completedAt.Some? ==> Current().completedAt == after.completedAt)
    {
      var patch := Call();
      if patch.crash { return false; }
      if !present { return true; }
      MergeIsSafe(history, before, after, name);
      Append(Merge(Current(), before, after));
      return true;
    }

    /**
     oneShotStatusAdapter.setAt, which reads the cache and patches by merge. A
     request the cache does not show, or a terminal predecessor in its place, is
     left alone, and the caller is told that all is well.
     */
    method SetAt(status: Truth, reason: string, jobName: string, completed: Option<nat>) returns (ok: bool)
      requires Valid() && !Terminal(Current())
      requires jobName == "" || jobName == name
      requires jobName == "" ==> Current().jobName == "" || status != Unknown
      modifies this`history, this`plan, this`job, this`deleting, this`present
      ensures Valid() && old(history) <= history && |history| <= |old(history)| + 1
      ensures status == Unknown ==> !Terminal(Current())
      ensures ok && present && status == Unknown && jobName != "" && cache == Following ==> Current().jobName == jobName
      ensures cache == Blind ==> history == old(history)
      ensures old(plan) == [] ==> ok && Untouched(old(plan), old(job), old(deleting), old(present))
      ensures Gentle(old(plan)) ==> ok && GentleSince(old(plan), old(job), old(deleting), old(present))
      ensures Gentle(old(plan)) && present && status != Unknown && cache == Following ==>
        Ended(status, reason, completed)
    {
      var get := Call();
      if get.crash { return false; }
      if !present { return true; }
      var cached := ReadCache(get);
      if !cached.Hit? {
        return true;
      }
      OpenView(history, cached.status, name);
      ok := PatchAt(cached.status, status, reason, jobName, completed, get.now);
    }

    /** The rest of setAt, once an open status was read. */
    method PatchAt(current: Status, status: Truth, reason: string, jobName: string, completed: Option<nat>, now: nat)
      returns (ok: bool)
      requires Valid() && !Terminal(Current())
      requires !Terminal(current) && current.completedAt.None? && Patchable(history, current, name)
      requires current in history && current.jobName != "" ==> Current().jobName == name
      requires jobName == "" || jobName == name
      requires jobName == "" ==> Current().jobName == "" || status != Unknown
      modifies this`history, this`plan, this`job, this`deleting, this`present
      ensures Valid() && old(history) <= history && |history| <= |old(history)| + 1
      ensures status == Unknown ==> !Terminal(Current())
      ensures ok && present && status == Unknown && jobName != "" && current in old(history) ==>
        Current().jobName == jobName
      ensures old(plan) == [] ==> ok && Untouched(old(plan), old(job), old(deleting), old(present))
      ensures Gentle(old(plan)) ==> ok && GentleSince(old(plan), old(job), old(deleting), old(present))
      ensures Gentle(old(plan)) && present && status != Unknown ==> Ended(status, reason, completed)
    {
      var completedAt := current.completedAt;
      if status != Unknown {
        completedAt := if completed.Some? then completed else Some(now);
      }
      var after := Status(jobName, Some(SetCondition(current.condition, status, reason, now)), completedAt);
      if after == current {
        return true;
      }
      ok := MergePatch(current, after);
    }

    /** Status().Patch with an optimistic lock: it fails unless the newest status was read. */
    method LockedPatch(newest: bool, after: Status) returns (ok: bool)
      requires Valid()
      requires newest ==>
        Evolves(Current(), after) && (created >= 1 && !slipped ==> Terminal(after) || after.jobName == name)
      requires (after.jobName == "" || after.jobName == name) && (after.completedAt.Some? ==> Terminal(after))
      modifies this`history, this`plan, this`job, this`deleting, this`present
      ensures Valid() && history == if ok then old(history) + [after] else old(history)
      ensures ok ==> newest && present
      ensures Gentle(old(plan)) && newest && old(present) ==> ok
      ensures old(plan) == [] ==> Untouched(old(plan), old(job), old(deleting), old(present))
      ensures Gentle(old(plan)) ==> GentleSince(old(plan), old(job), old(deleting), old(present))
    {
      var patch := Call();
      if patch.crash || !present || !newest { return false; }
      AppendIsSafe(history, after, name);
      Append(after);
      return true;
    }

    /**
     RepositorySyncReconciler.setResult, which patches with a version lock. It
     fails for a request the cache does not show, and leaves one alone that has a
     terminal predecessor in its place.
     */
    method SetResult(status: Truth, reason: string, jobName: string, completed: Option<nat>) returns (ok: bool)
      requires Valid() && !Terminal(Current())
      requires jobName == "" || jobName == name
      requires jobName == "" ==> Current().jobName == ""
      requires status == Unknown ==> completed.None?
      modifies this`history, this`plan, this`job, this`deleting, this`present
      ensures Valid() && old(history) <= history && |history| <= |old(history)| + 1
      ensures status == Unknown ==> !Terminal(Current())
      ensures ok && present && status == Unknown && jobName != "" && cache == Following ==> Current().jobName == jobName
      ensures old(plan) == [] ==> Untouched(old(plan), old(job), old(deleting), old(present))
      ensures Gentle(old(plan)) ==> GentleSince(old(plan), old(job), old(deleting), old(present))
      ensures Tracked(old(plan)) ==> ok
      ensures Tracked(old(plan)) && present && status != Unknown ==>
        Ended(status, reason, completed)
    {
      var get := Call();
      if get.crash { return false; }
      if !present { return true; }
      var cached := ReadCache(get);
      if !cached.Hit? {
        return cached.Finished?;
      }
      OpenView(history, cached.status, name);
      ok := PatchResult(cached.status, cached.newest, status, reason, jobName, completed, get.now);
    }

    /** The rest of setResult, once an open status was read. */
    method PatchResult(
        current: Status, newest: bool, status: Truth, reason: string, jobName: string, completed: Option<nat>, now: nat)
      returns (ok: bool)
      requires Valid() && !Terminal(Current()) && !Terminal(current) && (newest ==> current == Current())
      requires cache == Following && current.jobName != "" ==> Current().jobName == name
      requires jobName == "" || jobName == name
      requires jobName == "" ==> Current().jobName == ""
      requires status == Unknown ==> completed.None?
      modifies this`history, this`plan, this`job, this`deleting, this`present
      ensures Valid() && old(history) <= history && |history| <= |old(history)| + 1
      ensures status == Unknown ==> !Terminal(Current())
      ensures ok && status == Unknown && jobName != "" && cache == Following ==> Current().jobName == jobName
      ensures old(plan) == [] ==> Untouched(old(plan), old(job), old(deleting), old(present))
      ensures Gentle(old(plan)) ==> GentleSince(old(plan), old(job), old(deleting), old(present))
      ensures Gentle(old(plan)) && newest && old(present) ==>
        ok && (status != Unknown ==> Ended(status, reason, completed))
    {
      var completedAt := if status != Unknown && completed.None? then Some(now) else completed;
      var after := Status(jobName, Some(SetCondition(current.condition, status, reason, now)), completedAt);
      if after == current {
        return true;
      }
      ok := LockedPatch(newest, after);
    }

    /** backfillCompletedAt: a result from before the field existed, once. */
    method BackfillCompletedAt() returns (ok: bool)
      requires Valid()
      modifies this`history, this`plan, this`job, this`deleting, this`present
      ensures Valid() && old(history) <= history
      ensures Terminal(old(Current())) ==> Current().condition == old(Current()).condition
      ensures Tracked(old(plan)) && present && Terminal(old(Current())) && old(Current()).completedAt.None? ==>
        Current().completedAt == Some(old(Current()).condition.value.since)
    {
      var get := Call();
      if get.crash { return false; }
      if !present { return true; }
      var cached := ReadCache(get);
      if !cached.Hit? {
        return cached.Nothing?;
      }
      var current := cached.status;
      if !Terminal(current) || current.completedAt.Some? {
        return true;
      }
      ok := LockedPatch(cached.newest, current.(completedAt := Some(current.condition.value.since)));
    }

    /** releaseRepositoryOperation as far as this request is concerned. */
    method ReleaseOperation(jobName: string, wasDeleting: bool)
      requires Valid()
      modifies this`plan, this`job, this`deleting, this`present, this`finalizer
      ensures Valid()
      ensures finalizer ==> old(finalizer)
      ensures old(plan) == [] && old(finalizer) ==>
        (finalizer <==> jobName != "" && job.Some? && job.value.owned && (wasDeleting || job.value.outcome == Running))
    {
      if jobName != "" {
        var get := Call();
        if get.crash { return; }
        if job.Some? && job.value.owned {
          if wasDeleting {
            var _ := Call();
            return;
          }
          if job.value.outcome == Running { return; }
        }
        var pods := Call();
        if pods.crash { return; }
      }
      var release := Call();
      if release.crash { return; }
      if finalizer {
        var remove := Call();
        if remove.crash { return; }
        finalizer := false;
        if deleting { present := false; }
      }
    }

    /** The finalizer precedes admission; a deleting object refuses it. */
    method Protect() returns (ok: bool)
      requires Valid()
      modifies this`plan, this`job, this`deleting, this`present, this`finalizer
      ensures Valid() && (ok ==> finalizer)
      ensures old(plan) == [] && present && !deleting ==> ok
      ensures old(plan) == [] ==> Untouched(old(plan), old(job), old(deleting), old(present))
      ensures Gentle(old(plan)) ==> GentleSince(old(plan), old(job), old(deleting), old(present))
      ensures Gentle(old(plan)) && old(present) && !old(deleting) ==> ok
      ensures old(finalizer) ==> ok && Untouched(old(plan), old(job), old(deleting), old(present))
    {
      if finalizer { return true; }
      var add := Call();
      if add.crash || !present || deleting { return false; }
      finalizer := true;
      return true;
    }

    /** CREATE fails when the name is taken; the response may be lost. */
    method CreateJob() returns (ok: bool)
      requires Valid() && finalizer && !Terminal(Current()) && (created >= 1 ==> slipped)
      requires cache == Following ==> Current().jobName == name
      modifies this`plan, this`job, this`deleting, this`present, this`created, this`slipped
      ensures Valid() && finalizer && history == old(history)
      ensures created == old(created) ||
        (created == old(created) + 1 && slipped == (old(slipped) || Current().jobName != name))
      ensures created == old(created) ==> slipped == old(slipped)
      ensures old(plan) == [] ==> Untouched(old(plan), job, old(deleting), old(present))
      ensures old(plan) == [] && old(job).None? ==> ok && created == old(created) + 1
    {
      var create := Call();
      if create.crash || job.Some? { return false; }
      job, slipped := Some(Job(true, Running, None)), slipped || Current().jobName != name;
      created := created + 1;
      return true;
    }

    /** RepositoryExecReconciler.Reconcile. */
    method ReconcileExec()
      requires Valid()
      modifies this
      ensures Valid() && old(history) <= history
      ensures created == old(created) || (created == old(created) + 1 && old(Startable()))
      ensures old(Gentle(plan) && cache == Following && Awaiting()) ==> Ended(False, "JobLost", None)
      ensures old(Vacant()) ==> (created == old(created) + 1 <==> old(Startable()))
      ensures old(Vacant() && Startable()) ==>
        && present && !deleting && plan == []
        && (cache == Blind ==> Current() == old(Current()))
        && (cache == Following ==> Current().jobName == name)
    {
      var get := Call();
      if get.crash || !present { return; }
      var exec := Current();
      if Terminal(exec) && exec.completedAt.None? {
        var done := BackfillCompletedAt();
        if !done { return; }
        var again := Call();
        if again.crash || !present { return; }
        exec := Current();
      }
      if deleting || Terminal(exec) {
        ReleaseOperation(exec.jobName, deleting);
        return;
      }
      var protected := Protect();
      if !protected { return; }
      ObserveExec(exec.jobName);
    }

    /** observeOneShotJob and what follows from it. */
    method ObserveExec(jobName: string)
      requires Valid() && finalizer && !Terminal(Current()) && Current().jobName == jobName
      modifies this
      ensures Valid() && old(history) <= history && old(created) <= created <= old(created) + 1
      ensures jobName != "" ==> created == old(created)
      ensures Gentle(old(plan)) && cache == Following && old(present) && jobName != "" && old(job).None? ==>
        Ended(False, "JobLost", None)
      ensures old(plan) == [] && old(job).None? && old(present) && jobName == "" ==>
        && created == old(created) + 1 && present && deleting == old(deleting) && plan == []
        && (cache == Blind ==> Current() == old(Current()))
        && (cache == Following ==> Current().jobName == name)
    {
      var look := Call();
      if look.crash { return; }
      if job.Some? {
        ReflectJob(job.value);
        return;
      }
      if jobName != "" {
        var _ := SetAt(False, "JobLost", jobName, None);
        return;
      }
      StartExec();
    }

    /** observeOneShotJob found a Job under the recorded or default name. */
    method ReflectJob(seen: Job)
      requires Valid() && !Terminal(Current())
      modifies this`history, this`plan, this`job, this`deleting, this`present
      ensures Valid() && old(history) <= history
      ensures Gentle(old(plan)) && cache == Following && present && seen.owned && seen.outcome == Complete ==>
        Ended(True, "CommandSucceeded", seen.finishedAt)
      ensures Gentle(old(plan)) && cache == Following && present && seen.owned && seen.outcome == Failed ==>
        Ended(False, "CommandFailed", seen.finishedAt)
    {
      var ok;
      if !seen.owned {
        ok := SetAt(False, "JobConflict", "", None);
      } else if seen.outcome == Complete {
        ok := SetAt(True, "CommandSucceeded", name, seen.finishedAt);
      } else if seen.outcome == Failed {
        ok := SetAt(False, "CommandFailed", name, seen.finishedAt);
      } else {
        ok := SetAt(Unknown, "CommandRunning", name, None);
      }
    }

    /** A request with no Job and no recorded name: admission, record, create. */
    method StartExec()
      requires Valid() && finalizer && !Terminal(Current()) && Current().jobName == ""
      modifies this
      ensures Valid() && old(history) <= history && old(created) <= created <= old(created) + 1
      ensures old(plan) == [] && old(job).None? && old(present) ==>
        && created == old(created) + 1 && present && deleting == old(deleting) && plan == []
        && (cache == Blind ==> Current() == old(Current()))
        && (cache == Following ==> Current().jobName == name)
    {
      var get := Call();
      if get.crash { return; }
      var ok;
      match get.repository {
        case NotFound => ok := SetAt(False, "RepositoryNotFound", "", None); return;
        case Broken => ok := SetAt(False, "RepositoryFailed", "", None); return;
        case NotReady => ok := SetAt(Unknown, "RepositoryNotReady", "", None); return;
        case Ready =>
      }
      var acquire := Call();
      if acquire.crash { return; }
      if !acquire.admitted {
        ok := SetAt(Unknown, "WaitingForRepository", "", None);
        return;
      }
      ok := SetAt(Unknown, "JobScheduled", name, None);
      if !ok { return; }
      ok := CreateJob();
      if !ok { return; }
      ok := SetAt(Unknown, "JobCreated", name, None);
    }

    /** RepositorySyncReconciler.Reconcile. */
    method ReconcileSync()
      requires Valid()
      modifies this
      ensures Valid() && old(history) <= history
      ensures created == old(created) || (created == old(created) + 1 && old(Startable()))
      ensures old(Tracked(plan) && Awaiting()) ==>
        Ended(False, "JobLost", None) || Ended(False, "RepositoryNotFound", None)
      ensures old(Tracked(plan) && Found(plan) && Awaiting()) ==>
        Ended(False, "JobLost", None)
    {
      var get := Call();
      if get.crash || !present { return; }
      var request := Current();
      if deleting || Terminal(request) {
        if deleting && request.jobName != "" && !Terminal(request) {
          var parent := Call();
          if parent.crash { return; }
        }
        ReleaseOperation(request.jobName, deleting);
        return;
      }
      var protected := Protect();
      if !protected { return; }
      var parent := Call();
      if parent.crash { return; }
      if parent.repository == NotFound {
        var _ := SetResult(False, "RepositoryNotFound", request.jobName, None);
        return;
      }
      ObserveSync(request.jobName, parent.repository);
    }

    method ObserveSync(jobName: string, repository: Repository)
      requires Valid() && finalizer && !Terminal(Current()) && Current().jobName == jobName
      modifies this
      ensures Valid() && old(history) <= history && old(created) <= created <= old(created) + 1
      ensures jobName != "" ==> created == old(created)
      ensures Tracked(old(plan)) && old(present) && jobName != "" && old(job).None? ==>
        Ended(False, "JobLost", None)
    {
      var ok;
      var look := Call();
      if look.crash { return; }
      if job.Some? {
        if job.value.owned {
          if job.value.outcome != Running {
            CompleteSync(job.value);
          }
        } else {
          ok := SetResult(False, "JobConflict", jobName, None);
        }
        return;
      }
      if jobName != "" {
        var failed := Call();
        if failed.crash { return; }
        ok := SetResult(False, "JobLost", jobName, None);
        return;
      }
      StartSync(repository);
    }

    /** complete: the parent's result first, then the request's. */
    method CompleteSync(seen: Job)
      requires Valid() && !Terminal(Current())
      modifies this`history, this`plan, this`job, this`deleting, this`present
      ensures Valid() && old(history) <= history
      ensures Tracked(old(plan)) && present ==>
        || Ended(True, "SyncSucceeded", seen.finishedAt)
        || Ended(False, "ResultUnavailable", seen.finishedAt)
        || Ended(False, "CommandFailed", seen.finishedAt)
      ensures old(plan) == [] && cache == Following && present ==>
        if seen.outcome == Complete then Ended(True, "SyncSucceeded", seen.finishedAt)
          else Ended(False, "CommandFailed", seen.finishedAt)
      ensures old(plan) == [QUIET.(commit := false)] && cache == Following && present && seen.outcome == Complete ==>
        Ended(False, "ResultUnavailable", seen.finishedAt)
    {
      var read := Call();
      if read.crash { return; }
      var parent := Call();
      if parent.crash { return; }
      var status, reason := False, "CommandFailed";
      if seen.outcome == Complete {
        status := if read.commit then True else False;
        reason := if read.commit then "SyncSucceeded" else "ResultUnavailable";
      }
      var completed := if seen.finishedAt.Some? then seen.finishedAt else Some(read.now);
      var _ := SetResult(status, reason, name, completed);
    }

    method StartSync(repository: Repository)
      requires Valid() && finalizer && !Terminal(Current()) && Current().jobName == ""
      modifies this
      ensures Valid() && old(history) <= history && old(created) <= created <= old(created) + 1
    {
      var ok;
      if repository != Ready {
        ok := SetResult(Unknown, "RepositoryNotReady", "", None);
        return;
      }
      var acquire := Call();
      if acquire.crash { return; }
      if !acquire.admitted {
        ok := SetResult(Unknown, "WaitingForRepository", "", None);
        return;
      }
      var credential := Call();
      if credential.crash { return; }
      if !credential.credential {
        ok := SetResult(False, "CredentialNotFound", "", None);
        return;
      }
      ok := SetResult(Unknown, "JobScheduled", name, None);
      if !ok { return; }
      var parent := Call();
      if parent.crash { return; }
      ok := CreateJob();
    }

    /**
     Any number of passes, each meeting any plan of interference and crashes: at
     most one Job is ever created unless one was created unrecorded, which takes
     a cache that shows something else than this request; and the recorded
     statuses only evolve.
     */
    method Passes(sync: bool, plans: seq<seq<Meanwhile>>)
      requires Valid()
      modifies this
      ensures Valid() && (!slipped ==> created <= 1) && (cache == Following ==> created <= 1)
      ensures old(history) <= history && Monotone(history)
    {
      for i := 0 to |plans|
        invariant Valid() && old(history) <= history
      {
        plan := plans[i];
        if sync {
          ReconcileSync();
        } else {
          ReconcileExec();
        }
      }
    }
  }

  /** Every read of the Repository during the pass finds it. */
  predicate Found(plan: seq<Meanwhile>) {
    forall i :: 0 <= i < |plan| ==> plan[i].repository != NotFound
  }

  /**
   A request that the cache never shows: the name of its Job is not recorded
   before the Job is created, so when the Job vanishes another one is created.
   */
  method TwoJobs(name: string) returns (r: Request)
    requires name != ""
    ensures r.Valid() && r.slipped && r.created == 2
  {
    r := new Request(name, Blind);
    r.ReconcileExec();
    r.plan := [VANISHED];
    r.ReconcileExec();
  }

  /** What a patch may be computed from: an earlier status, or an open one of a predecessor. */
  predicate Patchable(history: seq<Status>, s: Status, name: string) {
    s in history || (!Terminal(s) && s.completedAt.None? && (s.jobName == "" || s.jobName == name))
  }

  /** While the newest status is open, so is whatever the cache shows. */
  lemma OpenView(history: seq<Status>, s: Status, name: string)
    requires HistoryOk(history, name) && Patchable(history, s, name) && !Terminal(Newest(history))
    ensures !Terminal(s) && s.completedAt.None?
    ensures s in history && s.jobName != "" ==> s.jobName == name == Newest(history).jobName
  {
    if s in history {
      EarlierIsOpen(history, s, name);
    }
  }

  lemma AppendIsSafe(history: seq<Status>, s: Status, name: string)
    requires HistoryOk(history, name) && Evolves(Newest(history), s)
    requires (s.jobName == "" || s.jobName == name) && (s.completedAt.Some? ==> Terminal(s))
    ensures HistoryOk(history + [s], name)
  {
    forall i, j | 0 <= i <= j < |history + [s]|
      ensures Evolves((history + [s])[i], (history + [s])[j])
    {
      if j == |history| && i < |history| {
        assert Evolves(history[i], Newest(history));
      }
    }
  }

  /** While the newest status is open, every earlier one was. */
  lemma EarlierIsOpen(history: seq<Status>, s: Status, name: string)
    requires HistoryOk(history, name) && s in history && !Terminal(Newest(history))
    ensures !Terminal(s) && s.completedAt.None?
    ensures s.jobName != "" ==> s.jobName == name == Newest(history).jobName
  {
    var i :| 0 <= i < |history| && history[i] == s;
    assert Evolves(history[i], Newest(history));
  }

  /** A merge patch against a stale read cannot lose a recorded Job name. */
  lemma MergeIsSafe(history: seq<Status>, before: Status, after: Status, name: string)
    requires HistoryOk(history, name) && Patchable(history, before, name) && !Terminal(Newest(history))
    requires after.jobName == "" || after.jobName == name
    requires after.jobName == "" ==> Newest(history).jobName == "" || Terminal(after)
    requires after.completedAt.Some? ==> Terminal(after)
    requires after.condition.Some?
    ensures var s := Merge(Newest(history), before, after);
      && HistoryOk(history + [s], name)
      && (Terminal(s) <==> Terminal(after))
      && (Newest(history).jobName == name ==> Terminal(s) || s.jobName == name)
      && (after.jobName != "" && !Terminal(after) && before in history ==> s.jobName == after.jobName)
      && (Terminal(after) ==> s.condition == after.condition)
      && (after.completedAt.Some? ==> s.completedAt == after.completedAt)
  {
    OpenView(history, before, name);
    EarlierIsOpen(history, Newest(history), name);
    AppendIsSafe(history, Merge(Newest(history), before, after), name);
  }

  /** A terminal condition and its completion time are never rewritten. */
  lemma TerminalIsFinal(history: seq<Status>, i: nat, j: nat)
    requires Monotone(history) && i <= j < |history| && Terminal(history[i])
    ensures Terminal(history[j]) && history[j].condition == history[i].condition
    ensures history[i].completedAt.Some? ==> history[j].completedAt == history[i].completedAt
  {
    assert Evolves(history[i], history[j]);
  }
}

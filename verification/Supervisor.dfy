/**
 The supervisor's process identities: a process ID is launched at most once for
 one owner, across start failures, cancellations, crashes and supervisor
 restarts that share a state directory, until its history is pruned.
 */
module Supervisors {
  import opened Options
  import opened History

  /** What happened to identities; one pruning call is one event. */
  datatype Event = Launch(id: string, uid: string) | Prune(ids: set<string>)

  predicate PrunesAt(log: seq<Event>, k: nat, id: string)
    requires k < |log|
  {
    log[k].Prune? && id in log[k].ids
  }

  ghost predicate PrunedSince(log: seq<Event>, i: nat, id: string) {
    exists k :: i < k < |log| && PrunesAt(log, k, id)
  }

  /** Between two launches of one ID its history was pruned. */
  ghost predicate AtMostOnce(log: seq<Event>) {
    forall i, j :: 0 <= i < j < |log| && log[i].Launch? && log[j].Launch? && log[i].id == log[j].id ==>
      exists k :: i < k < j && PrunesAt(log, k, log[i].id)
  }

  predicate Owns(disk: Disk, id: string, uid: string) {
    id in disk && disk[id].owner == Some(uid)
  }

  /** A launched identity stays on disk until it is pruned. */
  ghost predicate Owned(log: seq<Event>, disk: Disk) {
    forall i :: 0 <= i < |log| && log[i].Launch? ==> PrunedSince(log, i, log[i].id) || Owns(disk, log[i].id, log[i].uid)
  }

  /** The owner file of a process in memory, while it is there, names its UID. */
  predicate Agrees(processes: map<string, Process>, disk: Disk) {
    forall id :: id in processes && id in disk && disk[id].owner.Some? ==> disk[id].owner.value == processes[id].uid
  }

  ghost predicate Inv(log: seq<Event>, disk: Disk, processes: map<string, Process>) {
    AtMostOnce(log) && Owned(log, disk) && Agrees(processes, disk)
  }

  function Owner(disk: Disk, id: string): Option<string> {
    if id in disk then disk[id].owner else None
  }

  /** Directories may change as long as no owner file does. */
  lemma SameOwnersKeepInv(log: seq<Event>, disk: Disk, after: Disk, processes: map<string, Process>)
    requires Inv(log, disk, processes)
    requires forall id :: id in disk && disk[id].owner.Some? ==> Owner(after, id) == disk[id].owner
    requires forall id :: id in processes && id in after ==> after[id].owner == Owner(disk, id)
    ensures Inv(log, after, processes)
  {
  }

  /** An identity without an owner file may be given one. */
  lemma ClaimKeepsInv(log: seq<Event>, disk: Disk, processes: map<string, Process>, id: string, entry: Entry)
    requires Inv(log, disk, processes) && id !in processes && Owner(disk, id).None?
    ensures Inv(log, disk[id := entry], processes)
  {
  }

  lemma LaunchKeepsInv(
      log: seq<Event>, disk: Disk, processes: map<string, Process>, id: string, uid: string, entry: Entry)
    requires Inv(log, disk, processes) && id !in processes && Owner(disk, id).None?
    requires entry.owner == Some(uid)
    ensures Inv(log + [Launch(id, uid)], disk[id := entry], processes)
  {
    var more := log + [Launch(id, uid)];
    forall i, j | 0 <= i < j < |more| && more[i].Launch? && more[j].Launch? && more[i].id == more[j].id
      ensures exists k :: i < k < j && PrunesAt(more, k, more[i].id)
    {
      if j < |log| {
        var k :| i < k < j && PrunesAt(log, k, log[i].id);
        assert PrunesAt(more, k, more[i].id);
      } else {
        assert !Owns(disk, log[i].id, log[i].uid);
        var k :| i < k < |log| && PrunesAt(log, k, log[i].id);
        assert PrunesAt(more, k, more[i].id);
      }
    }
    forall i | 0 <= i < |more| && more[i].Launch?
      ensures PrunedSince(more, i, more[i].id) || Owns(disk[id := entry], more[i].id, more[i].uid)
    {
      if i < |log| && PrunedSince(log, i, log[i].id) {
        var k :| i < k < |log| && PrunesAt(log, k, log[i].id);
        assert PrunesAt(more, k, more[i].id);
      }
    }
  }

  lemma PruneKeepsInv(log: seq<Event>, disk: Disk, after: Disk, processes: map<string, Process>, ids: set<string>)
    requires Inv(log, disk, processes)
    requires forall id :: id in disk && id !in ids ==> id in after && after[id].owner == disk[id].owner
    requires forall id :: id in after ==> id in disk && (after[id].owner == disk[id].owner || after[id].owner.None?)
    ensures Inv(log + [Prune(ids)], after, processes)
  {
    var more := log + [Prune(ids)];
    forall i, j | 0 <= i < j < |more| && more[i].Launch? && more[j].Launch? && more[i].id == more[j].id
      ensures exists k :: i < k < j && PrunesAt(more, k, more[i].id)
    {
      var k :| i < k < j && PrunesAt(log, k, log[i].id);
      assert PrunesAt(more, k, more[i].id);
    }
    forall i | 0 <= i < |more| && more[i].Launch?
      ensures PrunedSince(more, i, more[i].id) || Owns(after, more[i].id, more[i].uid)
    {
      if PrunedSince(log, i, log[i].id) {
        var k :| i < k < |log| && PrunesAt(log, k, log[i].id);
        assert PrunesAt(more, k, more[i].id);
      } else if log[i].id in ids {
        assert PrunesAt(more, |log|, more[i].id);
      }
    }
  }

  // ---- requests --------------------------------------------------------

  datatype Request = Request(id: string, uid: string, command: seq<string>)

  function StripSlashes(path: string): string {
    if path != "" && path[|path| - 1] == '/' then StripSlashes(path[..|path| - 1]) else path
  }

  function LastElement(path: string): string {
    if path == "" || path[|path| - 1] == '/' then ""
    else LastElement(path[..|path| - 1]) + [path[|path| - 1]]
  }

  /** filepath.Base with '/' as the separator. */
  function Base(path: string): string {
    if path == "" then "."
    else if LastElement(StripSlashes(path)) == "" then "/"
    else LastElement(StripSlashes(path))
  }

  /** The check on a process ID. */
  predicate SafeSegment(id: string) {
    Base(id) == id && id != "." && id != ".."
  }

  lemma {:induction false} LastElementExact(path: string)
    ensures |LastElement(path)| <= |path|
    ensures '/' !in LastElement(path)
    ensures '/' !in path <==> LastElement(path) == path
  {
    if path != "" && path[|path| - 1] != '/' {
      var init := path[..|path| - 1];
      LastElementExact(init);
      assert path == init + [path[|path| - 1]];
    }
  }

  lemma {:induction false} StripSlashesExact(path: string)
    ensures |StripSlashes(path)| <= |path|
    ensures StripSlashes(path) == "" || StripSlashes(path)[|StripSlashes(path)| - 1] != '/'
    ensures '/' !in path ==> StripSlashes(path) == path
  {
    if path != "" && path[|path| - 1] == '/' {
      StripSlashesExact(path[..|path| - 1]);
    }
  }

  /** An ID passes exactly if it is one path segment, or the root separator itself. */
  lemma SafeSegmentExact(id: string)
    ensures SafeSegment(id) <==> id == "/" || (id != "" && id != "." && id != ".." && '/' !in id)
  {
    StripSlashesExact(id);
    LastElementExact(id);
    LastElementExact(StripSlashes(id));
    if id == "/" {
      assert StripSlashes(id) == StripSlashes("");
    }
  }

  predicate Acceptable(request: Request) {
    && request.id != "" && request.uid != ""
    && SafeSegment(request.id)
    && request.command != [] && request.command[0] != ""
  }

  /** What the caller's context, the file system and the native start do during one start. */
  datatype World = World(
    cancelledAtEntry: bool,
    cancelledAtLock: bool,
    directoryMade: bool,
    ownerReadable: bool,
    ownerWritten: bool,
    ownerLeft: Option<string>,
    crashAfterOwner: bool,
    transcriptOpened: bool,
    prepared: bool,
    cancelled: bool,
    nativeStarted: bool,
    crashAfterLaunch: bool,
    failureRecorded: bool,
    recordWritten: bool,
    ownerRemoved: bool)

  /** The request reaches the ownership check. */
  predicate Heard(request: Request, world: World) {
    && Acceptable(request) && !world.cancelledAtEntry && !world.cancelledAtLock
    && world.directoryMade && world.ownerReadable
  }

  /** The preparation succeeds and the native process starts. */
  predicate Launches(world: World) {
    world.transcriptOpened && world.prepared && !world.cancelled && world.nativeStarted
  }

  /** Nothing goes wrong after it. */
  predicate Smooth(world: World) {
    world.ownerWritten && Launches(world) && !world.crashAfterOwner && !world.crashAfterLaunch
  }

  datatype Result = Invalid | Cancelled | Failed | Conflict | NotFound | Crashed | State(phase: Phase)

  /** The identity is free: neither in memory nor owned on disk. */
  predicate Free(disk: Disk, processes: map<string, Process>, id: string) {
    id !in processes && Owner(disk, id).None?
  }

  /** The owner file names another UID. */
  predicate Foreign(disk: Disk, request: Request) {
    Owner(disk, request.id).Some? && Owner(disk, request.id).value != request.uid
  }

  /** The owner file is written, and removed again where that is asked for. */
  predicate Undoes(world: World) {
    world.ownerWritten && world.ownerRemoved
  }

  // ---- the supervisor --------------------------------------------------

  class Supervisor {
    var disk: Disk
    var marker: string
    var processes: map<string, Process>
    ghost var log: seq<Event>

    ghost predicate Valid()
      reads this
    {
      Inv(log, disk, processes)
    }

    /** A supervisor may start on any directory; the log begins with it. */
    constructor (disk: Disk, marker: string)
      ensures Valid() && log == [] && processes == map[] && this.disk == disk && this.marker == marker
    {
      this.disk, this.marker, processes, log := disk, marker, map[], [];
    }

    method Start(request: Request, now: int, world: World) returns (r: Result)
      requires Valid()
      modifies this`disk, this`processes, this`log
      ensures Valid()
      ensures log == old(log) || log == old(log) + [Launch(request.id, request.uid)]
      ensures log != old(log) ==> Free(old(disk), old(processes), request.id) && Acceptable(request)
      ensures r == State(Running) && request.id !in old(processes) ==> log != old(log)
      ensures !Free(old(disk), old(processes), request.id) || !Acceptable(request) ==>
        processes == old(processes) && Owner(disk, request.id) == Owner(old(disk), request.id)
      ensures Foreign(old(disk), request) ==> !r.State? && r != NotFound
      ensures Foreign(old(disk), request) && Heard(request, world) ==> r == Conflict
      ensures Free(old(disk), old(processes), request.id) && Heard(request, world) && Smooth(world) ==>
        r == State(Running)
      ensures r.State? ==> request.id in processes && processes[request.id] == Process(request.uid, r.phase)
      ensures r.State? && request.id !in old(processes) ==> Owns(disk, request.id, request.uid)
      ensures r.State? && request.id !in old(processes) && world.recordWritten ==>
        disk[request.id].record == Some(Record(request.uid, r.phase, if r.phase.Running? then None else Some(now)))
      ensures r == NotFound ==> request.id !in processes && Owns(old(disk), request.id, request.uid)
      ensures Free(old(disk), old(processes), request.id) && !r.State? && !r.Crashed? && Undoes(world) ==>
        Free(disk, processes, request.id) && processes == old(processes)
      ensures forall id :: id in old(disk) && id != request.id ==> id in disk && disk[id] == old(disk)[id]
      ensures !r.Crashed? ==> processes - {request.id} == old(processes) - {request.id}
    {
      var id, uid := request.id, request.uid;
      if world.cancelledAtEntry {
        return Cancelled;
      }
      if !Acceptable(request) {
        return Invalid;
      }
      if world.cancelledAtLock {
        return Cancelled;
      }
      if id in processes {
        if processes[id].uid != uid {
          return Conflict;
        }
        return State(processes[id].phase);
      }
      if !world.directoryMade {
        return Failed;
      }
      var entry := if id in disk then disk[id] else Entry(None, None, false);
      if entry.owner.Some? || !world.ownerReadable {
        SameOwnersKeepInv(log, disk, disk[id := entry], processes);
        disk := disk[id := entry];
        if !world.ownerReadable {
          return Failed;
        }
        return if entry.owner.value != uid then Conflict else NotFound;
      }
      if !world.ownerWritten {
        ClaimKeepsInv(log, disk, processes, id, entry.(owner := world.ownerLeft));
        disk := disk[id := entry.(owner := world.ownerLeft)];
        return Failed;
      }
      r := Attempt(request, now, world, entry);
    }

    /**
     runLocked: the owner file is written, and either a running process or a
     recorded failure keeps it, or it is rolled back. A crash keeps it too.
     */
    method Attempt(request: Request, now: int, world: World, entry: Entry) returns (r: Result)
      requires Valid() && Free(disk, processes, request.id)
      requires entry == if request.id in disk then disk[request.id] else Entry(None, None, false)
      modifies this`disk, this`processes, this`log
      ensures Valid()
      ensures request.id in disk && disk == old(disk)[request.id := disk[request.id]]
      ensures r.State? || r.Failed? || r.Cancelled? || r.Crashed?
      ensures r.State? ==> r.phase.Running? || r.phase.Exited?
      ensures r == State(Running) ==> log == old(log) + [Launch(request.id, request.uid)]
      ensures Smooth(world) ==> r == State(Running)
      ensures !world.crashAfterOwner && !Launches(world) ==>
        r == if world.cancelled then Cancelled
             else if world.transcriptOpened && world.failureRecorded then State(Exited)
             else Failed
      ensures r.Crashed? ==> log == old(log) || log == old(log) + [Launch(request.id, request.uid)]
      ensures !r.Crashed? && r != State(Running) ==> log == old(log)
      ensures r.State? ==>
        && disk[request.id].record == (if world.recordWritten
             then Some(Record(request.uid, r.phase, if r.phase.Running? then None else Some(now)))
             else entry.record)
        && Owns(disk, request.id, request.uid)
        && processes == old(processes)[request.id := Process(request.uid, r.phase)]
      ensures r.Crashed? ==> Owns(disk, request.id, request.uid) && processes == map[]
      ensures r.Failed? || r.Cancelled? ==>
        && processes == old(processes)
        && disk[request.id].owner == if world.ownerRemoved then None else Some(request.uid)
    {
      var id, uid := request.id, request.uid;
      var claimed := entry.(owner := Some(uid), transcript := entry.transcript || world.transcriptOpened);
      if world.crashAfterOwner {
        ClaimKeepsInv(log, disk, processes, id, claimed);
        disk, processes := disk[id := claimed], map[];
        return Crashed;
      }
      if Launches(world) {
        var running := claimed.(record := if world.recordWritten then Some(Record(uid, Running, None))
          else entry.record);
        LaunchKeepsInv(log, disk, processes, id, uid, running);
        log := log + [Launch(id, uid)];
        disk := disk[id := running];
        if world.crashAfterLaunch {
          processes := map[];
          return Crashed;
        }
        processes := processes[id := Process(uid, Running)];
        return State(Running);
      }
      if world.transcriptOpened && !world.cancelled && world.failureRecorded {
        var failed := claimed.(record := if world.recordWritten then Some(Record(uid, Exited, Some(now)))
          else entry.record);
        ClaimKeepsInv(log, disk, processes, id, failed);
        disk, processes := disk[id := failed], processes[id := Process(uid, Exited)];
        return State(Exited);
      }
      var rolledBack := if world.ownerRemoved then claimed.(owner := None) else claimed;
      ClaimKeepsInv(log, disk, processes, id, rolledBack);
      disk := disk[id := rolledBack];
      return if world.cancelled then Cancelled else Failed;
    }

    /** wait: the process ends, and its record is replaced if the write succeeds. */
    method Finish(id: string, stopped: bool, now: int, recordWritten: bool)
      requires Valid() && id in processes
      modifies this`disk, this`processes
      ensures Valid()
      ensures processes == old(processes)[id := old(processes)[id].(phase := if stopped then Stopped else Exited)]
      ensures disk == if !recordWritten || id !in old(disk) then old(disk) else
        old(disk)[id := old(disk)[id].(record := Some(Record(processes[id].uid, processes[id].phase, Some(now))))]
    {
      var phase := if stopped then Stopped else Exited;
      processes := processes[id := processes[id].(phase := phase)];
      if recordWritten && id in disk {
        disk := disk[id := disk[id].(record := Some(Record(processes[id].uid, phase, Some(now))))];
      }
    }

    /** The supervisor stops and another one opens the same directory. */
    method Restart()
      requires Valid()
      modifies this`processes
      ensures Valid() && processes == map[]
    {
      processes := map[];
    }

    /** Records that a previous supervisor left unfinished become Lost; the first failed write stops it. */
    method RecoverHistory(now: int, unwritable: set<string>) returns (ok: bool)
      requires Valid()
      modifies this`disk
      ensures Valid() && disk.Keys == old(disk).Keys
      ensures forall id :: id in disk ==> disk[id] == old(disk)[id] || disk[id] == Recovered(old(disk)[id], now)
      ensures ok ==> forall id :: id in disk ==> disk[id] == Recovered(old(disk)[id], now)
    {
      var todo := disk.Keys;
      while todo != {}
        invariant disk.Keys == old(disk).Keys && todo <= disk.Keys
        invariant forall id :: id in disk ==>
          disk[id] == if id in todo then old(disk)[id] else Recovered(old(disk)[id], now)
        decreases |todo|
      {
        var id :| id in todo;
        var record := disk[id].record;
        if record.Some? && !Terminal(record.value.phase) {
          if id in unwritable {
            SameOwnersKeepInv(log, old(disk), disk, processes);
            return false;
          }
          disk := disk[id := disk[id].(record := Some(record.value.(phase := Lost, completedAt := Some(now))))];
        }
        todo := todo - {id};
      }
      SameOwnersKeepInv(log, old(disk), disk, processes);
      ok := true;
    }

    /**
     A directory copied from another scope loses its transcripts and records but
     none of its owner files; the marker changes only when all of that is done.
     stuck names the directories where a removal fails, before or after the
     transcript is gone.
     */
    method PrepareTranscriptScope(scope: string, stuck: map<string, bool>) returns (ok: bool)
      requires Valid()
      modifies this`disk, this`marker
      ensures Valid() && disk.Keys == old(disk).Keys
      ensures forall id :: id in disk ==>
        disk[id] == old(disk)[id] || disk[id] == Inherited(old(disk)[id])
          || disk[id] == old(disk)[id].(transcript := false)
      ensures marker == if ok && scope != "" then scope else old(marker)
      ensures scope == "" || scope == old(marker) || old(marker) == "" ==> ok && disk == old(disk)
      ensures ok && scope != "" && scope != old(marker) && old(marker) != "" ==>
        forall id :: id in disk ==> disk[id] == Inherited(old(disk)[id])
    {
      if scope == "" || scope == marker {
        return true;
      }
      if marker != "" {
        var todo := disk.Keys;
        while todo != {}
          invariant disk.Keys == old(disk).Keys && todo <= disk.Keys && marker == old(marker)
          invariant forall id :: id in disk ==>
            disk[id] == if id in todo then old(disk)[id] else Inherited(old(disk)[id])
          decreases |todo|
        {
          var id :| id in todo;
          if id in stuck {
            if stuck[id] {
              disk := disk[id := disk[id].(transcript := false)];
            }
            SameOwnersKeepInv(log, old(disk), disk, processes);
            return false;
          }
          disk := disk[id := Inherited(disk[id])];
          todo := todo - {id};
        }
        SameOwnersKeepInv(log, old(disk), disk, processes);
      }
      marker := scope;
      ok := true;
    }

    /**
     pruneHistory. Only prunable records are removed or aged; the count is the
     number of directories that are gone; a run without a failure leaves exactly
     what the policy keeps of the records in completion order.
     */
    method PruneHistory(policy: Policy, now: int, matches: string -> bool, readable: bool, faults: Faults)
      returns (removed: nat, ok: bool, ghost list: seq<Finished>, ghost tried: set<string>)
      requires Valid()
      modifies this`disk, this`processes, this`log
      ensures Valid()
      ensures Spares(old(disk), disk, tried, old(processes), matches)
      ensures log == old(log) + [Prune(tried)]
      ensures processes == old(processes) - (old(disk).Keys - disk.Keys)
      ensures ok && Active(policy) ==>
        && ListsPrunable(list, old(disk), old(processes), matches)
        && NewestFirst(list)
        && disk == Pruned(old(disk), policy, now, list, |list|)
      ensures !Active(policy) ==> ok && disk == old(disk) && tried == {}
      ensures removed == |old(disk).Keys - disk.Keys|
    {
      removed, ok, list, tried := 0, true, [], {};
      var after := disk;
      if Active(policy) {
        after, removed, ok, list, tried := SelectAndPrune(disk, processes, policy, now, matches, readable, faults);
      } else {
        assert disk.Keys - after.Keys == {};
      }
      Replace(after, tried, matches);
    }

    /** The directories that are gone are forgotten in memory too. */
    method Replace(after: Disk, ghost tried: set<string>, ghost matches: string -> bool)
      requires Valid() && Spares(disk, after, tried, processes, matches)
      modifies this`disk, this`processes, this`log
      ensures Valid() && disk == after && log == old(log) + [Prune(tried)]
      ensures processes == old(processes) - (old(disk).Keys - after.Keys)
    {
      PruneKeepsInv(log, disk, after, processes, tried);
      log := log + [Prune(tried)];
      processes := processes - (disk.Keys - after.Keys);
      disk := after;
    }

    /** Any history of calls, failures, crashes and restarts on one state directory. */
    method Run(steps: seq<Step>)
      requires Valid()
      modifies this
      ensures Valid() && AtMostOnce(log) && Owned(log, disk)
      ensures old(log) <= log
    {
      for k := 0 to |steps|
        invariant Valid() && old(log) <= log
      {
        match steps[k]
        case Begin(request, now, world) =>
          var _ := Start(request, now, world);
        case End(id, stopped, now, recordWritten) =>
          if id in processes { Finish(id, stopped, now, recordWritten); }
        case Reboot(scope, stuck, now, unwritable) =>
          Restart();
          var _ := PrepareTranscriptScope(scope, stuck);
          var _ := RecoverHistory(now, unwritable);
        case Tidy(policy, now, matches, readable, faults) =>
          var _, _, _, _ := PruneHistory(policy, now, matches, readable, faults);
      }
    }
  }

  datatype Step =
    | Begin(request: Request, now: int, world: World)
    | End(id: string, stopped: bool, now: int, recordWritten: bool)
    | Reboot(scope: string, stuck: map<string, bool>, now: int, unwritable: set<string>)
    | Tidy(policy: Policy, now: int, matches: string -> bool, readable: bool, faults: Faults)

  /** The records are read, filtered, sorted newest first and put to the policy. */
  method SelectAndPrune(disk: Disk, processes: map<string, Process>, policy: Policy, now: int, matches: string -> bool,
                        readable: bool, faults: Faults)
    returns (after: Disk, removed: nat, ok: bool, ghost list: seq<Finished>, ghost tried: set<string>)
    ensures Spares(disk, after, tried, processes, matches)
    ensures ok ==>
      && ListsPrunable(list, disk, processes, matches)
      && NewestFirst(list)
      && after == Pruned(disk, policy, now, list, |list|)
    ensures removed == |disk.Keys - after.Keys|
  {
    if !readable {
      assert disk.Keys - disk.Keys == {};
      return disk, 0, false, [], {};
    }
    var finished := CollectFinished(disk, processes, matches);
    var sorted := SortNewestFirst(finished);
    PermutationLists(finished, sorted, disk, processes, matches);
    var o := ApplyPolicy(disk, policy, now, sorted, faults);
    OutcomeSpares(o, disk, processes, matches, policy, now, sorted);
    OutcomeCounts(o, disk, policy, now, sorted);
    return o.disk, o.removed, o.ok, sorted, Tried(o, policy, now, sorted);
  }

  predicate Active(policy: Policy) {
    policy.ttl > 0 || policy.maxEntries > 0 || policy.transcriptTTL > 0
  }

  function Recovered(entry: Entry, now: int): Entry {
    if entry.record.Some? && !Terminal(entry.record.value.phase)
    then entry.(record := Some(entry.record.value.(phase := Lost, completedAt := Some(now))))
    else entry
  }

  function Inherited(entry: Entry): Entry {
    entry.(transcript := false, record := None)
  }

  /** The directories a pruning call began to remove. */
  ghost function Tried(o: Outcome, policy: Policy, now: int, list: seq<Finished>): set<string>
    requires o.done <= |list| && (o.partial.Some? ==> o.done < |list|)
  {
    Gone(policy, now, list, o.done) + if o.partial.Some? then {list[o.done].id} else {}
  }

  /** The directories a pruning call may leave, and the owner files in them. */
  ghost predicate Spares(
      disk: Disk, after: Disk, tried: set<string>, processes: map<string, Process>, matches: string -> bool) {
    && (forall id :: id in after ==> id in disk && (after[id].owner == disk[id].owner || after[id].owner.None?))
    && (forall id :: id in disk && id !in tried ==> id in after && after[id].owner == disk[id].owner)
    && (forall id :: id in disk && !Prunable(disk, processes, matches, id) ==> id in after && after[id] == disk[id])
    && (forall id :: id in tried ==> Prunable(disk, processes, matches, id))
  }

  lemma PrunedSpares(
      disk: Disk, processes: map<string, Process>, matches: string -> bool, policy: Policy, now: int,
      list: seq<Finished>, k: nat)
    requires k <= |list| && ListsPrunable(list, disk, processes, matches)
    ensures Spares(disk, Pruned(disk, policy, now, list, k), Gone(policy, now, list, k), processes, matches)
  {
    var after := Pruned(disk, policy, now, list, k);
    forall id
      ensures id in after ==> id in disk && after[id].owner == disk[id].owner
      ensures id in disk && id !in Gone(policy, now, list, k) ==> id in after
      ensures id in disk && !Prunable(disk, processes, matches, id) ==> id in after && after[id] == disk[id]
      ensures id in Gone(policy, now, list, k) ==> id in Ids(list)
    {
      PrunedExact(disk, policy, now, list, k, id);
      if id in Ids(list[..k]) {
        var i :| 0 <= i < k && list[..k][i].id == id;
        assert list[i].id == id && id in Ids(list);
      }
    }
  }

  lemma OutcomeSpares(
      o: Outcome, disk: Disk, processes: map<string, Process>, matches: string -> bool, policy: Policy, now: int,
      list: seq<Finished>)
    requires Explains(o, disk, policy, now, list) && ListsPrunable(list, disk, processes, matches)
    ensures Spares(disk, o.disk, Tried(o, policy, now, list), processes, matches)
  {
    PrunedSpares(disk, processes, matches, policy, now, list, o.done);
    if o.partial.Some? {
      assert list[o.done].id in Ids(list);
    }
  }

  lemma OutcomeCounts(o: Outcome, disk: Disk, policy: Policy, now: int, list: seq<Finished>)
    requires Explains(o, disk, policy, now, list) && Distinct(list) && Dated(list, disk)
    ensures o.removed == |disk.Keys - o.disk.Keys|
  {
    DropCountExact(disk, policy, now, list, o.done);
    assert o.disk.Keys == Pruned(disk, policy, now, list, o.done).Keys;
  }
}

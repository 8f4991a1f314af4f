/**
 Durable process history: the records kept beside each process's owner file, and
 the pruning of finished ones by age and by number.
 */
module History {
  import opened Options
  import opened Sets

  datatype Phase = Starting | Running | Exited | Stopped | Lost

  predicate Terminal(phase: Phase) {
    phase.Exited? || phase.Stopped? || phase.Lost?
  }

  datatype Record = Record(uid: string, phase: Phase, completedAt: Option<int>)

  /** One process directory: owner.uid, record.json and transcript.log. */
  datatype Entry = Entry(owner: Option<string>, record: Option<Record>, transcript: bool)

  type Disk = map<string, Entry>

  /** A process this supervisor instance holds in memory. */
  datatype Process = Process(uid: string, phase: Phase)

  /** Times are nanoseconds; a limit that is not positive is off. */
  datatype Policy = Policy(ttl: int, maxEntries: int, transcriptTTL: int)

  /** A finished record with its completion time. */
  datatype Finished = Finished(id: string, at: int)

  /** Finished, dated, matching, and not still running in memory. */
  predicate Prunable(disk: Disk, processes: map<string, Process>, matches: string -> bool, id: string) {
    && id in disk
    && disk[id].record.Some?
    && Terminal(disk[id].record.value.phase)
    && disk[id].record.value.completedAt.Some?
    && matches(id)
    && (id in processes ==> Terminal(processes[id].phase))
  }

  function CompletedAt(disk: Disk, id: string): int
    requires id in disk && disk[id].record.Some? && disk[id].record.value.completedAt.Some?
  {
    disk[id].record.value.completedAt.value
  }

  predicate Distinct(list: seq<Finished>) {
    forall k, l :: 0 <= k < l < |list| ==> list[k].id != list[l].id
  }

  predicate NewestFirst(list: seq<Finished>) {
    forall k, l :: 0 <= k < l < |list| ==> list[k].at >= list[l].at
  }

  function Ids(list: seq<Finished>): set<string> {
    set k | 0 <= k < |list| :: list[k].id
  }

  lemma {:induction false} IdsCount(list: seq<Finished>)
    requires Distinct(list)
    ensures |Ids(list)| == |list|
  {
    if list != [] {
      var init, last := list[..|list| - 1], list[|list| - 1];
      IdsCount(init);
      assert list == init + [last];
      IdsSnoc(init, last);
      assert last.id !in Ids(init);
    }
  }

  lemma IdsSnoc(list: seq<Finished>, f: Finished)
    ensures Ids(list + [f]) == Ids(list) + {f.id}
  {
    var more := list + [f];
    assert more[|list|] == f;
    forall id | id in Ids(list) ensures id in Ids(more) {
      var k :| 0 <= k < |list| && list[k].id == id;
      assert more[k].id == id;
    }
  }

  /** The list names exactly the prunable records, once each, with their times. */
  ghost predicate ListsPrunable(
      list: seq<Finished>, disk: Disk, processes: map<string, Process>, matches: string -> bool) {
    && Distinct(list)
    && (forall id :: id in Ids(list) <==> Prunable(disk, processes, matches, id))
    && Dated(list, disk)
  }

  predicate Dated(list: seq<Finished>, disk: Disk) {
    forall k :: 0 <= k < |list| ==>
      && list[k].id in disk
      && disk[list[k].id].record.Some?
      && disk[list[k].id].record.value.completedAt == Some(list[k].at)
  }

  /** The records in the order the directory happens to list them. */
  method CollectFinished(disk: Disk, processes: map<string, Process>, matches: string -> bool)
    returns (finished: seq<Finished>)
    ensures ListsPrunable(finished, disk, processes, matches)
  {
    finished := [];
    var todo := disk.Keys;
    while todo != {}
      invariant todo <= disk.Keys && Distinct(finished) && Dated(finished, disk)
      invariant forall id :: id in Ids(finished) <==> Prunable(disk, processes, matches, id) && id !in todo
      decreases |todo|
    {
      var id :| id in todo;
      if Prunable(disk, processes, matches, id) {
        IdsSnoc(finished, Finished(id, CompletedAt(disk, id)));
        assert forall k :: 0 <= k < |finished| ==> finished[k].id in Ids(finished);
        finished := finished + [Finished(id, CompletedAt(disk, id))];
      }
      todo := todo - {id};
    }
  }

  /** Place one record after those that completed no earlier. */
  method Insert(list: seq<Finished>, f: Finished) returns (longer: seq<Finished>)
    requires NewestFirst(list)
    ensures NewestFirst(longer) && |longer| == |list| + 1
    ensures Inserted(list, f, longer)
  {
    var i := |list|;
    while i > 0 && list[i - 1].at < f.at
      invariant 0 <= i <= |list|
      invariant forall k :: i <= k < |list| ==> list[k].at <= f.at
    {
      i := i - 1;
    }
    longer := list[..i] + [f] + list[i..];
  }

  /** The same records, and each as often, so distinct IDs stay distinct. */
  ghost predicate Permutes(sorted: seq<Finished>, list: seq<Finished>) {
    multiset(sorted) == multiset(list) && (Distinct(list) ==> Distinct(sorted))
  }

  /** Sorting keeps the listed records; ties may come in any order. */
  method SortNewestFirst(list: seq<Finished>) returns (sorted: seq<Finished>)
    ensures NewestFirst(sorted) && Permutes(sorted, list)
  {
    sorted := [];
    for k := 0 to |list|
      invariant NewestFirst(sorted) && Permutes(sorted, list[..k])
    {
      var longer := Insert(sorted, list[k]);
      SortStep(list, k, sorted, longer);
      sorted := longer;
    }
    assert list[..|list|] == list;
  }

  ghost predicate Inserted(list: seq<Finished>, f: Finished, longer: seq<Finished>) {
    exists i :: 0 <= i <= |list| && longer == list[..i] + [f] + list[i..]
  }

  lemma InsertedMultiset(list: seq<Finished>, f: Finished, longer: seq<Finished>)
    requires Inserted(list, f, longer)
    ensures multiset(longer) == multiset(list) + multiset{f}
  {
    var i :| 0 <= i <= |list| && longer == list[..i] + [f] + list[i..];
    assert list == list[..i] + list[i..];
  }

  lemma InsertedDistinct(source: seq<Finished>, list: seq<Finished>, f: Finished, longer: seq<Finished>)
    requires multiset(list) == multiset(source) && (Distinct(source) ==> Distinct(list))
    requires Inserted(list, f, longer)
    ensures Distinct(source + [f]) ==> Distinct(longer)
  {
    var more := source + [f];
    if Distinct(more) {
      assert forall k, l :: 0 <= k < l < |source| ==> more[k] == source[k] && more[l] == source[l];
      assert Distinct(source);
      SameMembers(source, list);
      forall k | 0 <= k < |list| ensures list[k].id != f.id {
        assert list[k] in source;
        var j :| 0 <= j < |source| && source[j] == list[k];
        assert more[j].id != more[|source|].id;
      }
    }
  }

  lemma SortStep(list: seq<Finished>, k: nat, sorted: seq<Finished>, longer: seq<Finished>)
    requires k < |list| && Permutes(sorted, list[..k]) && Inserted(sorted, list[k], longer)
    ensures Permutes(longer, list[..k + 1])
  {
    assert list[..k + 1] == list[..k] + [list[k]];
    InsertedMultiset(sorted, list[k], longer);
    InsertedDistinct(list[..k], sorted, list[k], longer);
  }

  lemma PermutationLists(
      list: seq<Finished>, sorted: seq<Finished>, disk: Disk, processes: map<string, Process>, matches: string -> bool)
    requires multiset(sorted) == multiset(list) && Distinct(sorted)
    requires ListsPrunable(list, disk, processes, matches)
    ensures ListsPrunable(sorted, disk, processes, matches)
  {
    SameMembers(list, sorted);
    forall id ensures id in Ids(sorted) <==> id in Ids(list) {
      if id in Ids(list) {
        var k :| 0 <= k < |list| && list[k].id == id;
        assert list[k] in sorted;
      }
      if id in Ids(sorted) {
        var k :| 0 <= k < |sorted| && sorted[k].id == id;
        assert sorted[k] in list;
      }
    }
    forall k | 0 <= k < |sorted|
      ensures sorted[k].id in disk && disk[sorted[k].id].record.Some?
      ensures disk[sorted[k].id].record.value.completedAt == Some(sorted[k].at)
    {
      assert sorted[k] in list;
    }
  }

  lemma SameMembers(list: seq<Finished>, sorted: seq<Finished>)
    requires multiset(sorted) == multiset(list)
    ensures forall f :: f in sorted <==> f in list
  {
    forall f ensures f in sorted <==> f in list {
      assert f in sorted <==> f in multiset(sorted);
      assert f in list <==> f in multiset(list);
    }
  }

  // ---- applying a policy -----------------------------------------------

  const MAX_DURATION := 0x7FFF_FFFF_FFFF_FFFF

  /** time.Sub: a difference that does not fit a duration becomes the nearest one that does. */
  function Age(now: int, at: int): int {
    var d := now - at;
    if d > MAX_DURATION then MAX_DURATION else if d < -MAX_DURATION - 1 then -MAX_DURATION - 1 else d
  }

  predicate Expired(policy: Policy, now: int, at: int) {
    policy.ttl > 0 && Age(now, at) > policy.ttl
  }

  /** Whether the record at an index of the sorted list goes. */
  predicate Dropped(policy: Policy, now: int, list: seq<Finished>, index: nat)
    requires index < |list|
  {
    Expired(policy, now, list[index].at) || (policy.maxEntries > 0 && index >= policy.maxEntries)
  }

  /** What a kept record's directory becomes. */
  function Aged(entry: Entry, policy: Policy, now: int, at: int): Entry {
    if policy.transcriptTTL > 0 && Age(now, at) > policy.transcriptTTL then entry.(transcript := false) else entry
  }

  /** The file system's failures: directories that go only in part, and transcripts that stay. */
  datatype Faults = Faults(directories: map<string, Leftover>, transcripts: set<string>)
  datatype Leftover = Leftover(owner: bool, record: bool, transcript: bool)

  function Damaged(entry: Entry, left: Leftover): Entry {
    Entry(if left.owner then entry.owner else None,
          if left.record then entry.record else None,
          left.transcript && entry.transcript)
  }

  /** One record's turn in the removal loop, when nothing fails. */
  function Treated(disk: Disk, policy: Policy, now: int, list: seq<Finished>, index: nat): Disk
    requires index < |list|
  {
    var f := list[index];
    if Dropped(policy, now, list, index) then disk - {f.id}
    else if f.id in disk then disk[f.id := Aged(disk[f.id], policy, now, f.at)]
    else disk
  }

  function Pruned(disk: Disk, policy: Policy, now: int, list: seq<Finished>, k: nat): Disk
    requires k <= |list|
  {
    if k == 0 then disk else Treated(Pruned(disk, policy, now, list, k - 1), policy, now, list, k - 1)
  }

  function DropCount(policy: Policy, now: int, list: seq<Finished>, k: nat): nat
    requires k <= |list|
  {
    if k == 0 then 0
    else DropCount(policy, now, list, k - 1) + if Dropped(policy, now, list, k - 1) then 1 else 0
  }

  /** How far the removal loop got, and whether the next directory went in part. */
  datatype Outcome = Outcome(disk: Disk, done: nat, removed: nat, partial: Option<Leftover>, ok: bool)

  predicate Explains(o: Outcome, before: Disk, policy: Policy, now: int, list: seq<Finished>) {
    && o.done <= |list|
    && (o.ok ==> o.done == |list| && o.partial.None?)
    && o.removed == DropCount(policy, now, list, o.done)
    && var disk := Pruned(before, policy, now, list, o.done);
       match o.partial
       case None => o.disk == disk
       case Some(left) =>
         && o.done < |list|
         && Dropped(policy, now, list, o.done)
         && list[o.done].id in disk
         && o.disk == disk[list[o.done].id := Damaged(disk[list[o.done].id], left)]
  }

  /** The removal loop. A directory that is not there is removed without an error. */
  method ApplyPolicy(before: Disk, policy: Policy, now: int, list: seq<Finished>, faults: Faults) returns (o: Outcome)
    ensures Explains(o, before, policy, now, list)
  {
    var disk, removed := before, 0;
    for k := 0 to |list|
      invariant disk == Pruned(before, policy, now, list, k)
      invariant removed == DropCount(policy, now, list, k)
    {
      var f := list[k];
      if Dropped(policy, now, list, k) {
        if f.id in disk && f.id in faults.directories {
          return Outcome(disk[f.id := Damaged(disk[f.id], faults.directories[f.id])], k, removed,
                         Some(faults.directories[f.id]), false);
        }
        disk := disk - {f.id};
        removed := removed + 1;
      } else if policy.transcriptTTL > 0 && Age(now, f.at) > policy.transcriptTTL {
        if f.id in disk {
          if disk[f.id].transcript && f.id in faults.transcripts {
            return Outcome(disk, k, removed, None, false);
          }
          disk := disk[f.id := disk[f.id].(transcript := false)];
        }
      } else {
        assert f.id in disk ==> disk == disk[f.id := disk[f.id]];
      }
    }
    o := Outcome(disk, |list|, removed, None, true);
  }

  /** What each directory is after k turns. */
  lemma {:induction false} PrunedExact(disk: Disk, policy: Policy, now: int, list: seq<Finished>, k: nat, id: string)
    requires k <= |list| && Distinct(list)
    ensures
      var after := Pruned(disk, policy, now, list, k);
      && after.Keys <= disk.Keys
      && (id !in Ids(list[..k]) && id in disk ==> id in after && after[id] == disk[id])
      && (forall i :: 0 <= i < k && list[i].id == id ==>
            && (id in after <==> id in disk && !Dropped(policy, now, list, i))
            && (id in after ==> after[id] == Aged(disk[id], policy, now, list[i].at)))
  {
    if k > 0 {
      PrunedExact(disk, policy, now, list, k - 1, id);
      assert list[..k] == list[..k - 1] + [list[k - 1]];
      IdsSnoc(list[..k - 1], list[k - 1]);
      assert id == list[k - 1].id ==> id !in Ids(list[..k - 1]);
    }
  }

  function Gone(policy: Policy, now: int, list: seq<Finished>, k: nat): set<string>
    requires k <= |list|
  {
    set i | 0 <= i < k && Dropped(policy, now, list, i) :: list[i].id
  }

  lemma {:induction false} GoneCount(policy: Policy, now: int, list: seq<Finished>, k: nat)
    requires k <= |list| && Distinct(list)
    ensures |Gone(policy, now, list, k)| == DropCount(policy, now, list, k)
  {
    if k > 0 {
      GoneCount(policy, now, list, k - 1);
      var before, id := Gone(policy, now, list, k - 1), list[k - 1].id;
      assert id !in before;
      assert Gone(policy, now, list, k) == if Dropped(policy, now, list, k - 1) then before + {id} else before;
    }
  }

  /** The count is the number of directories that are gone. */
  lemma DropCountExact(disk: Disk, policy: Policy, now: int, list: seq<Finished>, k: nat)
    requires k <= |list| && Distinct(list) && Dated(list, disk)
    ensures disk.Keys - Pruned(disk, policy, now, list, k).Keys == Gone(policy, now, list, k)
    ensures |disk.Keys - Pruned(disk, policy, now, list, k).Keys| == DropCount(policy, now, list, k)
  {
    forall id ensures id in disk.Keys - Pruned(disk, policy, now, list, k).Keys <==> id in Gone(policy, now, list, k) {
      PrunedExact(disk, policy, now, list, k, id);
      if id in Ids(list[..k]) {
        var i :| 0 <= i < k && list[..k][i].id == id;
        assert list[i].id == id;
      }
    }
    GoneCount(policy, now, list, k);
  }

  // ---- what pruning guarantees -----------------------------------------

  /** The place of a prunable record in the list. */
  lemma PrunableIsListed(
      list: seq<Finished>, disk: Disk, processes: map<string, Process>, matches: string -> bool, id: string)
    returns (i: nat)
    requires ListsPrunable(list, disk, processes, matches) && Prunable(disk, processes, matches, id)
    ensures i < |list| && list[i] == Finished(id, CompletedAt(disk, id))
  {
    assert id in Ids(list);
    i :| 0 <= i < |list| && list[i].id == id;
  }

  /** Unfinished, undated, running and non-matching processes are never touched. */
  lemma OthersAreKept(
      disk: Disk, processes: map<string, Process>, matches: string -> bool, policy: Policy, now: int,
      list: seq<Finished>, id: string)
    requires ListsPrunable(list, disk, processes, matches)
    requires id in disk && !Prunable(disk, processes, matches, id)
    ensures id in Pruned(disk, policy, now, list, |list|)
    ensures Pruned(disk, policy, now, list, |list|)[id] == disk[id]
  {
    PrunedExact(disk, policy, now, list, |list|, id);
    assert list[..|list|] == list;
  }

  function Kept(disk: Disk, policy: Policy, now: int, list: seq<Finished>): set<string> {
    set id | id in Pruned(disk, policy, now, list, |list|) && id in Ids(list)
  }

  /** No more records are kept than the limit, and none beyond its age. */
  lemma KeptWithinLimits(
      disk: Disk, processes: map<string, Process>, matches: string -> bool, policy: Policy, now: int,
      list: seq<Finished>)
    requires ListsPrunable(list, disk, processes, matches)
    ensures policy.maxEntries > 0 ==> |Kept(disk, policy, now, list)| <= policy.maxEntries
    ensures forall id :: id in Kept(disk, policy, now, list) ==>
      Prunable(disk, processes, matches, id) && !Expired(policy, now, CompletedAt(disk, id))
  {
    var kept := Kept(disk, policy, now, list);
    forall id | id in kept
      ensures Prunable(disk, processes, matches, id) && !Expired(policy, now, CompletedAt(disk, id))
    {
      var i := PrunableIsListed(list, disk, processes, matches, id);
      PrunedExact(disk, policy, now, list, |list|, id);
    }
    if policy.maxEntries > 0 {
      var first := if policy.maxEntries <= |list| then list[..policy.maxEntries] else list;
      forall id | id in kept ensures id in Ids(first) {
        var i := PrunableIsListed(list, disk, processes, matches, id);
        PrunedExact(disk, policy, now, list, |list|, id);
        assert first[i] == list[i];
      }
      IdsCount(first);
      SubsetSize(kept, Ids(first));
    }
  }

  /** The prunable records that completed at or after a time. */
  function Since(list: seq<Finished>, at: int): set<string> {
    set k | 0 <= k < |list| && list[k].at >= at :: list[k].id
  }

  function After(list: seq<Finished>, at: int): set<string> {
    set k | 0 <= k < |list| && list[k].at > at :: list[k].id
  }

  /** A record goes only for its age, or because as many others completed no earlier as may stay. */
  lemma DroppedForCause(policy: Policy, now: int, list: seq<Finished>, i: nat)
    requires Distinct(list) && NewestFirst(list) && i < |list|
    requires Dropped(policy, now, list, i)
    ensures
      || Expired(policy, now, list[i].at)
      || (policy.maxEntries > 0 && |Since(list, list[i].at) - {list[i].id}| >= policy.maxEntries)
  {
    if !Expired(policy, now, list[i].at) {
      var first := list[..i];
      IdsCount(first);
      forall id | id in Ids(first) ensures id in Since(list, list[i].at) - {list[i].id} {
        var k :| 0 <= k < |first| && first[k].id == id;
        assert list[k].id == id;
      }
      SubsetSize(Ids(first), Since(list, list[i].at) - {list[i].id});
    }
  }

  /** A record stays only while it is young enough and fewer completed after it than may stay. */
  lemma KeptForCause(policy: Policy, now: int, list: seq<Finished>, i: nat)
    requires NewestFirst(list) && i < |list|
    requires !Dropped(policy, now, list, i)
    ensures !Expired(policy, now, list[i].at)
    ensures policy.maxEntries > 0 ==> |After(list, list[i].at)| < policy.maxEntries
  {
    var first := list[..i];
    forall id | id in After(list, list[i].at) ensures id in Ids(first) {
      var k :| 0 <= k < |list| && list[k].at > list[i].at && list[k].id == id;
      assert first[k] == list[k];
    }
    SubsetSize(After(list, list[i].at), Ids(first));
    IdsAtMost(first);
  }

  lemma {:induction false} IdsAtMost(list: seq<Finished>)
    ensures |Ids(list)| <= |list|
  {
    if list != [] {
      var init, last := list[..|list| - 1], list[|list| - 1];
      IdsAtMost(init);
      assert list == init + [last];
      IdsSnoc(init, last);
    }
  }

  /** Every kept record completed no earlier than any that was dropped for overflow. */
  lemma KeptAreNewest(policy: Policy, now: int, list: seq<Finished>, kept: nat, dropped: nat)
    requires NewestFirst(list) && kept < |list| && dropped < |list|
    requires !Dropped(policy, now, list, kept)
    requires Dropped(policy, now, list, dropped) && !Expired(policy, now, list[dropped].at)
    ensures list[kept].at >= list[dropped].at
  {
  }
}

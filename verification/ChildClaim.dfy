/**
 One Worktree's child volume claim under serialized reconcile passes. Between
 any two API calls other actors may create, delete or terminate claims, close
 the fence, delete the Worktree or change its Repository, and the controller may
 crash; status writers read a cache that may lag, or show nothing, or a
 predecessor of the same name.
 */
module ChildClaims {
  import opened Options
  import opened VolumeClaims

  datatype Source = Missing | Unreadable | Broken | Busy | Unplannable | Cloneable

  /** What the cache shows: an earlier state of this Worktree, nothing, or a predecessor's claim name. */
  datatype View = Lagging(age: nat) | Absent | Predecessor(claimName: string)

  /** What one API call meets. */
  datatype Meanwhile = Meanwhile(
    crash: bool,
    claims: Option<Reader>,
    closes: bool,
    userDeletes: bool,
    source: Source,
    sourceKnown: bool,
    matches: bool,
    bound: bool,
    view: View)

  const QUIET := Meanwhile(false, None, false, false, Cloneable, true, true, true, Lagging(0))

  /** The names the status held, in order: empty, then one name for good. */
  predicate Pinned(history: seq<string>) {
    && history != []
    && forall i, j :: 0 <= i <= j < |history| && history[i] != "" ==> history[j] == history[i]
  }

  lemma PinnedMore(history: seq<string>, name: string)
    requires Pinned(history) && (history[|history| - 1] == "" || history[|history| - 1] == name)
    ensures Pinned(history + [name])
  {
    var more := history + [name];
    forall i, j | 0 <= i <= j < |more| && more[i] != "" ensures more[j] == more[i] {
      if j == |history| && i < |history| {
        assert history[|history| - 1] == history[i];
      }
    }
  }

  class Worktree {
    const owner: Owner
    const digest: string -> string
    var history: seq<string>
    var reader: Reader
    var closed: bool
    var deleting: bool
    var plan: seq<Meanwhile>
    /** The name recorded at each creation of a child. */
    ghost var creations: seq<string>

    function Recorded(): string
      reads this
      requires history != []
    {
      history[|history| - 1]
    }

    ghost predicate Valid()
      reads this
    {
      && owner.name != ""
      && (forall s :: |digest(s)| == 64)
      && Pinned(history)
      && ReaderOk(reader)
      && forall i :: 0 <= i < |creations| ==> creations[i] == ""
    }

    /** A new Worktree whose claim names are free and which nothing interferes with. */
    ghost predicate Undisturbed()
      reads this
      requires Valid()
    {
      && plan == [] && !closed && !deleting && Recorded() == "" && reader.failing == {}
      && owner.name !in reader.claims
      && Name(digest, VolumeClaims.Worktree, owner.name, 0) !in reader.claims
    }

    constructor (owner: Owner, digest: string -> string, reader: Reader)
      requires owner.name != "" && (forall s :: |digest(s)| == 64) && ReaderOk(reader)
      ensures Valid() && history == [""] && creations == []
    {
      this.owner, this.digest, this.reader := owner, digest, reader;
      history, closed, deleting, plan, creations := [""], false, false, [], [];
    }

    /** Everything others may do before the next call is answered. */
    method Call() returns (m: Meanwhile)
      requires Valid()
      modifies this`plan, this`reader, this`closed, this`deleting
      ensures Valid()
      ensures (old(closed) ==> closed) && (old(deleting) ==> deleting)
      ensures old(plan) == [] ==>
        m == QUIET && plan == [] && reader == old(reader) && closed == old(closed) && deleting == old(deleting)
    {
      if plan == [] {
        return QUIET;
      }
      m, plan := plan[0], plan[1..];
      if m.claims.Some? && ReaderOk(m.claims.value) {
        reader := m.claims.value;
      }
      closed := closed || m.closes;
      deleting := deleting || m.userDeletes;
    }

    /**
     setWorktreeStatus and setWorktreeVolumeReady: an empty name leaves the
     field alone, and the merge patch carries it only if the cached object read
     before had another value. A Worktree the cache does not show is left alone,
     and the caller is told that all is well.
     */
    method SetStatus(claimName: string) returns (ok: bool)
      requires Valid()
      requires claimName == "" || Recorded() == "" || claimName == Recorded()
      modifies this`plan, this`reader, this`closed, this`deleting, this`history
      ensures Valid() && old(history) <= history
      ensures claimName == "" ==> Recorded() == old(Recorded())
      ensures Recorded() == old(Recorded()) || Recorded() == claimName
      ensures old(plan) == [] && claimName != "" ==> ok && Recorded() == claimName
      ensures old(plan) == [] ==> plan == []
    {
      var get := Call();
      if get.crash { return false; }
      var before;
      match get.view {
        case Absent => return true;
        case Predecessor(claim) => before := claim;
        case Lagging(age) => before := history[if age < |history| then |history| - 1 - age else 0];
      }
      var after := if claimName != "" then claimName else before;
      var patch := Call();
      if patch.crash { return false; }
      var written := if after != before then after else Recorded();
      PinnedMore(history, written);
      history := history + [written];
      return true;
    }

    /** reconcileWorktree, up to the point where the child is published as ready. */
    method Reconcile()
      requires Valid()
      modifies this
      ensures Valid() && old(history) <= history
      ensures old(Recorded()) != "" ==> Recorded() == old(Recorded()) && creations == old(creations)
      ensures |creations| <= |old(creations)| + 1
      ensures old(closed) || old(deleting) ==> creations == old(creations)
      ensures old(Undisturbed()) ==>
        Recorded() == Name(digest, VolumeClaims.Worktree, owner.name, 0) && creations == old(creations) + [""]
    {
      var get := Call();
      if get.crash { return; }
      var recorded, fenced := Recorded(), closed;
      if deleting { return; }
      var protect := Call();
      if protect.crash { return; }
      var lookup := Call();
      if lookup.crash { return; }
      var r := ResolveChild(recorded);
      if r.error == Some(ApiError) { return; }
      if fenced || (r.claim.None? && recorded != "")
        || (r.claim.Some? && ControlledBy(r.claim.value, owner) && r.claim.value.deleting) {
        // Storage deletion changes conditions and finalizers only.
        return;
      }
      if r.error == Some(Conflict) {
        var _ := SetStatus(recorded);
        return;
      }
      if r.claim.None? {
        var made := CreateChild(r.name);
        if !made { return; }
      }
      Publish(r.name);
    }

    method ResolveChild(recorded: string) returns (r: Resolution)
      requires Valid()
      ensures r == Resolve(digest, reader, owner, VolumeClaims.Worktree, 0, recorded)
      ensures recorded != "" ==> r.name == recorded
      ensures r.error != Some(ApiError) ==> r.name != ""
    {
      ResolveIsSafe(digest, reader, owner, VolumeClaims.Worktree, 0, recorded);
      return Resolve(digest, reader, owner, VolumeClaims.Worktree, 0, recorded);
    }

    /** No child and no record of one: the Repository must admit a clone first. */
    method CreateChild(name: string) returns (made: bool)
      requires Valid() && Recorded() == "" && name != ""
      modifies this
      ensures Valid() && old(history) <= history && Recorded() == ""
      ensures creations == old(creations) || creations == old(creations) + [""]
      ensures made ==> creations == old(creations) + [""]
      ensures old(plan) == [] && name !in old(reader).claims ==> made && plan == []
    {
      var get := Call();
      if get.crash || get.source == Unreadable { return false; }
      if get.source != Cloneable {
        var _ := SetStatus("");
        return false;
      }
      var create := Call();
      if create.crash || name in reader.claims { return false; }
      reader := reader.(claims := reader.claims[name := Claim(name, Some(owner.uid), false)]);
      creations := creations + [Recorded()];
      var answer := Call();
      return !answer.crash;
    }

    /** An existing child is published under the name it was resolved by. */
    method Publish(name: string)
      requires Valid() && name != "" && (Recorded() == "" || Recorded() == name)
      modifies this`plan, this`reader, this`closed, this`deleting, this`history
      ensures Valid() && old(history) <= history
      ensures Recorded() == old(Recorded()) || Recorded() == name
      ensures old(plan) == [] ==> Recorded() == name
    {
      var read := Call();
      var ok := false;
      if read.crash { return; }
      if !read.sourceKnown || !read.matches || !read.bound {
        ok := SetStatus(name);
        return;
      }
      ok := SetStatus(name);
      if !ok { return; }
      ok := SetStatus(name);
    }

    /** Any number of passes: a recorded name stays, and no child is created after it. */
    method Passes(plans: seq<seq<Meanwhile>>)
      requires Valid()
      modifies this
      ensures Valid() && old(history) <= history
      ensures old(Recorded()) != "" ==> Recorded() == old(Recorded()) && creations == old(creations)
    {
      for i := 0 to |plans|
        invariant Valid() && old(history) <= history
        invariant old(Recorded()) != "" ==> Recorded() == old(Recorded()) && creations == old(creations)
      {
        plan := plans[i];
        Reconcile();
      }
    }
  }
}

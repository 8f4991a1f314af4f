/**
 The audit graph: an index of resolved references over a resource inventory, and
 the search for everything connected to the system's own resources.
 */
module AuditGraph {
  import opened Options

  datatype ObjectRef = ObjectRef(apiVersion: string, kind: string, namespace: string, name: string, uid: string)
  datatype Reference = Reference(target: ObjectRef, relation: string)
  datatype Resource = Resource(ref: ObjectRef, references: seq<Reference>)

  const REPO_API := "repositories.rc.ayaka.io/v1alpha1"
  const WORKSPACE_API := "workspaces.rc.ayaka.io/v1alpha1"

  function Key(ref: ObjectRef): string {
    ref.apiVersion + "/" + ref.kind + "/" + ref.namespace + "/" + ref.name
  }

  predicate Matches(ref: ObjectRef, target: ObjectRef) {
    Key(ref) == Key(target) && (ref.uid == "" || ref.uid == target.uid)
  }

  predicate IsRC(r: Resource) {
    r.ref.apiVersion == REPO_API || r.ref.apiVersion == WORKSPACE_API
  }

  // ---- the plain inventory ---------------------------------------------

  /** The resource a key names: the last one listed. */
  function Lookup(resources: seq<Resource>, key: string): Option<Resource> {
    if resources == [] then None
    else
      var last := resources[|resources| - 1];
      if Key(last.ref) == key then Some(last) else Lookup(resources[..|resources| - 1], key)
  }

  predicate Resolves(resources: seq<Resource>, ref: ObjectRef) {
    var found := Lookup(resources, Key(ref));
    found.Some? && Matches(ref, found.value.ref)
  }

  /** How reference ref of resource r appears in the index of its target. */
  function Reversed(r: Resource, ref: Reference): Reference {
    Reference(r.ref, "referenced-by:" + ref.relation)
  }

  predicate Points(resources: seq<Resource>, ref: Reference, target: string) {
    Resolves(resources, ref.target) && Key(ref.target) == target
  }

  /** The first j references of r that point to a key, reversed, in order. */
  function IncomingFrom(resources: seq<Resource>, r: Resource, j: nat, target: string): seq<Reference>
    requires j <= |r.references|
  {
    if j == 0 then []
    else
      IncomingFrom(resources, r, j - 1, target) +
      (if Points(resources, r.references[j - 1], target) then [Reversed(r, r.references[j - 1])] else [])
  }

  /** All resolved references to a key from the first i resources. */
  function Incoming(resources: seq<Resource>, i: nat, target: string): seq<Reference>
    requires i <= |resources|
  {
    if i == 0 then []
    else
      Incoming(resources, i - 1, target) +
      IncomingFrom(resources, resources[i - 1], |resources[i - 1].references|, target)
  }

  /** Reference j of resource i leads from key a to key b. */
  predicate Leads(resources: seq<Resource>, i: nat, j: nat, a: string, b: string)
    requires i < |resources| && j < |resources[i].references|
  {
    Key(resources[i].ref) == a && Points(resources, resources[i].references[j], b)
  }

  /** Some resolved reference leads from a to b. */
  ghost predicate Refers(resources: seq<Resource>, a: string, b: string) {
    exists i, j :: 0 <= i < |resources| && 0 <= j < |resources[i].references| && Leads(resources, i, j, a, b)
  }

  ghost predicate Linked(resources: seq<Resource>, a: string, b: string) {
    Refers(resources, a, b) || Refers(resources, b, a)
  }

  ghost predicate Root(resources: seq<Resource>, key: string) {
    exists i :: 0 <= i < |resources| && IsRC(resources[i]) && Key(resources[i].ref) == key
  }

  /** A walk over references in either direction that starts at one of the system's resources. */
  ghost predicate Walk(resources: seq<Resource>, path: seq<string>) {
    && path != []
    && Root(resources, path[0])
    && forall k :: 0 < k < |path| ==> Linked(resources, path[k - 1], path[k])
  }

  ghost predicate Reachable(resources: seq<Resource>, key: string) {
    exists path :: Walk(resources, path) && path[|path| - 1] == key
  }

  // ---- the index -------------------------------------------------------

  datatype Graph = Graph(
    resources: seq<Resource>,
    byKey: map<string, Resource>,
    incomingRefs: map<string, seq<Reference>>,
    adjacent: map<string, seq<string>>)

  function At<T>(m: map<string, seq<T>>, key: string): seq<T> {
    if key in m then m[key] else []
  }


  ghost predicate Indexed(byKey: map<string, Resource>, resources: seq<Resource>) {
    forall key ::
      && (key in byKey <==> Lookup(resources, key).Some?)
      && (key in byKey ==> byKey[key] == Lookup(resources, key).value)
  }

  method IndexKeys(resources: seq<Resource>) returns (byKey: map<string, Resource>)
    ensures Indexed(byKey, resources)
  {
    byKey := map[];
    for i := 0 to |resources|
      invariant Indexed(byKey, resources[..i])
    {
      var more := resources[..i + 1];
      assert more[..|more| - 1] == resources[..i] && more[i] == resources[i];
      byKey := byKey[Key(resources[i].ref) := resources[i]];
    }
    assert resources[..|resources|] == resources;
  }

  /** The adjacency lists as sets of pairs of keys. */
  ghost predicate Adjoins(adjacent: map<string, seq<string>>, a: string, b: string) {
    b in At(adjacent, a)
  }

  /** References up to reference j of resource i have been indexed. */
  ghost predicate RefersUpTo(resources: seq<Resource>, i: nat, j: nat, a: string, b: string) {
    exists x, y :: 0 <= x < |resources| && 0 <= y < |resources[x].references| && (x < i || (x == i && y < j))
      && Leads(resources, x, y, a, b)
  }

  ghost predicate AdjacentUpTo(adjacent: map<string, seq<string>>, resources: seq<Resource>, i: nat, j: nat) {
    forall a, b :: Adjoins(adjacent, a, b) <==> RefersUpTo(resources, i, j, a, b) || RefersUpTo(resources, i, j, b, a)
  }

  function Append<T>(m: map<string, seq<T>>, key: string, x: T): map<string, seq<T>> {
    m[key := At(m, key) + [x]]
  }

  lemma RefersNext(resources: seq<Resource>, i: nat, j: nat, a: string, b: string)
    requires i < |resources| && j < |resources[i].references|
    ensures RefersUpTo(resources, i, j + 1, a, b) <==> RefersUpTo(resources, i, j, a, b) || Leads(resources, i, j, a, b)
  {
    if RefersUpTo(resources, i, j + 1, a, b) {
      var x, y :| 0 <= x < |resources| && 0 <= y < |resources[x].references| && (x < i || (x == i && y < j + 1))
        && Leads(resources, x, y, a, b);
      assert x < i || (x == i && y < j) || (x == i && y == j);
    }
    if RefersUpTo(resources, i, j, a, b) {
      var x, y :| 0 <= x < |resources| && 0 <= y < |resources[x].references| && (x < i || (x == i && y < j))
        && Leads(resources, x, y, a, b);
      assert x < i || (x == i && y < j + 1);
    }
  }

  lemma AdjacentNext(
      adjacent: map<string, seq<string>>, resources: seq<Resource>, i: nat, j: nat, after: map<string, seq<string>>)
    requires i < |resources| && j < |resources[i].references|
    requires AdjacentUpTo(adjacent, resources, i, j)
    requires
      var source, target := Key(resources[i].ref), Key(resources[i].references[j].target);
      after == if Resolves(resources, resources[i].references[j].target)
               then Append(Append(adjacent, source, target), target, source)
               else adjacent
    ensures AdjacentUpTo(after, resources, i, j + 1)
  {
    forall a, b
      ensures Adjoins(after, a, b) <==> RefersUpTo(resources, i, j + 1, a, b) || RefersUpTo(resources, i, j + 1, b, a)
    {
      RefersNext(resources, i, j, a, b);
      RefersNext(resources, i, j, b, a);
      assert Adjoins(adjacent, a, b) <==> RefersUpTo(resources, i, j, a, b) || RefersUpTo(resources, i, j, b, a);
    }
  }

  ghost predicate IncomingUpTo(incoming: map<string, seq<Reference>>, resources: seq<Resource>, i: nat, j: nat)
    requires i < |resources| && j <= |resources[i].references|
  {
    forall t :: At(incoming, t) == Incoming(resources, i, t) + IncomingFrom(resources, resources[i], j, t)
  }

  /** The graph agrees with the plain inventory. */
  ghost predicate Faithful(g: Graph) {
    && Indexed(g.byKey, g.resources)
    && (forall t :: At(g.incomingRefs, t) == Incoming(g.resources, |g.resources|, t))
    && (forall a, b :: Adjoins(g.adjacent, a, b) <==> Linked(g.resources, a, b))
  }

  /** newGraph: one pass for the keys and one over all references. */
  method NewGraph(resources: seq<Resource>) returns (g: Graph)
    ensures g.resources == resources && Faithful(g)
  {
    var byKey := IndexKeys(resources);
    var incoming: map<string, seq<Reference>> := map[];
    var adjacent: map<string, seq<string>> := map[];
    for i := 0 to |resources|
      invariant forall t :: At(incoming, t) == Incoming(resources, i, t)
      invariant AdjacentUpTo(adjacent, resources, i, 0)
    {
      incoming, adjacent := IndexReferences(resources, byKey, i, incoming, adjacent);
      NextResource(adjacent, resources, i);
    }
    LinkedIsAll(adjacent, resources);
    g := Graph(resources, byKey, incoming, adjacent);
  }

  /** The inner loop over the references of one resource. */
  method IndexReferences(resources: seq<Resource>, byKey: map<string, Resource>, i: nat,
                         incoming0: map<string, seq<Reference>>, adjacent0: map<string, seq<string>>)
    returns (incoming: map<string, seq<Reference>>, adjacent: map<string, seq<string>>)
    requires i < |resources| && Indexed(byKey, resources)
    requires forall t :: At(incoming0, t) == Incoming(resources, i, t)
    requires AdjacentUpTo(adjacent0, resources, i, 0)
    ensures forall t :: At(incoming, t) == Incoming(resources, i + 1, t)
    ensures AdjacentUpTo(adjacent, resources, i, |resources[i].references|)
  {
    var r := resources[i];
    incoming, adjacent := incoming0, adjacent0;
    IncomingAtEnds(incoming, resources, i);
    for j := 0 to |r.references|
      invariant IncomingUpTo(incoming, resources, i, j)
      invariant AdjacentUpTo(adjacent, resources, i, j)
    {
      var newIncoming, newAdjacent := IndexReference(byKey, r, r.references[j], resources, incoming, adjacent);
      IncomingNext(incoming, resources, i, j, newIncoming);
      AdjacentNext(adjacent, resources, i, j, newAdjacent);
      incoming, adjacent := newIncoming, newAdjacent;
    }
    IncomingAtEnds(incoming, resources, i);
  }

  lemma IncomingNext(
      incoming: map<string, seq<Reference>>, resources: seq<Resource>, i: nat, j: nat,
      after: map<string, seq<Reference>>)
    requires i < |resources| && j < |resources[i].references|
    requires IncomingUpTo(incoming, resources, i, j)
    requires
      var ref := resources[i].references[j];
      after == if Resolves(resources, ref.target) then Append(incoming, Key(ref.target), Reversed(resources[i], ref))
        else incoming
    ensures IncomingUpTo(after, resources, i, j + 1)
  {
    forall t ensures At(after, t) == Incoming(resources, i, t) + IncomingFrom(resources, resources[i], j + 1, t) {
      var ref := resources[i].references[j];
      assert At(incoming, t) == Incoming(resources, i, t) + IncomingFrom(resources, resources[i], j, t);
      AtAfter(incoming, Resolves(resources, ref.target), Key(ref.target), Reversed(resources[i], ref), t);
      IncomingNextAt(At(incoming, t), At(after, t), resources, i, j, t);
    }
  }

  lemma AtAfter(m: map<string, seq<Reference>>, resolved: bool, key: string, x: Reference, t: string)
    ensures At(if resolved then Append(m, key, x) else m, t) == At(m, t) + if resolved && key == t then [x] else []
  {
  }

  lemma IncomingNextAt(
      before: seq<Reference>, after: seq<Reference>, resources: seq<Resource>, i: nat, j: nat, t: string)
    requires i < |resources| && j < |resources[i].references|
    requires before == Incoming(resources, i, t) + IncomingFrom(resources, resources[i], j, t)
    requires
      var ref := resources[i].references[j];
      after == before + if Points(resources, ref, t) then [Reversed(resources[i], ref)] else []
    ensures after == Incoming(resources, i, t) + IncomingFrom(resources, resources[i], j + 1, t)
  {
    var a, b := Incoming(resources, i, t), IncomingFrom(resources, resources[i], j, t);
    var ref := resources[i].references[j];
    var c := if Points(resources, ref, t) then [Reversed(resources[i], ref)] else [];
    assert IncomingFrom(resources, resources[i], j + 1, t) == b + c;
    assert (a + b) + c == a + (b + c);
  }

  lemma IncomingAtEnds(incoming: map<string, seq<Reference>>, resources: seq<Resource>, i: nat)
    requires i < |resources|
    ensures (forall t :: At(incoming, t) == Incoming(resources, i, t)) <==> IncomingUpTo(incoming, resources, i, 0)
    ensures (forall t :: At(incoming, t) == Incoming(resources, i + 1, t)) <==>
      IncomingUpTo(incoming, resources, i, |resources[i].references|)
  {
    assert forall t ::
      Incoming(resources, i, t) + IncomingFrom(resources, resources[i], 0, t) == Incoming(resources, i, t);
  }

  /** One reference is entered under its target and, both ways, in the adjacency lists. */
  method IndexReference(byKey: map<string, Resource>, r: Resource, ref: Reference, resources: seq<Resource>,
                        incoming: map<string, seq<Reference>>, adjacent: map<string, seq<string>>)
    returns (newIncoming: map<string, seq<Reference>>, newAdjacent: map<string, seq<string>>)
    requires Indexed(byKey, resources)
    ensures newIncoming ==
      if Resolves(resources, ref.target) then Append(incoming, Key(ref.target), Reversed(r, ref)) else incoming
    ensures newAdjacent ==
      if Resolves(resources, ref.target)
      then Append(Append(adjacent, Key(r.ref), Key(ref.target)), Key(ref.target), Key(r.ref))
      else adjacent
  {
    newIncoming, newAdjacent := incoming, adjacent;
    var source, target := Key(r.ref), Key(ref.target);
    assert Lookup(resources, target).Some? <==> target in byKey;
    if target in byKey && Matches(ref.target, byKey[target].ref) {
      newIncoming := Append(newIncoming, target, Reversed(r, ref));
      newAdjacent := Append(newAdjacent, source, target);
      newAdjacent := Append(newAdjacent, target, source);
    }
  }

  lemma NextResource(adjacent: map<string, seq<string>>, resources: seq<Resource>, i: nat)
    requires i < |resources| && AdjacentUpTo(adjacent, resources, i, |resources[i].references|)
    ensures AdjacentUpTo(adjacent, resources, i + 1, 0)
  {
    forall a, b ensures RefersUpTo(resources, i, |resources[i].references|, a, b) <==>
      RefersUpTo(resources, i + 1, 0, a, b) {
      SameRange(resources, i, a, b);
    }
    forall a, b ensures Adjoins(adjacent, a, b) <==>
      RefersUpTo(resources, i + 1, 0, a, b) || RefersUpTo(resources, i + 1, 0, b, a) {
      assert Adjoins(adjacent, a, b) <==>
        RefersUpTo(resources, i, |resources[i].references|, a, b)
          || RefersUpTo(resources, i, |resources[i].references|, b, a);
    }
  }

  lemma SameRange(resources: seq<Resource>, i: nat, a: string, b: string)
    requires i < |resources|
    ensures RefersUpTo(resources, i, |resources[i].references|, a, b) <==> RefersUpTo(resources, i + 1, 0, a, b)
  {
    var n := |resources[i].references|;
    if RefersUpTo(resources, i, n, a, b) {
      var x, y :| 0 <= x < |resources| && 0 <= y < |resources[x].references| && (x < i || (x == i && y < n))
        && Leads(resources, x, y, a, b);
      assert x < i + 1;
    }
    if RefersUpTo(resources, i + 1, 0, a, b) {
      var x, y :| 0 <= x < |resources| && 0 <= y < |resources[x].references| && (x < i + 1 || (x == i + 1 && y < 0))
        && Leads(resources, x, y, a, b);
      assert x < i || (x == i && y < n);
    }
  }

  lemma LinkedIsAll(adjacent: map<string, seq<string>>, resources: seq<Resource>)
    requires AdjacentUpTo(adjacent, resources, |resources|, 0)
    ensures forall a, b :: Adjoins(adjacent, a, b) <==> Linked(resources, a, b)
  {
    forall a, b ensures RefersUpTo(resources, |resources|, 0, a, b) <==> Refers(resources, a, b) {
      if Refers(resources, a, b) {
        var i, j :| 0 <= i < |resources| && 0 <= j < |resources[i].references| && Leads(resources, i, j, a, b);
        assert i < |resources|;
      }
    }
    forall a, b ensures Adjoins(adjacent, a, b) <==> Linked(resources, a, b) {
      assert Adjoins(adjacent, a, b) <==>
        RefersUpTo(resources, |resources|, 0, a, b) || RefersUpTo(resources, |resources|, 0, b, a);
    }
  }

  // ---- what the index lists --------------------------------------------

  /** Resource i has a resolved reference to the key that reads x when reversed. */
  ghost predicate Lists(resources: seq<Resource>, i: nat, j: nat, target: string, x: Reference)
    requires i < |resources| && j < |resources[i].references|
  {
    Points(resources, resources[i].references[j], target) && x == Reversed(resources[i], resources[i].references[j])
  }

  lemma {:induction false} IncomingFromExact(resources: seq<Resource>, i: nat, j: nat, target: string, x: Reference)
    requires i < |resources| && j <= |resources[i].references|
    ensures x in IncomingFrom(resources, resources[i], j, target) <==>
      exists y :: 0 <= y < j && Lists(resources, i, y, target, x)
  {
    if j > 0 {
      IncomingFromExact(resources, i, j - 1, target, x);
      assert Lists(resources, i, j - 1, target, x) <==>
        Points(resources, resources[i].references[j - 1], target)
          && x == Reversed(resources[i], resources[i].references[j - 1]);
    }
  }

  /** The incoming index of a key is exactly the resolved references to it. */
  lemma {:induction false} IncomingExact(resources: seq<Resource>, n: nat, target: string, x: Reference)
    requires n <= |resources|
    ensures x in Incoming(resources, n, target) <==>
      exists i, j :: 0 <= i < n && 0 <= j < |resources[i].references| && Lists(resources, i, j, target, x)
  {
    if n > 0 {
      IncomingExact(resources, n - 1, target, x);
      IncomingFromExact(resources, n - 1, |resources[n - 1].references|, target, x);
    }
  }

  /** With unique keys, a reference points to a resource's key exactly if it matches the resource. */
  lemma PointsExact(resources: seq<Resource>, r: Resource, ref: Reference)
    requires r in resources
    requires forall i, j :: 0 <= i < j < |resources| ==> Key(resources[i].ref) != Key(resources[j].ref)
    ensures Points(resources, ref, Key(r.ref)) <==> Matches(ref.target, r.ref)
  {
    var i :| 0 <= i < |resources| && resources[i] == r;
    LookupUnique(resources, i);
  }

  lemma {:induction false} LookupUnique(resources: seq<Resource>, i: nat)
    requires i < |resources|
    requires forall k, l :: 0 <= k < l < |resources| ==> Key(resources[k].ref) != Key(resources[l].ref)
    ensures Lookup(resources, Key(resources[i].ref)) == Some(resources[i])
  {
    if i < |resources| - 1 {
      LookupUnique(resources[..|resources| - 1], i);
    }
  }

  // ---- the search ------------------------------------------------------

  function Keys(resources: seq<Resource>): set<string> {
    set i | 0 <= i < |resources| :: Key(resources[i].ref)
  }

  lemma {:induction false} LookupIsListed(resources: seq<Resource>, key: string)
    requires Lookup(resources, key).Some?
    ensures key in Keys(resources)
  {
    var init := resources[..|resources| - 1];
    if Key(resources[|resources| - 1].ref) != key {
      LookupIsListed(init, key);
      var i :| 0 <= i < |init| && Key(init[i].ref) == key;
      assert Key(resources[i].ref) == key;
    }
  }

  lemma LinkedIsListed(resources: seq<Resource>, a: string, b: string)
    requires Linked(resources, a, b)
    ensures b in Keys(resources)
  {
    if Refers(resources, a, b) {
      LookupIsListed(resources, b);
    }
  }

  lemma ReachesOn(resources: seq<Resource>, a: string, b: string)
    requires Reachable(resources, a) && Linked(resources, a, b)
    ensures Reachable(resources, b)
  {
    var path :| Walk(resources, path) && path[|path| - 1] == a;
    WalksOn(resources, path, b);
    var longer := path + [b];
    assert Walk(resources, longer) && longer[|longer| - 1] == b;
  }

  lemma WalksOn(resources: seq<Resource>, path: seq<string>, b: string)
    requires Walk(resources, path) && Linked(resources, path[|path| - 1], b)
    ensures Walk(resources, path + [b])
  {
    var longer := path + [b];
    forall k | 0 < k < |longer| ensures Linked(resources, longer[k - 1], longer[k]) {
      assert k < |path| ==> longer[k - 1] == path[k - 1] && longer[k] == path[k];
    }
  }

  lemma RootIsReachable(resources: seq<Resource>, key: string)
    requires Root(resources, key)
    ensures Reachable(resources, key)
  {
    assert Walk(resources, [key]) && [key][|[key]| - 1] == key;
  }

  /** A set that holds the roots and is closed under links holds all that is reachable. */
  lemma ClosedHoldsReachable(resources: seq<Resource>, closed: set<string>, key: string)
    requires forall k :: Root(resources, k) ==> k in closed
    requires forall a, b :: a in closed && Linked(resources, a, b) ==> b in closed
    requires Reachable(resources, key)
    ensures key in closed
  {
    var path :| Walk(resources, path) && path[|path| - 1] == key;
    WalkStaysInside(resources, closed, path, |path| - 1);
  }

  lemma {:induction false} WalkStaysInside(resources: seq<Resource>, closed: set<string>, path: seq<string>, k: nat)
    requires forall key :: Root(resources, key) ==> key in closed
    requires forall a, b :: a in closed && Linked(resources, a, b) ==> b in closed
    requires Walk(resources, path) && k < |path|
    ensures path[k] in closed
  {
    if k > 0 {
      WalkStaysInside(resources, closed, path, k - 1);
      assert Linked(resources, path[k - 1], path[k]);
    }
  }

  /** The listed keys that a walk reaches. */
  ghost function Connected(resources: seq<Resource>): set<string> {
    set key | key in Keys(resources) && Reachable(resources, key)
  }

  lemma RootIsConnected(resources: seq<Resource>, i: nat)
    requires i < |resources| && IsRC(resources[i])
    ensures Key(resources[i].ref) in Connected(resources)
  {
    RootIsReachable(resources, Key(resources[i].ref));
  }

  lemma NeighbourIsConnected(resources: seq<Resource>, a: string, b: string)
    requires a in Connected(resources) && Linked(resources, a, b)
    ensures b in Connected(resources)
  {
    LinkedIsListed(resources, a, b);
    ReachesOn(resources, a, b);
  }

  /** The queue holds exactly what was found, and all of it is connected. */
  predicate Sound(connected: set<string>, result: set<string>, queue: seq<string>) {
    && (forall k :: 0 <= k < |queue| ==> queue[k] in result)
    && (forall key :: key in result ==> key in queue)
    && result <= connected
  }

  lemma SoundMore(connected: set<string>, result: set<string>, queue: seq<string>, key: string)
    requires Sound(connected, result, queue) && key in connected
    ensures Sound(connected, result + {key}, queue + [key])
  {
    var longer := queue + [key];
    assert longer[|queue|] == key;
    forall x | x in result + {key} ensures x in longer {
      if x != key {
        var k :| 0 <= k < |queue| && queue[k] == x;
        assert longer[k] == x;
      }
    }
  }

  /** The roots in inventory order; a key listed twice is queued twice. */
  method Roots(resources: seq<Resource>) returns (result: set<string>, queue: seq<string>)
    ensures Sound(Connected(resources), result, queue)
    ensures forall i :: 0 <= i < |resources| && IsRC(resources[i]) ==> Key(resources[i].ref) in result
  {
    ghost var connected := Connected(resources);
    assert forall i :: 0 <= i < |resources| && IsRC(resources[i]) ==> Key(resources[i].ref) in connected by {
      forall i | 0 <= i < |resources| && IsRC(resources[i]) ensures Key(resources[i].ref) in connected {
        RootIsConnected(resources, i);
      }
    }
    result, queue := QueueRoots(resources, connected);
  }

  method QueueRoots(
      resources: seq<Resource>, ghost connected: set<string>)
    returns (result: set<string>, queue: seq<string>)
    requires forall i :: 0 <= i < |resources| && IsRC(resources[i]) ==> Key(resources[i].ref) in connected
    ensures Sound(connected, result, queue)
    ensures forall i :: 0 <= i < |resources| && IsRC(resources[i]) ==> Key(resources[i].ref) in result
  {
    result, queue := {}, [];
    for i := 0 to |resources|
      invariant Sound(connected, result, queue)
      invariant forall k :: 0 <= k < i && IsRC(resources[k]) ==> Key(resources[k].ref) in result
    {
      if IsRC(resources[i]) {
        SoundMore(connected, result, queue, Key(resources[i].ref));
        result, queue := result + {Key(resources[i].ref)}, queue + [Key(resources[i].ref)];
      }
    }
  }

  predicate Covers(result: set<string>, list: seq<string>) {
    forall k :: 0 <= k < |list| ==> list[k] in result
  }

  /** The inner loop: the neighbours not seen before join the queue. */
  method Expand(neighbours: seq<string>, ghost connected: set<string>, result0: set<string>, queue0: seq<string>)
    returns (result: set<string>, queue: seq<string>)
    requires Sound(connected, result0, queue0) && Covers(connected, neighbours)
    ensures Sound(connected, result, queue) && Covers(result, neighbours)
    ensures result0 <= result && queue0 <= queue
    ensures result == result0 ==> queue == queue0
  {
    result, queue := result0, queue0;
    for j := 0 to |neighbours|
      invariant Sound(connected, result, queue)
      invariant result0 <= result && queue0 <= queue
      invariant result == result0 ==> queue == queue0
      invariant forall k :: 0 <= k < j ==> neighbours[k] in result
    {
      if neighbours[j] !in result {
        SoundMore(connected, result, queue, neighbours[j]);
        result, queue := result + {neighbours[j]}, queue + [neighbours[j]];
      }
    }
  }

  /** The search loop ends, and closes the result under adjacency inside any set that is closed itself. */
  method Search(
      adjacent: map<string, seq<string>>, ghost connected: set<string>, result0: set<string>, queue0: seq<string>)
    returns (result: set<string>)
    requires Sound(connected, result0, queue0)
    requires forall key {:trigger At(adjacent, key)} :: key in connected ==> Covers(connected, At(adjacent, key))
    ensures result0 <= result <= connected
    ensures forall key {:trigger At(adjacent, key)} :: key in result ==> Covers(result, At(adjacent, key))
  {
    var queue := queue0;
    result := result0;
    var i := 0;
    while i < |queue|
      invariant i <= |queue| && result0 <= result
      invariant Sound(connected, result, queue)
      invariant forall k :: 0 <= k < i ==> Covers(result, At(adjacent, queue[k]))
      decreases |connected - result|, |queue| - i
    {
      var bigger, longer := Expand(At(adjacent, queue[i]), connected, result, queue);
      Shrinks(connected, result, bigger);
      result, queue, i := bigger, longer, i + 1;
    }
    forall key | key in result ensures Covers(result, At(adjacent, key)) {
      var k :| 0 <= k < |queue| && queue[k] == key;
    }
  }

  lemma Shrinks(all: set<string>, result: set<string>, bigger: set<string>)
    requires result <= bigger <= all
    ensures result == bigger || |all - bigger| < |all - result|
  {
    if result != bigger {
      var x :| x in bigger && x !in result;
      assert all - result == (all - bigger) + (bigger - result);
      assert x in bigger - result;
    }
  }

  lemma ConnectedIsClosed(g: Graph, key: string)
    requires Faithful(g) && key in Connected(g.resources)
    ensures Covers(Connected(g.resources), At(g.adjacent, key))
  {
    var list := At(g.adjacent, key);
    forall k | 0 <= k < |list| ensures list[k] in Connected(g.resources) {
      assert Adjoins(g.adjacent, key, list[k]);
      NeighbourIsConnected(g.resources, key, list[k]);
    }
  }

  lemma ClosedIsAll(g: Graph, result: set<string>, key: string)
    requires Faithful(g) && Reachable(g.resources, key)
    requires forall i :: 0 <= i < |g.resources| && IsRC(g.resources[i]) ==> Key(g.resources[i].ref) in result
    requires forall k {:trigger At(g.adjacent, k)} :: k in result ==> Covers(result, At(g.adjacent, k))
    ensures key in result
  {
    forall a, b | a in result && Linked(g.resources, a, b) ensures b in result {
      assert Adjoins(g.adjacent, a, b);
      assert Covers(result, At(g.adjacent, a));
    }
    ClosedHoldsReachable(g.resources, result, key);
  }

  /**
   managed: the search ends, and finds exactly the keys that references in either
   direction connect to the system's own resources.
   */
  method Managed(g: Graph) returns (result: set<string>)
    requires Faithful(g)
    ensures forall key :: key in result <==> Reachable(g.resources, key)
  {
    var queue;
    result, queue := Roots(g.resources);
    forall key | key in Connected(g.resources) ensures Covers(Connected(g.resources), At(g.adjacent, key)) {
      ConnectedIsClosed(g, key);
    }
    result := Search(g.adjacent, Connected(g.resources), result, queue);
    forall key | Reachable(g.resources, key) ensures key in result {
      ClosedIsAll(g, result, key);
    }
  }
}

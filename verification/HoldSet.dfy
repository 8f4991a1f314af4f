/**
 The hold set: a list of holders and an irreversible fence, kept in one
 annotation of one object. The list operations are specified here by what they
 do to the finite map from holder keys to holders (View).
 */
module HoldSet {
  import opened Options
  import opened KeyOrder

  type Mode = string

  const READ: Mode := "read"
  const WRITE: Mode := "write"
  const MOUNT: Mode := "mount"
  const CLONE: Mode := "clone"

  /** One resource incarnation; since is 0 for the zero time. */
  datatype Holder = Holder(kind: string, name: string, uid: string, mode: Mode, since: nat) {
    function Key(): string {
      kind + "/" + uid
    }
  }

  datatype State = State(closed: bool, holders: seq<Holder>)

  const EMPTY := State(false, [])

  // ---- list operations -------------------------------------------------

  function KeySet(hs: seq<Holder>): set<string> {
    set h | h in hs :: h.Key()
  }

  /** The first holder with key. */
  function Find(hs: seq<Holder>, key: string): (r: Option<Holder>)
    ensures r.Some? ==> r.value in hs && r.value.Key() == key
    ensures r.Some? <==> key in KeySet(hs)
  {
    if hs == [] then None
    else if hs[0].Key() == key then Some(hs[0])
    else
      assert forall h :: h in hs <==> h == hs[0] || h in hs[1..];
      Find(hs[1..], key)
  }

  /** Every holder except those with key, in order. */
  function Without(hs: seq<Holder>, key: string): (r: seq<Holder>)
    ensures forall h :: h in r <==> h in hs && h.Key() != key
    ensures |r| <= |hs|
    ensures |r| == |hs| <==> key !in KeySet(hs)
  {
    if hs == [] then []
    else
      assert forall h :: h in hs <==> h == hs[0] || h in hs[1..];
      assert hs[0] in hs;
      if hs[0].Key() == key then Without(hs[1..], key) else [hs[0]] + Without(hs[1..], key)
  }

  predicate DistinctKeys(hs: seq<Holder>) {
    forall i, j :: 0 <= i < j < |hs| ==> hs[i].Key() != hs[j].Key()
  }

  predicate SortedByKey(hs: seq<Holder>) {
    forall i, j :: 0 <= i < j < |hs| ==> Less(hs[i].Key(), hs[j].Key())
  }

  function Insert(hs: seq<Holder>, h: Holder): (r: seq<Holder>)
    ensures multiset(r) == multiset(hs) + multiset{h}
  {
    if hs == [] then [h]
    else
      assert hs == [hs[0]] + hs[1..];
      if Less(hs[0].Key(), h.Key()) then [hs[0]] + Insert(hs[1..], h) else [h] + hs
  }

  /** The list in key order. */
  function Sort(hs: seq<Holder>): (r: seq<Holder>)
    ensures multiset(r) == multiset(hs)
  {
    if hs == [] then [] else
    assert hs == [hs[0]] + hs[1..];
    Insert(Sort(hs[1..]), hs[0])
  }

  /** The holder that Put records: the first recorded start time is kept. */
  function Stamp(hs: seq<Holder>, h: Holder, now: nat): Holder {
    var existing := Find(hs, h.Key());
    var since := if existing.Some? && existing.value.since != 0 then existing.value.since else h.since;
    h.(since := if since == 0 then now else since)
  }

  function Put(hs: seq<Holder>, h: Holder, now: nat): seq<Holder> {
    Sort(Without(hs, h.Key()) + [Stamp(hs, h, now)])
  }

  // ---- the map view ----------------------------------------------------

  /** What a holder list means: a finite map from keys to holders. */
  function View(hs: seq<Holder>): (m: map<string, Holder>)
    ensures m.Keys == KeySet(hs)
  {
    map key | key in KeySet(hs) :: Find(hs, key).value
  }

  lemma {:induction false} FindUnique(hs: seq<Holder>, h: Holder)
    requires DistinctKeys(hs) && h in hs
    ensures Find(hs, h.Key()) == Some(h)
  {
    var r := Find(hs, h.Key()).value;
    var i :| 0 <= i < |hs| && hs[i] == h;
    var j :| 0 <= j < |hs| && hs[j] == r;
    assert i == j;
  }

  lemma {:induction false} WithoutKeepsDistinct(hs: seq<Holder>, key: string)
    requires DistinctKeys(hs)
    ensures DistinctKeys(Without(hs, key))
  {
    if hs != [] {
      var rest := Without(hs[1..], key);
      WithoutKeepsDistinct(hs[1..], key);
      forall h | h in rest
        ensures hs[0].Key() != h.Key()
      {
        var i :| 0 <= i < |hs[1..]| && hs[1..][i] == h;
        assert hs[i + 1] == h;
      }
      assert Without(hs, key) == rest || Without(hs, key) == [hs[0]] + rest;
    }
  }

  lemma {:induction false} WithoutKeepsSorted(hs: seq<Holder>, key: string)
    requires SortedByKey(hs)
    ensures SortedByKey(Without(hs, key))
  {
    if hs != [] {
      var rest := Without(hs[1..], key);
      WithoutKeepsSorted(hs[1..], key);
      forall h | h in rest
        ensures Less(hs[0].Key(), h.Key())
      {
        var i :| 0 <= i < |hs[1..]| && hs[1..][i] == h;
        assert hs[i + 1] == h;
      }
      assert Without(hs, key) == rest || Without(hs, key) == [hs[0]] + rest;
    }
  }

  lemma {:induction false} WithoutFind(hs: seq<Holder>, key: string, other: string)
    ensures Find(Without(hs, key), other) == if other == key then None else Find(hs, other)
  {
    if hs != [] {
      WithoutFind(hs[1..], key, other);
      if hs[0].Key() != key {
        assert Without(hs, key)[1..] == Without(hs[1..], key);
      }
    }
  }

  /** Removing a key from the list removes it from the map, and nothing else. */
  lemma WithoutView(hs: seq<Holder>, key: string)
    ensures View(Without(hs, key)) == View(hs) - {key}
  {
    forall k | k in View(hs) - {key}
      ensures k in View(Without(hs, key)) && View(Without(hs, key))[k] == View(hs)[k]
    {
      WithoutFind(hs, key, k);
    }
    assert View(Without(hs, key)).Keys == (View(hs) - {key}).Keys;
  }

  lemma {:induction false} InsertSorted(hs: seq<Holder>, h: Holder)
    requires SortedByKey(hs) && h.Key() !in KeySet(hs)
    ensures SortedByKey(Insert(hs, h))
  {
    if hs != [] {
      Trichotomy(hs[0].Key(), h.Key());
      assert hs[0] in hs;
      if Less(hs[0].Key(), h.Key()) {
        var rest := Insert(hs[1..], h);
        assert KeySet(hs[1..]) <= KeySet(hs);
        InsertSorted(hs[1..], h);
        forall x | x in rest
          ensures Less(hs[0].Key(), x.Key())
        {
          assert x in multiset(rest);
          assert x in hs[1..] || x == h;
        }
      } else {
        forall i | 0 <= i < |hs|
          ensures Less(h.Key(), hs[i].Key())
        {
          if i > 0 {
            Transitive(h.Key(), hs[0].Key(), hs[i].Key());
          }
        }
      }
    }
  }

  lemma {:induction false} SortSorted(hs: seq<Holder>)
    requires DistinctKeys(hs)
    ensures SortedByKey(Sort(hs))
  {
    if hs != [] {
      SortSorted(hs[1..]);
      var rest := Sort(hs[1..]);
      forall x | x in rest
        ensures x.Key() != hs[0].Key()
      {
        assert x in multiset(rest);
        var i :| 0 <= i < |hs[1..]| && hs[1..][i] == x;
        assert hs[i + 1] == x;
      }
      InsertSorted(rest, hs[0]);
    }
  }

  lemma SortedIsDistinct(hs: seq<Holder>)
    requires SortedByKey(hs)
    ensures DistinctKeys(hs)
  {
    forall i, j | 0 <= i < j < |hs|
      ensures hs[i].Key() != hs[j].Key()
    {
      Trichotomy(hs[i].Key(), hs[j].Key());
    }
  }

  lemma {:induction false} DistinctSnoc(hs: seq<Holder>, h: Holder)
    requires DistinctKeys(hs) && h.Key() !in KeySet(hs)
    ensures DistinctKeys(hs + [h])
  {
    forall i, j | 0 <= i < j < |hs + [h]|
      ensures (hs + [h])[i].Key() != (hs + [h])[j].Key()
    {
      assert i < |hs| && hs[i] in hs;
    }
  }

  /**
   Put leaves a strictly sorted list whose only change, as a map, is the put
   key; the holder's first start time survives the replacement.
   */
  lemma PutView(hs: seq<Holder>, h: Holder, now: nat)
    requires DistinctKeys(hs)
    ensures SortedByKey(Put(hs, h, now)) && DistinctKeys(Put(hs, h, now))
    ensures View(Put(hs, h, now)) == View(hs)[h.Key() := Stamp(hs, h, now)]
  {
    var stamped := Stamp(hs, h, now);
    var rest := Without(hs, h.Key());
    var all := rest + [stamped];
    WithoutKeepsDistinct(hs, h.Key());
    DistinctSnoc(rest, stamped);
    SortSorted(all);
    var r := Put(hs, h, now);
    SortedIsDistinct(r);
    forall x ensures x in r <==> (x in hs && x.Key() != h.Key()) || x == stamped {
      assert x in r <==> x in multiset(all);
    }
    ViewFromMembers(r, View(hs)[h.Key() := stamped], hs, stamped);
  }

  lemma ViewFromMembers(r: seq<Holder>, m: map<string, Holder>, hs: seq<Holder>, stamped: Holder)
    requires DistinctKeys(hs) && DistinctKeys(r)
    requires forall x :: x in r <==> (x in hs && x.Key() != stamped.Key()) || x == stamped
    requires m == View(hs)[stamped.Key() := stamped]
    ensures View(r) == m
  {
    forall k | k in m
      ensures k in View(r) && View(r)[k] == m[k]
    {
      var x := m[k];
      assert x in r && x.Key() == k;
      FindUnique(r, x);
    }
    forall k | k in View(r)
      ensures k in m
    {
      var x := View(r)[k];
      assert x in r && x.Key() == k;
    }
    assert View(r).Keys == m.Keys;
  }

  /** A strictly sorted list is determined by its map. */
  lemma {:induction false} SortedListsWithEqualViewsAreEqual(a: seq<Holder>, b: seq<Holder>)
    requires SortedByKey(a) && SortedByKey(b) && View(a) == View(b)
    ensures a == b
  {
    SortedIsDistinct(a);
    SortedIsDistinct(b);
    SameMembers(a, b);
    SameMembers(b, a);
    SortedSameMembers(a, b);
  }

  lemma SameMembers(a: seq<Holder>, b: seq<Holder>)
    requires DistinctKeys(a) && DistinctKeys(b) && View(a) == View(b)
    ensures forall h :: h in a ==> h in b
  {
    forall h | h in a
      ensures h in b
    {
      FindUnique(a, h);
      assert View(a)[h.Key()] == h;
      assert View(b)[h.Key()] == h;
    }
  }

  lemma {:induction false} SortedSameMembers(a: seq<Holder>, b: seq<Holder>)
    requires SortedByKey(a) && SortedByKey(b)
    requires forall h :: h in a <==> h in b
    ensures a == b
  {
    if a == [] {
      if |b| > 0 {
        HeadIsMember(b);
        assert false;
      }
    } else {
      assert a[0] in a;
      assert b != [] && b[0] in b;
      HeadIsLeast(a, b[0]);
      HeadIsLeast(b, a[0]);
      Trichotomy(a[0].Key(), b[0].Key());
      TailMembers(a, b);
      TailMembers(b, a);
      SortedSameMembers(a[1..], b[1..]);
      assert a == [a[0]] + a[1..] && b == [b[0]] + b[1..];
    }
  }

  lemma HeadIsMember(a: seq<Holder>)
    requires |a| > 0
    ensures a[0] in a
  {
  }

  lemma HeadIsLeast(a: seq<Holder>, h: Holder)
    requires SortedByKey(a) && h in a
    ensures h == a[0] || Less(a[0].Key(), h.Key())
  {
    var i :| 0 <= i < |a| && a[i] == h;
  }

  lemma TailMembers(a: seq<Holder>, b: seq<Holder>)
    requires a != [] && b != [] && a[0] == b[0] && SortedByKey(a) && SortedByKey(b)
    requires forall h :: h in a ==> h in b
    ensures forall h :: h in a[1..] ==> h in b[1..]
  {
    forall h | h in a[1..]
      ensures h in b[1..]
    {
      var i :| 0 <= i < |a[1..]| && a[1..][i] == h;
      assert a[i + 1] == h && h in a;
      Trichotomy(a[0].Key(), h.Key());
      var j :| 0 <= j < |b| && b[j] == h;
      assert j != 0;
      assert b[1..][j - 1] == h;
    }
  }
}

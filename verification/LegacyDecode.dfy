/**
 Hold sets in the encodings of older controllers: maps from tokens to true, read
 in whatever order a map is iterated. The decoded list is the same for every
 order exactly if tokens of one holder agree on its name.
 */
module LegacyDecode {
  import opened Options
  import opened HoldSet
  import opened Admission

  /** The Repository access Lease, with one mode for all, or a Worktree's mount holders. */
  datatype Encoding = RepositoryTokens(mode: Mode) | MountTokens

  type Tokens = map<string, bool>

  // ---- tokens ----------------------------------------------------------

  /** strings.Cut at the first slash. */
  function Before(s: string): (t: string)
    ensures '/' !in t
  {
    if s == "" || s[0] == '/' then "" else [s[0]] + Before(s[1..])
  }

  function After(s: string): string {
    if s == "" then "" else if s[0] == '/' then s[1..] else After(s[1..])
  }

  function RoleKind(role: string): (kind: string)
    ensures '/' !in role ==> '/' !in kind
  {
    if role == "workspace" then "Workspace"
    else if role == "clone" then "Worktree"
    else if role == "sync" then "RepositorySync"
    else if role == "repository-exec" then "RepositoryExec"
    else if role == "bootstrap" then "Repository"
    else role
  }

  /** role/uid/name, or uid/name; a token that is not held or has no UID counts for nothing. */
  function Decoded(e: Encoding, tokens: Tokens, token: string, created: nat): Option<Holder> {
    var rest := if e.MountTokens? then token else After(token);
    var kind := if e.MountTokens? then "Workspace" else RoleKind(Before(token));
    var mode := if e.MountTokens? then READ else e.mode;
    if token !in tokens || !tokens[token] || Before(rest) == "" then None
    else Some(Holder(kind, After(rest), Before(rest), mode, created))
  }

  lemma {:induction false} SlashSplits(a: string, b: string, x: string, y: string)
    requires '/' !in a && '/' !in x && a + "/" + b == x + "/" + y
    ensures a == x && b == y
  {
    var s, t := a + "/" + b, x + "/" + y;
    assert s[0] == t[0] && s[1..] == t[1..];
    if a == "" || x == "" {
      assert a == "" && x == "";
      assert b == s[1..] && y == t[1..];
    } else {
      assert s[1..] == a[1..] + "/" + b && t[1..] == x[1..] + "/" + y;
      SlashSplits(a[1..], b, x[1..], y);
      assert a == [a[0]] + a[1..] && x == [x[0]] + x[1..];
    }
  }

  /** Two tokens with one key can differ in the name alone. */
  lemma SameKeySameHolder(e: Encoding, tokens: Tokens, t: string, u: string, created: nat)
    requires Decoded(e, tokens, t, created).Some? && Decoded(e, tokens, u, created).Some?
    requires Decoded(e, tokens, t, created).value.Key() == Decoded(e, tokens, u, created).value.Key()
    ensures Decoded(e, tokens, t, created) == Decoded(e, tokens, u, created) <==>
      Decoded(e, tokens, t, created).value.name == Decoded(e, tokens, u, created).value.name
  {
    var a, b := Decoded(e, tokens, t, created).value, Decoded(e, tokens, u, created).value;
    SlashSplits(a.kind, a.uid, b.kind, b.uid);
  }

  // ---- folding ---------------------------------------------------------

  /** How a token is read. */
  type Reading = string -> Option<Holder>

  /** One holder's turn: holders of a Lease replace, a holder that a Worktree already has stays. */
  function Turn(keep: bool, hs: seq<Holder>, h: Holder): seq<Holder> {
    if keep && Find(hs, h.Key()).Some? then hs else Put(hs, h, h.since)
  }

  function Fold(keep: bool, base: seq<Holder>, reading: Reading, order: seq<string>): seq<Holder> {
    if order == [] then base
    else
      var hs := Fold(keep, base, reading, order[..|order| - 1]);
      var h := reading(order[|order| - 1]);
      if h.None? then hs else Turn(keep, hs, h.value)
  }

  /** The order lists every token once. */
  predicate Enumerates(order: seq<string>, keys: set<string>) {
    if order == [] then keys == {}
    else
      var last := order[|order| - 1];
      last in keys && Enumerates(order[..|order| - 1], keys - {last})
  }

  lemma EnumeratesMore(order: seq<string>, keys: set<string>, token: string)
    requires Enumerates(order, keys) && token !in keys
    ensures Enumerates(order + [token], keys + {token})
  {
    assert (order + [token])[..|order|] == order;
    assert keys + {token} - {token} == keys;
  }

  lemma {:induction false} EnumeratesExact(order: seq<string>, keys: set<string>)
    requires Enumerates(order, keys)
    ensures (set t | t in order) == keys && |order| == |keys|
  {
    if order != [] {
      var init, last := order[..|order| - 1], order[|order| - 1];
      EnumeratesExact(init, keys - {last});
      assert order == init + [last];
      assert (set t | t in order) == (set t | t in init) + {last};
    }
  }

  /** Any enumeration of a part can be continued to one of the whole. */
  lemma {:induction false} Continue(
      order: seq<string>, part: set<string>, keys: set<string>)
    returns (more: seq<string>)
    requires Enumerates(order, part) && part <= keys
    ensures Enumerates(order + more, keys)
    decreases |keys - part|
  {
    if part == keys {
      more := [];
      assert order + more == order;
    } else {
      var t :| t in keys && t !in part;
      EnumeratesMore(order, part, t);
      assert keys - part == (keys - (part + {t})) + {t};
      var rest := Continue(order + [t], part + {t}, keys);
      more := [t] + rest;
      assert order + more == order + [t] + rest;
    }
  }

  lemma FoldMore(keep: bool, base: seq<Holder>, reading: Reading, order: seq<string>, token: string)
    ensures
      var hs, h := Fold(keep, base, reading, order), reading(token);
      Fold(keep, base, reading, order + [token]) == if h.None? then hs else Turn(keep, hs, h.value)
  {
    assert (order + [token])[..|order|] == order;
  }

  method TakeTurn(keep: bool, hs: seq<Holder>, h: Holder) returns (after: seq<Holder>)
    ensures after == Turn(keep, hs, h)
  {
    after := hs;
    if !keep || Find(hs, h.Key()).None? {
      after := Put(hs, h, h.since);
    }
  }

  /** The decoding loop, in the map's arbitrary iteration order. */
  method FoldTokens(keep: bool, base: seq<Holder>, tokens: set<string>, reading: Reading)
    returns (hs: seq<Holder>, ghost order: seq<string>)
    ensures Enumerates(order, tokens)
    ensures hs == Fold(keep, base, reading, order)
  {
    hs, order := base, [];
    var todo := tokens;
    ghost var done: set<string> := {};
    while todo != {}
      invariant done + todo == tokens && done !! todo
      invariant Enumerates(order, done)
      invariant hs == Fold(keep, base, reading, order)
      decreases |todo|
    {
      var token :| token in todo;
      var h := reading(token);
      EnumeratesMore(order, done, token);
      FoldMore(keep, base, reading, order, token);
      if h.Some? {
        hs := TakeTurn(keep, hs, h.value);
      }
      order, done := order + [token], done + {token};
      todo := todo - {token};
    }
    assert done == tokens;
  }

  // ---- order does not matter while names agree --------------------------

  /** The token counts, on top of the base. */
  predicate Adds(base: set<string>, reading: Reading, t: string) {
    reading(t).Some? && reading(t).value.Key() !in base
  }

  /** Tokens with one key stand for one holder. */
  ghost predicate Agree(base: set<string>, reading: Reading, tokens: set<string>) {
    forall t, u ::
      (t in tokens && u in tokens && Adds(base, reading, t) && Adds(base, reading, u)
       && reading(t).value.Key() == reading(u).value.Key()) ==> reading(t) == reading(u)
  }

  /** The map holds the base, and under every other key the holder of its tokens. */
  ghost predicate Represents(base: map<string, Holder>, reading: Reading, seen: set<string>, m: map<string, Holder>) {
    && (forall k :: k in base ==> k in m && m[k] == base[k])
    && (forall t :: t in seen && Adds(base.Keys, reading, t) ==>
          reading(t).value.Key() in m && m[reading(t).value.Key()] == reading(t).value)
    && (forall k :: k in m && k !in base ==>
      exists t :: t in seen && Adds(base.Keys, reading, t) && reading(t).value.Key() == k)
  }

  lemma RepresentsOne(
      base: map<string, Holder>, reading: Reading, seen: set<string>, m: map<string, Holder>, n: map<string, Holder>)
    requires Represents(base, reading, seen, m) && Represents(base, reading, seen, n)
    ensures m == n
  {
    forall k | k in m ensures k in n && n[k] == m[k] {
    }
    forall k | k in n ensures k in m {
    }
  }

  /** What one turn does to the map. */
  function TurnOn(keep: bool, m: map<string, Holder>, h: Holder): map<string, Holder> {
    if keep && h.Key() in m then m else m[h.Key() := h]
  }

  lemma TurnView(keep: bool, hs: seq<Holder>, h: Holder)
    requires SortedByKey(hs) && h.since > 0
    requires !keep && h.Key() in View(hs) ==> View(hs)[h.Key()].since == h.since
    ensures SortedByKey(Turn(keep, hs, h))
    ensures View(Turn(keep, hs, h)) == TurnOn(keep, View(hs), h)
  {
    SortedIsDistinct(hs);
    PutView(hs, h, h.since);
    assert h.Key() in View(hs) ==> Find(hs, h.Key()) == Some(View(hs)[h.Key()]);
  }

  /** A token whose key is there already, and not from the base, stands for that holder. */
  lemma SeenBefore(
      base: map<string, Holder>, reading: Reading, tokens: set<string>, seen: set<string>, t: string,
      m: map<string, Holder>)
    requires Agree(base.Keys, reading, tokens) && seen <= tokens && t in tokens
    requires Represents(base, reading, seen, m)
    requires Adds(base.Keys, reading, t) && reading(t).value.Key() in m
    ensures m[reading(t).value.Key()] == reading(t).value
  {
    var u :| u in seen && Adds(base.Keys, reading, u) && reading(u).value.Key() == reading(t).value.Key();
  }

  lemma TurnOnRepresents(
      keep: bool, base: map<string, Holder>, reading: Reading, tokens: set<string>, seen: set<string>, t: string,
      m: map<string, Holder>)
    requires Agree(base.Keys, reading, tokens) && seen <= tokens && t in tokens && (!keep ==> base == map[])
    requires Represents(base, reading, seen, m)
    ensures Represents(base, reading, seen + {t}, if reading(t).None? then m else TurnOn(keep, m, reading(t).value))
  {
    if Adds(base.Keys, reading, t) && reading(t).value.Key() in m {
      SeenBefore(base, reading, tokens, seen, t, m);
    }
  }

  lemma {:induction false} FoldRepresents(
      keep: bool, base: seq<Holder>, reading: Reading, tokens: set<string>, order: seq<string>)
    requires SortedByKey(base) && (!keep ==> base == [])
    requires Agree(View(base).Keys, reading, tokens) && forall i :: 0 <= i < |order| ==> order[i] in tokens
    requires forall t :: t in tokens && reading(t).Some? ==> reading(t).value.since > 0
    ensures SortedByKey(Fold(keep, base, reading, order))
    ensures Represents(View(base), reading, (set t | t in order), View(Fold(keep, base, reading, order)))
  {
    if order != [] {
      var init, t := order[..|order| - 1], order[|order| - 1];
      FoldRepresents(keep, base, reading, tokens, init);
      var hs := Fold(keep, base, reading, init);
      var seen := set u | u in init;
      assert order == init + [t];
      assert (set u | u in order) == seen + {t};
      FoldMore(keep, base, reading, init, t);
      TurnRepresents(keep, base, reading, tokens, seen, t, hs);
    }
  }

  lemma TurnRepresents(
      keep: bool, base: seq<Holder>, reading: Reading, tokens: set<string>, seen: set<string>, t: string,
      hs: seq<Holder>)
    requires SortedByKey(hs) && (!keep ==> base == []) && seen <= tokens && t in tokens
    requires Agree(View(base).Keys, reading, tokens) && Represents(View(base), reading, seen, View(hs))
    requires reading(t).Some? ==> reading(t).value.since > 0
    ensures
      var after := if reading(t).None? then hs else Turn(keep, hs, reading(t).value);
      SortedByKey(after) && Represents(View(base), reading, seen + {t}, View(after))
  {
    TurnOnRepresents(keep, View(base), reading, tokens, seen, t, View(hs));
    if reading(t).Some? {
      if !keep && reading(t).value.Key() in View(hs) {
        SeenBefore(View(base), reading, tokens, seen, t, View(hs));
      }
      TurnView(keep, hs, reading(t).value);
    }
  }

  /** Holders read from one object carry its creation time. */
  predicate Stamped(reading: Reading, tokens: set<string>, created: nat) {
    forall t :: t in tokens && reading(t).Some? ==> reading(t).value.since == created
  }

  lemma OrderIsIrrelevant(
      keep: bool, base: seq<Holder>, reading: Reading, tokens: set<string>, created: nat, a: seq<string>,
      b: seq<string>)
    requires SortedByKey(base) && (!keep ==> base == []) && created > 0 && Stamped(reading, tokens, created)
    requires Agree(KeySet(base), reading, tokens) && Enumerates(a, tokens) && Enumerates(b, tokens)
    ensures Fold(keep, base, reading, a) == Fold(keep, base, reading, b)
  {
    EnumeratesExact(a, tokens);
    EnumeratesExact(b, tokens);
    forall i | 0 <= i < |a| ensures a[i] in tokens {
      assert a[i] in (set t | t in a);
    }
    forall i | 0 <= i < |b| ensures b[i] in tokens {
      assert b[i] in (set t | t in b);
    }
    FoldRepresents(keep, base, reading, tokens, a);
    FoldRepresents(keep, base, reading, tokens, b);
    var x, y := Fold(keep, base, reading, a), Fold(keep, base, reading, b);
    RepresentsOne(View(base), reading, tokens, View(x), View(y));
    SortedListsWithEqualViewsAreEqual(x, y);
  }

  lemma {:induction false} FoldSorted(keep: bool, base: seq<Holder>, reading: Reading, order: seq<string>)
    requires SortedByKey(base)
    ensures SortedByKey(Fold(keep, base, reading, order))
  {
    if order != [] {
      var init, t := order[..|order| - 1], order[|order| - 1];
      FoldSorted(keep, base, reading, init);
      var hs := Fold(keep, base, reading, init);
      SortedIsDistinct(hs);
      if reading(t).Some? {
        PutView(hs, reading(t).value, reading(t).value.since);
      }
    }
  }

  /** Without the base's precedence the last token of a key decides, apart from the time. */
  lemma LastDecides(base: seq<Holder>, reading: Reading, order: seq<string>, t: string)
    requires SortedByKey(base) && reading(t).Some?
    ensures NameAt(Fold(false, base, reading, order + [t]), reading(t).value.Key()) == Some(reading(t).value.name)
  {
    FoldMore(false, base, reading, order, t);
    FoldSorted(false, base, reading, order);
    var hs := Fold(false, base, reading, order);
    SortedIsDistinct(hs);
    PutView(hs, reading(t).value, reading(t).value.since);
  }

  lemma TurnKeeps(hs: seq<Holder>, h: Holder, key: string)
    requires SortedByKey(hs) && key in View(hs)
    ensures
      var m := View(Turn(true, hs, h));
      key in m && m[key] == View(hs)[key]
  {
    SortedIsDistinct(hs);
    PutView(hs, h, h.since);
  }

  lemma TurnPuts(hs: seq<Holder>, h: Holder)
    requires SortedByKey(hs) && h.Key() !in KeySet(hs)
    ensures
      var m := View(Turn(true, hs, h));
      h.Key() in m && m[h.Key()].name == h.name
  {
    SortedIsDistinct(hs);
    PutView(hs, h, h.since);
  }

  /** The name under which a key is held, if it is. */
  function NameAt(hs: seq<Holder>, key: string): Option<string> {
    if key in View(hs) then Some(View(hs)[key].name) else None
  }

  lemma OneMoreKeeps(base: seq<Holder>, reading: Reading, order: seq<string>, t: string, key: string)
    requires SortedByKey(base) && NameAt(Fold(true, base, reading, order), key).Some?
    ensures NameAt(Fold(true, base, reading, order + [t]), key) == NameAt(Fold(true, base, reading, order), key)
  {
    FoldMore(true, base, reading, order, t);
    FoldSorted(true, base, reading, order);
    if reading(t).Some? {
      TurnKeeps(Fold(true, base, reading, order), reading(t).value, key);
    }
  }

  /** What no single further token changes, no further tokens change. */
  lemma {:induction false} MoreKeeps(f: seq<string> -> Option<string>, order: seq<string>, more: seq<string>)
    requires forall o, t {:trigger f(o + [t])} :: f(o).Some? ==> f(o + [t]) == f(o)
    requires f(order).Some?
    ensures f(order + more) == f(order)
  {
    if more == [] {
      assert order + more == order;
    } else {
      var init, last := more[..|more| - 1], more[|more| - 1];
      MoreKeeps(f, order, init);
      assert order + more == (order + init) + [last];
    }
  }

  /** With it the first one decides. */
  lemma FirstDecides(base: seq<Holder>, reading: Reading, t: string, more: seq<string>)
    requires SortedByKey(base) && Adds(KeySet(base), reading, t)
    ensures NameAt(Fold(true, base, reading, [t] + more), reading(t).value.Key()) == Some(reading(t).value.name)
  {
    var key := reading(t).value.Key();
    var f := (o: seq<string>) => NameAt(Fold(true, base, reading, o), key);
    FirstPuts(base, reading, t);
    forall o, u | f(o).Some? ensures f(o + [u]) == f(o) {
      OneMoreKeeps(base, reading, o, u, key);
    }
    MoreKeeps(f, [t], more);
  }

  lemma FirstPuts(base: seq<Holder>, reading: Reading, t: string)
    requires SortedByKey(base) && Adds(KeySet(base), reading, t)
    ensures NameAt(Fold(true, base, reading, [t]), reading(t).value.Key()) == Some(reading(t).value.name)
  {
    assert [t] == [] + [t];
    FoldMore(true, base, reading, [], t);
    TurnPuts(base, reading(t).value);
  }

  /** Two tokens with one key and different names give different lists in two orders. */
  lemma OrderMatters(
      keep: bool, base: seq<Holder>, reading: Reading, tokens: set<string>, t: string, u: string)
    returns (a: seq<string>, b: seq<string>)
    requires SortedByKey(base) && t in tokens && u in tokens
    requires Adds(KeySet(base), reading, t) && Adds(KeySet(base), reading, u)
    requires reading(t).value.Key() == reading(u).value.Key() && reading(t).value.name != reading(u).value.name
    ensures Enumerates(a, tokens) && Enumerates(b, tokens)
    ensures Fold(keep, base, reading, a) != Fold(keep, base, reading, b)
  {
    if keep {
      EnumeratesMore([], {}, t);
      EnumeratesMore([], {}, u);
      assert [] + [t] == [t] && [] + [u] == [u] && {} + {t} == {t} && {} + {u} == {u};
      var afterT := Continue([t], {t}, tokens);
      var afterU := Continue([u], {u}, tokens);
      FirstDecides(base, reading, t, afterT);
      FirstDecides(base, reading, u, afterU);
      a, b := [t] + afterT, [u] + afterU;
    } else {
      var beforeT := Continue([], {}, tokens - {t});
      var beforeU := Continue([], {}, tokens - {u});
      assert [] + beforeT == beforeT && [] + beforeU == beforeU;
      EnumeratesMore(beforeT, tokens - {t}, t);
      EnumeratesMore(beforeU, tokens - {u}, u);
      assert tokens - {t} + {t} == tokens && tokens - {u} + {u} == tokens;
      LastDecides(base, reading, beforeT, t);
      LastDecides(base, reading, beforeU, u);
      a, b := beforeT + [t], beforeU + [u];
    }
  }

  // ---- the two encodings -----------------------------------------------

  function ReadingOf(e: Encoding, tokens: Tokens, created: nat): Reading {
    (t: string) => Decoded(e, tokens, t, created)
  }

  /** Tokens of one holder agree on its name. */
  ghost predicate NamesAgree(e: Encoding, base: seq<Holder>, tokens: Tokens, created: nat) {
    var reading := ReadingOf(e, tokens, created);
    forall t, u ::
      (t in tokens && u in tokens && Adds(KeySet(base), reading, t) && Adds(KeySet(base), reading, u)
       && reading(t).value.Key() == reading(u).value.Key()) ==> reading(t).value.name == reading(u).value.name
  }

  lemma AgreeIsNames(e: Encoding, base: seq<Holder>, tokens: Tokens, created: nat)
    ensures Agree(KeySet(base), ReadingOf(e, tokens, created), tokens.Keys) <==> NamesAgree(e, base, tokens, created)
  {
    var reading := ReadingOf(e, tokens, created);
    forall t, u |
      t in tokens && u in tokens && Adds(KeySet(base), reading, t) && Adds(KeySet(base), reading, u)
      && reading(t).value.Key() == reading(u).value.Key()
      ensures reading(t) == reading(u) <==> reading(t).value.name == reading(u).value.name
    {
      SameKeySameHolder(e, tokens, t, u, created);
    }
  }

  /** Only a Worktree has a hold set to merge into, and what it has recorded stays. */
  predicate Mergeable(e: Encoding, base: seq<Holder>) {
    SortedByKey(base) && (e.RepositoryTokens? ==> base == [])
  }

  /** Every iteration order decodes to the same list exactly if the names agree. */
  lemma OrderIrrelevantExact(e: Encoding, base: seq<Holder>, tokens: Tokens, created: nat)
    requires Mergeable(e, base) && created > 0
    ensures NamesAgree(e, base, tokens, created) <==>
      forall a, b :: Enumerates(a, tokens.Keys) && Enumerates(b, tokens.Keys) ==>
        Fold(e.MountTokens?, base, ReadingOf(e, tokens, created), a)
          == Fold(e.MountTokens?, base, ReadingOf(e, tokens, created), b)
  {
    var reading, keep := ReadingOf(e, tokens, created), e.MountTokens?;
    AgreeIsNames(e, base, tokens, created);
    if NamesAgree(e, base, tokens, created) {
      forall a, b | Enumerates(a, tokens.Keys) && Enumerates(b, tokens.Keys)
        ensures Fold(keep, base, reading, a) == Fold(keep, base, reading, b)
      {
        OrderIsIrrelevant(keep, base, reading, tokens.Keys, created, a, b);
      }
    } else {
      var t, u :|
        t in tokens && u in tokens && Adds(KeySet(base), reading, t) && Adds(KeySet(base), reading, u)
        && reading(t).value.Key() == reading(u).value.Key() && reading(t).value.name != reading(u).value.name;
      var a, b := OrderMatters(keep, base, reading, tokens.Keys, t, u);
    }
  }

  /** The start time that Put records: the object's creation, or the clock if it has none. */
  function StartOf(created: nat, now: nat): nat {
    if created == 0 then now else created
  }

  /** repositoryaccess.Decode of the token encoding. */
  method DecodeRepository(
      mode: Mode, tokens: Tokens, created: nat, now: nat)
    returns (state: State, ghost order: seq<string>)
    requires now > 0
    ensures Enumerates(order, tokens.Keys) && !state.closed && SortedByKey(state.holders)
    ensures state.holders == Fold(false, [], ReadingOf(RepositoryTokens(mode), tokens, StartOf(created, now)), order)
    ensures NamesAgree(RepositoryTokens(mode), [], tokens, StartOf(created, now)) ==>
      Represents(map[], ReadingOf(RepositoryTokens(mode), tokens, StartOf(created, now)), tokens.Keys,
        View(state.holders))
    ensures Good(RepositoryPolicy, state) <==> mode != WRITE || |state.holders| <= 1
  {
    var e, since := RepositoryTokens(mode), StartOf(created, now);
    var hs;
    hs, order := FoldTokens(false, [], tokens.Keys, ReadingOf(e, tokens, since));
    FoldSorted(false, [], ReadingOf(e, tokens, since), order);
    if NamesAgree(e, [], tokens, since) {
      FoldIsFaithful(e, [], tokens, since, order);
      assert View([]) == map[];
    }
    FoldModes(ReadingOf(e, tokens, since), order, mode);
    OneModeAllowed(hs, mode);
    state := State(false, hs);
  }

  /** Every holder decoded from a Lease has the Lease's mode. */
  lemma {:induction false} FoldModes(reading: Reading, order: seq<string>, mode: Mode)
    requires forall t :: reading(t).Some? ==> reading(t).value.mode == mode
    ensures forall h :: h in Fold(false, [], reading, order) ==> h.mode == mode
  {
    if order != [] {
      var init, t := order[..|order| - 1], order[|order| - 1];
      FoldModes(reading, init, mode);
      if reading(t).Some? {
        PutModes(Fold(false, [], reading, init), reading(t).value, mode);
      }
    }
  }

  lemma PutModes(hs: seq<Holder>, h: Holder, mode: Mode)
    requires (forall x :: x in hs ==> x.mode == mode) && h.mode == mode
    ensures forall x :: x in Put(hs, h, h.since) ==> x.mode == mode
  {
    var all := Without(hs, h.Key()) + [Stamp(hs, h, h.since)];
    forall x | x in Put(hs, h, h.since) ensures x.mode == mode {
      assert x in multiset(Put(hs, h, h.since));
      assert x in multiset(all);
    }
  }

  /** A set in one mode obeys the Repository's policy exactly if the mode is shared or at most one holds. */
  lemma OneModeAllowed(hs: seq<Holder>, mode: Mode)
    requires SortedByKey(hs) && forall h :: h in hs ==> h.mode == mode
    ensures Allowed(RepositoryPolicy, View(hs)) <==> mode != WRITE || |hs| <= 1
  {
    SortedIsDistinct(hs);
    if mode == WRITE && |hs| >= 2 {
      assert hs[0] in hs && hs[1] in hs;
      FindUnique(hs, hs[0]);
      FindUnique(hs, hs[1]);
      assert hs[0].Key() in View(hs) && hs[1].Key() in View(hs);
      assert !Compatible(RepositoryPolicy, View(hs)[hs[0].Key()].mode, View(hs)[hs[1].Key()].mode);
    }
    forall a, b | a in View(hs) && b in View(hs) && a != b
      ensures |hs| >= 2 && View(hs)[a].mode == mode == View(hs)[b].mode {
      TwoKeysTwoHolders(hs, a, b);
    }
  }

  lemma TwoKeysTwoHolders(hs: seq<Holder>, a: string, b: string)
    requires a in View(hs) && b in View(hs) && a != b
    ensures |hs| >= 2 && View(hs)[a] in hs && View(hs)[b] in hs
  {
    var x, y := Find(hs, a).value, Find(hs, b).value;
    var i :| 0 <= i < |hs| && hs[i] == x;
    var j :| 0 <= j < |hs| && hs[j] == y;
    assert i != j;
  }

  /** worktreeownership.Decode: the stored set, the old fence and the old mount holders. */
  method DecodeWorktree(
      stored: State, legacyClosed: bool, tokens: Tokens, created: nat, now: nat)
    returns (state: State, ghost order: seq<string>)
    requires now > 0
    ensures Enumerates(order, tokens.Keys) && state.closed == (stored.closed || legacyClosed)
    ensures state.holders == Fold(true, stored.holders, ReadingOf(MountTokens, tokens, StartOf(created, now)), order)
    ensures SortedByKey(stored.holders) && NamesAgree(MountTokens, stored.holders, tokens, StartOf(created, now)) ==>
      Represents(View(stored.holders), ReadingOf(MountTokens, tokens, StartOf(created, now)), tokens.Keys,
        View(state.holders))
    ensures Good(WorktreePolicy, stored) ==> Good(WorktreePolicy, state)
  {
    var since := StartOf(created, now);
    var hs;
    hs, order := FoldTokens(true, stored.holders, tokens.Keys, ReadingOf(MountTokens, tokens, since));
    if SortedByKey(stored.holders) && NamesAgree(MountTokens, stored.holders, tokens, since) {
      FoldIsFaithful(MountTokens, stored.holders, tokens, since, order);
    }
    if Good(WorktreePolicy, stored) {
      MountsKeepPolicy(stored.holders, ReadingOf(MountTokens, tokens, since), order);
    }
    state := State(stored.closed || legacyClosed, hs);
  }

  lemma FoldIsFaithful(e: Encoding, base: seq<Holder>, tokens: Tokens, created: nat, order: seq<string>)
    requires Mergeable(e, base) && created > 0 && NamesAgree(e, base, tokens, created) && Enumerates(order, tokens.Keys)
    ensures Represents(View(base), ReadingOf(e, tokens, created), tokens.Keys,
                       View(Fold(e.MountTokens?, base, ReadingOf(e, tokens, created), order)))
  {
    AgreeIsNames(e, base, tokens, created);
    EnumeratesExact(order, tokens.Keys);
    forall i | 0 <= i < |order| ensures order[i] in tokens.Keys {
      assert order[i] in (set t | t in order);
    }
    FoldRepresents(e.MountTokens?, base, ReadingOf(e, tokens, created), tokens.Keys, order);
  }

  lemma ReaderJoins(m: map<string, Holder>, h: Holder)
    requires Allowed(WorktreePolicy, m) && h.mode == READ
    ensures Allowed(WorktreePolicy, TurnOn(true, m, h))
  {
  }

  /** Merged mount holders only read, so a set with one writer still has one. */
  lemma {:induction false} MountsKeepPolicy(base: seq<Holder>, reading: Reading, order: seq<string>)
    requires SortedByKey(base) && Allowed(WorktreePolicy, View(base))
    requires forall t :: reading(t).Some? ==> reading(t).value.mode == READ && reading(t).value.since > 0
    ensures SortedByKey(Fold(true, base, reading, order))
      && Allowed(WorktreePolicy, View(Fold(true, base, reading, order)))
  {
    if order != [] {
      var init, t := order[..|order| - 1], order[|order| - 1];
      MountsKeepPolicy(base, reading, init);
      if reading(t).Some? {
        var hs := Fold(true, base, reading, init);
        TurnView(true, hs, reading(t).value);
        ReaderJoins(View(hs), reading(t).value);
      }
    }
  }
}

/**
 The meaning of a hold set: which key holds which mode, and the fence. The list
 operations of HoldSet and Admission are shown to compute exactly these map
 operations, so the protocols reason about the maps.
 */
module HoldMap {
  import opened Options
  import HoldSet
  import Lists = Admission
  import opened Modes = HoldSet

  type Policy = Lists.Policy

  datatype Hold = Hold(closed: bool, modes: map<string, Mode>)

  const NOBODY := Hold(false, map[])

  function ModesOf(m: map<string, Holder>): map<string, Mode> {
    map k | k in m :: m[k].mode
  }

  function Meaning(s: State): Hold {
    Hold(s.closed, ModesOf(View(s.holders)))
  }

  predicate Has(h: Hold, key: string, mode: Mode) {
    key in h.modes && h.modes[key] == mode
  }

  predicate Allowed(policy: Policy, h: Hold) {
    forall a, b :: a in h.modes && b in h.modes && a != b ==> Lists.Compatible(policy, h.modes[a], h.modes[b])
  }

  predicate Unopposed(policy: Policy, h: Hold, key: string, mode: Mode) {
    forall k :: k in h.modes && k != key ==> Lists.Compatible(policy, h.modes[k], mode)
  }

  datatype Decision = Decision(changed: bool, admitted: bool, held: bool, after: Hold)

  /** The fence refuses everybody; otherwise the mode must suit every other key. */
  function Admit(h: Hold, key: string, mode: Mode, policy: Policy): Decision {
    if Has(h, key, mode) then Decision(false, !h.closed, true, h)
    else if h.closed || !Unopposed(policy, h, key, mode) then Decision(false, false, false, h)
    else Decision(true, true, false, h.(modes := h.modes[key := mode]))
  }

  function Drop(h: Hold, keys: set<string>): Hold {
    h.(modes := h.modes - keys)
  }

  /** Keeping a writer means keeping it as a reader. */
  function Retain(h: Hold, key: string, kept: bool): Hold {
    if !kept then Drop(h, {key})
    else if Has(h, key, WRITE) then h.(modes := h.modes[key := READ])
    else h
  }

  /** A legacy writer is recorded whatever the fence, unless another writes. */
  function Import(h: Hold, key: string): Decision {
    if Has(h, key, WRITE) then Decision(false, false, true, h)
    else if !Unopposed(Lists.WorktreePolicy, h, key, WRITE) then Decision(false, false, false, h)
    else Decision(true, false, true, h.(modes := h.modes[key := WRITE]))
  }

  // ---- the lists compute the maps --------------------------------------

  lemma MeaningAllowed(s: State, policy: Policy)
    ensures Lists.Allowed(policy, View(s.holders)) <==> Allowed(policy, Meaning(s))
  {
    var m, n := View(s.holders), Meaning(s).modes;
    if Allowed(policy, Meaning(s)) {
      forall a, b | a in m && b in m && a != b
        ensures Lists.Compatible(policy, m[a].mode, m[b].mode)
      {
        assert a in n && b in n;
      }
    }
  }

  lemma MeaningUnopposed(s: State, policy: Policy, key: string, mode: Mode)
    ensures Lists.Unopposed(policy, View(s.holders), key, mode) <==> Unopposed(policy, Meaning(s), key, mode)
  {
    var m, n := View(s.holders), Meaning(s).modes;
    if Unopposed(policy, Meaning(s), key, mode) {
      forall k | k in m && k != key
        ensures Lists.Compatible(policy, m[k].mode, mode)
      {
        assert k in n;
      }
    }
  }

  lemma MeaningHas(s: State, key: string, mode: Mode)
    ensures Lists.Holds(s, key, mode) <==> Has(Meaning(s), key, mode)
  {
    if Find(s.holders, key).Some? {
      assert key in View(s.holders) && View(s.holders)[key] == Find(s.holders, key).value;
    }
  }

  lemma ModesMinus(m: map<string, Holder>, keys: set<string>)
    ensures ModesOf(m - keys) == ModesOf(m) - keys
  {
  }

  lemma ModesElsewhere(m: map<string, Holder>, m': map<string, Holder>, key: string)
    requires Lists.SameElsewhere(m, m', key)
    ensures ModesOf(m') == if key in m' then ModesOf(m)[key := m'[key].mode] else ModesOf(m) - {key}
  {
    var n := if key in m' then ModesOf(m)[key := m'[key].mode] else ModesOf(m) - {key};
    forall k
      ensures k in n <==> k in m'
      ensures k in m' ==> n[k] == m'[k].mode
    {
      assert k != key ==> (k in m <==> k in m');
    }
    assert ModesOf(m').Keys == n.Keys;
  }

  /** State.Admit decides and stores what the map decision says. */
  lemma AdmitMeans(s: State, c: Holder, policy: Policy, now: nat)
    requires Lists.Good(policy, s)
    ensures var list, hold := Lists.Admit(s, c, policy, now), Admit(Meaning(s), c.Key(), c.mode, policy);
      && Lists.Good(policy, list.state)
      && hold == Decision(list.changed, list.result.admitted, list.result.held, Meaning(list.state))
  {
    Lists.AdmitExact(s, c, policy, now);
    MeaningHas(s, c.Key(), c.mode);
    MeaningUnopposed(s, policy, c.Key(), c.mode);
    var list := Lists.Admit(s, c, policy, now);
    if list.changed {
      ModesElsewhere(View(s.holders), View(list.state.holders), c.Key());
      MeaningHas(list.state, c.Key(), c.mode);
    }
  }

  /** Removing keys from the list, by Release or by Sweep, drops them. */
  lemma RemoveMeans(s: State, keys: seq<string>, policy: Policy)
    requires Lists.Good(policy, s)
    ensures var list := s.(holders := Lists.WithoutAll(s.holders, keys));
      Lists.Good(policy, list) && Meaning(list) == Drop(Meaning(s), Lists.KeySeqSet(keys))
  {
    Lists.RemoveAllGood(s, keys, policy);
    ModesMinus(View(s.holders), Lists.KeySeqSet(keys));
  }

  lemma ReleaseMeans(s: State, key: string, policy: Policy)
    requires Lists.Good(policy, s)
    ensures Meaning(s.(holders := Without(s.holders, key))) == Drop(Meaning(s), {key})
  {
    Lists.RemoveGood(s, key, policy);
    ModesMinus(View(s.holders), {key});
  }

  lemma RetainMeans(s: State, key: string, kept: bool, now: nat)
    requires Lists.Good(Lists.WorktreePolicy, s)
    ensures Meaning(Lists.Retain(s, key, kept, now).state) == Retain(Meaning(s), key, kept)
  {
    Lists.RetainExact(s, key, kept, now);
    var r := Lists.Retain(s, key, kept, now).state;
    RetainModes(View(s.holders), View(r.holders), key, kept);
  }

  lemma RetainModes(m: map<string, Holder>, m': map<string, Holder>, key: string, kept: bool)
    requires Lists.SameElsewhere(m, m', key) && (key in m' <==> key in m && kept)
    requires key in m' ==> m'[key].mode == (if m[key].mode == WRITE then READ else m[key].mode)
    ensures ModesOf(m') == Retain(Hold(false, ModesOf(m)), key, kept).modes
  {
    ModesElsewhere(m, m', key);
    var n := ModesOf(m);
    assert key !in n ==> n - {key} == n;
    assert key in n ==> n[key := n[key]] == n;
  }

  lemma ImportMeans(s: State, h: Holder, now: nat)
    requires Lists.Good(Lists.WorktreePolicy, s) && h.mode == WRITE
    ensures var list, hold := Lists.ImportWriter(s, h, now), Import(Meaning(s), h.Key());
      && Lists.Good(Lists.WorktreePolicy, list.state)
      && hold == Decision(list.changed, list.result.admitted, list.result.held, Meaning(list.state))
  {
    Lists.ImportExact(s, h, now);
    MeaningHas(s, h.Key(), WRITE);
    MeaningUnopposed(s, Lists.WorktreePolicy, h.Key(), WRITE);
    var list := Lists.ImportWriter(s, h, now);
    if list.changed {
      ModesElsewhere(View(s.holders), View(list.state.holders), h.Key());
      MeaningHas(list.state, h.Key(), WRITE);
    }
  }

  // ---- what the map operations keep ------------------------------------

  lemma AdmitKeeps(h: Hold, key: string, mode: Mode, policy: Policy)
    requires Allowed(policy, h)
    ensures Allowed(policy, Admit(h, key, mode, policy).after)
  {
    var after := Admit(h, key, mode, policy).after;
    forall a, b | a in after.modes && b in after.modes && a != b
      ensures Lists.Compatible(policy, after.modes[a], after.modes[b])
    {
      assert a != key ==> a in h.modes;
      assert b != key ==> b in h.modes;
    }
  }

  lemma ImportKeeps(h: Hold, key: string)
    requires Allowed(Lists.WorktreePolicy, h)
    ensures Allowed(Lists.WorktreePolicy, Import(h, key).after)
  {
    var after := Import(h, key).after;
    forall a, b | a in after.modes && b in after.modes && a != b
      ensures Lists.Compatible(Lists.WorktreePolicy, after.modes[a], after.modes[b])
    {
      assert a != key ==> a in h.modes;
      assert b != key ==> b in h.modes;
    }
  }

  /** A closed set is the excepted case: an import still enters it. */
  lemma ImportEntersClosedSet(key: string)
    ensures Import(Hold(true, map[]), key).after == Hold(true, map[key := WRITE])
    ensures !Admit(Hold(true, map[]), key, WRITE, Lists.WorktreePolicy).admitted
  {
    assert Unopposed(Lists.WorktreePolicy, Hold(true, map[]), key, WRITE);
  }
}

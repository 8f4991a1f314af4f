/**
 Persistent volume claims: their names, the resolution of a claim for an owner,
 and the check before an owner is created.
 */
module VolumeClaims {
  import opened Options
  import opened Decimals

  datatype Role = Repository | Worktree | WorkspaceHome | EnvironmentCurrent | EnvironmentDraft

  const MAX_NAME := 253

  predicate IsEnvironment(role: Role) {
    role.EnvironmentCurrent? || role.EnvironmentDraft?
  }

  function Prefix(role: Role): string {
    match role
    case Repository => "repository-"
    case Worktree => "worktree-"
    case WorkspaceHome => "workspace-"
    case EnvironmentCurrent => "environment-"
    case EnvironmentDraft => "environment-"
  }

  function Suffix(role: Role, revision: int): string {
    match role
    case Repository => ""
    case Worktree => ""
    case WorkspaceHome => "-home"
    case EnvironmentCurrent => "-current-" + Integer(revision)
    case EnvironmentDraft => "-draft-" + Integer(revision)
  }

  function FullName(role: Role, name: string, revision: int): string {
    Prefix(role) + name + Suffix(role, revision)
  }

  function TrimRight(s: string): (t: string)
    ensures t <= s
  {
    if s != "" && (s[|s| - 1] == '-' || s[|s| - 1] == '.') then TrimRight(s[..|s| - 1]) else s
  }

  /** A long name keeps the first 16 digits of a digest over the whole of it. */
  function Name(digest: string -> string, role: Role, name: string, revision: int): (n: string)
    requires forall s :: |digest(s)| == 64
    ensures |n| <= MAX_NAME
  {
    var full := FullName(role, name, revision);
    if |full| <= MAX_NAME then full
    else TrimRight(full[..MAX_NAME - 16 - 1]) + "-" + digest(full)[..16]
  }

  function LegacyName(role: Role, name: string, revision: int): string {
    if IsEnvironment(role) then name + Suffix(role, revision) else name
  }

  // ---- names tell their owners apart -----------------------------------

  /** The character before a decimal suffix tells where it begins. */
  lemma {:induction false} SuffixSplits(a: string, b: string, m: int, n: int)
    requires a != "" && b != "" && a[|a| - 1] != '-' && b[|b| - 1] != '-'
    requires a + "-" + Integer(m) == b + "-" + Integer(n)
    ensures a == b && m == n
  {
    var x, y := Integer(m), Integer(n);
    SignShows(m);
    SignShows(n);
    var s := a + "-" + x;
    assert s == b + "-" + y;
    if |a| < |b| {
      assert s[|a|] == '-';
      assert s[|b| - 1] == b[|b| - 1];
      assert s[|b|] == '-';
      assert s[|b|] == x[|b| - |a| - 1];
      DashOnlyAsSign(m, |b| - |a| - 1);
      assert false;
    }
    if |b| < |a| {
      assert s[|b|] == '-';
      assert s[|a| - 1] == a[|a| - 1];
      assert s[|a|] == '-';
      assert s[|a|] == y[|a| - |b| - 1];
      DashOnlyAsSign(n, |a| - |b| - 1);
      assert false;
    }
    assert a == s[..|a|] == b && x == s[|a| + 1..] == y;
    IntegerInjective(m, n);
  }

  lemma DashOnlyAsSign(n: int, i: nat)
    requires i < |Integer(n)| && Integer(n)[i] == '-'
    ensures i == 0
  {
  }

  function Stem(role: Role, name: string): string
    requires IsEnvironment(role)
  {
    "environment-" + name + (if role.EnvironmentCurrent? then "-current" else "-draft")
  }

  lemma FullNameStem(role: Role, name: string, revision: int)
    requires IsEnvironment(role)
    ensures FullName(role, name, revision) == Stem(role, name) + "-" + Integer(revision)
    ensures Stem(role, name) != "" && Stem(role, name)[|Stem(role, name)| - 1] == 't'
    ensures Stem(role, name)[|Stem(role, name)| - 2] == if role.EnvironmentCurrent? then 'n' else 'f'
  {
  }

  lemma PrefixShows(role: Role, name: string, revision: int)
    ensures
      var full := FullName(role, name, revision);
      && |full| > 5
      && (full[0] == 'r' <==> role.Repository?)
      && (full[0] == 'e' <==> IsEnvironment(role))
      && (full[0] == 'w' && full[4] == 't' <==> role.Worktree?)
      && (full[0] == 'w' && full[4] == 's' <==> role.WorkspaceHome?)
  {
    var full := FullName(role, name, revision);
    assert full[0] == Prefix(role)[0] && full[4] == Prefix(role)[4];
  }

  /** Untruncated names are equal exactly for the same role, owner name and Environment revision. */
  lemma FullNameInjective(r1: Role, n1: string, v1: int, r2: Role, n2: string, v2: int)
    ensures FullName(r1, n1, v1) == FullName(r2, n2, v2) <==> r1 == r2 && n1 == n2 && (IsEnvironment(r1) ==> v1 == v2)
  {
    if FullName(r1, n1, v1) == FullName(r2, n2, v2) {
      PrefixShows(r1, n1, v1);
      PrefixShows(r2, n2, v2);
      if IsEnvironment(r1) {
        FullNameStem(r1, n1, v1);
        FullNameStem(r2, n2, v2);
        SuffixSplits(Stem(r1, n1), Stem(r2, n2), v1, v2);
      }
      assert r1 == r2;
      Middle(Prefix(r1), n1, n2, Suffix(r1, v1));
    }
  }

  lemma Middle(a: string, x: string, y: string, b: string)
    requires a + x + b == a + y + b
    ensures x == y
  {
    assert x == (a + x + b)[|a|..|a + x + b| - |b|] == y;
  }

  /** Names that fit tell their owners apart. */
  lemma NameInjective(digest: string -> string, r1: Role, n1: string, v1: int, r2: Role, n2: string, v2: int)
    requires forall s :: |digest(s)| == 64
    requires |FullName(r1, n1, v1)| <= MAX_NAME && |FullName(r2, n2, v2)| <= MAX_NAME
    ensures Name(digest, r1, n1, v1) == Name(digest, r2, n2, v2) <==>
      r1 == r2 && n1 == n2 && (IsEnvironment(r1) ==> v1 == v2)
  {
    FullNameInjective(r1, n1, v1, r2, n2, v2);
  }

  // ---- resolution ------------------------------------------------------

  datatype Owner = Owner(name: string, uid: string)

  datatype Claim = Claim(name: string, controller: Option<string>, deleting: bool)

  /** The claims of one namespace; reading some names fails for other reasons. */
  datatype Reader = Reader(claims: map<string, Claim>, failing: set<string>)

  predicate ReaderOk(reader: Reader) {
    forall name :: name in reader.claims ==> reader.claims[name].name == name
  }

  predicate ControlledBy(claim: Claim, owner: Owner) {
    claim.controller == Some(owner.uid)
  }

  datatype Error = Conflict | ApiError

  function CheckOwner(claim: Claim, owner: Owner): Option<Error> {
    if owner.uid != "" && ControlledBy(claim, owner) && !claim.deleting then None else Some(Conflict)
  }

  datatype Lookup = Lookup(claim: Option<Claim>, error: Option<Error>)

  function LookUp(reader: Reader, owner: Owner, name: string): Lookup {
    if name in reader.failing then Lookup(None, Some(ApiError))
    else if name !in reader.claims then Lookup(None, None)
    else Lookup(Some(reader.claims[name]), CheckOwner(reader.claims[name], owner))
  }

  datatype Resolution = Resolution(name: string, claim: Option<Claim>, error: Option<Error>)

  /** An owned claim under the name used before names were typed. */
  predicate OwnedLegacy(reader: Reader, owner: Owner, role: Role, revision: int) {
    var legacy := LegacyName(role, owner.name, revision);
    legacy !in reader.failing && legacy in reader.claims && owner.uid != ""
      && ControlledBy(reader.claims[legacy], owner)
  }

  function Resolve(
      digest: string -> string, reader: Reader, owner: Owner, role: Role, revision: int, recorded: string): Resolution
    requires forall s :: |digest(s)| == 64
  {
    if recorded != "" then
      var found := LookUp(reader, owner, recorded);
      Resolution(recorded, found.claim, found.error)
    else
      var legacy := LegacyName(role, owner.name, revision);
      if OwnedLegacy(reader, owner, role, revision) then
        Resolution(reader.claims[legacy].name, Some(reader.claims[legacy]), CheckOwner(reader.claims[legacy], owner))
      else if legacy in reader.failing then Resolution("", None, Some(ApiError))
      else
        var name := Name(digest, role, owner.name, revision);
        var found := LookUp(reader, owner, name);
        Resolution(name, found.claim, found.error)
  }

  function Preflight(digest: string -> string, reader: Reader, owner: Owner, role: Role, revision: int): Option<Error>
    requires forall s :: |digest(s)| == 64
  {
    LookUp(reader, owner, Name(digest, role, owner.name, revision)).error
  }

  /**
   A recorded name is never changed; a claim that comes without an error is the
   one under the resolved name, owned and not terminating; an error is a
   conflict exactly if a claim is there that the owner may not use.
   */
  lemma ResolveIsSafe(
      digest: string -> string, reader: Reader, owner: Owner, role: Role, revision: int, recorded: string)
    requires forall s :: |digest(s)| == 64
    requires ReaderOk(reader)
    ensures
      var r := Resolve(digest, reader, owner, role, revision, recorded);
      && (recorded != "" ==> r.name == recorded)
      && (r.claim.Some? ==> r.name in reader.claims && reader.claims[r.name] == r.claim.value)
      && (r.claim.Some? && r.error.None? ==>
        ControlledBy(r.claim.value, owner) && !r.claim.value.deleting && owner.uid != "")
      && (r.error == Some(Conflict) <==> r.claim.Some? && CheckOwner(r.claim.value, owner).Some?)
      && (r.claim.None? && r.error.None? ==> r.name !in reader.claims)
  {
  }

  /**
   With nothing recorded and no owned legacy claim, what Preflight checks is
   what Resolve picks, for the same answer, unless the legacy name cannot be read.
   */
  lemma PreflightChecksResolved(digest: string -> string, reader: Reader, owner: Owner, role: Role, revision: int)
    requires forall s :: |digest(s)| == 64
    requires !OwnedLegacy(reader, owner, role, revision) && LegacyName(role, owner.name, revision) !in reader.failing
    ensures
      var r := Resolve(digest, reader, owner, role, revision, "");
      && r.name == Name(digest, role, owner.name, revision)
      && r.error == Preflight(digest, reader, owner, role, revision)
  {
  }
}

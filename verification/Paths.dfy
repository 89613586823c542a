/**
 Path mapping, written once for validation and once for the running controller:
 the two must agree on every declared path.
*/
module Paths {
  import opened Wrappers
  import opened Text

  datatype VaultRule = VaultRule(pathPrefix: string, accessProfile: string, policyMode: string, discoverable: bool)

  /** `sourceGroupPaths` is None when the list is absent, which an empty list is not. */
  datatype Rule = Rule(
    name: string, sourceGroupPrefix: string, sourceGroupPaths: Option<seq<string>>,
    targetProvider: string, targetParent: string, createGroups: bool, adopt: bool,
    accessLevel: string, prune: string, protectedUsers: seq<string>, maxRemovals: int,
    identityMatch: seq<string>, enforce: bool, vault: Option<VaultRule>)

  datatype Kind = GitLabTarget | VaultTarget

  // ----- characters -----

  /** `unicode.ToLower`, of which only the effect on ASCII matters here. */
  type Lowering = char -> char

  ghost predicate IsLowering(lower: Lowering) {
    && (forall c: char :: SafeChar(c) ==> lower(c) == c)
    && (forall c: char :: 'A' <= c <= 'Z' ==> SafeChar(lower(c)))
  }

  predicate SafeChar(c: char) {
    'a' <= c <= 'z' || '0' <= c <= '9' || c == '_' || c == '-'
  }

  predicate VaultChar(c: char) {
    'a' <= c <= 'z' || 'A' <= c <= 'Z' || '0' <= c <= '9' || c == '-' || c == '_'
  }

  function ToLower(lower: Lowering, s: string): string {
    if s == "" then "" else [lower(s[0])] + ToLower(lower, s[1..])
  }

  lemma {:induction false} LowerSafe(lower: Lowering, s: string)
    requires IsLowering(lower) && forall c <- s :: SafeChar(c)
    ensures ToLower(lower, s) == s
  {
    if s != "" {
      assert forall c <- s[1..] :: c in s;
      LowerSafe(lower, s[1..]);
      assert s[0] in s && s == [s[0]] + s[1..];
    }
  }

  lemma {:induction false} LowerVault(lower: Lowering, s: string)
    requires IsLowering(lower) && forall c <- s :: VaultChar(c)
    ensures |ToLower(lower, s)| == |s| && forall c <- ToLower(lower, s) :: SafeChar(c)
  {
    if s != "" {
      assert forall c <- s[1..] :: c in s;
      LowerVault(lower, s[1..]);
      assert s[0] in s;
    }
  }

  /** `[^a-z0-9_-]+` replaced by "-". */
  function Collapse(s: string): (r: string)
    ensures forall c <- r :: SafeChar(c)
    decreases |s|
  {
    if s == "" then ""
    else if SafeChar(s[0]) then [s[0]] + Collapse(s[1..])
    else "-" + Collapse(DropUnsafe(s))
  }

  function DropUnsafe(s: string): (r: string)
    ensures |r| <= |s| && (s != "" && !SafeChar(s[0]) ==> |r| < |s|)
  {
    if s != "" && !SafeChar(s[0]) then DropUnsafe(s[1..]) else s
  }

  lemma {:induction false} CollapseSafe(s: string)
    requires forall c <- s :: SafeChar(c)
    ensures Collapse(s) == s
  {
    if s != "" {
      assert forall c <- s[1..] :: c in s;
      CollapseSafe(s[1..]);
      assert s[0] in s && s == [s[0]] + s[1..];
    }
  }

  const DASHES: set<char> := {'-', '_'}

  function Slug(lower: Lowering, segment: string): string {
    Trim(Collapse(ToLower(lower, segment)), DASHES)
  }

  lemma SlugSafe(lower: Lowering, segment: string)
    ensures forall c <- Slug(lower, segment) :: SafeChar(c)
    ensures SLASH !in Slug(lower, segment)
  {
    var collapsed := Collapse(ToLower(lower, segment));
    TrimSubset(collapsed, DASHES, set c | c in collapsed);
  }

  /** Slugging a slug changes nothing. */
  lemma SlugIdempotent(lower: Lowering, segment: string)
    requires IsLowering(lower)
    ensures Slug(lower, Slug(lower, segment)) == Slug(lower, segment)
  {
    var slug := Slug(lower, segment);
    SlugSafe(lower, segment);
    LowerSafe(lower, slug);
    CollapseSafe(slug);
    TrimFixed(slug, DASHES);
  }

  // ----- GitLab segments -----

  /** None as soon as a segment has no safe character. */
  function Slugs(lower: Lowering, segments: seq<string>): Option<seq<string>> {
    if segments == [] then Some([])
    else if Slug(lower, segments[0]) == "" then None
    else
      match Slugs(lower, segments[1..])
      case None => None
      case Some(rest) => Some([Slug(lower, segments[0])] + rest)
  }

  predicate Segment(s: string) {
    s != "" && SLASH !in s
  }

  lemma {:induction false} SlugsAreSegments(lower: Lowering, segments: seq<string>)
    ensures Slugs(lower, segments).Some? ==>
      && |Slugs(lower, segments).value| == |segments|
      && (forall s <- Slugs(lower, segments).value :: Segment(s))
      && (forall s <- segments :: s != "")
  {
    if segments != [] {
      SlugsAreSegments(lower, segments[1..]);
      SlugSafe(lower, segments[0]);
      assert segments[0] == "" ==> Slug(lower, segments[0]) == "";
      assert segments == [segments[0]] + segments[1..];
    }
  }

  lemma {:induction false} SlugsAppend(lower: Lowering, segments: seq<string>, last: string)
    ensures Slugs(lower, segments + [last]) ==
      if Slugs(lower, segments).None? || Slug(lower, last) == "" then None
      else Some(Slugs(lower, segments).value + [Slug(lower, last)])
  {
    if segments != [] {
      assert (segments + [last])[1..] == segments[1..] + [last];
      SlugsAppend(lower, segments[1..], last);
      if Slug(lower, segments[0]) != "" && Slugs(lower, segments[1..]).Some? {
        var rest := Slugs(lower, segments[1..]).value;
        assert ([Slug(lower, segments[0])] + rest) + [Slug(lower, last)]
          == [Slug(lower, segments[0])] + (rest + [Slug(lower, last)]);
      }
    } else {
      assert segments + [last] == [last] && [last][1..] == [];
      assert [Slug(lower, last)] + [] == [] + [Slug(lower, last)];
    }
  }

  lemma {:induction false} SlugsPrefix(lower: Lowering, segments: seq<string>, i: nat)
    requires i <= |segments| && Slugs(lower, segments[..i]).None?
    ensures Slugs(lower, segments).None?
    decreases |segments| - i
  {
    if i < |segments| {
      assert segments[..i + 1] == segments[..i] + [segments[i]];
      SlugsAppend(lower, segments[..i], segments[i]);
      SlugsPrefix(lower, segments, i + 1);
    } else {
      assert segments[..i] == segments;
    }
  }

  lemma {:induction false} JoinEnds(parts: seq<string>)
    requires parts != [] && forall s <- parts :: Segment(s)
    ensures var j := Join(parts); j != "" && j[0] != SLASH && j[|j| - 1] != SLASH
  {
    assert parts[0] in parts;
    if |parts| > 1 {
      assert forall s <- parts[1..] :: s in parts;
      JoinEnds(parts[1..]);
    }
  }

  // ----- the running controller -----

  /** The path below the prefix; None for anything that is not strictly below it. */
  function RelativeGroupPath(groupPath: string, prefix: string): Option<string> {
    var g := "/" + TrimSlashes(groupPath);
    var p := "/" + TrimSlashes(prefix);
    if p == "/" then (if g != "/" then Some(TrimSlashes(g)) else None)
    else if g == p then None
    else if !HasPrefix(g, p + "/") then None
    else Some(TrimPrefix(g, p + "/"))
  }

  function TargetGroupPath(lower: Lowering, parent: string, relative: string): Option<string> {
    match Slugs(lower, Split(TrimSlashes(relative)))
    case None => None
    case Some(mapped) => Some(TrimSlashes(Join([TrimSlashes(parent), Join(mapped)])))
  }

  method MapTargetGroupPath(lower: Lowering, parent: string, relative: string) returns (r: Option<string>)
    ensures r == TargetGroupPath(lower, parent, relative)
  {
    var segments := Split(TrimSlashes(relative));
    var mapped: seq<string> := [];
    for i := 0 to |segments|
      invariant Slugs(lower, segments[..i]) == Some(mapped)
    {
      var slug := Slug(lower, segments[i]);
      assert segments[..i + 1] == segments[..i] + [segments[i]];
      SlugsAppend(lower, segments[..i], segments[i]);
      if slug == "" {
        SlugsPrefix(lower, segments, i + 1);
        return None;
      }
      mapped := mapped + [slug];
    }
    assert segments[..|segments|] == segments;
    var parts := [TrimSlashes(parent), Join(mapped)];
    r := Some(TrimSlashes(Join(parts)));
  }

  predicate VaultSegment(s: string) {
    1 <= |s| <= 63 && forall c <- s :: VaultChar(c)
  }

  function VaultSegments(lower: Lowering, segments: seq<string>): Option<seq<string>> {
    if segments == [] then Some([])
    else if !VaultSegment(segments[0]) then None
    else
      match VaultSegments(lower, segments[1..])
      case None => None
      case Some(rest) => Some([ToLower(lower, segments[0])] + rest)
  }

  lemma {:induction false} VaultConcat(lower: Lowering, a: seq<string>, b: seq<string>)
    ensures VaultSegments(lower, a + b) ==
      if VaultSegments(lower, a).None? || VaultSegments(lower, b).None? then None
      else Some(VaultSegments(lower, a).value + VaultSegments(lower, b).value)
  {
    if a == [] {
      assert a + b == b;
      assert VaultSegments(lower, b).Some? ==> [] + VaultSegments(lower, b).value == VaultSegments(lower, b).value;
    } else {
      assert (a + b)[1..] == a[1..] + b;
      VaultConcat(lower, a[1..], b);
      if VaultSegment(a[0]) && VaultSegments(lower, a[1..]).Some? && VaultSegments(lower, b).Some? {
        var x, y, z := [ToLower(lower, a[0])], VaultSegments(lower, a[1..]).value, VaultSegments(lower, b).value;
        assert (x + y) + z == x + (y + z);
      }
    }
  }

  lemma {:induction false} VaultShape(lower: Lowering, segments: seq<string>)
    requires IsLowering(lower)
    ensures VaultSegments(lower, segments).Some? <==> forall s <- segments :: VaultSegment(s)
    ensures VaultSegments(lower, segments).Some? ==>
      && |VaultSegments(lower, segments).value| == |segments|
      && (forall s <- VaultSegments(lower, segments).value :: Segment(s))
  {
    if segments != [] {
      VaultShape(lower, segments[1..]);
      assert segments == [segments[0]] + segments[1..];
      if VaultSegment(segments[0]) {
        LowerVault(lower, segments[0]);
        assert !SafeChar(SLASH);
      }
    }
  }

  /** The non-empty one of the two trimmed inputs, split. */
  function RawSegments(raw: string): seq<string> {
    if TrimSlashes(raw) == "" then [] else Split(TrimSlashes(raw))
  }

  function VaultSecretPath(lower: Lowering, parent: string, relative: string): Option<string> {
    match VaultSegments(lower, RawSegments(parent) + RawSegments(relative))
    case None => None
    case Some(parts) =>
      var r := Join(parts);
      if r == "" || |r| > 240 then None else Some(r)
  }

  /** One trimmed input, segment by segment. */
  method AppendVaultSegments(
      lower: Lowering, parts0: seq<string>, segments: seq<string>) returns (parts: Option<seq<string>>)
    ensures VaultSegments(lower, segments).None? ==> parts.None?
    ensures VaultSegments(lower, segments).Some? ==> parts == Some(parts0 + VaultSegments(lower, segments).value)
  {
    var mapped := parts0;
    for i := 0 to |segments|
      invariant VaultSegments(lower, segments[..i]).Some?
        && mapped == parts0 + VaultSegments(lower, segments[..i]).value
    {
      assert segments == segments[..i] + segments[i..] && segments[i..] == [segments[i]] + segments[i + 1..];
      VaultConcat(lower, segments[..i], segments[i..]);
      if !VaultSegment(segments[i]) {
        return None;
      }
      assert segments[..i + 1] == segments[..i] + [segments[i]];
      assert [segments[i]][1..] == [];
      VaultConcat(lower, segments[..i], [segments[i]]);
      mapped := mapped + [ToLower(lower, segments[i])];
    }
    assert segments[..|segments|] == segments;
    parts := Some(mapped);
  }

  method MapVaultSecretPath(lower: Lowering, parent: string, relative: string) returns (r: Option<string>)
    ensures r == VaultSecretPath(lower, parent, relative)
  {
    VaultConcat(lower, RawSegments(parent), RawSegments(relative));
    assert forall q: seq<string> :: [] + q == q && q + [] == q;
    var parts := Some([]);
    if TrimSlashes(parent) != "" {
      parts := AppendVaultSegments(lower, [], Split(TrimSlashes(parent)));
    }
    if parts.Some? && TrimSlashes(relative) != "" {
      parts := AppendVaultSegments(lower, parts.value, Split(TrimSlashes(relative)));
    }
    if parts.None? {
      return None;
    }
    var joined := Join(parts.value);
    if joined == "" || |joined| > 240 {
      return None;
    }
    return Some(joined);
  }

  // ----- validation -----

  /** A canonical absolute descendant of the rule's prefix. */
  predicate CanonicalPath(rule: Rule, path: string) {
    var prefix := "/" + TrimSlashes(rule.sourceGroupPrefix);
    && path != "" && path == "/" + TrimSlashes(path)
    && (prefix == "/" || HasPrefix(path, prefix + "/"))
    && !(prefix == "/" && path == "/")
  }

  function DeclaredRelative(rule: Rule, path: string): string {
    var prefix := "/" + TrimSlashes(rule.sourceGroupPrefix);
    if prefix != "/" then TrimPrefix(path, prefix + "/") else TrimPrefix(path, "/")
  }

  function DeclaredParent(kind: Kind, rule: Rule): string {
    if kind.VaultTarget? && rule.vault.Some? then rule.vault.value.pathPrefix else rule.targetParent
  }

  function DeclaredSegments(lower: Lowering, kind: Kind, segments: seq<string>): Option<seq<string>> {
    match kind
    case GitLabTarget => Slugs(lower, segments)
    case VaultTarget => VaultSegments(lower, segments)
  }

  function DeclaredTargetPath(lower: Lowering, kind: Kind, rule: Rule, path: string): Option<string> {
    match DeclaredSegments(lower, kind, Split(DeclaredRelative(rule, path)))
    case None => None
    case Some(mapped) => Some(TrimSlashes(TrimSlashes(DeclaredParent(kind, rule)) + "/" + Join(mapped)))
  }

  /** One declared segment, or None when it is unsafe for the target. */
  function DeclaredSegment(lower: Lowering, kind: Kind, s: string): Option<string> {
    match kind
    case GitLabTarget => if Slug(lower, s) == "" then None else Some(Slug(lower, s))
    case VaultTarget => if VaultSegment(s) then Some(ToLower(lower, s)) else None
  }

  lemma DeclaredAppend(lower: Lowering, kind: Kind, segments: seq<string>, last: string)
    ensures DeclaredSegments(lower, kind, segments + [last]) ==
      if DeclaredSegments(lower, kind, segments).None? || DeclaredSegment(lower, kind, last).None? then None
      else Some(DeclaredSegments(lower, kind, segments).value + [DeclaredSegment(lower, kind, last).value])
  {
    if kind.GitLabTarget? {
      SlugsAppend(lower, segments, last);
    } else {
      VaultConcat(lower, segments, [last]);
      assert [last][1..] == [];
      assert [ToLower(lower, last)] + [] == [ToLower(lower, last)];
    }
  }

  lemma {:induction false} DeclaredPrefix(lower: Lowering, kind: Kind, segments: seq<string>, i: nat)
    requires i <= |segments| && DeclaredSegments(lower, kind, segments[..i]).None?
    ensures DeclaredSegments(lower, kind, segments).None?
    decreases |segments| - i
  {
    if i < |segments| {
      assert segments[..i + 1] == segments[..i] + [segments[i]];
      DeclaredAppend(lower, kind, segments[..i], segments[i]);
      DeclaredPrefix(lower, kind, segments, i + 1);
    } else {
      assert segments[..i] == segments;
    }
  }

  method MapDeclaredTargetPath(lower: Lowering, kind: Kind, rule: Rule, path: string) returns (r: Option<string>)
    ensures r == DeclaredTargetPath(lower, kind, rule, path)
  {
    var segments := Split(DeclaredRelative(rule, path));
    var mapped: seq<string> := [];
    for i := 0 to |segments|
      invariant DeclaredSegments(lower, kind, segments[..i]) == Some(mapped)
    {
      assert segments[..i + 1] == segments[..i] + [segments[i]];
      DeclaredAppend(lower, kind, segments[..i], segments[i]);
      var one := DeclaredSegment(lower, kind, segments[i]);
      if one.None? {
        DeclaredPrefix(lower, kind, segments, i + 1);
        return None;
      }
      mapped := mapped + [one.value];
    }
    assert segments[..|segments|] == segments;
    r := Some(TrimSlashes(TrimSlashes(DeclaredParent(kind, rule)) + "/" + Join(mapped)));
  }

  /** A slash-separated path of safe non-empty segments. */
  predicate SafeVaultPath(value: string) {
    value != "" && !HasPrefix(value, "/") && value[|value| - 1] != SLASH
    && forall s <- Split(value) :: s != "" && s != "." && s != ".." && forall c <- s :: SafeChar(c)
  }

  datatype PathError =
    | NotCanonical(path: string)
    | Repeated(path: string)
    | Unmappable(path: string)
    | Collides(path: string)

  /** What the declared paths of a rule must be. */
  ghost predicate PathsAccepted(lower: Lowering, kind: Kind, rule: Rule, paths: seq<string>) {
    && (forall i :: 0 <= i < |paths| ==>
      CanonicalPath(rule, paths[i]) && DeclaredTargetPath(lower, kind, rule, paths[i]).Some?)
    && (forall i, j :: 0 <= i < j < |paths| ==> paths[i] != paths[j])
    && (forall i, j :: 0 <= i < j < |paths| ==>
          DeclaredTargetPath(lower, kind, rule, paths[i]) != DeclaredTargetPath(lower, kind, rule, paths[j]))
  }

  method CheckCanonical(rule: Rule, paths: seq<string>) returns (errs: seq<PathError>)
    ensures errs == [] <==>
      && (forall i :: 0 <= i < |paths| ==> CanonicalPath(rule, paths[i]))
      && (forall i, j :: 0 <= i < j < |paths| ==> paths[i] != paths[j])
  {
    errs := [];
    var pathSet: set<string> := {};
    for i := 0 to |paths|
      invariant forall path :: path in pathSet <==> path in paths[..i]
      invariant errs == [] <==>
        && (forall j :: 0 <= j < i ==> CanonicalPath(rule, paths[j]))
        && (forall j, k :: 0 <= j < k < i ==> paths[j] != paths[k])
    {
      if !CanonicalPath(rule, paths[i]) {
        errs := errs + [NotCanonical(paths[i])];
      }
      if paths[i] in pathSet {
        errs := errs + [Repeated(paths[i])];
      }
      pathSet := pathSet + {paths[i]};
    }
  }

  ghost predicate DistinctTargets(targets: seq<Option<string>>) {
    && (forall i :: 0 <= i < |targets| ==> targets[i].Some?)
    && (forall i, j :: 0 <= i < j < |targets| ==> targets[i] != targets[j])
  }

  /** What each path maps to, in order. */
  ghost predicate AreTargets(
      lower: Lowering, kind: Kind, rule: Rule, paths: seq<string>, targets: seq<Option<string>>)
  {
    |targets| <= |paths| && forall i :: 0 <= i < |targets| ==>
      targets[i] == DeclaredTargetPath(lower, kind, rule, paths[i])
  }

  lemma TargetsAppend(
      lower: Lowering, kind: Kind, rule: Rule, paths: seq<string>, targets: seq<Option<string>>, t: Option<string>)
    requires AreTargets(lower, kind, rule, paths, targets) && |targets| < |paths|
    requires t == DeclaredTargetPath(lower, kind, rule, paths[|targets|])
    ensures AreTargets(lower, kind, rule, paths, targets + [t])
  {
  }

  method CheckTargets(lower: Lowering, kind: Kind, rule: Rule, paths: seq<string>) returns (errs: seq<PathError>)
    ensures errs == [] <==>
      && (forall i :: 0 <= i < |paths| ==> DeclaredTargetPath(lower, kind, rule, paths[i]).Some?)
      && (forall i, j :: 0 <= i < j < |paths| ==>
            DeclaredTargetPath(lower, kind, rule, paths[i]) != DeclaredTargetPath(lower, kind, rule, paths[j]))
  {
    errs := [];
    ghost var targets: seq<Option<string>> := [];
    var declared: map<string, string> := map[];
    for i := 0 to |paths|
      invariant |targets| == i && AreTargets(lower, kind, rule, paths, targets)
      invariant Records(declared, targets)
      invariant errs == [] <==> DistinctTargets(targets)
    {
      var target := MapDeclaredTargetPath(lower, kind, rule, paths[i]);
      declared, errs := DeclareOne(paths[i], target, declared, errs, targets);
      TargetsAppend(lower, kind, rule, paths, targets, target);
      targets := targets + [target];
    }
  }

  /** Enters one mapped path, reporting it if it cannot be mapped or collides. */
  method DeclareOne(
      path: string, target: Option<string>, declared: map<string, string>, errs: seq<PathError>,
      ghost before: seq<Option<string>>)
      returns (declaredNow: map<string, string>, errsNow: seq<PathError>)
    requires Records(declared, before) && (errs == [] <==> DistinctTargets(before))
    ensures Records(declaredNow, before + [target]) && (errsNow == [] <==> DistinctTargets(before + [target]))
  {
    DistinctAppend(before, target);
    RecordsAppend(declared, before, target, path);
    if target.None? {
      return declared, errs + [Unmappable(path)];
    }
    errsNow := errs;
    if target.value in declared {
      errsNow := errsNow + [Collides(path)];
    }
    declaredNow := declared[target.value := path];
  }

  /** The declared targets so far, each with the path that declared it last. */
  ghost predicate Records(declared: map<string, string>, targets: seq<Option<string>>) {
    forall t :: t in declared <==> Some(t) in targets
  }

  lemma RecordsAppend(declared: map<string, string>, targets: seq<Option<string>>, t: Option<string>, path: string)
    requires Records(declared, targets)
    ensures t.None? ==> Records(declared, targets + [t])
    ensures t.Some? ==> Records(declared[t.value := path], targets + [t]) && (t.value in declared <==> t in targets)
  {
  }

  lemma DistinctAppend(targets: seq<Option<string>>, t: Option<string>)
    ensures DistinctTargets(targets + [t]) <==> DistinctTargets(targets) && t.Some? && t !in targets
  {
    var all := targets + [t];
    assert all[|targets|] == t;
    assert forall i :: 0 <= i < |targets| ==> all[i] == targets[i];
  }

  /** The `sourceGroupPaths` part of validation: no error exactly for an acceptable list. */
  method ValidatePaths(lower: Lowering, kind: Kind, rule: Rule, paths: seq<string>) returns (errs: seq<PathError>)
    ensures errs == [] <==> PathsAccepted(lower, kind, rule, paths)
  {
    var first := CheckCanonical(rule, paths);
    var second := CheckTargets(lower, kind, rule, paths);
    errs := first + second;
  }

  // ----- agreement -----

  lemma CanonicalRelative(rule: Rule, path: string)
    requires CanonicalPath(rule, path)
    ensures RelativeGroupPath(path, rule.sourceGroupPrefix) == Some(DeclaredRelative(rule, path))
  {
  }

  /** Trimming does nothing to a string whose segments are all non-empty. */
  lemma NoEmptySegments(s: string)
    requires forall part <- Split(s) :: part != ""
    ensures TrimSlashes(s) == s && s != ""
  {
    SplitSegments(s);
    JoinSplit(s);
    JoinEnds(Split(s));
    TrimFixed(s, {SLASH});
  }

  lemma JoinTwo(a: string, b: string)
    ensures Join([a, b]) == a + "/" + b
  {
  }

  /** Whatever GitLab path validation accepts, the controller maps to the same target. */
  lemma ValidationPredictsGitLab(lower: Lowering, rule: Rule, path: string)
    requires CanonicalPath(rule, path)
    requires DeclaredTargetPath(lower, GitLabTarget, rule, path).Some?
    ensures RelativeGroupPath(path, rule.sourceGroupPrefix).Some?
    ensures TargetGroupPath(lower, rule.targetParent, RelativeGroupPath(path, rule.sourceGroupPrefix).value)
         == DeclaredTargetPath(lower, GitLabTarget, rule, path)
  {
    var relative := DeclaredRelative(rule, path);
    CanonicalRelative(rule, path);
    SlugsAreSegments(lower, Split(relative));
    NoEmptySegments(relative);
    JoinTwo(TrimSlashes(rule.targetParent), Join(Slugs(lower, Split(relative)).value));
  }

  /** No two accepted paths of one rule are mapped to the same GitLab target. */
  lemma AcceptedPathsNeverCollide(lower: Lowering, rule: Rule, paths: seq<string>, i: nat, j: nat)
    requires PathsAccepted(lower, GitLabTarget, rule, paths) && i < j < |paths|
    ensures var a := RelativeGroupPath(paths[i], rule.sourceGroupPrefix);
      var b := RelativeGroupPath(paths[j], rule.sourceGroupPrefix);
      && a.Some? && b.Some?
      && TargetGroupPath(lower, rule.targetParent, a.value).Some?
      && TargetGroupPath(lower, rule.targetParent, a.value) != TargetGroupPath(lower, rule.targetParent, b.value)
  {
    ValidationPredictsGitLab(lower, rule, paths[i]);
    ValidationPredictsGitLab(lower, rule, paths[j]);
  }

  lemma {:induction false} VaultSafeFixed(lower: Lowering, segments: seq<string>)
    requires IsLowering(lower)
    requires forall s <- segments :: forall c <- s :: SafeChar(c)
    ensures VaultSegments(lower, segments).Some? ==> VaultSegments(lower, segments).value == segments
  {
    if segments != [] {
      assert segments[0] in segments;
      assert forall s <- segments[1..] :: s in segments;
      LowerSafe(lower, segments[0]);
      VaultSafeFixed(lower, segments[1..]);
      assert segments == [segments[0]] + segments[1..];
    }
  }

  /** A validated prefix maps to itself unless one of its segments is too long. */
  lemma VaultPrefixMapped(lower: Lowering, prefix: string)
    requires IsLowering(lower) && SafeVaultPath(prefix)
    ensures RawSegments(prefix) == Split(prefix)
    ensures VaultSegments(lower, Split(prefix)) ==
      if forall s <- Split(prefix) :: |s| <= 63 then Some(Split(prefix)) else None
  {
    NoEmptySegments(prefix);
    VaultShape(lower, Split(prefix));
    forall s | s in Split(prefix)
      ensures VaultSegment(s) <==> |s| <= 63
    {
    }
    VaultSafeFixed(lower, Split(prefix));
  }

  /** The segments of an accepted path are mapped alike in both places. */
  lemma VaultRelativeMapped(lower: Lowering, relative: string)
    requires IsLowering(lower) && VaultSegments(lower, Split(relative)).Some?
    ensures RawSegments(relative) == Split(relative)
  {
    VaultShape(lower, Split(relative));
    forall part | part in Split(relative)
      ensures part != ""
    {
      assert VaultSegment(part);
    }
    NoEmptySegments(relative);
  }

  /** Prefix and mapped segments joined are the trimmed target of validation. */
  lemma VaultJoined(prefix: string, mapped: seq<string>)
    requires SafeVaultPath(prefix) && mapped != [] && forall s <- mapped :: Segment(s)
    ensures TrimSlashes(TrimSlashes(prefix) + "/" + Join(mapped)) == Join(Split(prefix) + mapped)
    ensures Join(Split(prefix) + mapped) != ""
  {
    NoEmptySegments(prefix);
    JoinEnds(mapped);
    JoinSplit(prefix);
    JoinConcat(Split(prefix), mapped);
    TrimFixed(prefix + "/" + Join(mapped), {SLASH});
  }

  /**
   For Vault the controller checks two things validation does not: the length of
   the prefix's own segments and of the whole path. It fails exactly on those,
   and otherwise maps to the validated target.
  */
  lemma ValidationPredictsVault(lower: Lowering, rule: Rule, path: string)
    requires IsLowering(lower) && rule.vault.Some? && SafeVaultPath(rule.vault.value.pathPrefix)
    requires CanonicalPath(rule, path)
    requires DeclaredTargetPath(lower, VaultTarget, rule, path).Some?
    ensures RelativeGroupPath(path, rule.sourceGroupPrefix).Some?
    ensures var prefix := rule.vault.value.pathPrefix;
      var t := DeclaredTargetPath(lower, VaultTarget, rule, path).value;
      VaultSecretPath(lower, prefix, RelativeGroupPath(path, rule.sourceGroupPrefix).value)
        == if (forall s <- Split(prefix) :: |s| <= 63) && |t| <= 240 then Some(t) else None
  {
    var prefix := rule.vault.value.pathPrefix;
    var relative := DeclaredRelative(rule, path);
    CanonicalRelative(rule, path);
    VaultPrefixMapped(lower, prefix);
    VaultRelativeMapped(lower, relative);
    VaultShape(lower, Split(relative));
    VaultConcat(lower, Split(prefix), Split(relative));
    VaultJoined(prefix, VaultSegments(lower, Split(relative)).value);
  }

  /** Not every validated Vault path can be mapped: a prefix segment of 64 letters is accepted and then refused. */
  lemma VaultPrefixTooLong(lower: Lowering, rule: Rule)
    requires IsLowering(lower) && rule.sourceGroupPrefix == "/" && rule.vault.Some?
    requires rule.vault.value.pathPrefix == seq(64, _ => 'a')
    ensures SafeVaultPath(rule.vault.value.pathPrefix) && PathsAccepted(lower, VaultTarget, rule, ["/g"])
    ensures VaultSecretPath(lower, rule.vault.value.pathPrefix, "g").None?
  {
    var prefix := rule.vault.value.pathPrefix;
    LongPrefix(prefix);
    ShortPath(lower, rule);
    ValidationPredictsVault(lower, rule, "/g");
    assert prefix in Split(prefix);
  }

  lemma LongPrefix(prefix: string)
    requires prefix == seq(64, _ => 'a')
    ensures SafeVaultPath(prefix) && Split(prefix) == [prefix]
  {
    assert 'a' != SLASH && forall c <- prefix :: c == 'a';
    SplitPlain(prefix);
  }

  lemma ShortPath(lower: Lowering, rule: Rule)
    requires rule.sourceGroupPrefix == "/"
    ensures CanonicalPath(rule, "/g") && DeclaredTargetPath(lower, VaultTarget, rule, "/g").Some?
    ensures RelativeGroupPath("/g", rule.sourceGroupPrefix) == Some("g")
  {
    assert TrimLeft("/g", {SLASH}) == TrimLeft("/g"[1..], {SLASH}) && "/g"[1..] == "g" && TrimSlashes("g") == "g";
    assert TrimLeft("/", {SLASH}) == TrimLeft("/"[1..], {SLASH}) && "/"[1..] == "" && TrimSlashes("/") == "";
    assert CanonicalPath(rule, "/g") && DeclaredRelative(rule, "/g") == "g";
    SplitPlain("g");
    assert VaultSegment("g") && DeclaredSegments(lower, VaultTarget, ["g"]).Some?;
    CanonicalRelative(rule, "/g");
  }

  /** A mapped path lies strictly below a non-empty parent. */
  lemma MappedBelowParent(lower: Lowering, parent: string, relative: string)
    requires TargetGroupPath(lower, parent, relative).Some? && TrimSlashes(parent) != ""
    ensures var t := TargetGroupPath(lower, parent, relative).value;
      HasPrefix(t, TrimSlashes(parent) + "/") && |t| > |TrimSlashes(parent)| + 1
  {
    var segments := Split(TrimSlashes(relative));
    SlugsAreSegments(lower, segments);
    var mapped := Slugs(lower, segments).value;
    JoinEnds(mapped);
    JoinTwo(TrimSlashes(parent), Join(mapped));
    TrimFixed(TrimSlashes(parent) + "/" + Join(mapped), {SLASH});
  }

  /** A mapped path is non-empty and needs no further trimming. */
  lemma MappedTrimmed(lower: Lowering, parent: string, relative: string)
    requires TargetGroupPath(lower, parent, relative).Some?
    ensures var t := TargetGroupPath(lower, parent, relative).value; TrimSlashes(t) == t && t != ""
  {
    var segments := Split(TrimSlashes(relative));
    SlugsAreSegments(lower, segments);
    var mapped := Slugs(lower, segments).value;
    JoinEnds(mapped);
    JoinTwo(TrimSlashes(parent), Join(mapped));
    var t := TargetGroupPath(lower, parent, relative).value;
    if TrimSlashes(parent) != "" {
      MappedBelowParent(lower, parent, relative);
    } else {
      assert "" + "/" + Join(mapped) == "/" + Join(mapped);
      TrimLeadingSlash(Join(mapped));
    }
    if t != "" {
      TrimFixed(t, {SLASH});
    }
  }

  lemma TrimLeadingSlash(s: string)
    requires s != "" && s[0] != SLASH && s[|s| - 1] != SLASH
    ensures TrimSlashes("/" + s) == s
  {
    assert ("/" + s)[1..] == s;
    assert TrimLeft("/" + s, {SLASH}) == s;
  }
}

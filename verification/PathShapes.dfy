/**
 What a mapped path looks like, told from the characters alone: where a segment
 is cut, what each piece becomes, and how the pieces are put together.
*/
module PathShapes {
  import opened Wrappers
  import opened Text
  import opened Paths

  // ----- trimming and splitting -----

  predicate OnlyIn(s: string, from: nat, to: nat, cut: set<char>)
    requires from <= to <= |s|
  {
    forall n :: from <= n < to ==> s[n] in cut
  }

  /** What is cut off at either end is made of these characters, and nothing more can be cut off. */
  ghost predicate Trimmed(s: string, cut: set<char>, r: string) {
    && (r != "" ==> r[0] !in cut && r[|r| - 1] !in cut)
    && exists i, j :: TrimmedAt(s, cut, r, i, j)
  }

  predicate TrimmedAt(s: string, cut: set<char>, r: string, i: int, j: int) {
    0 <= i <= j <= |s| && r == s[i..j] && OnlyIn(s, 0, i, cut) && OnlyIn(s, j, |s|, cut)
  }

  lemma {:induction false} TrimLeftCuts(s: string, cut: set<char>) returns (i: nat)
    ensures i <= |s| && TrimLeft(s, cut) == s[i..] && OnlyIn(s, 0, i, cut)
  {
    i := 0;
    if s != "" && s[0] in cut {
      var k := TrimLeftCuts(s[1..], cut);
      i := k + 1;
      assert forall n :: 1 <= n < i ==> s[n] == s[1..][n - 1];
    }
  }

  lemma {:induction false} TrimRightCuts(s: string, cut: set<char>)
    ensures TrimRight(s, cut) <= s && OnlyIn(s, |TrimRight(s, cut)|, |s|, cut)
    decreases |s|
  {
    if s != "" && s[|s| - 1] in cut {
      TrimRightCuts(s[..|s| - 1], cut);
    }
  }

  lemma TrimCuts(s: string, cut: set<char>) returns (i: nat, j: nat)
    ensures TrimmedAt(s, cut, Trim(s, cut), i, j)
  {
    i := TrimLeftCuts(s, cut);
    var t := s[i..];
    TrimRightCuts(t, cut);
    j := i + |TrimRight(t, cut)|;
    assert forall n :: j <= n < |s| ==> s[n] == t[n - i];
  }

  /** There is one way to trim. */
  lemma TrimExactly(s: string, cut: set<char>, r: string)
    ensures Trimmed(s, cut, r) <==> r == Trim(s, cut)
  {
    var k, l := TrimCuts(s, cut);
    if Trimmed(s, cut, r) {
      var i, j :| TrimmedAt(s, cut, r, i, j);
      TrimmedOnce(s, cut, r, Trim(s, cut), i, j, k, l);
    }
  }

  lemma TrimmedOnce(s: string, cut: set<char>, r: string, t: string, i: nat, j: nat, k: nat, l: nat)
    requires TrimmedAt(s, cut, r, i, j) && TrimmedAt(s, cut, t, k, l)
    requires r != "" ==> r[0] !in cut && r[|r| - 1] !in cut
    requires t != "" ==> t[0] !in cut && t[|t| - 1] !in cut
    ensures r == t
  {
    assert r != "" ==> r[0] == s[i] && r[|r| - 1] == s[j - 1];
    assert t != "" ==> t[0] == s[k] && t[|t| - 1] == s[l - 1];
  }

  /** The pieces between slashes. */
  predicate Pieces(s: string, parts: seq<string>) {
    parts != [] && Join(parts) == s && forall part <- parts :: SLASH !in part
  }

  lemma PiecesExactly(s: string, parts: seq<string>)
    ensures Pieces(s, parts) <==> parts == Split(s)
  {
    JoinSplit(s);
    SplitSegments(s);
    if Pieces(s, parts) {
      SplitJoin(parts);
    }
  }

  // ----- runs of characters -----

  /** The character class `[a-z0-9_-]`. */
  predicate Kept(c: char) {
    c == '-' || c == '_' || '0' <= c <= '9' || 'a' <= c <= 'z'
  }

  predicate AllKept(s: string) {
    forall i :: 0 <= i < |s| ==> Kept(s[i])
  }

  predicate NoneKept(s: string) {
    forall i :: 0 <= i < |s| ==> !Kept(s[i])
  }

  /** Non-empty runs of kept and of other characters, in turn. */
  predicate Runs(runs: seq<string>) {
    runs != [] ==>
      && runs[0] != "" && (AllKept(runs[0]) || NoneKept(runs[0]))
      && (|runs| > 1 ==> AllKept(runs[0]) != AllKept(runs[1]))
      && Runs(runs[1..])
  }

  function Flatten(runs: seq<string>): string {
    if runs == [] then "" else runs[0] + Flatten(runs[1..])
  }

  /** Kept runs as they are, and one dash for each of the others. */
  function Dashed(runs: seq<string>): string {
    if runs == [] then "" else (if AllKept(runs[0]) then runs[0] else "-") + Dashed(runs[1..])
  }

  lemma {:induction false} CollapseKept(a: string, s: string)
    requires AllKept(a)
    ensures Collapse(a + s) == a + Collapse(s)
  {
    if a == "" {
      assert a + s == s;
    } else {
      CollapseKept(a[1..], s);
      assert (a + s)[0] == a[0] && (a + s)[1..] == a[1..] + s;
      assert [a[0]] + (a[1..] + Collapse(s)) == a + Collapse(s);
    }
  }

  lemma {:induction false} DropRun(a: string, s: string)
    requires NoneKept(a) && (s != "" ==> Kept(s[0]))
    ensures DropUnsafe(a + s) == s
  {
    if a == "" {
      assert a + s == s;
    } else {
      DropRun(a[1..], s);
      assert (a + s)[0] == a[0] && (a + s)[1..] == a[1..] + s;
    }
  }

  /** Each run on its own: kept, or replaced by one dash. */
  lemma {:induction false} CollapseRuns(runs: seq<string>)
    requires Runs(runs)
    ensures Collapse(Flatten(runs)) == Dashed(runs)
  {
    if runs != [] {
      var rest := Flatten(runs[1..]);
      CollapseRuns(runs[1..]);
      if AllKept(runs[0]) {
        CollapseKept(runs[0], rest);
      } else {
        assert |runs| > 1 ==> rest[0] == runs[1][0];
        DropRun(runs[0], rest);
        assert Flatten(runs)[0] == runs[0][0];
      }
    }
  }

  /** Every string is cut into runs. */
  lemma {:induction false} RunsExist(s: string) returns (runs: seq<string>)
    ensures Runs(runs) && Flatten(runs) == s
  {
    runs := [];
    if s != "" {
      var rest := RunsExist(s[1..]);
      if rest != [] && Kept(s[0]) == AllKept(rest[0]) {
        runs := Lengthened(s[0], rest);
      } else {
        runs := Prepended(s[0], rest);
      }
    }
  }

  lemma Lengthened(c: char, rest: seq<string>) returns (runs: seq<string>)
    requires Runs(rest) && rest != [] && Kept(c) == AllKept(rest[0])
    ensures Runs(runs) && Flatten(runs) == [c] + Flatten(rest)
  {
    var first := [c] + rest[0];
    runs := [first] + rest[1..];
    assert runs[1..] == rest[1..];
    OneMore(c, rest[0]);
  }

  lemma OneMore(c: char, run: string)
    ensures AllKept([c] + run) <==> Kept(c) && AllKept(run)
    ensures NoneKept([c] + run) <==> !Kept(c) && NoneKept(run)
  {
    var more := [c] + run;
    assert more[0] == c && more[1..] == run;
    assert forall i :: 0 <= i < |run| ==> run[i] == more[i + 1];
  }

  lemma Prepended(c: char, rest: seq<string>) returns (runs: seq<string>)
    requires Runs(rest) && (rest != [] ==> Kept(c) != AllKept(rest[0]))
    ensures Runs(runs) && Flatten(runs) == [c] + Flatten(rest)
  {
    runs := [[c]] + rest;
    assert runs[1..] == rest && runs[0][0] == c;
    assert AllKept(runs[0]) == Kept(c) && NoneKept(runs[0]) == !Kept(c);
  }

  // ----- one segment -----

  predicate Lowered(lower: Lowering, segment: string, s: string) {
    |s| == |segment| && forall i :: 0 <= i < |s| ==> s[i] == lower(segment[i])
  }

  lemma {:induction false} LoweredExactly(lower: Lowering, segment: string)
    ensures Lowered(lower, segment, ToLower(lower, segment))
  {
    if segment != "" {
      LoweredExactly(lower, segment[1..]);
    }
  }

  /**
   The slug of a segment: lowered, cut into runs, each run that is not kept replaced
   by one dash, and dashes and underscores trimmed off both ends.
  */
  ghost predicate IsSlug(lower: Lowering, segment: string, slug: string) {
    exists runs :: Runs(runs) && Lowered(lower, segment, Flatten(runs)) && Trimmed(Dashed(runs), {'-', '_'}, slug)
  }

  /** There is one, and it is what both mappings compute. */
  lemma SlugExactly(lower: Lowering, segment: string, slug: string)
    ensures IsSlug(lower, segment, slug) <==> slug == Slug(lower, segment)
  {
    LoweredExactly(lower, segment);
    var runs := RunsExist(ToLower(lower, segment));
    CollapseRuns(runs);
    TrimExactly(Dashed(runs), DASHES, slug);
    if IsSlug(lower, segment, slug) {
      var other :| Runs(other) && Lowered(lower, segment, Flatten(other)) && Trimmed(Dashed(other), {'-', '_'}, slug);
      assert Flatten(other) == ToLower(lower, segment);
      CollapseRuns(other);
    }
  }

  // ----- a GitLab path -----

  /** A parent without slashes at its ends, and the pieces below it. */
  function Below(parent: string, pieces: seq<string>): string {
    if parent == "" then Join(pieces) else parent + "/" + Join(pieces)
  }

  /** Piece by piece, a non-empty slug each. */
  ghost predicate AreSlugs(lower: Lowering, pieces: seq<string>, slugs: seq<string>) {
    |slugs| == |pieces| && forall i :: 0 <= i < |pieces| ==> slugs[i] != "" && IsSlug(lower, pieces[i], slugs[i])
  }

  lemma AreSlugsTail(lower: Lowering, pieces: seq<string>, slugs: seq<string>)
    requires pieces != [] && slugs != []
    ensures AreSlugs(lower, pieces, slugs) <==>
      slugs[0] != "" && IsSlug(lower, pieces[0], slugs[0]) && AreSlugs(lower, pieces[1..], slugs[1..])
  {
    if AreSlugs(lower, pieces[1..], slugs[1..]) {
      assert forall i :: 1 <= i < |pieces| ==> pieces[i] == pieces[1..][i - 1];
      assert forall i :: 1 <= i < |slugs| ==> slugs[i] == slugs[1..][i - 1];
    }
  }

  lemma {:induction false} SlugsExactly(lower: Lowering, pieces: seq<string>, slugs: seq<string>)
    ensures AreSlugs(lower, pieces, slugs) <==> Slugs(lower, pieces) == Some(slugs)
  {
    if pieces != [] && slugs != [] {
      AreSlugsTail(lower, pieces, slugs);
      SlugExactly(lower, pieces[0], slugs[0]);
      SlugsExactly(lower, pieces[1..], slugs[1..]);
      assert slugs == [slugs[0]] + slugs[1..];
    }
  }

  /** Where a source path below the prefix goes on GitLab: exactly there, or nowhere. */
  ghost predicate MapsTo(lower: Lowering, parent: string, relative: string, path: string) {
    exists top, inner, pieces, slugs ::
      && Trimmed(parent, {'/'}, top) && Trimmed(relative, {'/'}, inner)
      && Pieces(inner, pieces) && AreSlugs(lower, pieces, slugs) && path == Below(top, slugs)
  }

  lemma MapsToExactly(lower: Lowering, parent: string, relative: string, path: string)
    ensures MapsTo(lower, parent, relative, path) <==> TargetGroupPath(lower, parent, relative) == Some(path)
  {
    var top, inner := TrimSlashes(parent), TrimSlashes(relative);
    TrimExactly(parent, {'/'}, top);
    TrimExactly(relative, {'/'}, inner);
    PiecesExactly(inner, Split(inner));
    if TargetGroupPath(lower, parent, relative) == Some(path) {
      var slugs := Slugs(lower, Split(inner)).value;
      SlugsExactly(lower, Split(inner), slugs);
      JoinedBelow(lower, parent, Split(inner));
    }
    if MapsTo(lower, parent, relative, path) {
      var t, i, pieces, slugs :|
        && Trimmed(parent, {'/'}, t) && Trimmed(relative, {'/'}, i)
        && Pieces(i, pieces) && AreSlugs(lower, pieces, slugs) && path == Below(t, slugs);
      TrimExactly(parent, {'/'}, t);
      TrimExactly(relative, {'/'}, i);
      PiecesExactly(i, pieces);
      SlugsExactly(lower, pieces, slugs);
      JoinedBelow(lower, parent, pieces);
    }
  }

  /** The outer trim only drops the slash that an empty parent leaves. */
  lemma JoinedBelow(lower: Lowering, parent: string, pieces: seq<string>)
    requires pieces != [] && Slugs(lower, pieces).Some?
    ensures var slugs := Slugs(lower, pieces).value;
      TrimSlashes(Join([TrimSlashes(parent), Join(slugs)])) == Below(TrimSlashes(parent), slugs)
  {
    var slugs, top := Slugs(lower, pieces).value, TrimSlashes(parent);
    SlugsAreSegments(lower, pieces);
    JoinEnds(slugs);
    JoinTwo(top, Join(slugs));
    var joined := top + "/" + Join(slugs);
    if top == "" {
      assert joined == "/" + Join(slugs) && joined[1..] == Join(slugs);
      assert TrimLeft(joined, {SLASH}) == TrimLeft(Join(slugs), {SLASH});
      TrimFixed(Join(slugs), {SLASH});
    } else {
      assert joined[0] == top[0] && joined[|joined| - 1] == Join(slugs)[|Join(slugs)| - 1];
      TrimFixed(joined, {SLASH});
    }
  }

  lemma TeamRuns()
    ensures Runs(["team", " ", "platform"]) && Flatten(["team", " ", "platform"]) == "team platform"
    ensures Dashed(["team", " ", "platform"]) == "team-platform"
  {
    assert [" ", "platform"][1..] == ["platform"] && ["platform"][1..] == [];
    assert ["team", " ", "platform"][1..] == [" ", "platform"];
    assert " "[0] == ' ';
  }

  lemma TeamLowered(lower: Lowering)
    requires IsLowering(lower) && lower('T') == 't' && lower('P') == 'p' && lower(' ') == ' '
    ensures Lowered(lower, "Team Platform", "team platform")
  {
    forall i | 0 <= i < 13
      ensures "team platform"[i] == lower("Team Platform"[i])
    {
      if i != 0 && i != 4 && i != 5 {
        assert "team platform"[i] == "Team Platform"[i] && SafeChar("Team Platform"[i]);
      }
    }
  }

  lemma OneOfEach(lower: Lowering, source: string, slug: string)
    requires SLASH !in source && slug != "" && IsSlug(lower, source, slug)
    ensures Pieces(source, [source]) && AreSlugs(lower, [source], [slug])
  {
  }

  /** A path of one segment below a parent of one segment. */
  lemma OneSegment(lower: Lowering, parent: string, source: string, slug: string)
    requires parent != "" && source != "" && slug != "" && SLASH !in parent && SLASH !in source
    requires IsSlug(lower, source, slug)
    ensures TargetGroupPath(lower, parent, source) == Some(parent + "/" + slug)
  {
    assert parent[0] in parent && parent[|parent| - 1] in parent;
    assert source[0] in source && source[|source| - 1] in source;
    assert TrimmedAt(parent, {'/'}, parent, 0, |parent|) && TrimmedAt(source, {'/'}, source, 0, |source|);
    OneOfEach(lower, source, slug);
    assert Below(parent, [slug]) == parent + "/" + slug;
    MapsToExactly(lower, parent, source, parent + "/" + slug);
  }

  lemma TeamSlug(lower: Lowering, name: string)
    requires IsLowering(lower) && lower('T') == 't' && lower('P') == 'p' && lower(' ') == ' '
    requires name == "Team Platform"
    ensures IsSlug(lower, name, "team-platform") && SLASH !in name
  {
    TeamRuns();
    TeamLowered(lower);
    assert TrimmedAt("team-platform", {'-', '_'}, "team-platform", 0, |"team-platform"|);
  }

  /** A name with a space and capitals, below a parent. */
  lemma TeamPlatform(lower: Lowering, parent: string, name: string)
    requires IsLowering(lower) && lower('T') == 't' && lower('P') == 'p' && lower(' ') == ' '
    requires parent == "managed" && name == "Team Platform"
    ensures TargetGroupPath(lower, parent, name) == Some("managed/team-platform")
  {
    var slug := "team-platform";
    TeamSlug(lower, name);
    SlashIn(parent, slug);
    OneSegment(lower, parent, name, slug);
  }

  lemma SlashIn(parent: string, slug: string)
    requires parent == "managed" && slug == "team-platform"
    ensures parent + "/" + slug == "managed/team-platform" && SLASH !in parent
  {
  }

  // ----- a Vault path -----

  /** A Vault segment: one to 63 letters, digits, dashes and underscores. */
  predicate Plain(s: string) {
    1 <= |s| <= 63 && forall i :: 0 <= i < |s| ==> Kept(s[i]) || 'A' <= s[i] <= 'Z'
  }

  /** The pieces of a path without slashes at its ends; none of an empty one. */
  ghost predicate Parts(raw: string, parts: seq<string>) {
    exists inner :: Trimmed(raw, {'/'}, inner) && if inner == "" then parts == [] else Pieces(inner, parts)
  }

  lemma PartsExactly(raw: string, parts: seq<string>)
    ensures Parts(raw, parts) <==> parts == RawSegments(raw)
  {
    TrimExactly(raw, {'/'}, TrimSlashes(raw));
    PiecesExactly(TrimSlashes(raw), parts);
    if Parts(raw, parts) {
      var inner :| Trimmed(raw, {'/'}, inner) && if inner == "" then parts == [] else Pieces(inner, parts);
      TrimExactly(raw, {'/'}, inner);
    }
  }

  ghost predicate AreLowered(lower: Lowering, pieces: seq<string>, parts: seq<string>) {
    |parts| == |pieces| && forall i :: 0 <= i < |pieces| ==> Plain(pieces[i]) && Lowered(lower, pieces[i], parts[i])
  }

  lemma PlainExactly(s: string)
    ensures Plain(s) <==> VaultSegment(s)
  {
    if Plain(s) {
      forall c | c in s
        ensures VaultChar(c)
      {
        var i :| 0 <= i < |s| && s[i] == c;
      }
    }
    if VaultSegment(s) {
      assert forall i :: 0 <= i < |s| ==> s[i] in s;
    }
  }

  lemma {:induction false} VaultExactly(lower: Lowering, pieces: seq<string>, parts: seq<string>)
    ensures AreLowered(lower, pieces, parts) <==> VaultSegments(lower, pieces) == Some(parts)
  {
    if pieces != [] && parts != [] {
      PlainExactly(pieces[0]);
      LoweredExactly(lower, pieces[0]);
      VaultExactly(lower, pieces[1..], parts[1..]);
      AreLoweredTail(lower, pieces, parts);
      assert parts == [parts[0]] + parts[1..];
      assert Lowered(lower, pieces[0], parts[0]) <==> parts[0] == ToLower(lower, pieces[0]);
    } else if pieces != [] {
      assert !AreLowered(lower, pieces, parts);
    }
  }

  lemma AreLoweredTail(lower: Lowering, pieces: seq<string>, parts: seq<string>)
    requires pieces != [] && parts != []
    ensures AreLowered(lower, pieces, parts) <==>
      Plain(pieces[0]) && Lowered(lower, pieces[0], parts[0]) && AreLowered(lower, pieces[1..], parts[1..])
  {
    if AreLowered(lower, pieces[1..], parts[1..]) {
      assert forall i :: 1 <= i < |pieces| ==> pieces[i] == pieces[1..][i - 1];
      assert forall i :: 1 <= i < |parts| ==> parts[i] == parts[1..][i - 1];
    }
  }

  /** Where a source path goes in Vault: the prefix's pieces and its own, lowered, up to 240 characters. */
  ghost predicate VaultMapsTo(lower: Lowering, prefix: string, relative: string, path: string) {
    && 1 <= |path| <= 240
    && exists a, b, parts ::
         Parts(prefix, a) && Parts(relative, b) && AreLowered(lower, a + b, parts) && path == Join(parts)
  }

  lemma VaultMapsExactly(lower: Lowering, prefix: string, relative: string, path: string)
    ensures VaultMapsTo(lower, prefix, relative, path) <==> VaultSecretPath(lower, prefix, relative) == Some(path)
  {
    var x, y := RawSegments(prefix), RawSegments(relative);
    PartsExactly(prefix, x);
    PartsExactly(relative, y);
    if VaultSecretPath(lower, prefix, relative) == Some(path) {
      var parts := VaultSegments(lower, x + y).value;
      VaultExactly(lower, x + y, parts);
      assert AreLowered(lower, x + y, parts) && path == Join(parts);
    }
    if VaultMapsTo(lower, prefix, relative, path) {
      var a, b, parts :|
        Parts(prefix, a) && Parts(relative, b) && AreLowered(lower, a + b, parts) && path == Join(parts);
      PartsExactly(prefix, a);
      PartsExactly(relative, b);
      VaultExactly(lower, a + b, parts);
    }
  }

  // ----- below the prefix -----

  /** Strictly below the prefix, by whole segments, and what is left of the path there. */
  ghost predicate LiesBelow(path: string, prefix: string, relative: string) {
    exists p, g :: Trimmed(prefix, {'/'}, p) && Trimmed(path, {'/'}, g)
      && relative != "" && g == if p == "" then relative else p + "/" + relative
  }

  lemma RelativeExactly(path: string, prefix: string, relative: string)
    ensures LiesBelow(path, prefix, relative) <==> RelativeGroupPath(path, prefix) == Some(relative)
  {
    var g, p := TrimSlashes(path), TrimSlashes(prefix);
    TrimExactly(path, {'/'}, g);
    TrimExactly(prefix, {'/'}, p);
    RelativeOf(g, p, path, prefix, relative);
    if LiesBelow(path, prefix, relative) {
      var q, h :| Trimmed(prefix, {'/'}, q) && Trimmed(path, {'/'}, h)
        && relative != "" && h == if q == "" then relative else q + "/" + relative;
      TrimExactly(path, {'/'}, h);
      TrimExactly(prefix, {'/'}, q);
    }
  }

  lemma RelativeOf(g: string, p: string, path: string, prefix: string, relative: string)
    requires g == TrimSlashes(path) && p == TrimSlashes(prefix)
    ensures RelativeGroupPath(path, prefix) == Some(relative) <==>
      relative != "" && g == if p == "" then relative else p + "/" + relative
  {
    if p == "" {
      RelativeOfRoot(g, path);
    } else {
      RelativeOfPrefix(g, p, relative);
    }
  }

  lemma RelativeOfRoot(g: string, path: string)
    requires g == TrimSlashes(path)
    ensures TrimSlashes("/" + g) == g && ("/" + g == "/" <==> g == "")
  {
    assert ("/" + g)[1..] == g && ("/" + g)[0] == SLASH;
    assert TrimLeft("/" + g, {SLASH}) == TrimLeft(g, {SLASH});
    TrimFixed(g, {SLASH});
  }

  /** What is left after the prefix and a slash. */
  lemma RelativeOfPrefix(g: string, p: string, relative: string)
    requires p != "" && (g != "" ==> g[|g| - 1] != SLASH)
    ensures "/" + g != "/" + p && HasPrefix("/" + g, "/" + p + "/") && TrimPrefix("/" + g, "/" + p + "/") == relative
      <==> relative != "" && g == p + "/" + relative
  {
    var whole, cut := "/" + g, "/" + p + "/";
    assert whole[1..] == g;
    if HasPrefix(whole, cut) {
      var rest := whole[|cut|..];
      assert whole == cut + rest && g == p + "/" + rest;
      assert (p + "/" + rest)[|p|] == SLASH && (rest == "" ==> |g| == |p| + 1);
    }
    if g == p + "/" + relative {
      assert whole == cut + relative && whole[..|cut|] == cut && whole[|cut|..] == relative;
      assert |whole| > |"/" + p|;
    }
  }

  /** A declared path is acceptable in form if it is absolute, trimmed, and strictly below the prefix. */
  lemma CanonicalExactly(rule: Rule, path: string)
    ensures CanonicalPath(rule, path) <==>
      && (exists g :: Trimmed(path, {'/'}, g) && path == "/" + g)
      && exists relative :: LiesBelow(path, rule.sourceGroupPrefix, relative)
  {
    var g, p := TrimSlashes(path), TrimSlashes(rule.sourceGroupPrefix);
    TrimExactly(path, {'/'}, g);
    CanonicalSplit(rule, path);
    if CanonicalPath(rule, path) {
      assert RelativeGroupPath(path, rule.sourceGroupPrefix).Some?;
      RelativeExactly(path, rule.sourceGroupPrefix, RelativeGroupPath(path, rule.sourceGroupPrefix).value);
    }
    if (exists h :: Trimmed(path, {'/'}, h) && path == "/" + h)
      && exists relative :: LiesBelow(path, rule.sourceGroupPrefix, relative)
    {
      var h :| Trimmed(path, {'/'}, h) && path == "/" + h;
      TrimExactly(path, {'/'}, h);
      var relative :| LiesBelow(path, rule.sourceGroupPrefix, relative);
      RelativeExactly(path, rule.sourceGroupPrefix, relative);
    }
  }

  lemma CanonicalSplit(rule: Rule, path: string)
    ensures CanonicalPath(rule, path) <==>
      path == "/" + TrimSlashes(path) && RelativeGroupPath(path, rule.sourceGroupPrefix).Some?
  {
    var g, p := "/" + TrimSlashes(path), "/" + TrimSlashes(rule.sourceGroupPrefix);
    assert HasPrefix(g, p + "/") ==> g != p;
  }
}

/**
 When a canonical migration without faults succeeds: exactly when all mappings of
 one provider, rule and present declared path go to the same target, which then
 share one key.
*/
module MigrationSuccess {
  import opened Wrappers
  import opened Ledger
  import opened Text
  import opened Paths
  import opened Sync
  import opened Planner
  import opened PlanAccounting
  import opened Migration
  import Store

  /** What a mapping gives, and the source path it was recorded for. */
  datatype PathGrant = PathGrant(provider: Id, rule: Id, path: string, targetId: Id, targetPath: string)

  function PathGrantOf(m: GroupMapping): PathGrant {
    PathGrant(m.provider, m.rule, m.sourceGroupPath, m.targetGroupId, m.targetGroupPath)
  }

  ghost function PathGrants(groups: Bindings): set<PathGrant> {
    set k | k in groups :: PathGrantOf(groups[k])
  }

  ghost function PathsOf(sources: seq<SourceGroup>): set<string> {
    set g | g in sources :: g.path
  }

  /** A mapping keyed by a present path is recorded for that very path. */
  predicate StraightMapping(paths: set<string>, m: GroupMapping) {
    m.sourceGroupId in paths ==> m.sourceGroupPath == m.sourceGroupId
  }

  ghost predicate Straight(paths: set<string>, groups: Bindings) {
    forall k <- groups :: StraightMapping(paths, groups[k])
  }

  /** All mappings of one provider, of this rule and for this path, share their target. */
  ghost predicate Agreeing(rule: Rule, path: string, groups: Bindings) {
    forall k <- groups, l <- groups :: SameClass(rule, path, groups[k], groups[l]) ==>
      PathGrantOf(groups[k]) == PathGrantOf(groups[l])
  }

  predicate SameClass(rule: Rule, path: string, m: GroupMapping, n: GroupMapping) {
    OfRule(rule, m) && OfRule(rule, n) && m.provider == n.provider && m.sourceGroupPath == n.sourceGroupPath == path
  }

  /** That is so for every present declared path. */
  ghost predicate Mergeable(rules: seq<Rule>, sources: seq<SourceGroup>, groups: Bindings) {
    forall rule <- rules, g <- sources :: Declares(rule) && SourcePathAllowed(rule, g.path) ==>
      Agreeing(rule, g.path, groups)
  }

  predicate Intact(groups: Bindings, m: GroupMapping) {
    m.Key() in groups && groups[m.Key()] == m
  }

  /** The bindings in the middle of a migration, against the ones it began with. */
  ghost predicate Underway(paths: set<string>, start: Bindings, d: Desk) {
    && d.books.memory.WellFormed() && Straight(paths, d.books.memory.groups)
    && PathGrants(d.books.memory.groups) == PathGrants(start)
  }

  lemma SamePathGrants(a: Bindings, b: Bindings, rule: Rule, path: string)
    requires PathGrants(a) == PathGrants(b) && Agreeing(rule, path, a)
    ensures Agreeing(rule, path, b)
  {
    forall k, l | k in b && l in b && SameClass(rule, path, b[k], b[l])
      ensures PathGrantOf(b[k]) == PathGrantOf(b[l])
    {
      assert PathGrantOf(b[k]) in PathGrants(a) && PathGrantOf(b[l]) in PathGrants(a);
      var x :| x in a && PathGrantOf(a[x]) == PathGrantOf(b[k]);
      var y :| y in a && PathGrantOf(a[y]) == PathGrantOf(b[l]);
    }
  }

  /** One move of an intact legacy mapping: what it keeps, and that it finds a key that agrees. */
  lemma MoveStraight(
      paths: set<string>, start: Bindings, fault: nat -> Fault, d: Desk, rule: Rule, group: SourceGroup,
      m: GroupMapping)
    requires forall n: nat :: fault(n) == Smooth
    requires Underway(paths, start, d) && d.ok && group.path in paths
    requires Legacy(rule, group, m) && Intact(d.books.memory.groups, m)
    ensures var d1 := MoveOne(fault, d, group, m);
      && (d1.ok ==> Underway(paths, start, d1))
      && (Agreeing(rule, group.path, start) ==> d1.ok)
      && (forall n :: Intact(d.books.memory.groups, n) && n.sourceGroupId !in paths && n.Key() != m.Key() ==>
        Intact(d1.books.memory.groups, n))
  {
    var groups := d.books.memory.groups;
    var from, to := m.Key(), BindingKey(m.provider, m.rule, group.path);
    var next := Move(d.books.memory, from, group.path, group.id, group.path);
    if to in groups {
      assert groups[to].Key() == to && StraightMapping(paths, groups[to]);
      if Agreeing(rule, group.path, start) {
        SamePathGrants(start, groups, rule, group.path);
        assert PathGrantOf(groups[to]) == PathGrantOf(groups[from]);
      }
    }
    if next.Some? {
      MovedPathGrants(paths, d.books.memory, group, m);
    }
  }

  lemma MovedPathGrants(paths: set<string>, l: Ledger, group: SourceGroup, m: GroupMapping)
    requires l.WellFormed() && Straight(paths, l.groups) && group.path in paths
    requires Intact(l.groups, m) && m.sourceGroupPath == group.path && m.sourceGroupId != group.path
    requires Move(l, m.Key(), group.path, group.id, group.path).Some?
    ensures var next := Move(l, m.Key(), group.path, group.id, group.path).value;
      next.WellFormed() && Straight(paths, next.groups) && PathGrants(next.groups) == PathGrants(l.groups)
  {
    var from, to := m.Key(), BindingKey(m.provider, m.rule, group.path);
    var next := Move(l, from, group.path, group.id, group.path).value;
    assert to in next.groups && PathGrantOf(next.groups[to]) == PathGrantOf(m);
    assert to in l.groups ==>
      l.groups[to].Key() == to && StraightMapping(paths, l.groups[to]) && PathGrantOf(l.groups[to]) == PathGrantOf(m);
    forall p
      ensures p in PathGrants(next.groups) <==> p in PathGrants(l.groups)
    {
      if p in PathGrants(l.groups) {
        var k :| k in l.groups && PathGrantOf(l.groups[k]) == p;
        assert k == from || k == to || (k in next.groups && next.groups[k] == l.groups[k]);
      }
      if p in PathGrants(next.groups) {
        var k :| k in next.groups && PathGrantOf(next.groups[k]) == p;
        assert k == to || (k in l.groups && next.groups[k] == l.groups[k]);
        assert PathGrantOf(l.groups[from]) == PathGrantOf(m);
      }
    }
  }

  /** The legacy mappings among these are still where they were, each under its own key. */
  ghost predicate Waiting(rule: Rule, group: SourceGroup, groups: Bindings, rest: seq<GroupMapping>) {
    forall m <- rest :: Legacy(rule, group, m) ==> Intact(groups, m)
  }

  ghost predicate OwnKeys(rest: seq<GroupMapping>) {
    forall i, j :: 0 <= i < j < |rest| ==> rest[i].Key() != rest[j].Key()
  }

  ghost predicate AllStraight(paths: set<string>, rest: seq<GroupMapping>) {
    forall m <- rest :: StraightMapping(paths, m)
  }

  /** What moving the mappings of one group does to all the others. */
  ghost predicate Spares(paths: set<string>, rule: Rule, group: SourceGroup, a: Bindings, b: Bindings) {
    forall n :: Intact(a, n) && n.sourceGroupId !in paths && !Legacy(rule, group, n) ==> Intact(b, n)
  }

  lemma {:induction false} MappingsStraight(
      paths: set<string>, start: Bindings, fault: nat -> Fault, d: Desk, rule: Rule, group: SourceGroup,
      rest: seq<GroupMapping>)
    requires forall n: nat :: fault(n) == Smooth
    requires Underway(paths, start, d) && d.ok && group.path in paths
    requires Waiting(rule, group, d.books.memory.groups, rest) && OwnKeys(rest) && AllStraight(paths, rest)
    ensures var d1 := MoveMappings(fault, d, rule, group, rest);
      && (d1.ok ==>
            && Underway(paths, start, d1)
            && Spares(paths, rule, group, d.books.memory.groups, d1.books.memory.groups))
      && (Agreeing(rule, group.path, start) ==> d1.ok)
    decreases rest
  {
    if rest != [] {
      var m := rest[0];
      var next := if Legacy(rule, group, m) then MoveOne(fault, d, group, m) else d;
      if Legacy(rule, group, m) {
        MoveStraight(paths, start, fault, d, rule, group, m);
      }
      if next.ok {
        StillWaiting(paths, rule, group, d.books.memory.groups, next.books.memory.groups, rest);
        MappingsStraight(paths, start, fault, next, rule, group, rest[1..]);
      }
    }
  }

  lemma StillWaiting(
      paths: set<string>, rule: Rule, group: SourceGroup, a: Bindings, b: Bindings, rest: seq<GroupMapping>)
    requires rest != [] && group.path in paths && Waiting(rule, group, a, rest) && OwnKeys(rest)
      && AllStraight(paths, rest)
    requires forall n :: Intact(a, n) && n.sourceGroupId !in paths && n.Key() != rest[0].Key() ==> Intact(b, n)
    ensures Waiting(rule, group, b, rest[1..]) && OwnKeys(rest[1..]) && AllStraight(paths, rest[1..])
  {
    forall m | m in rest[1..] && Legacy(rule, group, m)
      ensures Intact(b, m)
    {
      var i :| 0 <= i < |rest[1..]| && rest[1..][i] == m;
      assert rest[i + 1] == m && m in rest;
    }
  }

  ghost predicate AllWaiting(rule: Rule, groups: seq<SourceGroup>, bindings: Bindings, mappings: seq<GroupMapping>) {
    forall g <- groups :: Waiting(rule, g, bindings, mappings)
  }

  ghost predicate OwnPaths(groups: seq<SourceGroup>) {
    forall i, j :: 0 <= i < j < |groups| ==> groups[i].path != groups[j].path
  }

  /** What moving everything of one rule does to all other rules. */
  ghost predicate SparesRules(paths: set<string>, rule: Rule, a: Bindings, b: Bindings) {
    forall n :: Intact(a, n) && n.sourceGroupId !in paths && n.rule != rule.name ==> Intact(b, n)
  }

  lemma {:induction false} GroupsStraight(
      paths: set<string>, start: Bindings, fault: nat -> Fault, d: Desk, rule: Rule, groups: seq<SourceGroup>,
      mappings: seq<GroupMapping>)
    requires forall n: nat :: fault(n) == Smooth
    requires Underway(paths, start, d) && d.ok && PathsOf(groups) <= paths && OwnPaths(groups)
    requires AllWaiting(rule, groups, d.books.memory.groups, mappings) && OwnKeys(mappings)
      && AllStraight(paths, mappings)
    ensures var d1 := MoveGroups(fault, d, rule, groups, mappings);
      && (d1.ok ==>
            && Underway(paths, start, d1)
            && SparesRules(paths, rule, d.books.memory.groups, d1.books.memory.groups))
      && ((forall g <- groups :: SourcePathAllowed(rule, g.path) ==> Agreeing(rule, g.path, start)) ==> d1.ok)
    decreases groups
  {
    if groups != [] {
      var g := groups[0];
      var next := if SourcePathAllowed(rule, g.path) then MoveMappings(fault, d, rule, g, mappings) else d;
      assert g in groups && g.path in PathsOf(groups);
      if SourcePathAllowed(rule, g.path) {
        MappingsStraight(paths, start, fault, d, rule, g, mappings);
      }
      if next.ok {
        assert PathsOf(groups[1..]) <= PathsOf(groups);
        OthersWaiting(paths, rule, groups, d.books.memory.groups, next.books.memory.groups, mappings);
        GroupsStraight(paths, start, fault, next, rule, groups[1..], mappings);
      }
    }
  }

  lemma OthersWaiting(
      paths: set<string>, rule: Rule, groups: seq<SourceGroup>, a: Bindings, b: Bindings, mappings: seq<GroupMapping>)
    requires groups != [] && PathsOf(groups) <= paths && OwnPaths(groups)
    requires AllWaiting(rule, groups, a, mappings) && AllStraight(paths, mappings)
      && Spares(paths, rule, groups[0], a, b)
    ensures AllWaiting(rule, groups[1..], b, mappings)
  {
    forall g, m | g in groups[1..] && m in mappings && Legacy(rule, g, m)
      ensures Intact(b, m)
    {
      var i :| 0 <= i < |groups[1..]| && groups[1..][i] == g;
      assert groups[i + 1] == g && g in groups && g.path in PathsOf(groups);
    }
  }

  ghost predicate RulesWaiting(
      rules: seq<Rule>, groups: seq<SourceGroup>, bindings: Bindings, mappings: seq<GroupMapping>)
  {
    forall rule <- rules :: AllWaiting(rule, groups, bindings, mappings)
  }

  lemma {:induction false} RulesStraight(
      paths: set<string>, start: Bindings, fault: nat -> Fault, d: Desk, rules: seq<Rule>, groups: seq<SourceGroup>,
      mappings: seq<GroupMapping>)
    requires forall n: nat :: fault(n) == Smooth
    requires Underway(paths, start, d) && d.ok && PathsOf(groups) <= paths && OwnPaths(groups) && UniqueNames(rules)
    requires RulesWaiting(rules, groups, d.books.memory.groups, mappings) && OwnKeys(mappings)
      && AllStraight(paths, mappings)
    ensures var d1 := MoveRules(fault, d, rules, groups, mappings);
      && (d1.ok ==> Underway(paths, start, d1))
      && (Mergeable(rules, groups, start) ==> d1.ok)
    decreases rules
  {
    if rules != [] {
      var rule := rules[0];
      var next := if Declares(rule) then MoveGroups(fault, d, rule, groups, mappings) else d;
      assert rule in rules;
      if Declares(rule) {
        GroupsStraight(paths, start, fault, d, rule, groups, mappings);
      }
      if next.ok {
        OtherRulesWaiting(paths, rules, groups, d.books.memory.groups, next.books.memory.groups, mappings);
        RulesStraight(paths, start, fault, next, rules[1..], groups, mappings);
      }
    }
  }

  lemma OtherRulesWaiting(
      paths: set<string>, rules: seq<Rule>, groups: seq<SourceGroup>, a: Bindings, b: Bindings,
      mappings: seq<GroupMapping>)
    requires rules != [] && PathsOf(groups) <= paths && UniqueNames(rules)
    requires RulesWaiting(rules, groups, a, mappings) && AllStraight(paths, mappings)
      && SparesRules(paths, rules[0], a, b)
    ensures RulesWaiting(rules[1..], groups, b, mappings) && UniqueNames(rules[1..])
  {
    forall rule, g, m | rule in rules[1..] && g in groups && m in mappings && Legacy(rule, g, m)
      ensures Intact(b, m)
    {
      var i :| 0 <= i < |rules[1..]| && rules[1..][i] == rule;
      assert rules[i + 1] == rule && rule in rules && AllWaiting(rule, groups, a, mappings)
        && Waiting(rule, g, a, mappings);
      assert g.path in PathsOf(groups);
    }
  }

  /** One key per provider, rule and path once no legacy key is left. */
  lemma MigratedAgrees(groups: Bindings, sources: seq<SourceGroup>, rules: seq<Rule>)
    requires Migrated(groups, sources, rules) && KeysAgree(groups)
    ensures Mergeable(rules, sources, groups)
  {
    forall rule, g, k, l | rule in rules && g in sources && Declares(rule) && SourcePathAllowed(rule, g.path)
        && k in groups && l in groups && SameClass(rule, g.path, groups[k], groups[l])
      ensures k == l
    {
      assert !Legacy(rule, g, groups[k]) && !Legacy(rule, g, groups[l]);
      assert groups[k].Key() == k && groups[l].Key() == l;
    }
  }

  /**
   Without faults, for distinct source paths and unique rule names, and with no
   legacy key that is itself a present path: a migration succeeds if and only if
   the mappings of each provider, rule and present declared path share one target.
  */
  lemma MigrationSucceedsExactly(
      fault: nat -> Fault, books: Books, tick: nat, sources: seq<SourceGroup>, rules: seq<Rule>)
    requires books.memory.WellFormed() && forall n: nat :: fault(n) == Smooth
    requires OwnPaths(sources) && UniqueNames(rules) && Straight(PathsOf(sources), books.memory.groups)
    ensures Migrate(fault, books, tick, sources, rules).ok <==> Mergeable(rules, sources, books.memory.groups)
  {
    var start, paths, mappings := books.memory.groups, PathsOf(sources), Listing(books.memory.groups);
    forall m | m in mappings
      ensures Intact(start, m) && StraightMapping(paths, m)
    {
      assert m in start.Values;
    }
    ListingKeys(start);
    RulesStraight(paths, start, fault, Desk(books, tick, true), rules, sources, mappings);
    var d := Migrate(fault, books, tick, sources, rules);
    if d.ok {
      MigrationConserves(fault, books, tick, sources, rules);
      MigratedAgrees(d.books.memory.groups, sources, rules);
      forall rule, g | rule in rules && g in sources && Declares(rule) && SourcePathAllowed(rule, g.path)
        ensures Agreeing(rule, g.path, start)
      {
        SamePathGrants(d.books.memory.groups, start, rule, g.path);
      }
    }
  }

  lemma ListingKeys(groups: Bindings)
    requires KeysAgree(groups)
    ensures OwnKeys(Listing(groups))
  {
    var s := Listing(groups);
    forall i, j | 0 <= i < j < |s|
      ensures s[i].Key() != s[j].Key()
    {
      TupleTotal(Store.MappingIds(s[i]), Store.MappingIds(s[j]));
    }
  }

  /** And then two legacy keys of one target, provider, rule and path have become one. */
  lemma MergedIntoOne(
      fault: nat -> Fault, books: Books, tick: nat, sources: seq<SourceGroup>, rules: seq<Rule>, rule: Rule,
      g: SourceGroup, k: BindingKey, l: BindingKey)
    requires books.memory.WellFormed() && Migrate(fault, books, tick, sources, rules).ok
    requires rule in rules && g in sources && Declares(rule) && SourcePathAllowed(rule, g.path)
    ensures var groups := Migrate(fault, books, tick, sources, rules).books.memory.groups;
      k in groups && l in groups && SameClass(rule, g.path, groups[k], groups[l]) ==> k == l && k.source == g.path
  {
    MigrationConserves(fault, books, tick, sources, rules);
  }

  lemma {:induction false} OneMoveFails(
      fault: nat -> Fault, d: Desk, rule: Rule, g: SourceGroup, rest: seq<GroupMapping>, m: GroupMapping)
    requires m in rest && Legacy(rule, g, m) && forall n <- rest :: Legacy(rule, g, n) ==> n == m
    requires Move(d.books.memory, m.Key(), g.path, g.id, g.path).None?
    ensures !MoveMappings(fault, d, rule, g, rest).ok
    decreases rest
  {
    if d.ok && !Legacy(rule, g, rest[0]) {
      OneMoveFails(fault, d, rule, g, rest[1..], m);
    }
  }

  /**
   Why no legacy key may itself be a present path: a mapping for another path that
   is keyed by this one stands in the way, though no two mappings disagree.
  */
  lemma CrossedKeyFails(
      fault: nat -> Fault, books: Books, tick: nat, rule: Rule, g: SourceGroup, m: GroupMapping, n: GroupMapping)
    requires Declares(rule) && SourcePathAllowed(rule, g.path) && Legacy(rule, g, m)
    requires n.sourceGroupId == g.path != n.sourceGroupPath && n.provider == m.provider && n.rule == m.rule
    requires books.memory.groups == map[m.Key() := m, n.Key() := n]
    requires m.targetGroupPath != n.targetGroupPath
    ensures Mergeable([rule], [g], books.memory.groups) && !Straight(PathsOf([g]), books.memory.groups)
    ensures !Migrate(fault, books, tick, [g], [rule]).ok
  {
    var groups := books.memory.groups;
    assert m.Key() != n.Key() && groups[m.Key()] == m && groups[n.Key()] == n;
    assert !StraightMapping(PathsOf([g]), groups[n.Key()]);
    assert groups.Values == {m, n} && m in groups.Values;
    assert g in [g] && g.path in PathsOf([g]);
    OneMoveFails(fault, Desk(books, tick, true), rule, g, Listing(groups), m);
    var d := MoveMappings(fault, Desk(books, tick, true), rule, g, Listing(groups));
    assert [g][1..] == [] && [rule][1..] == [];
    assert MoveGroups(fault, Desk(books, tick, true), rule, [g], Listing(groups)) == d;
    assert MoveRules(fault, Desk(books, tick, true), [rule], [g], Listing(groups)) == d;
  }
}

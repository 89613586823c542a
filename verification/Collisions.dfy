/**
 When a targeted plan reports that a target is taken: the mappings are walked
 once, in key order, and a source's own mapping only counts from where it stands.
*/
module Collisions {
  import opened Wrappers
  import opened Ledger
  import opened Text
  import opened Paths
  import opened Sync
  import opened Planner
  import opened PlanAccounting
  import Store

  /** Another source of the rule. */
  predicate Other(rule: Rule, key: Id, m: GroupMapping) {
    OfRule(rule, m) && m.sourceGroupId != key
  }

  /** The target aimed at once the first `i` mappings have been seen. */
  function TargetAfter(rule: Rule, key: Id, target: string, mappings: seq<GroupMapping>, i: nat): string
    requires i <= |mappings|
  {
    if i == 0 then target
    else if Own(rule, key, mappings[i - 1]) then mappings[i - 1].targetGroupPath
    else TargetAfter(rule, key, target, mappings, i - 1)
  }

  lemma {:induction false} TargetAfterTail(rule: Rule, key: Id, target: string, mappings: seq<GroupMapping>, i: nat)
    requires i < |mappings|
    ensures TargetAfter(rule, key, target, mappings, i + 1)
      == TargetAfter(rule, key, if Own(rule, key, mappings[0]) then mappings[0].targetGroupPath
        else target, mappings[1..], i)
  {
    if i > 0 {
      TargetAfterTail(rule, key, target, mappings, i - 1);
    }
  }

  /** The `i`-th mapping is another source's, at the target aimed at by then. */
  predicate CollidesAt(rule: Rule, key: Id, target: string, mappings: seq<GroupMapping>, i: nat)
    requires i < |mappings|
  {
    Other(rule, key, mappings[i]) && mappings[i].targetGroupPath == TargetAfter(rule, key, target, mappings, i)
  }

  /** A targeted walk reports a collision exactly at such mappings. */
  lemma {:induction false} AimCollides(rule: Rule, key: Id, a: Aim, mappings: seq<GroupMapping>)
    requires rule.vault.None?
    ensures AimAll(rule, key, false, a, mappings).collisions != [] <==>
      a.collisions != [] || exists i :: 0 <= i < |mappings| && CollidesAt(rule, key, a.target, mappings, i)
    decreases mappings
  {
    if mappings != [] {
      var next := AimAt(rule, key, false, a, mappings[0]);
      AimCollides(rule, key, next, mappings[1..]);
      forall i | 0 <= i < |mappings| - 1
        ensures CollidesAt(rule, key, a.target, mappings, i + 1) <==>
          CollidesAt(rule, key, next.target, mappings[1..], i)
      {
        TargetAfterTail(rule, key, a.target, mappings, i);
      }
      assert CollidesAt(rule, key, a.target, mappings, 0) <==> next.collisions != a.collisions;
      if i :| 0 <= i < |mappings| && CollidesAt(rule, key, a.target, mappings, i) && i > 0 {
        assert CollidesAt(rule, key, next.target, mappings[1..], i - 1);
      }
    }
  }

  // ----- on the ledger -----

  /** Another source holds the freshly mapped path, and sorts before the source if that one is bound itself. */
  ghost predicate Blocks(rule: Rule, key: Id, target: string, groups: Bindings, m: GroupMapping) {
    && Other(rule, key, m) && m.targetGroupPath == target
    && forall own <- groups.Values :: Own(rule, key, own) ==> Less(m.sourceGroupId, key)
  }

  lemma KeysByValue(groups: Bindings, m: GroupMapping, n: GroupMapping)
    requires KeysAgree(groups) && m in groups.Values && n in groups.Values
    ensures m.Key() in groups && groups[m.Key()] == m && n.Key() in groups && groups[n.Key()] == n
  {
  }

  /** Two mappings of the rule are listed in the order of their sources. */
  lemma ListedBySource(rule: Rule, groups: Bindings, i: nat, j: nat)
    requires KeysAgree(groups) && OneFingerprint(rule, groups)
    requires i < |Listing(groups)| && j < |Listing(groups)| && OfRule(rule, Listing(groups)[i])
      && OfRule(rule, Listing(groups)[j])
    ensures i < j ==> Less(Listing(groups)[i].sourceGroupId, Listing(groups)[j].sourceGroupId)
  {
    var ms := Listing(groups);
    assert ms[i] in groups.Values && ms[j] in groups.Values;
    KeysByValue(groups, ms[i], ms[j]);
    LastDecides(ms[i].provider, ms[i].rule, ms[i].sourceGroupId, ms[j].sourceGroupId);
  }

  /** Tuples that differ only in the last place. */
  lemma LastDecides(x: string, y: string, a: string, b: string)
    ensures TupleLess([x, y, a], [x, y, b]) <==> Less(a, b)
  {
    assert [x, y, a][1..] == [y, a] && [x, y, b][1..] == [y, b] && [y, a][1..] == [a] && [y, b][1..] == [b];
    assert TupleLess([x, y, a], [x, y, b]) == TupleLess([y, a], [y, b]) == TupleLess([a], [b]);
    assert [a][1..] == [] && [b][1..] == [] && !TupleLess([], []);
    LessTotal(a, b);
  }

  /** Before the source's own mapping, or without one, the freshly mapped path stays the aim. */
  lemma {:induction false} TargetStays(rule: Rule, key: Id, target: string, mappings: seq<GroupMapping>, i: nat)
    requires i <= |mappings| && forall j :: 0 <= j < i ==> !Own(rule, key, mappings[j])
    ensures TargetAfter(rule, key, target, mappings, i) == target
  {
    if i > 0 {
      TargetStays(rule, key, target, mappings, i - 1);
    }
  }

  /** Otherwise it is the target of some own mapping seen. */
  lemma {:induction false} TargetOwned(rule: Rule, key: Id, target: string, mappings: seq<GroupMapping>, i: nat, j: nat)
    requires j < i <= |mappings| && Own(rule, key, mappings[j])
    ensures exists n ::
      && 0 <= n < i && Own(rule, key, mappings[n])
      && TargetAfter(rule, key, target, mappings, i) == mappings[n].targetGroupPath
  {
    if !Own(rule, key, mappings[i - 1]) {
      TargetOwned(rule, key, target, mappings, i - 1, j);
    }
  }

  /**
   Exactly when a targeted plan is refused for a collision: another source holds the
   freshly mapped path, and comes first in key order if the source is bound itself.
   So an unbound source is refused exactly when its path is taken, but a bound one
   is refused although its own target stands, by the accident of the order.
  */
  lemma TargetedCollision(rule: Rule, key: Id, target: string, groups: Bindings)
    requires rule.vault.None? && KeysAgree(groups) && OneFingerprint(rule, groups) && Injective(rule, groups)
    ensures AimAll(rule, key, false, Aim(target, []), Listing(groups)).collisions != [] <==>
      exists m <- groups.Values :: Blocks(rule, key, target, groups, m)
  {
    var ms := Listing(groups);
    AimCollides(rule, key, Aim(target, []), ms);
    if i :| 0 <= i < |ms| && CollidesAt(rule, key, target, ms, i) {
      CollisionBlocks(rule, key, target, groups, i);
    }
    if m :| m in groups.Values && Blocks(rule, key, target, groups, m) {
      BlockCollides(rule, key, target, groups, m);
    }
  }

  lemma CollisionBlocks(rule: Rule, key: Id, target: string, groups: Bindings, i: nat)
    requires KeysAgree(groups) && OneFingerprint(rule, groups) && Injective(rule, groups)
    requires i < |Listing(groups)| && CollidesAt(rule, key, target, Listing(groups), i)
    ensures Listing(groups)[i] in groups.Values && Blocks(rule, key, target, groups, Listing(groups)[i])
  {
    var ms := Listing(groups);
    assert ms[i] in groups.Values;
    forall n | 0 <= n < |ms| && Own(rule, key, ms[n])
      ensures ms[n].targetGroupPath != ms[i].targetGroupPath
    {
      assert ms[n] in groups.Values;
      KeysByValue(groups, ms[n], ms[i]);
    }
    forall j | 0 <= j < i
      ensures !Own(rule, key, ms[j])
    {
      if Own(rule, key, ms[j]) {
        TargetOwned(rule, key, target, ms, i, j);
      }
    }
    TargetStays(rule, key, target, ms, i);
    forall own | own in groups.Values && Own(rule, key, own)
      ensures Less(ms[i].sourceGroupId, key)
    {
      var j :| 0 <= j < |ms| && ms[j] == own;
      ListedBySource(rule, groups, i, j);
    }
  }

  lemma BlockCollides(rule: Rule, key: Id, target: string, groups: Bindings, m: GroupMapping)
    requires KeysAgree(groups) && OneFingerprint(rule, groups)
    requires m in groups.Values && Blocks(rule, key, target, groups, m)
    ensures exists i :: 0 <= i < |Listing(groups)| && CollidesAt(rule, key, target, Listing(groups), i)
  {
    var ms := Listing(groups);
    assert m in ms;
    var i :| 0 <= i < |ms| && ms[i] == m;
    forall j | 0 <= j < i
      ensures !Own(rule, key, ms[j])
    {
      assert ms[j] in groups.Values;
      if Own(rule, key, ms[j]) {
        ListedBySource(rule, groups, j, i);
        LessTotal(key, m.sourceGroupId);
      }
    }
    TargetStays(rule, key, target, ms, i);
    assert CollidesAt(rule, key, target, ms, i);
  }

  // ----- what becomes of the plan -----

  lemma {:induction false} RulesErrsGrow(
      reg: Registry, mappings: seq<GroupMapping>, complete: bool, membershipsOnly: bool, pl: Plan, group: SourceGroup,
      rules: seq<Rule>)
    ensures pl.errs <= PlanRules(reg, mappings, complete, membershipsOnly, pl, group, rules).errs
    decreases rules
  {
    if rules != [] {
      var next := PlanLive(reg, mappings, complete, membershipsOnly, pl, group, rules[0]);
      LiveErrsGrow(reg, mappings, complete, membershipsOnly, pl, group, rules[0]);
      RulesErrsGrow(reg, mappings, complete, membershipsOnly, next, group, rules[1..]);
    }
  }

  lemma LiveErrsGrow(
      reg: Registry, mappings: seq<GroupMapping>, complete: bool, membershipsOnly: bool, pl: Plan, group: SourceGroup,
      rule: Rule)
    ensures pl.errs <= PlanLive(reg, mappings, complete, membershipsOnly, pl, group, rule).errs
  {
    var relative := RelativeGroupPath(group.path, rule.sourceGroupPrefix);
    if relative.Some? && FreshPath(reg, rule, relative.value).Some? {
      var key := SourceStateKey(rule, group);
      var aim := AimAll(rule, key, complete, Aim(FreshPath(reg, rule, relative.value).value, []), mappings);
      RegisterErrsGrow(reg, pl.(errs := pl.errs + aim.collisions), group, rule, key, aim.target);
    }
  }

  lemma RegisterErrsGrow(reg: Registry, pl: Plan, group: SourceGroup, rule: Rule, key: Id, target: string)
    ensures pl.errs <= Register(reg, pl, group, rule, key, target).errs
  {
  }

  /** The group falls under this rule, at this freshly mapped path. */
  predicate MapsTo(reg: Registry, rule: Rule, group: SourceGroup, target: string) {
    var relative := RelativeGroupPath(group.path, rule.sourceGroupPrefix);
    rule.vault.None? && relative.Some? && SourcePathAllowed(rule, group.path)
      && FreshPath(reg, rule, relative.value) == Some(target)
  }

  /** A targeted plan of a blocked source fails as a whole. */
  lemma {:induction false} BlockedPlanFails(
      reg: Registry, groups: Bindings, membershipsOnly: bool, pl: Plan, group: SourceGroup, rules: seq<Rule>,
      rule: Rule, target: string)
    requires rule in rules && MapsTo(reg, rule, group, target) && KeysAgree(groups)
    requires AimAll(rule, SourceStateKey(rule, group), false, Aim(target, []), Listing(groups)).collisions != []
    ensures PlanRules(reg, Listing(groups), false, membershipsOnly, pl, group, rules).errs != []
    decreases rules
  {
    var next := PlanLive(reg, Listing(groups), false, membershipsOnly, pl, group, rules[0]);
    if rules[0] == rule {
      RulesErrsGrow(reg, Listing(groups), false, membershipsOnly, next, group, rules[1..]);
    } else {
      BlockedPlanFails(reg, groups, membershipsOnly, next, group, rules[1..], rule, target);
    }
  }

  /**
   A renamed source: bound to its own target, it is refused by every targeted plan
   as long as another source that sorts before it holds the path of its new name.
  */
  lemma RenamedSourceRefused(
      reg: Registry, groups: Bindings, membershipsOnly: bool, group: SourceGroup, rules: seq<Rule>, rule: Rule,
      target: string, m: GroupMapping)
    requires rule in rules && MapsTo(reg, rule, group, target)
    requires KeysAgree(groups) && OneFingerprint(rule, groups) && Injective(rule, groups)
    requires m in groups.Values && Blocks(rule, SourceStateKey(rule, group), target, groups, m)
    ensures MakePlan(reg, Listing(groups), false, membershipsOnly, [group], rules).errs != []
  {
    TargetedCollision(rule, SourceStateKey(rule, group), target, groups);
    BlockedPlanFails(reg, groups, membershipsOnly, NO_PLAN, group, rules, rule, target);
    OneGroupPlan(reg, Listing(groups), membershipsOnly, group, rules);
  }

  lemma OneGroupPlan(
      reg: Registry, mappings: seq<GroupMapping>, membershipsOnly: bool, group: SourceGroup, rules: seq<Rule>)
    ensures MakePlan(reg, mappings, false, membershipsOnly, [group], rules)
      == PlanRules(reg, mappings, false, membershipsOnly, NO_PLAN, group, rules)
  {
    var pl := PlanRules(reg, mappings, false, membershipsOnly, NO_PLAN, group, rules);
    assert [group][1..] == [] && PlanGroups(reg, mappings, false, membershipsOnly, pl, [], rules) == pl;
  }

  // ----- its smallest form -----

  const RENAMED_RULE := Rule("r", "/", None, "gl", "p", false, false, "developer", "managed-only", [], 1, ["oidc"],
    false, None)
  const FIRST := GroupMapping("gl@x", "r", "1", "1", "/a", "11", "p/a", false)
  const SECOND := GroupMapping("gl@x", "r", "2", "2", "/b", "12", "p/b", false)
  /** Since they were bound, the first was renamed away and the second took its name. */
  const FIRST_NOW := SourceGroup("1", "c", "/c", [])
  const SECOND_NOW := SourceGroup("2", "a", "/a", [])

  ghost function BothBound(): Bindings {
    map[FIRST.Key() := FIRST, SECOND.Key() := SECOND]
  }

  lemma OneLetter(lower: Lowering, c: char)
    requires IsLowering(lower) && 'a' <= c <= 'z'
    ensures RelativeGroupPath(['/', c], "/") == Some([c]) && TargetGroupPath(lower, "p", [c]) == Some("p/" + [c])
  {
    assert TrimLeft(['/', c], {SLASH}) == TrimLeft(['/', c][1..], {SLASH}) && ['/', c][1..] == [c];
    assert TrimSlashes([c]) == [c] && TrimSlashes("p") == "p" && TrimSlashes("") == "";
    assert TrimLeft("/", {SLASH}) == TrimLeft("/"[1..], {SLASH}) && "/"[1..] == "";
    assert "/" + [c] == ['/', c];
    SplitPlain([c]);
    LowerSafe(lower, [c]);
    CollapseSafe([c]);
    assert Slug(lower, [c]) == [c];
    assert [[c]][1..] == [] && Slugs(lower, [[c]]) == Some([[c]]) && Join([[c]]) == [c];
    JoinTwo("p", [c]);
    assert "p" + "/" + [c] == "p/" + [c];
    TrimFixed("p/" + [c], {SLASH});
    assert TargetGroupPath(lower, "p", [c]) == Some(TrimSlashes(Join(["p", [c]])));
  }

  lemma BothApart()
    ensures KeysAgree(BothBound()) && OneFingerprint(RENAMED_RULE, BothBound()) && Injective(RENAMED_RULE, BothBound())
    ensures BothBound().Values == {FIRST, SECOND}
  {
    var groups := BothBound();
    assert FIRST.Key().source == "1" && SECOND.Key().source == "2" && "1"[0] != "2"[0];
    assert groups[FIRST.Key()] == FIRST && groups[SECOND.Key()] == SECOND;
    assert FIRST in groups.Values && SECOND in groups.Values;
    assert FIRST.targetGroupPath[2] == 'a' && SECOND.targetGroupPath[2] == 'b';
  }

  /** The ledger both are bound in, and the order it is walked in. */
  lemma BothListed()
    ensures KeysAgree(BothBound()) && Listing(BothBound()) == [FIRST, SECOND]
    ensures OneFingerprint(RENAMED_RULE, BothBound()) && Injective(RENAMED_RULE, BothBound())
  {
    BothApart();
    var groups := BothBound();
    assert Less("1", "2");
    LastDecides("gl@x", "r", "1", "2");
    Store.ListingUnique(Listing(groups), [FIRST, SECOND], groups.Values, Store.MappingIds);
  }

  lemma AimBoth(key: Id, complete: bool, target: string)
    ensures var aim := AimAll(RENAMED_RULE, key, complete, Aim(target, []), [FIRST, SECOND]);
      aim == AimAt(RENAMED_RULE, key, complete, AimAt(RENAMED_RULE, key, complete, Aim(target, []), FIRST), SECOND)
  {
    var next := AimAt(RENAMED_RULE, key, complete, Aim(target, []), FIRST);
    var last := AimAt(RENAMED_RULE, key, complete, next, SECOND);
    assert [FIRST, SECOND][1..] == [SECOND] && [SECOND][1..] == [];
    assert AimAll(RENAMED_RULE, key, complete, next, [SECOND]) == AimAll(RENAMED_RULE, key, complete, last, []) == last;
  }

  lemma AimsOfBoth()
    ensures AimAll(RENAMED_RULE, "1", true, Aim("p/c", []), [FIRST, SECOND]) == Aim("p/a", [])
    ensures AimAll(RENAMED_RULE, "2", true, Aim("p/a", []), [FIRST, SECOND]) == Aim("p/b", [])
    ensures AimAll(RENAMED_RULE, "2", false, Aim("p/a", []), [FIRST, SECOND]) == Aim("p/b", [TargetTaken])
  {
    AimBoth("1", true, "p/c");
    AimBoth("2", true, "p/a");
    AimBoth("2", false, "p/a");
    assert "gl@x"[..3] == "gl@" && OfRule(RENAMED_RULE, FIRST) && OfRule(RENAMED_RULE, SECOND);
    assert "1"[0] != "2"[0] && "p/a"[2] != "p/b"[2] && "p/a"[2] != "p/c"[2];
  }

  /** One of the two under the rule, as planning sees it. */
  lemma PlanOneOf(
      reg: Registry, complete: bool, membershipsOnly: bool, pl: Plan, group: SourceGroup, c: char, target: string,
      collisions: seq<PlanError>)
    requires IsLowering(reg.lower) && "gl" in reg.backends && reg.backends["gl"].GitLabBackend? && 'a' <= c <= 'z'
    requires group.path == ['/', c] && Claim("gl", target) !in pl.owners
    requires AimAll(RENAMED_RULE, group.id, complete, Aim("p/" + [c], []), [FIRST, SECOND]) == Aim(target, collisions)
    ensures PlanRules(reg, [FIRST, SECOND], complete, membershipsOnly, pl, group, [RENAMED_RULE])
      == Plan(pl.jobs + [GroupJob("gl", LiveRequest(RENAMED_RULE, group.id, group, target), None)],
        pl.owners + {Claim("gl", target)},
              pl.present + {("r", group.id)}, pl.errs + collisions)
  {
    OneLetter(reg.lower, c);
    var next := PlanLive(reg, [FIRST, SECOND], complete, membershipsOnly, pl, group, RENAMED_RULE);
    assert [RENAMED_RULE][1..] == []
      && PlanRules(reg, [FIRST, SECOND], complete, membershipsOnly, next, group, []) == next;
  }

  const FIRST_JOB := GroupJob("gl", LiveRequest(RENAMED_RULE, "1", FIRST_NOW, "p/a"), None)
  const SECOND_JOB := GroupJob("gl", LiveRequest(RENAMED_RULE, "2", SECOND_NOW, "p/b"), None)

  lemma FirstPlanned(reg: Registry)
    requires IsLowering(reg.lower) && "gl" in reg.backends && reg.backends["gl"].GitLabBackend?
    ensures var one := PlanRules(reg, [FIRST, SECOND], true, false, NO_PLAN, FIRST_NOW, [RENAMED_RULE]);
      one.jobs == [FIRST_JOB] && one.owners == {Claim("gl", "p/a")} && one.present == {("r", "1")} && one.errs == []
  {
    AimsOfBoth();
    PlanOneOf(reg, true, false, NO_PLAN, FIRST_NOW, 'c', "p/a", []);
  }

  lemma SecondPlanned(reg: Registry, one: Plan)
    requires IsLowering(reg.lower) && "gl" in reg.backends && reg.backends["gl"].GitLabBackend?
    requires one.jobs == [FIRST_JOB] && one.owners == {Claim("gl", "p/a")} && one.present == {("r", "1")}
      && one.errs == []
    ensures var two := PlanRules(reg, [FIRST, SECOND], true, false, one, SECOND_NOW, [RENAMED_RULE]);
      two.jobs == [FIRST_JOB, SECOND_JOB] && {("r", "1"), ("r", "2")} <= two.present && two.errs == []
  {
    AimsOfBoth();
    assert "p/a"[2] != "p/b"[2];
    PlanOneOf(reg, true, false, one, SECOND_NOW, 'a', "p/b", []);
  }

  lemma BothPlanned(reg: Registry)
    requires IsLowering(reg.lower) && "gl" in reg.backends && reg.backends["gl"].GitLabBackend?
    ensures var ms, rules := [FIRST, SECOND], [RENAMED_RULE];
      var one := PlanRules(reg, ms, true, false, NO_PLAN, FIRST_NOW, rules);
      var two := PlanRules(reg, ms, true, false, one, SECOND_NOW, rules);
      two.jobs == [FIRST_JOB, SECOND_JOB] && {("r", "1"), ("r", "2")} <= two.present && two.errs == []
  {
    FirstPlanned(reg);
    SecondPlanned(reg, PlanRules(reg, [FIRST, SECOND], true, false, NO_PLAN, FIRST_NOW, [RENAMED_RULE]));
  }

  /** The full plan of both succeeds, each at its own target. */
  lemma RenamedFullPlan(reg: Registry)
    requires IsLowering(reg.lower) && "gl" in reg.backends && reg.backends["gl"].GitLabBackend?
    ensures var full := MakePlan(reg, [FIRST, SECOND], true, false, [FIRST_NOW, SECOND_NOW], [RENAMED_RULE]);
      full.errs == [] && full.jobs == [FIRST_JOB, SECOND_JOB]
  {
    var ms, rules := [FIRST, SECOND], [RENAMED_RULE];
    BothPlanned(reg);
    var one := PlanRules(reg, ms, true, false, NO_PLAN, FIRST_NOW, rules);
    TwoGroups(reg, ms, NO_PLAN, FIRST_NOW, SECOND_NOW, rules);
    BothPresent(reg, PlanRules(reg, ms, true, false, one, SECOND_NOW, rules), ms, rules);
  }

  lemma TwoGroups(
      reg: Registry, mappings: seq<GroupMapping>, pl: Plan, a: SourceGroup, b: SourceGroup, rules: seq<Rule>)
    ensures PlanGroups(reg, mappings, true, false, pl, [a, b], rules)
      == PlanRules(reg, mappings, true, false, PlanRules(reg, mappings, true, false, pl, a, rules), b, rules)
  {
    var one := PlanRules(reg, mappings, true, false, pl, a, rules);
    var two := PlanRules(reg, mappings, true, false, one, b, rules);
    assert [a, b][1..] == [b] && [b][1..] == [];
    assert PlanGroups(reg, mappings, true, false, one, [b], rules)
      == PlanGroups(reg, mappings, true, false, two, [], rules) == two;
  }

  lemma BothPresent(reg: Registry, pl: Plan, ms: seq<GroupMapping>, rules: seq<Rule>)
    requires ms == [FIRST, SECOND] && {("r", "1"), ("r", "2")} <= pl.present
    ensures BuryAll(reg, pl, ms, rules) == pl
  {
    assert ("r", "1") in pl.present && ("r", "2") in pl.present;
    assert ms[1..] == [SECOND] && [SECOND][1..] == [];
    assert BuryAll(reg, pl, [SECOND], rules) == BuryAll(reg, pl, [], rules) == pl;
  }

  /** The targeted plan of the second alone is refused, though its own target is the one it aims at. */
  lemma RenamedAndRefused(reg: Registry)
    requires IsLowering(reg.lower) && "gl" in reg.backends && reg.backends["gl"].GitLabBackend?
    ensures var plan := MakePlan(reg, [FIRST, SECOND], false, true, [SECOND_NOW], [RENAMED_RULE]);
      plan.errs == [TargetTaken] && plan.jobs == [SECOND_JOB]
  {
    assert AimAll(RENAMED_RULE, SECOND_NOW.id, false, Aim("p/a", []), [FIRST, SECOND]) == Aim("p/b", [TargetTaken]) by {
      AimsOfBoth();
    }
    OneGroupPlan(reg, [FIRST, SECOND], true, SECOND_NOW, [RENAMED_RULE]);
    PlanOneOf(reg, false, true, NO_PLAN, SECOND_NOW, 'a', "p/b", [TargetTaken]);
  }
}

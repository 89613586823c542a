/**
 A plan against the ledger: no two jobs share a target, and a full plan that
 succeeds accounts for every mapping it is responsible for.
*/
module PlanAccounting {
  import opened Wrappers
  import opened Ledger
  import opened Text
  import opened Paths
  import opened Sync
  import opened Planner
  import Store

  // ----- where a live group is aimed -----

  predicate Own(rule: Rule, key: Id, m: GroupMapping) {
    OfRule(rule, m) && m.sourceGroupId == key
  }

  ghost predicate OneOwn(rule: Rule, key: Id, mappings: seq<GroupMapping>) {
    forall i, j :: 0 <= i < j < |mappings| ==> !(Own(rule, key, mappings[i]) && Own(rule, key, mappings[j]))
  }

  /** With one mapping per source, the established target wins and otherwise the mapped path stays. */
  lemma {:induction false} AimOwn(rule: Rule, key: Id, complete: bool, a: Aim, mappings: seq<GroupMapping>)
    requires rule.vault.None? && OneOwn(rule, key, mappings)
    ensures var r := AimAll(rule, key, complete, a, mappings);
      && a.collisions <= r.collisions
      && (forall m <- mappings :: Own(rule, key, m) ==> r.target == m.targetGroupPath)
      && ((forall m <- mappings :: !Own(rule, key, m)) ==> r.target == a.target)
      && ((forall m <- mappings :: !Own(rule, key, m)) && !complete && r.collisions == a.collisions ==>
            forall m <- mappings :: OfRule(rule, m) ==> m.targetGroupPath != a.target)
    decreases mappings
  {
    if mappings != [] {
      var m := mappings[0];
      var next := AimAt(rule, key, complete, a, m);
      assert OneOwn(rule, key, mappings[1..]);
      AimOwn(rule, key, complete, next, mappings[1..]);
      assert mappings == [m] + mappings[1..];
      if Own(rule, key, m) {
        forall x | x in mappings[1..]
          ensures !Own(rule, key, x)
        {
          var i :| 0 <= i < |mappings[1..]| && mappings[1..][i] == x;
          assert mappings[i + 1] == x;
        }
      }
    }
  }

  ghost function SourceSet(groups: seq<SourceGroup>): set<SourceGroup> {
    set g | g in groups
  }

  // ----- what planning the live groups keeps -----

  /** How a live job came about. */
  ghost predicate AimedBy(
      reg: Registry, mappings: seq<GroupMapping>, complete: bool, job: Job, rule: Rule, group: SourceGroup,
      relative: string)
  {
    var key := SourceStateKey(rule, group);
    var mapped := TargetGroupPath(reg.lower, rule.targetParent, relative);
    && rule.vault.None? && mapped.Some?
    && RelativeGroupPath(group.path, rule.sourceGroupPrefix) == Some(relative)
    && rule.targetProvider in reg.backends
    && var aim := AimAll(rule, key, complete, Aim(mapped.value, []), mappings);
       job == GroupJob(rule.targetProvider, LiveRequest(rule, key, group, aim.target), None) && aim.collisions == []
  }

  ghost predicate Aimed(
      reg: Registry, mappings: seq<GroupMapping>, complete: bool, groups: set<SourceGroup>, rules: seq<Rule>,
      job: Job)
  {
    exists rule <- rules, group <- groups, relative: string ::
      AimedBy(reg, mappings, complete, job, rule, group, relative)
  }

  predicate LiveFor(job: Job, rule: Rule, source: Id) {
    job.GroupJob? && job.tombstone.None? && job.provider == rule.targetProvider && job.req.rule == rule.name
      && job.req.stateKey == source
  }

  ghost predicate DistinctClaims(jobs: seq<Job>) {
    forall i, j :: 0 <= i < j < |jobs| ==> jobs[i].Key() != jobs[j].Key()
  }

  /** `r` is any one rule whose sources are followed. */
  ghost predicate LivePlan(
      reg: Registry, mappings: seq<GroupMapping>, complete: bool, groups: set<SourceGroup>, rules: seq<Rule>, r: Rule,
      pl: Plan)
  {
    && DistinctClaims(pl.jobs)
    && (forall job <- pl.jobs :: job.Key() in pl.owners)
    && (forall job <- pl.jobs :: job.GroupJob? ==>
      job.tombstone.None? && (job.req.rule, job.req.stateKey) in pl.present)
    && (pl.errs == [] ==>
          && (forall job <- pl.jobs :: job.GroupJob? ==> Aimed(reg, mappings, complete, groups, rules, job))
          && (forall s :: (r.name, s) in pl.present ==> exists job <- pl.jobs :: LiveFor(job, r, s)))
  }

  ghost predicate UniqueNames(rules: seq<Rule>) {
    forall i, j :: 0 <= i < j < |rules| ==> rules[i].name != rules[j].name
  }

  lemma SameRule(rules: seq<Rule>, a: Rule, b: Rule)
    requires UniqueNames(rules) && a in rules && b in rules && a.name == b.name
    ensures a == b
  {
  }

  /** Adding one job under a claim nobody holds yet. */
  lemma AppendKeeps(
      reg: Registry, mappings: seq<GroupMapping>, complete: bool, groups: set<SourceGroup>, rules: seq<Rule>, r: Rule,
      pl: Plan, out: Plan, job: Job, name: string, key: Id)
    requires LivePlan(reg, mappings, complete, groups, rules, r, pl)
    requires job.Key() !in pl.owners && out.owners == pl.owners + {job.Key()}
    requires out.jobs == pl.jobs + [job] && out.present == pl.present + {(name, key)}
    requires job.GroupJob? ==> job.tombstone.None? && job.req.rule == name && job.req.stateKey == key
    requires pl.errs <= out.errs
    requires out.errs == [] ==> (job.GroupJob? ==> Aimed(reg, mappings, complete, groups, rules, job))
    requires name == r.name ==> LiveFor(job, r, key)
    ensures LivePlan(reg, mappings, complete, groups, rules, r, out)
  {
    assert forall j <- pl.jobs :: j in out.jobs;
    assert job in out.jobs;
    if out.errs == [] {
      forall s | (r.name, s) in out.present
        ensures exists j <- out.jobs :: LiveFor(j, r, s)
      {
        if (r.name, s) in pl.present {
          var j :| j in pl.jobs && LiveFor(j, r, s);
          assert j in out.jobs;
        }
      }
    }
  }

  lemma FailKeeps(
      reg: Registry, mappings: seq<GroupMapping>, complete: bool, groups: set<SourceGroup>, rules: seq<Rule>, r: Rule,
      pl: Plan, out: Plan)
    requires LivePlan(reg, mappings, complete, groups, rules, r, pl)
    requires out.jobs == pl.jobs && pl.owners <= out.owners && pl.present <= out.present && |out.errs| > 0
    ensures LivePlan(reg, mappings, complete, groups, rules, r, out)
  {
  }

  /** Registering either fails, or adds one job under a claim nobody holds yet. */
  lemma RegisterShape(reg: Registry, pl: Plan, group: SourceGroup, rule: Rule, key: Id, target: string)
    ensures var out := Register(reg, pl, group, rule, key, target);
      if |out.jobs| > |pl.jobs| then
        var job := out.jobs[|pl.jobs|];
        && out.jobs == pl.jobs + [job] && out.errs == pl.errs && rule.targetProvider in reg.backends
        && job.Key() !in pl.owners && out.owners == pl.owners + {job.Key()}
        && out.present == pl.present + {(rule.name, key)}
        && job == if rule.vault.Some? then AccessJob(rule.targetProvider, rule.name, key, group.(members := []), target)
                  else GroupJob(rule.targetProvider, LiveRequest(rule, key, group, target), None)
      else
        && out.jobs == pl.jobs && pl.owners <= out.owners && pl.present <= out.present
        && |out.errs| > |pl.errs| && pl.errs <= out.errs
  {
  }

  lemma RegisterKeeps(
      reg: Registry, mappings: seq<GroupMapping>, complete: bool, groups: set<SourceGroup>, rules: seq<Rule>, r: Rule,
      pl: Plan, group: SourceGroup, rule: Rule, relative: string, mapped: string)
    requires UniqueNames(rules) && r in rules && rule in rules && group in groups && r.vault.None?
    requires LivePlan(reg, mappings, complete, groups, rules, r, pl)
    requires RelativeGroupPath(group.path, rule.sourceGroupPrefix) == Some(relative)
    requires FreshPath(reg, rule, relative) == Some(mapped)
    ensures var key := SourceStateKey(rule, group);
      var aim := AimAll(rule, key, complete, Aim(mapped, []), mappings);
      var out := Register(reg, pl.(errs := pl.errs + aim.collisions), group, rule, key, aim.target);
      LivePlan(reg, mappings, complete, groups, rules, r, out) && pl.errs <= out.errs
  {
    var key := SourceStateKey(rule, group);
    var aim := AimAll(rule, key, complete, Aim(mapped, []), mappings);
    var out := Register(reg, pl.(errs := pl.errs + aim.collisions), group, rule, key, aim.target);
    RegisterShape(reg, pl.(errs := pl.errs + aim.collisions), group, rule, key, aim.target);
    if |out.jobs| > |pl.jobs| {
      var job := out.jobs[|pl.jobs|];
      if rule.vault.None? && out.errs == [] {
        assert AimedBy(reg, mappings, complete, job, rule, group, relative);
      }
      if rule.name == r.name {
        SameRule(rules, r, rule);
      }
      AppendKeeps(reg, mappings, complete, groups, rules, r, pl, out, job, rule.name, key);
    } else {
      FailKeeps(reg, mappings, complete, groups, rules, r, pl, out);
    }
  }

  lemma PlanLiveKeeps(
      reg: Registry, mappings: seq<GroupMapping>, complete: bool, membershipsOnly: bool, groups: set<SourceGroup>,
      rules: seq<Rule>, r: Rule,
      pl: Plan, group: SourceGroup, rule: Rule)
    requires UniqueNames(rules) && r in rules && rule in rules && group in groups && r.vault.None?
    requires LivePlan(reg, mappings, complete, groups, rules, r, pl)
    ensures var out := PlanLive(reg, mappings, complete, membershipsOnly, pl, group, rule);
      LivePlan(reg, mappings, complete, groups, rules, r, out) && pl.errs <= out.errs
  {
    var relative := RelativeGroupPath(group.path, rule.sourceGroupPrefix);
    if relative.Some? {
      var mapped := FreshPath(reg, rule, relative.value);
      if mapped.Some? {
        RegisterKeeps(reg, mappings, complete, groups, rules, r, pl, group, rule, relative.value, mapped.value);
      }
    }
  }

  lemma {:induction false} PlanRulesKeeps(
      reg: Registry, mappings: seq<GroupMapping>, complete: bool, membershipsOnly: bool, groups: set<SourceGroup>,
      rules: seq<Rule>, r: Rule,
      pl: Plan, group: SourceGroup, rest: seq<Rule>)
    requires UniqueNames(rules) && r in rules && (forall x <- rest :: x in rules) && group in groups && r.vault.None?
    requires LivePlan(reg, mappings, complete, groups, rules, r, pl)
    ensures var out := PlanRules(reg, mappings, complete, membershipsOnly, pl, group, rest);
      LivePlan(reg, mappings, complete, groups, rules, r, out) && pl.errs <= out.errs
    decreases rest
  {
    if rest != [] {
      PlanLiveKeeps(reg, mappings, complete, membershipsOnly, groups, rules, r, pl, group, rest[0]);
      PlanRulesKeeps(reg, mappings, complete, membershipsOnly, groups, rules, r,
        PlanLive(reg, mappings, complete, membershipsOnly, pl, group, rest[0]), group, rest[1..]);
    }
  }

  lemma {:induction false} PlanGroupsKeeps(
      reg: Registry, mappings: seq<GroupMapping>, complete: bool, membershipsOnly: bool, groups: set<SourceGroup>,
      rules: seq<Rule>, r: Rule,
      pl: Plan, rest: seq<SourceGroup>)
    requires UniqueNames(rules) && r in rules && (forall x <- rest :: x in groups) && r.vault.None?
    requires LivePlan(reg, mappings, complete, groups, rules, r, pl)
    ensures var out := PlanGroups(reg, mappings, complete, membershipsOnly, pl, rest, rules);
      LivePlan(reg, mappings, complete, groups, rules, r, out) && pl.errs <= out.errs
    decreases rest
  {
    if rest != [] {
      PlanRulesKeeps(reg, mappings, complete, membershipsOnly, groups, rules, r, pl, rest[0], rules);
      PlanGroupsKeeps(reg, mappings, complete, membershipsOnly, groups, rules, r,
        PlanRules(reg, mappings, complete, membershipsOnly, pl, rest[0], rules), rest[1..]);
    }
  }

  // ----- tombstones -----

  ghost predicate BuriedBy(
      reg: Registry, mappings: seq<GroupMapping>, present: set<(string, Id)>, job: Job, m: GroupMapping, rule: Rule)
  {
    && m in mappings && (m.rule, m.sourceGroupId) !in present
    && OfRule(rule, m) && rule.vault.None? && !Held(rule, m) && rule.targetProvider in reg.backends
    && job == TombstoneJob(rule, m)
  }

  ghost predicate Buried(
      reg: Registry, mappings: seq<GroupMapping>, present: set<(string, Id)>, rules: seq<Rule>, job: Job)
  {
    exists m <- mappings, rule <- rules :: BuriedBy(reg, mappings, present, job, m, rule)
  }

  /** What burying adds to the live plan. */
  ghost predicate FullPlan(reg: Registry, mappings: seq<GroupMapping>, rules: seq<Rule>, live: Plan, pl: Plan) {
    && live.errs <= pl.errs && pl.present == live.present
    && DistinctClaims(pl.jobs)
    && (forall job <- pl.jobs :: job.Key() in pl.owners)
    && (forall job <- live.jobs :: job in pl.jobs)
    && (forall job <- pl.jobs :: job in live.jobs || Buried(reg, mappings, live.present, rules, job))
  }

  lemma BuryKeeps(
      reg: Registry, mappings: seq<GroupMapping>, rules: seq<Rule>, live: Plan, pl: Plan, m: GroupMapping, rule: Rule)
    requires FullPlan(reg, mappings, rules, live, pl)
    requires m in mappings && rule in rules && (m.rule, m.sourceGroupId) !in live.present
    ensures var out := Bury(reg, pl, m, rule);
      && FullPlan(reg, mappings, rules, live, out)
      && pl.errs <= out.errs
      && (forall job <- pl.jobs :: job in out.jobs)
      && (out.errs == [] && Accountable(reg, rule, m) && !Held(rule, m) ==>
            TombstoneJob(rule, m) in out.jobs)
  {
    var out := Bury(reg, pl, m, rule);
    if |out.jobs| > |pl.jobs| {
      var job := out.jobs[|pl.jobs|];
      assert out.jobs == pl.jobs + [job];
      assert BuriedBy(reg, mappings, live.present, job, m, rule);
    }
  }

  lemma {:induction false} BuryRulesKeeps(
      reg: Registry, mappings: seq<GroupMapping>, rules: seq<Rule>, live: Plan, pl: Plan, m: GroupMapping,
      rest: seq<Rule>)
    requires FullPlan(reg, mappings, rules, live, pl)
    requires m in mappings && (forall x <- rest :: x in rules) && (m.rule, m.sourceGroupId) !in live.present
    ensures var out := BuryRules(reg, pl, m, rest);
      && FullPlan(reg, mappings, rules, live, out)
      && pl.errs <= out.errs
      && (forall job <- pl.jobs :: job in out.jobs)
      && (out.errs == [] ==> forall rule <- rest ::
        OfRule(rule, m) && rule.vault.None? && !Held(rule, m) && rule.targetProvider in reg.backends ==>
            TombstoneJob(rule, m) in out.jobs)
    decreases rest
  {
    if rest != [] {
      BuryKeeps(reg, mappings, rules, live, pl, m, rest[0]);
      BuryRulesKeeps(reg, mappings, rules, live, Bury(reg, pl, m, rest[0]), m, rest[1..]);
      assert forall rule <- rest :: rule == rest[0] || rule in rest[1..];
    }
  }

  /** A mapping the full plan must retire if its source is gone. */
  predicate Accountable(reg: Registry, rule: Rule, m: GroupMapping) {
    OfRule(rule, m) && rule.vault.None? && rule.targetProvider in reg.backends
  }

  lemma {:induction false} BuryAllKeeps(
      reg: Registry, mappings: seq<GroupMapping>, rules: seq<Rule>, live: Plan, pl: Plan, rest: seq<GroupMapping>)
    requires FullPlan(reg, mappings, rules, live, pl)
    requires forall m <- rest :: m in mappings
    ensures var out := BuryAll(reg, pl, rest, rules);
      && FullPlan(reg, mappings, rules, live, out)
      && pl.errs <= out.errs
      && (forall job <- pl.jobs :: job in out.jobs)
      && (out.errs == [] ==> forall m <- rest, rule <- rules ::
            Accountable(reg, rule, m) && !Held(rule, m) && (m.rule, m.sourceGroupId) !in live.present ==>
            TombstoneJob(rule, m) in out.jobs)
    decreases rest
  {
    if rest != [] {
      var m := rest[0];
      if (m.rule, m.sourceGroupId) !in live.present {
        BuryRulesKeeps(reg, mappings, rules, live, pl, m, rules);
      }
      BuryAllKeeps(reg, mappings, rules, live, BuryMapping(reg, pl, m, rules), rest[1..]);
      assert forall x <- rest :: x == m || x in rest[1..];
    }
  }

  // ----- the ledger's side -----

  /** The rule's mappings under its target name come from one provider installation. */
  ghost predicate OneFingerprint(rule: Rule, groups: Bindings) {
    forall k <- groups, l <- groups :: Follows(rule, k) && Follows(rule, l) ==> k.provider == l.provider
  }

  /** The key of a mapping of the rule. */
  predicate Follows(r: Rule, k: BindingKey) {
    k.rule == r.name && HasPrefix(k.provider, r.targetProvider + "@")
  }

  /** The rule's bindings go to pairwise distinct targets. */
  ghost predicate Injective(r: Rule, groups: Bindings) {
    forall k <- groups, l <- groups ::
      Follows(r, k) && Follows(r, l) && groups[k].targetGroupPath == groups[l].targetGroupPath ==> k == l
  }

  lemma ListingOneOwn(rule: Rule, key: Id, groups: Bindings)
    requires KeysAgree(groups) && OneFingerprint(rule, groups)
    ensures OneOwn(rule, key, Listing(groups))
  {
    var mappings := Listing(groups);
    forall i, j | 0 <= i < j < |mappings|
      ensures !(Own(rule, key, mappings[i]) && Own(rule, key, mappings[j]))
    {
      assert mappings[i] in groups.Values && mappings[j] in groups.Values;
      assert mappings[i].Key() in groups && mappings[j].Key() in groups;
      TupleTotal(Store.MappingIds(mappings[i]), Store.MappingIds(mappings[j]));
    }
  }

  ghost predicate Claimed(plan: Plan, rule: Rule, m: GroupMapping) {
    exists job <- plan.jobs :: LiveFor(job, rule, m.sourceGroupId) && job.req.targetPath == m.targetGroupPath
  }

  ghost predicate Tombstoned(plan: Plan, rule: Rule, m: GroupMapping) {
    exists job <- plan.jobs ::
      job.GroupJob? && job.tombstone == Some(m.Key()) && job.provider == rule.targetProvider
      && job.req.group.members == []
      && job.req.targetPath == m.targetGroupPath && job.req.rule == rule.name && job.req.stateKey == m.sourceGroupId
  }

  ghost predicate LiveJob(plan: Plan, rule: Rule, m: GroupMapping) {
    exists job <- plan.jobs :: LiveFor(job, rule, m.sourceGroupId)
  }

  predicate ExactlyOne(a: bool, b: bool, c: bool) {
    (a && !b && !c) || (!a && b && !c) || (!a && !b && c)
  }

  lemma LivePlanned(
      reg: Registry, mappings: seq<GroupMapping>, complete: bool, membershipsOnly: bool, groups: seq<SourceGroup>,
      rules: seq<Rule>, r: Rule)
    requires UniqueNames(rules) && r in rules && r.vault.None?
    ensures LivePlan(reg, mappings, complete, SourceSet(groups), rules, r,
                     PlanGroups(reg, mappings, complete, membershipsOnly, NO_PLAN, groups, rules))
  {
    PlanGroupsKeeps(reg, mappings, complete, membershipsOnly, SourceSet(groups), rules, r, NO_PLAN, groups);
  }

  lemma FullPlanned(
      reg: Registry, mappings: seq<GroupMapping>, membershipsOnly: bool, groups: seq<SourceGroup>, rules: seq<Rule>,
      r: Rule)
    requires UniqueNames(rules) && r in rules && r.vault.None?
    ensures var live := PlanGroups(reg, mappings, true, membershipsOnly, NO_PLAN, groups, rules);
      var plan := MakePlan(reg, mappings, true, membershipsOnly, groups, rules);
      && FullPlan(reg, mappings, rules, live, plan)
      && (plan.errs == [] ==> forall m <- mappings, rule <- rules ::
            Accountable(reg, rule, m) && !Held(rule, m) && (m.rule, m.sourceGroupId) !in live.present ==>
            TombstoneJob(rule, m) in plan.jobs)
  {
    LivePlanned(reg, mappings, true, membershipsOnly, groups, rules, r);
    var live := PlanGroups(reg, mappings, true, membershipsOnly, NO_PLAN, groups, rules);
    BuryAllKeeps(reg, mappings, rules, live, live, mappings);
  }

  /** A live job of the rule goes to the mapping's own target if its source has one. */
  lemma LiveJobTarget(
      reg: Registry, groups: Bindings, complete: bool, sources: set<SourceGroup>, rules: seq<Rule>, r: Rule, job: Job)
    requires UniqueNames(rules) && r in rules && r.vault.None?
    requires KeysAgree(groups) && OneFingerprint(r, groups)
    requires Aimed(reg, Listing(groups), complete, sources, rules, job) && job.req.rule == r.name
    ensures job.provider == r.targetProvider
    ensures forall m <- groups.Values :: Own(r, job.req.stateKey, m) ==> job.req.targetPath == m.targetGroupPath
    ensures (forall m <- groups.Values :: !Own(r, job.req.stateKey, m)) ==>
      && TrimSlashes(job.req.targetPath) == job.req.targetPath
      && (!complete ==> forall m <- groups.Values :: OfRule(r, m) ==> m.targetGroupPath != job.req.targetPath)
    ensures r.sourceGroupPaths.None? ==> exists g <- sources :: job.req.stateKey == g.id && job.req.group == g
  {
    var mappings := Listing(groups);
    var rule, group, relative :| rule in rules && group in sources
      && AimedBy(reg, mappings, complete, job, rule, group, relative);
    SameRule(rules, r, rule);
    var key := SourceStateKey(r, group);
    ListingOneOwn(r, key, groups);
    var mapped := TargetGroupPath(reg.lower, r.targetParent, relative).value;
    AimOwn(r, key, complete, Aim(mapped, []), mappings);
    MappedTrimmed(reg.lower, r.targetParent, relative);
    assert forall m :: m in mappings <==> m in groups.Values;
  }

  /**
   If a full plan succeeds, its jobs have pairwise distinct targets, and every
   mapping of a configured, available GitLab rule is exactly one of: claimed by a
   live job at its own target, held by the exact allowlist, or given a tombstone
   job without members.
  */
  lemma FullPlanAccounts(
      reg: Registry, groups: Bindings, sources: seq<SourceGroup>, rules: seq<Rule>, r: Rule, k: BindingKey)
    requires UniqueNames(rules) && r in rules
    requires KeysAgree(groups) && OneFingerprint(r, groups)
    requires k in groups && Accountable(reg, r, groups[k])
    requires MakePlan(reg, Listing(groups), true, false, sources, rules).errs == []
    ensures var plan := MakePlan(reg, Listing(groups), true, false, sources, rules); var m := groups[k];
      && DistinctClaims(plan.jobs)
      && ExactlyOne(Claimed(plan, r, m), Held(r, m) && !LiveJob(plan, r, m), Tombstoned(plan, r, m))
  {
    var mappings := Listing(groups);
    var m := groups[k];
    assert m in groups.Values && m in mappings;
    var live := PlanGroups(reg, mappings, true, false, NO_PLAN, sources, rules);
    var plan := MakePlan(reg, mappings, true, false, sources, rules);
    LivePlanned(reg, mappings, true, false, sources, rules, r);
    FullPlanned(reg, mappings, false, sources, rules, r);
    if (m.rule, m.sourceGroupId) in live.present {
      var job :| job in live.jobs && LiveFor(job, r, m.sourceGroupId);
      LiveJobTarget(reg, groups, true, SourceSet(sources), rules, r, job);
      assert job in plan.jobs;
      assert Claimed(plan, r, m) && LiveJob(plan, r, m);
      NoTombstone(reg, mappings, rules, live, plan, r, m);
    } else {
      NoLive(reg, mappings, rules, live, plan, SourceSet(sources), r, m);
      if Held(r, m) {
        NoTombstoneHeld(reg, groups, rules, live, plan, r, m);
      } else {
        assert TombstoneJob(r, m) in plan.jobs;
        assert Tombstoned(plan, r, m);
      }
    }
  }

  lemma NoTombstone(
      reg: Registry, mappings: seq<GroupMapping>, rules: seq<Rule>, live: Plan, plan: Plan, r: Rule, m: GroupMapping)
    requires FullPlan(reg, mappings, rules, live, plan)
    requires forall job <- live.jobs :: job.GroupJob? ==> job.tombstone.None?
    requires (m.rule, m.sourceGroupId) in live.present
    ensures !Tombstoned(plan, r, m)
  {
  }

  lemma NoLive(
      reg: Registry, mappings: seq<GroupMapping>, rules: seq<Rule>, live: Plan, plan: Plan, sources: set<SourceGroup>,
      r: Rule, m: GroupMapping)
    requires LivePlan(reg, mappings, true, sources, rules, r, live)
    requires FullPlan(reg, mappings, rules, live, plan)
    requires m.rule == r.name && (m.rule, m.sourceGroupId) !in live.present
    ensures !LiveJob(plan, r, m) && !Claimed(plan, r, m)
  {
    forall job | job in plan.jobs
      ensures !LiveFor(job, r, m.sourceGroupId)
    {
      if job !in live.jobs {
        var x, rule :| x in mappings && rule in rules && BuriedBy(reg, mappings, live.present, job, x, rule);
      }
    }
  }

  lemma NoTombstoneHeld(
      reg: Registry, groups: Bindings, rules: seq<Rule>, live: Plan, plan: Plan, r: Rule, m: GroupMapping)
    requires KeysAgree(groups) && UniqueNames(rules) && r in rules
    requires FullPlan(reg, Listing(groups), rules, live, plan)
    requires forall job <- live.jobs :: job.GroupJob? ==> job.tombstone.None?
    requires m in groups.Values && OfRule(r, m) && Held(r, m)
    ensures !Tombstoned(plan, r, m)
  {
    var mappings := Listing(groups);
    forall job | job in plan.jobs
      ensures !(job.GroupJob? && job.tombstone == Some(m.Key()))
    {
      if job !in live.jobs {
        var x, rule :| x in mappings && rule in rules && BuriedBy(reg, mappings, live.present, job, x, rule);
        assert x in groups.Values;
        assert groups[x.Key()] == x && groups[m.Key()] == m;
        if rule.name == r.name {
          SameRule(rules, r, rule);
        }
      }
    }
  }

  /** Whoever the run depends on passed the health check: all providers in a full run, those of the jobs otherwise. */
  predicate ProvidersHealthy(reg: Registry, tick: nat, complete: bool, jobs: seq<Job>) {
    && (forall i :: 0 <= i < |jobs| ==> reg.healthy(tick, jobs[i].provider))
    && (complete ==> forall name <- reg.backends :: reg.healthy(tick, name))
  }

  /** A plan's jobs are all for configured providers. */
  ghost predicate KnownProviders(reg: Registry, pl: Plan) {
    forall job <- pl.jobs :: job.provider in reg.backends
  }

  lemma {:induction false} RulesKnown(
      reg: Registry, mappings: seq<GroupMapping>, complete: bool, membershipsOnly: bool, pl: Plan, group: SourceGroup,
      rules: seq<Rule>)
    requires KnownProviders(reg, pl)
    ensures KnownProviders(reg, PlanRules(reg, mappings, complete, membershipsOnly, pl, group, rules))
    decreases rules
  {
    if rules != [] {
      LiveKnown(reg, mappings, complete, membershipsOnly, pl, group, rules[0]);
      var next := PlanLive(reg, mappings, complete, membershipsOnly, pl, group, rules[0]);
      RulesKnown(reg, mappings, complete, membershipsOnly, next, group, rules[1..]);
    }
  }

  lemma LiveKnown(
      reg: Registry, mappings: seq<GroupMapping>, complete: bool, membershipsOnly: bool, pl: Plan, group: SourceGroup,
      rule: Rule)
    requires KnownProviders(reg, pl)
    ensures KnownProviders(reg, PlanLive(reg, mappings, complete, membershipsOnly, pl, group, rule))
  {
    var relative := RelativeGroupPath(group.path, rule.sourceGroupPrefix);
    if relative.Some? && FreshPath(reg, rule, relative.value).Some? {
      var key := SourceStateKey(rule, group);
      var aim := AimAll(rule, key, complete, Aim(FreshPath(reg, rule, relative.value).value, []), mappings);
      RegisterShape(reg, pl.(errs := pl.errs + aim.collisions), group, rule, key, aim.target);
    }
  }

  lemma {:induction false} GroupsKnown(
      reg: Registry, mappings: seq<GroupMapping>, complete: bool, membershipsOnly: bool, pl: Plan,
      groups: seq<SourceGroup>, rules: seq<Rule>)
    requires KnownProviders(reg, pl)
    ensures KnownProviders(reg, PlanGroups(reg, mappings, complete, membershipsOnly, pl, groups, rules))
    decreases groups
  {
    if groups != [] {
      RulesKnown(reg, mappings, complete, membershipsOnly, pl, groups[0], rules);
      var next := PlanRules(reg, mappings, complete, membershipsOnly, pl, groups[0], rules);
      GroupsKnown(reg, mappings, complete, membershipsOnly, next, groups[1..], rules);
    }
  }

  lemma {:induction false} BuriesKnown(reg: Registry, pl: Plan, m: GroupMapping, rules: seq<Rule>)
    requires KnownProviders(reg, pl)
    ensures KnownProviders(reg, BuryRules(reg, pl, m, rules))
    decreases rules
  {
    if rules != [] {
      BuriesKnown(reg, Bury(reg, pl, m, rules[0]), m, rules[1..]);
    }
  }

  lemma {:induction false} BuryAllKnown(reg: Registry, pl: Plan, mappings: seq<GroupMapping>, rules: seq<Rule>)
    requires KnownProviders(reg, pl)
    ensures KnownProviders(reg, BuryAll(reg, pl, mappings, rules))
    decreases mappings
  {
    if mappings != [] {
      BuriesKnown(reg, pl, mappings[0], rules);
      BuryAllKnown(reg, BuryMapping(reg, pl, mappings[0], rules), mappings[1..], rules);
    }
  }

  lemma PlanKnown(
      reg: Registry, mappings: seq<GroupMapping>, complete: bool, membershipsOnly: bool, groups: seq<SourceGroup>,
      rules: seq<Rule>)
    ensures KnownProviders(reg, MakePlan(reg, mappings, complete, membershipsOnly, groups, rules))
  {
    GroupsKnown(reg, mappings, complete, membershipsOnly, NO_PLAN, groups, rules);
    if complete {
      var live := PlanGroups(reg, mappings, complete, membershipsOnly, NO_PLAN, groups, rules);
      BuryAllKnown(reg, live, mappings, rules);
    }
  }

  /**
   Jobs are applied if and only if the plan has no error and every provider the run
   depends on is healthy; otherwise nothing changes in GitLab or the ledger.
  */
  lemma HealthGate(
      reg: Registry, w: World, groups: seq<SourceGroup>, rules: seq<Rule>, complete: bool, membershipsOnly: bool)
    requires ValidRegistry(reg) && w.books.memory.WellFormed()
    ensures var plan := MakePlan(reg, Listing(w.books.memory.groups), complete, membershipsOnly, groups, rules);
      var out := Reconcile(reg, w, groups, rules, complete, membershipsOnly);
      && (out.applied <==> plan.errs == [] && ProvidersHealthy(reg, w.tick, complete, plan.jobs))
      && (!out.applied ==> !out.ok && out.w == w.(tick := out.w.tick) && out.w.tick <= w.tick + 1)
  {
    var plan := MakePlan(reg, Listing(w.books.memory.groups), complete, membershipsOnly, groups, rules);
    PlanKnown(reg, Listing(w.books.memory.groups), complete, membershipsOnly, groups, rules);
    var required := Required(reg, complete, plan.jobs);
    if ProvidersHealthy(reg, w.tick, complete, plan.jobs) {
      forall name | name in required
        ensures reg.healthy(w.tick, name)
      {
        if !complete {
          var job :| job in plan.jobs && job.provider == name;
          var i :| 0 <= i < |plan.jobs| && plan.jobs[i] == job;
        }
      }
    }
    if forall name <- required :: reg.healthy(w.tick, name) {
      forall i | 0 <= i < |plan.jobs|
        ensures reg.healthy(w.tick, plan.jobs[i].provider)
      {
        assert plan.jobs[i] in plan.jobs;
      }
    }
  }
}

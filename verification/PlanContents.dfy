/**
 What a plan without errors holds: one live job for each source group under each
 rule it falls under, one tombstone for each mapping that is left over, nothing
 else, and every field of a job told from the group, the rule and the mapping.
*/
module PlanContents {
  import opened Wrappers
  import opened Ledger
  import opened Paths
  import opened PathShapes
  import opened Sync
  import opened Planner
  import PlanAccounting

  // ----- which groups fall under which rules -----

  /** Strictly below the rule's prefix, and listed if the rule has a list. */
  ghost predicate InScope(rule: Rule, path: string) {
    && (exists relative :: LiesBelow(path, rule.sourceGroupPrefix, relative))
    && (rule.sourceGroupPaths.Some? ==>
          exists i :: 0 <= i < |rule.sourceGroupPaths.value| && rule.sourceGroupPaths.value[i] == path)
  }

  /** A membership event does not look at Vault rules. */
  ghost predicate Applies(rule: Rule, path: string, membershipsOnly: bool) {
    InScope(rule, path) && (rule.vault.Some? ==> !membershipsOnly)
  }

  /** By path where paths are declared or the target is Vault, by id otherwise. */
  predicate IsKeyOf(rule: Rule, group: SourceGroup, key: Id) {
    if rule.vault.None? && rule.sourceGroupPaths.None? then key == group.id else key == group.path
  }

  datatype Pair = Pair(group: SourceGroup, rule: Rule)

  ghost function Row(group: SourceGroup, rules: seq<Rule>, membershipsOnly: bool): seq<Pair> {
    if rules == [] then []
    else (if Applies(rules[0], group.path, membershipsOnly) then [Pair(group, rules[0])] else [])
         + Row(group, rules[1..], membershipsOnly)
  }

  /** Every group with every rule it falls under, in order. */
  ghost function Pairs(groups: seq<SourceGroup>, rules: seq<Rule>, membershipsOnly: bool): seq<Pair> {
    if groups == [] then [] else Row(groups[0], rules, membershipsOnly) + Pairs(groups[1..], rules, membershipsOnly)
  }

  // ----- what a live job says -----

  /** A mapping of this source: of the rule, at its target, under the source's key. */
  predicate Bound(rule: Rule, key: Id, m: GroupMapping) {
    && m.rule == rule.name && m.sourceGroupId == key
    && |m.provider| > |rule.targetProvider|
    && m.provider[..|rule.targetProvider|] == rule.targetProvider && m.provider[|rule.targetProvider|] == '@'
  }

  /** The target it is bound to, or where its path maps to. */
  ghost predicate GoesTo(
      lower: Lowering, rule: Rule, group: SourceGroup, key: Id, mappings: seq<GroupMapping>, target: string)
  {
    if exists m <- mappings :: Bound(rule, key, m)
    then exists m <- mappings :: Bound(rule, key, m) && m.targetGroupPath == target
    else exists relative ::
      LiesBelow(group.path, rule.sourceGroupPrefix, relative) && MapsTo(lower, rule.targetParent, relative, target)
  }

  /** The rule's own settings. */
  predicate AsRuled(req: Request, rule: Rule) {
    && req.rule == rule.name && req.targetParent == rule.targetParent
    && req.adopt == rule.adopt && req.accessLevel == rule.accessLevel && req.prune == rule.prune
    && req.protectedUsers == rule.protectedUsers && req.maxRemovals == rule.maxRemovals
    && req.identityMatch == rule.identityMatch && req.enforce == rule.enforce
  }

  ghost predicate IsLive(reg: Registry, mappings: seq<GroupMapping>, job: Job, pair: Pair) {
    var rule, group := pair.rule, pair.group;
    if rule.vault.None? then
      && job.GroupJob? && job.tombstone.None? && job.provider == rule.targetProvider
      && AsRuled(job.req, rule) && job.req.createGroup == rule.createGroups && !job.req.immediate
      && job.req.group == group && IsKeyOf(rule, group, job.req.stateKey)
      && GoesTo(reg.lower, rule, group, job.req.stateKey, mappings, job.req.targetPath)
    else
      && job.AccessJob? && job.provider == rule.targetProvider && job.rule == rule.name
      && job.group == group.(members := []) && IsKeyOf(rule, group, job.stateKey)
      && exists relative :: LiesBelow(group.path, rule.sourceGroupPrefix, relative)
           && VaultMapsTo(reg.lower, rule.vault.value.pathPrefix, relative, job.secretPath)
  }

  function SourceOf(job: Job): (string, Id) {
    if job.GroupJob? then (job.req.rule, job.req.stateKey) else (job.rule, job.stateKey)
  }

  // ----- one group under one rule -----

  lemma InScopeExactly(rule: Rule, path: string)
    ensures InScope(rule, path) <==>
      RelativeGroupPath(path, rule.sourceGroupPrefix).Some? && SourcePathAllowed(rule, path)
  {
    var relative := RelativeGroupPath(path, rule.sourceGroupPrefix);
    if relative.Some? {
      RelativeExactly(path, rule.sourceGroupPrefix, relative.value);
    }
    if exists below :: LiesBelow(path, rule.sourceGroupPrefix, below) {
      var below :| LiesBelow(path, rule.sourceGroupPrefix, below);
      RelativeExactly(path, rule.sourceGroupPrefix, below);
    }
  }

  lemma BoundExactly(rule: Rule, key: Id, m: GroupMapping)
    ensures Bound(rule, key, m) <==> OfRule(rule, m) && m.sourceGroupId == key
  {
    var prefix := rule.targetProvider + "@";
    assert prefix[..|rule.targetProvider|] == rule.targetProvider && prefix[|rule.targetProvider|] == '@';
    if Bound(rule, key, m) {
      assert m.provider[..|prefix|] == m.provider[..|rule.targetProvider|] + [m.provider[|rule.targetProvider|]];
      assert m.provider[..|prefix|] == prefix;
    }
  }

  lemma {:induction false} AimsAt(rule: Rule, key: Id, complete: bool, a: Aim, mappings: seq<GroupMapping>)
    requires rule.vault.None?
    ensures var target := AimAll(rule, key, complete, a, mappings).target;
      if exists m <- mappings :: Bound(rule, key, m)
      then exists m <- mappings :: Bound(rule, key, m) && m.targetGroupPath == target
      else target == a.target
    decreases mappings
  {
    if mappings != [] {
      BoundExactly(rule, key, mappings[0]);
      AimsAt(rule, key, complete, AimAt(rule, key, complete, a, mappings[0]), mappings[1..]);
      assert forall m <- mappings :: m == mappings[0] || m in mappings[1..];
      assert mappings[0] in mappings && forall m <- mappings[1..] :: m in mappings;
    }
  }

  lemma {:induction false} VaultAim(rule: Rule, key: Id, complete: bool, a: Aim, mappings: seq<GroupMapping>)
    requires rule.vault.Some?
    ensures AimAll(rule, key, complete, a, mappings) == a
    decreases mappings
  {
    if mappings != [] {
      assert a.collisions + [] == a.collisions;
      VaultAim(rule, key, complete, AimAt(rule, key, complete, a, mappings[0]), mappings[1..]);
    }
  }

  /** A plan that has grown by these jobs, without an error. */
  ghost predicate Grown(pl: Plan, out: Plan, jobs: seq<Job>) {
    && pl.errs == [] && out.errs == [] && out.jobs == pl.jobs + jobs
    && out.present == pl.present + (set job | job in jobs :: SourceOf(job))
  }

  lemma LiveErrs(
      reg: Registry, mappings: seq<GroupMapping>, complete: bool, membershipsOnly: bool, pl: Plan, group: SourceGroup,
      rule: Rule)
    ensures pl.errs <= PlanLive(reg, mappings, complete, membershipsOnly, pl, group, rule).errs
  {
    var relative := RelativeGroupPath(group.path, rule.sourceGroupPrefix);
    if relative.Some? && FreshPath(reg, rule, relative.value).Some? {
      var key := SourceStateKey(rule, group);
      var aim := AimAll(rule, key, complete, Aim(FreshPath(reg, rule, relative.value).value, []), mappings);
      PlanAccounting.RegisterShape(reg, pl.(errs := pl.errs + aim.collisions), group, rule, key, aim.target);
    }
  }

  lemma OneGrown(pl: Plan, out: Plan, job: Job)
    requires pl.errs == [] && out.errs == [] && out.jobs == pl.jobs + [job]
    requires out.present == pl.present + {SourceOf(job)}
    ensures Grown(pl, out, [job])
  {
    assert (set j | j in [job] :: SourceOf(j)) == {SourceOf(job)};
  }

  lemma NoneGrown(pl: Plan)
    requires pl.errs == []
    ensures Grown(pl, pl, [])
  {
    assert pl.jobs + [] == pl.jobs;
    assert (set j | j in [] :: SourceOf(j)) == {};
  }

  /** Under a rule it does not fall under, a group changes nothing. */
  lemma LiveSkips(
      reg: Registry, mappings: seq<GroupMapping>, complete: bool, membershipsOnly: bool, pl: Plan, group: SourceGroup,
      rule: Rule)
    requires !Applies(rule, group.path, membershipsOnly)
    ensures PlanLive(reg, mappings, complete, membershipsOnly, pl, group, rule) == pl
  {
    InScopeExactly(rule, group.path);
  }

  /** Under any other, it gets one job or an error. */
  lemma LiveAppends(
      reg: Registry, mappings: seq<GroupMapping>, complete: bool, membershipsOnly: bool, pl: Plan, group: SourceGroup,
      rule: Rule) returns (job: Job)
    requires Applies(rule, group.path, membershipsOnly)
    requires PlanLive(reg, mappings, complete, membershipsOnly, pl, group, rule).errs == []
    ensures var out := PlanLive(reg, mappings, complete, membershipsOnly, pl, group, rule);
      && pl.errs == [] && out.jobs == pl.jobs + [job] && out.present == pl.present + {SourceOf(job)}
      && IsLive(reg, mappings, job, Pair(group, rule))
  {
    InScopeExactly(rule, group.path);
    LiveErrs(reg, mappings, complete, membershipsOnly, pl, group, rule);
    var relative := RelativeGroupPath(group.path, rule.sourceGroupPrefix).value;
    var mapped := FreshPath(reg, rule, relative).value;
    var key := SourceStateKey(rule, group);
    var aim := AimAll(rule, key, complete, Aim(mapped, []), mappings);
    var pl1 := pl.(errs := pl.errs + aim.collisions);
    PlanAccounting.RegisterShape(reg, pl1, group, rule, key, aim.target);
    job := Register(reg, pl1, group, rule, key, aim.target).jobs[|pl.jobs|];
    LiveIs(reg, mappings, complete, group, rule, relative, mapped, job);
  }

  lemma LiveGrows(
      reg: Registry, mappings: seq<GroupMapping>, complete: bool, membershipsOnly: bool, pl: Plan, group: SourceGroup,
      rule: Rule) returns (jobs: seq<Job>)
    requires PlanLive(reg, mappings, complete, membershipsOnly, pl, group, rule).errs == []
    ensures Grown(pl, PlanLive(reg, mappings, complete, membershipsOnly, pl, group, rule), jobs)
    ensures
      if Applies(rule, group.path, membershipsOnly)
      then |jobs| == 1 && IsLive(reg, mappings, jobs[0], Pair(group, rule)) else jobs == []
  {
    if Applies(rule, group.path, membershipsOnly) {
      var job := LiveAppends(reg, mappings, complete, membershipsOnly, pl, group, rule);
      OneGrown(pl, PlanLive(reg, mappings, complete, membershipsOnly, pl, group, rule), job);
      jobs := [job];
    } else {
      LiveSkips(reg, mappings, complete, membershipsOnly, pl, group, rule);
      NoneGrown(pl);
      jobs := [];
    }
  }

  lemma LiveIs(
      reg: Registry, mappings: seq<GroupMapping>, complete: bool, group: SourceGroup, rule: Rule, relative: string,
      mapped: string, job: Job)
    requires RelativeGroupPath(group.path, rule.sourceGroupPrefix) == Some(relative)
    requires FreshPath(reg, rule, relative) == Some(mapped)
    requires var key := SourceStateKey(rule, group);
      var target := AimAll(rule, key, complete, Aim(mapped, []), mappings).target;
      job == if rule.vault.Some? then AccessJob(rule.targetProvider, rule.name, key, group.(members := []), target)
             else GroupJob(rule.targetProvider, LiveRequest(rule, key, group, target), None)
    ensures IsLive(reg, mappings, job, Pair(group, rule))
  {
    var key := SourceStateKey(rule, group);
    RelativeExactly(group.path, rule.sourceGroupPrefix, relative);
    if rule.vault.Some? {
      VaultAim(rule, key, complete, Aim(mapped, []), mappings);
      VaultMapsExactly(reg.lower, rule.vault.value.pathPrefix, relative, mapped);
    } else {
      AimsAt(rule, key, complete, Aim(mapped, []), mappings);
      MapsToExactly(reg.lower, rule.targetParent, relative, mapped);
    }
  }

  // ----- all of them -----

  /** Job by job, one for each pair. */
  ghost predicate AreLive(reg: Registry, mappings: seq<GroupMapping>, jobs: seq<Job>, pairs: seq<Pair>) {
    |jobs| == |pairs| && forall i :: 0 <= i < |jobs| ==> IsLive(reg, mappings, jobs[i], pairs[i])
  }

  lemma AreLiveConcat(
      reg: Registry, mappings: seq<GroupMapping>, a: seq<Job>, p: seq<Pair>, b: seq<Job>, q: seq<Pair>)
    requires AreLive(reg, mappings, a, p) && AreLive(reg, mappings, b, q)
    ensures AreLive(reg, mappings, a + b, p + q)
  {
  }

  lemma GrownChain(a: Plan, b: Plan, c: Plan, x: seq<Job>, y: seq<Job>)
    requires Grown(a, b, x) && Grown(b, c, y)
    ensures Grown(a, c, x + y)
  {
    assert forall job :: job in x + y <==> job in x || job in y;
  }

  lemma {:induction false} RulesErrs(
      reg: Registry, mappings: seq<GroupMapping>, complete: bool, membershipsOnly: bool, pl: Plan, group: SourceGroup,
      rules: seq<Rule>)
    ensures pl.errs <= PlanRules(reg, mappings, complete, membershipsOnly, pl, group, rules).errs
    decreases rules
  {
    if rules != [] {
      var next := PlanLive(reg, mappings, complete, membershipsOnly, pl, group, rules[0]);
      LiveErrs(reg, mappings, complete, membershipsOnly, pl, group, rules[0]);
      RulesErrs(reg, mappings, complete, membershipsOnly, next, group, rules[1..]);
    }
  }

  lemma {:induction false} GroupsErrs(
      reg: Registry, mappings: seq<GroupMapping>, complete: bool, membershipsOnly: bool, pl: Plan,
      groups: seq<SourceGroup>, rules: seq<Rule>)
    ensures pl.errs <= PlanGroups(reg, mappings, complete, membershipsOnly, pl, groups, rules).errs
    decreases groups
  {
    if groups != [] {
      var next := PlanRules(reg, mappings, complete, membershipsOnly, pl, groups[0], rules);
      RulesErrs(reg, mappings, complete, membershipsOnly, pl, groups[0], rules);
      GroupsErrs(reg, mappings, complete, membershipsOnly, next, groups[1..], rules);
    }
  }

  lemma {:induction false} RulesGrow(
      reg: Registry, mappings: seq<GroupMapping>, complete: bool, membershipsOnly: bool, pl: Plan, group: SourceGroup,
      rules: seq<Rule>) returns (jobs: seq<Job>)
    requires PlanRules(reg, mappings, complete, membershipsOnly, pl, group, rules).errs == []
    ensures Grown(pl, PlanRules(reg, mappings, complete, membershipsOnly, pl, group, rules), jobs)
    ensures AreLive(reg, mappings, jobs, Row(group, rules, membershipsOnly))
    decreases rules
  {
    jobs := [];
    if rules != [] {
      var next := PlanLive(reg, mappings, complete, membershipsOnly, pl, group, rules[0]);
      RulesErrs(reg, mappings, complete, membershipsOnly, next, group, rules[1..]);
      var first := LiveGrows(reg, mappings, complete, membershipsOnly, pl, group, rules[0]);
      var rest := RulesGrow(reg, mappings, complete, membershipsOnly, next, group, rules[1..]);
      jobs := first + rest;
      var pair := if Applies(rules[0], group.path, membershipsOnly) then [Pair(group, rules[0])] else [];
      AreLiveConcat(reg, mappings, first, pair, rest, Row(group, rules[1..], membershipsOnly));
      GrownChain(pl, next, PlanRules(reg, mappings, complete, membershipsOnly, next, group, rules[1..]), first, rest);
    }
  }

  lemma {:induction false} GroupsGrow(
      reg: Registry, mappings: seq<GroupMapping>, complete: bool, membershipsOnly: bool, pl: Plan,
      groups: seq<SourceGroup>, rules: seq<Rule>) returns (jobs: seq<Job>)
    requires PlanGroups(reg, mappings, complete, membershipsOnly, pl, groups, rules).errs == []
    ensures Grown(pl, PlanGroups(reg, mappings, complete, membershipsOnly, pl, groups, rules), jobs)
    ensures AreLive(reg, mappings, jobs, Pairs(groups, rules, membershipsOnly))
    decreases groups
  {
    jobs := [];
    if groups != [] {
      var next := PlanRules(reg, mappings, complete, membershipsOnly, pl, groups[0], rules);
      GroupsErrs(reg, mappings, complete, membershipsOnly, next, groups[1..], rules);
      var first := RulesGrow(reg, mappings, complete, membershipsOnly, pl, groups[0], rules);
      var rest := GroupsGrow(reg, mappings, complete, membershipsOnly, next, groups[1..], rules);
      jobs := first + rest;
      AreLiveConcat(
        reg, mappings, first, Row(groups[0], rules, membershipsOnly), rest, Pairs(groups[1..], rules, membershipsOnly));
      GrownChain(
        pl, next, PlanGroups(reg, mappings, complete, membershipsOnly, next, groups[1..], rules), first, rest);
    }
  }

  // ----- tombstones -----

  /** The rule is responsible for this mapping, can act on its target, and does not hold it on an exact list. */
  ghost predicate LeftOver(reg: Registry, rule: Rule, m: GroupMapping) {
    && Bound(rule, m.sourceGroupId, m) && rule.vault.None? && rule.targetProvider in reg.backends
    && (rule.sourceGroupPaths.Some? ==>
          forall i :: 0 <= i < |rule.sourceGroupPaths.value| ==> rule.sourceGroupPaths.value[i] != m.sourceGroupPath)
  }

  datatype Burial = Burial(mapping: GroupMapping, rule: Rule)

  ghost function Rest(reg: Registry, m: GroupMapping, rules: seq<Rule>): seq<Burial> {
    if rules == [] then []
    else (if LeftOver(reg, rules[0], m) then [Burial(m, rules[0])] else []) + Rest(reg, m, rules[1..])
  }

  /** Every mapping whose source has no live job, with every rule that has to retire it, in order. */
  ghost function Burials(
      reg: Registry, mappings: seq<GroupMapping>, rules: seq<Rule>, present: set<(string, Id)>): seq<Burial>
  {
    if mappings == [] then []
    else (if (mappings[0].rule, mappings[0].sourceGroupId) in present then [] else Rest(reg, mappings[0], rules))
         + Burials(reg, mappings[1..], rules, present)
  }

  /** A request without members for the mapping's own target, which is never created; at once under a list. */
  predicate IsTombstone(job: Job, burial: Burial) {
    var rule, m := burial.rule, burial.mapping;
    && job.GroupJob? && job.tombstone == Some(BindingKey(m.provider, m.rule, m.sourceGroupId))
    && job.provider == rule.targetProvider
    && AsRuled(job.req, rule) && !job.req.createGroup && job.req.immediate == rule.sourceGroupPaths.Some?
    && job.req.stateKey == m.sourceGroupId && job.req.targetPath == m.targetGroupPath
    && job.req.group.members == [] && job.req.group.path == m.sourceGroupPath
    && job.req.group.id == if m.sourceNativeId != "" then m.sourceNativeId else m.sourceGroupId
  }

  ghost predicate AreTombstones(jobs: seq<Job>, burials: seq<Burial>) {
    |jobs| == |burials| && forall i :: 0 <= i < |jobs| ==> IsTombstone(jobs[i], burials[i])
  }

  lemma AreTombstonesConcat(a: seq<Job>, p: seq<Burial>, b: seq<Job>, q: seq<Burial>)
    requires AreTombstones(a, p) && AreTombstones(b, q)
    ensures AreTombstones(a + b, p + q)
  {
  }

  /** A plan that has grown by these tombstones, without an error. */
  ghost predicate Buried(pl: Plan, out: Plan, jobs: seq<Job>) {
    pl.errs == [] && out.errs == [] && out.jobs == pl.jobs + jobs && out.present == pl.present
  }

  lemma BuriedChain(a: Plan, b: Plan, c: Plan, x: seq<Job>, y: seq<Job>)
    requires Buried(a, b, x) && Buried(b, c, y)
    ensures Buried(a, c, x + y)
  {
    assert a.jobs + x + y == a.jobs + (x + y);
  }

  lemma LeftOverExactly(reg: Registry, rule: Rule, m: GroupMapping)
    ensures LeftOver(reg, rule, m) <==>
      OfRule(rule, m) && rule.vault.None? && !Held(rule, m) && rule.targetProvider in reg.backends
  {
    BoundExactly(rule, m.sourceGroupId, m);
  }

  lemma BuryGrows(reg: Registry, pl: Plan, m: GroupMapping, rule: Rule) returns (jobs: seq<Job>)
    requires Bury(reg, pl, m, rule).errs == []
    ensures Buried(pl, Bury(reg, pl, m, rule), jobs)
    ensures AreTombstones(jobs, if LeftOver(reg, rule, m) then [Burial(m, rule)] else [])
  {
    LeftOverExactly(reg, rule, m);
    jobs := if LeftOver(reg, rule, m) then [TombstoneJob(rule, m)] else [];
    assert pl.jobs + [] == pl.jobs;
  }

  lemma {:induction false} BuryErrs(reg: Registry, pl: Plan, m: GroupMapping, rules: seq<Rule>)
    ensures pl.errs <= BuryRules(reg, pl, m, rules).errs
    decreases rules
  {
    if rules != [] {
      BuryErrs(reg, Bury(reg, pl, m, rules[0]), m, rules[1..]);
    }
  }

  lemma {:induction false} BuryAllErrs(reg: Registry, pl: Plan, mappings: seq<GroupMapping>, rules: seq<Rule>)
    ensures pl.errs <= BuryAll(reg, pl, mappings, rules).errs
    decreases mappings
  {
    if mappings != [] {
      BuryErrs(reg, pl, mappings[0], rules);
      BuryAllErrs(reg, BuryMapping(reg, pl, mappings[0], rules), mappings[1..], rules);
    }
  }

  lemma {:induction false} BuryRulesGrow(reg: Registry, pl: Plan, m: GroupMapping, rules: seq<Rule>)
      returns (jobs: seq<Job>)
    requires BuryRules(reg, pl, m, rules).errs == []
    ensures Buried(pl, BuryRules(reg, pl, m, rules), jobs) && AreTombstones(jobs, Rest(reg, m, rules))
    decreases rules
  {
    jobs := [];
    if rules != [] {
      var next := Bury(reg, pl, m, rules[0]);
      BuryErrs(reg, next, m, rules[1..]);
      var first := BuryGrows(reg, pl, m, rules[0]);
      var rest := BuryRulesGrow(reg, next, m, rules[1..]);
      jobs := first + rest;
      var burial := if LeftOver(reg, rules[0], m) then [Burial(m, rules[0])] else [];
      AreTombstonesConcat(first, burial, rest, Rest(reg, m, rules[1..]));
      BuriedChain(pl, next, BuryRules(reg, next, m, rules[1..]), first, rest);
    }
  }

  lemma {:induction false} BuryAllGrow(reg: Registry, pl: Plan, mappings: seq<GroupMapping>, rules: seq<Rule>)
      returns (jobs: seq<Job>)
    requires BuryAll(reg, pl, mappings, rules).errs == []
    ensures Buried(pl, BuryAll(reg, pl, mappings, rules), jobs)
    ensures AreTombstones(jobs, Burials(reg, mappings, rules, pl.present))
    decreases mappings
  {
    jobs := [];
    if mappings != [] {
      var m := mappings[0];
      var next := BuryMapping(reg, pl, m, rules);
      BuryAllErrs(reg, next, mappings[1..], rules);
      BuryErrs(reg, pl, m, rules);
      var first: seq<Job> := [];
      if (m.rule, m.sourceGroupId) !in pl.present {
        first := BuryRulesGrow(reg, pl, m, rules);
      }
      var rest := BuryAllGrow(reg, next, mappings[1..], rules);
      jobs := first + rest;
      var burials := if (m.rule, m.sourceGroupId) in pl.present then [] else Rest(reg, m, rules);
      AreTombstonesConcat(first, burials, rest, Burials(reg, mappings[1..], rules, pl.present));
      BuriedChain(pl, next, BuryAll(reg, next, mappings[1..], rules), first, rest);
    }
  }

  // ----- the whole plan -----

  /** The sources of live jobs. */
  ghost function Sources(jobs: seq<Job>): set<(string, Id)> {
    set job | job in jobs :: SourceOf(job)
  }

  /**
   A plan without an error is, job by job: one live job for every source group under
   every rule it falls under, and in a full plan one tombstone for every mapping of
   an available GitLab rule whose source has no live job and which no list holds.
  */
  lemma PlanExactly(
      reg: Registry, mappings: seq<GroupMapping>, complete: bool, membershipsOnly: bool, groups: seq<SourceGroup>,
      rules: seq<Rule>) returns (live: seq<Job>, tombstones: seq<Job>)
    requires MakePlan(reg, mappings, complete, membershipsOnly, groups, rules).errs == []
    ensures MakePlan(reg, mappings, complete, membershipsOnly, groups, rules).jobs == live + tombstones
    ensures AreLive(reg, mappings, live, Pairs(groups, rules, membershipsOnly))
    ensures AreTombstones(tombstones, if complete then Burials(reg, mappings, rules, Sources(live)) else [])
  {
    var plan := PlanGroups(reg, mappings, complete, membershipsOnly, NO_PLAN, groups, rules);
    tombstones := [];
    if complete {
      BuryAllErrs(reg, plan, mappings, rules);
    }
    live := GroupsGrow(reg, mappings, complete, membershipsOnly, NO_PLAN, groups, rules);
    assert plan.jobs == live && plan.present == Sources(live);
    if complete {
      tombstones := BuryAllGrow(reg, plan, mappings, rules);
    }
  }

  lemma {:induction false} RowHolds(group: SourceGroup, rules: seq<Rule>, membershipsOnly: bool, pair: Pair)
    ensures pair in Row(group, rules, membershipsOnly) <==>
      pair.group == group && pair.rule in rules && Applies(pair.rule, group.path, membershipsOnly)
  {
    if rules != [] {
      RowHolds(group, rules[1..], membershipsOnly, pair);
      assert pair.rule in rules <==> pair.rule == rules[0] || pair.rule in rules[1..];
    }
  }

  /** The pairs are exactly the groups with the rules they fall under. */
  lemma {:induction false} PairsHold(groups: seq<SourceGroup>, rules: seq<Rule>, membershipsOnly: bool, pair: Pair)
    ensures pair in Pairs(groups, rules, membershipsOnly) <==>
      pair.group in groups && pair.rule in rules && Applies(pair.rule, pair.group.path, membershipsOnly)
  {
    if groups != [] {
      RowHolds(groups[0], rules, membershipsOnly, pair);
      PairsHold(groups[1..], rules, membershipsOnly, pair);
      assert pair.group in groups <==> pair.group == groups[0] || pair.group in groups[1..];
    }
  }

  lemma {:induction false} RestHolds(reg: Registry, m: GroupMapping, rules: seq<Rule>, burial: Burial)
    ensures burial in Rest(reg, m, rules) <==>
      burial.mapping == m && burial.rule in rules && LeftOver(reg, burial.rule, m)
  {
    if rules != [] {
      RestHolds(reg, m, rules[1..], burial);
      assert burial.rule in rules <==> burial.rule == rules[0] || burial.rule in rules[1..];
    }
  }

  /** And the burials exactly the mappings left over, with the rules that have to retire them. */
  lemma {:induction false} BurialsHold(
      reg: Registry, mappings: seq<GroupMapping>, rules: seq<Rule>, present: set<(string, Id)>, burial: Burial)
    ensures burial in Burials(reg, mappings, rules, present) <==>
      && burial.mapping in mappings && burial.rule in rules && LeftOver(reg, burial.rule, burial.mapping)
      && (burial.mapping.rule, burial.mapping.sourceGroupId) !in present
  {
    if mappings != [] {
      RestHolds(reg, mappings[0], rules, burial);
      BurialsHold(reg, mappings[1..], rules, present, burial);
      assert burial.mapping in mappings <==> burial.mapping == mappings[0] || burial.mapping in mappings[1..];
    }
  }

  ghost predicate Once<T>(s: seq<T>) {
    forall i, j :: 0 <= i < j < |s| ==> s[i] != s[j]
  }

  lemma OnceConcat<T>(a: seq<T>, b: seq<T>)
    requires Once(a) && Once(b) && forall x <- a :: x !in b
    ensures Once(a + b)
  {
    forall i, j | 0 <= i < j < |a + b|
      ensures (a + b)[i] != (a + b)[j]
    {
      if i < |a| <= j {
        assert a[i] in a && b[j - |a|] in b;
      }
    }
  }

  lemma {:induction false} RowOnce(group: SourceGroup, rules: seq<Rule>, membershipsOnly: bool)
    requires Once(rules)
    ensures Once(Row(group, rules, membershipsOnly))
  {
    if rules != [] {
      RowOnce(group, rules[1..], membershipsOnly);
      var first := if Applies(rules[0], group.path, membershipsOnly) then [Pair(group, rules[0])] else [];
      RowHolds(group, rules[1..], membershipsOnly, Pair(group, rules[0]));
      assert rules[0] !in rules[1..];
      OnceConcat(first, Row(group, rules[1..], membershipsOnly));
    }
  }

  /** With distinct groups and rules, no pair comes twice: so each has exactly one live job. */
  lemma {:induction false} PairsOnce(groups: seq<SourceGroup>, rules: seq<Rule>, membershipsOnly: bool)
    requires Once(groups) && Once(rules)
    ensures Once(Pairs(groups, rules, membershipsOnly))
  {
    if groups != [] {
      var first, rest := Row(groups[0], rules, membershipsOnly), Pairs(groups[1..], rules, membershipsOnly);
      RowOnce(groups[0], rules, membershipsOnly);
      PairsOnce(groups[1..], rules, membershipsOnly);
      assert groups[0] !in groups[1..];
      forall pair | pair in first
        ensures pair !in rest
      {
        RowHolds(groups[0], rules, membershipsOnly, pair);
        PairsHold(groups[1..], rules, membershipsOnly, pair);
      }
      OnceConcat(first, rest);
    }
  }
}

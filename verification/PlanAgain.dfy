/**
 Planning once more after the jobs of a full plan were applied: the same live
 jobs, and a tombstone for every mapping that was not given up yet.
*/
module PlanAgain {
  import opened Wrappers
  import opened Ledger
  import opened Text
  import opened Paths
  import opened Sync
  import opened Planner
  import opened PlanAccounting
  import Store

  /** Mappings that plan alike. */
  predicate Alike(m: GroupMapping, n: GroupMapping) {
    && m.Key() == n.Key() && m.targetGroupPath == n.targetGroupPath && m.sourceGroupPath == n.sourceGroupPath
    && SourceNativeId(m) == SourceNativeId(n)
  }

  ghost function JobKey(reg: Registry, job: Job): BindingKey
    requires job.GroupJob? && SoundJob(reg, job)
  {
    BindingKey(reg.backends[job.provider].c.owner, job.req.rule, job.req.stateKey)
  }

  /** The live job's source is bound to the job's target. */
  ghost predicate BoundTo(reg: Registry, groups: Bindings, job: Job) {
    job.GroupJob? && job.tombstone.None? && SoundJob(reg, job) ==>
      JobKey(reg, job) in groups && groups[JobKey(reg, job)].targetGroupPath == job.req.targetPath
  }

  /** Every GitLab rule's mappings were recorded under the present key of its provider. */
  ghost predicate PresentKeys(reg: Registry, rules: seq<Rule>, groups: Bindings) {
    forall rule <- rules, k <- groups :: Available(reg, rule) && Follows(rule, k) ==>
      k.provider == reg.backends[rule.targetProvider].c.owner
  }

  predicate Available(reg: Registry, rule: Rule) {
    rule.vault.None? && rule.targetProvider in reg.backends && reg.backends[rule.targetProvider].GitLabBackend?
  }

  /** Every provider's key starts with its name. */
  ghost predicate NamedKeys(reg: Registry, rules: seq<Rule>) {
    forall rule <- rules :: Available(reg, rule) ==>
      HasPrefix(reg.backends[rule.targetProvider].c.owner, rule.targetProvider + "@")
  }

  lemma PresentOnce(reg: Registry, rules: seq<Rule>, groups: Bindings, rule: Rule)
    requires PresentKeys(reg, rules, groups) && rule in rules && Available(reg, rule)
    ensures OneFingerprint(rule, groups)
  {
  }

  // ----- where a live group is aimed, again -----

  lemma {:induction false} AimComplete(rule: Rule, key: Id, a: Aim, mappings: seq<GroupMapping>)
    ensures AimAll(rule, key, true, a, mappings).collisions == a.collisions
    ensures rule.vault.Some? ==> AimAll(rule, key, true, a, mappings) == a
    decreases mappings
  {
    if mappings != [] {
      AimComplete(rule, key, AimAt(rule, key, true, a, mappings[0]), mappings[1..]);
      assert a.collisions + [] == a.collisions;
    }
  }

  /** Bound to what it is aimed at, a source is aimed at the same target. */
  lemma AimSame(rule: Rule, key: Id, mapped: string, before: Bindings, after: Bindings, k: BindingKey)
    requires rule.vault.None? && KeysAgree(before) && KeysAgree(after) && OneFingerprint(rule, after)
    requires k in after && Own(rule, key, after[k])
    requires after[k].targetGroupPath == AimAll(rule, key, true, Aim(mapped, []), Listing(before)).target
    ensures AimAll(rule, key, true, Aim(mapped, []), Listing(after))
      == AimAll(rule, key, true, Aim(mapped, []), Listing(before))
  {
    AimComplete(rule, key, Aim(mapped, []), Listing(before));
    AimComplete(rule, key, Aim(mapped, []), Listing(after));
    ListingOneOwn(rule, key, after);
    AimOwn(rule, key, true, Aim(mapped, []), Listing(after));
    assert after[k] in after.Values;
  }

  // ----- planning only adds -----

  ghost predicate Adds(pl: Plan, out: Plan) {
    && pl.errs <= out.errs && pl.jobs <= out.jobs
    && (Claims(pl) && out.errs == [] ==> Claims(out))
  }

  /** The claims held are exactly those of the jobs. */
  ghost predicate Claims(pl: Plan) {
    pl.owners == set job | job in pl.jobs :: job.Key()
  }

  lemma RegisterAdds(reg: Registry, pl: Plan, group: SourceGroup, rule: Rule, key: Id, target: string)
    ensures Adds(pl, Register(reg, pl, group, rule, key, target))
  {
    RegisterShape(reg, pl, group, rule, key, target);
    var out := Register(reg, pl, group, rule, key, target);
    if |out.jobs| > |pl.jobs| {
      var job := out.jobs[|pl.jobs|];
      assert forall j :: j in out.jobs <==> j in pl.jobs || j == job;
    }
  }

  lemma LiveAdds(reg: Registry, mappings: seq<GroupMapping>, pl: Plan, group: SourceGroup, rule: Rule)
    ensures Adds(pl, PlanLive(reg, mappings, true, false, pl, group, rule))
  {
    var relative := RelativeGroupPath(group.path, rule.sourceGroupPrefix);
    if relative.Some? && FreshPath(reg, rule, relative.value).Some? {
      var key := SourceStateKey(rule, group);
      var aim := AimAll(rule, key, true, Aim(FreshPath(reg, rule, relative.value).value, []), mappings);
      RegisterAdds(reg, pl.(errs := pl.errs + aim.collisions), group, rule, key, aim.target);
    }
  }

  lemma {:induction false} RulesAdd(
      reg: Registry, mappings: seq<GroupMapping>, pl: Plan, group: SourceGroup, rules: seq<Rule>)
    ensures Adds(pl, PlanRules(reg, mappings, true, false, pl, group, rules))
    decreases rules
  {
    if rules != [] {
      LiveAdds(reg, mappings, pl, group, rules[0]);
      RulesAdd(reg, mappings, PlanLive(reg, mappings, true, false, pl, group, rules[0]), group, rules[1..]);
    }
  }

  lemma {:induction false} GroupsAdd(
      reg: Registry, mappings: seq<GroupMapping>, pl: Plan, groups: seq<SourceGroup>, rules: seq<Rule>)
    ensures Adds(pl, PlanGroups(reg, mappings, true, false, pl, groups, rules))
    decreases groups
  {
    if groups != [] {
      RulesAdd(reg, mappings, pl, groups[0], rules);
      GroupsAdd(reg, mappings, PlanRules(reg, mappings, true, false, pl, groups[0], rules), groups[1..], rules);
    }
  }

  // ----- the same live jobs -----

  /** Bindings to plan with, and later ones in which every job of a plan is bound. */
  ghost predicate Comparable(reg: Registry, rules: seq<Rule>, before: Bindings, after: Bindings) {
    && ValidRegistry(reg) && NamedKeys(reg, rules)
    && KeysAgree(before) && KeysAgree(after) && PresentKeys(reg, rules, after)
  }

  lemma LiveSame(
      reg: Registry, rules: seq<Rule>, before: Bindings, after: Bindings, pl: Plan, group: SourceGroup, rule: Rule)
    requires Comparable(reg, rules, before, after) && rule in rules
    requires var out := PlanLive(reg, Listing(before), true, false, pl, group, rule);
      out.errs == [] && forall job <- out.jobs :: BoundTo(reg, after, job)
    ensures PlanLive(reg, Listing(after), true, false, pl, group, rule)
      == PlanLive(reg, Listing(before), true, false, pl, group, rule)
  {
    var relative := RelativeGroupPath(group.path, rule.sourceGroupPrefix);
    if relative.Some? && SourcePathAllowed(rule, group.path) && FreshPath(reg, rule, relative.value).Some? {
      var key := SourceStateKey(rule, group);
      var mapped := FreshPath(reg, rule, relative.value).value;
      var aim := AimAll(rule, key, true, Aim(mapped, []), Listing(before));
      AimComplete(rule, key, Aim(mapped, []), Listing(before));
      AimComplete(rule, key, Aim(mapped, []), Listing(after));
      if rule.vault.None? {
        var pl1 := pl.(errs := pl.errs + aim.collisions);
        RegisterShape(reg, pl1, group, rule, key, aim.target);
        var out := Register(reg, pl1, group, rule, key, aim.target);
        BoundAim(reg, rules, before, after, rule, group, key, mapped, out.jobs[|pl.jobs|]);
      }
    }
  }

  lemma BoundAim(
      reg: Registry, rules: seq<Rule>, before: Bindings, after: Bindings, rule: Rule, group: SourceGroup, key: Id,
      mapped: string, job: Job)
    requires Comparable(reg, rules, before, after) && rule in rules && rule.vault.None?
    requires job == GroupJob(rule.targetProvider,
      LiveRequest(rule, key, group, AimAll(rule, key, true, Aim(mapped, []), Listing(before)).target), None)
    requires Available(reg, rule) && BoundTo(reg, after, job)
    ensures AimAll(rule, key, true, Aim(mapped, []), Listing(after))
      == AimAll(rule, key, true, Aim(mapped, []), Listing(before))
  {
    var k := JobKey(reg, job);
    assert after[k].Key() == k;
    PresentOnce(reg, rules, after, rule);
    AimSame(rule, key, mapped, before, after, k);
  }

  lemma {:induction false} RulesSame(
      reg: Registry, rules: seq<Rule>, before: Bindings, after: Bindings, pl: Plan, group: SourceGroup, rest: seq<Rule>)
    requires Comparable(reg, rules, before, after) && forall x <- rest :: x in rules
    requires var out := PlanRules(reg, Listing(before), true, false, pl, group, rest);
      out.errs == [] && forall job <- out.jobs :: BoundTo(reg, after, job)
    ensures PlanRules(reg, Listing(after), true, false, pl, group, rest)
      == PlanRules(reg, Listing(before), true, false, pl, group, rest)
    decreases rest
  {
    if rest != [] {
      var next := PlanLive(reg, Listing(before), true, false, pl, group, rest[0]);
      RulesAdd(reg, Listing(before), next, group, rest[1..]);
      LiveSame(reg, rules, before, after, pl, group, rest[0]);
      RulesSame(reg, rules, before, after, next, group, rest[1..]);
    }
  }

  lemma {:induction false} GroupsSame(
      reg: Registry, rules: seq<Rule>, before: Bindings, after: Bindings, pl: Plan, rest: seq<SourceGroup>)
    requires Comparable(reg, rules, before, after)
    requires var out := PlanGroups(reg, Listing(before), true, false, pl, rest, rules);
      out.errs == [] && forall job <- out.jobs :: BoundTo(reg, after, job)
    ensures PlanGroups(reg, Listing(after), true, false, pl, rest, rules)
      == PlanGroups(reg, Listing(before), true, false, pl, rest, rules)
    decreases rest
  {
    if rest != [] {
      var next := PlanRules(reg, Listing(before), true, false, pl, rest[0], rules);
      GroupsAdd(reg, Listing(before), next, rest[1..], rules);
      RulesSame(reg, rules, before, after, pl, rest[0], rules);
      GroupsSame(reg, rules, before, after, next, rest[1..]);
    }
  }

  // ----- the tombstones that are left -----

  /** A rule that buries this mapping. */
  predicate Buries(reg: Registry, rule: Rule, m: GroupMapping) {
    OfRule(rule, m) && rule.vault.None? && !Held(rule, m) && rule.targetProvider in reg.backends
  }

  /** The rule has a name of its own, so it alone can bury its mappings. */
  lemma {:induction false} OnlyItsRule(reg: Registry, pl: Plan, m: GroupMapping, rules: seq<Rule>)
    requires forall rule <- rules :: !Buries(reg, rule, m)
    ensures BuryRules(reg, pl, m, rules) == pl
    decreases rules
  {
    if rules != [] {
      assert !Buries(reg, rules[0], m) && forall rule <- rules[1..] :: rule in rules;
      OnlyItsRule(reg, pl, m, rules[1..]);
    }
  }

  lemma {:induction false} BuriedOnce(reg: Registry, pl: Plan, m: GroupMapping, rules: seq<Rule>, rule: Rule)
    requires UniqueNames(rules) && rule in rules && Buries(reg, rule, m)
    ensures BuryRules(reg, pl, m, rules) == Bury(reg, pl, m, rule)
    decreases rules
  {
    var i :| 0 <= i < |rules| && rules[i] == rule;
    if i == 0 {
      forall other | other in rules[1..]
        ensures !Buries(reg, other, m)
      {
        var j :| 0 <= j < |rules[1..]| && rules[1..][j] == other;
        assert rules[j + 1] == other;
      }
      OnlyItsRule(reg, Bury(reg, pl, m, rule), m, rules[1..]);
    } else {
      assert !Buries(reg, rules[0], m);
      assert rules[1..][i - 1] == rule;
      BuriedOnce(reg, pl, m, rules[1..], rule);
    }
  }

  /** Every job of a plan under way is one of the plan that succeeded, and mappings still to come have none yet. */
  ghost predicate Within(pl: Plan, jobs: seq<Job>, rest: seq<GroupMapping>) {
    && pl.errs == [] && Claims(pl)
    && (forall job <- pl.jobs :: job in jobs)
    && (forall job <- pl.jobs, m <- rest :: job.GroupJob? ==> job.tombstone != Some(m.Key()))
  }

  /** The plan that succeeded buries this mapping, or one like it. */
  ghost predicate BuriedIn(
      reg: Registry, rules: seq<Rule>, present: set<(string, Id)>, jobs: seq<Job>, m: GroupMapping)
  {
    (m.rule, m.sourceGroupId) in present || forall rule <- rules :: Buries(reg, rule, m) ==>
      TombstoneJob(rule, m) in jobs
  }

  lemma BuryWithin(reg: Registry, rules: seq<Rule>, pl: Plan, jobs: seq<Job>, rest: seq<GroupMapping>)
    requires UniqueNames(rules) && DistinctClaims(jobs) && (forall job <- jobs :: SoundJob(reg, job))
    requires rest != [] && Within(pl, jobs, rest) && Store.DistinctIds(rest, Store.MappingIds)
    requires BuriedIn(reg, rules, pl.present, jobs, rest[0])
    ensures var out := BuryMapping(reg, pl, rest[0], rules);
      Within(out, jobs, rest[1..]) && out.present == pl.present
  {
    var m := rest[0];
    assert forall n <- rest[1..] :: n in rest;
    forall n | n in rest[1..]
      ensures n.Key() != m.Key()
    {
      var i :| 0 <= i < |rest[1..]| && rest[1..][i] == n;
      assert rest[i + 1] == n && Store.MappingIds(rest[0]) != Store.MappingIds(rest[i + 1]);
    }
    if (m.rule, m.sourceGroupId) !in pl.present {
      if rule :| rule in rules && Buries(reg, rule, m) {
        BuriedOnce(reg, pl, m, rules, rule);
        FreeClaim(reg, rules, pl, jobs, rest, rule);
      } else {
        OnlyItsRule(reg, pl, m, rules);
      }
    }
  }

  lemma FreeClaim(reg: Registry, rules: seq<Rule>, pl: Plan, jobs: seq<Job>, rest: seq<GroupMapping>, rule: Rule)
    requires DistinctClaims(jobs) && (forall job <- jobs :: SoundJob(reg, job))
    requires rest != [] && Within(pl, jobs, rest) && Buries(reg, rule, rest[0]) && TombstoneJob(rule, rest[0]) in jobs
    ensures Bury(reg, pl, rest[0], rule)
      == pl.(jobs := pl.jobs + [TombstoneJob(rule, rest[0])], owners := pl.owners + {TombstoneJob(rule, rest[0]).Key()})
    ensures Claims(Bury(reg, pl, rest[0], rule))
  {
    var job := TombstoneJob(rule, rest[0]);
    assert forall j :: j in pl.jobs + [job] <==> j in pl.jobs || j == job;
  }

  lemma {:induction false} BuryAllWithin(
      reg: Registry, rules: seq<Rule>, pl: Plan, jobs: seq<Job>, rest: seq<GroupMapping>)
    requires UniqueNames(rules) && DistinctClaims(jobs) && (forall job <- jobs :: SoundJob(reg, job))
    requires Within(pl, jobs, rest) && Store.DistinctIds(rest, Store.MappingIds)
    requires forall m <- rest :: BuriedIn(reg, rules, pl.present, jobs, m)
    ensures Within(BuryAll(reg, pl, rest, rules), jobs, [])
    decreases rest
  {
    if rest != [] {
      BuryWithin(reg, rules, pl, jobs, rest);
      assert forall m <- rest[1..] :: m in rest;
      BuryAllWithin(reg, rules, BuryMapping(reg, pl, rest[0], rules), jobs, rest[1..]);
    }
  }

  // ----- the whole plan, again -----

  /** Later bindings: every live job is bound, and what was there is kept alike or given up. */
  ghost predicate Advanced(reg: Registry, jobs: seq<Job>, before: Bindings, after: Bindings) {
    && (forall job <- jobs :: BoundTo(reg, after, job))
    && (forall k <- after ::
          || (k in before && Alike(before[k], after[k]))
          || exists job <- jobs :: job.GroupJob? && job.tombstone.None? && SoundJob(reg, job) && k == JobKey(reg, job))
  }

  /**
   After any part of a full plan's tombstones has been given up, the next full plan
   succeeds, has the same live jobs, and buries just what is left.
  */
  lemma PlansAgain(
      reg: Registry, rules: seq<Rule>, sources: seq<SourceGroup>, before: Bindings, after: Bindings, r: Rule)
    requires UniqueNames(rules) && r in rules && r.vault.None? && Comparable(reg, rules, before, after)
    requires MakePlan(reg, Listing(before), true, false, sources, rules).errs == []
    requires Advanced(reg, MakePlan(reg, Listing(before), true, false, sources, rules).jobs, before, after)
    ensures var jobs := MakePlan(reg, Listing(before), true, false, sources, rules).jobs;
      var plan := MakePlan(reg, Listing(after), true, false, sources, rules);
      && plan.errs == []
      && (forall job <- plan.jobs :: job in jobs)
      && (forall job <- jobs :: (job.GroupJob? && job.tombstone.Some? ==> job.tombstone.value in after) ==>
        job in plan.jobs)
      && (forall job <- plan.jobs :: job.GroupJob? && job.tombstone.Some? ==> job.tombstone.value in after)
  {
    var ms, ns := Listing(before), Listing(after);
    var live := PlanGroups(reg, ms, true, false, NO_PLAN, sources, rules);
    var plan := MakePlan(reg, ms, true, false, sources, rules);
    FullPlanned(reg, ms, false, sources, rules, r);
    LivePlanned(reg, ms, true, false, sources, rules, r);
    GroupsAdd(reg, ms, NO_PLAN, sources, rules);
    GroupsSame(reg, rules, before, after, NO_PLAN, sources);
    JobsSound(reg, ms, true, false, sources, rules);
    StillBuried(reg, rules, sources, before, after, r);
    ListingDistinct(after);
    BuryAllWithin(reg, rules, live, plan.jobs, ns);
    FullPlanned(reg, ns, false, sources, rules, r);
    LeftTombstones(reg, rules, sources, before, after, r);
  }

  lemma AlikeTombstone(rule: Rule, m: GroupMapping, n: GroupMapping)
    requires Alike(m, n)
    ensures TombstoneJob(rule, m) == TombstoneJob(rule, n)
    ensures OfRule(rule, m) == OfRule(rule, n) && Held(rule, m) == Held(rule, n)
    ensures m.rule == n.rule && m.sourceGroupId == n.sourceGroupId
  {
  }

  /** A live job's source counts as present. */
  lemma LivePresent(reg: Registry, rules: seq<Rule>, sources: seq<SourceGroup>, groups: Bindings, r: Rule, job: Job)
    requires UniqueNames(rules) && r in rules && r.vault.None? && KeysAgree(groups)
    requires job in MakePlan(reg, Listing(groups), true, false, sources, rules).jobs && job.GroupJob?
      && job.tombstone.None?
    ensures var live := PlanGroups(reg, Listing(groups), true, false, NO_PLAN, sources, rules);
      job in live.jobs && (job.req.rule, job.req.stateKey) in live.present
  {
    FullPlanned(reg, Listing(groups), false, sources, rules, r);
    LivePlanned(reg, Listing(groups), true, false, sources, rules, r);
  }

  lemma StillBuried(
      reg: Registry, rules: seq<Rule>, sources: seq<SourceGroup>, before: Bindings, after: Bindings, r: Rule)
    requires UniqueNames(rules) && r in rules && r.vault.None? && KeysAgree(before) && KeysAgree(after)
    requires MakePlan(reg, Listing(before), true, false, sources, rules).errs == []
    requires Advanced(reg, MakePlan(reg, Listing(before), true, false, sources, rules).jobs, before, after)
    ensures var live := PlanGroups(reg, Listing(before), true, false, NO_PLAN, sources, rules);
      forall n <- Listing(after) ::
        BuriedIn(reg, rules, live.present, MakePlan(reg, Listing(before), true, false, sources, rules).jobs, n)
  {
    var ms := Listing(before);
    var live := PlanGroups(reg, ms, true, false, NO_PLAN, sources, rules);
    var jobs := MakePlan(reg, ms, true, false, sources, rules).jobs;
    FullPlanned(reg, ms, false, sources, rules, r);
    forall n | n in Listing(after)
      ensures BuriedIn(reg, rules, live.present, jobs, n)
    {
      assert n in after.Values;
      var k := n.Key();
      assert k in after && after[k] == n;
      if k in before && Alike(before[k], n) {
        var m := before[k];
        assert m in before.Values && m in ms;
        forall rule | rule in rules && Buries(reg, rule, n) && (n.rule, n.sourceGroupId) !in live.present
          ensures TombstoneJob(rule, n) in jobs
        {
          AlikeTombstone(rule, m, n);
        }
      } else {
        var job :| job in jobs && job.GroupJob? && job.tombstone.None? && SoundJob(reg, job) && k == JobKey(reg, job);
        LivePresent(reg, rules, sources, before, r, job);
      }
    }
  }

  lemma LeftTombstones(
      reg: Registry, rules: seq<Rule>, sources: seq<SourceGroup>, before: Bindings, after: Bindings, r: Rule)
    requires UniqueNames(rules) && r in rules && r.vault.None? && KeysAgree(before) && KeysAgree(after)
    requires MakePlan(reg, Listing(before), true, false, sources, rules).errs == []
    requires Advanced(reg, MakePlan(reg, Listing(before), true, false, sources, rules).jobs, before, after)
    requires MakePlan(reg, Listing(after), true, false, sources, rules).errs == []
    requires PlanGroups(reg, Listing(after), true, false, NO_PLAN, sources, rules)
      == PlanGroups(reg, Listing(before), true, false, NO_PLAN, sources, rules)
    ensures var jobs := MakePlan(reg, Listing(before), true, false, sources, rules).jobs;
      var plan := MakePlan(reg, Listing(after), true, false, sources, rules);
      && (forall job <- jobs :: (job.GroupJob? && job.tombstone.Some? ==> job.tombstone.value in after) ==>
        job in plan.jobs)
      && (forall job <- plan.jobs :: job.GroupJob? && job.tombstone.Some? ==> job.tombstone.value in after)
  {
    var ms, ns := Listing(before), Listing(after);
    var live := PlanGroups(reg, ms, true, false, NO_PLAN, sources, rules);
    var jobs := MakePlan(reg, ms, true, false, sources, rules).jobs;
    var plan := MakePlan(reg, ns, true, false, sources, rules);
    FullPlanned(reg, ms, false, sources, rules, r);
    FullPlanned(reg, ns, false, sources, rules, r);
    LivePlanned(reg, ms, true, false, sources, rules, r);
    forall job | job in jobs && (job.GroupJob? && job.tombstone.Some? ==> job.tombstone.value in after)
      ensures job in plan.jobs
    {
      if job !in live.jobs {
        var m, rule :| m in ms && rule in rules && BuriedBy(reg, ms, live.present, job, m, rule);
        LeftTombstone(reg, rules, sources, before, after, r, m, rule);
      }
    }
    forall job | job in plan.jobs && job.GroupJob? && job.tombstone.Some?
      ensures job.tombstone.value in after
    {
      var n, rule :| n in ns && rule in rules && BuriedBy(reg, ns, live.present, job, n, rule);
      assert n in after.Values;
    }
  }

  lemma LeftTombstone(
      reg: Registry, rules: seq<Rule>, sources: seq<SourceGroup>, before: Bindings, after: Bindings, r: Rule,
      m: GroupMapping, rule: Rule)
    requires UniqueNames(rules) && r in rules && r.vault.None? && KeysAgree(before) && KeysAgree(after)
    requires Advanced(reg, MakePlan(reg, Listing(before), true, false, sources, rules).jobs, before, after)
    requires MakePlan(reg, Listing(after), true, false, sources, rules).errs == []
    requires PlanGroups(reg, Listing(after), true, false, NO_PLAN, sources, rules)
      == PlanGroups(reg, Listing(before), true, false, NO_PLAN, sources, rules)
    requires rule in rules && m in Listing(before) && m.Key() in after && Buries(reg, rule, m)
    requires
      (m.rule, m.sourceGroupId) !in PlanGroups(reg, Listing(before), true, false, NO_PLAN, sources, rules).present
    ensures TombstoneJob(rule, m) in MakePlan(reg, Listing(after), true, false, sources, rules).jobs
  {
    var jobs := MakePlan(reg, Listing(before), true, false, sources, rules).jobs;
    var k := m.Key();
    assert m in before.Values;
    assert k in before && before[k] == m;
    if !Alike(m, after[k]) {
      var job :| job in jobs && job.GroupJob? && job.tombstone.None? && SoundJob(reg, job) && k == JobKey(reg, job);
      LivePresent(reg, rules, sources, before, r, job);
    }
    AlikeTombstone(rule, m, after[k]);
    FullPlanned(reg, Listing(after), false, sources, rules, r);
    assert after[k] in after.Values && after[k] in Listing(after);
  }

  lemma ListingDistinct(groups: Bindings)
    requires KeysAgree(groups)
    ensures Store.DistinctIds(Listing(groups), Store.MappingIds)
  {
    var s := Listing(groups);
    forall i, j | 0 <= i < j < |s|
      ensures Store.MappingIds(s[i]) != Store.MappingIds(s[j])
    {
      TupleTotal(Store.MappingIds(s[i]), Store.MappingIds(s[j]));
    }
  }
}

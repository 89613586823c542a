/**
 The reconciler as it runs: a plan built in nested loops over groups, rules and
 mappings, checked providers, and jobs applied one after the other.
*/
module Reconciler {
  import opened Wrappers
  import opened Ledger
  import opened Paths
  import opened Planner
  import opened GitLab
  import opened Store
  import S = Sync
  import Migration
  import PlanAccounting
  import PlanRuns

  class Reconciler {
    const reg: Registry
    const rules: seq<Rule>
    const server: Server
    const store: Store
    const providers: map<string, Provider>

    constructor (reg: Registry, rules: seq<Rule>, server: Server, store: Store, providers: map<string, Provider>)
      ensures this.reg == reg && this.rules == rules && this.server == server && this.store == store
        && this.providers == providers
    {
      this.reg := reg;
      this.rules := rules;
      this.server := server;
      this.store := store;
      this.providers := providers;
    }

    /** Every GitLab backend has its provider over the one server and store. */
    ghost predicate Valid()
      reads this, server, store, store.disk
    {
      && store.Valid() && store.env == server.env && reg.fault == server.env.fault
      && ValidRegistry(reg)
      && (forall name <- reg.backends :: reg.backends[name].GitLabBackend? ==>
            && name in providers && providers[name].c == reg.backends[name].c
            && providers[name].server == server && providers[name].store == store
            && reg.backends[name].c.fault == server.env.fault)
    }

    ghost function World(): S.World
      requires store.Decodable()
      reads this, server, store, store.disk, server.env
    {
      server.At(store.Snapshot())
    }

    // ----- planning -----

    method AimLive(rule: Rule, key: Id, complete: bool, mapped: string, mappings: seq<GroupMapping>) returns (a: Aim)
      ensures a == AimAll(rule, key, complete, Aim(mapped, []), mappings)
    {
      var targetPath, errs := mapped, [];
      for i := 0 to |mappings|
        invariant AimAll(rule, key, complete, Aim(targetPath, errs), mappings[i..])
          == AimAll(rule, key, complete, Aim(mapped, []), mappings)
      {
        var m := mappings[i];
        assert mappings[i..][0] == m && mappings[i..][1..] == mappings[i + 1..];
        assert errs + [] == errs;
        if rule.vault.None? && OfRule(rule, m) && m.sourceGroupId == key && m.targetGroupPath != targetPath {
          targetPath := m.targetGroupPath;
        }
        if !complete && rule.vault.None? && OfRule(rule, m) && m.sourceGroupId != key
          && m.targetGroupPath == targetPath {
          errs := errs + [TargetTaken];
        }
      }
      a := Aim(targetPath, errs);
    }

    method MapTarget(rule: Rule, relative: string) returns (r: Option<string>)
      ensures r == FreshPath(reg, rule, relative)
    {
      if rule.vault.Some? {
        r := MapVaultSecretPath(reg.lower, rule.vault.value.pathPrefix, relative);
      } else {
        r := MapTargetGroupPath(reg.lower, rule.targetParent, relative);
      }
    }

    method PlanOne(
        mappings: seq<GroupMapping>, complete: bool, membershipsOnly: bool, pl0: Plan, group: S.SourceGroup,
        rule: Rule) returns (pl: Plan)
      ensures pl == PlanLive(reg, mappings, complete, membershipsOnly, pl0, group, rule)
    {
      pl := pl0;
      if membershipsOnly && rule.vault.Some? {
        return;
      }
      var relative := RelativeGroupPath(group.path, rule.sourceGroupPrefix);
      if relative.None? || !SourcePathAllowed(rule, group.path) {
        return;
      }
      var mapped := MapTarget(rule, relative.value);
      if mapped.None? {
        return Fail(pl, BadPath);
      }
      var key := SourceStateKey(rule, group);
      var aim := AimLive(rule, key, complete, mapped.value, mappings);
      pl := pl.(errs := pl.errs + aim.collisions);
      if rule.targetProvider !in reg.backends {
        return Fail(pl, Unavailable);
      }
      var claim := Claim(rule.targetProvider, aim.target);
      if claim in pl.owners {
        return Fail(pl, Duplicate);
      }
      pl := pl.(owners := pl.owners + {claim}, present := pl.present + {(rule.name, key)});
      if rule.vault.Some? {
        if reg.backends[rule.targetProvider].GitLabBackend? {
          return Fail(pl, Unsupported);
        }
        return pl.(jobs := pl.jobs
          + [AccessJob(rule.targetProvider, rule.name, key, group.(members := []), aim.target)]);
      }
      if reg.backends[rule.targetProvider].VaultBackend? {
        return Fail(pl, Unsupported);
      }
      return pl.(jobs := pl.jobs + [GroupJob(rule.targetProvider, LiveRequest(rule, key, group, aim.target), None)]);
    }

    method PlanAllRules(
        mappings: seq<GroupMapping>, complete: bool, membershipsOnly: bool, pl0: Plan,
        group: S.SourceGroup) returns (pl: Plan)
      ensures pl == PlanRules(reg, mappings, complete, membershipsOnly, pl0, group, rules)
    {
      pl := pl0;
      for i := 0 to |rules|
        invariant PlanRules(reg, mappings, complete, membershipsOnly, pl, group, rules[i..])
               == PlanRules(reg, mappings, complete, membershipsOnly, pl0, group, rules)
      {
        assert rules[i..][0] == rules[i] && rules[i..][1..] == rules[i + 1..];
        pl := PlanOne(mappings, complete, membershipsOnly, pl, group, rules[i]);
      }
    }

    method BuryOne(pl0: Plan, m: GroupMapping) returns (pl: Plan)
      ensures pl == BuryMapping(reg, pl0, m, rules)
    {
      pl := pl0;
      if (m.rule, m.sourceGroupId) in pl.present {
        return;
      }
      for i := 0 to |rules|
        invariant BuryRules(reg, pl, m, rules[i..]) == BuryRules(reg, pl0, m, rules)
      {
        var rule := rules[i];
        assert rules[i..][0] == rule && rules[i..][1..] == rules[i + 1..];
        if OfRule(rule, m) && rule.vault.None? && !Held(rule, m) && rule.targetProvider in reg.backends {
          var claim := Claim(rule.targetProvider, m.targetGroupPath);
          if claim in pl.owners {
            pl := Fail(pl, TombstoneCollision);
          } else {
            pl := pl.(owners := pl.owners + {claim});
            if reg.backends[rule.targetProvider].VaultBackend? {
              pl := Fail(pl, Unsupported);
            } else {
              pl := pl.(jobs := pl.jobs + [GroupJob(rule.targetProvider, TombstoneRequest(rule, m), Some(m.Key()))]);
            }
          }
        }
      }
    }

    method BuildPlan(
        mappings: seq<GroupMapping>, complete: bool, membershipsOnly: bool,
        groups: seq<S.SourceGroup>) returns (pl: Plan)
      ensures pl == MakePlan(reg, mappings, complete, membershipsOnly, groups, rules)
    {
      pl := NO_PLAN;
      for i := 0 to |groups|
        invariant PlanGroups(reg, mappings, complete, membershipsOnly, pl, groups[i..], rules)
               == PlanGroups(reg, mappings, complete, membershipsOnly, NO_PLAN, groups, rules)
      {
        assert groups[i..][0] == groups[i] && groups[i..][1..] == groups[i + 1..];
        pl := PlanAllRules(mappings, complete, membershipsOnly, pl, groups[i]);
      }
      if complete {
        ghost var live := pl;
        for i := 0 to |mappings|
          invariant BuryAll(reg, pl, mappings[i..], rules) == BuryAll(reg, live, mappings, rules)
        {
          assert mappings[i..][0] == mappings[i] && mappings[i..][1..] == mappings[i + 1..];
          pl := BuryOne(pl, mappings[i]);
        }
      }
    }

    // ----- applying -----

    /** All required providers are asked; one failure is enough to stop. */
    method HealthErrors(required: set<string>, tick: nat) returns (failed: set<string>)
      ensures failed == {} <==> forall name <- required :: reg.healthy(tick, name)
    {
      failed := {};
      var left := required;
      while left != {}
        invariant left <= required
        invariant failed == {} <==> forall name <- required - left :: reg.healthy(tick, name)
        decreases left
      {
        var name :| name in left;
        if !reg.healthy(tick, name) {
          failed := failed + {name};
        }
        left := left - {name};
      }
    }

    method RetireBinding(k: BindingKey) returns (ok: bool)
      requires Valid()
      modifies store, store.disk, store.env`tick
      ensures Valid()
      ensures (World(), ok) == Retire(reg.fault, old(World()), k)
    {
      ok := store.DeleteGroup(k);
    }

    method SyncJob(name: string, req: S.Request) returns (r: S.Result, error: Option<S.Error>)
      requires Valid() && name in reg.backends && reg.backends[name].GitLabBackend?
      modifies server, store, store.disk, store.env
      ensures Valid()
      ensures reg.backends[name].c.Valid()
        && S.Step(World(), r, error) == S.SyncGroup(reg.backends[name].c, req, old(World()))
    {
      r, error := providers[name].SyncGroup(req);
    }

    method ApplyGroup(name: string, req: S.Request, tombstone: Option<BindingKey>) returns (ok: bool)
      requires Valid() && SoundJob(reg, GroupJob(name, req, tombstone))
      modifies server, store, store.disk, store.env
      ensures Valid()
      ensures (World(), ok) == ApplyJob(reg, old(World()), GroupJob(name, req, tombstone))
    {
      var result, syncErr := SyncJob(name, req);
      if syncErr.Some? {
        return false;
      }
      ok := true;
      if tombstone.Some? && result.converged {
        ok := RetireBinding(tombstone.value);
      }
    }

    method Apply(job: Job) returns (ok: bool)
      requires Valid() && SoundJob(reg, job)
      modifies server, store, store.disk, store.env
      ensures Valid()
      ensures (World(), ok) == ApplyJob(reg, old(World()), job)
    {
      match job
      case AccessJob(_, _, _, _, _) =>
        ok := reg.access(store.env.tick);
        var _ := store.env.Next();
      case GroupJob(name, req, tombstone) =>
        ok := ApplyGroup(name, req, tombstone);
    }

    /** The plan against the mappings as the store lists them. */
    method PlanFromLedger(groups: seq<S.SourceGroup>, complete: bool, membershipsOnly: bool) returns (plan: Plan)
      requires Valid()
      ensures plan == MakePlan(reg, Listing(store.groups), complete, membershipsOnly, groups, rules)
        && AllSound(reg, plan)
    {
      var mappings := store.GroupMappings();
      ListingUnique(mappings, Listing(store.groups), store.groups.Values, MappingIds);
      plan := BuildPlan(mappings, complete, membershipsOnly, groups);
      JobsSound(reg, mappings, complete, membershipsOnly, groups, rules);
    }

    method AllHealthy(required: set<string>) returns (ok: bool)
      requires Valid()
      modifies store.env`tick
      ensures Valid() && World() == S.Call(old(World()))
      ensures ok <==> forall name <- required :: reg.healthy(old(store.env.tick), name)
    {
      var tick := store.env.tick;
      var _ := store.env.Next();
      var failed := HealthErrors(required, tick);
      ok := failed == {};
    }

    /** `reconcileGroups`: no job runs unless the whole plan and every required provider is good. */
    method ReconcileGroups(
        groups: seq<S.SourceGroup>, complete: bool, membershipsOnly: bool) returns (ok: bool, applied: bool)
      requires Valid()
      modifies server, store, store.disk, store.env
      ensures Valid()
      ensures Reconciled(World(), ok, applied) == Reconcile(reg, old(World()), groups, rules, complete, membershipsOnly)
      ensures var plan := MakePlan(reg, Listing(old(store.groups)), complete, membershipsOnly, groups, rules);
        applied <==> plan.errs == [] && PlanAccounting.ProvidersHealthy(reg, old(store.env.tick), complete, plan.jobs)
      ensures !applied ==>
        && !ok && server.groups == old(server.groups) && server.members == old(server.members)
        && store.Snapshot() == old(store.Snapshot())
    {
      PlanAccounting.HealthGate(reg, World(), groups, rules, complete, membershipsOnly);
      var plan := PlanFromLedger(groups, complete, membershipsOnly);
      if plan.errs != [] {
        return false, false;
      }
      var healthy := AllHealthy(Required(reg, complete, plan.jobs));
      if !healthy {
        return false, false;
      }
      applied := true;
      ok := ApplyAllJobs(plan);
    }

    /** One job after the other; a failing one does not stop the rest. */
    method ApplyAllJobs(plan: Plan) returns (ok: bool)
      requires Valid() && AllSound(reg, plan)
      modifies server, store, store.disk, store.env
      ensures Valid()
      ensures (World(), ok) == ApplyAll(reg, old(World()), true, plan.jobs)
    {
      ok := true;
      ghost var before := World();
      for i := 0 to |plan.jobs|
        invariant Valid()
        invariant ApplyAll(reg, World(), ok, plan.jobs[i..]) == ApplyAll(reg, before, true, plan.jobs)
      {
        assert plan.jobs[i..][0] == plan.jobs[i] && plan.jobs[i..][1..] == plan.jobs[i + 1..];
        assert plan.jobs[i] in plan.jobs;
        var done := Apply(plan.jobs[i]);
        ok := ok && done;
      }
    }

    /** `RunOnce` and `RunGroupOnce` from the point where the source has been read. */
    method RunOnce(groups: seq<S.SourceGroup>, complete: bool, membershipsOnly: bool) returns (ok: bool)
      requires Valid()
      modifies server, store, store.disk, store.env
      ensures Valid()
      ensures World() == PlanRuns.RunOnce(reg, rules, old(World()), groups, complete, membershipsOnly)
    {
      ok := Migration.MigrateCanonicalMappings(store, groups, rules);
      if !ok {
        return;
      }
      var applied;
      ok, applied := ReconcileGroups(groups, complete, membershipsOnly);
    }
  }
}

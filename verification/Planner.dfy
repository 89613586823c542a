/**
 Turning a snapshot of the source into jobs, checking the plan against the
 ledger, and applying it (`reconcileGroups`).
*/
module Planner {
  import opened Wrappers
  import opened Ledger
  import opened Text
  import opened Paths
  import opened Sync
  import Store

  datatype Backend = GitLabBackend(c: Client) | VaultBackend

  /** The configured providers and the outcomes of the calls that have no model of their own. */
  datatype Registry = Registry(
    backends: map<string, Backend>,
    lower: Lowering,
    healthy: (nat, string) -> bool,
    access: nat -> bool,
    fault: nat -> Fault)

  datatype Job =
    | GroupJob(provider: string, req: Request, tombstone: Option<BindingKey>)
    | AccessJob(provider: string, rule: string, stateKey: Id, group: SourceGroup, secretPath: string)
  {
    function Target(): string {
      match this
      case GroupJob(_, req, _) => req.targetPath
      case AccessJob(_, _, _, _, path) => path
    }

    function Key(): Claim {
      Claim(provider, Target())
    }
  }

  /** Who owns what: a target name and a path on it. */
  datatype Claim = Claim(provider: string, path: string)

  datatype PlanError = BadPath | TargetTaken | Unavailable | Duplicate | Unsupported | TombstoneCollision

  datatype Plan = Plan(jobs: seq<Job>, owners: set<Claim>, present: set<(string, Id)>, errs: seq<PlanError>)

  const NO_PLAN := Plan([], {}, {}, [])

  function SourceStateKey(rule: Rule, group: SourceGroup): Id {
    if rule.vault.Some? || rule.sourceGroupPaths.Some? then group.path else group.id
  }

  predicate SourcePathAllowed(rule: Rule, path: string) {
    rule.sourceGroupPaths.None? || path in rule.sourceGroupPaths.value
  }

  function SourceNativeId(m: GroupMapping): Id {
    if m.sourceNativeId != "" then m.sourceNativeId else m.sourceGroupId
  }

  /** The mapping belongs to the rule and to a provider of the rule's target name. */
  predicate OfRule(rule: Rule, m: GroupMapping) {
    m.rule == rule.name && HasPrefix(m.provider, rule.targetProvider + "@")
  }

  // ----- where a live group goes -----

  datatype Aim = Aim(target: string, collisions: seq<PlanError>)

  /** An established target wins over the fresh one; a targeted run may not take another source's. */
  function AimAt(rule: Rule, key: Id, complete: bool, a: Aim, m: GroupMapping): Aim {
    var target :=
      if rule.vault.None? && OfRule(rule, m) && m.sourceGroupId == key && m.targetGroupPath != a.target
      then m.targetGroupPath else a.target;
    var taken := !complete && rule.vault.None? && OfRule(rule, m) && m.sourceGroupId != key
      && m.targetGroupPath == target;
    Aim(target, a.collisions + if taken then [TargetTaken] else [])
  }

  function AimAll(rule: Rule, key: Id, complete: bool, a: Aim, mappings: seq<GroupMapping>): Aim
    decreases mappings
  {
    if mappings == [] then a else AimAll(rule, key, complete, AimAt(rule, key, complete, a, mappings[0]), mappings[1..])
  }

  function FreshPath(reg: Registry, rule: Rule, relative: string): Option<string> {
    if rule.vault.Some? then VaultSecretPath(reg.lower, rule.vault.value.pathPrefix, relative)
    else TargetGroupPath(reg.lower, rule.targetParent, relative)
  }

  function LiveRequest(rule: Rule, key: Id, group: SourceGroup, target: string): Request {
    Request(rule.name, key, group, target, rule.targetParent, rule.createGroups, rule.adopt,
            rule.accessLevel, rule.prune, rule.protectedUsers, rule.maxRemovals, rule.identityMatch, rule.enforce,
            false)
  }

  /** A tombstone has no members, creates nothing, and is immediate for an exact allowlist. */
  function TombstoneRequest(rule: Rule, m: GroupMapping): Request {
    Request(rule.name, m.sourceGroupId, SourceGroup(SourceNativeId(m), "", m.sourceGroupPath, []),
            m.targetGroupPath, rule.targetParent, false, rule.adopt,
            rule.accessLevel, rule.prune, rule.protectedUsers, rule.maxRemovals, rule.identityMatch, rule.enforce,
            rule.sourceGroupPaths.Some?)
  }

  /** The job that a full plan makes for a mapping whose source is gone. */
  function TombstoneJob(rule: Rule, m: GroupMapping): Job {
    GroupJob(rule.targetProvider, TombstoneRequest(rule, m), Some(m.Key()))
  }

  function Fail(pl: Plan, e: PlanError): Plan {
    pl.(errs := pl.errs + [e])
  }

  /** One group under one rule. */
  function PlanLive(
      reg: Registry, mappings: seq<GroupMapping>, complete: bool, membershipsOnly: bool, pl: Plan, group: SourceGroup,
      rule: Rule): Plan
  {
    if membershipsOnly && rule.vault.Some? then pl
    else
      match RelativeGroupPath(group.path, rule.sourceGroupPrefix)
      case None => pl
      case Some(relative) =>
        if !SourcePathAllowed(rule, group.path) then pl
        else
          match FreshPath(reg, rule, relative)
          case None => Fail(pl, BadPath)
          case Some(mapped) =>
            var key := SourceStateKey(rule, group);
            var aim := AimAll(rule, key, complete, Aim(mapped, []), mappings);
            Register(reg, pl.(errs := pl.errs + aim.collisions), group, rule, key, aim.target)
  }

  function Register(reg: Registry, pl: Plan, group: SourceGroup, rule: Rule, key: Id, target: string): Plan {
    if rule.targetProvider !in reg.backends then Fail(pl, Unavailable)
    else
      var claim := Claim(rule.targetProvider, target);
      if claim in pl.owners then Fail(pl, Duplicate)
      else
        var pl1 := pl.(owners := pl.owners + {claim}, present := pl.present + {(rule.name, key)});
        if rule.vault.Some? then
          if reg.backends[rule.targetProvider].GitLabBackend? then Fail(pl1, Unsupported)
          else pl1.(jobs := pl1.jobs + [AccessJob(rule.targetProvider, rule.name, key, group.(members := []), target)])
        else if reg.backends[rule.targetProvider].VaultBackend? then Fail(pl1, Unsupported)
        else pl1.(jobs := pl1.jobs + [GroupJob(rule.targetProvider, LiveRequest(rule, key, group, target), None)])
  }

  function PlanRules(
      reg: Registry, mappings: seq<GroupMapping>, complete: bool, membershipsOnly: bool, pl: Plan, group: SourceGroup,
      rules: seq<Rule>): Plan
    decreases rules
  {
    if rules == [] then pl
    else PlanRules(reg, mappings, complete, membershipsOnly,
      PlanLive(reg, mappings, complete, membershipsOnly, pl, group, rules[0]), group, rules[1..])
  }

  function PlanGroups(
      reg: Registry, mappings: seq<GroupMapping>, complete: bool, membershipsOnly: bool, pl: Plan,
      groups: seq<SourceGroup>, rules: seq<Rule>): Plan
    decreases groups
  {
    if groups == [] then pl
    else PlanGroups(reg, mappings, complete, membershipsOnly,
      PlanRules(reg, mappings, complete, membershipsOnly, pl, groups[0], rules), groups[1..], rules)
  }

  // ----- tombstones -----

  /** Listed but absent: the exact allowlist holds the mapping. */
  predicate Held(rule: Rule, m: GroupMapping) {
    rule.sourceGroupPaths.Some? && SourcePathAllowed(rule, m.sourceGroupPath)
  }

  function Bury(reg: Registry, pl: Plan, m: GroupMapping, rule: Rule): Plan {
    if !OfRule(rule, m) || rule.vault.Some? || Held(rule, m) || rule.targetProvider !in reg.backends then pl
    else
      var claim := Claim(rule.targetProvider, m.targetGroupPath);
      if claim in pl.owners then Fail(pl, TombstoneCollision)
      else
        var pl1 := pl.(owners := pl.owners + {claim});
        if reg.backends[rule.targetProvider].VaultBackend? then Fail(pl1, Unsupported)
        else pl1.(jobs := pl1.jobs + [TombstoneJob(rule, m)])
  }

  function BuryRules(reg: Registry, pl: Plan, m: GroupMapping, rules: seq<Rule>): Plan
    decreases rules
  {
    if rules == [] then pl else BuryRules(reg, Bury(reg, pl, m, rules[0]), m, rules[1..])
  }

  function BuryMapping(reg: Registry, pl: Plan, m: GroupMapping, rules: seq<Rule>): Plan {
    if (m.rule, m.sourceGroupId) in pl.present then pl else BuryRules(reg, pl, m, rules)
  }

  function BuryAll(reg: Registry, pl: Plan, mappings: seq<GroupMapping>, rules: seq<Rule>): Plan
    decreases mappings
  {
    if mappings == [] then pl else BuryAll(reg, BuryMapping(reg, pl, mappings[0], rules), mappings[1..], rules)
  }

  function MakePlan(
      reg: Registry, mappings: seq<GroupMapping>, complete: bool, membershipsOnly: bool, groups: seq<SourceGroup>,
      rules: seq<Rule>): Plan
  {
    var live := PlanGroups(reg, mappings, complete, membershipsOnly, NO_PLAN, groups, rules);
    if complete then BuryAll(reg, live, mappings, rules) else live
  }

  // ----- applying a plan -----

  function Retire(fault: nat -> Fault, w: World, k: BindingKey): (World, bool) {
    if k !in w.books.memory.groups then (w, true) else SaveWith(fault, w, Delete(w.books.memory, k))
  }

  ghost predicate SoundJob(reg: Registry, job: Job) {
    job.GroupJob? ==>
      && job.provider in reg.backends && reg.backends[job.provider].GitLabBackend?
      && reg.backends[job.provider].c.Valid()
  }

  function ApplyJob(reg: Registry, w: World, job: Job): (World, bool)
    requires SoundJob(reg, job)
  {
    match job
    case AccessJob(_, _, _, _, _) => (Call(w), reg.access(w.tick))
    case GroupJob(provider, req, tombstone) =>
      var out := SyncGroup(reg.backends[provider].c, req, w);
      if out.error.Some? then (out.w, false)
      else if tombstone.Some? && out.r.converged then Retire(reg.fault, out.w, tombstone.value)
      else (out.w, true)
  }

  function ApplyAll(reg: Registry, w: World, ok: bool, jobs: seq<Job>): (World, bool)
    requires forall job <- jobs :: SoundJob(reg, job)
    decreases jobs
  {
    if jobs == [] then (w, ok)
    else
      var (w1, applied) := ApplyJob(reg, w, jobs[0]);
      ApplyAll(reg, w1, ok && applied, jobs[1..])
  }

  /** Every job is applied, in order, whatever became of the others; the run succeeds if all did. */
  lemma {:induction false} AppliedOneByOne(reg: Registry, w: World, ok: bool, jobs: seq<Job>)
      returns (worlds: seq<World>)
    requires forall job <- jobs :: SoundJob(reg, job)
    ensures |worlds| == |jobs| + 1 && worlds[0] == w && worlds[|jobs|] == ApplyAll(reg, w, ok, jobs).0
    ensures forall i :: 0 <= i < |jobs| ==>
      SoundJob(reg, jobs[i]) && worlds[i + 1] == ApplyJob(reg, worlds[i], jobs[i]).0
    ensures ApplyAll(reg, w, ok, jobs).1 <==> ok && forall i :: 0 <= i < |jobs| ==> ApplyJob(reg, worlds[i], jobs[i]).1
    decreases jobs
  {
    worlds := [w];
    if jobs != [] {
      var (w1, applied) := ApplyJob(reg, w, jobs[0]);
      var rest := AppliedOneByOne(reg, w1, ok && applied, jobs[1..]);
      worlds := [w] + rest;
      forall i | 1 <= i < |jobs|
        ensures worlds[i + 1] == ApplyJob(reg, worlds[i], jobs[i]).0
        ensures ApplyJob(reg, worlds[i], jobs[i]).1 == ApplyJob(reg, rest[i - 1], jobs[1..][i - 1]).1
      {
        assert jobs[i] == jobs[1..][i - 1] && worlds[i] == rest[i - 1];
      }
      assert forall i :: 0 <= i < |jobs| - 1 ==> jobs[1..][i] == jobs[i + 1] && rest[i] == worlds[i + 1];
    }
  }

  function Required(reg: Registry, complete: bool, jobs: seq<Job>): set<string> {
    if complete then reg.backends.Keys else set job | job in jobs :: job.provider
  }

  ghost predicate ValidRegistry(reg: Registry) {
    forall name <- reg.backends :: reg.backends[name].GitLabBackend? ==> reg.backends[name].c.Valid()
  }

  /** The ledger's mappings in the order the store lists them. */
  ghost function Listing(groups: Bindings): (r: seq<GroupMapping>)
    requires forall k <- groups :: groups[k].Key() == k
    ensures Store.SortedBy(r, Store.MappingIds) && Store.Lists(r, groups.Values)
  {
    ListingExists(groups);
    var r :| Store.SortedBy(r, Store.MappingIds) && Store.Lists(r, groups.Values);
    r
  }

  lemma ListingExists(groups: Bindings)
    requires forall k <- groups :: groups[k].Key() == k
    ensures exists r :: Store.SortedBy(r, Store.MappingIds) && Store.Lists(r, groups.Values)
  {
    forall g, h | g in groups.Values && h in groups.Values && Store.MappingIds(g) == Store.MappingIds(h)
      ensures g == h
    {
      Store.SameMappingIds(g, h);
      assert groups[g.Key()] == g && groups[h.Key()] == h;
    }
    var r := Store.ListingOf(groups.Values, Store.MappingIds);
  }

  datatype Reconciled = Reconciled(w: World, ok: bool, applied: bool)

  ghost function Reconcile(
      reg: Registry, w: World, groups: seq<SourceGroup>, rules: seq<Rule>, complete: bool,
      membershipsOnly: bool): Reconciled
    requires ValidRegistry(reg) && w.books.memory.WellFormed()
  {
    var plan := MakePlan(reg, Listing(w.books.memory.groups), complete, membershipsOnly, groups, rules);
    if plan.errs != [] then Reconciled(w, false, false)
    else
      var w1 := Call(w);
      var sick := exists name <- Required(reg, complete, plan.jobs) :: !reg.healthy(w.tick, name);
      if sick then Reconciled(w1, false, false)
      else
        JobsSound(reg, Listing(w.books.memory.groups), complete, membershipsOnly, groups, rules);
        var (w2, ok) := ApplyAll(reg, w1, true, plan.jobs);
        Reconciled(w2, ok, true)
  }

  // ----- every job has its provider -----

  ghost predicate AllSound(reg: Registry, pl: Plan) {
    forall job <- pl.jobs :: SoundJob(reg, job)
  }

  lemma {:induction false} PlanRulesSound(
      reg: Registry, mappings: seq<GroupMapping>, complete: bool, membershipsOnly: bool, pl: Plan, group: SourceGroup,
      rules: seq<Rule>)
    requires ValidRegistry(reg) && AllSound(reg, pl)
    ensures AllSound(reg, PlanRules(reg, mappings, complete, membershipsOnly, pl, group, rules))
    decreases rules
  {
    if rules != [] {
      PlanRulesSound(reg, mappings, complete, membershipsOnly,
        PlanLive(reg, mappings, complete, membershipsOnly, pl, group, rules[0]), group, rules[1..]);
    }
  }

  lemma {:induction false} PlanGroupsSound(
      reg: Registry, mappings: seq<GroupMapping>, complete: bool, membershipsOnly: bool, pl: Plan,
      groups: seq<SourceGroup>, rules: seq<Rule>)
    requires ValidRegistry(reg) && AllSound(reg, pl)
    ensures AllSound(reg, PlanGroups(reg, mappings, complete, membershipsOnly, pl, groups, rules))
    decreases groups
  {
    if groups != [] {
      PlanRulesSound(reg, mappings, complete, membershipsOnly, pl, groups[0], rules);
      PlanGroupsSound(reg, mappings, complete, membershipsOnly,
        PlanRules(reg, mappings, complete, membershipsOnly, pl, groups[0], rules), groups[1..], rules);
    }
  }

  lemma {:induction false} BuryRulesSound(reg: Registry, pl: Plan, m: GroupMapping, rules: seq<Rule>)
    requires ValidRegistry(reg) && AllSound(reg, pl)
    ensures AllSound(reg, BuryRules(reg, pl, m, rules))
    decreases rules
  {
    if rules != [] {
      BuryRulesSound(reg, Bury(reg, pl, m, rules[0]), m, rules[1..]);
    }
  }

  lemma {:induction false} BuryAllSound(reg: Registry, pl: Plan, mappings: seq<GroupMapping>, rules: seq<Rule>)
    requires ValidRegistry(reg) && AllSound(reg, pl)
    ensures AllSound(reg, BuryAll(reg, pl, mappings, rules))
    decreases mappings
  {
    if mappings != [] {
      BuryRulesSound(reg, pl, mappings[0], rules);
      BuryAllSound(reg, BuryMapping(reg, pl, mappings[0], rules), mappings[1..], rules);
    }
  }

  /** A plan never holds a group job without a GitLab provider to run it. */
  lemma JobsSound(
      reg: Registry, mappings: seq<GroupMapping>, complete: bool, membershipsOnly: bool, groups: seq<SourceGroup>,
      rules: seq<Rule>)
    requires ValidRegistry(reg)
    ensures AllSound(reg, MakePlan(reg, mappings, complete, membershipsOnly, groups, rules))
  {
    PlanGroupsSound(reg, mappings, complete, membershipsOnly, NO_PLAN, groups, rules);
    if complete {
      BuryAllSound(reg, PlanGroups(reg, mappings, complete, membershipsOnly, NO_PLAN, groups, rules), mappings, rules);
    }
  }
}

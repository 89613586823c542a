/**
 Full and targeted runs over one ledger: distinct sources never share a target,
 and a binding keeps its target until it is retired, but for one kind of power
 failure.
*/
module PlanRuns {
  import opened Wrappers
  import opened Ledger
  import opened Text
  import opened Paths
  import opened Sync
  import opened Planner
  import opened PlanAccounting
  import SyncBinding
  import Migration
  import Traversal

  // ----- one rule and its provider -----

  /** A GitLab rule without declared paths, on a target whose name alone tells its provider. */
  ghost predicate Followed(reg: Registry, rules: seq<Rule>, r: Rule) {
    && ValidRegistry(reg) && UniqueNames(rules) && r in rules
    && r.vault.None? && r.sourceGroupPaths.None?
    && r.targetProvider in reg.backends && reg.backends[r.targetProvider].GitLabBackend?
    && HasPrefix(Owner(reg, r), r.targetProvider + "@")
  }

  ghost function Owner(reg: Registry, r: Rule): Id
    requires r.targetProvider in reg.backends && reg.backends[r.targetProvider].GitLabBackend?
  {
    reg.backends[r.targetProvider].c.owner
  }

  /** What the rule's bindings always satisfy. */
  ghost predicate Proper(owner: Id, r: Rule, groups: Bindings) {
    && KeysAgree(groups)
    && (forall k <- groups :: Follows(r, k) ==>
          k.provider == owner && k.source != "" && TrimSlashes(groups[k].targetGroupPath) == groups[k].targetGroupPath)
  }

  /** Bindings that both sides know go to the same target. */
  ghost predicate SameTargets(r: Rule, a: Bindings, b: Bindings) {
    forall k <- a :: k in b && Follows(r, k) ==> a[k].targetGroupPath == b[k].targetGroupPath
  }

  ghost predicate Sound(owner: Id, r: Rule, books: Books) {
    && Proper(owner, r, books.memory.groups) && Injective(r, books.memory.groups)
    && Proper(owner, r, books.disk.groups) && Injective(r, books.disk.groups)
    && SameTargets(r, books.memory.groups, books.disk.groups)
    && Proper(owner, r, books.settled.groups) && Injective(r, books.settled.groups)
  }

  // ----- jobs against the bindings they were planned for -----

  predicate JobOf(r: Rule, job: Job) {
    job.GroupJob? && job.req.rule == r.name
  }

  /** The rule's jobs fit the bindings: same source if and only if same target. */
  ghost predicate Fits(owner: Id, r: Rule, groups: Bindings, jobs: seq<Job>) {
    && (forall job <- jobs :: JobOf(r, job) ==>
          job.provider == r.targetProvider && job.req.stateKey != ""
            && TrimSlashes(job.req.targetPath) == job.req.targetPath)
    && (forall job <- jobs, k <- groups :: JobOf(r, job) && Follows(r, k) ==>
          (k.source == job.req.stateKey <==> groups[k].targetGroupPath == job.req.targetPath))
    && (forall i, j :: 0 <= i < |jobs| && 0 <= j < |jobs| && JobOf(r, jobs[i]) && JobOf(r, jobs[j]) ==>
          (jobs[i].req.stateKey == jobs[j].req.stateKey <==> jobs[i].req.targetPath == jobs[j].req.targetPath))
    && (forall job <- jobs :: job.GroupJob? && job.tombstone.Some? ==>
          job.tombstone.value.rule == job.req.rule)
  }

  ghost predicate GoodSources(groups: seq<SourceGroup>) {
    && (forall g <- groups :: g.id != "")
    && (forall i, j :: 0 <= i < j < |groups| ==> groups[i].id != groups[j].id)
  }

  /** What reading the source returns is fit for planning. */
  lemma SnapshotIsGood(realm: Traversal.Realm, groups: seq<SourceGroup>)
    requires Traversal.IsSnapshot(realm, groups)
    ensures GoodSources(groups)
  {
  }

  lemma SourcesById(groups: seq<SourceGroup>, a: SourceGroup, b: SourceGroup)
    requires GoodSources(groups) && a in groups && b in groups && a.id == b.id
    ensures a == b
  {
    var i :| 0 <= i < |groups| && groups[i] == a;
    var j :| 0 <= j < |groups| && groups[j] == b;
    if i < j {
    } else if j < i {
    }
  }

  lemma SameClaimSameJob(jobs: seq<Job>, a: Job, b: Job)
    requires DistinctClaims(jobs) && a in jobs && b in jobs && a.Key() == b.Key()
    ensures a == b
  {
  }

  /** What is known of one live job of the rule. */
  lemma LiveJobFits(
      reg: Registry, groups: Bindings, complete: bool, sources: seq<SourceGroup>, rules: seq<Rule>, r: Rule, job: Job)
    requires Followed(reg, rules, r) && Proper(Owner(reg, r), r, groups) && GoodSources(sources)
    requires Aimed(reg, Listing(groups), complete, SourceSet(sources), rules, job) && JobOf(r, job)
    ensures job.tombstone.None? && job.provider == r.targetProvider && job.req.stateKey != ""
      && TrimSlashes(job.req.targetPath) == job.req.targetPath
    ensures forall k <- groups :: Follows(r, k) && k.source == job.req.stateKey ==>
      groups[k].targetGroupPath == job.req.targetPath
    ensures !complete && Injective(r, groups) ==>
      forall k <- groups :: Follows(r, k) && groups[k].targetGroupPath == job.req.targetPath ==>
        k.source == job.req.stateKey
  {
    LiveJobTarget(reg, groups, complete, SourceSet(sources), rules, r, job);
    forall k | k in groups && Follows(r, k)
      ensures groups[k] in groups.Values && OfRule(r, groups[k])
      ensures Own(r, job.req.stateKey, groups[k]) <==> k.source == job.req.stateKey
    {
      assert groups[k].Key() == k;
    }
    if own :| own in groups.Values && Own(r, job.req.stateKey, own) {
      var k :| k in groups && groups[k] == own;
      assert Follows(r, k);
    }
  }

  /** A live job is determined by its source. */
  lemma LiveJobBySource(
      reg: Registry, groups: Bindings, complete: bool, sources: seq<SourceGroup>, rules: seq<Rule>, r: Rule, a: Job,
      b: Job)
    requires Followed(reg, rules, r) && GoodSources(sources) && KeysAgree(groups)
    requires Aimed(reg, Listing(groups), complete, SourceSet(sources), rules, a) && JobOf(r, a)
    requires Aimed(reg, Listing(groups), complete, SourceSet(sources), rules, b) && JobOf(r, b)
    requires a.req.stateKey == b.req.stateKey
    ensures a == b
  {
    var mappings := Listing(groups);
    var x, g, p :| x in rules && g in SourceSet(sources) && AimedBy(reg, mappings, complete, a, x, g, p);
    var y, h, q :| y in rules && h in SourceSet(sources) && AimedBy(reg, mappings, complete, b, y, h, q);
    SameRule(rules, r, x);
    SameRule(rules, r, y);
    SourcesById(sources, g, h);
  }

  /** Jobs that are all aimed, and pairwise distinct in their claims, fit together. */
  lemma AimedPairFits(
      reg: Registry, groups: Bindings, complete: bool, sources: seq<SourceGroup>, rules: seq<Rule>, r: Rule,
      jobs: seq<Job>, a: Job, b: Job)
    requires Followed(reg, rules, r) && Proper(Owner(reg, r), r, groups) && GoodSources(sources)
    requires DistinctClaims(jobs) && a in jobs && b in jobs
    requires Aimed(reg, Listing(groups), complete, SourceSet(sources), rules, a) && JobOf(r, a)
    requires Aimed(reg, Listing(groups), complete, SourceSet(sources), rules, b) && JobOf(r, b)
    ensures a.req.stateKey == b.req.stateKey <==> a.req.targetPath == b.req.targetPath
  {
    if a.req.stateKey == b.req.stateKey {
      LiveJobBySource(reg, groups, complete, sources, rules, r, a, b);
    }
    if a.req.targetPath == b.req.targetPath {
      LiveJobFits(reg, groups, complete, sources, rules, r, a);
      LiveJobFits(reg, groups, complete, sources, rules, r, b);
      SameClaimSameJob(jobs, a, b);
    }
  }

  lemma TargetedPlanFits(
      reg: Registry, groups: Bindings, membershipsOnly: bool, source: SourceGroup, rules: seq<Rule>, r: Rule)
    requires Followed(reg, rules, r) && Proper(Owner(reg, r), r, groups) && Injective(r, groups) && source.id != ""
    requires MakePlan(reg, Listing(groups), false, membershipsOnly, [source], rules).errs == []
    ensures Fits(Owner(reg, r), r, groups, MakePlan(reg, Listing(groups), false, membershipsOnly, [source], rules).jobs)
  {
    var sources := [source];
    var jobs := MakePlan(reg, Listing(groups), false, membershipsOnly, sources, rules).jobs;
    LivePlanned(reg, Listing(groups), false, membershipsOnly, sources, rules, r);
    assert DistinctClaims(jobs);
    assert forall job <- jobs :: JobOf(r, job) ==> Aimed(reg, Listing(groups), false, SourceSet(sources), rules, job);
    AimedFits(reg, groups, sources, rules, r, jobs);
  }

  lemma AimedFits(reg: Registry, groups: Bindings, sources: seq<SourceGroup>, rules: seq<Rule>, r: Rule, jobs: seq<Job>)
    requires Followed(reg, rules, r) && Proper(Owner(reg, r), r, groups) && Injective(r, groups) && GoodSources(sources)
    requires DistinctClaims(jobs)
    requires forall job <- jobs :: job.GroupJob? ==> job.tombstone.None?
    requires forall job <- jobs :: JobOf(r, job) ==> Aimed(reg, Listing(groups), false, SourceSet(sources), rules, job)
    ensures Fits(Owner(reg, r), r, groups, jobs)
  {
    forall job | job in jobs && JobOf(r, job)
      ensures job.provider == r.targetProvider && job.req.stateKey != ""
        && TrimSlashes(job.req.targetPath) == job.req.targetPath
      ensures forall k <- groups :: Follows(r, k) ==>
        (k.source == job.req.stateKey <==> groups[k].targetGroupPath == job.req.targetPath)
    {
      LiveJobFits(reg, groups, false, sources, rules, r, job);
    }
    forall i, j | 0 <= i < |jobs| && 0 <= j < |jobs| && JobOf(r, jobs[i]) && JobOf(r, jobs[j])
      ensures jobs[i].req.stateKey == jobs[j].req.stateKey <==> jobs[i].req.targetPath == jobs[j].req.targetPath
    {
      AimedPairFits(reg, groups, false, sources, rules, r, jobs, jobs[i], jobs[j]);
    }
  }

  /** A full plan's job of the rule: live or burying one binding. */
  lemma FullJobFits(reg: Registry, groups: Bindings, sources: seq<SourceGroup>, rules: seq<Rule>, r: Rule, job: Job)
    requires Followed(reg, rules, r) && Proper(Owner(reg, r), r, groups) && GoodSources(sources)
    requires var plan := MakePlan(reg, Listing(groups), true, false, sources, rules);
      plan.errs == [] && job in plan.jobs && JobOf(r, job)
    ensures job.provider == r.targetProvider && job.req.stateKey != ""
      && TrimSlashes(job.req.targetPath) == job.req.targetPath
    ensures forall k <- groups :: Follows(r, k) ==>
      (k.source == job.req.stateKey <==> groups[k].targetGroupPath == job.req.targetPath)
  {
    FullJobShape(reg, groups, sources, rules, r, job);
    forall k | k in groups && Follows(r, k) && groups[k].targetGroupPath == job.req.targetPath
      ensures k.source == job.req.stateKey
    {
      FullJobOwns(reg, groups, sources, rules, r, job, k);
    }
  }

  lemma FullJobShape(reg: Registry, groups: Bindings, sources: seq<SourceGroup>, rules: seq<Rule>, r: Rule, job: Job)
    requires Followed(reg, rules, r) && Proper(Owner(reg, r), r, groups) && GoodSources(sources)
    requires var plan := MakePlan(reg, Listing(groups), true, false, sources, rules);
      plan.errs == [] && job in plan.jobs && JobOf(r, job)
    ensures job.provider == r.targetProvider && job.req.stateKey != ""
      && TrimSlashes(job.req.targetPath) == job.req.targetPath
    ensures forall k <- groups :: Follows(r, k) && k.source == job.req.stateKey ==>
      groups[k].targetGroupPath == job.req.targetPath
  {
    var mappings := Listing(groups);
    var live := PlanGroups(reg, mappings, true, false, NO_PLAN, sources, rules);
    LivePlanned(reg, mappings, true, false, sources, rules, r);
    FullPlanned(reg, mappings, false, sources, rules, r);
    if job in live.jobs {
      LiveJobFits(reg, groups, true, sources, rules, r, job);
    } else {
      var m, rule :| m in mappings && rule in rules && BuriedBy(reg, mappings, live.present, job, m, rule);
      BuriedShape(reg, groups, rules, r, live, job, m, rule);
    }
  }

  lemma BuriedShape(
      reg: Registry, groups: Bindings, rules: seq<Rule>, r: Rule, live: Plan, job: Job, m: GroupMapping, rule: Rule)
    requires Followed(reg, rules, r) && Proper(Owner(reg, r), r, groups) && rule in rules && JobOf(r, job)
    requires BuriedBy(reg, Listing(groups), live.present, job, m, rule)
    ensures m.Key() in groups && groups[m.Key()] == m && Follows(r, m.Key()) && rule == r
    ensures job == GroupJob(r.targetProvider, TombstoneRequest(r, m), Some(m.Key()))
    ensures job.req.stateKey != "" && TrimSlashes(job.req.targetPath) == job.req.targetPath
    ensures forall k <- groups :: Follows(r, k) && k.source == job.req.stateKey ==>
      groups[k].targetGroupPath == job.req.targetPath
  {
    SameRule(rules, r, rule);
    assert m in groups.Values;
  }

  lemma FullJobOwns(
      reg: Registry, groups: Bindings, sources: seq<SourceGroup>, rules: seq<Rule>, r: Rule, job: Job, k: BindingKey)
    requires Followed(reg, rules, r) && Proper(Owner(reg, r), r, groups) && GoodSources(sources)
    requires var plan := MakePlan(reg, Listing(groups), true, false, sources, rules);
      plan.errs == [] && job in plan.jobs && JobOf(r, job)
    requires k in groups && Follows(r, k) && groups[k].targetGroupPath == job.req.targetPath
    requires job.provider == r.targetProvider
    ensures k.source == job.req.stateKey
  {
    var plan := MakePlan(reg, Listing(groups), true, false, sources, rules);
    assert groups[k].Key() == k;
    FullPlanAccounts(reg, groups, sources, rules, r, k);
    var own :| own in plan.jobs && own.GroupJob? && own.provider == r.targetProvider
      && own.req.targetPath == groups[k].targetGroupPath && own.req.stateKey == k.source;
    SameClaimSameJob(plan.jobs, own, job);
  }

  lemma FullPlanFits(reg: Registry, groups: Bindings, sources: seq<SourceGroup>, rules: seq<Rule>, r: Rule)
    requires Followed(reg, rules, r) && Proper(Owner(reg, r), r, groups) && GoodSources(sources)
    requires MakePlan(reg, Listing(groups), true, false, sources, rules).errs == []
    ensures Fits(Owner(reg, r), r, groups, MakePlan(reg, Listing(groups), true, false, sources, rules).jobs)
  {
    var mappings := Listing(groups);
    var plan := MakePlan(reg, mappings, true, false, sources, rules);
    var live := PlanGroups(reg, mappings, true, false, NO_PLAN, sources, rules);
    LivePlanned(reg, mappings, true, false, sources, rules, r);
    FullPlanned(reg, mappings, false, sources, rules, r);
    forall job | job in plan.jobs && JobOf(r, job)
      ensures job.provider == r.targetProvider && job.req.stateKey != ""
        && TrimSlashes(job.req.targetPath) == job.req.targetPath
      ensures forall k <- groups :: Follows(r, k) ==>
        (k.source == job.req.stateKey <==> groups[k].targetGroupPath == job.req.targetPath)
    {
      FullJobFits(reg, groups, sources, rules, r, job);
    }
    forall i, j | 0 <= i < |plan.jobs| && 0 <= j < |plan.jobs| && JobOf(r, plan.jobs[i]) && JobOf(r, plan.jobs[j])
      ensures plan.jobs[i].req.stateKey == plan.jobs[j].req.stateKey <==>
        plan.jobs[i].req.targetPath == plan.jobs[j].req.targetPath
    {
      FullPairFits(reg, groups, sources, rules, r, plan.jobs[i], plan.jobs[j]);
    }
    forall job | job in plan.jobs && job.GroupJob? && job.tombstone.Some?
      ensures job.tombstone.value.rule == job.req.rule
    {
      assert job !in live.jobs;
      var m, rule :| m in mappings && rule in rules && BuriedBy(reg, mappings, live.present, job, m, rule);
    }
  }

  lemma FullPairFits(
      reg: Registry, groups: Bindings, sources: seq<SourceGroup>, rules: seq<Rule>, r: Rule, a: Job, b: Job)
    requires Followed(reg, rules, r) && Proper(Owner(reg, r), r, groups) && GoodSources(sources)
    requires var plan := MakePlan(reg, Listing(groups), true, false, sources, rules);
      plan.errs == [] && a in plan.jobs && b in plan.jobs && JobOf(r, a) && JobOf(r, b)
    ensures a.req.stateKey == b.req.stateKey <==> a.req.targetPath == b.req.targetPath
  {
    var mappings := Listing(groups);
    var plan := MakePlan(reg, mappings, true, false, sources, rules);
    var live := PlanGroups(reg, mappings, true, false, NO_PLAN, sources, rules);
    LivePlanned(reg, mappings, true, false, sources, rules, r);
    FullPlanned(reg, mappings, false, sources, rules, r);
    FullJobFits(reg, groups, sources, rules, r, a);
    FullJobFits(reg, groups, sources, rules, r, b);
    if a.req.targetPath == b.req.targetPath {
      SameClaimSameJob(plan.jobs, a, b);
    } else if a in live.jobs && b in live.jobs {
      if a.req.stateKey == b.req.stateKey {
        LiveJobBySource(reg, groups, true, sources, rules, r, a, b);
      }
    } else {
      var buried := if a in live.jobs then b else a;
      var m, rule :| m in mappings && rule in rules && BuriedBy(reg, mappings, live.present, buried, m, rule);
      SameRule(rules, r, rule);
      assert m in groups.Values;
      assert groups[m.Key()] == m && Follows(r, m.Key());
    }
  }

  // ----- applying the jobs -----

  /** Each of the rule's bindings is an old one, or was made by a job for its source. */
  ghost predicate Descends(owner: Id, r: Rule, start: Bindings, jobs: seq<Job>, groups: Bindings) {
    && Proper(owner, r, groups)
    && (forall k <- groups :: Follows(r, k) ==>
          || (k in start && start[k].targetGroupPath == groups[k].targetGroupPath)
          || (exists job <- jobs ::
            JobOf(r, job) && job.req.stateKey == k.source && job.req.targetPath == groups[k].targetGroupPath))
  }

  /** Where a source goes: its old target, or its job's. */
  lemma DescendantTarget(owner: Id, r: Rule, start: Bindings, jobs: seq<Job>, groups: Bindings, k: BindingKey)
    requires Fits(owner, r, start, jobs) && Proper(owner, r, start) && Descends(owner, r, start, jobs, groups)
    requires k in groups && Follows(r, k) && k in start
    ensures groups[k].targetGroupPath == start[k].targetGroupPath
  {
  }

  lemma DescendsInjective(owner: Id, r: Rule, start: Bindings, jobs: seq<Job>, groups: Bindings)
    requires Fits(owner, r, start, jobs) && Proper(owner, r, start) && Injective(r, start)
    requires Descends(owner, r, start, jobs, groups)
    ensures Injective(r, groups)
  {
    forall k, l | k in groups && l in groups && Follows(r, k) && Follows(r, l)
      && groups[k].targetGroupPath == groups[l].targetGroupPath
      ensures k == l
    {
      assert k.source == l.source;
    }
  }

  lemma DescendsAgree(owner: Id, r: Rule, start: Bindings, jobs: seq<Job>, a: Bindings, b: Bindings)
    requires Fits(owner, r, start, jobs) && Proper(owner, r, start)
    requires Descends(owner, r, start, jobs, a) && Descends(owner, r, start, jobs, b)
    ensures SameTargets(r, a, b)
  {
    forall k | k in a && k in b && Follows(r, k)
      ensures a[k].targetGroupPath == b[k].targetGroupPath
    {
    }
  }

  /** The state between two jobs. */
  ghost predicate Midway(owner: Id, r: Rule, start: Books, jobs: seq<Job>, books: Books) {
    && Descends(owner, r, start.memory.groups, jobs, books.memory.groups)
    && (books.disk.groups == start.disk.groups || Descends(owner, r, start.memory.groups, jobs, books.disk.groups))
    && (books.settled.groups == start.settled.groups
      || Descends(owner, r, start.memory.groups, jobs, books.settled.groups))
    && SameTargets(r, books.memory.groups, books.disk.groups)
    && Advances(start, books) && (books.syncs > start.syncs ==> Agreed(r, books))
  }

  /** What a power failure would bring back agrees with memory. */
  ghost predicate Agreed(r: Rule, books: Books) {
    SameTargets(r, books.memory.groups, books.settled.groups)
  }

  lemma BoundDescends(
      reg: Registry, r: Rule, start: Bindings, jobs: seq<Job>, w: World, job: Job, t: Target, created: bool)
    requires r.targetProvider in reg.backends && reg.backends[r.targetProvider].GitLabBackend?
    requires Fits(Owner(reg, r), r, start, jobs) && job in jobs && SoundJob(reg, job) && job.GroupJob?
    requires Descends(Owner(reg, r), r, start, jobs, w.books.memory.groups)
    requires t.path == TrimSlashes(job.req.targetPath)
    ensures Descends(Owner(reg, r), r, start, jobs,
      SyncBinding.WithBinding(reg.backends[job.provider].c, job.req, t, created, w.books.memory))
  {
    var c := reg.backends[job.provider].c;
    var l := w.books.memory;
    SyncBinding.BindingKeeps(c, job.req, t, created, l);
    var bound := SyncBinding.WithBinding(c, job.req, t, created, l);
    var key := BindingKey(c.owner, job.req.rule, StateKey(job.req));
    forall k | k in bound && Follows(r, k)
      ensures k.provider == Owner(reg, r) && k.source != ""
        && TrimSlashes(bound[k].targetGroupPath) == bound[k].targetGroupPath
      ensures (k in start && start[k].targetGroupPath == bound[k].targetGroupPath)
        || exists j <- jobs :: JobOf(r, j) && j.req.stateKey == k.source && j.req.targetPath == bound[k].targetGroupPath
    {
      if k in l.groups {
        assert bound[k].targetGroupPath == l.groups[k].targetGroupPath;
      } else {
        assert k == key && JobOf(r, job);
      }
    }
  }

  lemma PassMidway(
      reg: Registry, r: Rule, start: Books, jobs: seq<Job>, w: World, job: Job, t: Target, created: bool)
    requires r.targetProvider in reg.backends && reg.backends[r.targetProvider].GitLabBackend?
    requires Fits(Owner(reg, r), r, start.memory.groups, jobs) && Proper(Owner(reg, r), r, start.memory.groups)
    requires job in jobs && SoundJob(reg, job) && job.GroupJob? && t.path == TrimSlashes(job.req.targetPath)
    requires Midway(Owner(reg, r), r, start, jobs, w.books)
    ensures Midway(Owner(reg, r), r, start, jobs, Pass(reg.backends[job.provider].c, job.req, t, created, w).w.books)
  {
    var c := reg.backends[job.provider].c;
    SyncBinding.PassGroups(c, job.req, t, created, w);
    BoundDescends(reg, r, start.memory.groups, jobs, w, job, t, created);
    DescendsAgree(Owner(reg, r), r, start.memory.groups, jobs, w.books.memory.groups,
      SyncBinding.WithBinding(c, job.req, t, created, w.books.memory));
  }

  lemma ApplyJobMidway(reg: Registry, r: Rule, start: Books, jobs: seq<Job>, w: World, job: Job)
    requires r.targetProvider in reg.backends && reg.backends[r.targetProvider].GitLabBackend?
    requires Fits(Owner(reg, r), r, start.memory.groups, jobs) && Proper(Owner(reg, r), r, start.memory.groups)
    requires job in jobs && SoundJob(reg, job)
    requires Midway(Owner(reg, r), r, start, jobs, w.books)
    ensures Midway(Owner(reg, r), r, start, jobs, ApplyJob(reg, w, job).0.books)
  {
    if job.GroupJob? {
      SyncMidway(reg, r, start, jobs, w, job);
      if job.tombstone.Some? {
        RetireMidway(reg, r, start, jobs, SyncGroup(reg.backends[job.provider].c, job.req, w).w, job.tombstone.value);
      }
    }
  }

  lemma SyncMidway(reg: Registry, r: Rule, start: Books, jobs: seq<Job>, w: World, job: Job)
    requires r.targetProvider in reg.backends && reg.backends[r.targetProvider].GitLabBackend?
    requires Fits(Owner(reg, r), r, start.memory.groups, jobs) && Proper(Owner(reg, r), r, start.memory.groups)
    requires job in jobs && SoundJob(reg, job) && job.GroupJob?
    requires Midway(Owner(reg, r), r, start, jobs, w.books)
    ensures Midway(Owner(reg, r), r, start, jobs, SyncGroup(reg.backends[job.provider].c, job.req, w).w.books)
  {
    var c := reg.backends[job.provider].c;
    var e := EnsureGroup(c, w, job.req.targetPath, job.req.targetParent, job.req.createGroup);
    SyncBinding.EnsureGroupExact(c, w, job.req.targetPath, job.req.targetParent, job.req.createGroup);
    if e.error.None? && e.target.Some? {
      PassMidway(reg, r, start, jobs, e.w, job, e.target.value, e.created);
    }
  }

  lemma RetireMidway(reg: Registry, r: Rule, start: Books, jobs: seq<Job>, w: World, k: BindingKey)
    requires r.targetProvider in reg.backends && reg.backends[r.targetProvider].GitLabBackend?
    requires Midway(Owner(reg, r), r, start, jobs, w.books)
    ensures Midway(Owner(reg, r), r, start, jobs, Retire(reg.fault, w, k).0.books)
  {
    if k in w.books.memory.groups {
      SaveMidway(Owner(reg, r), r, start, jobs, w.books, Delete(w.books.memory, k), reg.fault(w.tick));
    }
  }

  /** Saving fewer bindings than memory has. */
  lemma SaveMidway(owner: Id, r: Rule, start: Books, jobs: seq<Job>, b: Books, next: Ledger, f: Fault)
    requires Midway(owner, r, start, jobs, b)
    requires forall k <- next.groups :: k in b.memory.groups && next.groups[k] == b.memory.groups[k]
    ensures Midway(owner, r, start, jobs, Save(b, next, f))
  {
    assert Descends(owner, r, start.memory.groups, jobs, next.groups);
  }

  lemma {:induction false} ApplyAllMidway(
      reg: Registry, r: Rule, start: Books, jobs: seq<Job>, w: World, ok: bool, rest: seq<Job>)
    requires r.targetProvider in reg.backends && reg.backends[r.targetProvider].GitLabBackend?
    requires Fits(Owner(reg, r), r, start.memory.groups, jobs) && Proper(Owner(reg, r), r, start.memory.groups)
    requires forall job <- rest :: job in jobs && SoundJob(reg, job)
    requires Midway(Owner(reg, r), r, start, jobs, w.books)
    ensures Midway(Owner(reg, r), r, start, jobs, ApplyAll(reg, w, ok, rest).0.books)
    decreases rest
  {
    if rest != [] {
      ApplyJobMidway(reg, r, start, jobs, w, rest[0]);
      var (w1, applied) := ApplyJob(reg, w, rest[0]);
      ApplyAllMidway(reg, r, start, jobs, w1, ok && applied, rest[1..]);
    }
  }

  // ----- runs -----

  /** A complete snapshot, one group read on its own, or a restart that reloads the file. */
  datatype Turn =
    | Full(groups: seq<SourceGroup>)
    | Targeted(group: SourceGroup, membershipsOnly: bool)
    | Reload(lost: bool)

  ghost predicate GoodTurn(t: Turn) {
    match t
    case Full(groups) => GoodSources(groups)
    case Targeted(group, _) => group.id != ""
    case Reload(_) => true
  }

  ghost function RunOnce(
      reg: Registry, rules: seq<Rule>, w: World, groups: seq<SourceGroup>, complete: bool, membershipsOnly: bool): World
    requires ValidRegistry(reg) && w.books.memory.WellFormed()
  {
    var d := Migration.Migrate(reg.fault, w.books, w.tick, groups, rules);
    Migration.MigrationConserves(reg.fault, w.books, w.tick, groups, rules);
    var w1 := w.(books := d.books, tick := d.tick);
    if !d.ok then w1 else Reconcile(reg, w1, groups, rules, complete, membershipsOnly).w
  }

  ghost function Take(reg: Registry, rules: seq<Rule>, w: World, t: Turn): World
    requires ValidRegistry(reg) && w.books.memory.WellFormed()
  {
    match t
    case Full(groups) => RunOnce(reg, rules, w, groups, true, false)
    case Targeted(group, membershipsOnly) => RunOnce(reg, rules, w, [group], false, membershipsOnly)
    case Reload(lost) => w.(books := Restarted(w.books, lost))
  }

  /** What a turn preserves for a followed rule, and how it treats existing bindings. */
  ghost predicate Preserves(owner: Id, r: Rule, w: World, w1: World) {
    && Sound(owner, r, w1.books)
    && SameTargets(r, w.books.memory.groups, w1.books.memory.groups)
    && Advances(w.books, w1.books) && (w1.books.syncs > w.books.syncs ==> Agreed(r, w1.books))
  }

  lemma MigrateSound(reg: Registry, rules: seq<Rule>, r: Rule, w: World, groups: seq<SourceGroup>)
    requires Followed(reg, rules, r) && Sound(Owner(reg, r), r, w.books)
    ensures var d := Migration.Migrate(reg.fault, w.books, w.tick, groups, rules);
      && Sound(Owner(reg, r), r, d.books)
      && SameTargets(r, w.books.memory.groups, d.books.memory.groups)
      && SameTargets(r, d.books.memory.groups, w.books.memory.groups)
      && Advances(w.books, d.books) && (d.books.syncs > w.books.syncs ==> Agreed(r, d.books))
      && (forall k :: Follows(r, k) ==> (k in d.books.memory.groups <==> k in w.books.memory.groups))
  {
    forall rule | rule in rules && Migration.Declares(rule)
      ensures rule.name != r.name
    {
      if rule.name == r.name {
        SameRule(rules, r, rule);
      }
    }
    Migration.MigrationConserves(reg.fault, w.books, w.tick, groups, rules);
    Migration.MigrationLeavesOtherRules(reg.fault, w.books, w.tick, groups, rules, r.name);
  }

  /** The plan of either kind of turn fits the bindings. */
  lemma PlanFits(
      reg: Registry, groups: Bindings, rules: seq<Rule>, r: Rule, sources: seq<SourceGroup>, complete: bool,
      membershipsOnly: bool)
    requires Followed(reg, rules, r) && Proper(Owner(reg, r), r, groups) && Injective(r, groups)
    requires if complete then GoodSources(sources) && !membershipsOnly else |sources| == 1 && sources[0].id != ""
    requires MakePlan(reg, Listing(groups), complete, membershipsOnly, sources, rules).errs == []
    ensures Fits(Owner(reg, r), r, groups,
      MakePlan(reg, Listing(groups), complete, membershipsOnly, sources, rules).jobs)
  {
    if complete {
      FullPlanFits(reg, groups, sources, rules, r);
    } else {
      assert sources == [sources[0]];
      TargetedPlanFits(reg, groups, membershipsOnly, sources[0], rules, r);
    }
  }

  lemma ReconcileSound(
      reg: Registry, rules: seq<Rule>, r: Rule, w: World, groups: seq<SourceGroup>, complete: bool,
      membershipsOnly: bool)
    requires Followed(reg, rules, r) && Sound(Owner(reg, r), r, w.books)
    requires if complete then GoodSources(groups) && !membershipsOnly else |groups| == 1 && groups[0].id != ""
    ensures Preserves(Owner(reg, r), r, w, Reconcile(reg, w, groups, rules, complete, membershipsOnly).w)
  {
    var start := w.books.memory.groups;
    var plan := MakePlan(reg, Listing(start), complete, membershipsOnly, groups, rules);
    var w1 := Call(w);
    if plan.errs == [] && forall name <- Required(reg, complete, plan.jobs) :: reg.healthy(w.tick, name) {
      JobsSound(reg, Listing(start), complete, membershipsOnly, groups, rules);
      PlanFits(reg, start, rules, r, groups, complete, membershipsOnly);
      AppliedSound(reg, rules, r, w, plan.jobs);
    }
  }

  lemma AppliedSound(reg: Registry, rules: seq<Rule>, r: Rule, w: World, jobs: seq<Job>)
    requires Followed(reg, rules, r) && Sound(Owner(reg, r), r, w.books)
      && Fits(Owner(reg, r), r, w.books.memory.groups, jobs)
    requires forall job <- jobs :: SoundJob(reg, job)
    ensures Preserves(Owner(reg, r), r, w, ApplyAll(reg, Call(w), true, jobs).0)
  {
    ApplyAllMidway(reg, r, w.books, jobs, Call(w), true, jobs);
    MidwaySound(Owner(reg, r), r, w.books, jobs, ApplyAll(reg, Call(w), true, jobs).0.books);
  }

  /** Where a plan's jobs leave the books, they are sound again. */
  lemma MidwaySound(owner: Id, r: Rule, start: Books, jobs: seq<Job>, books: Books)
    requires Sound(owner, r, start) && Fits(owner, r, start.memory.groups, jobs) && Midway(owner, r, start, jobs, books)
    ensures Sound(owner, r, books) && SameTargets(r, start.memory.groups, books.memory.groups)
  {
    var groups := start.memory.groups;
    DescendsInjective(owner, r, groups, jobs, books.memory.groups);
    if books.disk.groups != start.disk.groups {
      DescendsInjective(owner, r, groups, jobs, books.disk.groups);
    }
    if books.settled.groups != start.settled.groups {
      DescendsInjective(owner, r, groups, jobs, books.settled.groups);
    }
    forall k | k in groups && k in books.memory.groups && Follows(r, k)
      ensures groups[k].targetGroupPath == books.memory.groups[k].targetGroupPath
    {
      DescendantTarget(owner, r, groups, jobs, books.memory.groups, k);
    }
  }

  /**
   One turn of any kind keeps the bindings sound. Every turn but a power failure
   keeps the target of every surviving binding, and leaves memory and what is
   settled as they were or, after a directory sync, in agreement.
  */
  lemma TurnPreserves(reg: Registry, rules: seq<Rule>, r: Rule, w: World, t: Turn)
    requires Followed(reg, rules, r) && Sound(Owner(reg, r), r, w.books) && GoodTurn(t)
    ensures Sound(Owner(reg, r), r, Take(reg, rules, w, t).books)
    ensures t != Reload(true) ==> SameTargets(r, w.books.memory.groups, Take(reg, rules, w, t).books.memory.groups)
    ensures !t.Reload? ==> Preserves(Owner(reg, r), r, w, Take(reg, rules, w, t))
  {
    match t
    case Reload(_) =>
    case Full(groups) => RunOnceSound(reg, rules, r, w, groups, true, false);
    case Targeted(group, membershipsOnly) => RunOnceSound(reg, rules, r, w, [group], false, membershipsOnly);
  }

  lemma RunOnceSound(
      reg: Registry, rules: seq<Rule>, r: Rule, w: World, groups: seq<SourceGroup>, complete: bool,
      membershipsOnly: bool)
    requires Followed(reg, rules, r) && Sound(Owner(reg, r), r, w.books)
    requires if complete then GoodSources(groups) && !membershipsOnly else |groups| == 1 && groups[0].id != ""
    ensures Preserves(Owner(reg, r), r, w, RunOnce(reg, rules, w, groups, complete, membershipsOnly))
  {
    var d := Migration.Migrate(reg.fault, w.books, w.tick, groups, rules);
    MigrateSound(reg, rules, r, w, groups);
    var w1 := w.(books := d.books, tick := d.tick);
    if d.ok {
      ReconcileSound(reg, rules, r, w1, groups, complete, membershipsOnly);
    }
  }

  ghost function RunTurns(reg: Registry, rules: seq<Rule>, r: Rule, w: World, turns: seq<Turn>): (w1: World)
    requires Followed(reg, rules, r) && Sound(Owner(reg, r), r, w.books)
    requires forall t <- turns :: GoodTurn(t)
    ensures Sound(Owner(reg, r), r, w1.books)
    decreases |turns|
  {
    if turns == [] then w
    else
      var before := RunTurns(reg, rules, r, w, turns[..|turns| - 1]);
      assert turns[|turns| - 1] in turns;
      TurnPreserves(reg, rules, r, before, turns[|turns| - 1]);
      Take(reg, rules, before, turns[|turns| - 1])
  }

  // ----- when a power failure changes a target -----

  /** Two sides that both know a source, and do not agree on its target. */
  predicate Retargeted(a: Bindings, b: Bindings, k: BindingKey) {
    k in a && k in b && a[k].targetGroupPath != b[k].targetGroupPath
  }

  /** The file a restart would load names another target for this source than what is settled of it. */
  predicate Unsettled(b: Books, k: BindingKey) {
    Retargeted(b.disk.groups, b.settled.groups, k)
  }

  predicate Differs(b: Books, k: BindingKey) {
    Retargeted(b.memory.groups, b.settled.groups, k)
  }

  /** The books before and after every turn, as far as the theorem needs to know how they came about. */
  ghost predicate Chronicle(r: Rule, history: seq<Books>, turns: seq<Turn>) {
    && |history| == |turns| + 1
    && Agreed(r, history[0])
    && forall i :: 0 <= i < |turns| ==> Chronicled(r, history[i], turns[i], history[i + 1])
  }

  ghost predicate Chronicled(r: Rule, b: Books, t: Turn, b1: Books) {
    if t.Reload? then b1 == Restarted(b, t.lost)
    else Advances(b, b1) && (b1.syncs > b.syncs ==> Agreed(r, b1))
  }

  lemma {:induction false} SyncsGrow(r: Rule, history: seq<Books>, turns: seq<Turn>, m: nat, n: nat)
    requires Chronicle(r, history, turns) && m <= n <= |turns|
    ensures history[m].syncs <= history[n].syncs
    decreases n
  {
    if m < n {
      SyncsGrow(r, history, turns, m, n - 1);
      assert Chronicled(r, history[n - 1], turns[n - 1], history[n]);
    }
  }

  /** Turn `m` was the last restart; its file was not settled for this source, and no save has been since. */
  predicate LoadedUnsettled(history: seq<Books>, turns: seq<Turn>, m: nat, n: nat, k: BindingKey)
    requires |history| == |turns| + 1 && m < n <= |turns|
  {
    && turns[m] == Reload(false) && (forall j :: m < j < n ==> !turns[j].Reload?)
    && Unsettled(history[m], k) && history[n].syncs == history[m].syncs
  }

  predicate LoadedSo(history: seq<Books>, turns: seq<Turn>, n: nat, k: BindingKey)
    requires |history| == |turns| + 1 && n <= |turns|
  {
    exists m :: 0 <= m < n && LoadedUnsettled(history, turns, m, n, k)
  }

  lemma LoadedStep(r: Rule, history: seq<Books>, turns: seq<Turn>, n: nat, k: BindingKey)
    requires Chronicle(r, history, turns) && n < |turns|
    ensures LoadedSo(history, turns, n + 1, k) <==>
      if turns[n].Reload? then !turns[n].lost && Unsettled(history[n], k)
      else LoadedSo(history, turns, n, k) && history[n + 1].syncs == history[n].syncs
  {
    assert Chronicled(r, history[n], turns[n], history[n + 1]);
    if turns[n] == Reload(false) && Unsettled(history[n], k) {
      assert LoadedUnsettled(history, turns, n, n + 1, k);
    }
    if LoadedSo(history, turns, n + 1, k) {
      var m :| 0 <= m < n + 1 && LoadedUnsettled(history, turns, m, n + 1, k);
      if m < n {
        SyncsGrow(r, history, turns, m, n);
        assert !turns[n].Reload? && LoadedUnsettled(history, turns, m, n, k);
      }
    }
    if LoadedSo(history, turns, n, k) && !turns[n].Reload? && history[n + 1].syncs == history[n].syncs {
      var m :| 0 <= m < n && LoadedUnsettled(history, turns, m, n, k);
      assert LoadedUnsettled(history, turns, m, n + 1, k);
    }
  }

  /** So memory differs from what is settled exactly if the last restart loaded a file that was not. */
  lemma {:induction false} DiffersExactly(r: Rule, history: seq<Books>, turns: seq<Turn>, n: nat, k: BindingKey)
    requires Chronicle(r, history, turns) && n <= |turns| && Follows(r, k)
    ensures Differs(history[n], k) <==> LoadedSo(history, turns, n, k)
    decreases n
  {
    if n > 0 {
      DiffersExactly(r, history, turns, n - 1, k);
      LoadedStep(r, history, turns, n - 1, k);
      assert Chronicled(r, history[n - 1], turns[n - 1], history[n]);
    }
  }

  // ----- the theorems about runs -----

  ghost predicate GoodTurns(turns: seq<Turn>) {
    forall t <- turns :: GoodTurn(t)
  }

  /** The books before each turn of a run, and after the last. */
  ghost function History(reg: Registry, rules: seq<Rule>, r: Rule, w: World, turns: seq<Turn>): (history: seq<Books>)
    requires Followed(reg, rules, r) && Sound(Owner(reg, r), r, w.books) && GoodTurns(turns)
    ensures |history| == |turns| + 1
    ensures forall n :: 0 <= n <= |turns| ==> history[n] == RunTurns(reg, rules, r, w, turns[..n]).books
    ensures forall b <- history :: Sound(Owner(reg, r), r, b)
  {
    seq(|turns| + 1, n requires 0 <= n <= |turns| => RunTurns(reg, rules, r, w, turns[..n]).books)
  }

  lemma HistoryStep(reg: Registry, rules: seq<Rule>, r: Rule, w: World, turns: seq<Turn>, n: nat)
    requires Followed(reg, rules, r) && Sound(Owner(reg, r), r, w.books) && GoodTurns(turns) && n < |turns|
    ensures var history := History(reg, rules, r, w, turns);
      && Chronicled(r, history[n], turns[n], history[n + 1])
      && (turns[n] != Reload(true) ==> SameTargets(r, history[n].memory.groups, history[n + 1].memory.groups))
  {
    PrefixRuns(reg, rules, r, w, turns, n);
    TurnPreserves(reg, rules, r, RunTurns(reg, rules, r, w, turns[..n]), turns[n]);
  }

  lemma PrefixRuns(reg: Registry, rules: seq<Rule>, r: Rule, w: World, turns: seq<Turn>, n: nat)
    requires Followed(reg, rules, r) && Sound(Owner(reg, r), r, w.books) && GoodTurns(turns) && n < |turns|
    ensures RunTurns(reg, rules, r, w, turns[..n + 1])
      == Take(reg, rules, RunTurns(reg, rules, r, w, turns[..n]), turns[n])
  {
    assert turns[..n + 1][..n] == turns[..n] && turns[..n + 1][n] == turns[n];
  }

  lemma RunChronicle(reg: Registry, rules: seq<Rule>, r: Rule, w: World, turns: seq<Turn>)
    requires Followed(reg, rules, r) && Sound(Owner(reg, r), r, w.books) && Agreed(r, w.books) && GoodTurns(turns)
    ensures Chronicle(r, History(reg, rules, r, w, turns), turns)
  {
    assert turns[..0] == [];
    forall n | 0 <= n < |turns|
      ensures var history := History(reg, rules, r, w, turns); Chronicled(r, history[n], turns[n], history[n + 1])
    {
      HistoryStep(reg, rules, r, w, turns, n);
    }
  }

  /**
   Over any mix of full, targeted, restart and power failure turns with any faults:
   a turn changes the target of a binding it keeps if and only if it is a power
   failure, the last restart before it loaded a file that was not settled for this
   source, and no save has reached its directory sync since.
  */
  lemma TargetChangesExactly(
      reg: Registry, rules: seq<Rule>, r: Rule, w: World, turns: seq<Turn>, n: nat, k: BindingKey)
    requires Followed(reg, rules, r) && Sound(Owner(reg, r), r, w.books) && Agreed(r, w.books)
    requires GoodTurns(turns) && n < |turns| && Follows(r, k)
    ensures var history := History(reg, rules, r, w, turns);
      Retargeted(history[n].memory.groups, history[n + 1].memory.groups, k)
      <==> turns[n] == Reload(true) && LoadedSo(history, turns, n, k)
  {
    RunChronicle(reg, rules, r, w, turns);
    HistoryStep(reg, rules, r, w, turns, n);
    DiffersExactly(r, History(reg, rules, r, w, turns), turns, n, k);
  }

  /**
   From an empty ledger in particular, where besides distinct sources of a rule
   without declared paths are bound to distinct targets after every turn.
  */
  lemma TargetOwnershipInjective(reg: Registry, rules: seq<Rule>, r: Rule, w: World, turns: seq<Turn>, n: nat)
    requires Followed(reg, rules, r) && w.books == Books(EMPTY, EMPTY, EMPTY, w.books.syncs)
    requires GoodTurns(turns) && n < |turns|
    ensures var history := History(reg, rules, r, w, turns);
      && Injective(r, history[n].memory.groups) && Injective(r, history[n + 1].memory.groups)
      && forall k | Follows(r, k) ::
           Retargeted(history[n].memory.groups, history[n + 1].memory.groups, k)
           <==> turns[n] == Reload(true) && LoadedSo(history, turns, n, k)
  {
    var history := History(reg, rules, r, w, turns);
    assert history[n] in history && history[n + 1] in history;
    forall k | Follows(r, k)
      ensures Retargeted(history[n].memory.groups, history[n + 1].memory.groups, k) <==>
        turns[n] == Reload(true) && LoadedSo(history, turns, n, k)
    {
      TargetChangesExactly(reg, rules, r, w, turns, n, k);
    }
  }
}

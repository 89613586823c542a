/**
 Convergence of the controller: two fault-free full turns bring every target of a
 plan to what its job asks for and give up every mapping whose source is gone; a
 third turn writes nothing to GitLab.
*/
module TurnConvergence {
  import opened Wrappers
  import opened Ledger
  import opened Text
  import opened Paths
  import opened Sync
  import opened SyncBinding
  import opened SyncConvergence
  import opened Planner
  import opened PlanAccounting
  import opened PlanAgain
  import opened PlanRuns
  import opened Sites
  import Migration

  // ----- the setting -----

  /** No call fails, every provider is healthy, and no two share a server. */
  ghost predicate QuietRegistry(reg: Registry) {
    && ValidRegistry(reg) && Quiet(reg.fault)
    && (forall t: nat, name :: reg.healthy(t, name)) && (forall t: nat :: reg.access(t))
    && (forall a <- reg.backends, b <- reg.backends ::
          reg.backends[a].GitLabBackend? && reg.backends[b].GitLabBackend? && a != b ==>
          reg.backends[a].c.owner != reg.backends[b].c.owner)
  }

  /** What a snapshot of the source is: its groups have names and paths of their own. */
  ghost predicate Snapshot(sources: seq<SourceGroup>) {
    && GoodSources(sources) && (forall g <- sources :: g.path != "")
    && (forall i, j :: 0 <= i < j < |sources| ==> sources[i].path != sources[j].path)
  }

  /** Bindings as the program records them. */
  ghost predicate Tidy(reg: Registry, rules: seq<Rule>, groups: Bindings) {
    && KeysAgree(groups) && PresentKeys(reg, rules, groups)
    && (forall k <- groups :: k.source != "" && TrimSlashes(groups[k].targetGroupPath) == groups[k].targetGroupPath)
  }

  ghost predicate Configured(reg: Registry, rules: seq<Rule>, sources: seq<SourceGroup>) {
    QuietRegistry(reg) && UniqueNames(rules) && NamedKeys(reg, rules) && Snapshot(sources)
  }

  /** GitLab gives no two groups of a server one id. */
  ghost predicate OwnIds(w: World) {
    forall a <- w.groups, b <- w.groups :: a.owner == b.owner && w.groups[a] == w.groups[b] ==> a == b
  }

  ghost function PlanFor(reg: Registry, rules: seq<Rule>, sources: seq<SourceGroup>, groups: Bindings): Plan
    requires KeysAgree(groups)
  {
    MakePlan(reg, Listing(groups), true, false, sources, rules)
  }

  /** The site belongs to the job, and its pass can work there. */
  ghost predicate Workable(reg: Registry, job: Job, s: Site, w: World) {
    job.GroupJob? ==> SoundJob(reg, job) && s.c == reg.backends[job.provider].c && s.req == job.req && Primed(s, w)
  }

  // ----- the jobs of one plan are apart -----

  /** What is known of one job of a full plan. */
  ghost predicate KnownJob(
      reg: Registry, rules: seq<Rule>, sources: seq<SourceGroup>, groups: Bindings, job: Job, rule: Rule)
    requires KeysAgree(groups) && SoundJob(reg, job)
  {
    && rule in rules && Available(reg, rule)
    && job.GroupJob? && job.provider == rule.targetProvider && job.req.rule == rule.name && job.req.stateKey != ""
    && TrimSlashes(job.req.targetPath) == job.req.targetPath
    && if job.tombstone.None? then
         exists g <- sources :: job.req.group == g && job.req.stateKey == SourceStateKey(rule, g)
       else
         exists m <- groups.Values ::
           job == TombstoneJob(rule, m) && OfRule(rule, m) && job.tombstone.value == JobKey(reg, job)
           && (rule.name, m.sourceGroupId) !in PlanGroups(reg, Listing(groups), true, false, NO_PLAN, sources,
             rules).present
  }

  lemma KnowJob(
      reg: Registry, rules: seq<Rule>, sources: seq<SourceGroup>, groups: Bindings, r: Rule,
      job: Job) returns (rule: Rule)
    requires Configured(reg, rules, sources) && r in rules && r.vault.None? && Tidy(reg, rules, groups)
    requires PlanFor(reg, rules, sources, groups).errs == [] && job in PlanFor(reg, rules, sources, groups).jobs
      && job.GroupJob?
    ensures SoundJob(reg, job) && KnownJob(reg, rules, sources, groups, job, rule)
  {
    var ms := Listing(groups);
    var live := PlanGroups(reg, ms, true, false, NO_PLAN, sources, rules);
    JobsSound(reg, ms, true, false, sources, rules);
    FullPlanned(reg, ms, false, sources, rules, r);
    LivePlanned(reg, ms, true, false, sources, rules, r);
    if job in live.jobs {
      rule := KnowLive(reg, rules, sources, groups, job);
    } else {
      var m, x :| m in ms && x in rules && BuriedBy(reg, ms, live.present, job, m, x);
      rule := x;
      assert m in groups.Values && groups[m.Key()] == m;
      assert Follows(rule, m.Key());
    }
  }

  lemma KnowLive(
      reg: Registry, rules: seq<Rule>, sources: seq<SourceGroup>, groups: Bindings, job: Job) returns (rule: Rule)
    requires Configured(reg, rules, sources) && Tidy(reg, rules, groups) && job.GroupJob? && job.tombstone.None?
      && SoundJob(reg, job)
    requires Aimed(reg, Listing(groups), true, SourceSet(sources), rules, job)
    ensures KnownJob(reg, rules, sources, groups, job, rule)
  {
    var x, g, relative :| x in rules && g in SourceSet(sources)
      && AimedBy(reg, Listing(groups), true, job, x, g, relative);
    rule := x;
    PresentOnce(reg, rules, groups, rule);
    LiveJobTarget(reg, groups, true, SourceSet(sources), rules, rule, job);
    forall m | m in groups.Values
      ensures TrimSlashes(m.targetGroupPath) == m.targetGroupPath
    {
      assert groups[m.Key()] == m;
    }
    assert g in sources;
  }

  lemma PathsApart(sources: seq<SourceGroup>, g: SourceGroup, h: SourceGroup, rule: Rule)
    requires Snapshot(sources) && g in sources && h in sources && SourceStateKey(rule, g) == SourceStateKey(rule, h)
    ensures g == h
  {
    var i :| 0 <= i < |sources| && sources[i] == g;
    var j :| 0 <= j < |sources| && sources[j] == h;
    if i < j {
    } else if j < i {
    }
  }

  /** Two jobs for one binding are one job. */
  lemma KeysApart(reg: Registry, rules: seq<Rule>, sources: seq<SourceGroup>, groups: Bindings, r: Rule, a: Job, b: Job)
    requires Configured(reg, rules, sources) && r in rules && r.vault.None? && Tidy(reg, rules, groups)
    requires PlanFor(reg, rules, sources, groups).errs == []
    requires a in PlanFor(reg, rules, sources, groups).jobs && b in PlanFor(reg, rules, sources, groups).jobs
      && a.GroupJob? && b.GroupJob?
    requires SoundJob(reg, a) && SoundJob(reg, b) && JobKey(reg, a) == JobKey(reg, b)
    ensures a == b
  {
    var x := KnowJob(reg, rules, sources, groups, r, a);
    var y := KnowJob(reg, rules, sources, groups, r, b);
    SameRule(rules, x, y);
    if a.tombstone.None? {
      LivePresent(reg, rules, sources, groups, r, a);
    }
    if b.tombstone.None? {
      LivePresent(reg, rules, sources, groups, r, b);
    }
    if a.tombstone.None? && b.tombstone.None? {
      SameLive(reg, rules, sources, groups, r, x, a, b);
    } else if a.tombstone.Some? && b.tombstone.Some? {
      var m :| m in groups.Values && a == TombstoneJob(x, m);
      var n :| n in groups.Values && b == TombstoneJob(x, n);
      assert groups[m.Key()] == m && groups[n.Key()] == n;
    }
  }

  lemma LiveAimed(reg: Registry, rules: seq<Rule>, sources: seq<SourceGroup>, groups: Bindings, r: Rule, job: Job)
    requires UniqueNames(rules) && r in rules && r.vault.None? && KeysAgree(groups)
    requires PlanFor(reg, rules, sources, groups).errs == []
    requires job in PlanFor(reg, rules, sources, groups).jobs && job.GroupJob? && job.tombstone.None?
    ensures Aimed(reg, Listing(groups), true, SourceSet(sources), rules, job)
  {
    LivePresent(reg, rules, sources, groups, r, job);
    FullPlanned(reg, Listing(groups), false, sources, rules, r);
    LivePlanned(reg, Listing(groups), true, false, sources, rules, r);
  }

  lemma SameLive(
      reg: Registry, rules: seq<Rule>, sources: seq<SourceGroup>, groups: Bindings, r: Rule, rule: Rule, a: Job, b: Job)
    requires Configured(reg, rules, sources) && r in rules && r.vault.None? && Tidy(reg, rules, groups)
    requires PlanFor(reg, rules, sources, groups).errs == []
    requires a in PlanFor(reg, rules, sources, groups).jobs && b in PlanFor(reg, rules, sources, groups).jobs
    requires SoundJob(reg, a) && SoundJob(reg, b)
    requires KnownJob(reg, rules, sources, groups, a, rule) && KnownJob(reg, rules, sources, groups, b, rule)
    requires a.tombstone.None? && b.tombstone.None? && a.req.stateKey == b.req.stateKey
    ensures a == b
  {
    var ms := Listing(groups);
    LiveAimed(reg, rules, sources, groups, r, a);
    LiveAimed(reg, rules, sources, groups, r, b);
    var x, g, p :| x in rules && g in SourceSet(sources) && AimedBy(reg, ms, true, a, x, g, p);
    var y, h, q :| y in rules && h in SourceSet(sources) && AimedBy(reg, ms, true, b, y, h, q);
    SameRule(rules, x, rule);
    SameRule(rules, y, rule);
    PathsApart(sources, g, h, rule);
  }

  /** And two jobs for one group of GitLab. */
  lemma PlacesApart(
      reg: Registry, rules: seq<Rule>, sources: seq<SourceGroup>, w: World, r: Rule, a: Job, b: Job, s: Site, t: Site)
    requires Configured(reg, rules, sources) && r in rules && r.vault.None? && Tidy(reg, rules, w.books.memory.groups)
      && OwnIds(w)
    requires var plan := PlanFor(reg, rules, sources, w.books.memory.groups);
      plan.errs == [] && a in plan.jobs && b in plan.jobs && a.GroupJob? && b.GroupJob?
    requires Workable(reg, a, s, w) && Workable(reg, b, t, w) && s.Place() == t.Place()
    ensures a == b
  {
    var groups := w.books.memory.groups;
    var x := KnowJob(reg, rules, sources, groups, r, a);
    var y := KnowJob(reg, rules, sources, groups, r, b);
    FullPlanned(reg, Listing(groups), false, sources, rules, r);
    EnsureGroupExact(s.c, w, s.req.targetPath, s.req.targetParent, s.req.createGroup);
    EnsureGroupExact(t.c, w, t.req.targetPath, t.req.targetParent, t.req.createGroup);
    assert a.Key() == b.Key();
    SameClaimSameJob(PlanFor(reg, rules, sources, groups).jobs, a, b);
  }

  // ----- one turn -----

  /** Jobs of the plan that still have work to do. */
  ghost predicate Part(site: Job -> Site, jobs: seq<Job>, part: seq<Job>, v: World) {
    DistinctClaims(part) && forall job <- part :: job in jobs && (job.GroupJob? ==> Primed(site(job), v))
  }

  /** The plan of the first turn, and a site for each of its jobs. */
  ghost predicate Planned(
      reg: Registry, rules: seq<Rule>, sources: seq<SourceGroup>, site: Job -> Site, w: World, jobs: seq<Job>,
      r: Rule)
  {
    && Configured(reg, rules, sources) && r in rules && r.vault.None?
    && Tidy(reg, rules, w.books.memory.groups) && OwnIds(w)
    && PlanFor(reg, rules, sources, w.books.memory.groups).errs == []
      && jobs == PlanFor(reg, rules, sources, w.books.memory.groups).jobs
    && (forall job <- jobs :: Workable(reg, job, site(job), w))
  }

  lemma SiteKey(
      reg: Registry, rules: seq<Rule>, sources: seq<SourceGroup>, site: Job -> Site, w: World, jobs: seq<Job>, r: Rule,
      job: Job)
    requires Planned(reg, rules, sources, site, w, jobs, r) && job in jobs && job.GroupJob?
    ensures Serves(reg, job, site(job)) && site(job).Key() == JobKey(reg, job)
    ensures site(job).t.path == job.req.targetPath
  {
    var rule := KnowJob(reg, rules, sources, w.books.memory.groups, r, job);
    var s := site(job);
    EnsureGroupExact(s.c, w, s.req.targetPath, s.req.targetParent, s.req.createGroup);
  }

  lemma JobsApart(
      reg: Registry, rules: seq<Rule>, sources: seq<SourceGroup>, site: Job -> Site, w: World, jobs: seq<Job>, r: Rule,
      a: Job, b: Job)
    requires Planned(reg, rules, sources, site, w, jobs, r) && a in jobs && b in jobs && a.GroupJob? && b.GroupJob?
      && a != b
    ensures Apart(site(a), site(b))
  {
    SiteKey(reg, rules, sources, site, w, jobs, r, a);
    SiteKey(reg, rules, sources, site, w, jobs, r, b);
    if site(a).Key() == site(b).Key() {
      KeysApart(reg, rules, sources, w.books.memory.groups, r, a, b);
    }
    if site(a).Place() == site(b).Place() {
      PlacesApart(reg, rules, sources, w, r, a, b, site(a), site(b));
    }
  }

  lemma PartPrimed(
      reg: Registry, rules: seq<Rule>, sources: seq<SourceGroup>, site: Job -> Site, w: World, jobs: seq<Job>, r: Rule,
      part: seq<Job>, v: World)
    requires Planned(reg, rules, sources, site, w, jobs, r) && Part(site, jobs, part, v)
    ensures AllPrimed(reg, site, part, v)
  {
    forall job | job in part && job.GroupJob?
      ensures Serves(reg, job, site(job))
    {
      SiteKey(reg, rules, sources, site, w, jobs, r, job);
    }
    forall i, j | 0 <= i < j < |part| && part[i].GroupJob? && part[j].GroupJob?
      ensures Apart(site(part[i]), site(part[j]))
    {
      assert part[i].Key() != part[j].Key();
      JobsApart(reg, rules, sources, site, w, jobs, r, part[i], part[j]);
    }
  }

  /** A quiet turn over migrated bindings is its plan applied. */
  lemma QuietTurn(reg: Registry, rules: seq<Rule>, sources: seq<SourceGroup>, v: World)
    requires Configured(reg, rules, sources) && BooksWellFormed(v)
      && Migration.Migrated(v.books.memory.groups, sources, rules)
    requires PlanFor(reg, rules, sources, v.books.memory.groups).errs == []
    ensures var jobs := PlanFor(reg, rules, sources, v.books.memory.groups).jobs;
      && (forall job <- jobs :: SoundJob(reg, job))
      && Take(reg, rules, v, Full(sources)) == ApplyAll(reg, Call(v), true, jobs).0
  {
    Migration.MigratedIsIdle(reg.fault, v.books, v.tick, sources, rules);
    JobsSound(reg, Listing(v.books.memory.groups), true, false, sources, rules);
    assert v.(books := v.books, tick := v.tick) == v;
  }

  lemma CallPrimed(reg: Registry, site: Job -> Site, part: seq<Job>, v: World)
    requires AllPrimed(reg, site, part, v) && BooksWellFormed(v) && Counted(v.books.memory)
    ensures AllPrimed(reg, site, part, Call(v))
  {
    forall job | job in part && job.GroupJob?
      ensures Primed(site(job), Call(v))
    {
      CallUndisturbed(v, site(job).Place(), site(job).Key());
      PrimedTransfers(site(job), v, Call(v));
    }
  }

  /** What one turn does, when its plan holds a part of the first one's jobs. */
  ghost predicate Turned(site: Job -> Site, part: seq<Job>, v: World, v1: World) {
    && Orderly(v, v1) && AllStepped(site, part, v, v1)
      && OtherKeys(site, part, v.books.memory.groups, v1.books.memory.groups)
    && (AllAtRest(site, part, v) ==> v1.members == v.members)
    && OtherSites(site, part, v, v1)
  }

  ghost predicate OtherSites(site: Job -> Site, part: seq<Job>, v: World, v1: World) {
    forall p, k :: Elsewhere(site, part, p, k) ==> Undisturbed(v, v1, p, k)
  }

  lemma AppliedTurn(reg: Registry, site: Job -> Site, part: seq<Job>, v: World)
    requires (forall job <- part :: SoundJob(reg, job)) && AllPrimed(reg, site, part, v) && Quiet(reg.fault)
      && forall t: nat :: reg.access(t)
    requires BooksWellFormed(v) && Counted(v.books.memory)
    ensures Turned(site, part, v, ApplyAll(reg, v, true, part).0)
  {
    JobsStepped(reg, site, v, true, part);
    JobsOtherKeys(reg, site, v, true, part);
    forall p, k | Elsewhere(site, part, p, k)
      ensures Undisturbed(v, ApplyAll(reg, v, true, part).0, p, k)
    {
      JobsElsewhere(reg, site, v, true, part, p, k);
    }
  }

  /** The health checks before it do not matter. */
  lemma TurnedCall(reg: Registry, site: Job -> Site, part: seq<Job>, v: World, v1: World)
    requires AllPrimed(reg, site, part, v) && Turned(site, part, Call(v), v1)
    ensures Turned(site, part, v, v1)
  {
    SteppedCall(reg, site, part, v, v1);
    if AllAtRest(site, part, v) {
      forall job | job in part && job.GroupJob?
        ensures Rests(site(job), Call(v))
      {
        RestsOn(site(job), v, Call(v));
      }
      assert AllAtRest(site, part, Call(v));
    }
    OtherSitesCall(site, part, v, v1);
  }

  lemma CallUndisturbed(v: World, p: Place, k: BindingKey)
    ensures Undisturbed(v, Call(v), p, k) && Undisturbed(Call(v), v, p, k)
  {
    assert Call(v).Roster(p) == v.Roster(p);
  }

  lemma SteppedCall(reg: Registry, site: Job -> Site, part: seq<Job>, v: World, v1: World)
    requires AllPrimed(reg, site, part, v) && AllStepped(site, part, Call(v), v1)
    ensures AllStepped(site, part, v, v1)
  {
    forall job | job in part && job.GroupJob?
      ensures Primed(site(job), v) && Stepped(job, site(job), v, v1)
    {
      CallUndisturbed(v, site(job).Place(), site(job).Key());
      SteppedAfter(job, site(job), v, Call(v), v1);
    }
  }

  lemma OtherSitesCall(site: Job -> Site, part: seq<Job>, v: World, v1: World)
    requires OtherSites(site, part, Call(v), v1)
    ensures OtherSites(site, part, v, v1)
  {
    forall p, k | Elsewhere(site, part, p, k)
      ensures Undisturbed(v, v1, p, k)
    {
      CallUndisturbed(v, p, k);
      UndisturbedChain(v, Call(v), v1, p, k);
    }
  }

  lemma TurnSteps(
      reg: Registry, rules: seq<Rule>, sources: seq<SourceGroup>, site: Job -> Site, w: World, jobs: seq<Job>, r: Rule,
      v: World)
    requires Planned(reg, rules, sources, site, w, jobs, r)
    requires BooksWellFormed(v) && Counted(v.books.memory) && Migration.Migrated(v.books.memory.groups, sources, rules)
    requires var plan := PlanFor(reg, rules, sources, v.books.memory.groups);
      plan.errs == [] && Part(site, jobs, plan.jobs, v)
    ensures Turned(site, PlanFor(reg, rules, sources, v.books.memory.groups).jobs, v,
      Take(reg, rules, v, Full(sources)))
  {
    var part := PlanFor(reg, rules, sources, v.books.memory.groups).jobs;
    PartPrimed(reg, rules, sources, site, w, jobs, r, part, v);
    QuietTurn(reg, rules, sources, v);
    CallPrimed(reg, site, part, v);
    AppliedTurn(reg, site, part, Call(v));
    TurnedCall(reg, site, part, v, Take(reg, rules, v, Full(sources)));
  }

  // ----- from one turn to the next -----

  /** The binding of a live job. */
  ghost predicate LiveKey(reg: Registry, jobs: seq<Job>, m: GroupMapping) {
    exists job <- jobs :: job.GroupJob? && job.tombstone.None? && SoundJob(reg, job)
      && m.Key() == JobKey(reg, job) && m.sourceGroupPath == job.req.group.path
  }

  /** Whatever is bound was bound alike at the start, or belongs to a live job. */
  ghost predicate Kept(reg: Registry, jobs: seq<Job>, before: Bindings, after: Bindings) {
    && KeysAgree(after)
    && forall k <- after :: (k in before && Alike(before[k], after[k])) || LiveKey(reg, jobs, after[k])
  }

  lemma JobKeeps(
      reg: Registry, rules: seq<Rule>, sources: seq<SourceGroup>, site: Job -> Site, w: World, jobs: seq<Job>, r: Rule,
      job: Job, v: World)
    requires Planned(reg, rules, sources, site, w, jobs, r) && job in jobs && job.GroupJob? && Primed(site(job), v)
    ensures var m := Recorded(site(job), v); var before := w.books.memory.groups;
      if job.tombstone.None? then LiveKey(reg, jobs, m) && m.targetGroupPath == job.req.targetPath
      else m.Key() in before && Alike(before[m.Key()], m)
  {
    var rule := KnowJob(reg, rules, sources, w.books.memory.groups, r, job);
    SiteKey(reg, rules, sources, site, w, jobs, r, job);
    RecordedFor(site(job), v);
    if job.tombstone.Some? {
      var m :| m in w.books.memory.groups.Values && job == TombstoneJob(rule, m);
      assert w.books.memory.groups[m.Key()] == m;
    }
  }

  lemma KeptStep(
      reg: Registry, rules: seq<Rule>, sources: seq<SourceGroup>, site: Job -> Site, w: World, jobs: seq<Job>, r: Rule,
      part: seq<Job>, v: World, v1: World)
    requires Planned(reg, rules, sources, site, w, jobs, r) && Part(site, jobs, part, v) && Turned(site, part, v, v1)
    requires Kept(reg, jobs, w.books.memory.groups, v.books.memory.groups)
    ensures Kept(reg, jobs, w.books.memory.groups, v1.books.memory.groups)
  {
    var before, after := w.books.memory.groups, v1.books.memory.groups;
    forall k | k in after
      ensures (k in before && Alike(before[k], after[k])) || LiveKey(reg, jobs, after[k])
    {
      if job :| job in part && job.GroupJob? && site(job).Key() == k {
        JobKeeps(reg, rules, sources, site, w, jobs, r, job, v);
        RecordedFor(site(job), v);
      }
    }
  }

  lemma LiveKeyRule(
      reg: Registry, rules: seq<Rule>, sources: seq<SourceGroup>, site: Job -> Site, w: World, jobs: seq<Job>, r: Rule,
      m: GroupMapping, rule: Rule)
    requires Planned(reg, rules, sources, site, w, jobs, r) && LiveKey(reg, jobs, m) && rule in rules
      && m.rule == rule.name
    ensures Available(reg, rule) && m.provider == reg.backends[rule.targetProvider].c.owner
    ensures rule.sourceGroupPaths.Some? ==> m.sourceGroupId == m.sourceGroupPath
  {
    var job :| job in jobs && job.GroupJob? && job.tombstone.None? && SoundJob(reg, job)
      && m.Key() == JobKey(reg, job) && m.sourceGroupPath == job.req.group.path;
    var x := KnowJob(reg, rules, sources, w.books.memory.groups, r, job);
    SameRule(rules, x, rule);
  }

  /** So planning may go on from there, and there is nothing to migrate. */
  lemma KeptComparable(
      reg: Registry, rules: seq<Rule>, sources: seq<SourceGroup>, site: Job -> Site, w: World, jobs: seq<Job>, r: Rule,
      after: Bindings)
    requires Planned(reg, rules, sources, site, w, jobs, r) && Kept(reg, jobs, w.books.memory.groups, after)
    requires Migration.Migrated(w.books.memory.groups, sources, rules)
    ensures Comparable(reg, rules, w.books.memory.groups, after) && Migration.Migrated(after, sources, rules)
  {
    var before := w.books.memory.groups;
    forall rule, k | rule in rules && k in after && Follows(rule, k) && !(k in before && Alike(before[k], after[k]))
      ensures Available(reg, rule) && k.provider == reg.backends[rule.targetProvider].c.owner
      ensures rule.sourceGroupPaths.Some? ==> after[k].sourceGroupId == after[k].sourceGroupPath
    {
      LiveKeyRule(reg, rules, sources, site, w, jobs, r, after[k], rule);
    }
    forall rule, k | rule in rules && k in after && Available(reg, rule) && Follows(rule, k)
      ensures k.provider == reg.backends[rule.targetProvider].c.owner
    {
    }
    forall rule, g, k | rule in rules && g in sources && k in after && Migration.Declares(rule)
      && SourcePathAllowed(rule, g.path)
      ensures !Migration.Legacy(rule, g, after[k])
    {
      if k in before && Alike(before[k], after[k]) {
        assert !Migration.Legacy(rule, g, before[k]);
      } else if OfRule(rule, after[k]) {
        assert after[k].Key() == k && Follows(rule, k);
      }
    }
  }

  /** Between two turns: who still has work to do is ready for it. */
  ghost predicate Between(
      reg: Registry, rules: seq<Rule>, sources: seq<SourceGroup>, site: Job -> Site, w: World, jobs: seq<Job>, v: World)
  {
    && BooksWellFormed(v) && Counted(v.books.memory) && v.groups == w.groups
    && Kept(reg, jobs, w.books.memory.groups, v.books.memory.groups)
    && Migration.Migrated(w.books.memory.groups, sources, rules)
    && (forall job <- jobs :: job.GroupJob? && Left(job, v) ==> Primed(site(job), v))
  }

  /** The job is live, or its mapping was not given up yet. */
  predicate Left(job: Job, v: World) {
    job.GroupJob? && job.tombstone.Some? ==> job.tombstone.value in v.books.memory.groups
  }

  /** The next plan succeeds and holds just the jobs that are left. */
  ghost predicate PlansLeft(
      reg: Registry, rules: seq<Rule>, sources: seq<SourceGroup>, site: Job -> Site, jobs: seq<Job>, v: World)
    requires BooksWellFormed(v)
  {
    var plan := PlanFor(reg, rules, sources, v.books.memory.groups);
    plan.errs == [] && Part(site, jobs, plan.jobs, v) && (forall job <- jobs :: Left(job, v) ==> job in plan.jobs)
  }

  lemma NextTurn(
      reg: Registry, rules: seq<Rule>, sources: seq<SourceGroup>, site: Job -> Site, w: World, jobs: seq<Job>, r: Rule,
      v: World)
    requires Planned(reg, rules, sources, site, w, jobs, r)
    requires Between(reg, rules, sources, site, w, jobs, v) && PlansLeft(reg, rules, sources, site, jobs, v)
    ensures var v1 := Take(reg, rules, v, Full(sources));
      var part := PlanFor(reg, rules, sources, v.books.memory.groups).jobs;
      && Turned(site, part, v, v1)
      && Between(reg, rules, sources, site, w, jobs, v1)
      && AllBound(reg, jobs, v1)
  {
    var v1 := Take(reg, rules, v, Full(sources));
    var part := PlanFor(reg, rules, sources, v.books.memory.groups).jobs;
    KeptComparable(reg, rules, sources, site, w, jobs, r, v.books.memory.groups);
    TurnSteps(reg, rules, sources, site, w, jobs, r, v);
    KeptStep(reg, rules, sources, site, w, jobs, r, part, v, v1);
    forall job | job in jobs && job.GroupJob?
      ensures BoundTo(reg, v1.books.memory.groups, job)
      ensures Left(job, v1) ==> Primed(site(job), v1)
    {
      SiteKey(reg, rules, sources, site, w, jobs, r, job);
      if job in part {
        JobKeeps(reg, rules, sources, site, w, jobs, r, job, v);
      } else {
        GoneStays(reg, rules, sources, site, w, jobs, r, part, v, v1, job);
      }
    }
  }

  /** A mapping that was given up does not come back. */
  lemma GoneStays(
      reg: Registry, rules: seq<Rule>, sources: seq<SourceGroup>, site: Job -> Site, w: World, jobs: seq<Job>, r: Rule,
      part: seq<Job>, v: World, v1: World, job: Job)
    requires Planned(reg, rules, sources, site, w, jobs, r) && Part(site, jobs, part, v) && Turned(site, part, v, v1)
    requires job in jobs && job.GroupJob? && job !in part && !Left(job, v)
    ensures !Left(job, v1) && Undisturbed(v, v1, site(job).Place(), site(job).Key())
  {
    SiteKey(reg, rules, sources, site, w, jobs, r, job);
    forall other | other in part && other.GroupJob?
      ensures site(other).Place() != site(job).Place() && site(other).Key() != site(job).Key()
    {
      JobsApart(reg, rules, sources, site, w, jobs, r, other, job);
    }
    assert Elsewhere(site, part, site(job).Place(), site(job).Key());
  }

  lemma NextPlan(
      reg: Registry, rules: seq<Rule>, sources: seq<SourceGroup>, site: Job -> Site, w: World, jobs: seq<Job>, r: Rule,
      v: World)
    requires Planned(reg, rules, sources, site, w, jobs, r) && Between(reg, rules, sources, site, w, jobs, v)
    requires AllBound(reg, jobs, v)
    ensures PlansLeft(reg, rules, sources, site, jobs, v)
    ensures forall job <- PlanFor(reg, rules, sources, v.books.memory.groups).jobs :: Left(job, v)
  {
    var before, after := w.books.memory.groups, v.books.memory.groups;
    KeptComparable(reg, rules, sources, site, w, jobs, r, after);
    KeptAdvanced(reg, jobs, before, after);
    PlansAgain(reg, rules, sources, before, after, r);
    FullPlanned(reg, Listing(after), false, sources, rules, r);
    LivePlanned(reg, Listing(after), true, false, sources, rules, r);
  }

  lemma KeptAdvanced(reg: Registry, jobs: seq<Job>, before: Bindings, after: Bindings)
    requires Kept(reg, jobs, before, after) && forall job <- jobs :: BoundTo(reg, after, job)
    ensures Advanced(reg, jobs, before, after)
  {
  }

  // ----- two turns -----

  /** What is due in the only pass a target needs goes then. */
  lemma OnePassExact(s: Site, w: World, w1: World)
    requires Progress(s.c, s.req, s.Place(), s.self, s.desired, w, w1)
    requires AllDue(s.c, s.req, s.Place(), s.self, s.desired, w)
    ensures Exact(s.c, s.req, s.self, s.desired, w.Roster(s.Place()), w1.Roster(s.Place()))
  {
    var p := s.Place();
    forall u | u !in s.desired
      ensures u in w1.Roster(p) <==> u in w.Roster(p) && Exempt(s.c, s.req, s.self, u, w.Roster(p)[u])
    {
      assert u in w.Roster(p) ==> (u in Candidates(s.c, s.req, s.self, s.desired, w.Roster(p))
        <==> !Exempt(s.c, s.req, s.self, u, w.Roster(p)[u]));
    }
    assert w1.Roster(p).Keys == s.desired + (set u | u in w.Roster(p) && Exempt(s.c, s.req, s.self, u, w.Roster(p)[u]));
  }

  lemma TwoPassesExact(s: Site, w: World, w1: World, w2: World)
    requires Progress(s.c, s.req, s.Place(), s.self, s.desired, w, w1)
      && Progress(s.c, s.req, s.Place(), s.self, s.desired, w1, w2)
    ensures Exact(s.c, s.req, s.self, s.desired, w.Roster(s.Place()), w2.Roster(s.Place()))
    ensures Rests(s, w2) && AllDue(s.c, s.req, s.Place(), s.self, s.desired, w1)
  {
    SecondPassExact(s.c, s.req, s.Place(), s.self, s.desired, w, w1, w2);
    ExactLevels(s.c, s.req, s.Place(), s.self, s.desired, w, w2);
  }

  /** What two turns have done for this job. */
  ghost predicate Done(reg: Registry, job: Job, s: Site, w: World, w2: World)
    requires job.GroupJob? && SoundJob(reg, job)
  {
    && Exact(s.c, s.req, s.self, s.desired, w.Roster(s.Place()), w2.Roster(s.Place()))
    && (job.tombstone.Some? ==> job.tombstone.value !in w2.books.memory.groups)
    && BoundTo(reg, w2.books.memory.groups, job)
  }

  lemma JobDone(
      reg: Registry, rules: seq<Rule>, sources: seq<SourceGroup>, site: Job -> Site, w: World, jobs: seq<Job>, r: Rule,
      part: seq<Job>, w1: World, w2: World, job: Job)
    requires Planned(reg, rules, sources, site, w, jobs, r) && Part(site, jobs, part, w1)
    requires Turned(site, jobs, w, w1) && Turned(site, part, w1, w2) && BoundTo(reg, w2.books.memory.groups, job)
    requires job in jobs && job.GroupJob? && (Left(job, w1) ==> job in part)
    ensures SoundJob(reg, job) && Done(reg, job, site(job), w, w2) && (job.tombstone.None? ==> Rests(site(job), w2))
  {
    var s := site(job);
    SiteKey(reg, rules, sources, site, w, jobs, r, job);
    if job in part {
      TwoPassesExact(s, w, w1, w2);
    } else {
      OnePassExact(s, w, w1);
      GoneStays(reg, rules, sources, site, w, jobs, r, part, w1, w2, job);
    }
  }

  lemma AtStart(
      reg: Registry, rules: seq<Rule>, sources: seq<SourceGroup>, site: Job -> Site, w: World, jobs: seq<Job>, r: Rule)
    requires Planned(reg, rules, sources, site, w, jobs, r)
    requires BooksWellFormed(w) && Counted(w.books.memory) && Migration.Migrated(w.books.memory.groups, sources, rules)
    ensures Between(reg, rules, sources, site, w, jobs, w) && PlansLeft(reg, rules, sources, site, jobs, w)
  {
    FullPlanned(reg, Listing(w.books.memory.groups), false, sources, rules, r);
  }

  /**
   Two fault-free full turns over migrated bindings: every target of the plan has
   exactly the members its job asks for besides the untouched exempt ones, every
   mapping whose source is gone is given up, and every live source is bound. A third
   turn changes neither groups nor members.
  */
  lemma TwoTurnsConverge(
      reg: Registry, rules: seq<Rule>, sources: seq<SourceGroup>, site: Job -> Site, w: World, jobs: seq<Job>, r: Rule)
    requires Planned(reg, rules, sources, site, w, jobs, r)
    requires BooksWellFormed(w) && Counted(w.books.memory) && Migration.Migrated(w.books.memory.groups, sources, rules)
    ensures BooksWellFormed(Take(reg, rules, w, Full(sources)))
    ensures var w2 := Take(reg, rules, Take(reg, rules, w, Full(sources)), Full(sources));
      && BooksWellFormed(w2)
      && AllDone(reg, site, jobs, w, w2)
      && var third := Take(reg, rules, w2, Full(sources));
         third.members == w2.members && third.groups == w2.groups == w.groups
  {
    FirstTurn(reg, rules, sources, site, w, jobs, r);
    var w1 := Take(reg, rules, w, Full(sources));
    SecondTurn(reg, rules, sources, site, w, jobs, r, w1);
    var w2 := Take(reg, rules, w1, Full(sources));
    ThirdTurn(reg, rules, sources, site, w, jobs, r, w2);
  }

  /** Every live job's source is bound to its target. */
  ghost predicate AllBound(reg: Registry, jobs: seq<Job>, v: World) {
    forall job <- jobs :: BoundTo(reg, v.books.memory.groups, job)
  }

  lemma FirstTurn(
      reg: Registry, rules: seq<Rule>, sources: seq<SourceGroup>, site: Job -> Site, w: World, jobs: seq<Job>, r: Rule)
    requires Planned(reg, rules, sources, site, w, jobs, r)
    requires BooksWellFormed(w) && Counted(w.books.memory) && Migration.Migrated(w.books.memory.groups, sources, rules)
    ensures var w1 := Take(reg, rules, w, Full(sources));
      Turned(site, jobs, w, w1) && Between(reg, rules, sources, site, w, jobs, w1) && AllBound(reg, jobs, w1)
  {
    AtStart(reg, rules, sources, site, w, jobs, r);
    NextTurn(reg, rules, sources, site, w, jobs, r, w);
  }

  lemma SecondTurn(
      reg: Registry, rules: seq<Rule>, sources: seq<SourceGroup>, site: Job -> Site, w: World, jobs: seq<Job>, r: Rule,
      w1: World)
    requires Planned(reg, rules, sources, site, w, jobs, r) && Turned(site, jobs, w, w1)
    requires Between(reg, rules, sources, site, w, jobs, w1) && AllBound(reg, jobs, w1)
    ensures var w2 := Take(reg, rules, w1, Full(sources));
      && Between(reg, rules, sources, site, w, jobs, w2) && AllBound(reg, jobs, w2)
      && AllDone(reg, site, jobs, w, w2)
  {
    NextPlan(reg, rules, sources, site, w, jobs, r, w1);
    NextTurn(reg, rules, sources, site, w, jobs, r, w1);
    var w2 := Take(reg, rules, w1, Full(sources));
    var part := PlanFor(reg, rules, sources, w1.books.memory.groups).jobs;
    forall job | job in jobs && job.GroupJob?
      ensures SoundJob(reg, job) && Done(reg, job, site(job), w, w2) && (job.tombstone.None? ==> Rests(site(job), w2))
    {
      JobDone(reg, rules, sources, site, w, jobs, r, part, w1, w2, job);
    }
  }

  ghost predicate AllDone(reg: Registry, site: Job -> Site, jobs: seq<Job>, w: World, w2: World) {
    forall job <- jobs :: job.GroupJob? ==>
      SoundJob(reg, job) && Done(reg, job, site(job), w, w2) && (job.tombstone.None? ==> Rests(site(job), w2))
  }

  lemma ThirdTurn(
      reg: Registry, rules: seq<Rule>, sources: seq<SourceGroup>, site: Job -> Site, w: World, jobs: seq<Job>, r: Rule,
      w2: World)
    requires Planned(reg, rules, sources, site, w, jobs, r) && AllDone(reg, site, jobs, w, w2)
    requires Between(reg, rules, sources, site, w, jobs, w2) && AllBound(reg, jobs, w2)
    ensures var third := Take(reg, rules, w2, Full(sources)); third.members == w2.members && third.groups == w2.groups
  {
    NextPlan(reg, rules, sources, site, w, jobs, r, w2);
    NextTurn(reg, rules, sources, site, w, jobs, r, w2);
    var part := PlanFor(reg, rules, sources, w2.books.memory.groups).jobs;
    forall job | job in part && job.GroupJob?
      ensures Rests(site(job), w2)
    {
      assert job in jobs && Left(job, w2);
    }
  }
}

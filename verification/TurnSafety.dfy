/**
 Safety over the controller's own runs: full and targeted turns, with migrations
 and retirements saving in between, restarts and power failures.
*/
module TurnSafety {
  import opened Wrappers
  import opened Ledger
  import opened Paths
  import opened Sync
  import opened SyncSafety
  import opened SyncBinding
  import opened SyncGate
  import opened Planner
  import opened PlanRuns
  import Migration

  // ----- every request comes from a rule -----

  ghost predicate FromRule(rule: Rule, job: Job) {
    job.GroupJob? ==>
      || (exists key, group, target :: job.req == LiveRequest(rule, key, group, target))
      || (exists m :: job.req == TombstoneRequest(rule, m) && job.tombstone == Some(m.Key()))
  }

  ghost predicate HasRule(rules: seq<Rule>, job: Job) {
    exists rule <- rules :: FromRule(rule, job)
  }

  ghost predicate FromRules(rules: seq<Rule>, jobs: seq<Job>) {
    forall job <- jobs :: HasRule(rules, job)
  }

  /** Registering a target adds at most one job, which comes from the rule. */
  lemma RegisterFromRules(
      reg: Registry, pl: Plan, group: SourceGroup, rule: Rule, key: Id, target: string, rules: seq<Rule>)
    requires rule in rules && FromRules(rules, pl.jobs)
    ensures FromRules(rules, Register(reg, pl, group, rule, key, target).jobs)
  {
    var out := Register(reg, pl, group, rule, key, target);
    if out.jobs != pl.jobs {
      var job := out.jobs[|pl.jobs|];
      assert out.jobs == pl.jobs + [job];
      assert FromRule(rule, job);
    }
  }

  lemma LiveFromRules(
      reg: Registry, mappings: seq<GroupMapping>, complete: bool, membershipsOnly: bool, pl: Plan, group: SourceGroup,
      rule: Rule, rules: seq<Rule>)
    requires rule in rules && FromRules(rules, pl.jobs)
    ensures FromRules(rules, PlanLive(reg, mappings, complete, membershipsOnly, pl, group, rule).jobs)
  {
    var relative := RelativeGroupPath(group.path, rule.sourceGroupPrefix);
    if relative.Some? {
      var mapped := FreshPath(reg, rule, relative.value);
      if mapped.Some? {
        var key := SourceStateKey(rule, group);
        var aim := AimAll(rule, key, complete, Aim(mapped.value, []), mappings);
        RegisterFromRules(reg, pl.(errs := pl.errs + aim.collisions), group, rule, key, aim.target, rules);
      }
    }
  }

  lemma {:induction false} RulesFromRules(
      reg: Registry, mappings: seq<GroupMapping>, complete: bool, membershipsOnly: bool, pl: Plan, group: SourceGroup,
      rest: seq<Rule>, rules: seq<Rule>)
    requires (forall rule <- rest :: rule in rules) && FromRules(rules, pl.jobs)
    ensures FromRules(rules, PlanRules(reg, mappings, complete, membershipsOnly, pl, group, rest).jobs)
    decreases rest
  {
    if rest != [] {
      LiveFromRules(reg, mappings, complete, membershipsOnly, pl, group, rest[0], rules);
      RulesFromRules(reg, mappings, complete, membershipsOnly,
        PlanLive(reg, mappings, complete, membershipsOnly, pl, group, rest[0]), group, rest[1..], rules);
    }
  }

  lemma {:induction false} GroupsFromRules(
      reg: Registry, mappings: seq<GroupMapping>, complete: bool, membershipsOnly: bool, pl: Plan,
      groups: seq<SourceGroup>, rules: seq<Rule>)
    requires FromRules(rules, pl.jobs)
    ensures FromRules(rules, PlanGroups(reg, mappings, complete, membershipsOnly, pl, groups, rules).jobs)
    decreases groups
  {
    if groups != [] {
      RulesFromRules(reg, mappings, complete, membershipsOnly, pl, groups[0], rules, rules);
      GroupsFromRules(reg, mappings, complete, membershipsOnly,
        PlanRules(reg, mappings, complete, membershipsOnly, pl, groups[0], rules), groups[1..], rules);
    }
  }

  lemma BuryFromRules(reg: Registry, pl: Plan, m: GroupMapping, rule: Rule, rules: seq<Rule>)
    requires rule in rules && FromRules(rules, pl.jobs)
    ensures FromRules(rules, Bury(reg, pl, m, rule).jobs)
  {
    var out := Bury(reg, pl, m, rule);
    if |out.jobs| > |pl.jobs| {
      var job := out.jobs[|pl.jobs|];
      assert out.jobs == pl.jobs + [job];
      assert FromRule(rule, job);
    }
  }

  lemma {:induction false} BuryRulesFromRules(
      reg: Registry, pl: Plan, m: GroupMapping, rest: seq<Rule>, rules: seq<Rule>)
    requires (forall rule <- rest :: rule in rules) && FromRules(rules, pl.jobs)
    ensures FromRules(rules, BuryRules(reg, pl, m, rest).jobs)
    decreases rest
  {
    if rest != [] {
      BuryFromRules(reg, pl, m, rest[0], rules);
      BuryRulesFromRules(reg, Bury(reg, pl, m, rest[0]), m, rest[1..], rules);
    }
  }

  lemma {:induction false} BuryAllFromRules(reg: Registry, pl: Plan, mappings: seq<GroupMapping>, rules: seq<Rule>)
    requires FromRules(rules, pl.jobs)
    ensures FromRules(rules, BuryAll(reg, pl, mappings, rules).jobs)
    decreases mappings
  {
    if mappings != [] {
      BuryRulesFromRules(reg, pl, mappings[0], rules, rules);
      BuryAllFromRules(reg, BuryMapping(reg, pl, mappings[0], rules), mappings[1..], rules);
    }
  }

  lemma PlanFromRules(
      reg: Registry, mappings: seq<GroupMapping>, complete: bool, membershipsOnly: bool, groups: seq<SourceGroup>,
      rules: seq<Rule>)
    ensures FromRules(rules, MakePlan(reg, mappings, complete, membershipsOnly, groups, rules).jobs)
  {
    GroupsFromRules(reg, mappings, complete, membershipsOnly, NO_PLAN, groups, rules);
    if complete {
      BuryAllFromRules(reg, PlanGroups(reg, mappings, complete, membershipsOnly, NO_PLAN, groups, rules), mappings,
        rules);
    }
  }

  // ----- saves that concern bindings only -----

  /** Only the bindings of the ledgers changed. */
  ghost predicate BindingsOnly(w: World, w1: World) {
    && w1.groups == w.groups && w1.members == w.members && w1.log == w.log
    && SameTables(w1.books.memory, w.books.memory)
    && (SameTables(w1.books.disk, w.books.disk) || SameTables(w1.books.disk, w.books.memory))
    && (SameTables(w1.books.settled, w.books.settled) || SameTables(w1.books.settled, w.books.memory))
  }

  lemma MigrateBindingsOnly(reg: Registry, rules: seq<Rule>, w: World, groups: seq<SourceGroup>)
    requires BooksWellFormed(w)
    ensures var d := Migration.Migrate(reg.fault, w.books, w.tick, groups, rules);
      var w1 := w.(books := d.books, tick := d.tick);
      BindingsOnly(w, w1) && BooksWellFormed(w1)
  {
    Migration.MigrationConserves(reg.fault, w.books, w.tick, groups, rules);
  }

  lemma RetireBindingsOnly(fault: nat -> Fault, w: World, k: BindingKey)
    requires BooksWellFormed(w)
    ensures BindingsOnly(w, Retire(fault, w, k).0) && BooksWellFormed(Retire(fault, w, k).0)
  {
  }

  // ----- what holds before and after every turn -----

  /** The books are in order, and count no more absences than were written down. */
  ghost predicate InOrder(w: World) {
    BooksWellFormed(w) && Tallied(w)
  }

  lemma BindingsTallied(w: World, w1: World)
    requires BindingsOnly(w, w1) && Tallied(w)
    ensures Tallied(w1)
  {
    forall m: Membership
      ensures Claimed(w1.books, m) <= Since(w1.log, m)
    {
      assert Claimed(w.books, m) <= Since(w.log, m);
    }
  }

  lemma JobWellFormed(reg: Registry, w: World, job: Job)
    requires SoundJob(reg, job) && BooksWellFormed(w)
    ensures BooksWellFormed(ApplyJob(reg, w, job).0)
    ensures Tallied(w) ==> Tallied(ApplyJob(reg, w, job).0)
  {
    if job.GroupJob? {
      var a := Synchronize(reg.backends[job.provider].c, job.req);
      ActWellFormed(w, a);
      if Tallied(w) {
        ActTallied(w, a);
      }
      var out := Act(w, a);
      if job.tombstone.Some? {
        RetireBindingsOnly(reg.fault, out, job.tombstone.value);
        if Tallied(w) {
          BindingsTallied(out, Retire(reg.fault, out, job.tombstone.value).0);
        }
      }
    }
  }

  lemma {:induction false} JobsWellFormed(reg: Registry, w: World, ok: bool, jobs: seq<Job>)
    requires (forall job <- jobs :: SoundJob(reg, job)) && BooksWellFormed(w)
    ensures BooksWellFormed(ApplyAll(reg, w, ok, jobs).0)
    ensures Tallied(w) ==> Tallied(ApplyAll(reg, w, ok, jobs).0)
    decreases jobs
  {
    if jobs != [] {
      var (w1, applied) := ApplyJob(reg, w, jobs[0]);
      JobWellFormed(reg, w, jobs[0]);
      JobsWellFormed(reg, w1, ok && applied, jobs[1..]);
    }
  }

  lemma RunOnceWellFormed(
      reg: Registry, rules: seq<Rule>, w: World, groups: seq<SourceGroup>, complete: bool, membershipsOnly: bool)
    requires ValidRegistry(reg) && BooksWellFormed(w)
    ensures BooksWellFormed(RunOnce(reg, rules, w, groups, complete, membershipsOnly))
    ensures Tallied(w) ==> Tallied(RunOnce(reg, rules, w, groups, complete, membershipsOnly))
  {
    MigrateBindingsOnly(reg, rules, w, groups);
    var w1 := Migrated(reg, rules, w, groups);
    if Tallied(w) {
      BindingsTallied(w, w1);
    }
    JobsSound(reg, Listing(w1.books.memory.groups), complete, membershipsOnly, groups, rules);
    JobsWellFormed(reg, Call(w1), true, JobsOf(reg, rules, w1, groups, complete, membershipsOnly));
  }

  /** The world once the migration has ended. */
  ghost function Migrated(reg: Registry, rules: seq<Rule>, w: World, groups: seq<SourceGroup>): World
    requires BooksWellFormed(w)
  {
    var d := Migration.Migrate(reg.fault, w.books, w.tick, groups, rules);
    w.(books := d.books, tick := d.tick)
  }

  ghost function JobsOf(
      reg: Registry, rules: seq<Rule>, w: World, groups: seq<SourceGroup>, complete: bool,
      membershipsOnly: bool): seq<Job>
    requires w.books.memory.WellFormed()
  {
    MakePlan(reg, Listing(w.books.memory.groups), complete, membershipsOnly, groups, rules).jobs
  }

  lemma TurnWellFormed(reg: Registry, rules: seq<Rule>, w: World, t: Turn)
    requires ValidRegistry(reg) && BooksWellFormed(w)
    ensures BooksWellFormed(Take(reg, rules, w, t))
    ensures Tallied(w) ==> Tallied(Take(reg, rules, w, t))
  {
    match t
    case Full(groups) => RunOnceWellFormed(reg, rules, w, groups, true, false);
    case Targeted(group, membershipsOnly) => RunOnceWellFormed(reg, rules, w, [group], false, membershipsOnly);
    case Reload(lost) =>
      var w1 := Take(reg, rules, w, t);
      if Tallied(w) {
        forall m: Membership
          ensures Claimed(w1.books, m) <= Since(w.log, m)
        {
          assert Claimed(w.books, m) <= Since(w.log, m);
        }
      }
  }

  ghost function RunAll(reg: Registry, rules: seq<Rule>, w: World, turns: seq<Turn>): (w1: World)
    requires ValidRegistry(reg) && BooksWellFormed(w)
    ensures BooksWellFormed(w1) && (Tallied(w) ==> Tallied(w1))
    decreases |turns|
  {
    if turns == [] then w
    else
      var before := RunAll(reg, rules, w, turns[..|turns| - 1]);
      TurnWellFormed(reg, rules, before, turns[|turns| - 1]);
      Take(reg, rules, before, turns[|turns| - 1])
  }

  // ----- who is gone was entitled to go -----

  /**
   The pass of this job removed the member through the gate. Its request comes from
   a configured rule; only a tombstone of a rule with declared paths removes at once.
  */
  ghost predicate RemovedByJob(reg: Registry, rules: seq<Rule>, w: World, job: Job, q: Place, u: Id)
    requires SoundJob(reg, job)
  {
    && job.GroupJob? && RemovedBySync(reg.backends[job.provider].c, job.req, w, q, u)
    && HasRule(rules, job)
    && (job.req.immediate ==>
      job.tombstone.Some? && exists rule <- rules :: FromRule(rule, job) && rule.sourceGroupPaths.Some?)
  }

  ghost predicate RemovedInJobs(reg: Registry, rules: seq<Rule>, w: World, jobs: seq<Job>, q: Place, u: Id)
    requires forall job <- jobs :: SoundJob(reg, job)
    decreases jobs
  {
    && jobs != []
    && (RemovedByJob(reg, rules, w, jobs[0], q, u)
      || RemovedInJobs(reg, rules, ApplyJob(reg, w, jobs[0]).0, jobs[1..], q, u))
  }

  ghost predicate RemovedInRun(
      reg: Registry, rules: seq<Rule>, w: World, groups: seq<SourceGroup>, complete: bool, membershipsOnly: bool,
      q: Place, u: Id)
    requires ValidRegistry(reg) && BooksWellFormed(w)
  {
    MigrateBindingsOnly(reg, rules, w, groups);
    var w1 := Migrated(reg, rules, w, groups);
    JobsSound(reg, Listing(w1.books.memory.groups), complete, membershipsOnly, groups, rules);
    && Reconcile(reg, w1, groups, rules, complete, membershipsOnly).applied
    && RemovedInJobs(reg, rules, Call(w1), JobsOf(reg, rules, w1, groups, complete, membershipsOnly), q, u)
  }

  ghost predicate RemovedInTurn(reg: Registry, rules: seq<Rule>, w: World, t: Turn, q: Place, u: Id)
    requires ValidRegistry(reg) && BooksWellFormed(w)
  {
    match t
    case Full(groups) => RemovedInRun(reg, rules, w, groups, true, false, q, u)
    case Targeted(group, membershipsOnly) => RemovedInRun(reg, rules, w, [group], false, membershipsOnly, q, u)
    case Reload(_) => false
  }

  lemma JobRemoves(reg: Registry, rules: seq<Rule>, w: World, job: Job, q: Place, u: Id)
    requires SoundJob(reg, job) && HasRule(rules, job) && InOrder(w)
    requires u in w.Roster(q) && u !in ApplyJob(reg, w, job).0.Roster(q)
    ensures RemovedByJob(reg, rules, w, job, q, u)
  {
    SyncRemoves(reg.backends[job.provider].c, job.req, w, q, u);
    if job.req.immediate {
      ImmediateByRule(rules, job);
    }
  }

  lemma ImmediateByRule(rules: seq<Rule>, job: Job)
    requires job.GroupJob? && HasRule(rules, job) && job.req.immediate
    ensures job.tombstone.Some? && exists rule <- rules :: FromRule(rule, job) && rule.sourceGroupPaths.Some?
  {
    var rule :| rule in rules && FromRule(rule, job);
    assert rule.sourceGroupPaths.Some? && job.tombstone.Some?;
  }

  lemma {:induction false} JobsRemove(
      reg: Registry, rules: seq<Rule>, w: World, ok: bool, jobs: seq<Job>, q: Place, u: Id)
    requires (forall job <- jobs :: SoundJob(reg, job)) && FromRules(rules, jobs) && InOrder(w)
    requires u in w.Roster(q) && u !in ApplyAll(reg, w, ok, jobs).0.Roster(q)
    ensures RemovedInJobs(reg, rules, w, jobs, q, u)
    decreases jobs
  {
    var (w1, applied) := ApplyJob(reg, w, jobs[0]);
    if u in w1.Roster(q) {
      JobWellFormed(reg, w, jobs[0]);
      JobsRemove(reg, rules, w1, ok && applied, jobs[1..], q, u);
    } else {
      JobRemoves(reg, rules, w, jobs[0], q, u);
    }
  }

  lemma RunOnceRemoves(
      reg: Registry, rules: seq<Rule>, w: World, groups: seq<SourceGroup>, complete: bool, membershipsOnly: bool,
      q: Place, u: Id)
    requires ValidRegistry(reg) && InOrder(w)
    requires u in w.Roster(q) && u !in RunOnce(reg, rules, w, groups, complete, membershipsOnly).Roster(q)
    ensures RemovedInRun(reg, rules, w, groups, complete, membershipsOnly, q, u)
  {
    MigrateBindingsOnly(reg, rules, w, groups);
    var w1 := Migrated(reg, rules, w, groups);
    BindingsTallied(w, w1);
    var mappings := Listing(w1.books.memory.groups);
    JobsSound(reg, mappings, complete, membershipsOnly, groups, rules);
    PlanFromRules(reg, mappings, complete, membershipsOnly, groups, rules);
    assert Reconcile(reg, w1, groups, rules, complete, membershipsOnly).applied;
    JobsRemove(reg, rules, Call(w1), true, JobsOf(reg, rules, w1, groups, complete, membershipsOnly), q, u);
  }

  lemma TurnRemoves(reg: Registry, rules: seq<Rule>, w: World, t: Turn, q: Place, u: Id)
    requires ValidRegistry(reg) && InOrder(w)
    requires u in w.Roster(q) && u !in Take(reg, rules, w, t).Roster(q)
    ensures RemovedInTurn(reg, rules, w, t, q, u)
  {
    match t
    case Full(groups) => RunOnceRemoves(reg, rules, w, groups, true, false, q, u);
    case Targeted(group, membershipsOnly) => RunOnceRemoves(reg, rules, w, [group], false, membershipsOnly, q, u);
    case Reload(_) => assert false;
  }

  lemma NextTurn(reg: Registry, rules: seq<Rule>, w: World, turns: seq<Turn>, n: nat)
    requires ValidRegistry(reg) && BooksWellFormed(w) && n < |turns|
    ensures RunAll(reg, rules, w, turns[..n + 1]) == Take(reg, rules, RunAll(reg, rules, w, turns[..n]), turns[n])
  {
    assert turns[..n + 1][..n] == turns[..n] && turns[..n + 1][n] == turns[n];
  }

  /**
   Over any turns with any faults: a member there at the start and gone at the end
   was removed by the pass of some job of some turn, through the whole gate.
  */
  lemma GoneThroughTurns(reg: Registry, rules: seq<Rule>, w: World, turns: seq<Turn>, q: Place, u: Id)
    requires ValidRegistry(reg) && BooksWellFormed(w)
    requires w.books.memory.absences == w.books.disk.absences == w.books.settled.absences == map[]
    requires u in w.Roster(q) && u !in RunAll(reg, rules, w, turns).Roster(q)
    ensures exists n ::
      0 <= n < |turns| && RemovedInTurn(reg, rules, RunAll(reg, rules, w, turns[..n]), turns[n], q, u)
  {
    assert Tallied(w);
    assert turns[..|turns|] == turns;
    GoneBefore(reg, rules, w, turns, |turns|, q, u);
  }

  lemma {:induction false} GoneBefore(
      reg: Registry, rules: seq<Rule>, w: World, turns: seq<Turn>, end: nat, q: Place, u: Id)
    requires ValidRegistry(reg) && InOrder(w) && end <= |turns|
    requires u in w.Roster(q) && u !in RunAll(reg, rules, w, turns[..end]).Roster(q)
    ensures exists n ::
      0 <= n < end && RemovedInTurn(reg, rules, RunAll(reg, rules, w, turns[..n]), turns[n], q, u)
    decreases end
  {
    var last := end - 1;
    NextTurn(reg, rules, w, turns, last);
    var before := RunAll(reg, rules, w, turns[..last]);
    if u in before.Roster(q) {
      TurnRemoves(reg, rules, before, turns[last], q, u);
    } else {
      GoneBefore(reg, rules, w, turns, last, q, u);
    }
  }

  // ----- managed-only turns -----

  lemma BindingsUnclaimed(w: World, w1: World, g: Place, start: Watch)
    requires BindingsOnly(w, w1) && Unclaimed(w, g, start)
    ensures Unclaimed(w1, g, start)
  {
  }

  lemma {:induction false} JobsUnclaimed(
      reg: Registry, rules: seq<Rule>, w: World, ok: bool, jobs: seq<Job>, g: Place, start: Watch)
    requires (forall job <- jobs :: SoundJob(reg, job)) && FromRules(rules, jobs) && forall rule <- rules ::
      rule.prune == "managed-only"
    requires BooksWellFormed(w) && Unclaimed(w, g, start)
    ensures Unclaimed(ApplyAll(reg, w, ok, jobs).0, g, start)
    decreases jobs
  {
    if jobs != [] {
      assert jobs[0] in jobs && forall job <- jobs[1..] :: job in jobs;
      var (w1, applied) := ApplyJob(reg, w, jobs[0]);
      JobUnclaimed(reg, rules, w, jobs[0], g, start);
      JobWellFormed(reg, w, jobs[0]);
      JobsUnclaimed(reg, rules, w1, ok && applied, jobs[1..], g, start);
    }
  }

  lemma JobUnclaimed(reg: Registry, rules: seq<Rule>, w: World, job: Job, g: Place, start: Watch)
    requires SoundJob(reg, job) && HasRule(rules, job) && forall rule <- rules :: rule.prune == "managed-only"
    requires BooksWellFormed(w) && Unclaimed(w, g, start)
    ensures Unclaimed(ApplyJob(reg, w, job).0, g, start)
  {
    if job.GroupJob? {
      var c := reg.backends[job.provider].c;
      var rule :| rule in rules && FromRule(rule, job);
      assert job.req.prune == "managed-only";
      var a := Synchronize(c, job.req);
      ActUnclaimed(w, a, g, start);
      ActWellFormed(w, a);
      var out := SyncGroup(c, job.req, w);
      if job.tombstone.Some? && out.error.None? && out.r.converged {
        RetireBindingsOnly(reg.fault, out.w, job.tombstone.value);
        BindingsUnclaimed(out.w, Retire(reg.fault, out.w, job.tombstone.value).0, g, start);
      }
    }
  }

  lemma RunOnceUnclaimed(
      reg: Registry, rules: seq<Rule>, w: World, groups: seq<SourceGroup>, complete: bool, membershipsOnly: bool,
      g: Place, start: Watch)
    requires ValidRegistry(reg) && forall rule <- rules :: rule.prune == "managed-only"
    requires BooksWellFormed(w) && Unclaimed(w, g, start)
    ensures Unclaimed(RunOnce(reg, rules, w, groups, complete, membershipsOnly), g, start)
  {
    var d := Migration.Migrate(reg.fault, w.books, w.tick, groups, rules);
    var w1 := w.(books := d.books, tick := d.tick);
    MigrateBindingsOnly(reg, rules, w, groups);
    BindingsUnclaimed(w, w1, g, start);
    if d.ok {
      var mappings := Listing(w1.books.memory.groups);
      var plan := MakePlan(reg, mappings, complete, membershipsOnly, groups, rules);
      JobsSound(reg, mappings, complete, membershipsOnly, groups, rules);
      PlanFromRules(reg, mappings, complete, membershipsOnly, groups, rules);
      assert Unclaimed(Call(w1), g, start);
      JobsUnclaimed(reg, rules, Call(w1), true, plan.jobs, g, start);
    }
  }

  /**
   Over any turns under managed-only rules, with any faults, every membership that
   was there before a ledger knew the group is there, level and role unchanged.
  */
  lemma {:induction false} ManagedOnlyTurns(reg: Registry, rules: seq<Rule>, w: World, turns: seq<Turn>, g: Place)
    requires ValidRegistry(reg) && forall rule <- rules :: rule.prune == "managed-only"
    requires BooksWellFormed(w)
    requires forall u :: Key(g, u) !in w.books.memory.records + w.books.disk.records + w.books.settled.records
    ensures Unclaimed(RunAll(reg, rules, w, turns), g, Watched(w, g))
    decreases |turns|
  {
    if turns != [] {
      var init, last := turns[..|turns| - 1], turns[|turns| - 1];
      var before := RunAll(reg, rules, w, init);
      ManagedOnlyTurns(reg, rules, w, init, g);
      match last
      case Full(groups) => RunOnceUnclaimed(reg, rules, before, groups, true, false, g, Watched(w, g));
      case Targeted(group, membershipsOnly) =>
        RunOnceUnclaimed(reg, rules, before, [group], false, membershipsOnly, g, Watched(w, g));
      case Reload(_) =>
    }
  }
}

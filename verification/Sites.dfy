/**
 The jobs of one plan side by side: each has its own group and its own binding,
 so that a fault-free turn does for every job what its own pass would do alone.
*/
module Sites {
  import opened Wrappers
  import opened Ledger
  import opened Sync
  import opened SyncBinding
  import opened SyncTrace
  import opened SyncConvergence
  import opened Planner

  /** A job's request with the client, the target and the answers its pass meets. */
  datatype Site = Site(c: Client, req: Request, t: Target, self: Id, desired: set<Id>) {
    function Place(): Place {
      Sync.Place(c.owner, t.id)
    }

    function Key(): BindingKey {
      BindingKey(c.owner, req.rule, StateKey(req))
    }
  }

  /** The target exists, and a fault-free authoritative pass can work on it. */
  ghost predicate Primed(s: Site, w: World) {
    && s.c.Valid() && Finds(s.c, s.req, w, s.t, false) && Found(s.c, s.req, w) == Call(w)
    && Ready(s.c, s.req, s.t, false, w, s.self, s.desired)
  }

  /** The target already is as desired. */
  ghost predicate Rests(s: Site, w: World) {
    AtRest(s.c, s.req, s.Place(), s.self, s.desired, w)
  }

  lemma RestsOn(s: Site, w: World, w1: World)
    requires Rests(s, w) && w1.members == w.members
    ensures Rests(s, w1)
  {
    assert w1.Roster(s.Place()) == w.Roster(s.Place());
  }

  /** Members, absences and binding of a site are as they were. */
  ghost predicate Undisturbed(w: World, w1: World, p: Place, k: BindingKey) {
    && w1.Roster(p) == w.Roster(p)
    && (forall u: Id :: w1.books.memory.Observations(Key(p, u)) == w.books.memory.Observations(Key(p, u)))
    && (k in w1.books.memory.groups <==> k in w.books.memory.groups)
    && (k in w.books.memory.groups ==> w1.books.memory.groups[k] == w.books.memory.groups[k])
  }

  lemma UndisturbedChain(a: World, b: World, c: World, p: Place, k: BindingKey)
    requires Undisturbed(a, b, p, k) && Undisturbed(b, c, p, k)
    ensures Undisturbed(a, c, p, k)
  {
  }

  /** What a fault-free step keeps of the world as a whole. */
  ghost predicate Orderly(w: World, w1: World) {
    w1.groups == w.groups && BooksWellFormed(w1) && Counted(w1.books.memory)
  }

  lemma PrimedTransfers(s: Site, w: World, w1: World)
    requires Primed(s, w) && Orderly(w, w1) && Undisturbed(w, w1, s.Place(), s.Key())
    ensures Primed(s, w1)
  {
    EnsureGroupExact(s.c, w, s.req.targetPath, s.req.targetParent, s.req.createGroup);
    EnsuredAgain(s.c, s.req, w, s.t, w1);
  }

  lemma ProgressTransfers(s: Site, w: World, w1: World, v: World, v1: World)
    requires Progress(s.c, s.req, s.Place(), s.self, s.desired, w, w1) && Counted(v1.books.memory)
    requires Undisturbed(w, v, s.Place(), s.Key()) && Undisturbed(w1, v1, s.Place(), s.Key())
    ensures Progress(s.c, s.req, s.Place(), s.self, s.desired, v, v1)
  {
    var p := s.Place();
    assert forall u: Id :: Due(s.req, p, v.books.memory, u) <==> Due(s.req, p, w.books.memory, u);
    assert forall u: Id :: Due(s.req, p, v1.books.memory, u) <==> Due(s.req, p, w1.books.memory, u);
  }

  // ----- one pass among others -----

  /** The mapping that the pass of this site records. */
  ghost function Recorded(s: Site, w: World): GroupMapping
    requires Primed(s, w)
  {
    Bind(s.c, s.req, s.t, false, w.books.memory).mapping
  }

  lemma RecordedFor(s: Site, w: World)
    requires Primed(s, w)
    ensures Recorded(s, w).Key() == s.Key() && Recorded(s, w).targetGroupPath == s.t.path
    ensures Recorded(s, w).sourceGroupPath == s.req.group.path && Recorded(s, w).sourceNativeId == s.req.group.id
  {
    assert s.Key() in w.books.memory.groups ==> w.books.memory.groups[s.Key()].Key() == s.Key();
  }

  lemma ReadyCall(s: Site, w: World)
    ensures Ready(s.c, s.req, s.t, false, Call(w), s.self, s.desired) <==>
      Ready(s.c, s.req, s.t, false, w, s.self, s.desired)
  {
    assert Call(w).Roster(s.Place()) == w.Roster(s.Place());
  }

  /** The operation is one pass, and leaves the site ready for the next. */
  lemma SyncPass(s: Site, w: World)
    requires Primed(s, w)
    ensures SyncGroup(s.c, s.req, w) == Pass(s.c, s.req, s.t, false, Call(w))
    ensures Primed(s, SyncGroup(s.c, s.req, w).w)
  {
    ReadyCall(s, w);
    FreeRun(s.c, s.req, w, s.t, false, s.self, s.desired);
    ReadyCall(s, SyncGroup(s.c, s.req, w).w);
  }

  /** It records the site's binding and no other. */
  lemma SyncBooks(s: Site, w: World)
    requires Primed(s, w)
    ensures var out := SyncGroup(s.c, s.req, w);
      Orderly(w, out.w) && out.w.books.memory.groups == w.books.memory.groups[s.Key() := Recorded(s, w)]
  {
    SyncPass(s, w);
    ReadyCall(s, w);
    PassFree(s.c, s.req, s.t, false, Call(w), s.self, s.desired);
    PassSites(s.c, s.req, s.t, false, Call(w));
    PassGroups(s.c, s.req, s.t, false, Call(w));
    RecordedFor(s, w);
  }

  lemma SyncSite(s: Site, w: World)
    requires Primed(s, w)
    ensures var out := SyncGroup(s.c, s.req, w); var p := s.Place();
      && out.error.None?
      && Progress(s.c, s.req, p, s.self, s.desired, w, out.w)
      && (out.r.converged <==> AllDue(s.c, s.req, p, s.self, s.desired, w))
      && (Rests(s, w) ==> out.w.members == w.members)
  {
    SyncPass(s, w);
    ReadyCall(s, w);
    PassFree(s.c, s.req, s.t, false, Call(w), s.self, s.desired);
    CalledProgress(s, w, SyncGroup(s.c, s.req, w).w);
  }

  lemma CalledProgress(s: Site, w: World, w1: World)
    ensures var p := s.Place();
      && (Progress(s.c, s.req, p, s.self, s.desired, Call(w), w1) <==>
        Progress(s.c, s.req, p, s.self, s.desired, w, w1))
      && (AllDue(s.c, s.req, p, s.self, s.desired, Call(w)) <==> AllDue(s.c, s.req, p, s.self, s.desired, w))
      && (Rests(s, Call(w)) <==> Rests(s, w))
  {
    assert Call(w).Roster(s.Place()) == w.Roster(s.Place());
  }

  lemma SyncUndisturbed(s: Site, w: World, p: Place, k: BindingKey)
    requires Primed(s, w) && p != s.Place() && k != s.Key()
    ensures Undisturbed(w, SyncGroup(s.c, s.req, w).w, p, k)
  {
    SyncPass(s, w);
    SyncBooks(s, w);
    PassLocal(s.c, s.req, s.t, false, Call(w));
    assert forall u: Id :: !At(s.Place(), Key(p, u));
  }

  // ----- one job among others -----

  /** The site is the one this job works on. */
  ghost predicate Serves(reg: Registry, job: Job, s: Site) {
    && job.GroupJob? && SoundJob(reg, job)
    && s.c == reg.backends[job.provider].c && s.req == job.req
    && (job.tombstone.Some? ==> job.tombstone.value == s.Key())
  }

  ghost predicate Quiet(fault: nat -> Fault) {
    forall t: nat :: fault(t) == Smooth
  }

  /** Everything that a plan's job does in a fault-free turn, seen at its own site. */
  ghost predicate Stepped(job: Job, s: Site, w: World, w1: World)
    requires Primed(s, w)
  {
    var p := s.Place();
    && Progress(s.c, s.req, p, s.self, s.desired, w, w1)
    && (Rests(s, w) ==> w1.Roster(p) == w.Roster(p))
    && if job.GroupJob? && job.tombstone.Some?
      && AllDue(s.c, s.req, p, s.self, s.desired, w) then s.Key() !in w1.books.memory.groups
       else s.Key() in w1.books.memory.groups && w1.books.memory.groups[s.Key()] == Recorded(s, w) && Primed(s, w1)
  }

  lemma RetireSite(reg: Registry, w: World, k: BindingKey)
    requires Quiet(reg.fault) && BooksWellFormed(w) && Counted(w.books.memory)
    ensures var (w1, ok) := Retire(reg.fault, w, k);
      && ok && Orderly(w, w1) && w1.members == w.members
      && w1.books.memory == w.books.memory.(groups := w.books.memory.groups - {k})
  {
    assert reg.fault(w.tick) == Smooth;
    assert k !in w.books.memory.groups ==> w.books.memory.groups - {k} == w.books.memory.groups;
  }

  lemma JobSite(reg: Registry, w: World, job: Job, s: Site)
    requires Serves(reg, job, s) && Primed(s, w) && Quiet(reg.fault)
    ensures var (w1, ok) := ApplyJob(reg, w, job);
      && ok && Orderly(w, w1) && Stepped(job, s, w, w1)
      && (Rests(s, w) ==> w1.members == w.members)
  {
    var out := SyncGroup(s.c, s.req, w);
    SyncSite(s, w);
    SyncPass(s, w);
    SyncBooks(s, w);
    if job.tombstone.Some? && out.r.converged {
      RetireSite(reg, out.w, job.tombstone.value);
      RetiredProgress(s, w, out.w, Retire(reg.fault, out.w, job.tombstone.value).0);
    }
  }

  /** Giving up the binding changes neither members nor absences. */
  lemma RetiredProgress(s: Site, w: World, w1: World, w2: World)
    requires Progress(s.c, s.req, s.Place(), s.self, s.desired, w, w1)
    requires w2.members == w1.members && w2.books.memory.absences == w1.books.memory.absences
    ensures Progress(s.c, s.req, s.Place(), s.self, s.desired, w, w2)
  {
    var p := s.Place();
    assert w2.Roster(p) == w1.Roster(p);
    assert forall u: Id :: Due(s.req, p, w2.books.memory, u) <==> Due(s.req, p, w1.books.memory, u);
  }

  lemma JobUndisturbed(reg: Registry, w: World, job: Job, s: Site, p: Place, k: BindingKey)
    requires Serves(reg, job, s) && Primed(s, w) && Quiet(reg.fault) && p != s.Place() && k != s.Key()
    ensures Undisturbed(w, ApplyJob(reg, w, job).0, p, k)
  {
    SyncSite(s, w);
    SyncBooks(s, w);
    SyncUndisturbed(s, w, p, k);
    var out := SyncGroup(s.c, s.req, w);
    if job.tombstone.Some? && out.r.converged {
      RetireSite(reg, out.w, job.tombstone.value);
      assert Retire(reg.fault, out.w, job.tombstone.value).0.Roster(p) == out.w.Roster(p);
    }
  }

  // ----- all jobs of a turn -----

  /** Each group job has its site, ready for work, and no two share a group or a binding. */
  ghost predicate AllPrimed(reg: Registry, site: Job -> Site, jobs: seq<Job>, w: World) {
    && (forall job <- jobs :: job.GroupJob? ==> Serves(reg, job, site(job)) && Primed(site(job), w))
    && (forall i, j :: 0 <= i < j < |jobs| && jobs[i].GroupJob? && jobs[j].GroupJob? ==>
      Apart(site(jobs[i]), site(jobs[j])))
  }

  predicate Apart(a: Site, b: Site) {
    a.Place() != b.Place() && a.Key() != b.Key()
  }

  ghost predicate AllStepped(site: Job -> Site, jobs: seq<Job>, w: World, w1: World) {
    forall job <- jobs :: job.GroupJob? ==> Primed(site(job), w) && Stepped(job, site(job), w, w1)
  }

  ghost predicate AllAtRest(site: Job -> Site, jobs: seq<Job>, w: World) {
    forall job <- jobs :: job.GroupJob? ==> Rests(site(job), w)
  }

  /** None of these jobs works here. */
  ghost predicate Elsewhere(site: Job -> Site, jobs: seq<Job>, p: Place, k: BindingKey) {
    forall job <- jobs :: job.GroupJob? ==> site(job).Place() != p && site(job).Key() != k
  }

  lemma RestPrimed(reg: Registry, site: Job -> Site, jobs: seq<Job>, w: World)
    requires jobs != [] && AllPrimed(reg, site, jobs, w) && Quiet(reg.fault)
    requires BooksWellFormed(w) && Counted(w.books.memory)
    requires jobs[0].AccessJob? ==> SoundJob(reg, jobs[0])
    ensures var w1 := ApplyJob(reg, w, jobs[0]).0; Orderly(w, w1) && AllPrimed(reg, site, jobs[1..], w1)
  {
    var w1 := ApplyJob(reg, w, jobs[0]).0;
    if jobs[0].GroupJob? {
      JobSite(reg, w, jobs[0], site(jobs[0]));
    }
    forall i | 1 <= i < |jobs| && jobs[i].GroupJob?
      ensures Serves(reg, jobs[i], site(jobs[i])) && Primed(site(jobs[i]), w1)
    {
      var s := site(jobs[i]);
      assert jobs[i] in jobs;
      if jobs[0].GroupJob? {
        assert Apart(site(jobs[0]), s);
        JobUndisturbed(reg, w, jobs[0], site(jobs[0]), s.Place(), s.Key());
      }
      PrimedTransfers(s, w, w1);
    }
  }

  lemma {:induction false} JobsElsewhere(
      reg: Registry, site: Job -> Site, w: World, ok: bool, jobs: seq<Job>, p: Place, k: BindingKey)
    requires (forall job <- jobs :: SoundJob(reg, job)) && AllPrimed(reg, site, jobs, w) && Quiet(reg.fault)
    requires BooksWellFormed(w) && Counted(w.books.memory) && Elsewhere(site, jobs, p, k)
    ensures Undisturbed(w, ApplyAll(reg, w, ok, jobs).0, p, k)
    decreases jobs
  {
    if jobs != [] {
      var (w1, applied) := ApplyJob(reg, w, jobs[0]);
      RestPrimed(reg, site, jobs, w);
      assert forall job <- jobs[1..] :: job in jobs;
      JobsElsewhere(reg, site, w1, ok && applied, jobs[1..], p, k);
      assert Undisturbed(w, w1, p, k) by {
        if jobs[0].GroupJob? {
          JobUndisturbed(reg, w, jobs[0], site(jobs[0]), p, k);
        }
      }
    }
  }

  /** What comes after the job's own pass does not disturb its site. */
  lemma SteppedBefore(job: Job, s: Site, w: World, w1: World, w2: World)
    requires Primed(s, w) && Stepped(job, s, w, w1) && Orderly(w1, w2) && Undisturbed(w1, w2, s.Place(), s.Key())
    ensures Stepped(job, s, w, w2)
  {
    ProgressTransfers(s, w, w1, w, w2);
    if Primed(s, w1) {
      PrimedTransfers(s, w1, w2);
    }
  }

  /** Nor does what comes before it. */
  lemma SteppedAfter(job: Job, s: Site, w: World, w1: World, w2: World)
    requires Primed(s, w) && Primed(s, w1) && Stepped(job, s, w1, w2) && Undisturbed(w, w1, s.Place(), s.Key())
    ensures Stepped(job, s, w, w2)
  {
    var p := s.Place();
    SameRecorded(s, w, w1);
    assert Undisturbed(w1, w, p, s.Key());
    assert Undisturbed(w2, w2, p, s.Key());
    ProgressTransfers(s, w1, w2, w, w2);
    assert forall u: Id :: Due(s.req, p, w1.books.memory, u) <==> Due(s.req, p, w.books.memory, u);
  }

  lemma SameRecorded(s: Site, w: World, w1: World)
    requires Primed(s, w) && Primed(s, w1) && Undisturbed(w, w1, s.Place(), s.Key())
    ensures Recorded(s, w1) == Recorded(s, w)
  {
  }

  /** A fault-free turn does for each job what its own pass would do alone. */
  lemma {:induction false} JobsStepped(reg: Registry, site: Job -> Site, w: World, ok: bool, jobs: seq<Job>)
    requires (forall job <- jobs :: SoundJob(reg, job)) && AllPrimed(reg, site, jobs, w)
    requires Quiet(reg.fault) && forall t: nat :: reg.access(t)
    requires BooksWellFormed(w) && Counted(w.books.memory)
    ensures var (w1, applied) := ApplyAll(reg, w, ok, jobs);
      && applied == ok && Orderly(w, w1)
      && AllStepped(site, jobs, w, w1)
      && (AllAtRest(site, jobs, w) ==> w1.members == w.members)
    decreases jobs
  {
    if jobs != [] {
      var (w1, applied) := ApplyJob(reg, w, jobs[0]);
      RestPrimed(reg, site, jobs, w);
      assert forall job <- jobs[1..] :: job in jobs;
      JobsStepped(reg, site, w1, ok && applied, jobs[1..]);
      var w2 := ApplyAll(reg, w1, ok && applied, jobs[1..]).0;
      if jobs[0].GroupJob? {
        FirstStepped(reg, site, w, ok && applied, jobs);
      }
      forall job | job in jobs[1..] && job.GroupJob?
        ensures Primed(site(job), w) && Stepped(job, site(job), w, w2)
      {
        LaterStepped(reg, site, w, jobs, job, w2);
      }
      assert forall job <- jobs :: job == jobs[0] || job in jobs[1..];
      if AllAtRest(site, jobs, w) {
        RestAtRest(reg, site, w, jobs);
      }
    }
  }

  lemma FirstStepped(reg: Registry, site: Job -> Site, w: World, ok: bool, jobs: seq<Job>)
    requires jobs != [] && jobs[0].GroupJob? && (forall job <- jobs :: SoundJob(reg, job))
      && AllPrimed(reg, site, jobs, w)
    requires Quiet(reg.fault) && BooksWellFormed(w) && Counted(w.books.memory)
    requires var w1 := ApplyJob(reg, w, jobs[0]).0; Orderly(w1, ApplyAll(reg, w1, ok, jobs[1..]).0)
    ensures Primed(site(jobs[0]), w)
    ensures Stepped(jobs[0], site(jobs[0]), w, ApplyAll(reg, ApplyJob(reg, w, jobs[0]).0, ok, jobs[1..]).0)
    ensures ApplyJob(reg, w, jobs[0]).1
  {
    var s := site(jobs[0]);
    var w1 := ApplyJob(reg, w, jobs[0]).0;
    JobSite(reg, w, jobs[0], s);
    RestPrimed(reg, site, jobs, w);
    RestElsewhere(reg, site, jobs, w);
    assert forall job <- jobs[1..] :: job in jobs;
    JobsElsewhere(reg, site, w1, ok, jobs[1..], s.Place(), s.Key());
    SteppedBefore(jobs[0], s, w, w1, ApplyAll(reg, w1, ok, jobs[1..]).0);
  }

  lemma RestElsewhere(reg: Registry, site: Job -> Site, jobs: seq<Job>, w: World)
    requires jobs != [] && jobs[0].GroupJob? && AllPrimed(reg, site, jobs, w)
    ensures Elsewhere(site, jobs[1..], site(jobs[0]).Place(), site(jobs[0]).Key())
  {
    forall job | job in jobs[1..] && job.GroupJob?
      ensures site(job).Place() != site(jobs[0]).Place() && site(job).Key() != site(jobs[0]).Key()
    {
      var i :| 0 <= i < |jobs[1..]| && jobs[1..][i] == job;
      assert jobs[i + 1] == job && Apart(site(jobs[0]), site(jobs[i + 1]));
    }
  }

  lemma LaterStepped(reg: Registry, site: Job -> Site, w: World, jobs: seq<Job>, job: Job, w2: World)
    requires jobs != [] && job in jobs[1..] && job.GroupJob? && AllPrimed(reg, site, jobs, w) && SoundJob(reg, jobs[0])
    requires Quiet(reg.fault) && BooksWellFormed(w) && Counted(w.books.memory)
    requires Primed(site(job), ApplyJob(reg, w, jobs[0]).0) && Stepped(job, site(job), ApplyJob(reg, w, jobs[0]).0, w2)
    ensures Primed(site(job), w) && Stepped(job, site(job), w, w2)
  {
    var i :| 0 <= i < |jobs[1..]| && jobs[1..][i] == job;
    assert jobs[i + 1] == job;
    var s, w1 := site(job), ApplyJob(reg, w, jobs[0]).0;
    assert Undisturbed(w, w1, s.Place(), s.Key()) by {
      if jobs[0].GroupJob? {
        assert Apart(site(jobs[0]), s);
        JobUndisturbed(reg, w, jobs[0], site(jobs[0]), s.Place(), s.Key());
      }
    }
    SteppedAfter(job, s, w, w1, w2);
  }

  lemma RestAtRest(reg: Registry, site: Job -> Site, w: World, jobs: seq<Job>)
    requires jobs != [] && AllPrimed(reg, site, jobs, w) && SoundJob(reg, jobs[0]) && Quiet(reg.fault)
    requires AllAtRest(site, jobs, w)
    ensures var w1 := ApplyJob(reg, w, jobs[0]).0; w1.members == w.members && AllAtRest(site, jobs[1..], w1)
  {
    if jobs[0].GroupJob? {
      JobSite(reg, w, jobs[0], site(jobs[0]));
    }
    var w1 := ApplyJob(reg, w, jobs[0]).0;
    forall job | job in jobs[1..] && job.GroupJob?
      ensures Rests(site(job), w1)
    {
      assert job in jobs && Rests(site(job), w);
      RestsOn(site(job), w, w1);
    }
  }

  /** Bindings that belong to none of the jobs are as they were. */
  ghost predicate OtherKeys(site: Job -> Site, jobs: seq<Job>, before: Bindings, after: Bindings) {
    forall k :: (forall job <- jobs :: job.GroupJob? ==> site(job).Key() != k) ==>
      (k in after <==> k in before) && (k in before ==> after[k] == before[k])
  }

  lemma {:induction false} JobsOtherKeys(reg: Registry, site: Job -> Site, w: World, ok: bool, jobs: seq<Job>)
    requires (forall job <- jobs :: SoundJob(reg, job)) && AllPrimed(reg, site, jobs, w) && Quiet(reg.fault)
    requires BooksWellFormed(w) && Counted(w.books.memory)
    ensures OtherKeys(site, jobs, w.books.memory.groups, ApplyAll(reg, w, ok, jobs).0.books.memory.groups)
    decreases jobs
  {
    if jobs != [] {
      var (w1, applied) := ApplyJob(reg, w, jobs[0]);
      RestPrimed(reg, site, jobs, w);
      assert forall job <- jobs[1..] :: job in jobs;
      JobsOtherKeys(reg, site, w1, ok && applied, jobs[1..]);
      if jobs[0].GroupJob? {
        JobOtherKeys(reg, w, jobs[0], site(jobs[0]));
      }
    }
  }

  lemma JobOtherKeys(reg: Registry, w: World, job: Job, s: Site)
    requires Serves(reg, job, s) && Primed(s, w) && Quiet(reg.fault)
    ensures var before, after := w.books.memory.groups, ApplyJob(reg, w, job).0.books.memory.groups;
      forall k :: k != s.Key() ==> (k in after <==> k in before) && (k in before ==> after[k] == before[k])
  {
    SyncSite(s, w);
    SyncBooks(s, w);
    var out := SyncGroup(s.c, s.req, w);
    if job.tombstone.Some? && out.r.converged {
      RetireSite(reg, out.w, job.tombstone.value);
    }
  }
}

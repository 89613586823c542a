/**
 A small world in which the convergence of two turns can be followed: a mapping
 whose source is gone, with one member left in its group.
*/
module TurnExample {
  import opened Wrappers
  import opened Ledger
  import opened Sizes
  import opened Text
  import opened Paths
  import opened Sync
  import opened SyncBinding
  import opened SyncConvergence
  import opened Planner
  import opened PlanRuns
  import opened Sites
  import opened TurnConvergence
  import Migration
  import Store
  import Retirement

  const RULE :=
    Rule("r", "/", None, "gl", "", false, true, "developer", "authoritative", [], 1, ["oidc"], false, None)
  const MAPPING := GroupMapping("gl@new", "r", "source", "source", "/p", "1", "p", true)
  const LEDGER := Ledger({Membership("gl@new", "1", "ann")}, map[MAPPING.Key() := MAPPING], map[])

  ghost function Start(): World {
    World(map[Address("gl@new", "p") := "1"], map[Place("gl@new", "1") := map["ann" := Member(30, false, "ann")]],
          Books(LEDGER, LEDGER, LEDGER, 0), 0, [])
  }

  /** Every group job works on the one group there is. */
  ghost function SiteOf(job: Job): Site {
    var req := if job.GroupJob? then job.req else TombstoneRequest(RULE, MAPPING);
    Site(Retirement.MovedClient(), req, Target("1", "p"), "self", {})
  }

  lemma StartConfigured()
    ensures Configured(Retirement.MovedRegistry(), [RULE], [])
    ensures Tidy(Retirement.MovedRegistry(), [RULE], LEDGER.groups)
    ensures OwnIds(Start()) && BooksWellFormed(Start()) && Counted(LEDGER)
    ensures SoundJob(Retirement.MovedRegistry(), TombstoneJob(RULE, MAPPING))
  {
    assert Retirement.MovedClient().Valid();
    assert "gl@new"[..3] == "gl@";
    assert TrimSlashes("p") == "p";
  }

  lemma StartPlanned()
    ensures KeysAgree(LEDGER.groups) && Listing(LEDGER.groups) == [MAPPING]
    ensures PlanFor(Retirement.MovedRegistry(), [RULE], [], LEDGER.groups)
      == Plan([TombstoneJob(RULE, MAPPING)], {Claim("gl", "p")}, {}, [])
  {
    StartConfigured();
    OneListed(LEDGER.groups, MAPPING);
    assert MAPPING.provider[..3] == "gl@";
    Retirement.LonelyPlan(Retirement.MovedRegistry(), RULE, MAPPING);
  }

  lemma OneListed(groups: Bindings, m: GroupMapping)
    requires groups == map[m.Key() := m]
    ensures KeysAgree(groups) && Listing(groups) == [m]
  {
    assert groups[m.Key()] == m && groups.Values == {m};
    Store.ListingUnique(Listing(groups), [m], groups.Values, Store.MappingIds);
  }

  lemma NobodyWanted(c: Client, req: Request)
    requires req.group.members == []
    ensures ResolvesTo(c, req, {})
  {
    forall t: nat
      ensures ResolvedAt(c, req, t) == Resolution(t, map[], 0, None)
    {
    }
  }

  lemma StartReady()
    ensures var s := SiteOf(TombstoneJob(RULE, MAPPING)); Ready(s.c, s.req, s.t, false, Start(), s.self, s.desired)
  {
    var s, w := SiteOf(TombstoneJob(RULE, MAPPING)), Start();
    StartConfigured();
    NobodyWanted(s.c, s.req);
    SubsetSize(Candidates(s.c, s.req, s.self, s.desired, w.Roster(s.Place())), {"ann"});
    assert Bind(s.c, s.req, s.t, false, LEDGER).Bound?;
  }

  lemma StartPrimed()
    ensures Primed(SiteOf(TombstoneJob(RULE, MAPPING)), Start())
  {
    var s, w := SiteOf(TombstoneJob(RULE, MAPPING)), Start();
    StartReady();
    assert TrimSlashes("") == "" && TrimSlashes("p") == "p";
    assert EnsureGroup(s.c, w, "p", "", false) == Ensured(Call(w), Some(s.t), false, None);
  }

  /** Everything that convergence asks for is met here. */
  lemma ExamplePlanned()
    ensures var reg, w := Retirement.MovedRegistry(), Start();
      && Planned(reg, [RULE], [], SiteOf, w, [TombstoneJob(RULE, MAPPING)], RULE)
      && Migration.Migrated(w.books.memory.groups, [], [RULE])
  {
    StartConfigured();
    StartPlanned();
    StartPrimed();
  }

  /** So the last member goes, and so does the mapping. */
  lemma ExampleConverges()
    ensures var reg, rules := Retirement.MovedRegistry(), [RULE];
      && ValidRegistry(reg) && BooksWellFormed(Start()) && BooksWellFormed(Take(reg, rules, Start(), Full([])))
      && var w2 := Take(reg, rules, Take(reg, rules, Start(), Full([])), Full([]));
         w2.Roster(Place("gl@new", "1")) == map[] && MAPPING.Key() !in w2.books.memory.groups
  {
    var reg, w, job := Retirement.MovedRegistry(), Start(), TombstoneJob(RULE, MAPPING);
    StartConfigured();
    ExamplePlanned();
    TwoTurnsConverge(reg, [RULE], [], SiteOf, w, [job], RULE);
    NobodyExempt();
  }

  lemma NobodyExempt()
    ensures var s, w := SiteOf(TombstoneJob(RULE, MAPPING)), Start();
      forall roster :: Exact(s.c, s.req, s.self, s.desired, w.Roster(s.Place()), roster) ==> roster == map[]
  {
    var s, w := SiteOf(TombstoneJob(RULE, MAPPING)), Start();
    assert !Exempt(s.c, s.req, "self", "ann", Member(30, false, "ann"));
    forall roster | Exact(s.c, s.req, s.self, s.desired, w.Roster(s.Place()), roster)
      ensures roster == map[]
    {
      assert roster.Keys == {};
    }
  }
}

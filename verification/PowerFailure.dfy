/**
 The one way a binding changes its target, as a run of the controller: two saves
 that stopped after the rename, a restart, and a power failure.
*/
module PowerFailure {
  import opened Wrappers
  import opened Ledger
  import opened Text
  import opened Paths
  import opened Sync
  import opened Planner
  import opened PlanRuns
  import Collisions
  import Retirement
  import Store
  import Migration

  const RULE := Collisions.RENAMED_RULE

  /** The source group under a name of one letter, and the mapping that is recorded for it then. */
  function Named(c: char): SourceGroup {
    SourceGroup("1", [c], ['/', c], [])
  }

  function Recorded(c: char, id: Id): GroupMapping {
    GroupMapping("gl@x", "r", "1", "1", ['/', c], id, "p/" + [c], false)
  }

  function JobFor(c: char): Job {
    GroupJob("gl", LiveRequest(RULE, "1", Named(c), "p/" + [c]), None)
  }

  /** The first save stops once the directory is synced, the second before that. */
  function Stops(t: nat): Fault {
    if t == 2 then After(2) else if t == 5 then After(0) else Smooth
  }

  function Ascii(c: char): char {
    if 'A' <= c <= 'Z' then 'a' + (c - 'A') else c
  }

  ghost function Gl(): Client {
    Client("gl", "gl@x", "", s => s, (a, b) => a == b, (t, f, v) => [], t => "self", t => "9", t => map[],
           (t, s) => Retirement.AnyOrder(s), (t, s) => Retirement.AnyOrder(s), Stops)
  }

  ghost function Reg(): Registry {
    Registry(map["gl" := GitLabBackend(Gl())], Ascii, (t, n) => true, t => true, Stops)
  }

  ghost function Start(): World {
    var groups := map[Address("gl@x", "p/a") := "11", Address("gl@x", "p/b") := "12"];
    World(groups, map[], Books(EMPTY, EMPTY, EMPTY, 0), 0, [])
  }

  lemma Setting()
    ensures Followed(Reg(), [RULE], RULE) && Owner(Reg(), RULE) == "gl@x" && Sound("gl@x", RULE, Start().books)
  {
    assert Gl().Valid();
    assert "gl@x"[..3] == "gl@";
  }

  lemma NothingListed(groups: Bindings)
    requires groups == map[]
    ensures KeysAgree(groups) && Listing(groups) == []
  {
    Store.HeadListed(Listing(groups), groups.Values);
  }

  lemma PlannedOne(reg: Registry, c: char)
    requires IsLowering(reg.lower) && "gl" in reg.backends && reg.backends["gl"].GitLabBackend? && 'a' <= c <= 'z'
    ensures PlanLive(reg, [], true, false, NO_PLAN, Named(c), RULE)
      == Plan([JobFor(c)], {Claim("gl", "p/" + [c])}, {("r", "1")}, [])
  {
    Collisions.OneLetter(reg.lower, c);
    assert AimAll(RULE, "1", true, Aim("p/" + [c], []), []) == Aim("p/" + [c], []);
  }

  lemma PlanOfOne(reg: Registry, c: char)
    requires IsLowering(reg.lower) && "gl" in reg.backends && reg.backends["gl"].GitLabBackend? && 'a' <= c <= 'z'
    ensures MakePlan(reg, [], true, false, [Named(c)], [RULE])
      == Plan([JobFor(c)], {Claim("gl", "p/" + [c])}, {("r", "1")}, [])
  {
    PlannedOne(reg, c);
    var pl := PlanLive(reg, [], true, false, NO_PLAN, Named(c), RULE);
    assert [RULE][1..] == [] && PlanRules(reg, [], true, false, pl, Named(c), []) == pl;
    assert [Named(c)][1..] == [] && PlanGroups(reg, [], true, false, pl, [], [RULE]) == pl;
    assert BuryAll(reg, pl, [], [RULE]) == pl;
  }

  /** The pass finds its target, and the save of its binding stops after the rename. */
  lemma StoppedSync(w: World, c: char, id: Id)
    requires 'a' <= c <= 'z' && w.books.memory == EMPTY && Stops(w.tick) == Smooth && Stops(w.tick + 1).After?
    requires Address("gl@x", "p/" + [c]) in w.groups && w.groups[Address("gl@x", "p/" + [c])] == id
    requires Gl().Valid()
    ensures var out := SyncGroup(Gl(), LiveRequest(RULE, "1", Named(c), "p/" + [c]), w);
      && out.error.Some?
      && out.w == w.(tick := w.tick + 2, books := Save(w.books, Put(EMPTY, Recorded(c, id)), Stops(w.tick + 1)))
  {
    var req := LiveRequest(RULE, "1", Named(c), "p/" + [c]);
    assert TrimSlashes("p") == "p";
    TrimFixed("p/" + [c], {SLASH});
    assert ("p/" + [c])[..2] == "p/";
    assert EnsureGroup(Gl(), w, req.targetPath, req.targetParent, false)
      == Ensured(Call(w), Some(Target(id, "p/" + [c])), false, None);
    assert Bind(Gl(), req, Target(id, "p/" + [c]), false, EMPTY) == Bound(Recorded(c, id));
  }

  lemma StoppedTurn(w: World, c: char, id: Id)
    requires 'a' <= c <= 'z' && w.books.memory == EMPTY && Stops(w.tick + 1) == Smooth && Stops(w.tick + 2).After?
    requires Address("gl@x", "p/" + [c]) in w.groups && w.groups[Address("gl@x", "p/" + [c])] == id
    requires ValidRegistry(Reg())
    ensures Take(Reg(), [RULE], w, Full([Named(c)]))
      == w.(tick := w.tick + 3, books := Save(w.books, Put(EMPTY, Recorded(c, id)), Stops(w.tick + 2)))
  {
    var reg, groups := Reg(), [Named(c)];
    NothingListed(w.books.memory.groups);
    assert [RULE][1..] == [];
    assert Migration.Migrate(reg.fault, w.books, w.tick, groups, [RULE]) == Migration.Desk(w.books, w.tick, true) by {
      var d := Migration.Desk(w.books, w.tick, true);
      assert Migration.MoveRules(reg.fault, d, [], groups, []) == d;
    }
    PlanOfOne(reg, c);
    var job := JobFor(c);
    assert reg.backends["gl"].c == Gl() && Gl().Valid();
    StoppedSync(Call(w), c, id);
    var out := ApplyJob(reg, Call(w), job);
    assert [job][1..] == [] && ApplyAll(reg, Call(w), true, [job]) == ApplyAll(reg, out.0, false, []) == (out.0, false);
  }

  const TURNS := [Full([Named('a')]), Full([Named('b')]), Reload(false), Reload(true)]

  /**
   Bound at its first name without being told so, renamed, bound again likewise:
   after the restart the source is bound to the second target, after the power
   failure to the first.
  */
  lemma PowerFailureRetargets()
    ensures Followed(Reg(), [RULE], RULE) && Sound(Owner(Reg(), RULE), RULE, Start().books) && GoodTurns(TURNS)
    ensures var history := History(Reg(), [RULE], RULE, Start(), TURNS); var k := Recorded('a', "11").Key();
      && history[3].memory == Put(EMPTY, Recorded('b', "12")) && history[4].memory == Put(EMPTY, Recorded('a', "11"))
      && Retargeted(history[3].memory.groups, history[4].memory.groups, k)
  {
    Setting();
    LastTurns();
    assert "p/a"[2] != "p/b"[2];
  }

  lemma LastTurns()
    requires Followed(Reg(), [RULE], RULE) && Sound(Owner(Reg(), RULE), RULE, Start().books) && GoodTurns(TURNS)
    ensures RunTurns(Reg(), [RULE], RULE, Start(), TURNS[..3]).books.memory == Put(EMPTY, Recorded('b', "12"))
    ensures RunTurns(Reg(), [RULE], RULE, Start(), TURNS[..4]).books.memory == Put(EMPTY, Recorded('a', "11"))
  {
    FirstTurns();
    Reloaded(2);
    Reloaded(3);
  }

  lemma Reloaded(n: nat)
    requires Followed(Reg(), [RULE], RULE) && Sound(Owner(Reg(), RULE), RULE, Start().books) && GoodTurns(TURNS)
    requires n < |TURNS| && TURNS[n].Reload?
    ensures RunTurns(Reg(), [RULE], RULE, Start(), TURNS[..n + 1]).books
      == Restarted(RunTurns(Reg(), [RULE], RULE, Start(), TURNS[..n]).books, TURNS[n].lost)
  {
    PrefixRuns(Reg(), [RULE], RULE, Start(), TURNS, n);
  }

  /** What the two full turns leave in the books. */
  lemma FirstTurns()
    requires Followed(Reg(), [RULE], RULE) && Sound(Owner(Reg(), RULE), RULE, Start().books) && GoodTurns(TURNS)
    ensures RunTurns(Reg(), [RULE], RULE, Start(), TURNS[..2]).books
      == Books(EMPTY, Put(EMPTY, Recorded('b', "12")), Put(EMPTY, Recorded('a', "11")), 1)
  {
    var reg, w := Reg(), Start();
    assert "p/" + ['a'] == "p/a" && "p/" + ['b'] == "p/b" && "p/a"[2] != "p/b"[2];
    var w1 := w.(tick := 3, books := Save(w.books, Put(EMPTY, Recorded('a', "11")), After(2)));
    StoppedTurn(w, 'a', "11");
    StoppedTurn(w1, 'b', "12");
    assert TURNS[..0] == [];
    PrefixRuns(reg, [RULE], RULE, w, TURNS, 0);
    PrefixRuns(reg, [RULE], RULE, w, TURNS, 1);
  }
}

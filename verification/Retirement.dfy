/**
 Giving up a mapping whose source is gone: when the tombstone's pass really
 cleaned the group the mapping names, and when it cleaned another one.
*/
module Retirement {
  import opened Wrappers
  import opened Ledger
  import opened Text
  import opened Paths
  import opened Sync
  import opened Planner
  import SyncBinding
  import SyncGate
  import SyncTrace

  /** The mapping's own group: the one its members were recorded for. */
  function OwnPlace(m: GroupMapping): Place {
    Place(m.provider, m.targetGroupId)
  }

  /** A pass never forgets a binding. */
  lemma SyncKeepsBindings(c: Client, req: Request, w: World, k: BindingKey)
    requires c.Valid() && w.books.memory.WellFormed() && k in w.books.memory.groups
    ensures k in SyncGroup(c, req, w).w.books.memory.groups
  {
    SyncBinding.EnsureGroupExact(c, w, req.targetPath, req.targetParent, req.createGroup);
    var e := EnsureGroup(c, w, req.targetPath, req.targetParent, req.createGroup);
    if e.error.None? && e.target.Some? {
      SyncBinding.PassGroups(c, req, e.target.value, e.created, e.w);
      SyncBinding.BindingKeeps(c, req, e.target.value, e.created, e.w.books.memory);
    }
  }

  /** The member list of a tombstone resolves to nobody. */
  lemma NobodyWanted(c: Client, req: Request, t: Target, created: bool, w: World)
    requires req.group.members == []
    ensures SyncGate.Wanted(c, req, t, created, w) == {}
  {
  }

  ghost predicate Retired(reg: Registry, w: World, rule: Rule, m: GroupMapping)
    requires SoundJob(reg, TombstoneJob(rule, m))
  {
    m.Key() !in ApplyJob(reg, w, TombstoneJob(rule, m)).0.books.memory.groups
  }

  /** The client of the tombstone's target name, and the group its pass works on. */
  ghost function ClientOf(reg: Registry, rule: Rule, m: GroupMapping): Client
    requires SoundJob(reg, TombstoneJob(rule, m))
  {
    reg.backends[rule.targetProvider].c
  }

  ghost function EnsuredFor(reg: Registry, w: World, rule: Rule, m: GroupMapping): Ensured
    requires SoundJob(reg, TombstoneJob(rule, m))
  {
    var req := TombstoneRequest(rule, m);
    EnsureGroup(ClientOf(reg, rule, m), w, req.targetPath, req.targetParent, req.createGroup)
  }

  /** Nobody at this place whom the tombstone's prune mode would still remove. */
  ghost predicate Clean(reg: Registry, w: World, rule: Rule, m: GroupMapping, p: Place, after: World)
    requires SoundJob(reg, TombstoneJob(rule, m))
  {
    var c := ClientOf(reg, rule, m);
    var e := EnsuredFor(reg, w, rule, m);
    e.target.Some? && SyncGate.NothingPrunable(c, TombstoneRequest(rule, m), p, {},
      SyncGate.Self(c, TombstoneRequest(rule, m), e.target.value, e.created, e.w), after)
  }

  /** A mapping is given up exactly when its pass converged and the deletion was saved. */
  lemma RetiredWhen(reg: Registry, w: World, rule: Rule, m: GroupMapping)
    requires SoundJob(reg, TombstoneJob(rule, m)) && w.books.memory.WellFormed() && m.Key() in w.books.memory.groups
    ensures var out := SyncGroup(ClientOf(reg, rule, m), TombstoneRequest(rule, m), w);
      Retired(reg, w, rule, m) <==> out.error.None? && out.r.converged && Acknowledged(reg.fault(out.w.tick))
  {
    SyncKeepsBindings(ClientOf(reg, rule, m), TombstoneRequest(rule, m), w, m.Key());
  }

  /** And then the group the pass worked on holds nobody prunable. */
  lemma RetiredIsClean(reg: Registry, w: World, rule: Rule, m: GroupMapping)
    requires SoundJob(reg, TombstoneJob(rule, m)) && w.books.memory.WellFormed() && m.Key() in w.books.memory.groups
    requires SyncGate.Tallied(w) && Retired(reg, w, rule, m)
    ensures var e := EnsuredFor(reg, w, rule, m);
      && e.error.None? && e.target.Some? && e.target.value.path == TrimSlashes(m.targetGroupPath)
      && Clean(reg, w, rule, m, Place(ClientOf(reg, rule, m).owner, e.target.value.id),
        ApplyJob(reg, w, TombstoneJob(rule, m)).0)
  {
    var c, req := ClientOf(reg, rule, m), TombstoneRequest(rule, m);
    RetiredWhen(reg, w, rule, m);
    SyncBinding.EnsureGroupExact(c, w, req.targetPath, req.targetParent, req.createGroup);
    var e := EnsuredFor(reg, w, rule, m);
    assert SyncGate.Tallied(e.w);
    SyncGate.ConvergedPassIsClean(c, req, e.target.value, e.created, e.w);
    NobodyWanted(c, req, e.target.value, e.created, e.w);
  }

  /**
   If the mapping was recorded under the provider's present ownership key, the
   group that was cleaned is the very group the mapping names.
  */
  lemma RetirementIsSafe(reg: Registry, w: World, rule: Rule, m: GroupMapping)
    requires SoundJob(reg, TombstoneJob(rule, m)) && m.rule == rule.name && m.sourceGroupId != ""
    requires w.books.memory.WellFormed() && m.Key() in w.books.memory.groups && w.books.memory.groups[m.Key()] == m
    requires SyncGate.Tallied(w) && Retired(reg, w, rule, m)
    requires m.provider == ClientOf(reg, rule, m).owner
    ensures EnsuredFor(reg, w, rule, m).target == Some(Target(m.targetGroupId, m.targetGroupPath))
    ensures Clean(reg, w, rule, m, OwnPlace(m), ApplyJob(reg, w, TombstoneJob(rule, m)).0)
  {
    var c, req := ClientOf(reg, rule, m), TombstoneRequest(rule, m);
    RetiredWhen(reg, w, rule, m);
    RetiredIsClean(reg, w, rule, m);
    SyncBinding.EnsureGroupExact(c, w, req.targetPath, req.targetParent, req.createGroup);
    var e := EnsuredFor(reg, w, rule, m);
    SyncBinding.PassGroups(c, req, e.target.value, e.created, e.w);
  }

  /** Under any other key, the pass leaves the mapping's own group as it was. */
  lemma OtherKeyUntouched(reg: Registry, w: World, rule: Rule, m: GroupMapping)
    requires SoundJob(reg, TombstoneJob(rule, m)) && m.provider != ClientOf(reg, rule, m).owner
    ensures var after := ApplyJob(reg, w, TombstoneJob(rule, m)).0;
      && after.Roster(OwnPlace(m)) == w.Roster(OwnPlace(m))
      && SyncTrace.SameClaims(w.books.memory, after.books.memory, OwnPlace(m))
  {
    var c, req := ClientOf(reg, rule, m), TombstoneRequest(rule, m);
    SyncTrace.SyncElsewhere(c, req, w, OwnPlace(m));
    RetireElsewhere(reg, SyncGroup(c, req, w).w, m.Key());
  }

  /** Giving up a mapping touches neither members nor claims. */
  lemma RetireElsewhere(reg: Registry, w: World, k: BindingKey)
    ensures var w1 := Retire(reg.fault, w, k).0;
      w1.members == w.members && w1.books.memory.records == w.books.memory.records
  {
  }

  /**
   Exactly when giving a mapping up is safe: it was recorded under the provider's
   present key, or there was nobody left in its group to begin with.
  */
  lemma RetirementExact(reg: Registry, w: World, rule: Rule, m: GroupMapping)
    requires SoundJob(reg, TombstoneJob(rule, m)) && m.rule == rule.name && m.sourceGroupId != ""
    requires w.books.memory.WellFormed() && m.Key() in w.books.memory.groups && w.books.memory.groups[m.Key()] == m
    requires SyncGate.Tallied(w) && Retired(reg, w, rule, m)
    ensures Clean(reg, w, rule, m, OwnPlace(m), ApplyJob(reg, w, TombstoneJob(rule, m)).0) <==>
      m.provider == ClientOf(reg, rule, m).owner || Clean(reg, w, rule, m, OwnPlace(m), w)
  {
    if m.provider == ClientOf(reg, rule, m).owner {
      RetirementIsSafe(reg, w, rule, m);
    } else {
      OtherKeyUntouched(reg, w, rule, m);
    }
  }

  // ----- the input that fails -----

  /** A managed-only pass for nobody, on a group without members that is not bound yet. */
  lemma EmptyPassConverges(c: Client, req: Request, t: Target, w: World)
    requires c.Valid() && forall n: nat :: c.fault(n) == Smooth
    requires req.prune == "managed-only" && req.maxRemovals >= 0 && req.group.members == []
    requires BindingKey(c.owner, req.rule, StateKey(req)) !in w.books.memory.groups
      && w.Roster(Place(c.owner, t.id)) == map[]
    ensures Pass(c, req, t, false, w).error.None? && Pass(c, req, t, false, w).r.converged
  {
    var o := Open(c, req, t, false, w);
    OpenLists(c, req, t, false, w);
    assert o.existing.Keys == {} && o.desired.Keys == {};
    NothingListed(o.order);
    NothingListed(c.ranging(o.s.w.tick, o.desired.Keys));
    assert o.s.error.None? && o.existing == map[] && o.order == [] && o.desired == map[];
    assert Raised(c, req, t, false, w) == o.s;
  }

  lemma NothingListed(q: seq<Id>)
    ensures Enumerates(q, {}) ==> q == []
  {
    if q != [] {
      assert q[0] in q;
    }
  }

  /**
   After the target's address changed, the same group under the new ownership key
   is empty, the tombstone's pass converges there, and the mapping is given up; the
   members recorded under the old key stay.
  */
  lemma OtherKeyRetires(reg: Registry, w: World, rule: Rule, m: GroupMapping, id: Id)
    requires SoundJob(reg, TombstoneJob(rule, m)) && m.rule == rule.name && m.sourceGroupId != ""
    requires w.books.memory.WellFormed() && m.Key() in w.books.memory.groups && SyncGate.Tallied(w)
    requires var c := ClientOf(reg, rule, m);
      && m.provider != c.owner && BindingKey(c.owner, rule.name, m.sourceGroupId) !in w.books.memory.groups
      && Address(c.owner, m.targetGroupPath) in w.groups && w.groups[Address(c.owner, m.targetGroupPath)] == id
      && w.Roster(Place(c.owner, id)) == map[]
      && (forall n: nat :: c.fault(n) == Smooth) && (forall n: nat :: reg.fault(n) == Smooth)
    requires rule.prune == "managed-only" && rule.maxRemovals >= 0 && rule.targetParent == ""
    requires TrimSlashes(m.targetGroupPath) == m.targetGroupPath && m.targetGroupPath != ""
    ensures Retired(reg, w, rule, m)
    ensures ApplyJob(reg, w, TombstoneJob(rule, m)).0.Roster(OwnPlace(m)) == w.Roster(OwnPlace(m))
  {
    var c, req := ClientOf(reg, rule, m), TombstoneRequest(rule, m);
    var e := EnsuredFor(reg, w, rule, m);
    assert TrimSlashes("") == "";
    assert e == Ensured(Call(w), Some(Target(id, m.targetGroupPath)), false, None);
    EmptyPassConverges(c, req, e.target.value, e.w);
    RetiredWhen(reg, w, rule, m);
    OtherKeyUntouched(reg, w, rule, m);
  }

  ghost function AnyOrder(s: set<Id>): (q: seq<Id>)
    ensures Enumerates(q, s)
  {
    if s == {} then []
    else
      var x :| x in s;
      AnyOrder(s - {x}) + [x]
  }

  /** A full plan over a ledger with one mapping, when the source has no groups left. */
  lemma LonelyPlan(reg: Registry, rule: Rule, m: GroupMapping)
    requires SoundJob(reg, TombstoneJob(rule, m)) && OfRule(rule, m) && rule.vault.None? && rule.sourceGroupPaths.None?
    ensures MakePlan(reg, [m], true, false, [], [rule])
      == Plan([TombstoneJob(rule, m)], {Claim(rule.targetProvider, m.targetGroupPath)}, {}, [])
  {
    var buried := Bury(reg, NO_PLAN, m, rule);
    assert BuryRules(reg, buried, m, []) == buried;
    assert BuryMapping(reg, NO_PLAN, m, [rule]) == BuryRules(reg, NO_PLAN, m, [rule])
      == BuryRules(reg, buried, m, [rule][1..]) == buried;
    assert BuryAll(reg, NO_PLAN, [m], [rule]) == BuryAll(reg, buried, [m][1..], [rule]) == buried;
  }

  // Its smallest form: one mapping, one managed member, and a target that moved.

  const MOVED_RULE :=
    Rule("r", "/", None, "gl", "", false, false, "developer", "managed-only", [], 1, ["oidc"], false, None)
  const MOVED_MAPPING := GroupMapping("gl@old", "r", "source", "source", "/p", "1", "p", false)
  const MOVED_LEDGER := Ledger({Membership("gl@old", "1", "ann")}, map[MOVED_MAPPING.Key() := MOVED_MAPPING], map[])

  ghost function MovedClient(): Client {
    Client("gl", "gl@new", "", s => s, (a, b) => a == b, (t, f, v) => [], t => "self", t => "9", t => map[],
           (t, s) => AnyOrder(s), (t, s) => AnyOrder(s), t => Smooth)
  }

  ghost function MovedRegistry(): Registry {
    Registry(map["gl" := GitLabBackend(MovedClient())], ch => ch, (t, n) => true, t => true, t => Smooth)
  }

  ghost function MovedWorld(): World {
    World(map[Address("gl@old", "p") := "1", Address("gl@new", "p") := "1"],
          map[Place("gl@old", "1") := map["ann" := Member(30, false, "ann")]],
            Books(MOVED_LEDGER, MOVED_LEDGER, MOVED_LEDGER, 0), 0, [])
  }

  lemma MovedSetting()
    ensures SoundJob(MovedRegistry(), TombstoneJob(MOVED_RULE, MOVED_MAPPING))
    ensures MOVED_LEDGER.WellFormed() && SyncGate.Tallied(MovedWorld()) && OfRule(MOVED_RULE, MOVED_MAPPING)
  {
    assert MovedClient().Valid();
    assert MOVED_MAPPING.provider[..3] == "gl@";
  }

  lemma MovedMember(after: World)
    requires SoundJob(MovedRegistry(), TombstoneJob(MOVED_RULE, MOVED_MAPPING))
    requires after.Roster(OwnPlace(MOVED_MAPPING)) == MovedWorld().Roster(OwnPlace(MOVED_MAPPING))
    requires SyncTrace.SameClaims(MOVED_LEDGER, after.books.memory, OwnPlace(MOVED_MAPPING))
    ensures !Clean(MovedRegistry(), MovedWorld(), MOVED_RULE, MOVED_MAPPING, OwnPlace(MOVED_MAPPING), after)
  {
    var p := OwnPlace(MOVED_MAPPING);
    assert "ann" in after.Roster(p) && after.Roster(p)["ann"] == Member(30, false, "ann");
    assert Key(p, "ann") in MOVED_LEDGER.records;
    var e := EnsuredFor(MovedRegistry(), MovedWorld(), MOVED_RULE, MOVED_MAPPING);
    if e.target.Some? {
      var self := SyncGate.Self(MovedClient(), TombstoneRequest(MOVED_RULE, MOVED_MAPPING), e.target.value, e.created,
        e.w);
      assert self == "self" || self == "";
      assert !Exempt(MovedClient(), TombstoneRequest(MOVED_RULE, MOVED_MAPPING), self, "ann", Member(30, false, "ann"));
    }
  }

  /** The full plan makes this tombstone, it gives the mapping up, and the managed member stays. */
  lemma MovedTargetKeepsMember()
    ensures SoundJob(MovedRegistry(), TombstoneJob(MOVED_RULE, MOVED_MAPPING))
    ensures MakePlan(MovedRegistry(), [MOVED_MAPPING], true, false, [], [MOVED_RULE])
      == Plan([TombstoneJob(MOVED_RULE, MOVED_MAPPING)], {Claim("gl", "p")}, {}, [])
    ensures Retired(MovedRegistry(), MovedWorld(), MOVED_RULE, MOVED_MAPPING)
    ensures var after := ApplyJob(MovedRegistry(), MovedWorld(), TombstoneJob(MOVED_RULE, MOVED_MAPPING)).0;
      !Clean(MovedRegistry(), MovedWorld(), MOVED_RULE, MOVED_MAPPING, OwnPlace(MOVED_MAPPING), after)
  {
    var reg, w := MovedRegistry(), MovedWorld();
    MovedSetting();
    LonelyPlan(reg, MOVED_RULE, MOVED_MAPPING);
    assert TrimSlashes("p") == "p";
    OtherKeyRetires(reg, w, MOVED_RULE, MOVED_MAPPING, "1");
    OtherKeyUntouched(reg, w, MOVED_RULE, MOVED_MAPPING);
    MovedMember(ApplyJob(reg, w, TombstoneJob(MOVED_RULE, MOVED_MAPPING)).0);
  }
}

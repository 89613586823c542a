/**
 Who stays, who goes and who gets which level, told from the request and the
 roster alone: the conditions are written out here, not taken from the pass.
*/
module MemberRules {
  import opened Wrappers
  import opened Ledger
  import opened Sync
  import opened SyncSafety
  import opened SyncGate
  import opened SyncTrace
  import SyncClaims
  import SyncConvergence

  // ----- who may be removed -----

  /** The token's own user, owners, members with a custom role, and protected users. */
  predicate Shielded(c: Client, req: Request, self: Id, u: Id, m: Member) {
    || u == self
    || m.level >= 50
    || m.customRole
    || exists i :: 0 <= i < |req.protectedUsers| && c.lower(req.protectedUsers[i]) == c.lower(m.username)
  }

  /** Only these two modes remove: the first anybody, the second whom the ledger claims. */
  predicate InMode(prune: string, managed: bool) {
    prune == "authoritative" || (prune == "managed-only" && managed)
  }

  /** An undesired member whom the next successful pass removes. */
  predicate MayGo(c: Client, req: Request, p: Place, self: Id, u: Id, m: Member, l: Ledger) {
    && !Shielded(c, req, self, u, m)
    && InMode(req.prune, Key(p, u) in l.records)
    && (req.immediate || (Key(p, u) in l.absences && l.absences[Key(p, u)] >= 1))
  }

  lemma ExemptExactly(c: Client, req: Request, self: Id, u: Id, m: Member)
    ensures Exempt(c, req, self, u, m) <==> Shielded(c, req, self, u, m)
  {
    if exists name <- req.protectedUsers :: c.lower(name) == c.lower(m.username) {
      var name :| name in req.protectedUsers && c.lower(name) == c.lower(m.username);
      var i :| 0 <= i < |req.protectedUsers| && req.protectedUsers[i] == name;
    }
  }

  // ----- the gate -----

  /** Who is still to be listed is recorded as at the beginning. */
  predicate StillAs(p: Place, l: Ledger, now: Ledger, listing: seq<Id>) {
    && (forall u <- listing :: Key(p, u) in now.records <==> Key(p, u) in l.records)
    && (forall u <- listing :: now.Observations(Key(p, u)) == l.Observations(Key(p, u)))
  }

  lemma GateUserPicks(
      c: Client, req: Request, p: Place, desired: set<Id>, self: Id, g: Gate, u: Id, m: Member, l: Ledger)
    requires g.s.error.None? && u !in g.removals && StillAs(p, l, g.s.w.books.memory, [u])
    ensures var out := GateUser(c, req, p, desired, self, g, u, m);
      var goes := u !in desired && MayGo(c, req, p, self, u, m, l);
      && out.removals in {g.removals, g.removals + [u]}
      && (out.removals != g.removals ==> goes)
      && (out.s.error.None? && goes ==> out.removals == g.removals + [u])
      && GatedAway(p, u, g.s.w, out.s.w)
  {
    ExemptExactly(c, req, self, u, m);
    assert u in [u];
    GateUserElse(c, req, p, desired, self, g, u, m);
  }

  /** The gate changes nobody's membership, and of the ledger at most this member's absences. */
  ghost predicate GatedAway(p: Place, u: Id, w: World, w1: World) {
    && w1.members == w.members && w1.books.memory.records == w.books.memory.records
    && forall x: Id :: x != u ==>
         w1.books.memory.Observations(Key(p, x)) == w.books.memory.Observations(Key(p, x))
  }

  lemma GateUserElse(c: Client, req: Request, p: Place, desired: set<Id>, self: Id, g: Gate, u: Id, m: Member)
    ensures GatedAway(p, u, g.s.w, GateUser(c, req, p, desired, self, g, u, m).s.w)
  {
    var w1 := ConfirmAbsent(c, g.s.w, Key(p, u)).0;
    assert forall x: Id :: x != u ==> Key(p, x) != Key(p, u);
    assert GatedAway(p, u, g.s.w, w1);
  }

  /** What the gate picks from here on. */
  ghost predicate Picks(
      c: Client, req: Request, p: Place, existing: Roster, desired: set<Id>, self: Id, l: Ledger, before: seq<Id>,
      listing: seq<Id>, after: seq<Id>)
    requires forall u <- listing :: u in existing
  {
    && Distinct(after) && (forall u <- before :: u in after)
    && (forall u <- after ::
          u in before || (u in listing && u !in desired && MayGo(c, req, p, self, u, existing[u], l)))
  }

  lemma {:induction false} GateAllMayGo(
      c: Client, req: Request, p: Place, existing: Roster, desired: set<Id>, self: Id, g: Gate, listing: seq<Id>,
      l: Ledger)
    requires forall u <- listing :: u in existing && u !in g.removals
    requires Distinct(listing) && Distinct(g.removals) && StillAs(p, l, g.s.w.books.memory, listing)
    ensures var out := GateAll(c, req, p, existing, desired, self, g, listing);
      && Picks(c, req, p, existing, desired, self, l, g.removals, listing, out.removals)
      && out.s.w.members == g.s.w.members
      && (out.s.error.None? ==>
            forall u <- listing :: u !in desired && MayGo(c, req, p, self, u, existing[u], l) ==> u in out.removals)
    decreases listing
  {
    if listing != [] && g.s.error.None? {
      var u, rest := listing[0], listing[1..];
      assert u in listing && forall x <- rest :: x in listing && x != u;
      assert StillAs(p, l, g.s.w.books.memory, [u]);
      GateUserPicks(c, req, p, desired, self, g, u, existing[u], l);
      var next := GateUser(c, req, p, desired, self, g, u, existing[u]);
      assert forall x <- rest :: x !in next.removals;
      GateAllMayGo(c, req, p, existing, desired, self, next, rest, l);
      var out := GateAll(c, req, p, existing, desired, self, next, rest);
      assert forall x <- g.removals :: x in next.removals;
      assert forall x <- next.removals :: x in g.removals || x == u;
      assert next.s.error.Some? ==> out == next;
      assert forall x <- listing :: x == u || x in rest;
    }
  }

  // ----- removals -----

  /** Forgotten: neither claimed nor observed absent. */
  predicate Forgotten(l: Ledger, m: Membership) {
    m !in l.records && m !in l.absences
  }

  lemma RemoveUserForgets(c: Client, p: Place, s: Step, u: Id)
    requires RemoveUser(c, p, s, u).error.None?
    ensures Forgotten(RemoveUser(c, p, s, u).w.books.memory, Key(p, u))
  {
  }

  lemma RemoveUserSpares(c: Client, p: Place, s: Step, u: Id, m: Membership)
    requires Forgotten(s.w.books.memory, m)
    ensures Forgotten(RemoveUser(c, p, s, u).w.books.memory, m)
  {
  }

  lemma {:induction false} RemoveAllSpares(c: Client, p: Place, s: Step, removals: seq<Id>, m: Membership)
    requires Forgotten(s.w.books.memory, m)
    ensures Forgotten(RemoveAll(c, p, s, removals).w.books.memory, m)
    decreases removals
  {
    if removals != [] && s.error.None? {
      RemoveUserSpares(c, p, s, removals[0], m);
      RemoveAllSpares(c, p, RemoveUser(c, p, s, removals[0]), removals[1..], m);
    }
  }

  lemma {:induction false} RemoveAllForgets(c: Client, p: Place, s: Step, removals: seq<Id>)
    requires RemoveAll(c, p, s, removals).error.None?
    ensures forall u <- removals :: Forgotten(RemoveAll(c, p, s, removals).w.books.memory, Key(p, u))
    decreases removals
  {
    if removals != [] {
      var next := RemoveUser(c, p, s, removals[0]);
      assert next.error.None?;
      RemoveUserForgets(c, p, s, removals[0]);
      RemoveAllSpares(c, p, next, removals[1..], Key(p, removals[0]));
      RemoveAllForgets(c, p, next, removals[1..]);
      assert forall u <- removals :: u == removals[0] || u in removals[1..];
    }
  }

  // ----- the last phase -----

  lemma CloseMayGo(
      c: Client, req: Request, p: Place, existing: Roster, listing: seq<Id>, desired: set<Id>, s: Step, u: Id)
    requires Enumerates(listing, existing.Keys) && s.error.None? && u in existing && u !in desired
    ensures var out := Close(c, req, p, existing, listing, desired, s);
      var goes := MayGo(c, req, p, c.self(s.w.tick), u, existing[u], s.w.books.memory);
      && (!goes && u in s.w.Roster(p) ==> u in out.w.Roster(p) && out.w.Roster(p)[u] == s.w.Roster(p)[u])
      && (goes && out.error.None? ==> u !in out.w.Roster(p) && Forgotten(out.w.books.memory, Key(p, u)))
  {
    var self, l := c.self(s.w.tick), s.w.books.memory;
    var g0 := Gate(s.(w := Call(s.w)), [], false);
    GateAllMayGo(c, req, p, existing, desired, self, g0, listing, l);
    var g := GateAll(c, req, p, existing, desired, self, g0, listing);
    PickedGoes(c, p, g.s, g.removals, u);
    assert g.s.w.Roster(p) == s.w.Roster(p);
  }

  /** The removals take whom the gate picked, and nobody else. */
  lemma PickedGoes(c: Client, p: Place, s: Step, removals: seq<Id>, u: Id)
    requires Distinct(removals)
    ensures var out := RemoveAll(c, p, s, removals);
      && (u !in removals && u in s.w.Roster(p) ==> u in out.w.Roster(p) && out.w.Roster(p)[u] == s.w.Roster(p)[u])
      && (u in removals && out.error.None? ==> u !in out.w.Roster(p) && Forgotten(out.w.books.memory, Key(p, u)))
  {
    RemoveAllOnly(c, p, s, removals);
    if RemoveAll(c, p, s, removals).error.None? {
      RemoveAllForgets(c, p, s, removals);
    }
  }

  // ----- one pass -----

  /** Whom the additions do not concern is, when the gate comes to him, as he was. */
  lemma RaisedSame(c: Client, req: Request, t: Target, created: bool, w: World, u: Id)
    requires c.Valid() && Open(c, req, t, created, w).s.error.None?
    requires u in w.Roster(Place(c.owner, t.id)) && u !in Wanted(c, req, t, created, w)
    ensures var p := Place(c.owner, t.id); var s := Raised(c, req, t, created, w); var o := Open(c, req, t, created, w);
      && o.existing == w.Roster(p) && u in s.w.Roster(p) && s.w.Roster(p)[u] == w.Roster(p)[u]
      && (Key(p, u) in s.w.books.memory.records <==> Key(p, u) in w.books.memory.records)
      && s.w.books.memory.Observations(Key(p, u)) == w.books.memory.Observations(Key(p, u))
  {
    var p := Place(c.owner, t.id);
    var o := Open(c, req, t, created, w);
    OpenFrame(c, req, t, created, w);
    OpenLists(c, req, t, created, w);
    var order := c.ranging(o.s.w.tick, o.desired.Keys);
    EnsureAllOnly(c, req, p, o.existing, o.s, o.desired, order);
    assert o.s.w.Roster(p) == w.Roster(p) && u !in order;
  }

  /** The member may go in this pass. */
  ghost predicate Goes(c: Client, req: Request, t: Target, created: bool, w: World, u: Id)
    requires c.Valid() && u in w.Roster(Place(c.owner, t.id))
  {
    var p := Place(c.owner, t.id);
    MayGo(c, req, p, Self(c, req, t, created, w), u, w.Roster(p)[u], w.books.memory)
  }

  lemma PassMembers(c: Client, req: Request, t: Target, created: bool, w: World, u: Id)
    requires c.Valid() && u in w.Roster(Place(c.owner, t.id)) && u !in Wanted(c, req, t, created, w)
    ensures var p := Place(c.owner, t.id); var out := Pass(c, req, t, created, w);
      && (!Goes(c, req, t, created, w, u) || out.r.unresolved > 0 ==>
            u in out.w.Roster(p) && out.w.Roster(p)[u] == w.Roster(p)[u])
      && (Goes(c, req, t, created, w, u) && out.error.None? && out.r.unresolved == 0 ==>
            u !in out.w.Roster(p) && Forgotten(out.w.books.memory, Key(p, u)))
  {
    var p := Place(c.owner, t.id);
    var o := Open(c, req, t, created, w);
    OpenFrame(c, req, t, created, w);
    if o.s.error.None? {
      OpenLists(c, req, t, created, w);
      RaisedSame(c, req, t, created, w, u);
      var s := Raised(c, req, t, created, w);
      if s.error.None? && s.r.unresolved == 0 {
        CloseMayGo(c, req, p, o.existing, o.order, o.desired.Keys, s, u);
        CloseCounts(c, req, p, o.existing, o.order, o.desired.Keys, s);
      }
    } else {
      assert o.s.w.Roster(p) == w.Roster(p);
    }
  }

  lemma CloseCounts(c: Client, req: Request, p: Place, existing: Roster, listing: seq<Id>, desired: set<Id>, s: Step)
    requires Enumerates(listing, existing.Keys)
    ensures Close(c, req, p, existing, listing, desired, s).r.unresolved == s.r.unresolved
  {
    var g0 := Gate(s.(w := Call(s.w)), [], false);
    GateAllPending(c, req, p, existing, desired, c.self(s.w.tick), g0, listing);
    var g := GateAll(c, req, p, existing, desired, c.self(s.w.tick), g0, listing);
    RemoveAllPending(c, p, g.s, g.removals);
  }

  lemma {:induction false} GateAllPending(
      c: Client, req: Request, p: Place, existing: Roster, desired: set<Id>, self: Id, g: Gate, listing: seq<Id>)
    requires forall u <- listing :: u in existing
    ensures GateAll(c, req, p, existing, desired, self, g, listing).s.r.unresolved == g.s.r.unresolved
    decreases listing
  {
    if listing != [] && g.s.error.None? {
      var next := GateUser(c, req, p, desired, self, g, listing[0], existing[listing[0]]);
      GateAllPending(c, req, p, existing, desired, self, next, listing[1..]);
    }
  }

  lemma {:induction false} RemoveAllPending(c: Client, p: Place, s: Step, removals: seq<Id>)
    ensures RemoveAll(c, p, s, removals).r.unresolved == s.r.unresolved
    decreases removals
  {
    if removals != [] && s.error.None? {
      RemoveAllPending(c, p, RemoveUser(c, p, s, removals[0]), removals[1..]);
    }
  }

  // ----- the whole operation, and runs of it -----

  /** If the operation works on this group, it neither wants the member nor may remove him. */
  ghost predicate Spared(c: Client, req: Request, w: World, q: Place, u: Id)
    requires c.Valid()
  {
    var e := EnsureGroup(c, w, req.targetPath, req.targetParent, req.createGroup);
    e.error.None? && e.target.Some? && q == Place(c.owner, e.target.value.id) && u in e.w.Roster(q) ==>
      u !in Wanted(c, req, e.target.value, e.created, e.w) && !Goes(c, req, e.target.value, e.created, e.w, u)
  }

  lemma EnsuredSame(c: Client, req: Request, w: World, q: Place, u: Id)
    requires u in w.Roster(q)
    ensures var e := EnsureGroup(c, w, req.targetPath, req.targetParent, req.createGroup);
      u in e.w.Roster(q) && e.w.Roster(q)[u] == w.Roster(q)[u] && e.w.books == w.books
  {
    EnsureGroupExtends(c, w, req.targetPath, req.targetParent, req.createGroup);
    assert q in w.members;
  }

  /** Whatever fails on the way, a member who is spared is there afterwards, with level and role unchanged. */
  lemma SyncSpares(c: Client, req: Request, w: World, q: Place, u: Id)
    requires c.Valid() && u in w.Roster(q) && Spared(c, req, w, q, u)
    ensures var out := SyncGroup(c, req, w).w; u in out.Roster(q) && out.Roster(q)[u] == w.Roster(q)[u]
  {
    EnsuredSame(c, req, w, q, u);
    var e := EnsureGroup(c, w, req.targetPath, req.targetParent, req.createGroup);
    if e.error.None? && e.target.Some? {
      var t := e.target.value;
      if q == Place(c.owner, t.id) {
        PassMembers(c, req, t, e.created, e.w, u);
      } else {
        PassLocal(c, req, t, e.created, e.w);
      }
    }
  }

  /** A successful operation removes everybody whom it does not want and may remove. */
  lemma SyncRemovesAll(c: Client, req: Request, w: World, u: Id)
    requires c.Valid()
    requires var e := EnsureGroup(c, w, req.targetPath, req.targetParent, req.createGroup);
      && e.error.None? && e.target.Some? && u in e.w.Roster(Place(c.owner, e.target.value.id))
      && u !in Wanted(c, req, e.target.value, e.created, e.w) && Goes(c, req, e.target.value, e.created, e.w, u)
    requires SyncGroup(c, req, w).error.None? && SyncGroup(c, req, w).r.unresolved == 0
    ensures var e := EnsureGroup(c, w, req.targetPath, req.targetParent, req.createGroup);
      var q, out := Place(c.owner, e.target.value.id), SyncGroup(c, req, w).w;
      u !in out.Roster(q) && Forgotten(out.books.memory, Key(q, u))
  {
    var e := EnsureGroup(c, w, req.targetPath, req.targetParent, req.createGroup);
    PassMembers(c, req, e.target.value, e.created, e.w, u);
  }

  ghost predicate SparedAt(w: World, actions: seq<Action>, n: nat, q: Place, u: Id)
    requires ValidActions(actions) && n < |actions|
  {
    assert actions[n] in actions;
    actions[n].Synchronize? ==> Spared(actions[n].c, actions[n].req, Run(w, actions[..n]), q, u)
  }

  /** Over any run in which no pass wants the member or may remove him, he stays as he was. */
  lemma RunSpares(w: World, actions: seq<Action>, q: Place, u: Id)
    requires ValidActions(actions) && u in w.Roster(q)
    requires forall n :: 0 <= n < |actions| ==> SparedAt(w, actions, n, q, u)
    ensures u in Run(w, actions).Roster(q) && Run(w, actions).Roster(q)[u] == w.Roster(q)[u]
  {
    SparedSoFar(w, actions, |actions|, q, u);
    assert actions[..|actions|] == actions;
  }

  lemma {:induction false} SparedSoFar(w: World, actions: seq<Action>, end: nat, q: Place, u: Id)
    requires ValidActions(actions) && u in w.Roster(q) && end <= |actions|
    requires forall n :: 0 <= n < end ==> SparedAt(w, actions, n, q, u)
    ensures var now := Run(w, actions[..end]).Roster(q); u in now && now[u] == w.Roster(q)[u]
    decreases end
  {
    if end > 0 {
      var last := end - 1;
      var before := Run(w, actions[..last]);
      SparedSoFar(w, actions, last, q, u);
      SyncClaims.RunStep(w, actions, last);
      assert SparedAt(w, actions, last, q, u);
      if actions[last].Synchronize? {
        SyncSpares(actions[last].c, actions[last].req, before, q, u);
      }
    }
  }

  /** What it means that an operation removed a member through the gate. */
  lemma RemovedMeans(c: Client, req: Request, w: World, q: Place, u: Id)
    requires c.Valid() && RemovedBySync(c, req, w, q, u)
    ensures var e := EnsureGroup(c, w, req.targetPath, req.targetParent, req.createGroup);
      var self := Self(c, req, e.target.value, e.created, e.w);
      && u in e.w.Roster(q) && u !in Wanted(c, req, e.target.value, e.created, e.w)
      && !Shielded(c, req, self, u, e.w.Roster(q)[u])
      && InMode(req.prune, Key(q, u) in e.w.books.memory.records)
  {
    var e := EnsureGroup(c, w, req.targetPath, req.targetParent, req.createGroup);
    var self := Self(c, req, e.target.value, e.created, e.w);
    ExemptExactly(c, req, self, u, e.w.Roster(q)[u]);
  }

  // ----- levels -----

  /** GitLab's five levels, in order, all below Owner. */
  lemma LevelsInOrder()
    ensures LevelOf("guest") == 10 < LevelOf("planner") == 15 < LevelOf("reporter") == 20
    ensures LevelOf("reporter") < LevelOf("developer") == 30 < LevelOf("maintainer") == 40 < 50
  {
  }

  /** Whose level a pass changes: too low, or not the enforced one below Owner; never a custom role. */
  predicate Changes(req: Request, level: int, m: Member) {
    !m.customRole && (m.level < level || (req.enforce && m.level != level && m.level < 50))
  }

  /** Who keeps a pass from succeeding: a custom role that does not fit. */
  predicate Conflicts(req: Request, level: int, m: Member) {
    m.customRole && (m.level < level || (req.enforce && m.level != level))
  }

  /** What one wanted user's membership may become, whatever fails. */
  ghost predicate Becomes(req: Request, level: int, user: User, before: Roster, after: Roster) {
    if user.id in before then
      && user.id in after
      && (after[user.id] == before[user.id]
          || (Changes(req, level, before[user.id]) && after[user.id] == before[user.id].(level := level)))
    else user.id in after ==> after[user.id] == Member(level, false, user.username)
  }

  /** And what it is once the pass succeeded. */
  ghost predicate Settled(req: Request, level: int, user: User, managed: bool, before: Roster, after: Roster) {
    && user.id in after
    && if user.id !in before then after[user.id] == Member(level, false, user.username)
       else
         && !Conflicts(req, level, before[user.id])
         && (Changes(req, level, before[user.id]) ==> req.prune != "managed-only" || managed)
         && after[user.id] == if Changes(req, level, before[user.id]) then before[user.id].(level := level)
           else before[user.id]
  }

  lemma AddNewBecomes(c: Client, req: Request, p: Place, s: Step, user: User)
    requires s.error.None? && user.id !in s.w.Roster(p)
    ensures var out := AddNew(c, req, p, s, user); var after := out.w.Roster(p);
      && (user.id in after ==> after[user.id] == Member(LevelOf(req.accessLevel), false, user.username))
      && (out.error.None? ==> user.id in after && Key(p, user.id) in out.w.books.memory.records)
  {
    AddMemberBooks(c, s.w, p, user, LevelOf(req.accessLevel));
  }

  lemma RelevelBecomes(c: Client, req: Request, p: Place, s: Step, user: User)
    requires s.error.None? && user.id in s.w.Roster(p)
    ensures var out := Relevel(c, req, p, s, user); var m := s.w.Roster(p)[user.id]; var after := out.w.Roster(p);
      && user.id in after && after[user.id] in {m, m.(level := LevelOf(req.accessLevel))}
      && (out.error.None? ==> after[user.id].level == LevelOf(req.accessLevel))
      && (out.error.None? && req.prune == "managed-only" ==> Key(p, user.id) in s.w.books.memory.records)
  {
  }

  lemma EnsureUserBecomes(c: Client, req: Request, p: Place, existing: Roster, s: Step, user: User)
    requires s.error.None? && (user.id in existing <==> user.id in s.w.Roster(p))
    requires user.id in existing ==> s.w.Roster(p)[user.id] == existing[user.id]
    ensures var out := EnsureUser(c, req, p, existing, s, user); var level := LevelOf(req.accessLevel);
      && Becomes(req, level, user, s.w.Roster(p), out.w.Roster(p))
      && (out.error.None? ==>
            Settled(req, level, user, Key(p, user.id) in s.w.books.memory.records, s.w.Roster(p), out.w.Roster(p)))
  {
    var s1 := s.(w := ResetAbsent(c, s.w, Key(p, user.id)).0);
    assert s1.w.Roster(p) == s.w.Roster(p) && s1.w.books.memory.records == s.w.books.memory.records;
    if user.id !in existing {
      AddNewBecomes(c, req, p, s1, user);
    } else {
      RelevelBecomes(c, req, p, s1, user);
    }
  }

  /** One user among others. */
  lemma {:induction false} EnsureAllBecomes(
      c: Client, req: Request, p: Place, existing: Roster, s: Step, desired: map<Id, User>, order: seq<Id>, u: Id)
    requires (forall x <- order :: x in desired && desired[x].id == x) && Distinct(order)
    requires u in order ==> (u in existing <==> u in s.w.Roster(p))
    requires u in order && u in existing ==> s.w.Roster(p)[u] == existing[u]
    ensures var out := EnsureAll(c, req, p, existing, s, desired, order); var level := LevelOf(req.accessLevel);
      u in order ==>
        && Becomes(req, level, desired[u], s.w.Roster(p), out.w.Roster(p))
        && (out.error.None? ==>
              Settled(req, level, desired[u], Key(p, u) in s.w.books.memory.records, s.w.Roster(p), out.w.Roster(p)))
    decreases order
  {
    if order != [] && s.error.None? && u in order {
      var x, rest := order[0], order[1..];
      var next := EnsureUser(c, req, p, existing, s, desired[x]);
      assert forall y <- rest :: y in order && y != x;
      EnsureUserOnly(c, req, p, existing, s, desired[x]);
      EnsureAllOnly(c, req, p, existing, next, desired, rest);
      EnsureAllBecomes(c, req, p, existing, next, desired, rest, u);
      if u == x {
        EnsureUserBecomes(c, req, p, existing, s, desired[x]);
        assert u !in rest;
      } else {
        assert u in rest && u !in [x];
      }
    }
  }

  /**
   What a pass makes of a user it wants: nothing or the level asked for, whatever
   fails; and if it succeeds, the level exactly where it was too low or is enforced.
  */
  lemma PassWanted(c: Client, req: Request, t: Target, created: bool, w: World, u: Id)
    requires c.Valid() && u in Wanted(c, req, t, created, w)
    ensures var p := Place(c.owner, t.id); var out := Pass(c, req, t, created, w);
      var user := Open(c, req, t, created, w).desired[u]; var level := LevelOf(req.accessLevel);
      && Becomes(req, level, user, w.Roster(p), out.w.Roster(p))
      && (out.error.None? ==>
            Settled(req, level, user, Key(p, u) in w.books.memory.records, w.Roster(p), out.w.Roster(p)))
  {
    var p := Place(c.owner, t.id);
    var o := Open(c, req, t, created, w);
    OpenFrame(c, req, t, created, w);
    if o.s.error.None? {
      OpenLists(c, req, t, created, w);
      var order := c.ranging(o.s.w.tick, o.desired.Keys);
      var s := Raised(c, req, t, created, w);
      assert o.s.w.Roster(p) == w.Roster(p) && u in order;
      EnsureAllBecomes(c, req, p, o.existing, o.s, o.desired, order, u);
      if s.error.None? && s.r.unresolved == 0 {
        SyncConvergence.CloseKeepsDesired(c, req, p, o.existing, o.order, o.desired.Keys, s);
        CloseAddsNobody(c, req, p, o.existing, o.order, o.desired.Keys, s);
      }
    } else {
      WantedIds(c, req, t, created, w, u);
    }
  }

  /** Even when resolving failed, the users found so far are filed under their ids. */
  lemma WantedIds(c: Client, req: Request, t: Target, created: bool, w: World, u: Id)
    requires u in Open(c, req, t, created, w).desired
    ensures var o := Open(c, req, t, created, w); o.desired[u].id == u && o.s.w.members == w.members
  {
    ResolvedIds(c, req.group.members, req.identityMatch, Resolution(w.tick + 2, map[], 0, None));
    OpenBooks(c, req, t, created, w);
  }

  lemma CloseAddsNobody(
      c: Client, req: Request, p: Place, existing: Roster, listing: seq<Id>, desired: set<Id>, s: Step)
    requires forall u <- listing :: u in existing
    ensures Close(c, req, p, existing, listing, desired, s).w.Roster(p).Keys <= s.w.Roster(p).Keys
  {
    SyncClaims.CloseClaims(c, req, p, existing, listing, desired, s);
  }
}

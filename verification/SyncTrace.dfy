/**
 Where a pass can leave its mark: a membership disappears only with a removal in
 the history, and nothing outside the pass's own target changes at all.
*/
module SyncTrace {
  import opened Wrappers
  import opened Ledger
  import opened Sync
  import opened SyncSafety

  /** A removal of this membership was logged from the given point on. */
  ghost predicate RemovalLogged(log: seq<Event>, from: nat, m: Membership) {
    exists i :: from <= i < |log| && log[i] == Removed(m)
  }

  /** Whoever is gone was removed, in the part of the history that was added. */
  ghost predicate Traced(w: World, w1: World) {
    && w.log <= w1.log
    && (forall q: Place, u :: u in w.Roster(q) && u !in w1.Roster(q) ==> RemovalLogged(w1.log, |w.log|, Key(q, u)))
  }

  predicate At(p: Place, m: Membership) {
    m.provider == p.owner && m.groupId == p.groupId
  }

  /** Rosters, claims and absences of every other group are as they were. */
  ghost predicate Confined(w: World, w1: World, p: Place) {
    && (forall q: Place :: q != p ==> w1.Roster(q) == w.Roster(q))
    && (forall m: Membership :: !At(p, m) ==>
          && (m in w1.books.memory.records <==> m in w.books.memory.records)
          && w1.books.memory.Observations(m) == w.books.memory.Observations(m))
  }

  ghost predicate Local(w: World, w1: World, p: Place) {
    Traced(w, w1) && Confined(w, w1, p)
  }

  lemma TracedChain(a: World, b: World, c: World)
    requires Traced(a, b) && Traced(b, c)
    ensures Traced(a, c)
  {
    forall q: Place, u | u in a.Roster(q) && u !in c.Roster(q)
      ensures RemovalLogged(c.log, |a.log|, Key(q, u))
    {
      if u in b.Roster(q) {
        var i :| |b.log| <= i < |c.log| && c.log[i] == Removed(Key(q, u));
      } else {
        var i :| |a.log| <= i < |b.log| && b.log[i] == Removed(Key(q, u));
        assert c.log[i] == b.log[i];
      }
    }
  }

  lemma LocalChain(a: World, b: World, c: World, p: Place)
    requires Local(a, b, p) && Local(b, c, p)
    ensures Local(a, c, p)
  {
    TracedChain(a, b, c);
  }

  // ----- the calls -----

  lemma CallLocal(w: World, p: Place)
    ensures Local(w, Call(w), p)
  {
  }

  lemma AddLocal(c: Client, w: World, p: Place, user: User, level: int)
    ensures Local(w, AddMember(c, w, p, user, level).0, p)
  {
    var added := SetMember(Call(w), p, user.id, Member(level, false, user.username), Added(Key(p, user.id)));
    CallLocal(w, p);
    SetLocal(Call(w), p, user.id, Member(level, false, user.username), Added(Key(p, user.id)));
    LocalChain(w, Call(w), added, p);
    assert AddMember(c, w, p, user, level).0 in {Call(w), added};
  }

  lemma SetLocal(w: World, p: Place, u: Id, m: Member, e: Event)
    ensures Local(w, SetMember(w, p, u, m, e), p)
  {
  }

  lemma UpdateLocal(c: Client, w: World, p: Place, u: Id, level: int)
    ensures Local(w, UpdateMember(c, w, p, u, level).0, p)
  {
  }

  lemma RemoveLocal(c: Client, w: World, p: Place, u: Id)
    ensures Local(w, RemoveMember(c, w, p, u).0, p)
  {
    var w1 := RemoveMember(c, w, p, u).0;
    forall q: Place, x | x in w.Roster(q) && x !in w1.Roster(q)
      ensures RemovalLogged(w1.log, |w.log|, Key(q, x))
    {
      assert q == p && x == u && w1.log[|w.log|] == Removed(Key(p, u));
    }
  }

  /** A save that touches only claims and absences of this group. */
  lemma SaveLocal(c: Client, w: World, p: Place, next: Ledger)
    requires forall m: Membership :: !At(p, m) ==>
      (m in next.records <==> m in w.books.memory.records) && next.Observations(m) == w.books.memory.Observations(m)
    ensures Local(w, SaveTo(c, w, next).0, p)
  {
  }

  lemma ResetLocal(c: Client, w: World, p: Place, m: Membership)
    requires At(p, m)
    ensures Local(w, ResetAbsent(c, w, m).0, p)
  {
  }

  lemma ConfirmLocal(c: Client, w: World, p: Place, m: Membership)
    requires At(p, m)
    ensures Local(w, ConfirmAbsent(c, w, m).0, p)
  {
  }

  // ----- the steps -----

  lemma AddNewLocal(c: Client, req: Request, p: Place, s: Step, user: User)
    ensures Local(s.w, AddNew(c, req, p, s, user).w, p)
  {
    var w1 := AddMember(c, s.w, p, user, LevelOf(req.accessLevel)).0;
    AddLocal(c, s.w, p, user, LevelOf(req.accessLevel));
    CallLocal(w1, p);
    LocalChain(s.w, w1, Call(w1), p);
    var next := Mark(w1.books.memory, Key(p, user.id));
    SaveLocal(c, Call(w1), p, next);
    LocalChain(s.w, Call(w1), SaveTo(c, Call(w1), next).0, p);
  }

  lemma RelevelLocal(c: Client, req: Request, p: Place, s: Step, user: User)
    ensures Local(s.w, Relevel(c, req, p, s, user).w, p)
  {
    var w1 := UpdateMember(c, s.w, p, user.id, LevelOf(req.accessLevel)).0;
    UpdateLocal(c, s.w, p, user.id, LevelOf(req.accessLevel));
    CallLocal(w1, p);
    LocalChain(s.w, w1, Call(w1), p);
  }

  lemma EnsureUserLocal(c: Client, req: Request, p: Place, existing: Roster, s: Step, user: User)
    ensures Local(s.w, EnsureUser(c, req, p, existing, s, user).w, p)
  {
    var w1 := ResetAbsent(c, s.w, Key(p, user.id)).0;
    var s1 := s.(w := w1);
    ResetLocal(c, s.w, p, Key(p, user.id));
    AddNewLocal(c, req, p, s1, user);
    RelevelLocal(c, req, p, s1, user);
    LocalChain(s.w, w1, AddNew(c, req, p, s1, user).w, p);
    LocalChain(s.w, w1, Relevel(c, req, p, s1, user).w, p);
  }

  lemma {:induction false} EnsureAllLocal(
      c: Client, req: Request, p: Place, existing: Roster, s: Step, desired: map<Id, User>, order: seq<Id>)
    requires forall u <- order :: u in desired
    ensures Local(s.w, EnsureAll(c, req, p, existing, s, desired, order).w, p)
    decreases order
  {
    if order != [] && s.error.None? {
      var next := EnsureUser(c, req, p, existing, s, desired[order[0]]);
      EnsureUserLocal(c, req, p, existing, s, desired[order[0]]);
      EnsureAllLocal(c, req, p, existing, next, desired, order[1..]);
      LocalChain(s.w, next.w, EnsureAll(c, req, p, existing, next, desired, order[1..]).w, p);
    }
  }

  lemma GateUserLocal(c: Client, req: Request, p: Place, desired: set<Id>, self: Id, g: Gate, u: Id, m: Member)
    ensures Local(g.s.w, GateUser(c, req, p, desired, self, g, u, m).s.w, p)
  {
    ConfirmLocal(c, g.s.w, p, Key(p, u));
  }

  lemma {:induction false} GateAllLocal(
      c: Client, req: Request, p: Place, existing: Roster, desired: set<Id>, self: Id, g: Gate, listing: seq<Id>)
    requires forall u <- listing :: u in existing
    ensures Local(g.s.w, GateAll(c, req, p, existing, desired, self, g, listing).s.w, p)
    decreases listing
  {
    if listing != [] && g.s.error.None? {
      var next := GateUser(c, req, p, desired, self, g, listing[0], existing[listing[0]]);
      GateUserLocal(c, req, p, desired, self, g, listing[0], existing[listing[0]]);
      GateAllLocal(c, req, p, existing, desired, self, next, listing[1..]);
      LocalChain(g.s.w, next.s.w, GateAll(c, req, p, existing, desired, self, next, listing[1..]).s.w, p);
    }
  }

  lemma RemoveUserLocal(c: Client, p: Place, s: Step, u: Id)
    ensures Local(s.w, RemoveUser(c, p, s, u).w, p)
  {
    var w1 := RemoveMember(c, s.w, p, u).0;
    RemoveLocal(c, s.w, p, u);
    var next := Unmark(w1.books.memory, Key(p, u));
    var w2 := SaveTo(c, w1, next).0;
    SaveLocal(c, w1, p, next);
    LocalChain(s.w, w1, w2, p);
    ResetLocal(c, w2, p, Key(p, u));
    LocalChain(s.w, w2, ResetAbsent(c, w2, Key(p, u)).0, p);
  }

  lemma {:induction false} RemoveAllLocal(c: Client, p: Place, s: Step, removals: seq<Id>)
    ensures Local(s.w, RemoveAll(c, p, s, removals).w, p)
    decreases removals
  {
    if removals != [] && s.error.None? {
      var next := RemoveUser(c, p, s, removals[0]);
      RemoveUserLocal(c, p, s, removals[0]);
      RemoveAllLocal(c, p, next, removals[1..]);
      LocalChain(s.w, next.w, RemoveAll(c, p, next, removals[1..]).w, p);
    }
  }

  lemma CloseLocal(c: Client, req: Request, p: Place, existing: Roster, listing: seq<Id>, desired: set<Id>, s: Step)
    requires forall u <- listing :: u in existing
    ensures Local(s.w, Close(c, req, p, existing, listing, desired, s).w, p)
  {
    var g0 := Gate(s.(w := Call(s.w)), [], false);
    var g := GateAll(c, req, p, existing, desired, c.self(s.w.tick), g0, listing);
    CallLocal(s.w, p);
    GateAllLocal(c, req, p, existing, desired, c.self(s.w.tick), g0, listing);
    LocalChain(s.w, Call(s.w), g.s.w, p);
    RemoveAllLocal(c, p, g.s, g.removals);
    LocalChain(s.w, g.s.w, RemoveAll(c, p, g.s, g.removals).w, p);
  }

  lemma OpenLocal(c: Client, req: Request, t: Target, created: bool, w: World)
    ensures Local(w, Open(c, req, t, created, w).s.w, Place(c.owner, t.id))
  {
    OpenFrame(c, req, t, created, w);
  }

  /** One pass, failing wherever it may. */
  lemma PassLocal(c: Client, req: Request, t: Target, created: bool, w: World)
    requires c.Valid()
    ensures Local(w, Pass(c, req, t, created, w).w, Place(c.owner, t.id))
  {
    var p := Place(c.owner, t.id);
    var o := Open(c, req, t, created, w);
    OpenLocal(c, req, t, created, w);
    if o.s.error.None? {
      OpenLists(c, req, t, created, w);
      EnsureAllLocal(c, req, p, o.existing, o.s, o.desired, c.ranging(o.s.w.tick, o.desired.Keys));
      var s := Raised(c, req, t, created, w);
      LocalChain(w, o.s.w, s.w, p);
      if s.error.None? && s.r.unresolved == 0 {
        CloseLocal(c, req, p, o.existing, o.order, o.desired.Keys, s);
        LocalChain(w, s.w, Close(c, req, p, o.existing, o.order, o.desired.Keys, s).w, p);
      }
    }
  }

  /** The whole operation: creating groups loses nobody either. */
  lemma SyncTraced(c: Client, req: Request, w: World)
    requires c.Valid()
    ensures Traced(w, SyncGroup(c, req, w).w)
  {
    var e := EnsureGroup(c, w, req.targetPath, req.targetParent, req.createGroup);
    EnsureGroupExtends(c, w, req.targetPath, req.targetParent, req.createGroup);
    ExtendsTraced(w, e.w);
    if e.error.None? && e.target.Some? {
      PassLocal(c, req, e.target.value, e.created, e.w);
      TracedChain(w, e.w, SyncGroup(c, req, w).w);
    }
  }

  /** Without leave to create, looking for the group changes nothing. */
  lemma FoundOnly(c: Client, w: World, fullPath: string, parentPath: string)
    ensures var e := EnsureGroup(c, w, fullPath, parentPath, false); e.w == w.(tick := e.w.tick)
  {
  }

  /** The operation under one ownership key leaves what is recorded under every other key alone. */
  lemma SyncElsewhere(c: Client, req: Request, w: World, q: Place)
    requires c.Valid() && !req.createGroup && q.owner != c.owner
    ensures var out := SyncGroup(c, req, w).w;
      out.Roster(q) == w.Roster(q) && SameClaims(w.books.memory, out.books.memory, q)
  {
    FoundOnly(c, w, req.targetPath, req.targetParent);
    var e := EnsureGroup(c, w, req.targetPath, req.targetParent, req.createGroup);
    if e.error.None? && e.target.Some? {
      PassLocal(c, req, e.target.value, e.created, e.w);
    }
  }

  ghost predicate SameClaims(a: Ledger, b: Ledger, q: Place) {
    forall u :: Key(q, u) in b.records <==> Key(q, u) in a.records
  }

  lemma ExtendsTraced(w: World, w1: World)
    requires Extends(w, w1)
    ensures Traced(w, w1)
  {
  }
}

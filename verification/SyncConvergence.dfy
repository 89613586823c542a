/**
 Convergence: under authoritative prune on an owned binding, two fault-free
 passes from any history make the direct members exactly the desired and the
 exempt ones, and a third pass changes nothing and says so.
*/
module SyncConvergence {
  import opened Wrappers
  import opened Ledger
  import opened Sizes
  import opened Text
  import opened Sync
  import opened SyncSafety
  import opened SyncBinding
  import opened SyncGate

  // ----- the conditions -----

  ghost predicate FaultFree(c: Client) {
    forall t: nat :: c.fault(t) == Smooth
  }

  ghost predicate SteadySelf(c: Client, self: Id) {
    forall t: nat :: c.self(t) == self
  }

  ghost function ResolvedAt(c: Client, req: Request, t: nat): Resolution {
    ResolveAll(c, req.group.members, req.identityMatch, Resolution(t, map[], 0, None))
  }

  /** Whenever asked, the source's members resolve to exactly these active users. */
  ghost predicate ResolvesTo(c: Client, req: Request, desired: set<Id>) {
    forall t: nat :: ResolvedAt(c, req, t).error.None? && ResolvedAt(c, req, t).unresolved == 0
      && ResolvedAt(c, req, t).desired.Keys == desired
  }

  /** A member that needs no change: at the level, or beyond GroupBridge's reach and high enough. */
  predicate Content(req: Request, m: Member) {
    !RoleConflict(req, m) && (m.customRole || !NeedsLevel(req, m))
  }

  /** What being content means for access. */
  lemma ContentLevel(req: Request, m: Member)
    requires Content(req, m)
    ensures m.level >= LevelOf(req.accessLevel)
    ensures req.enforce && m.level < OWNER_LEVEL ==> m.level == LevelOf(req.accessLevel)
  {
  }

  /** The members an authoritative pass would like gone. */
  ghost function Candidates(c: Client, req: Request, self: Id, desired: set<Id>, roster: Roster): set<Id> {
    set u | u in roster && u !in desired && !Exempt(c, req, self, u, roster[u])
  }

  ghost predicate Counted(l: Ledger) {
    forall m <- l.absences :: l.absences[m] >= 0
  }

  // ----- additions -----

  ghost predicate Agree(existing: Roster, roster: Roster, users: seq<Id>) {
    forall u <- users :: (u in existing <==> u in roster) && (u in existing ==> roster[u] == existing[u])
  }

  lemma ResetFree(c: Client, w: World, m: Membership)
    requires FaultFree(c)
    ensures ResetAbsent(c, w, m).1
    ensures ResetAbsent(c, w, m).0.members == w.members
  {
  }

  lemma AddNewFree(c: Client, req: Request, p: Place, s: Step, user: User)
    requires FaultFree(c) && s.error.None? && user.id !in s.w.Roster(p)
    ensures var out := AddNew(c, req, p, s, user);
      && out.error.None?
      && user.id in out.w.Roster(p) && Content(req, out.w.Roster(p)[user.id])
  {
    assert c.fault(s.w.tick) == Smooth;
    assert c.fault(s.w.tick + 1) == Smooth;
    assert c.fault(s.w.tick + 2) == Smooth;
  }

  lemma RelevelFree(c: Client, req: Request, p: Place, s: Step, user: User)
    requires FaultFree(c) && s.error.None? && req.prune != "managed-only"
    requires user.id in s.w.Roster(p) && !s.w.Roster(p)[user.id].customRole
    ensures var out := Relevel(c, req, p, s, user);
      && out.error.None?
      && user.id in out.w.Roster(p) && Content(req, out.w.Roster(p)[user.id])
  {
    assert c.fault(s.w.tick) == Smooth;
    assert c.fault(s.w.tick + 1) == Smooth;
  }

  lemma EnsureUserFree(c: Client, req: Request, p: Place, existing: Roster, s: Step, user: User)
    requires FaultFree(c) && s.error.None? && req.prune != "managed-only"
    requires Agree(existing, s.w.Roster(p), [user.id])
    requires user.id in existing ==> !RoleConflict(req, existing[user.id])
    ensures var out := EnsureUser(c, req, p, existing, s, user);
      && out.error.None?
      && user.id in out.w.Roster(p) && Content(req, out.w.Roster(p)[user.id])
      && (user.id in existing && Content(req, existing[user.id]) ==> out.w.members == s.w.members && out.r == s.r)
  {
    assert user.id in [user.id];
    ResetFree(c, s.w, Key(p, user.id));
    var s1 := s.(w := ResetAbsent(c, s.w, Key(p, user.id)).0);
    assert s1.w.Roster(p) == s.w.Roster(p);
    if user.id !in existing {
      AddNewFree(c, req, p, s1, user);
    } else if !existing[user.id].customRole && NeedsLevel(req, existing[user.id]) {
      RelevelFree(c, req, p, s1, user);
    }
  }

  lemma {:induction false} EnsureAllFree(
      c: Client, req: Request, p: Place, existing: Roster, s: Step, desired: map<Id, User>, order: seq<Id>)
    requires FaultFree(c) && s.error.None? && req.prune != "managed-only"
    requires forall u <- order :: u in desired && desired[u].id == u
    requires Distinct(order) && Agree(existing, s.w.Roster(p), order)
    requires forall u <- order :: u in existing ==> !RoleConflict(req, existing[u])
    ensures var out := EnsureAll(c, req, p, existing, s, desired, order);
      && out.error.None?
      && (forall u <- order :: u in out.w.Roster(p) && Content(req, out.w.Roster(p)[u]))
      && ((forall u <- order :: u in existing && Content(req, existing[u])) ==>
        out.w.members == s.w.members && out.r == s.r)
    decreases order
  {
    if order != [] {
      var u := order[0];
      var next := EnsureUser(c, req, p, existing, s, desired[u]);
      assert forall x <- order[1..] :: x in order && x != u;
      EnsureUserFree(c, req, p, existing, s, desired[u]);
      EnsureUserOnly(c, req, p, existing, s, desired[u]);
      EnsureAllFree(c, req, p, existing, next, desired, order[1..]);
      EnsureAllOnly(c, req, p, existing, next, desired, order[1..]);
      assert u !in order[1..];
      assert forall x <- order :: x == u || x in order[1..];
    }
  }

  // ----- the gate -----

  /** Absent for long enough that this pass may remove. */
  ghost predicate Due(req: Request, p: Place, l: Ledger, u: Id) {
    req.immediate || l.Observations(Key(p, u)) >= 1
  }

  ghost predicate Candidate(c: Client, req: Request, existing: Roster, desired: set<Id>, self: Id, u: Id) {
    u in existing && u !in desired && !Exempt(c, req, self, u, existing[u])
  }

  lemma GateUserFree(c: Client, req: Request, p: Place, existing: Roster, desired: set<Id>, self: Id, g: Gate, u: Id)
    requires FaultFree(c) && g.s.error.None? && req.prune == "authoritative" && u in existing
    ensures var next := GateUser(c, req, p, desired, self, g, u, existing[u]); var l := g.s.w.books.memory;
      && next.s.error.None?
      && next.removals == (if Candidate(c, req, existing, desired, self, u) && Due(req, p, l, u) then g.removals + [u]
        else g.removals)
      && next.pending == (g.pending || (Candidate(c, req, existing, desired, self, u) && !Due(req, p, l, u)))
      && next.s.w.books.memory.Observations(Key(p, u)) ==
           l.Observations(Key(p, u))
             + (if Candidate(c, req, existing, desired, self, u) && !req.immediate then 1 else 0)
      && (forall m: Membership :: m != Key(p, u) ==> next.s.w.books.memory.Observations(m) == l.Observations(m))
  {
    assert c.fault(g.s.w.tick) == Smooth;
  }

  lemma {:induction false} GateAllFree(
      c: Client, req: Request, p: Place, existing: Roster, desired: set<Id>, self: Id, g: Gate, listing: seq<Id>)
    requires FaultFree(c) && g.s.error.None? && req.prune == "authoritative"
    requires forall u <- listing :: u in existing
    requires Distinct(listing)
    ensures var out := GateAll(c, req, p, existing, desired, self, g, listing); var l := g.s.w.books.memory;
      && out.s.error.None?
      && (forall u :: u in out.removals <==>
            u in g.removals || (u in listing && Candidate(c, req, existing, desired, self, u) && Due(req, p, l, u)))
      && (out.pending <==> g.pending || exists u <- listing ::
        Candidate(c, req, existing, desired, self, u) && !Due(req, p, l, u))
      && (forall m: Membership :: out.s.w.books.memory.Observations(m) ==
            l.Observations(m) + (if m == Key(p, m.userId) && m.userId in listing
              && Candidate(c, req, existing, desired, self, m.userId) && !req.immediate then 1 else 0))
    decreases listing
  {
    if listing != [] {
      var u := listing[0];
      var next := GateUser(c, req, p, desired, self, g, u, existing[u]);
      GateUserFree(c, req, p, existing, desired, self, g, u);
      GateAllFree(c, req, p, existing, desired, self, next, listing[1..]);
      assert forall x :: x in listing <==> x == u || x in listing[1..];
      assert u !in listing[1..];
      forall x | x in listing[1..]
        ensures Due(req, p, next.s.w.books.memory, x) <==> Due(req, p, g.s.w.books.memory, x)
      {
        assert Key(p, x) != Key(p, u);
      }
    }
  }

  // ----- the removals -----

  lemma RemoveUserFree(c: Client, p: Place, s: Step, u: Id)
    requires FaultFree(c) && s.error.None?
    ensures RemoveUser(c, p, s, u).error.None?
  {
  }

  lemma RemoveUserCounted(c: Client, p: Place, s: Step, u: Id)
    requires Counted(s.w.books.memory)
    ensures Counted(RemoveUser(c, p, s, u).w.books.memory)
  {
    var (w1, removed) := RemoveMember(c, s.w, p, u);
    assert Counted(w1.books.memory);
    if removed {
      var (w2, unmarked) := SaveTo(c, w1, Unmark(w1.books.memory, Key(p, u)));
      assert Counted(w2.books.memory);
    }
  }

  lemma {:induction false} RemoveAllFree(c: Client, p: Place, s: Step, removals: seq<Id>)
    requires FaultFree(c) && s.error.None?
    requires Counted(s.w.books.memory)
    ensures RemoveAll(c, p, s, removals).error.None?
    ensures Counted(RemoveAll(c, p, s, removals).w.books.memory)
    ensures removals == [] ==> RemoveAll(c, p, s, removals) == s
    decreases removals
  {
    if removals != [] {
      RemoveUserFree(c, p, s, removals[0]);
      RemoveUserCounted(c, p, s, removals[0]);
      RemoveAllFree(c, p, RemoveUser(c, p, s, removals[0]), removals[1..]);
    }
  }

  lemma {:induction false} DistinctBound(q: seq<Id>, s: set<Id>)
    requires Distinct(q) && forall u <- q :: u in s
    ensures |q| <= |s|
  {
    if q != [] {
      assert forall u <- q[1..] :: u in q && u != q[0];
      DistinctBound(q[1..], s - {q[0]});
      assert q[0] in q;
    }
  }

  // ----- one fault-free pass -----

  /** Everything a fault-free authoritative pass needs from its surroundings. */
  ghost predicate Ready(c: Client, req: Request, t: Target, created: bool, w: World, self: Id, desired: set<Id>) {
    var roster := w.Roster(Place(c.owner, t.id));
    && c.Valid() && FaultFree(c) && SteadySelf(c, self) && ResolvesTo(c, req, desired)
    && req.prune == "authoritative"
    && BooksWellFormed(w)
    && Bind(c, req, t, created, w.books.memory).Bound?
    && Counted(w.books.memory)
    && (forall u <- desired :: u in roster ==> !RoleConflict(req, roster[u]))
    && |Candidates(c, req, self, desired, roster)| <= req.maxRemovals
  }

  /** How one such pass changes the roster. */
  ghost predicate Progress(c: Client, req: Request, p: Place, self: Id, desired: set<Id>, w: World, w1: World) {
    && (forall u <- desired :: u in w1.Roster(p) && Content(req, w1.Roster(p)[u]))
    && (forall u :: u !in desired ==> (u in w1.Roster(p) <==>
          u in w.Roster(p) && !(u in Candidates(c, req, self, desired, w.Roster(p)) && Due(req, p, w.books.memory, u))))
    && (forall u <- w1.Roster(p) :: u !in desired ==> w1.Roster(p)[u] == w.Roster(p)[u])
    && (forall u <- Candidates(c, req, self, desired, w1.Roster(p)) :: Due(req, p, w1.books.memory, u))
    && Counted(w1.books.memory)
  }

  ghost predicate AllDue(c: Client, req: Request, p: Place, self: Id, desired: set<Id>, w: World) {
    forall u <- Candidates(c, req, self, desired, w.Roster(p)) :: Due(req, p, w.books.memory, u)
  }

  /** The target already is as desired. */
  ghost predicate AtRest(c: Client, req: Request, p: Place, self: Id, desired: set<Id>, w: World) {
    && (forall u <- desired :: u in w.Roster(p) && Content(req, w.Roster(p)[u]))
    && Candidates(c, req, self, desired, w.Roster(p)) == {}
  }

  lemma OpenFree(c: Client, req: Request, t: Target, created: bool, w: World, self: Id, desired: set<Id>)
    requires Ready(c, req, t, created, w, self, desired)
    ensures var o := Open(c, req, t, created, w); var p := Place(c.owner, t.id);
      && o.s.error.None? && o.s.r == NOTHING.(created := created)
      && o.desired.Keys == desired && o.existing == w.Roster(p)
      && o.s.w.members == w.members && o.s.w.log == w.log && o.s.w.groups == w.groups
      && o.s.w.books.memory.absences == w.books.memory.absences
      && (forall u <- o.desired :: o.desired[u].id == u)
  {
    assert c.fault(w.tick) == Smooth;
    assert c.fault(w.tick + 1) == Smooth;
    assert ResolvedAt(c, req, w.tick + 2).error.None?;
    OpenFrame(c, req, t, created, w);
  }

  lemma RaisedFree(c: Client, req: Request, t: Target, created: bool, w: World, self: Id, desired: set<Id>)
    requires Ready(c, req, t, created, w, self, desired)
    requires Open(c, req, t, created, w).s.error.None?
    ensures var p := Place(c.owner, t.id); var s := Raised(c, req, t, created, w); var roster := w.Roster(p);
      && s.error.None? && s.r.unresolved == 0 && !s.r.converged
      && (forall u <- desired :: u in s.w.Roster(p) && Content(req, s.w.Roster(p)[u]))
      && OthersStay(p, desired, w, s.w)
      && (AtRest(c, req, p, self, desired, w) ==> s.w.members == w.members && s.r == NOTHING.(created := created))
  {
    var p := Place(c.owner, t.id);
    var o := Open(c, req, t, created, w);
    OpenFree(c, req, t, created, w, self, desired);
    OpenLists(c, req, t, created, w);
    RaisedUnconverged(c, req, t, created, w);
    RaisedOthers(c, req, t, created, w);
    var order := c.ranging(o.s.w.tick, o.desired.Keys);
    assert forall u :: u in order <==> u in desired;
    EnsureAllFree(c, req, p, o.existing, o.s, o.desired, order);
    EnsureAllOnly(c, req, p, o.existing, o.s, o.desired, order);
  }

  /** Members and absences of everybody who is not desired are as they were. */
  ghost predicate OthersStay(p: Place, desired: set<Id>, w: World, w1: World) {
    && (forall u :: u !in desired ==>
      (u in w1.Roster(p) <==> u in w.Roster(p)) && (u in w.Roster(p) ==> w1.Roster(p)[u] == w.Roster(p)[u]))
    && (forall m: Membership :: m.userId !in desired ==>
      w1.books.memory.Observations(m) == w.books.memory.Observations(m))
  }

  lemma RaisedOthers(c: Client, req: Request, t: Target, created: bool, w: World)
    requires c.Valid() && Open(c, req, t, created, w).s.error.None?
    ensures OthersStay(Place(c.owner, t.id), Open(c, req, t, created, w).desired.Keys, w,
      Raised(c, req, t, created, w).w)
  {
    var p := Place(c.owner, t.id);
    var o := Open(c, req, t, created, w);
    OpenFrame(c, req, t, created, w);
    OpenLists(c, req, t, created, w);
    var order := c.ranging(o.s.w.tick, o.desired.Keys);
    EnsureAllOnly(c, req, p, o.existing, o.s, o.desired, order);
    OnlyStay(p, order, o.desired.Keys, w, o.s.w, Raised(c, req, t, created, w).w);
  }

  lemma OnlyStay(p: Place, users: seq<Id>, desired: set<Id>, w: World, w1: World, w2: World)
    requires w1.members == w.members && w1.books.memory.absences == w.books.memory.absences
    requires EnsuresOnly(w1, w2, p, users) && forall u <- users :: u in desired
    ensures OthersStay(p, desired, w, w2)
  {
    assert w1.Roster(p) == w.Roster(p);
    assert forall m: Membership :: w1.books.memory.Observations(m) == w.books.memory.Observations(m);
  }

  lemma {:induction false} EnsureAllCounted(
      c: Client, req: Request, p: Place, existing: Roster, s: Step, desired: map<Id, User>, order: seq<Id>)
    requires forall u <- order :: u in desired
    requires Counted(s.w.books.memory)
    ensures Counted(EnsureAll(c, req, p, existing, s, desired, order).w.books.memory)
    decreases order
  {
    if order != [] && s.error.None? {
      EnsureUserCounted(c, req, p, existing, s, desired[order[0]]);
      EnsureAllCounted(c, req, p, existing, EnsureUser(c, req, p, existing, s, desired[order[0]]), desired, order[1..]);
    }
  }

  lemma EnsureUserCounted(c: Client, req: Request, p: Place, existing: Roster, s: Step, user: User)
    requires Counted(s.w.books.memory)
    ensures Counted(EnsureUser(c, req, p, existing, s, user).w.books.memory)
  {
    var (w1, reset) := ResetAbsent(c, s.w, Key(p, user.id));
    var s1 := s.(w := w1);
    assert Counted(w1.books.memory);
    AddNewAbsences(c, req, p, s1, user);
    RelevelAbsences(c, req, p, s1, user);
  }

  lemma AddNewAbsences(c: Client, req: Request, p: Place, s: Step, user: User)
    ensures AddNew(c, req, p, s, user).w.books.memory.absences == s.w.books.memory.absences
  {
    AddMemberBooks(c, s.w, p, user, LevelOf(req.accessLevel));
  }

  lemma RelevelAbsences(c: Client, req: Request, p: Place, s: Step, user: User)
    ensures Relevel(c, req, p, s, user).w.books.memory.absences == s.w.books.memory.absences
  {
  }

  /** The gate of a fault-free pass, from the state the additions left. */
  lemma GatedFree(
      c: Client, req: Request, p: Place, existing: Roster, listing: seq<Id>, desired: set<Id>, s: Step, self: Id)
    requires FaultFree(c) && SteadySelf(c, self) && s.error.None? && req.prune == "authoritative"
    requires Enumerates(listing, existing.Keys)
    requires Counted(s.w.books.memory)
    ensures var g := Gated(c, req, p, existing, listing, desired, s); var l := s.w.books.memory;
      && g.s.error.None? && Distinct(g.removals)
      && g.s.w.members == s.w.members
      && g.s.r.added == s.r.added && g.s.r.updated == s.r.updated && g.s.r.removed == s.r.removed
      && (forall u :: u in g.removals <==> Candidate(c, req, existing, desired, self, u) && Due(req, p, l, u))
      && (g.pending <==> exists u <- existing :: Candidate(c, req, existing, desired, self, u) && !Due(req, p, l, u))
      && (forall u :: Candidate(c, req, existing, desired, self, u) && !Due(req, p, l, u) ==>
        Due(req, p, g.s.w.books.memory, u))
      && Counted(g.s.w.books.memory)
  {
    assert c.self(s.w.tick) == self;
    var g0 := Gate(s.(w := Call(s.w)), [], false);
    assert forall u :: u in listing <==> u in existing;
    GateAllFree(c, req, p, existing, desired, self, g0, listing);
    GateAllShape(c, req, p, existing, desired, self, g0, listing);
    var g := Gated(c, req, p, existing, listing, desired, s);
    forall u | Candidate(c, req, existing, desired, self, u) && !Due(req, p, s.w.books.memory, u)
      ensures Due(req, p, g.s.w.books.memory, u)
    {
      assert s.w.books.memory.Observations(Key(p, u)) >= 0;
    }
    forall m | m in g.s.w.books.memory.absences
      ensures g.s.w.books.memory.absences[m] >= 0
    {
      assert g.s.w.books.memory.Observations(m) >= s.w.books.memory.Observations(m) >= 0;
    }
  }

  /** What the last phase makes of the roster it finds. */
  ghost predicate Closed(
      c: Client, req: Request, p: Place, existing: Roster, desired: set<Id>, self: Id, w: World, w1: World)
  {
    && (forall u :: u in w1.Roster(p) <==>
          u in w.Roster(p) && !(Candidate(c, req, existing, desired, self, u) && Due(req, p, w.books.memory, u)))
    && (forall u <- w1.Roster(p) :: w1.Roster(p)[u] == w.Roster(p)[u])
    && (forall u :: Candidate(c, req, existing, desired, self, u) && !Due(req, p, w.books.memory, u) ==>
      Due(req, p, w1.books.memory, u))
    && Counted(w1.books.memory)
  }

  lemma RemovalsClosed(
      c: Client, req: Request, p: Place, existing: Roster, desired: set<Id>, self: Id, w: World, g: Gate, w1: World)
    requires g.s.w.members == w.members
    requires forall u :: u in g.removals <==>
      Candidate(c, req, existing, desired, self, u) && Due(req, p, w.books.memory, u)
    requires forall u :: Candidate(c, req, existing, desired, self, u) && !Due(req, p, w.books.memory, u) ==>
      Due(req, p, g.s.w.books.memory, u)
    requires RemovesOnly(g.s.w, w1, p, g.removals) && Counted(w1.books.memory)
    requires forall u <- g.removals :: u !in w1.Roster(p)
    ensures Closed(c, req, p, existing, desired, self, w, w1)
  {
    assert g.s.w.Roster(p) == w.Roster(p);
    forall u | Candidate(c, req, existing, desired, self, u) && !Due(req, p, w.books.memory, u)
      ensures Due(req, p, w1.books.memory, u)
    {
      assert u !in g.removals;
      assert w1.books.memory.Observations(Key(p, u)) == g.s.w.books.memory.Observations(Key(p, u));
    }
  }

  lemma CloseFree(
      c: Client, req: Request, p: Place, existing: Roster, listing: seq<Id>, desired: set<Id>, s: Step, self: Id)
    requires FaultFree(c) && SteadySelf(c, self) && s.error.None? && req.prune == "authoritative"
    requires Enumerates(listing, existing.Keys)
    requires Counted(s.w.books.memory)
    requires |Candidates(c, req, self, desired, existing)| <= req.maxRemovals
    ensures var out := Close(c, req, p, existing, listing, desired, s);
      && out.error.None?
      && Closed(c, req, p, existing, desired, self, s.w, out.w)
      && (out.r.converged <==> forall u <- existing :: Candidate(c, req, existing, desired, self, u) ==>
        Due(req, p, s.w.books.memory, u))
      && (Candidates(c, req, self, desired, existing) == {} ==>
            out.w.members == s.w.members && out.r.added == s.r.added && out.r.updated == s.r.updated
              && out.r.removed == s.r.removed)
  {
    GatedFree(c, req, p, existing, listing, desired, s, self);
    var g := Gated(c, req, p, existing, listing, desired, s);
    assert Acknowledged(c.fault(s.w.tick));
    DistinctBound(g.removals, Candidates(c, req, self, desired, existing));
    RemoveAllFree(c, p, g.s, g.removals);
    RemoveAllOnly(c, p, g.s, g.removals);
    var s2 := RemoveAll(c, p, g.s, g.removals);
    RemovalsClosed(c, req, p, existing, desired, self, s.w, g, s2.w);
  }

  /** The gate never lists a removal twice and never touches GitLab. */
  lemma {:induction false} GateAllShape(
      c: Client, req: Request, p: Place, existing: Roster, desired: set<Id>, self: Id, g: Gate, listing: seq<Id>)
    requires forall u <- listing :: u in existing && u !in g.removals
    requires Distinct(listing) && Distinct(g.removals)
    ensures var out := GateAll(c, req, p, existing, desired, self, g, listing);
      && Distinct(out.removals) && out.s.w.members == g.s.w.members
      && out.s.r.added == g.s.r.added && out.s.r.updated == g.s.r.updated && out.s.r.removed == g.s.r.removed
    decreases listing
  {
    if listing != [] && g.s.error.None? {
      var u := listing[0];
      var next := GateUser(c, req, p, desired, self, g, u, existing[u]);
      assert next.removals == g.removals || next.removals == g.removals + [u];
      assert forall x <- listing[1..] :: x in listing && x != u;
      GateAllShape(c, req, p, existing, desired, self, next, listing[1..]);
    }
  }

  lemma ClosedProgress(c: Client, req: Request, p: Place, self: Id, desired: set<Id>, w: World, w1: World, w2: World)
    requires forall u <- desired :: u in w1.Roster(p) && Content(req, w1.Roster(p)[u])
    requires forall u :: u !in desired ==>
      (u in w1.Roster(p) <==> u in w.Roster(p)) && (u in w.Roster(p) ==> w1.Roster(p)[u] == w.Roster(p)[u])
    requires forall m: Membership :: m.userId !in desired ==>
      w1.books.memory.Observations(m) == w.books.memory.Observations(m)
    requires Closed(c, req, p, w.Roster(p), desired, self, w1, w2)
    ensures Progress(c, req, p, self, desired, w, w2)
  {
    forall u
      ensures u !in desired ==> (Due(req, p, w1.books.memory, u) <==> Due(req, p, w.books.memory, u))
      ensures Candidate(c, req, w.Roster(p), desired, self, u) <==> u in Candidates(c, req, self, desired, w.Roster(p))
    {
    }
    forall u | u in Candidates(c, req, self, desired, w2.Roster(p))
      ensures Due(req, p, w2.books.memory, u)
    {
      assert u in w1.Roster(p) && w2.Roster(p)[u] == w1.Roster(p)[u] == w.Roster(p)[u];
      assert Candidate(c, req, w.Roster(p), desired, self, u);
    }
  }

  lemma PassFree(c: Client, req: Request, t: Target, created: bool, w: World, self: Id, desired: set<Id>)
    requires Ready(c, req, t, created, w, self, desired)
    ensures var p := Place(c.owner, t.id); var out := Pass(c, req, t, created, w);
      && out.error.None?
      && Progress(c, req, p, self, desired, w, out.w)
      && (out.r.converged <==> AllDue(c, req, p, self, desired, w))
      && (AtRest(c, req, p, self, desired, w) ==>
            out.w.members == w.members && out.r.added == 0 && out.r.updated == 0 && out.r.removed == 0)
  {
    var p := Place(c.owner, t.id);
    var o := Open(c, req, t, created, w);
    OpenFree(c, req, t, created, w, self, desired);
    OpenLists(c, req, t, created, w);
    RaisedFree(c, req, t, created, w, self, desired);
    var s := Raised(c, req, t, created, w);
    assert Counted(o.s.w.books.memory);
    EnsureAllCounted(c, req, p, o.existing, o.s, o.desired, c.ranging(o.s.w.tick, o.desired.Keys));
    CloseFree(c, req, p, o.existing, o.order, desired, s, self);
    var out := Close(c, req, p, o.existing, o.order, desired, s);
    assert Pass(c, req, t, created, w) == out;
    ClosedProgress(c, req, p, self, desired, w, s.w, out.w);
    DueAgree(c, req, p, self, desired, w, s.w);
  }

  /** The additions leave the verdict on every candidate alone. */
  lemma DueAgree(c: Client, req: Request, p: Place, self: Id, desired: set<Id>, w: World, w1: World)
    requires forall m: Membership :: m.userId !in desired ==>
      w1.books.memory.Observations(m) == w.books.memory.Observations(m)
    ensures AllDue(c, req, p, self, desired, w) <==>
      forall u <- w.Roster(p) :: Candidate(c, req, w.Roster(p), desired, self, u) ==> Due(req, p, w1.books.memory, u)
  {
    forall u | u in w.Roster(p)
      ensures u in Candidates(c, req, self, desired, w.Roster(p)) ==>
        (Due(req, p, w1.books.memory, u) <==> Due(req, p, w.books.memory, u))
      ensures Candidate(c, req, w.Roster(p), desired, self, u) <==> u in Candidates(c, req, self, desired, w.Roster(p))
    {
    }
  }

  // ----- from one pass to the next -----

  lemma EnsureUserSites(c: Client, req: Request, p: Place, existing: Roster, s: Step, user: User)
    ensures EnsureUser(c, req, p, existing, s, user).w.groups == s.w.groups
  {
    var s1 := s.(w := ResetAbsent(c, s.w, Key(p, user.id)).0);
    assert s1.w.groups == s.w.groups;
    AddNewSites(c, req, p, s1, user);
    RelevelSites(c, req, p, s1, user);
  }

  lemma AddNewSites(c: Client, req: Request, p: Place, s: Step, user: User)
    ensures AddNew(c, req, p, s, user).w.groups == s.w.groups
  {
  }

  lemma RelevelSites(c: Client, req: Request, p: Place, s: Step, user: User)
    ensures Relevel(c, req, p, s, user).w.groups == s.w.groups
  {
  }

  lemma {:induction false} EnsureAllSites(
      c: Client, req: Request, p: Place, existing: Roster, s: Step, desired: map<Id, User>, order: seq<Id>)
    requires forall u <- order :: u in desired
    ensures EnsureAll(c, req, p, existing, s, desired, order).w.groups == s.w.groups
    decreases order
  {
    if order != [] && s.error.None? {
      EnsureUserSites(c, req, p, existing, s, desired[order[0]]);
      EnsureAllSites(c, req, p, existing, EnsureUser(c, req, p, existing, s, desired[order[0]]), desired, order[1..]);
    }
  }

  lemma {:induction false} GateAllSites(
      c: Client, req: Request, p: Place, existing: Roster, desired: set<Id>, self: Id, g: Gate, listing: seq<Id>)
    requires forall u <- listing :: u in existing
    ensures GateAll(c, req, p, existing, desired, self, g, listing).s.w.groups == g.s.w.groups
    decreases listing
  {
    if listing != [] && g.s.error.None? {
      GateAllSites(c, req, p, existing, desired, self,
        GateUser(c, req, p, desired, self, g, listing[0], existing[listing[0]]), listing[1..]);
    }
  }

  lemma {:induction false} RemoveAllSites(c: Client, p: Place, s: Step, removals: seq<Id>)
    ensures RemoveAll(c, p, s, removals).w.groups == s.w.groups
    decreases removals
  {
    if removals != [] && s.error.None? {
      RemoveAllSites(c, p, RemoveUser(c, p, s, removals[0]), removals[1..]);
    }
  }

  lemma CloseSites(c: Client, req: Request, p: Place, existing: Roster, listing: seq<Id>, desired: set<Id>, s: Step)
    requires forall u <- listing :: u in existing
    ensures Close(c, req, p, existing, listing, desired, s).w.groups == s.w.groups
  {
    var g0 := Gate(s.(w := Call(s.w)), [], false);
    var self := c.self(s.w.tick);
    GateAllSites(c, req, p, existing, desired, self, g0, listing);
    var g := GateAll(c, req, p, existing, desired, self, g0, listing);
    RemoveAllSites(c, p, g.s, g.removals);
  }

  lemma PassSites(c: Client, req: Request, t: Target, created: bool, w: World)
    requires c.Valid()
    ensures Pass(c, req, t, created, w).w.groups == w.groups
  {
    var p := Place(c.owner, t.id);
    var o := Open(c, req, t, created, w);
    OpenFrame(c, req, t, created, w);
    if o.s.error.None? {
      OpenLists(c, req, t, created, w);
      EnsureAllSites(c, req, p, o.existing, o.s, o.desired, c.ranging(o.s.w.tick, o.desired.Keys));
      CloseSites(c, req, p, o.existing, o.order, o.desired.Keys, Raised(c, req, t, created, w));
    }
  }

  /** A target that was ensured once is found again. */
  lemma EnsuredAgain(c: Client, req: Request, w: World, t: Target, w1: World)
    requires FaultFree(c)
    requires EnsureGroup(c, w, req.targetPath, req.targetParent, req.createGroup).error.None?
    requires t.path == TrimSlashes(req.targetPath) && Names(c, w1, t)
    ensures EnsureGroup(c, w1, req.targetPath, req.targetParent, req.createGroup)
      == Ensured(Call(w1), Some(t), false, None)
  {
  }

  lemma StillReady(c: Client, req: Request, t: Target, created: bool, w: World, self: Id, desired: set<Id>)
    requires Ready(c, req, t, created, w, self, desired)
    ensures Ready(c, req, t, false, Call(Pass(c, req, t, created, w).w), self, desired)
  {
    var p := Place(c.owner, t.id);
    var w1 := Call(Pass(c, req, t, created, w).w);
    PassFree(c, req, t, created, w, self, desired);
    PassWellFormed(c, req, t, created, w);
    PassGroups(c, req, t, created, w);
    BindAgain(c, req, t, created, w.books.memory, w1.books.memory);
    SubsetSize(Candidates(c, req, self, desired, w1.Roster(p)), Candidates(c, req, self, desired, w.Roster(p)));
  }

  lemma BindAgain(c: Client, req: Request, t: Target, created: bool, l: Ledger, l1: Ledger)
    requires l.WellFormed() && Bind(c, req, t, created, l).Bound?
    requires l1.groups == WithBinding(c, req, t, created, l)
    ensures Bind(c, req, t, false, l1).Bound?
  {
  }

  /** The target of a request in this world. */
  ghost predicate Finds(c: Client, req: Request, w: World, t: Target, created: bool) {
    var e := EnsureGroup(c, w, req.targetPath, req.targetParent, req.createGroup);
    e.error.None? && e.target == Some(t) && e.created == created
  }

  ghost function Found(c: Client, req: Request, w: World): World {
    EnsureGroup(c, w, req.targetPath, req.targetParent, req.createGroup).w
  }

  /** One fault-free run of the whole operation, ready for the next. */
  lemma FreeRun(c: Client, req: Request, w: World, t: Target, created: bool, self: Id, desired: set<Id>)
    requires c.Valid() && Finds(c, req, w, t, created)
    requires Ready(c, req, t, created, Found(c, req, w), self, desired)
    ensures var p := Place(c.owner, t.id); var e := Found(c, req, w); var out := SyncGroup(c, req, w);
      && out == Pass(c, req, t, created, e)
      && Finds(c, req, out.w, t, false) && Found(c, req, out.w) == Call(out.w)
      && Ready(c, req, t, false, Call(out.w), self, desired)
  {
    var e := Found(c, req, w);
    EnsureGroupExact(c, w, req.targetPath, req.targetParent, req.createGroup);
    StillReady(c, req, t, created, e, self, desired);
    PassSites(c, req, t, created, e);
    EnsuredAgain(c, req, w, t, SyncGroup(c, req, w).w);
  }

  /** The direct members are exactly the desired ones, at their level, and the untouched exempt ones. */
  ghost predicate Exact(c: Client, req: Request, self: Id, desired: set<Id>, before: Roster, after: Roster) {
    && after.Keys == desired + (set u | u in before && Exempt(c, req, self, u, before[u]))
    && (forall u <- desired :: after[u].level >= LevelOf(req.accessLevel)
          && (req.enforce && after[u].level < OWNER_LEVEL ==> after[u].level == LevelOf(req.accessLevel)))
    && (forall u <- after :: u !in desired ==> after[u] == before[u])
  }

  /**
   Two fault-free authoritative passes from any ledger and any target state leave
   exactly the desired members, each at the level, and the exempt ones untouched;
   a third changes nothing in GitLab and reports convergence.
  */
  lemma TwoPassesConverge(c: Client, req: Request, w: World, t: Target, created: bool, self: Id, desired: set<Id>)
    requires c.Valid() && Finds(c, req, w, t, created)
    requires Ready(c, req, t, created, Found(c, req, w), self, desired)
    ensures var p := Place(c.owner, t.id);
      var w2 := SyncGroup(c, req, SyncGroup(c, req, w).w).w; var third := SyncGroup(c, req, w2);
      && Exact(c, req, self, desired, Found(c, req, w).Roster(p), w2.Roster(p))
      && third.error.None? && third.r.converged
      && third.w.groups == w2.groups && third.w.members == w2.members && third.r.added == 0 && third.r.updated == 0
        && third.r.removed == 0
  {
    var p := Place(c.owner, t.id);
    var w1 := RunFree(c, req, w, t, created, self, desired);
    var w2 := RunFree(c, req, w1, t, false, self, desired);
    SecondPassExact(c, req, p, self, desired, Found(c, req, w), Found(c, req, w1), w2);
    ExactLevels(c, req, p, self, desired, Found(c, req, w), w2);
    RunAtRest(c, req, w2, t, self, desired);
  }

  /** A run that can be followed by another. */
  lemma RunFree(
      c: Client, req: Request, w: World, t: Target, created: bool, self: Id, desired: set<Id>) returns (w1: World)
    requires c.Valid() && Finds(c, req, w, t, created)
    requires Ready(c, req, t, created, Found(c, req, w), self, desired)
    ensures w1 == SyncGroup(c, req, w).w
    ensures Finds(c, req, w1, t, false) && Found(c, req, w1) == Call(w1)
    ensures Ready(c, req, t, false, Call(w1), self, desired)
    ensures Progress(c, req, Place(c.owner, t.id), self, desired, Found(c, req, w), w1)
  {
    FreeRun(c, req, w, t, created, self, desired);
    PassFree(c, req, t, created, Found(c, req, w), self, desired);
    w1 := SyncGroup(c, req, w).w;
  }

  /** A run on a target that is as it should be. */
  lemma RunAtRest(c: Client, req: Request, w: World, t: Target, self: Id, desired: set<Id>)
    requires c.Valid() && Finds(c, req, w, t, false) && Found(c, req, w) == Call(w)
    requires Ready(c, req, t, false, Call(w), self, desired)
    requires AtRest(c, req, Place(c.owner, t.id), self, desired, w)
      && AllDue(c, req, Place(c.owner, t.id), self, desired, w)
    ensures var out := SyncGroup(c, req, w);
      && out.error.None? && out.r.converged
      && out.w.groups == w.groups && out.w.members == w.members && out.r.added == 0 && out.r.updated == 0
        && out.r.removed == 0
  {
    FreeRun(c, req, w, t, false, self, desired);
    PassFree(c, req, t, false, Call(w), self, desired);
    PassSites(c, req, t, false, Call(w));
    assert Call(w).Roster(Place(c.owner, t.id)) == w.Roster(Place(c.owner, t.id));
  }

  lemma ExactLevels(c: Client, req: Request, p: Place, self: Id, desired: set<Id>, w: World, w2: World)
    requires w2.Roster(p).Keys == desired + (set u | u in w.Roster(p) && Exempt(c, req, self, u, w.Roster(p)[u]))
    requires forall u <- w2.Roster(p) :: u !in desired ==> w2.Roster(p)[u] == w.Roster(p)[u]
    requires AtRest(c, req, p, self, desired, w2)
    ensures Exact(c, req, self, desired, w.Roster(p), w2.Roster(p))
  {
  }

  /** What is due in the first pass goes then, what is not is due in the second. */
  lemma SecondPassExact(c: Client, req: Request, p: Place, self: Id, desired: set<Id>, w: World, w1: World, w2: World)
    requires Progress(c, req, p, self, desired, w, w1)
    requires Progress(c, req, p, self, desired, w1, w2)
    ensures w2.Roster(p).Keys == desired + (set u | u in w.Roster(p) && Exempt(c, req, self, u, w.Roster(p)[u]))
    ensures forall u <- w2.Roster(p) :: u !in desired ==> w2.Roster(p)[u] == w.Roster(p)[u]
    ensures AtRest(c, req, p, self, desired, w2)
    ensures AllDue(c, req, p, self, desired, w2)
  {
    forall u | u !in desired
      ensures u in w2.Roster(p) <==> u in w.Roster(p) && Exempt(c, req, self, u, w.Roster(p)[u])
    {
      if u in w1.Roster(p) {
        assert w1.Roster(p)[u] == w.Roster(p)[u];
        assert u in Candidates(c, req, self, desired, w1.Roster(p)) <==> !Exempt(c, req, self, u, w1.Roster(p)[u]);
      } else if u in w.Roster(p) {
        assert u in Candidates(c, req, self, desired, w.Roster(p));
      }
    }
  }

  // ----- success means applied, whatever was met on the way -----

  lemma EnsureUserApplied(c: Client, req: Request, p: Place, existing: Roster, s: Step, user: User)
    requires s.error.None? && Agree(existing, s.w.Roster(p), [user.id])
    requires EnsureUser(c, req, p, existing, s, user).error.None?
    ensures var out := EnsureUser(c, req, p, existing, s, user);
      user.id in out.w.Roster(p) && Content(req, out.w.Roster(p)[user.id])
  {
    assert user.id in [user.id];
    var (w1, reset) := ResetAbsent(c, s.w, Key(p, user.id));
    assert w1.members == s.w.members;
    var s1 := s.(w := w1);
    if user.id !in existing {
      AddNewApplied(c, req, p, s1, user);
    } else if !existing[user.id].customRole && NeedsLevel(req, existing[user.id]) {
      RelevelApplied(c, req, p, s1, user);
    }
  }

  lemma AddNewApplied(c: Client, req: Request, p: Place, s: Step, user: User)
    requires s.error.None? && user.id !in s.w.Roster(p)
    requires AddNew(c, req, p, s, user).error.None?
    ensures var out := AddNew(c, req, p, s, user); user.id in out.w.Roster(p) && Content(req, out.w.Roster(p)[user.id])
  {
  }

  lemma RelevelApplied(c: Client, req: Request, p: Place, s: Step, user: User)
    requires s.error.None? && user.id in s.w.Roster(p) && !s.w.Roster(p)[user.id].customRole
    requires Relevel(c, req, p, s, user).error.None?
    ensures var out := Relevel(c, req, p, s, user); user.id in out.w.Roster(p) && Content(req, out.w.Roster(p)[user.id])
  {
  }

  lemma {:induction false} EnsureAllApplied(
      c: Client, req: Request, p: Place, existing: Roster, s: Step, desired: map<Id, User>, order: seq<Id>)
    requires s.error.None?
    requires forall u <- order :: u in desired && desired[u].id == u
    requires Distinct(order) && Agree(existing, s.w.Roster(p), order)
    requires EnsureAll(c, req, p, existing, s, desired, order).error.None?
    ensures var out := EnsureAll(c, req, p, existing, s, desired, order);
      forall u <- order :: u in out.w.Roster(p) && Content(req, out.w.Roster(p)[u])
    decreases order
  {
    if order != [] {
      var u := order[0];
      var next := EnsureUser(c, req, p, existing, s, desired[u]);
      assert next.error.None?;
      assert forall x <- order[1..] :: x in order && x != u;
      assert u !in order[1..];
      EnsureUserApplied(c, req, p, existing, s, desired[u]);
      EnsureUserOnly(c, req, p, existing, s, desired[u]);
      EnsureAllApplied(c, req, p, existing, next, desired, order[1..]);
      EnsureAllOnly(c, req, p, existing, next, desired, order[1..]);
      assert forall x <- order :: x == u || x in order[1..];
    }
  }

  lemma CloseKeepsDesired(
      c: Client, req: Request, p: Place, existing: Roster, listing: seq<Id>, desired: set<Id>, s: Step)
    requires Enumerates(listing, existing.Keys)
    ensures var after := Close(c, req, p, existing, listing, desired, s).w.Roster(p);
      forall u <- desired :: u in s.w.Roster(p) ==> u in after && after[u] == s.w.Roster(p)[u]
  {
    GateAllPicks(c, req, p, existing, desired, c.self(s.w.tick), Gate(s.(w := Call(s.w)), [], false), listing);
    var g := Gated(c, req, p, existing, listing, desired, s);
    RemoveAllOnly(c, p, g.s, g.removals);
  }

  /** Whatever its calls do, the gate only picks members nobody wants, each once, and changes no roster. */
  lemma {:induction false} GateAllPicks(
      c: Client, req: Request, p: Place, existing: Roster, desired: set<Id>, self: Id, g: Gate, listing: seq<Id>)
    requires forall u <- listing :: u in existing && u !in g.removals
    requires Distinct(listing) && Distinct(g.removals) && forall u <- g.removals :: u !in desired
    ensures var out := GateAll(c, req, p, existing, desired, self, g, listing);
      Distinct(out.removals) && (forall u <- out.removals :: u !in desired) && out.s.w.members == g.s.w.members
    decreases listing
  {
    if listing != [] && g.s.error.None? {
      var next := GateUser(c, req, p, desired, self, g, listing[0], existing[listing[0]]);
      assert forall u <- listing[1..] :: u in listing && u != listing[0];
      GateAllPicks(c, req, p, existing, desired, self, next, listing[1..]);
    }
  }

  /**
   A pass that reports success has really given every resolved user the access
   asked for, even if GitLab acknowledged writes it did not make active.
  */
  lemma SuccessMeansApplied(c: Client, req: Request, t: Target, created: bool, w: World)
    requires c.Valid() && Pass(c, req, t, created, w).error.None?
    ensures var after := Pass(c, req, t, created, w).w.Roster(Place(c.owner, t.id));
      forall u <- Wanted(c, req, t, created, w) :: u in after && Content(req, after[u])
  {
    var p := Place(c.owner, t.id);
    var o := Open(c, req, t, created, w);
    OpenFrame(c, req, t, created, w);
    OpenLists(c, req, t, created, w);
    var s := Raised(c, req, t, created, w);
    var order := c.ranging(o.s.w.tick, o.desired.Keys);
    EnsureAllApplied(c, req, p, o.existing, o.s, o.desired, order);
    assert forall u <- o.desired :: u in order;
    if s.r.unresolved == 0 {
      CloseKeepsDesired(c, req, p, o.existing, o.order, o.desired.Keys, s);
    }
  }
}

/**
 The removal gate over whole runs: who may be removed, how often the absence
 must have been written down first, and what a converged pass says about the
 members that remain.
*/
module SyncGate {
  import opened Wrappers
  import opened Ledger
  import opened Sync
  import opened SyncSafety
  import opened SyncBinding
  import opened SyncTrace

  // ----- counting observations -----

  /** Absence observations written since the last acknowledged reset of `m`. */
  ghost function Since(log: seq<Event>, m: Membership): nat {
    if log == [] then 0
    else
      var before := Since(log[..|log| - 1], m);
      match log[|log| - 1]
      case Observed(x) => if x == m then before + 1 else before
      case Cleared(x) => if x == m then 0 else before
      case _ => before
  }

  lemma SinceAppend(log: seq<Event>, e: Event, m: Membership)
    ensures Since(log + [e], m) ==
      match e
      case Observed(x) => if x == m then Since(log, m) + 1 else Since(log, m)
      case Cleared(x) => if x == m then 0 else Since(log, m)
      case _ => Since(log, m)
  {
  }

  /** The most that memory or any file claims. */
  function Claimed(b: Books, m: Membership): int {
    var kept := if b.disk.Observations(m) >= b.settled.Observations(m) then b.disk.Observations(m)
      else b.settled.Observations(m);
    if b.memory.Observations(m) >= kept then b.memory.Observations(m) else kept
  }

  /** No ledger, in memory or on disk, claims more observations than were made. */
  ghost predicate Tallied(w: World) {
    forall m: Membership :: Claimed(w.books, m) <= Since(w.log, m)
  }

  predicate Even(b: Books) {
    b.disk == b.settled == b.memory
  }

  /** The file agrees with memory, for good, until an error ends the pass. */
  ghost predicate Kept(s: Step) {
    Tallied(s.w) && (s.error.None? ==> Even(s.w.books))
  }

  lemma AppendNothing(log: seq<Event>)
    ensures log + [] == log
  {
  }

  lemma ResetKept(c: Client, w: World, m: Membership)
    requires Tallied(w) && Even(w.books)
    ensures var (w1, ok) := ResetAbsent(c, w, m); Tallied(w1) && (ok ==> Even(w1.books))
  {
    var (w1, ok) := ResetAbsent(c, w, m);
    forall x: Membership
      ensures Claimed(w1.books, x) <= Since(w1.log, x)
    {
      SinceAppend(w.log, Cleared(m), x);
      AppendNothing(w.log);
    }
  }

  lemma ConfirmKept(c: Client, w: World, m: Membership)
    requires Tallied(w) && Even(w.books)
    ensures var (w1, confirmed, ok) := ConfirmAbsent(c, w, m);
      Tallied(w1) && (ok ==> Even(w1.books)) && (confirmed ==> Since(w1.log, m) >= 2)
  {
    var (w1, confirmed, ok) := ConfirmAbsent(c, w, m);
    forall x: Membership
      ensures Claimed(w1.books, x) <= Since(w1.log, x)
    {
      SinceAppend(w.log, Observed(m), x);
      AppendNothing(w.log);
    }
    SinceAppend(w.log, Observed(m), m);
  }

  /** A call of GitLab leaves the books alone and logs at most a membership change. */
  ghost predicate OneChange(w: World, w1: World) {
    && w1.books == w.books
    && (w1.log == w.log || exists e: Event :: (e.Added? || e.Leveled? || e.Removed?) && w1.log == w.log + [e])
  }

  lemma ChangeKept(w: World, w1: World)
    requires Tallied(w) && OneChange(w, w1)
    ensures Tallied(w1)
  {
  }

  lemma AddNewKept(c: Client, req: Request, p: Place, s: Step, user: User)
    requires Kept(s) && s.error.None?
    ensures Kept(AddNew(c, req, p, s, user))
  {
    var w1 := AddMember(c, s.w, p, user, LevelOf(req.accessLevel)).0;
    AddCallKept(c, s.w, p, user, LevelOf(req.accessLevel));
    MarkKept(c, Call(w1), Key(p, user.id));
  }

  lemma AddCallKept(c: Client, w: World, p: Place, user: User, level: int)
    requires Tallied(w)
    ensures var w1 := AddMember(c, w, p, user, level).0; Tallied(w1) && w1.books == w.books
  {
    ChangeKept(w, AddMember(c, w, p, user, level).0);
  }

  lemma MarkKept(c: Client, w: World, m: Membership)
    requires Tallied(w) && Even(w.books)
    ensures var (w1, ok) := SaveTo(c, w, Mark(w.books.memory, m)); Tallied(w1) && (ok ==> Even(w1.books))
  {
  }

  lemma RelevelKept(c: Client, req: Request, p: Place, s: Step, user: User)
    requires Kept(s) && s.error.None?
    ensures Kept(Relevel(c, req, p, s, user))
  {
    ChangeKept(s.w, UpdateMember(c, s.w, p, user.id, LevelOf(req.accessLevel)).0);
  }

  lemma EnsureUserKept(c: Client, req: Request, p: Place, existing: Roster, s: Step, user: User)
    requires Kept(s) && s.error.None?
    ensures Kept(EnsureUser(c, req, p, existing, s, user))
  {
    ResetKept(c, s.w, Key(p, user.id));
    var (w1, reset) := ResetAbsent(c, s.w, Key(p, user.id));
    var s1 := s.(w := w1);
    if reset {
      AddNewKept(c, req, p, s1, user);
      RelevelKept(c, req, p, s1, user);
    }
  }

  lemma {:induction false} EnsureAllKept(
      c: Client, req: Request, p: Place, existing: Roster, s: Step, desired: map<Id, User>, order: seq<Id>)
    requires forall u <- order :: u in desired
    requires Kept(s)
    ensures Kept(EnsureAll(c, req, p, existing, s, desired, order))
    decreases order
  {
    if order != [] && s.error.None? {
      EnsureUserKept(c, req, p, existing, s, desired[order[0]]);
      EnsureAllKept(c, req, p, existing, EnsureUser(c, req, p, existing, s, desired[order[0]]), desired, order[1..]);
    }
  }

  lemma RemoveUserKept(c: Client, p: Place, s: Step, u: Id)
    requires Kept(s) && s.error.None?
    ensures Kept(RemoveUser(c, p, s, u))
  {
    var (w1, removed) := RemoveMember(c, s.w, p, u);
    ChangeKept(s.w, w1);
    if removed {
      var (w2, unmarked) := SaveTo(c, w1, Unmark(w1.books.memory, Key(p, u)));
      assert Tallied(w2);
      if unmarked {
        ResetKept(c, w2, Key(p, u));
      }
    }
  }

  lemma {:induction false} RemoveAllKept(c: Client, p: Place, s: Step, removals: seq<Id>)
    requires Kept(s)
    ensures Kept(RemoveAll(c, p, s, removals))
    decreases removals
  {
    if removals != [] && s.error.None? {
      RemoveUserKept(c, p, s, removals[0]);
      RemoveAllKept(c, p, RemoveUser(c, p, s, removals[0]), removals[1..]);
    }
  }

  // ----- the first phase -----

  /** Between the two states only memberships of `users` at `p` changed, and none was observed or removed. */
  ghost predicate EnsuresOnly(w: World, w1: World, p: Place, users: seq<Id>) {
    && (forall u :: u !in users ==> (u in w1.Roster(p) <==> u in w.Roster(p)))
    && (forall u <- w.Roster(p) :: u in w1.Roster(p) && (u !in users ==> w1.Roster(p)[u] == w.Roster(p)[u]))
    && (forall m: Membership :: m.userId !in users ==> (m in w1.books.memory.records <==> m in w.books.memory.records))
    && (forall m: Membership :: m.userId !in users ==>
      w1.books.memory.Observations(m) == w.books.memory.Observations(m))
    && w1.books.memory.groups == w.books.memory.groups
    && w.log <= w1.log
    && (forall i :: |w.log| <= i < |w1.log| ==> w1.log[i].Cleared? || w1.log[i].Added? || w1.log[i].Leveled?)
  }

  lemma EnsuresOnlyChain(a: World, b: World, c: World, p: Place, users: seq<Id>)
    requires EnsuresOnly(a, b, p, users) && EnsuresOnly(b, c, p, users)
    ensures EnsuresOnly(a, c, p, users)
  {
  }

  lemma AddCallOnly(c: Client, p: Place, w: World, user: User, level: int)
    ensures EnsuresOnly(w, AddMember(c, w, p, user, level).0, p, [user.id])
  {
  }

  lemma MarkOnly(c: Client, p: Place, w: World, u: Id)
    ensures EnsuresOnly(w, Call(w), p, [u])
    ensures EnsuresOnly(w, SaveTo(c, Call(w), Mark(w.books.memory, Key(p, u))).0, p, [u])
  {
  }

  lemma AddNewOnly(c: Client, req: Request, p: Place, s: Step, user: User)
    ensures EnsuresOnly(s.w, AddNew(c, req, p, s, user).w, p, [user.id])
    ensures AddNew(c, req, p, s, user).r.unresolved == s.r.unresolved
  {
    var (w1, added) := AddMember(c, s.w, p, user, LevelOf(req.accessLevel));
    AddCallOnly(c, p, s.w, user, LevelOf(req.accessLevel));
    MarkOnly(c, p, w1, user.id);
    var after := AddNew(c, req, p, s, user).w;
    assert after in {w1, Call(w1), SaveTo(c, Call(w1), Mark(w1.books.memory, Key(p, user.id))).0};
    if after != w1 {
      EnsuresOnlyChain(s.w, w1, after, p, [user.id]);
    }
  }

  lemma RelevelOnly(c: Client, req: Request, p: Place, s: Step, user: User)
    ensures EnsuresOnly(s.w, Relevel(c, req, p, s, user).w, p, [user.id])
    ensures Relevel(c, req, p, s, user).r.unresolved == s.r.unresolved
  {
    UpdateCallOnly(c, p, s.w, user.id, LevelOf(req.accessLevel));
  }

  lemma UpdateCallOnly(c: Client, p: Place, w: World, u: Id, level: int)
    ensures EnsuresOnly(w, UpdateMember(c, w, p, u, level).0, p, [u])
    ensures EnsuresOnly(w, Call(UpdateMember(c, w, p, u, level).0), p, [u])
  {
  }

  lemma EnsureUserOnly(c: Client, req: Request, p: Place, existing: Roster, s: Step, user: User)
    ensures EnsuresOnly(s.w, EnsureUser(c, req, p, existing, s, user).w, p, [user.id])
    ensures EnsureUser(c, req, p, existing, s, user).r.unresolved == s.r.unresolved
  {
    var (w1, reset) := ResetAbsent(c, s.w, Key(p, user.id));
    assert EnsuresOnly(s.w, w1, p, [user.id]);
    var s1 := s.(w := w1);
    if reset && user.id !in existing {
      AddNewOnly(c, req, p, s1, user);
      EnsuresOnlyChain(s.w, w1, AddNew(c, req, p, s1, user).w, p, [user.id]);
    } else if reset {
      RelevelOnly(c, req, p, s1, user);
      EnsuresOnlyChain(s.w, w1, Relevel(c, req, p, s1, user).w, p, [user.id]);
    }
  }

  lemma {:induction false} EnsureAllOnly(
      c: Client, req: Request, p: Place, existing: Roster, s: Step, desired: map<Id, User>, order: seq<Id>)
    requires forall u <- order :: u in desired && desired[u].id == u
    ensures EnsuresOnly(s.w, EnsureAll(c, req, p, existing, s, desired, order).w, p, order)
    ensures EnsureAll(c, req, p, existing, s, desired, order).r.unresolved == s.r.unresolved
    decreases order
  {
    if order != [] && s.error.None? {
      var next := EnsureUser(c, req, p, existing, s, desired[order[0]]);
      EnsureUserOnly(c, req, p, existing, s, desired[order[0]]);
      EnsureAllOnly(c, req, p, existing, next, desired, order[1..]);
      assert forall u :: u in order <==> u == order[0] || u in order[1..];
    }
  }

  // ----- the gate -----

  /** Why a member may go: nobody's wish, no exemption, within the prune mode, and absent long enough. */
  ghost predicate Removable(
      c: Client, req: Request, p: Place, existing: Roster, desired: set<Id>, self: Id,
      records: set<Membership>, log: seq<Event>, u: Id)
  {
    && u in existing && u !in desired
    && !Exempt(c, req, self, u, existing[u])
    && Prunable(req, Key(p, u) in records)
    && (req.immediate || Since(log, Key(p, u)) >= 2)
  }

  ghost predicate Distinct(q: seq<Id>) {
    forall i, j :: 0 <= i < j < |q| ==> q[i] != q[j]
  }

  /** Only observations were added to the history. */
  ghost predicate ObservesOnly(w: World, w1: World) {
    && w1.members == w.members
    && w1.books.memory.records == w.books.memory.records
    && w1.books.memory.groups == w.books.memory.groups
    && w.log <= w1.log
    && (forall i :: |w.log| <= i < |w1.log| ==> w1.log[i].Observed?)
  }

  ghost predicate GateSound(c: Client, req: Request, p: Place, existing: Roster, desired: set<Id>, self: Id, g: Gate) {
    && Kept(g.s)
    && Distinct(g.removals)
    && (forall u <- g.removals ::
      Removable(c, req, p, existing, desired, self, g.s.w.books.memory.records, g.s.w.log, u))
  }

  lemma MoreObserved(log: seq<Event>, k: Membership, m: Membership)
    ensures Since(log + [Observed(k)], m) >= Since(log, m)
  {
  }

  lemma ConfirmLog(c: Client, w: World, k: Membership)
    ensures var (w1, confirmed, ok) := ConfirmAbsent(c, w, k);
      ObservesOnly(w, w1) && w1.log in {w.log, w.log + [Observed(k)]}
  {
    AppendNothing(w.log);
  }

  /** The one call the gate makes. */
  lemma ConfirmSound(c: Client, req: Request, p: Place, existing: Roster, desired: set<Id>, self: Id, g: Gate, u: Id)
    requires GateSound(c, req, p, existing, desired, self, g) && g.s.error.None?
    ensures var (w1, confirmed, ok) := ConfirmAbsent(c, g.s.w, Key(p, u));
      && ObservesOnly(g.s.w, w1)
      && GateSound(c, req, p, existing, desired, self,
        g.(s := g.s.(w := w1, error := if ok then None else Some(SaveFailed))))
      && (confirmed ==> Since(w1.log, Key(p, u)) >= 2)
  {
    var (w1, confirmed, ok) := ConfirmAbsent(c, g.s.w, Key(p, u));
    ConfirmKept(c, g.s.w, Key(p, u));
    ConfirmLog(c, g.s.w, Key(p, u));
    forall x | x in g.removals
      ensures Removable(c, req, p, existing, desired, self, w1.books.memory.records, w1.log, x)
    {
      assert Removable(c, req, p, existing, desired, self, g.s.w.books.memory.records, g.s.w.log, x);
      MoreObserved(g.s.w.log, Key(p, u), Key(p, x));
    }
  }

  lemma GateUserSound(c: Client, req: Request, p: Place, existing: Roster, desired: set<Id>, self: Id, g: Gate, u: Id)
    requires u in existing && u !in g.removals && g.s.error.None?
    requires GateSound(c, req, p, existing, desired, self, g)
    ensures var next := GateUser(c, req, p, desired, self, g, u, existing[u]);
      && GateSound(c, req, p, existing, desired, self, next)
      && ObservesOnly(g.s.w, next.s.w)
      && next.s.r.unresolved == g.s.r.unresolved
      && (next.removals == g.removals || next.removals == g.removals + [u])
      && (g.pending ==> next.pending)
      && (next.s.error.None? ==>
            u in desired || Exempt(c, req, self, u, existing[u])
              || !Prunable(req, Key(p, u) in g.s.w.books.memory.records)
            || u in next.removals || next.pending)
  {
    var k := Key(p, u);
    assert u in (g.removals + [u]);
    if u !in desired && !Exempt(c, req, self, u, existing[u]) && Prunable(req, k in g.s.w.books.memory.records) {
      if !req.immediate {
        ConfirmSound(c, req, p, existing, desired, self, g, u);
        var (w1, confirmed, ok) := ConfirmAbsent(c, g.s.w, k);
        if confirmed {
          assert Removable(c, req, p, existing, desired, self, w1.books.memory.records, w1.log, u);
        }
      } else {
        assert Removable(c, req, p, existing, desired, self, g.s.w.books.memory.records, g.s.w.log, u);
      }
    }
  }

  lemma {:induction false} GateAllSound(
      c: Client, req: Request, p: Place, existing: Roster, desired: set<Id>, self: Id, g: Gate, listing: seq<Id>)
    requires forall u <- listing :: u in existing && u !in g.removals
    requires Distinct(listing)
    requires GateSound(c, req, p, existing, desired, self, g)
    ensures var out := GateAll(c, req, p, existing, desired, self, g, listing);
      && GateSound(c, req, p, existing, desired, self, out)
      && ObservesOnly(g.s.w, out.s.w)
      && out.s.r.unresolved == g.s.r.unresolved
      && g.removals <= out.removals
      && (g.pending ==> out.pending)
      && (out.s.error.None? && !out.pending ==> forall u <- listing ::
            u in desired || Exempt(c, req, self, u, existing[u])
              || !Prunable(req, Key(p, u) in g.s.w.books.memory.records)
            || u in out.removals)
    decreases listing
  {
    if listing != [] && g.s.error.None? {
      var u := listing[0];
      var next := GateUser(c, req, p, desired, self, g, u, existing[u]);
      GateUserSound(c, req, p, existing, desired, self, g, u);
      assert forall x <- listing[1..] :: x in listing;
      GateAllSound(c, req, p, existing, desired, self, next, listing[1..]);
      var out := GateAll(c, req, p, existing, desired, self, next, listing[1..]);
      Prefixed(next.removals, out.removals);
      assert forall x <- listing :: x == u || x in listing[1..];
    }
  }

  lemma Prefixed(a: seq<Id>, b: seq<Id>)
    requires a <= b
    ensures forall x <- a :: x in b
  {
  }

  // ----- the removals -----

  /** The `i`-th event removes one of `removals`, still as long absent as in `log`. */
  ghost predicate RemovesOneOf(p: Place, removals: seq<Id>, log: seq<Event>, after: seq<Event>, i: nat)
    requires i < |after| && after[i].Removed?
  {
    && after[i].m == Key(p, after[i].m.userId)
    && after[i].m.userId in removals
    && Since(after[..i], after[i].m) >= Since(log, after[i].m)
  }

  ghost function Removals(log: seq<Event>): nat {
    if log == [] then 0 else Removals(log[..|log| - 1]) + if log[|log| - 1].Removed? then 1 else 0
  }

  /** The history grew by removals of `removals` and resets of them, nothing else. */
  ghost predicate RemovesLog(log: seq<Event>, after: seq<Event>, p: Place, removals: seq<Id>) {
    && log <= after
    && (forall i :: |log| <= i < |after| && after[i].Removed? ==> RemovesOneOf(p, removals, log, after, i))
    && Removals(after) <= Removals(log) + |removals|
    && (forall m: Membership :: m.userId !in removals ==> Since(after, m) == Since(log, m))
  }

  ghost predicate RemovesOnly(w: World, w1: World, p: Place, removals: seq<Id>) {
    && w1.books.memory.groups == w.books.memory.groups
    && (forall m: Membership :: m.userId !in removals ==>
      (m in w1.books.memory.records <==> m in w.books.memory.records))
    && (forall u :: u !in removals ==> (u in w1.Roster(p) <==> u in w.Roster(p)))
    && (forall u <- w1.Roster(p) :: u in w.Roster(p) && w1.Roster(p)[u] == w.Roster(p)[u])
    && (forall m: Membership :: m.userId !in removals ==>
      w1.books.memory.Observations(m) == w.books.memory.Observations(m))
  }

  lemma RemovesLogChain(a: seq<Event>, b: seq<Event>, c: seq<Event>, p: Place, first: seq<Id>, rest: seq<Id>)
    requires RemovesLog(a, b, p, first) && RemovesLog(b, c, p, rest)
    requires forall u <- rest :: u !in first
    ensures RemovesLog(a, c, p, first + rest)
  {
    forall i | |a| <= i < |c| && c[i].Removed?
      ensures RemovesOneOf(p, first + rest, a, c, i)
    {
      if i < |b| {
        assert RemovesOneOf(p, first, a, b, i);
        assert c[..i] == b[..i];
      } else {
        assert RemovesOneOf(p, rest, b, c, i);
      }
    }
  }

  /** The three histories one removal can leave. */
  lemma RemoveUserLog(log: seq<Event>, after: seq<Event>, p: Place, u: Id)
    requires var k := Key(p, u);
      after in {log, log + [Removed(k)], log + [Cleared(k)], log + [Removed(k)] + [Cleared(k)]}
    ensures RemovesLog(log, after, p, [u])
  {
    var k := Key(p, u);
    forall m: Membership
      ensures m.userId != u ==> Since(after, m) == Since(log, m)
    {
      SinceAppend(log, Removed(k), m);
      SinceAppend(log, Cleared(k), m);
      SinceAppend(log + [Removed(k)], Cleared(k), m);
    }
    assert (log + [Removed(k)])[..|log|] == log;
    assert (log + [Cleared(k)])[..|log|] == log;
    assert (log + [Removed(k)] + [Cleared(k)])[..|log| + 1] == log + [Removed(k)];
    assert after[..|log|] == log;
    assert forall i :: |log| <= i < |after| && after[i].Removed? ==> i == |log|;
  }

  lemma RemoveUserHistory(c: Client, p: Place, s: Step, u: Id)
    ensures var k := Key(p, u); var log := s.w.log;
      RemoveUser(c, p, s, u).w.log in {log, log + [Removed(k)], log + [Cleared(k)], log + [Removed(k)] + [Cleared(k)]}
  {
    var (w1, removed) := RemoveMember(c, s.w, p, u);
    AppendNothing(w1.log);
  }

  lemma RemoveUserState(c: Client, p: Place, s: Step, u: Id)
    ensures var s1 := RemoveUser(c, p, s, u);
      && RemovesOnly(s.w, s1.w, p, [u])
      && s1.r.unresolved == s.r.unresolved
      && (s1.error.None? ==> s.error.None? && u !in s1.w.Roster(p))
  {
    var (w1, removed) := RemoveMember(c, s.w, p, u);
    RemoveCallState(c, s.w, p, u);
    if removed {
      var (w2, unmarked) := SaveTo(c, w1, Unmark(w1.books.memory, Key(p, u)));
      UnmarkState(c, s.w, w1, p, u);
      if unmarked {
        ClearState(c, s.w, w2, p, u);
      }
    }
  }

  lemma RemoveCallState(c: Client, w: World, p: Place, u: Id)
    ensures var (w1, removed) := RemoveMember(c, w, p, u);
      RemovesOnly(w, w1, p, [u]) && (removed ==> u !in w1.Roster(p))
  {
  }

  lemma UnmarkState(c: Client, w: World, w1: World, p: Place, u: Id)
    requires RemovesOnly(w, w1, p, [u])
    ensures var (w2, ok) := SaveTo(c, w1, Unmark(w1.books.memory, Key(p, u)));
      RemovesOnly(w, w2, p, [u]) && w2.Roster(p) == w1.Roster(p)
  {
  }

  lemma ClearState(c: Client, w: World, w1: World, p: Place, u: Id)
    requires RemovesOnly(w, w1, p, [u])
    ensures var (w2, ok) := ResetAbsent(c, w1, Key(p, u)); RemovesOnly(w, w2, p, [u]) && w2.Roster(p) == w1.Roster(p)
  {
    var k := Key(p, u);
    var l := Clear(w1.books.memory, k);
    assert forall m: Membership :: m != k ==> l.Observations(m) == w1.books.memory.Observations(m);
    assert ResetAbsent(c, w1, k).0.books.memory in {w1.books.memory, l};
  }

  lemma RemoveUserOnly(c: Client, p: Place, s: Step, u: Id)
    ensures var s1 := RemoveUser(c, p, s, u);
      && RemovesOnly(s.w, s1.w, p, [u])
      && RemovesLog(s.w.log, s1.w.log, p, [u])
      && s1.r.unresolved == s.r.unresolved
      && (s1.error.None? ==> s.error.None? && u !in s1.w.Roster(p))
  {
    RemoveUserState(c, p, s, u);
    RemoveUserHistory(c, p, s, u);
    RemoveUserLog(s.w.log, RemoveUser(c, p, s, u).w.log, p, u);
  }

  lemma {:induction false} RemoveAllOnly(c: Client, p: Place, s: Step, removals: seq<Id>)
    requires Distinct(removals)
    ensures var s1 := RemoveAll(c, p, s, removals);
      && RemovesOnly(s.w, s1.w, p, removals)
      && RemovesLog(s.w.log, s1.w.log, p, removals)
      && s1.r.unresolved == s.r.unresolved
      && (s1.error.None? ==> s.error.None? && forall u <- removals :: u !in s1.w.Roster(p))
    decreases removals
  {
    if removals != [] && s.error.None? {
      var u := removals[0];
      var s1 := RemoveUser(c, p, s, u);
      RemoveUserOnly(c, p, s, u);
      RemoveAllOnly(c, p, s1, removals[1..]);
      var s2 := RemoveAll(c, p, s1, removals[1..]);
      assert [u] + removals[1..] == removals;
      RemovesLogChain(s.w.log, s1.w.log, s2.w.log, p, [u], removals[1..]);
      assert forall x <- removals :: x == u || x in removals[1..];
    }
  }

  // ----- one pass -----

  lemma OpenKept(c: Client, req: Request, t: Target, created: bool, w: World)
    requires Tallied(w)
    ensures Kept(Open(c, req, t, created, w).s)
  {
    OpenFrame(c, req, t, created, w);
    var o := Open(c, req, t, created, w);
    forall m: Membership
      ensures Claimed(o.s.w.books, m) <= Since(o.s.w.log, m)
    {
      assert Claimed(w.books, m) <= Since(w.log, m);
    }
  }

  /** What the first two phases leave for the gate. */
  lemma RaisedKept(c: Client, req: Request, t: Target, created: bool, w: World)
    requires c.Valid() && Tallied(w)
    requires Open(c, req, t, created, w).s.error.None?
    ensures var o := Open(c, req, t, created, w); var s := Raised(c, req, t, created, w);
      && Kept(s)
      && o.existing == w.Roster(Place(c.owner, t.id))
      && EnsuresOnly(o.s.w, s.w, Place(c.owner, t.id), c.ranging(o.s.w.tick, o.desired.Keys))
      && s.r.unresolved == o.s.r.unresolved
  {
    var o := Open(c, req, t, created, w);
    OpenFrame(c, req, t, created, w);
    OpenKept(c, req, t, created, w);
    OpenLists(c, req, t, created, w);
    var order := c.ranging(o.s.w.tick, o.desired.Keys);
    EnsureAllKept(c, req, Place(c.owner, t.id), o.existing, o.s, o.desired, order);
    EnsureAllOnly(c, req, Place(c.owner, t.id), o.existing, o.s, o.desired, order);
  }

  /** Who this pass wants, and whom it takes itself to be. */
  ghost function Wanted(c: Client, req: Request, t: Target, created: bool, w: World): set<Id> {
    Open(c, req, t, created, w).desired.Keys
  }

  ghost function Self(c: Client, req: Request, t: Target, created: bool, w: World): Id
    requires c.Valid()
  {
    if Open(c, req, t, created, w).s.error.None? then c.self(Raised(c, req, t, created, w).w.tick) else ""
  }

  /** The `i`-th event of the later history removes a member whom the pass was entitled to remove. */
  ghost predicate Justified(
      c: Client, req: Request, p: Place, w: World, desired: set<Id>, self: Id, log: seq<Event>, i: nat)
    requires i < |log| && log[i].Removed?
  {
    var u := log[i].m.userId;
    && log[i].m == Key(p, u)
    && Removable(c, req, p, w.Roster(p), desired, self, w.books.memory.records, log[..i], u)
  }

  ghost predicate AllJustified(
      c: Client, req: Request, p: Place, w: World, desired: set<Id>, self: Id, log: seq<Event>)
  {
    && w.log <= log
    && (forall i :: |w.log| <= i < |log| && log[i].Removed? ==> Justified(c, req, p, w, desired, self, log, i))
  }

  /** The gate as the last phase runs it, from a settled state. */
  ghost function Gated(
      c: Client, req: Request, p: Place, existing: Roster, listing: seq<Id>, desired: set<Id>, s: Step): Gate
    requires Enumerates(listing, existing.Keys)
  {
    GateAll(c, req, p, existing, desired, c.self(s.w.tick), Gate(s.(w := Call(s.w)), [], false), listing)
  }

  lemma GatedSound(c: Client, req: Request, p: Place, existing: Roster, listing: seq<Id>, desired: set<Id>, s: Step)
    requires Enumerates(listing, existing.Keys)
    requires Kept(s) && s.error.None?
    ensures var self := c.self(s.w.tick); var g := Gated(c, req, p, existing, listing, desired, s);
      && GateSound(c, req, p, existing, desired, self, g)
      && ObservesOnly(s.w, g.s.w)
      && g.s.r.unresolved == s.r.unresolved
      && (g.s.error.None? && !g.pending ==> forall u <- existing ::
            u in desired || Exempt(c, req, self, u, existing[u])
              || !Prunable(req, Key(p, u) in s.w.books.memory.records)
            || u in g.removals)
  {
    var self := c.self(s.w.tick);
    var g0 := Gate(s.(w := Call(s.w)), [], false);
    assert GateSound(c, req, p, existing, desired, self, g0);
    GateAllSound(c, req, p, existing, desired, self, g0, listing);
  }

  lemma CloseKept(c: Client, req: Request, p: Place, existing: Roster, listing: seq<Id>, desired: set<Id>, s: Step)
    requires Enumerates(listing, existing.Keys)
    requires Kept(s) && s.error.None?
    ensures var out := Close(c, req, p, existing, listing, desired, s);
      && Kept(out) && out.r.unresolved == s.r.unresolved
      && out.w.books.memory.groups == s.w.books.memory.groups
  {
    GatedSound(c, req, p, existing, listing, desired, s);
    var g := Gated(c, req, p, existing, listing, desired, s);
    RemoveAllOnly(c, p, g.s, g.removals);
    RemoveAllKept(c, p, g.s, g.removals);
  }

  ghost predicate CloseLogged(
      c: Client, req: Request, p: Place, existing: Roster, desired: set<Id>, self: Id, records: set<Membership>,
      log: seq<Event>, after: seq<Event>)
  {
    && log <= after
    && (forall i :: |log| <= i < |after| && after[i].Removed? ==>
          && after[i].m == Key(p, after[i].m.userId)
          && Removable(c, req, p, existing, desired, self, records, after[..i], after[i].m.userId))
    && Removals(after) <= Removals(log) + (if req.maxRemovals < 0 then 0 else req.maxRemovals)
  }

  lemma CloseLog(c: Client, req: Request, p: Place, existing: Roster, listing: seq<Id>, desired: set<Id>, s: Step)
    requires Enumerates(listing, existing.Keys)
    requires Kept(s) && s.error.None?
    ensures CloseLogged(c, req, p, existing, desired, c.self(s.w.tick), s.w.books.memory.records, s.w.log,
                        Close(c, req, p, existing, listing, desired, s).w.log)
  {
    GatedSound(c, req, p, existing, listing, desired, s);
    var g := Gated(c, req, p, existing, listing, desired, s);
    NoRemovals(s.w.log, g.s.w.log);
    RemoveAllOnly(c, p, g.s, g.removals);
    var after := RemoveAll(c, p, g.s, g.removals).w.log;
    forall i | |s.w.log| <= i < |after| && after[i].Removed?
      ensures after[i].m == Key(p, after[i].m.userId)
      ensures Removable(c, req, p, existing, desired, c.self(s.w.tick), s.w.books.memory.records, after[..i],
        after[i].m.userId)
    {
      assert i >= |g.s.w.log|;
      assert RemovesOneOf(p, g.removals, g.s.w.log, after, i);
      assert Removable(c, req, p, existing, desired, c.self(s.w.tick), g.s.w.books.memory.records, g.s.w.log,
        after[i].m.userId);
    }
  }

  /** Nobody is left whom the prune mode would still remove. */
  ghost predicate NothingPrunable(c: Client, req: Request, p: Place, desired: set<Id>, self: Id, w: World) {
    forall u <- w.Roster(p) ::
      u in desired || Exempt(c, req, self, u, w.Roster(p)[u]) || !Prunable(req, Key(p, u) in w.books.memory.records)
  }

  lemma CloseConverged(c: Client, req: Request, p: Place, existing: Roster, listing: seq<Id>, desired: set<Id>, s: Step)
    requires Enumerates(listing, existing.Keys)
    requires Kept(s) && s.error.None? && !s.r.converged
    requires forall u <- s.w.Roster(p) :: u in desired || (u in existing && s.w.Roster(p)[u] == existing[u])
    ensures var out := Close(c, req, p, existing, listing, desired, s);
      out.error.None? && out.r.converged ==> NothingPrunable(c, req, p, desired, c.self(s.w.tick), out.w)
  {
    var self := c.self(s.w.tick);
    var out := Close(c, req, p, existing, listing, desired, s);
    GatedSound(c, req, p, existing, listing, desired, s);
    var g := Gated(c, req, p, existing, listing, desired, s);
    RemoveAllOnly(c, p, g.s, g.removals);
    if out.error.None? && out.r.converged {
      forall u | u in out.w.Roster(p)
        ensures u in desired || Exempt(c, req, self, u, out.w.Roster(p)[u])
          || !Prunable(req, Key(p, u) in out.w.books.memory.records)
      {
        assert u !in g.removals;
        assert u in g.s.w.Roster(p) && out.w.Roster(p)[u] == s.w.Roster(p)[u];
      }
    }
  }

  lemma {:induction false} NoRemovals(log: seq<Event>, after: seq<Event>)
    requires log <= after
    requires forall i :: |log| <= i < |after| ==> !after[i].Removed?
    ensures Removals(after) == Removals(log)
    decreases |after|
  {
    if after == log {
    } else {
      NoRemovals(log, after[..|after| - 1]);
    }
  }

  ghost predicate OwnedBinding(c: Client, req: Request, w: World) {
    var k := BindingKey(c.owner, req.rule, StateKey(req));
    k in w.books.memory.groups && w.books.memory.groups[k].owned
  }

  /** Whether the pass gets as far as the gate. */
  ghost predicate Closes(c: Client, req: Request, t: Target, created: bool, w: World)
    requires c.Valid()
  {
    && Open(c, req, t, created, w).s.error.None?
    && Raised(c, req, t, created, w).error.None?
    && Raised(c, req, t, created, w).r.unresolved == 0
  }

  /** A pass that does not get there removes nobody. */
  lemma PassWithoutGate(c: Client, req: Request, t: Target, created: bool, w: World)
    requires c.Valid() && Tallied(w)
    requires !Closes(c, req, t, created, w)
    ensures var out := Pass(c, req, t, created, w);
      && Tallied(out.w)
      && w.log <= out.w.log
      && (forall i :: |w.log| <= i < |out.w.log| ==> !out.w.log[i].Removed?)
      && Removals(out.w.log) == Removals(w.log)
  {
    OpenFrame(c, req, t, created, w);
    OpenKept(c, req, t, created, w);
    if Open(c, req, t, created, w).s.error.None? {
      RaisedKept(c, req, t, created, w);
    }
    NoRemovals(w.log, Pass(c, req, t, created, w).w.log);
  }

  lemma PassWithGate(c: Client, req: Request, t: Target, created: bool, w: World)
    requires c.Valid() && Tallied(w)
    requires Closes(c, req, t, created, w)
    ensures var out := Pass(c, req, t, created, w);
      && Tallied(out.w)
      && Removals(out.w.log) <= Removals(w.log) + (if req.maxRemovals < 0 then 0 else req.maxRemovals)
      && out.r.unresolved == 0
      && out.w.books.memory.groups == Open(c, req, t, created, w).s.w.books.memory.groups
  {
    var o := Open(c, req, t, created, w);
    OpenFrame(c, req, t, created, w);
    OpenLists(c, req, t, created, w);
    RaisedKept(c, req, t, created, w);
    var s := Raised(c, req, t, created, w);
    NoRemovals(w.log, s.w.log);
    CloseKept(c, req, Place(c.owner, t.id), o.existing, o.order, o.desired.Keys, s);
    CloseLog(c, req, Place(c.owner, t.id), o.existing, o.order, o.desired.Keys, s);
  }

  /**
   One pass, failing wherever it may: whoever is gone was removed, in the history;
   each removal is justified, there are at most `MaxRemovals`, none while a user is
   unresolved, and none under authoritative prune without an owned binding.
  */
  lemma PassGate(c: Client, req: Request, t: Target, created: bool, w: World)
    requires c.Valid() && Tallied(w) && BooksWellFormed(w)
    ensures var p := Place(c.owner, t.id); var out := Pass(c, req, t, created, w);
      && Tallied(out.w)
      && Traced(w, out.w)
      && AllJustified(c, req, p, w, Wanted(c, req, t, created, w), Self(c, req, t, created, w), out.w.log)
      && Removals(out.w.log) <= Removals(w.log) + (if req.maxRemovals < 0 then 0 else req.maxRemovals)
      && (out.r.unresolved > 0 ==> Removals(out.w.log) == Removals(w.log))
      && (Removals(out.w.log) > Removals(w.log) && req.prune == "authoritative" ==> OwnedBinding(c, req, out.w))
  {
    PassLocal(c, req, t, created, w);
    if Closes(c, req, t, created, w) {
      PassWithGate(c, req, t, created, w);
      JustifyClose(c, req, t, created, w);
      OpenBinds(c, req, t, created, w);
    } else {
      PassWithoutGate(c, req, t, created, w);
    }
  }

  lemma OpenBinds(c: Client, req: Request, t: Target, created: bool, w: World)
    requires Open(c, req, t, created, w).s.error.None?
    requires w.books.memory.WellFormed()
    ensures var k := BindingKey(c.owner, req.rule, StateKey(req));
      var groups := Open(c, req, t, created, w).s.w.books.memory.groups;
      k in groups && (req.prune == "authoritative" ==> groups[k].owned)
  {
    OpenFrame(c, req, t, created, w);
  }

  /** The gate's findings, restated for the state the pass began in. */
  lemma JustifyClose(c: Client, req: Request, t: Target, created: bool, w: World)
    requires c.Valid() && Tallied(w)
    requires Open(c, req, t, created, w).s.error.None?
    requires Raised(c, req, t, created, w).error.None? && Raised(c, req, t, created, w).r.unresolved == 0
    ensures AllJustified(c, req, Place(c.owner, t.id), w, Wanted(c, req, t, created, w), Self(c, req, t, created, w),
      Pass(c, req, t, created, w).w.log)
  {
    var p := Place(c.owner, t.id);
    var o := Open(c, req, t, created, w);
    OpenFrame(c, req, t, created, w);
    OpenLists(c, req, t, created, w);
    RaisedKept(c, req, t, created, w);
    var s := Raised(c, req, t, created, w);
    CloseLog(c, req, p, o.existing, o.order, o.desired.Keys, s);
    var log := Pass(c, req, t, created, w).w.log;
    var order := c.ranging(o.s.w.tick, o.desired.Keys);
    assert forall u :: u in order <==> u in o.desired;
    forall i | |w.log| <= i < |log| && log[i].Removed?
      ensures Justified(c, req, p, w, o.desired.Keys, c.self(s.w.tick), log, i)
    {
      assert i >= |s.w.log|;
      var u := log[i].m.userId;
      assert Removable(c, req, p, o.existing, o.desired.Keys, c.self(s.w.tick), s.w.books.memory.records, log[..i], u);
      assert u !in order;
      assert Key(p, u) in s.w.books.memory.records <==> Key(p, u) in w.books.memory.records;
    }
  }

  /** A converged pass leaves nobody it could still have to remove. */
  lemma ConvergedPassIsClean(c: Client, req: Request, t: Target, created: bool, w: World)
    requires c.Valid() && Tallied(w)
    requires Pass(c, req, t, created, w).error.None? && Pass(c, req, t, created, w).r.converged
    ensures NothingPrunable(c, req, Place(c.owner, t.id), Wanted(c, req, t, created, w), Self(c, req, t, created, w),
                            Pass(c, req, t, created, w).w)
  {
    var p := Place(c.owner, t.id);
    var o := Open(c, req, t, created, w);
    OpenFrame(c, req, t, created, w);
    OpenLists(c, req, t, created, w);
    RaisedKept(c, req, t, created, w);
    RaisedUnconverged(c, req, t, created, w);
    var s := Raised(c, req, t, created, w);
    var order := c.ranging(o.s.w.tick, o.desired.Keys);
    assert forall u :: u in order <==> u in o.desired;
    assert forall u <- s.w.Roster(p) :: u in order || (u in o.existing && s.w.Roster(p)[u] == o.existing[u]);
    CloseConverged(c, req, p, o.existing, o.order, o.desired.Keys, s);
  }

  /** Only the last line of a pass sets `Converged`. */
  lemma RaisedUnconverged(c: Client, req: Request, t: Target, created: bool, w: World)
    requires c.Valid()
    requires Open(c, req, t, created, w).s.error.None?
    ensures !Raised(c, req, t, created, w).r.converged
  {
    var o := Open(c, req, t, created, w);
    OpenLists(c, req, t, created, w);
    EnsureAllUnconverged(c, req, Place(c.owner, t.id), o.existing, o.s, o.desired,
      c.ranging(o.s.w.tick, o.desired.Keys));
  }

  lemma {:induction false} EnsureAllUnconverged(
      c: Client, req: Request, p: Place, existing: Roster, s: Step, desired: map<Id, User>, order: seq<Id>)
    requires forall u <- order :: u in desired
    ensures EnsureAll(c, req, p, existing, s, desired, order).r.converged == s.r.converged
    decreases order
  {
    if order != [] && s.error.None? {
      EnsureAllUnconverged(c, req, p, existing, EnsureUser(c, req, p, existing, s, desired[order[0]]), desired,
        order[1..]);
    }
  }

  // ----- whole runs -----

  lemma ActTallied(w: World, a: Action)
    requires a.Synchronize? ==> a.c.Valid()
    requires Tallied(w) && BooksWellFormed(w)
    ensures Tallied(Act(w, a))
  {
    match a
    case Restart(_) =>
      forall m: Membership
        ensures Claimed(Act(w, a).books, m) <= Since(w.log, m)
      {
        assert Claimed(w.books, m) <= Since(w.log, m);
      }
    case Synchronize(c, req) =>
      EnsureGroupExtends(c, w, req.targetPath, req.targetParent, req.createGroup);
      var e := EnsureGroup(c, w, req.targetPath, req.targetParent, req.createGroup);
      assert Tallied(e.w);
      if e.error.None? && e.target.Some? {
        PassGate(c, req, e.target.value, e.created, e.w);
      }
  }

  lemma {:induction false} RunTallied(w: World, actions: seq<Action>)
    requires ValidActions(actions)
    requires Tallied(w) && BooksWellFormed(w)
    ensures Tallied(Run(w, actions))
    decreases |actions|
  {
    if actions != [] {
      assert actions[|actions| - 1] in actions;
      RunTallied(w, actions[..|actions| - 1]);
      RunWellFormed(w, actions[..|actions| - 1]);
      ActTallied(Run(w, actions[..|actions| - 1]), actions[|actions| - 1]);
    }
  }

  /** The pass of one action, if its target could be ensured. */
  ghost predicate PassesGate(w: World, c: Client, req: Request)
    requires c.Valid()
  {
    var e := EnsureGroup(c, w, req.targetPath, req.targetParent, req.createGroup);
    var out := SyncGroup(c, req, w);
    Traced(w, out.w) &&
    if e.error.Some? || e.target.None? then out.w.log == w.log
    else
      var t := e.target.value;
      AllJustified(c, req, Place(c.owner, t.id), e.w, Wanted(c, req, t, e.created, e.w),
        Self(c, req, t, e.created, e.w), out.w.log)
      && Removals(out.w.log) <= Removals(w.log) + (if req.maxRemovals < 0 then 0 else req.maxRemovals)
      && (out.r.unresolved > 0 ==> Removals(out.w.log) == Removals(w.log))
      && (Removals(out.w.log) > Removals(w.log) && req.prune == "authoritative" ==> OwnedBinding(c, req, out.w))
  }

  /**
   In any run from a ledger without absences, with passes failing anywhere and
   restarts anywhere, every removal by every pass went through the gate: the log
   before it holds two observations since the member's last acknowledged reset.
  */
  lemma GateOverRuns(w: World, actions: seq<Action>, n: nat)
    requires ValidActions(actions) && n < |actions| && actions[n].Synchronize?
    requires w.books.memory.absences == w.books.disk.absences == w.books.settled.absences == map[] && BooksWellFormed(w)
    ensures ValidActions(actions[..n]) && actions[n].c.Valid()
    ensures PassesGate(Run(w, actions[..n]), actions[n].c, actions[n].req)
  {
    assert Tallied(w);
    assert actions[n] in actions;
    RunTallied(w, actions[..n]);
    RunWellFormed(w, actions[..n]);
    SyncGated(actions[n].c, actions[n].req, Run(w, actions[..n]));
  }

  /** The whole operation, from any state the books of which are in order. */
  lemma SyncGated(c: Client, req: Request, w: World)
    requires c.Valid() && Tallied(w) && BooksWellFormed(w)
    ensures PassesGate(w, c, req)
  {
    EnsureGroupExtends(c, w, req.targetPath, req.targetParent, req.createGroup);
    var e := EnsureGroup(c, w, req.targetPath, req.targetParent, req.createGroup);
    assert Tallied(e.w);
    SyncTraced(c, req, w);
    if e.error.None? && e.target.Some? {
      PassGate(c, req, e.target.value, e.created, e.w);
    }
  }

  /** The operation removed this member, and was entitled to at that very moment. */
  ghost predicate RemovedBySync(c: Client, req: Request, w: World, q: Place, u: Id)
    requires c.Valid()
  {
    var e := EnsureGroup(c, w, req.targetPath, req.targetParent, req.createGroup);
    var log := SyncGroup(c, req, w).w.log;
    && PassesGate(w, c, req)
    && e.error.None? && e.target.Some? && q == Place(c.owner, e.target.value.id)
    && exists i :: |w.log| <= i < |log| && log[i] == Removed(Key(q, u))
         && Removable(c, req, q, e.w.Roster(q), Wanted(c, req, e.target.value, e.created, e.w),
                      Self(c, req, e.target.value, e.created, e.w), e.w.books.memory.records, log[..i], u)
  }

  /** Whoever is gone after it was removed by it. */
  lemma SyncRemoves(c: Client, req: Request, w: World, q: Place, u: Id)
    requires c.Valid() && Tallied(w) && BooksWellFormed(w)
    requires u in w.Roster(q) && u !in SyncGroup(c, req, w).w.Roster(q)
    ensures RemovedBySync(c, req, w, q, u)
  {
    SyncGated(c, req, w);
    var e := EnsureGroup(c, w, req.targetPath, req.targetParent, req.createGroup);
    EnsureGroupExtends(c, w, req.targetPath, req.targetParent, req.createGroup);
    var log := SyncGroup(c, req, w).w.log;
    var i :| |w.log| <= i < |log| && log[i] == Removed(Key(q, u));
    var t := e.target.value;
    assert Justified(c, req, Place(c.owner, t.id), e.w, Wanted(c, req, t, e.created, e.w),
      Self(c, req, t, e.created, e.w), log, i);
  }

  /** A pass of the run removed this member through the gate. */
  ghost predicate RemovedThroughGate(w: World, actions: seq<Action>, n: nat, q: Place, u: Id)
    requires ValidActions(actions) && n < |actions|
  {
    assert actions[n] in actions;
    actions[n].Synchronize? && RemovedBySync(actions[n].c, actions[n].req, Run(w, actions[..n]), q, u)
  }

  lemma RemovedByAction(w: World, actions: seq<Action>, n: nat, q: Place, u: Id)
    requires ValidActions(actions) && n < |actions|
    requires w.books.memory.absences == w.books.disk.absences == w.books.settled.absences == map[] && BooksWellFormed(w)
    requires u in Run(w, actions[..n]).Roster(q) && u !in Run(w, actions[..n + 1]).Roster(q)
    ensures RemovedThroughGate(w, actions, n, q, u)
  {
    assert actions[..n + 1][..n] == actions[..n] && actions[n] in actions;
    assert Run(w, actions[..n + 1]) == Act(Run(w, actions[..n]), actions[n]);
    if actions[n].Synchronize? {
      assert Tallied(w);
      RunTallied(w, actions[..n]);
      RunWellFormed(w, actions[..n]);
      SyncRemoves(actions[n].c, actions[n].req, Run(w, actions[..n]), q, u);
    }
  }

  /**
   Seen from the rosters alone: a member there at the start of a run and not there
   at its end was removed by some pass of it that was entitled to.
  */
  lemma {:induction false} GoneThroughGate(w: World, actions: seq<Action>, q: Place, u: Id)
    requires ValidActions(actions)
    requires w.books.memory.absences == w.books.disk.absences == w.books.settled.absences == map[] && BooksWellFormed(w)
    requires u in w.Roster(q) && u !in Run(w, actions).Roster(q)
    ensures exists n :: 0 <= n < |actions| && RemovedThroughGate(w, actions, n, q, u)
    decreases |actions|
  {
    var last := |actions| - 1;
    if u in Run(w, actions[..last]).Roster(q) {
      assert actions[..last + 1] == actions;
      RemovedByAction(w, actions, last, q, u);
    } else {
      GoneThroughGate(w, actions[..last], q, u);
      var n :| 0 <= n < last && RemovedThroughGate(w, actions[..last], n, q, u);
      GateOfPrefix(w, actions, last, n, q, u);
    }
  }

  lemma GateOfPrefix(w: World, actions: seq<Action>, m: nat, n: nat, q: Place, u: Id)
    requires ValidActions(actions) && n < m <= |actions|
    requires ValidActions(actions[..m]) && RemovedThroughGate(w, actions[..m], n, q, u)
    ensures RemovedThroughGate(w, actions, n, q, u)
  {
    assert actions[..m][..n] == actions[..n];
  }
}

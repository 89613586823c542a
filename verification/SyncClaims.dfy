/**
 Which members GroupBridge knows to be its own. A member it added is left
 unclaimed when the pass ends between the addition and the saving of its mark,
 and under managed-only prune nothing but a restart ever claims it again.
*/
module SyncClaims {
  import opened Wrappers
  import opened Ledger
  import opened Sync
  import opened SyncSafety
  import opened SyncBinding
  import opened SyncTrace

  /** A direct member whom the ledger in memory does not claim. */
  predicate Unmarked(w: World, p: Place, u: Id) {
    u in w.Roster(p) && Key(p, u) !in w.books.memory.records
  }

  /** Neither a member nor claimed. */
  predicate Unknown(w: World, p: Place, u: Id) {
    u !in w.Roster(p) && Key(p, u) !in w.books.memory.records
  }

  // ----- one addition -----

  /**
   The addition took effect, and the member is not claimed: an error was reported
   for it, or the reading behind it failed, or the save of its mark.
  */
  predicate LeavesUnmarked(fault: nat -> Fault, tick: nat) {
    || fault(tick).After?
    || (fault(tick).Smooth? && !(Acknowledged(fault(tick + 1)) && Acknowledged(fault(tick + 2))))
  }

  lemma AddNewClaims(c: Client, req: Request, p: Place, s: Step, user: User)
    requires Unknown(s.w, p, user.id)
    ensures Unmarked(AddNew(c, req, p, s, user).w, p, user.id) <==> LeavesUnmarked(c.fault, s.w.tick)
  {
    AddMemberBooks(c, s.w, p, user, LevelOf(req.accessLevel));
  }

  // ----- the additions of a pass -----

  /** The additions in a history, in order. */
  function Additions(log: seq<Event>): seq<Membership> {
    if log == [] then []
    else
      var before := Additions(log[..|log| - 1]);
      match log[|log| - 1]
      case Added(m) => before + [m]
      case _ => before
  }

  lemma AdditionsAppend(log: seq<Event>, e: Event)
    ensures Additions(log + [e]) == if e.Added? then Additions(log) + [e.m] else Additions(log)
  {
  }

  /**
   More members were added since than the report counts, one more at most and only
   if the pass failed: the last one added.
  */
  predicate LastUncounted(before: seq<Event>, after: seq<Event>, added: nat, m: Membership) {
    && |Additions(after)| == |Additions(before)| + added + 1
    && Additions(after)[|Additions(after)| - 1] == m
  }

  predicate Counts(before: seq<Event>, s: Step) {
    && |Additions(before)| + s.r.added <= |Additions(s.w.log)|
    && |Additions(s.w.log)| <= |Additions(before)| + s.r.added + if s.error.Some? then 1 else 0
  }

  /** As far as a pass has come with a member who was not there and not claimed. */
  predicate Tracks(before: seq<Event>, s: Step, p: Place, u: Id) {
    && Counts(before, s)
    && (u !in s.w.Roster(p) ==> Key(p, u) !in s.w.books.memory.records)
    && (Unmarked(s.w, p, u) <==> LastUncounted(before, s.w.log, s.r.added, Key(p, u)))
  }

  /** The call of GitLab took effect, which shows in the history, or it did not. */
  predicate TookEffect(w: World, w1: World, p: Place, u: Id) {
    && u !in w.Roster(p) && w1.Roster(p).Keys == w.Roster(p).Keys + {u}
    && Additions(w1.log) == Additions(w.log) + [Key(p, u)]
  }

  predicate HadNoEffect(w: World, w1: World, p: Place) {
    w1.Roster(p).Keys == w.Roster(p).Keys && Additions(w1.log) == Additions(w.log)
  }

  lemma AddMemberTracks(c: Client, w: World, p: Place, user: User, level: int)
    ensures var w1 := AddMember(c, w, p, user, level).0; TookEffect(w, w1, p, user.id) || HadNoEffect(w, w1, p)
  {
    var added := SetMember(Call(w), p, user.id, Member(level, false, user.username), Added(Key(p, user.id)));
    AdditionsAppend(w.log, Added(Key(p, user.id)));
    assert added.Roster(p).Keys == w.Roster(p).Keys + {user.id};
    var w1 := AddMember(c, w, p, user, level).0;
    assert w1 == Call(w) || (user.id !in w.Roster(p) && w1 == added);
  }

  /** An addition ends claimed and counted, or with an error. */
  lemma AddNewEnds(c: Client, req: Request, p: Place, s: Step, user: User)
    requires s.error.None?
    ensures var out := AddNew(c, req, p, s, user); var w1 := AddMember(c, s.w, p, user, LevelOf(req.accessLevel)).0;
      && out.w.log == w1.log && out.w.members == w1.members
      && if out.error.None? then
           && user.id in w1.Roster(p) && user.id !in s.w.Roster(p) && out.r.added == s.r.added + 1
           && out.w.books.memory.records == s.w.books.memory.records + {Key(p, user.id)}
         else out.r == s.r && out.w.books.memory == s.w.books.memory
  {
    AddMemberBooks(c, s.w, p, user, LevelOf(req.accessLevel));
  }

  lemma AddNewTracks(c: Client, req: Request, p: Place, s: Step, user: User, before: seq<Event>, u: Id)
    requires Tracks(before, s, p, u) && s.error.None?
    ensures Tracks(before, AddNew(c, req, p, s, user), p, u)
  {
    AddMemberTracks(c, s.w, p, user, LevelOf(req.accessLevel));
    AddNewEnds(c, req, p, s, user);
    var out := AddNew(c, req, p, s, user);
    assert out.w.Roster(p) == AddMember(c, s.w, p, user, LevelOf(req.accessLevel)).0.Roster(p);
    if HadNoEffect(s.w, out.w, p) {
      assert out.error.Some?;
    } else {
      assert TookEffect(s.w, out.w, p, user.id);
      assert u != user.id ==> Key(p, u) != Key(p, user.id);
    }
  }

  lemma RelevelTracks(c: Client, req: Request, p: Place, s: Step, user: User, before: seq<Event>, u: Id)
    requires Tracks(before, s, p, u) && s.error.None?
    ensures Tracks(before, Relevel(c, req, p, s, user), p, u)
  {
    var out := Relevel(c, req, p, s, user);
    RelevelEnds(c, req, p, s, user);
    assert out.w.books == s.w.books && out.r.added == s.r.added;
  }

  lemma RelevelEnds(c: Client, req: Request, p: Place, s: Step, user: User)
    ensures var out := Relevel(c, req, p, s, user);
      HadNoEffect(s.w, out.w, p) && out.w.books == s.w.books && out.r.added == s.r.added
  {
    UpdateTracks(c, s.w, p, user.id, LevelOf(req.accessLevel));
    var w1 := UpdateMember(c, s.w, p, user.id, LevelOf(req.accessLevel)).0;
    assert Call(w1).Roster(p) == w1.Roster(p);
  }

  lemma UpdateTracks(c: Client, w: World, p: Place, u: Id, level: int)
    ensures var w1 := UpdateMember(c, w, p, u, level).0; HadNoEffect(w, w1, p) && w1.books == w.books
  {
    AdditionsAppend(w.log, Leveled(Key(p, u)));
    if u in w.Roster(p) {
      var leveled := SetMember(Call(w), p, u, w.Roster(p)[u].(level := level), Leveled(Key(p, u)));
      assert leveled.Roster(p).Keys == w.Roster(p).Keys;
      assert UpdateMember(c, w, p, u, level).0 in {Call(w), leveled};
    }
  }

  lemma ResetTracks(c: Client, p: Place, s: Step, m: Membership, before: seq<Event>, u: Id)
    requires Tracks(before, s, p, u) && s.error.None?
    ensures Tracks(before, s.(w := ResetAbsent(c, s.w, m).0), p, u)
  {
    AdditionsAppend(s.w.log, Cleared(m));
    assert s.w.log + [] == s.w.log;
  }

  lemma EnsureUserTracks(
      c: Client, req: Request, p: Place, existing: Roster, s: Step, user: User, before: seq<Event>, u: Id)
    requires Tracks(before, s, p, u) && s.error.None?
    ensures Tracks(before, EnsureUser(c, req, p, existing, s, user), p, u)
  {
    var s1 := s.(w := ResetAbsent(c, s.w, Key(p, user.id)).0);
    ResetTracks(c, p, s, Key(p, user.id), before, u);
    AddNewTracks(c, req, p, s1, user, before, u);
    RelevelTracks(c, req, p, s1, user, before, u);
  }

  lemma {:induction false} EnsureAllTracks(
      c: Client, req: Request, p: Place, existing: Roster, s: Step, desired: map<Id, User>, order: seq<Id>,
      before: seq<Event>, u: Id)
    requires (forall x <- order :: x in desired) && Tracks(before, s, p, u)
    ensures Tracks(before, EnsureAll(c, req, p, existing, s, desired, order), p, u)
    decreases order
  {
    if order != [] && s.error.None? {
      EnsureUserTracks(c, req, p, existing, s, desired[order[0]], before, u);
      EnsureAllTracks(c, req, p, existing, EnsureUser(c, req, p, existing, s, desired[order[0]]), desired, order[1..],
        before, u);
    }
  }

  // ----- the removals of a pass -----

  /** Removing adds nobody, and whoever is claimed as long as he is there stays so. */
  ghost predicate KeepsClaims(s: Step, s1: Step, p: Place) {
    && Additions(s1.w.log) == Additions(s.w.log) && s1.r.added == s.r.added
    && (forall u :: u in s1.w.Roster(p) ==>
      u in s.w.Roster(p) && (Key(p, u) in s.w.books.memory.records ==> Key(p, u) in s1.w.books.memory.records))
  }

  lemma GateUserClaims(c: Client, req: Request, p: Place, desired: set<Id>, self: Id, g: Gate, u: Id, m: Member)
    ensures KeepsClaims(g.s, GateUser(c, req, p, desired, self, g, u, m).s, p)
  {
    AdditionsAppend(g.s.w.log, Observed(Key(p, u)));
    assert g.s.w.log + [] == g.s.w.log;
  }

  lemma {:induction false} GateAllClaims(
      c: Client, req: Request, p: Place, existing: Roster, desired: set<Id>, self: Id, g: Gate, listing: seq<Id>)
    requires forall u <- listing :: u in existing
    ensures KeepsClaims(g.s, GateAll(c, req, p, existing, desired, self, g, listing).s, p)
    decreases listing
  {
    if listing != [] && g.s.error.None? {
      var next := GateUser(c, req, p, desired, self, g, listing[0], existing[listing[0]]);
      GateUserClaims(c, req, p, desired, self, g, listing[0], existing[listing[0]]);
      GateAllClaims(c, req, p, existing, desired, self, next, listing[1..]);
    }
  }

  lemma RemoveMemberClaims(c: Client, w: World, p: Place, u: Id)
    ensures var (w1, removed) := RemoveMember(c, w, p, u);
      && Additions(w1.log) == Additions(w.log) && w1.books == w.books
      && w1.Roster(p).Keys <= w.Roster(p).Keys && (removed ==> u !in w1.Roster(p))
  {
    AdditionsAppend(w.log, Removed(Key(p, u)));
  }

  /** A removal that is acknowledged drops at most the mark of who was removed. */
  lemma RemoveUserEnds(c: Client, p: Place, s: Step, u: Id)
    ensures var out := RemoveUser(c, p, s, u); var (w1, removed) := RemoveMember(c, s.w, p, u);
      && out.w.members == w1.members && out.r.added == s.r.added && Additions(out.w.log) == Additions(w1.log)
      && (!removed ==> out.w.books == w1.books)
      && out.w.books.memory.records in {w1.books.memory.records, w1.books.memory.records - {Key(p, u)}}
  {
    var (w1, removed) := RemoveMember(c, s.w, p, u);
    var (w2, unmarked) := SaveTo(c, w1, Unmark(w1.books.memory, Key(p, u)));
    AdditionsAppend(w2.log, Cleared(Key(p, u)));
    assert w2.log + [] == w2.log;
  }

  lemma RemoveUserClaims(c: Client, p: Place, s: Step, u: Id)
    ensures KeepsClaims(s, RemoveUser(c, p, s, u), p)
  {
    RemoveMemberClaims(c, s.w, p, u);
    RemoveUserEnds(c, p, s, u);
    var out, w1 := RemoveUser(c, p, s, u), RemoveMember(c, s.w, p, u).0;
    assert out.w.Roster(p) == w1.Roster(p);
    forall x | x in out.w.Roster(p)
      ensures x in s.w.Roster(p) && (Key(p, x) in s.w.books.memory.records ==> Key(p, x) in out.w.books.memory.records)
    {
      assert x in w1.Roster(p);
    }
  }

  lemma {:induction false} RemoveAllClaims(c: Client, p: Place, s: Step, removals: seq<Id>)
    ensures KeepsClaims(s, RemoveAll(c, p, s, removals), p)
    decreases removals
  {
    if removals != [] && s.error.None? {
      RemoveUserClaims(c, p, s, removals[0]);
      RemoveAllClaims(c, p, RemoveUser(c, p, s, removals[0]), removals[1..]);
    }
  }

  lemma CloseClaims(c: Client, req: Request, p: Place, existing: Roster, listing: seq<Id>, desired: set<Id>, s: Step)
    requires forall u <- listing :: u in existing
    ensures KeepsClaims(s, Close(c, req, p, existing, listing, desired, s), p)
  {
    var g0 := Gate(s.(w := Call(s.w)), [], false);
    GateAllClaims(c, req, p, existing, desired, c.self(s.w.tick), g0, listing);
    var g := GateAll(c, req, p, existing, desired, c.self(s.w.tick), g0, listing);
    RemoveAllClaims(c, p, g.s, g.removals);
  }

  // ----- a whole pass -----

  lemma {:induction false} EnsureAllRecords(
      c: Client, req: Request, p: Place, existing: Roster, s: Step, desired: map<Id, User>, order: seq<Id>)
    requires forall u <- order :: u in desired
    ensures s.w.books.memory.records <= EnsureAll(c, req, p, existing, s, desired, order).w.books.memory.records
    decreases order
  {
    if order != [] && s.error.None? {
      EnsureUserRecords(c, req, p, existing, s, desired[order[0]]);
      EnsureAllRecords(c, req, p, existing, EnsureUser(c, req, p, existing, s, desired[order[0]]), desired, order[1..]);
    }
  }

  lemma EnsureUserRecords(c: Client, req: Request, p: Place, existing: Roster, s: Step, user: User)
    requires s.error.None?
    ensures s.w.books.memory.records <= EnsureUser(c, req, p, existing, s, user).w.books.memory.records
  {
    var s1 := s.(w := ResetAbsent(c, s.w, Key(p, user.id)).0);
    AddNewEnds(c, req, p, s1, user);
    RelevelBooks(c, req, p, s1, user);
  }

  /** What the additions of a pass leave of a member who was claimed, or neither claimed nor there. */
  lemma RaisedClaims(c: Client, req: Request, t: Target, created: bool, w: World, u: Id)
    requires c.Valid() && Open(c, req, t, created, w).s.error.None?
    ensures var p := Place(c.owner, t.id); var s := Raised(c, req, t, created, w);
      && (Key(p, u) in w.books.memory.records ==> Key(p, u) in s.w.books.memory.records)
      && (Unknown(w, p, u) ==> Tracks(w.log, s, p, u))
  {
    var p := Place(c.owner, t.id);
    var o := Open(c, req, t, created, w);
    var order := c.ranging(o.s.w.tick, o.desired.Keys);
    OpenFrame(c, req, t, created, w);
    OpenLists(c, req, t, created, w);
    EnsureAllRecords(c, req, p, o.existing, o.s, o.desired, order);
    assert o.s.w.Roster(p) == w.Roster(p);
    if Unknown(w, p, u) {
      EnsureAllTracks(c, req, p, o.existing, o.s, o.desired, order, w.log, u);
    }
  }

  /** A pass neither claims nor touches whom it finds unclaimed. */
  lemma UnmarkedStays(c: Client, req: Request, t: Target, created: bool, w: World, u: Id)
    requires c.Valid() && req.prune == "managed-only" && Unmarked(w, Place(c.owner, t.id), u)
    ensures var p := Place(c.owner, t.id); var out := Pass(c, req, t, created, w);
      Unmarked(out.w, p, u) && out.w.Roster(p)[u] == w.Roster(p)[u]
  {
    var p := Place(c.owner, t.id);
    var watch := Watch(map[u := w.Roster(p)[u]], {u}, {u});
    PassUnclaimed(c, req, t, created, w, p, watch);
    assert u in watch.members;
  }

  /**
   A pass leaves a member unclaimed exactly if he was so before, or he was not there,
   no mark of him was left over, and he is the addition that its report leaves out.
  */
  lemma PassClaims(c: Client, req: Request, t: Target, created: bool, w: World, u: Id)
    requires c.Valid() && req.prune == "managed-only"
    ensures var p := Place(c.owner, t.id); var out := Pass(c, req, t, created, w);
      Unmarked(out.w, p, u) <==>
        (Unmarked(w, p, u) || (Unknown(w, p, u) && LastUncounted(w.log, out.w.log, out.r.added, Key(p, u))))
  {
    var p := Place(c.owner, t.id);
    var o := Open(c, req, t, created, w);
    OpenFrame(c, req, t, created, w);
    if Unmarked(w, p, u) {
      UnmarkedStays(c, req, t, created, w, u);
    } else if o.s.error.None? {
      OpenLists(c, req, t, created, w);
      RaisedClaims(c, req, t, created, w, u);
      var s := Raised(c, req, t, created, w);
      if s.error.None? && s.r.unresolved == 0 {
        CloseClaims(c, req, p, o.existing, o.order, o.desired.Keys, s);
      }
    } else {
      assert o.s.w.Roster(p) == w.Roster(p);
    }
  }

  // ----- runs -----

  /** The operation leaves somebody unclaimed whom it did not find so: a founder of a new group, or its own addition. */
  ghost predicate SyncLeaves(c: Client, req: Request, w: World, q: Place, u: Id)
    requires c.Valid()
  {
    var e := EnsureGroup(c, w, req.targetPath, req.targetParent, req.createGroup);
    var out := SyncGroup(c, req, w);
    Unknown(w, q, u) &&
      (u in e.w.Roster(q)
       || (e.error.None? && e.target.Some? && q == Place(c.owner, e.target.value.id)
           && LastUncounted(w.log, out.w.log, out.r.added, Key(q, u))))
  }

  lemma SyncClaims(c: Client, req: Request, w: World, q: Place, u: Id)
    requires c.Valid() && req.prune == "managed-only"
    ensures Unmarked(SyncGroup(c, req, w).w, q, u) <==> (Unmarked(w, q, u) || SyncLeaves(c, req, w, q, u))
  {
    EnsureGroupExtends(c, w, req.targetPath, req.targetParent, req.createGroup);
    var e := EnsureGroup(c, w, req.targetPath, req.targetParent, req.createGroup);
    assert u in w.Roster(q) ==> q in w.members && u in e.w.Roster(q);
    assert Unmarked(e.w, q, u) <==> (Unmarked(w, q, u) || (Unknown(w, q, u) && u in e.w.Roster(q)));
    if e.error.None? && e.target.Some? {
      var t := e.target.value;
      if q == Place(c.owner, t.id) {
        PassClaims(c, req, t, e.created, e.w, u);
      } else {
        ElsewhereClaims(c, req, t, e.created, e.w, q, u);
      }
    }
  }

  lemma ElsewhereClaims(c: Client, req: Request, t: Target, created: bool, w: World, q: Place, u: Id)
    requires c.Valid() && q != Place(c.owner, t.id)
    ensures Unmarked(Pass(c, req, t, created, w).w, q, u) <==> Unmarked(w, q, u)
  {
    PassLocal(c, req, t, created, w);
    assert !At(Place(c.owner, t.id), Key(q, u));
  }

  /** A restart that loads a file in which the member is claimed. */
  predicate Adopts(w: World, a: Action, q: Place, u: Id) {
    a.Restart? && Key(q, u) in Restarted(w.books, a.lost).memory.records
  }

  /** The action leaves the member unclaimed, whether or not he was before a restart. */
  ghost predicate Leaves(w: World, a: Action, q: Place, u: Id)
    requires a.Synchronize? ==> a.c.Valid()
  {
    match a
    case Synchronize(c, req) => SyncLeaves(c, req, w, q, u)
    case Restart(_) => u in w.Roster(q) && !Adopts(w, a, q, u)
  }

  lemma ActClaims(w: World, a: Action, q: Place, u: Id)
    requires a.Synchronize? ==> a.c.Valid() && a.req.prune == "managed-only"
    ensures Unmarked(Act(w, a), q, u) <==> (Leaves(w, a, q, u) || (Unmarked(w, q, u) && !Adopts(w, a, q, u)))
  {
    if a.Synchronize? {
      SyncClaims(a.c, a.req, w, q, u);
    }
  }

  ghost predicate AdoptsAt(w: World, actions: seq<Action>, n: nat, q: Place, u: Id)
    requires ValidActions(actions) && n < |actions|
  {
    Adopts(Run(w, actions[..n]), actions[n], q, u)
  }

  ghost predicate LeavesAt(w: World, actions: seq<Action>, n: nat, q: Place, u: Id)
    requires ValidActions(actions) && n < |actions|
  {
    assert actions[n] in actions;
    Leaves(Run(w, actions[..n]), actions[n], q, u)
  }

  ghost function Leavings(w: World, actions: seq<Action>, q: Place, u: Id): seq<bool>
    requires ValidActions(actions)
  {
    seq(|actions|, n requires 0 <= n < |actions| => LeavesAt(w, actions, n, q, u))
  }

  ghost function Adoptions(w: World, actions: seq<Action>, q: Place, u: Id): seq<bool>
    requires ValidActions(actions)
  {
    seq(|actions|, n requires 0 <= n < |actions| => AdoptsAt(w, actions, n, q, u))
  }

  /** Something happened before `end`, and nothing since has undone it. */
  predicate Stands(done: seq<bool>, undone: seq<bool>, end: nat)
    requires |done| == |undone| && end <= |done|
  {
    exists n :: 0 <= n < end && done[n] && Lasts(undone, n, end)
  }

  predicate Lasts(undone: seq<bool>, n: nat, end: nat)
    requires n < end <= |undone|
  {
    forall m :: n < m < end ==> !undone[m]
  }

  lemma StandsStep(done: seq<bool>, undone: seq<bool>, last: nat)
    requires |done| == |undone| && last < |done|
    ensures Stands(done, undone, last + 1) <==> (done[last] || (Stands(done, undone, last) && !undone[last]))
  {
    if done[last] {
      assert Lasts(undone, last, last + 1);
    }
    forall n | 0 <= n < last
      ensures Lasts(undone, n, last + 1) <==> (Lasts(undone, n, last) && !undone[last])
    {
    }
  }

  /** Some action left the member unclaimed, and none before `end` has claimed him since. */
  ghost predicate Left(w: World, actions: seq<Action>, end: nat, q: Place, u: Id)
    requires ValidActions(actions) && end <= |actions|
  {
    Stands(Leavings(w, actions, q, u), Adoptions(w, actions, q, u), end)
  }

  /**
   Over any run of managed-only passes, failing anywhere, with restarts and power
   failures anywhere: a member is unclaimed at the end if and only if some action
   left him so and no restart since has loaded a file that claims him.
  */
  lemma UnclaimedExactly(w: World, actions: seq<Action>, q: Place, u: Id)
    requires ValidActions(actions) && !Unmarked(w, q, u)
    requires forall a <- actions :: a.Synchronize? ==> a.req.prune == "managed-only"
    ensures Unmarked(Run(w, actions), q, u) <==> Left(w, actions, |actions|, q, u)
  {
    UnclaimedSoFar(w, actions, |actions|, q, u);
    assert actions[..|actions|] == actions;
  }

  lemma {:induction false} UnclaimedSoFar(w: World, actions: seq<Action>, end: nat, q: Place, u: Id)
    requires ValidActions(actions) && !Unmarked(w, q, u) && end <= |actions|
    requires forall a <- actions :: a.Synchronize? ==> a.req.prune == "managed-only"
    ensures Unmarked(Run(w, actions[..end]), q, u) <==> Left(w, actions, end, q, u)
    decreases end
  {
    if end > 0 {
      var last := end - 1;
      UnclaimedSoFar(w, actions, last, q, u);
      RunStep(w, actions, last);
      ActClaims(Run(w, actions[..last]), actions[last], q, u);
      StandsStep(Leavings(w, actions, q, u), Adoptions(w, actions, q, u), last);
    }
  }

  lemma RunStep(w: World, actions: seq<Action>, n: nat)
    requires ValidActions(actions) && n < |actions|
    ensures actions[n] in actions && Run(w, actions[..n + 1]) == Act(Run(w, actions[..n]), actions[n])
  {
    assert actions[..n + 1][..n] == actions[..n] && actions[..n + 1][n] == actions[n];
  }
}

/**
 What a pass does to the source-to-target bindings: it records at most the one
 it was asked for, never moves an existing one, and the file never holds a set
 of bindings that memory did not hold or try to save.
*/
module SyncBinding {
  import opened Wrappers
  import opened Ledger
  import opened Text
  import opened Sync
  import opened SyncSafety

  ghost predicate GroupsKept(w: World, w1: World) {
    && w1.books.memory.groups == w.books.memory.groups
    && w1.books.disk.groups in {w.books.disk.groups, w.books.memory.groups}
    && w1.books.settled.groups in {w.books.settled.groups, w.books.memory.groups}
    && Advances(w.books, w1.books)
    && (w1.books.syncs > w.books.syncs ==> w1.books.settled.groups == w.books.memory.groups)
  }

  lemma AddNewGroups(c: Client, req: Request, p: Place, s: Step, user: User)
    ensures GroupsKept(s.w, AddNew(c, req, p, s, user).w)
  {
    AddMemberBooks(c, s.w, p, user, LevelOf(req.accessLevel));
  }

  lemma EnsureUserGroups(c: Client, req: Request, p: Place, existing: Roster, s: Step, user: User)
    ensures GroupsKept(s.w, EnsureUser(c, req, p, existing, s, user).w)
  {
    var (w1, reset) := ResetAbsent(c, s.w, Key(p, user.id));
    var s1 := s.(w := w1);
    assert GroupsKept(s.w, w1);
    AddNewGroups(c, req, p, s1, user);
    RelevelBooks(c, req, p, s1, user);
  }

  lemma RelevelBooks(c: Client, req: Request, p: Place, s: Step, user: User)
    ensures Relevel(c, req, p, s, user).w.books == s.w.books
  {
  }

  lemma {:induction false} EnsureAllGroups(
      c: Client, req: Request, p: Place, existing: Roster, s: Step, desired: map<Id, User>, order: seq<Id>)
    requires forall u <- order :: u in desired
    ensures GroupsKept(s.w, EnsureAll(c, req, p, existing, s, desired, order).w)
    decreases order
  {
    if order != [] && s.error.None? {
      EnsureUserGroups(c, req, p, existing, s, desired[order[0]]);
      EnsureAllGroups(c, req, p, existing, EnsureUser(c, req, p, existing, s, desired[order[0]]), desired, order[1..]);
    }
  }

  lemma GateUserGroups(c: Client, req: Request, p: Place, desired: set<Id>, self: Id, g: Gate, u: Id, m: Member)
    ensures GroupsKept(g.s.w, GateUser(c, req, p, desired, self, g, u, m).s.w)
  {
  }

  lemma {:induction false} GateAllGroups(
      c: Client, req: Request, p: Place, existing: Roster, desired: set<Id>, self: Id, g: Gate, listing: seq<Id>)
    requires forall u <- listing :: u in existing
    ensures GroupsKept(g.s.w, GateAll(c, req, p, existing, desired, self, g, listing).s.w)
    decreases listing
  {
    if listing != [] && g.s.error.None? {
      var next := GateUser(c, req, p, desired, self, g, listing[0], existing[listing[0]]);
      GateUserGroups(c, req, p, desired, self, g, listing[0], existing[listing[0]]);
      GateAllGroups(c, req, p, existing, desired, self, next, listing[1..]);
    }
  }

  lemma RemoveUserGroups(c: Client, p: Place, s: Step, u: Id)
    ensures GroupsKept(s.w, RemoveUser(c, p, s, u).w)
  {
    var (w1, removed) := RemoveMember(c, s.w, p, u);
    assert GroupsKept(s.w, w1);
    assert GroupsKept(s.w, SaveTo(c, w1, Unmark(w1.books.memory, Key(p, u))).0);
  }

  lemma {:induction false} RemoveAllGroups(c: Client, p: Place, s: Step, removals: seq<Id>)
    ensures GroupsKept(s.w, RemoveAll(c, p, s, removals).w)
    decreases removals
  {
    if removals != [] && s.error.None? {
      RemoveUserGroups(c, p, s, removals[0]);
      RemoveAllGroups(c, p, RemoveUser(c, p, s, removals[0]), removals[1..]);
    }
  }

  lemma CloseGroups(c: Client, req: Request, p: Place, existing: Roster, listing: seq<Id>, desired: set<Id>, s: Step)
    requires forall u <- listing :: u in existing
    ensures GroupsKept(s.w, Close(c, req, p, existing, listing, desired, s).w)
  {
    var g0 := Gate(s.(w := Call(s.w)), [], false);
    GateAllGroups(c, req, p, existing, desired, c.self(s.w.tick), g0, listing);
    var g := GateAll(c, req, p, existing, desired, c.self(s.w.tick), g0, listing);
    RemoveAllGroups(c, p, g.s, g.removals);
  }

  /** The bindings after the request's own one is recorded. */
  ghost function WithBinding(c: Client, req: Request, t: Target, created: bool, l: Ledger): Bindings {
    match Bind(c, req, t, created, l)
    case Bound(mapping) => l.groups[mapping.Key() := mapping]
    case Refused(_) => l.groups
  }

  /** Nothing recorded in memory, or everything everywhere; what was settled is the new bindings. */
  ghost predicate BoundBooks(b: Books, b1: Books, bound: Bindings) {
    && (|| (b1.memory.groups == b.memory.groups && b1.disk.groups in {b.disk.groups, bound}
      && b1.settled.groups in {b.settled.groups, bound})
        || b1.memory.groups == b1.disk.groups == b1.settled.groups == bound)
    && Advances(b, b1)
    && (b1.syncs > b.syncs ==> b1.settled.groups == bound)
  }

  lemma OpenGroups(c: Client, req: Request, t: Target, created: bool, w: World)
    ensures var o := Open(c, req, t, created, w); var bound := WithBinding(c, req, t, created, w.books.memory);
      && BoundBooks(w.books, o.s.w.books, bound)
      && (o.s.error.None? ==>
            && o.s.w.books.memory.groups == o.s.w.books.disk.groups == o.s.w.books.settled.groups == bound
            && Bind(c, req, t, created, w.books.memory).Bound?)
  {
    OpenBooks(c, req, t, created, w);
  }

  lemma PassGroups(c: Client, req: Request, t: Target, created: bool, w: World)
    requires c.Valid()
    ensures var out := Pass(c, req, t, created, w); var bound := WithBinding(c, req, t, created, w.books.memory);
      && BoundBooks(w.books, out.w.books, bound)
      && (out.error.None? ==> out.w.books.memory.groups == bound && Bind(c, req, t, created, w.books.memory).Bound?)
  {
    var p := Place(c.owner, t.id);
    var o := Open(c, req, t, created, w);
    OpenGroups(c, req, t, created, w);
    if o.s.error.None? {
      OpenLists(c, req, t, created, w);
      EnsureAllGroups(c, req, p, o.existing, o.s, o.desired, c.ranging(o.s.w.tick, o.desired.Keys));
      var s := Raised(c, req, t, created, w);
      if s.error.None? && s.r.unresolved == 0 {
        CloseGroups(c, req, p, o.existing, o.order, o.desired.Keys, s);
      }
    }
  }

  /** The request's binding names its own key and target, and an existing one keeps its target. */
  lemma BindingKeeps(c: Client, req: Request, t: Target, created: bool, l: Ledger)
    requires l.WellFormed()
    ensures var k := BindingKey(c.owner, req.rule, StateKey(req)); var bound := WithBinding(c, req, t, created, l);
      && l.(groups := bound).WellFormed()
      && (forall x <- bound :: x in l.groups || x == k)
      && (forall x <- l.groups :: x in bound && bound[x].targetGroupId == l.groups[x].targetGroupId
            && bound[x].targetGroupPath == l.groups[x].targetGroupPath)
      && (forall x <- l.groups :: x != k ==> bound[x] == l.groups[x])
      && (Bind(c, req, t, created, l).Bound? ==>
        k in bound && bound[k].targetGroupId == t.id && bound[k].targetGroupPath == t.path)
      && (k in bound && k !in l.groups ==> bound[k].targetGroupPath == t.path)
  {
  }

  /** Who owns the target: an old binding says so, or the group was created, or adoption was asked for. */
  predicate Owns(c: Client, req: Request, created: bool, l: Ledger, k: BindingKey) {
    req.adopt || (if k in l.groups then l.groups[k].owned else created)
  }

  /**
   The binding a pass records, and when it may not: a bound source never goes to
   another target, and authoritative prune needs ownership.
  */
  lemma BindingExactly(c: Client, req: Request, t: Target, created: bool, l: Ledger)
    requires l.WellFormed()
    ensures var k := BindingKey(c.owner, req.rule, if req.stateKey != "" then req.stateKey else req.group.id);
      var owned := Owns(c, req, created, l, k);
      var allowed := (k in l.groups ==> l.groups[k].targetGroupId == t.id && l.groups[k].targetGroupPath == t.path)
        && (req.prune == "authoritative" ==> owned);
      var mapping :=
        GroupMapping(c.owner, req.rule, k.source, req.group.id, req.group.path, t.id, t.path, owned);
      WithBinding(c, req, t, created, l) == if allowed then l.groups[k := mapping] else l.groups
  {
    var k := BindingKey(c.owner, req.rule, StateKey(req));
    assert k in l.groups ==> l.groups[k].Key() == k;
  }

  // ----- ensureGroup returns what was asked for -----

  ghost predicate Returns(c: Client, e: Ensured, full: string) {
    e.error.None? ==>
      && e.target.Some? && e.target.value.path == full
      && Names(c, e.w, e.target.value)
  }

  /** GitLab has the group under this path and id. */
  ghost predicate Names(c: Client, w: World, t: Target) {
    Address(c.owner, t.path) in w.groups && w.groups[Address(c.owner, t.path)] == t.id
  }

  lemma {:induction false} DescendReturns(
      c: Client, w: World, segments: seq<string>, i: nat, current: Option<Target>, created: bool)
    requires segments != [] && i <= |segments|
    requires current.Some? ==> 0 < i && current.value.path == Join(segments[..i]) && Names(c, w, current.value)
    requires current.None? ==> i == 0
    ensures Returns(c, Descend(c, w, segments, i, current, created), Join(segments))
    ensures Descend(c, w, segments, i, current, created).error.None? && Address(c.owner, Join(segments)) !in w.groups
      ==> Descend(c, w, segments, i, current, created).created
    decreases |segments| - i
  {
    if i == |segments| {
      assert segments[..i] == segments;
    } else {
      var path := Join(segments[..i + 1]);
      var (w1, found, read) := GetGroup(c, w, path);
      assert segments[..i + 1] == segments[..i] + [segments[i]];
      if i + 1 == |segments| {
        assert segments[..i + 1] == segments;
      }
      if read && found.Some? {
        DescendReturns(c, w1, segments, i + 1, found, created);
      } else if read {
        var (w2, made, ok) := CreateGroup(c, w1, segments[i], current);
        if current.Some? {
          JoinConcat(segments[..i], [segments[i]]);
        }
        assert made.path == path;
        if ok {
          DescendReturns(c, w2, segments, i + 1, Some(made), true);
          DescendCreated(c, w2, segments, i + 1, Some(made));
        }
      }
    }
  }

  lemma {:induction false} DescendCreated(c: Client, w: World, segments: seq<string>, i: nat, current: Option<Target>)
    ensures Descend(c, w, segments, i, current, true).error.None? ==> Descend(c, w, segments, i, current, true).created
    decreases |segments| - i
  {
    if i < |segments| {
      var (w1, found, read) := GetGroup(c, w, Join(segments[..i + 1]));
      if read && found.Some? {
        DescendCreated(c, w1, segments, i + 1, found);
      } else if read {
        var (w2, made, ok) := CreateGroup(c, w1, segments[i], current);
        DescendCreated(c, w2, segments, i + 1, Some(made));
      }
    }
  }

  /**
   Whatever fails on the way: a target is returned only for the path asked for,
   it counts as created exactly when it was not there before, and no existing
   group or roster is replaced.
  */
  lemma EnsureGroupExact(c: Client, w: World, fullPath: string, parentPath: string, create: bool)
    ensures var e := EnsureGroup(c, w, fullPath, parentPath, create); var full := TrimSlashes(fullPath);
      && Returns(c, e, full)
      && Extends(w, e.w)
      && (e.error.None? ==> (e.created <==> Address(c.owner, full) !in w.groups))
      && (e.error.None? && e.created ==> create)
  {
    var full := TrimSlashes(fullPath);
    var parent := TrimSlashes(parentPath);
    EnsureGroupExtends(c, w, fullPath, parentPath, create);
    JoinSplit(full);
    if full != "" && (parent == "" || full == parent || HasPrefix(full, parent + "/")) {
      var (w1, found, read) := GetGroup(c, w, full);
      if read && found.None? && create {
        if parent == "" {
          DescendReturns(c, w1, Split(full), 0, None, false);
        } else {
          var (w2, top, readTop) := GetGroup(c, w1, parent);
          if readTop && top.Some? {
            SplitPrefix(full, parent);
            DescendReturns(c, w2, Split(full), |Split(parent)|, top, false);
          }
        }
      }
    }
  }

  /**
   A group is only returned, and only created, at the parent or below it; and
   below a parent that GitLab has.
  */
  lemma EnsureGroupInside(c: Client, w: World, fullPath: string, parentPath: string, create: bool)
    ensures var e := EnsureGroup(c, w, fullPath, parentPath, create);
      var full, parent := TrimSlashes(fullPath), TrimSlashes(parentPath);
      && (e.error.None? || e.w.groups != w.groups ==>
        full != "" && (parent == "" || full == parent || parent + "/" <= full))
      && (e.w.groups != w.groups ==> create && (parent != "" ==> Address(c.owner, parent) in w.groups))
  {
  }

  // ----- runs keep bindings -----

  ghost predicate BooksWellFormed(w: World) {
    w.books.memory.WellFormed() && w.books.disk.WellFormed() && w.books.settled.WellFormed()
  }

  lemma PassWellFormed(c: Client, req: Request, t: Target, created: bool, w: World)
    requires c.Valid() && BooksWellFormed(w)
    ensures BooksWellFormed(Pass(c, req, t, created, w).w)
  {
    PassGroups(c, req, t, created, w);
    BindingKeeps(c, req, t, created, w.books.memory);
  }

  lemma ActWellFormed(w: World, a: Action)
    requires a.Synchronize? ==> a.c.Valid()
    requires BooksWellFormed(w)
    ensures BooksWellFormed(Act(w, a))
  {
    match a
    case Restart(_) =>
    case Synchronize(c, req) =>
      EnsureGroupExtends(c, w, req.targetPath, req.targetParent, req.createGroup);
      var e := EnsureGroup(c, w, req.targetPath, req.targetParent, req.createGroup);
      if e.error.None? && e.target.Some? {
        PassWellFormed(c, req, e.target.value, e.created, e.w);
      }
  }

  lemma {:induction false} RunWellFormed(w: World, actions: seq<Action>)
    requires ValidActions(actions) && BooksWellFormed(w)
    ensures BooksWellFormed(Run(w, actions))
    decreases |actions|
  {
    if actions != [] {
      assert actions[|actions| - 1] in actions;
      RunWellFormed(w, actions[..|actions| - 1]);
      ActWellFormed(Run(w, actions[..|actions| - 1]), actions[|actions| - 1]);
    }
  }
}

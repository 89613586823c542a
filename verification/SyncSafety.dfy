/**
 What every membership pass keeps, whatever fails on the way, and what follows
 for whole runs: unmanaged members are never touched under managed-only prune.
*/
module SyncSafety {
  import opened Wrappers
  import opened Ledger
  import opened Text
  import opened Sync

  // ----- runs -----

  /** A pass by any provider for any request, or a restart, which a power failure may have caused. */
  datatype Action = Synchronize(c: Client, req: Request) | Restart(lost: bool)

  ghost predicate ValidActions(actions: seq<Action>) {
    forall a <- actions :: a.Synchronize? ==> a.c.Valid()
  }

  ghost function Act(w: World, a: Action): World
    requires a.Synchronize? ==> a.c.Valid()
  {
    match a
    case Synchronize(c, req) => SyncGroup(c, req, w).w
    case Restart(lost) => w.(books := Restarted(w.books, lost))
  }

  ghost function Run(w: World, actions: seq<Action>): World
    requires ValidActions(actions)
    decreases |actions|
  {
    if actions == [] then w
    else
      assert actions[|actions| - 1] in actions;
      Act(Run(w, actions[..|actions| - 1]), actions[|actions| - 1])
  }

  // ----- memberships GroupBridge did not make -----

  /** Members to be watched, and those of them whom a file may still claim. */
  datatype Watch = Watch(members: Roster, disk: set<Id>, settled: set<Id>)

  /** The watched members are as they were, memory does not claim them, and no file claims more of them. */
  ghost predicate Unclaimed(w: World, g: Place, start: Watch) {
    forall u <- start.members ::
      && u in w.Roster(g) && w.Roster(g)[u] == start.members[u]
      && Key(g, u) !in w.books.memory.records
      && (Key(g, u) in w.books.disk.records ==> u in start.disk)
      && (Key(g, u) in w.books.settled.records ==> u in start.settled)
  }

  /** Everybody who is there, claimed by no file. */
  function Watched(w: World, g: Place): Watch {
    Watch(w.Roster(g), {}, {})
  }

  lemma AddNewUnclaimed(c: Client, req: Request, p: Place, s: Step, user: User, g: Place, start: Watch)
    requires Unclaimed(s.w, g, start)
    requires p == g ==> user.id !in start.members
    ensures Unclaimed(AddNew(c, req, p, s, user).w, g, start)
  {
    var (w1, added) := AddMember(c, s.w, p, user, LevelOf(req.accessLevel));
    AddCallUnclaimed(c, p, s.w, user, LevelOf(req.accessLevel), g, start);
    MarkUnclaimed(c, Call(w1), Key(p, user.id), g, start);
  }

  lemma AddCallUnclaimed(c: Client, p: Place, w: World, user: User, level: int, g: Place, start: Watch)
    requires Unclaimed(w, g, start)
    requires p == g ==> user.id !in start.members
    ensures Unclaimed(AddMember(c, w, p, user, level).0, g, start)
  {
  }

  lemma MarkUnclaimed(c: Client, w: World, m: Membership, g: Place, start: Watch)
    requires Unclaimed(w, g, start)
    requires forall u <- start.members :: m != Key(g, u)
    ensures Unclaimed(SaveTo(c, w, Mark(w.books.memory, m)).0, g, start)
  {
  }

  lemma RelevelUnclaimed(c: Client, req: Request, p: Place, s: Step, user: User, g: Place, start: Watch)
    requires req.prune == "managed-only"
    requires Unclaimed(s.w, g, start)
    ensures Unclaimed(Relevel(c, req, p, s, user).w, g, start)
  {
    if Key(p, user.id) in s.w.books.memory.records {
      assert p == g ==> user.id !in start.members;
      UpdateCallUnclaimed(c, s.w, p, user.id, LevelOf(req.accessLevel), g, start);
    }
  }

  lemma UpdateCallUnclaimed(c: Client, w: World, p: Place, u: Id, level: int, g: Place, start: Watch)
    requires Unclaimed(w, g, start)
    requires p == g ==> u !in start.members
    ensures Unclaimed(UpdateMember(c, w, p, u, level).0, g, start)
  {
  }

  lemma EnsureUserUnclaimed(
      c: Client, req: Request, p: Place, existing: Roster, s: Step, user: User, g: Place, start: Watch)
    requires req.prune == "managed-only"
    requires Unclaimed(s.w, g, start)
    requires p == g ==> start.members.Keys <= existing.Keys
    ensures Unclaimed(EnsureUser(c, req, p, existing, s, user).w, g, start)
  {
    var (w1, reset) := ResetAbsent(c, s.w, Key(p, user.id));
    var s1 := s.(w := w1);
    assert Unclaimed(w1, g, start);
    if reset {
      if user.id !in existing {
        AddNewUnclaimed(c, req, p, s1, user, g, start);
      } else if !existing[user.id].customRole && NeedsLevel(req, existing[user.id]) {
        RelevelUnclaimed(c, req, p, s1, user, g, start);
      }
    }
  }

  lemma {:induction false} EnsureAllUnclaimed(
      c: Client, req: Request, p: Place, existing: Roster, s: Step, desired: map<Id, User>, order: seq<Id>, g: Place,
      start: Watch)
    requires forall u <- order :: u in desired
    requires forall u <- order :: desired[u].id == u
    requires req.prune == "managed-only"
    requires Unclaimed(s.w, g, start)
    requires p == g ==> start.members.Keys <= existing.Keys
    ensures Unclaimed(EnsureAll(c, req, p, existing, s, desired, order).w, g, start)
    decreases order
  {
    if order != [] && s.error.None? {
      EnsureUserUnclaimed(c, req, p, existing, s, desired[order[0]], g, start);
      EnsureAllUnclaimed(c, req, p, existing, EnsureUser(c, req, p, existing, s, desired[order[0]]), desired,
        order[1..], g, start);
    }
  }

  lemma {:induction false} GateAllUnclaimed(
      c: Client, req: Request, p: Place, existing: Roster, desired: set<Id>, self: Id, ga: Gate, listing: seq<Id>,
      g: Place, start: Watch)
    requires forall u <- listing :: u in existing
    requires req.prune == "managed-only"
    requires Unclaimed(ga.s.w, g, start)
    requires p == g ==> forall u <- ga.removals :: u !in start.members
    ensures var out := GateAll(c, req, p, existing, desired, self, ga, listing);
      && Unclaimed(out.s.w, g, start)
      && (p == g ==> forall u <- out.removals :: u !in start.members)
    decreases listing
  {
    if listing != [] && ga.s.error.None? {
      var next := GateUser(c, req, p, desired, self, ga, listing[0], existing[listing[0]]);
      assert Unclaimed(next.s.w, g, start);
      GateAllUnclaimed(c, req, p, existing, desired, self, next, listing[1..], g, start);
    }
  }

  lemma {:induction false} RemoveAllUnclaimed(c: Client, p: Place, s: Step, removals: seq<Id>, g: Place, start: Watch)
    requires Unclaimed(s.w, g, start)
    requires p == g ==> forall u <- removals :: u !in start.members
    ensures Unclaimed(RemoveAll(c, p, s, removals).w, g, start)
    decreases removals
  {
    if removals != [] && s.error.None? {
      RemoveUserUnclaimed(c, p, s, removals[0], g, start);
      RemoveAllUnclaimed(c, p, RemoveUser(c, p, s, removals[0]), removals[1..], g, start);
    }
  }

  lemma RemoveUserUnclaimed(c: Client, p: Place, s: Step, u: Id, g: Place, start: Watch)
    requires Unclaimed(s.w, g, start) && (p == g ==> u !in start.members)
    ensures Unclaimed(RemoveUser(c, p, s, u).w, g, start)
  {
    var (w1, removed) := RemoveMember(c, s.w, p, u);
    assert Unclaimed(w1, g, start);
    UnmarkUnclaimed(c, w1, Key(p, u), g, start);
  }

  lemma UnmarkUnclaimed(c: Client, w: World, m: Membership, g: Place, start: Watch)
    requires Unclaimed(w, g, start)
    ensures Unclaimed(SaveTo(c, w, Unmark(w.books.memory, m)).0, g, start)
  {
  }

  /** Every resolved user is filed under its own id. */
  lemma {:induction false} ResolvedIds(c: Client, sources: seq<SourceUser>, fields: seq<string>, so: Resolution)
    requires forall u <- so.desired :: so.desired[u].id == u
    ensures forall u <- ResolveAll(c, sources, fields, so).desired ::
      ResolveAll(c, sources, fields, so).desired[u].id == u
    decreases sources
  {
    if sources != [] && so.error.None? {
      var next := ResolveOne(c, sources[0], fields, so);
      assert forall u <- next.desired :: next.desired[u].id == u;
      ResolvedIds(c, sources[1..], fields, next);
      assert ResolveAll(c, sources, fields, so) == ResolveAll(c, sources[1..], fields, next);
    }
  }

  /** The membership tables of the two agree. */
  predicate SameTables(a: Ledger, b: Ledger) {
    a.records == b.records && a.absences == b.absences
  }

  /** Opening a pass changes neither GitLab's members nor the membership tables. */
  lemma OpenFrame(c: Client, req: Request, t: Target, created: bool, w: World)
    ensures var o := Open(c, req, t, created, w);
      && o.s.w.members == w.members && o.s.w.groups == w.groups && o.s.w.log == w.log
      && o.s.w.books.memory.records == w.books.memory.records
      && o.s.w.books.memory.absences == w.books.memory.absences
      && (o.s.w.books.disk == w.books.disk || SameTables(o.s.w.books.disk, w.books.memory))
      && (o.s.w.books.settled == w.books.settled || SameTables(o.s.w.books.settled, w.books.memory))
      && (o.s.error.None? ==>
            && o.s.w.books.disk == o.s.w.books.settled == o.s.w.books.memory
            && o.existing == w.Roster(Place(c.owner, t.id))
            && (forall u <- o.desired :: o.desired[u].id == u)
            && Bind(c, req, t, created, w.books.memory).Bound?
            && o.s.w.books.memory == Put(w.books.memory, Bind(c, req, t, created, w.books.memory).mapping)
            && o.s.r.unresolved == ResolveAll(c, req.group.members, req.identityMatch,
              Resolution(w.tick + 2, map[], 0, None)).unresolved
            && o.desired == ResolveAll(c, req.group.members, req.identityMatch,
              Resolution(w.tick + 2, map[], 0, None)).desired)
  {
    OpenBooks(c, req, t, created, w);
    OpenResolves(c, req, t, created, w);
  }

  lemma OpenResolves(c: Client, req: Request, t: Target, created: bool, w: World)
    ensures var o := Open(c, req, t, created, w);
      var so := ResolveAll(c, req.group.members, req.identityMatch, Resolution(w.tick + 2, map[], 0, None));
      o.s.error.None? ==>
        && o.existing == w.Roster(Place(c.owner, t.id)) && o.s.r.unresolved == so.unresolved && o.desired == so.desired
        && (forall u <- o.desired :: o.desired[u].id == u)
  {
    ResolvedIds(c, req.group.members, req.identityMatch, Resolution(w.tick + 2, map[], 0, None));
  }

  lemma PassUnclaimed(c: Client, req: Request, t: Target, created: bool, w: World, g: Place, start: Watch)
    requires c.Valid() && req.prune == "managed-only"
    requires Unclaimed(w, g, start)
    ensures Unclaimed(Pass(c, req, t, created, w).w, g, start)
  {
    var p := Place(c.owner, t.id);
    var o := Open(c, req, t, created, w);
    OpenFrame(c, req, t, created, w);
    assert Unclaimed(o.s.w, g, start);
    if o.s.error.None? {
      OpenLists(c, req, t, created, w);
      EnsureAllUnclaimed(c, req, p, o.existing, o.s, o.desired, c.ranging(o.s.w.tick, o.desired.Keys), g, start);
      var s := Raised(c, req, t, created, w);
      if s.error.None? && s.r.unresolved == 0 {
        CloseUnclaimed(c, req, p, o.existing, o.order, o.desired.Keys, s, g, start);
      }
    }
  }

  lemma CloseUnclaimed(
      c: Client, req: Request, p: Place, existing: Roster, listing: seq<Id>, desired: set<Id>, s: Step, g: Place,
      start: Watch)
    requires forall u <- listing :: u in existing
    requires req.prune == "managed-only"
    requires Unclaimed(s.w, g, start)
    ensures Unclaimed(Close(c, req, p, existing, listing, desired, s).w, g, start)
  {
    var ga := Gate(s.(w := Call(s.w)), [], false);
    GateAllUnclaimed(c, req, p, existing, desired, c.self(s.w.tick), ga, listing, g, start);
    var out := GateAll(c, req, p, existing, desired, c.self(s.w.tick), ga, listing);
    RemoveAllUnclaimed(c, p, out.s, out.removals, g, start);
  }

  // ----- ensuring the target group touches no existing roster -----

  ghost predicate Extends(w: World, w': World) {
    && (forall p <- w.members :: p in w'.members && w'.members[p] == w.members[p])
    && (forall a <- w.groups :: a in w'.groups && w'.groups[a] == w.groups[a])
    && w'.books == w.books && w'.log == w.log
  }

  /** The path one segment further down. */
  lemma JoinNext(segments: seq<string>, i: nat)
    requires i < |segments|
    ensures Join(segments[..i + 1]) == if i == 0 then segments[0] else Join(segments[..i]) + "/" + segments[i]
  {
    assert segments[..i + 1] == segments[..i] + [segments[i]];
    if i > 0 {
      JoinConcat(segments[..i], [segments[i]]);
    }
  }

  /** A group is created only where none was. */
  lemma CreateExtends(c: Client, w: World, w1: World, segment: string, parent: Option<Target>)
    requires Extends(w, w1)
    requires Address(c.owner, if parent.None? then segment else parent.value.path + "/" + segment) !in w.groups
    ensures Extends(w, CreateGroup(c, w1, segment, parent).0)
  {
  }

  lemma {:induction false} DescendExtends(
      c: Client, w: World, segments: seq<string>, i: nat, current: Option<Target>, created: bool)
    requires current.Some? ==>
      0 < i && current.value.path == Join(segments[..if i <= |segments| then i else |segments|])
    requires current.None? ==> i == 0
    ensures Extends(w, Descend(c, w, segments, i, current, created).w)
    decreases |segments| - i
  {
    if i < |segments| {
      var path := Join(segments[..i + 1]);
      var (w1, found, read) := GetGroup(c, w, path);
      if read && found.Some? {
        DescendExtends(c, w1, segments, i + 1, found, created);
      } else if read {
        var (w2, made, ok) := CreateGroup(c, w1, segments[i], current);
        JoinNext(segments, i);
        assert made.path == path;
        CreateExtends(c, w, w1, segments[i], current);
        if ok {
          DescendExtends(c, w2, segments, i + 1, Some(made), true);
          ExtendsChain(w, w2, Descend(c, w2, segments, i + 1, Some(made), true).w);
        }
      }
    }
  }

  lemma ExtendsChain(a: World, b: World, c: World)
    requires Extends(a, b) && Extends(b, c)
    ensures Extends(a, c)
  {
  }

  lemma {:induction false} SplitPrefix(full: string, parent: string)
    requires full == parent || HasPrefix(full, parent + "/")
    ensures |Split(parent)| <= |Split(full)|
    ensures Join(Split(full)[..|Split(parent)|]) == parent
  {
    JoinSplit(parent);
    if full != parent {
      var rest := full[|parent| + 1..];
      assert full == parent + "/" + rest;
      SplitBelow(parent, rest);
      assert Split(full)[..|Split(parent)|] == Split(parent);
    } else {
      assert Split(full)[..|Split(full)|] == Split(full);
    }
  }

  /** Creation only adds groups and rosters; it never replaces one. */
  lemma EnsureGroupExtends(c: Client, w: World, fullPath: string, parentPath: string, create: bool)
    ensures Extends(w, EnsureGroup(c, w, fullPath, parentPath, create).w)
  {
    var full := TrimSlashes(fullPath);
    var parent := TrimSlashes(parentPath);
    if full != "" && (parent == "" || full == parent || HasPrefix(full, parent + "/")) {
      var (w1, found, read) := GetGroup(c, w, full);
      if read && found.None? && create {
        if parent == "" {
          DescendExtends(c, w1, Split(full), 0, None, false);
        } else {
          var (w2, top, readTop) := GetGroup(c, w1, parent);
          if readTop && top.Some? {
            SplitPrefix(full, parent);
            DescendExtends(c, w2, Split(full), |Split(parent)|, top, false);
          }
        }
      }
    }
  }

  lemma ActUnclaimed(w: World, a: Action, g: Place, start: Watch)
    requires a.Synchronize? ==> a.c.Valid() && a.req.prune == "managed-only"
    requires a.Restart? ==> (if a.lost then start.settled else start.disk) == {}
    requires Unclaimed(w, g, start)
    ensures Unclaimed(Act(w, a), g, start)
  {
    match a
    case Restart(_) =>
    case Synchronize(c, req) =>
      EnsureGroupExtends(c, w, req.targetPath, req.targetParent, req.createGroup);
      var e := EnsureGroup(c, w, req.targetPath, req.targetParent, req.createGroup);
      assert Unclaimed(e.w, g, start) by {
        forall u | u in start.members
          ensures u in e.w.Roster(g) && e.w.Roster(g)[u] == start.members[u]
        {
          assert g in w.members;
        }
      }
      if e.error.None? && e.target.Some? {
        PassUnclaimed(c, req, e.target.value, e.created, e.w, g, start);
      }
  }

  /**
   Managed-only passes, failing anywhere and restarted anywhere, leave every
   membership that was there before the ledger knew the group as it was.
  */
  lemma {:induction false} ManagedOnlyFrame(w: World, actions: seq<Action>, g: Place)
    requires ValidActions(actions)
    requires forall a <- actions :: a.Synchronize? ==> a.req.prune == "managed-only"
    requires forall u :: Key(g, u) !in w.books.memory.records + w.books.disk.records + w.books.settled.records
    ensures Unclaimed(Run(w, actions), g, Watched(w, g))
    ensures forall u <- w.Roster(g) :: u in Run(w, actions).Roster(g) && Run(w, actions).Roster(g)[u] == w.Roster(g)[u]
    decreases |actions|
  {
    if actions != [] {
      var last := |actions| - 1;
      ManagedOnlyFrame(w, actions[..last], g);
      assert actions[last] in actions;
      ActUnclaimed(Run(w, actions[..last]), actions[last], g, Watched(w, g));
    }
  }
}

/**
 The GitLab provider as it runs: objects updated call by call, maps and slices
 grown in loops, an early return at every failure. Each method is proved to do
 exactly what the pass functions say.
*/
module GitLab {
  import opened Wrappers
  import opened Ledger
  import opened Text
  import opened Store
  import S = Sync

  /** The GitLab side: its groups and their direct members. */
  class Server {
    const env: Environment
    var groups: map<S.Address, Id>
    var members: map<S.Place, S.Roster>

    constructor (env: Environment)
      ensures this.env == env && groups == map[] && members == map[]
    {
      this.env := env;
      groups, members := map[], map[];
    }

    ghost function At(b: Books): S.World
      reads this, env
    {
      S.World(groups, members, b, env.tick, env.log)
    }

    function Roster(p: S.Place): S.Roster
      reads this
    {
      if p in members then members[p] else map[]
    }

    method GetGroup(c: S.Client, path: string, ghost b: Books) returns (found: Option<S.Target>, ok: bool)
      requires c.fault == env.fault
      modifies env`tick
      ensures (At(b), found, ok) == S.GetGroup(c, old(At(b)), path)
    {
      var f := env.Next();
      var a := S.Address(c.owner, path);
      found := if a in groups then Some(S.Target(groups[a], path)) else None;
      ok := Acknowledged(f);
    }

    method CreateGroup(
        c: S.Client, segment: string, parent: Option<S.Target>, ghost b: Books) returns (made: S.Target, ok: bool)
      requires c.fault == env.fault
      modifies this, env`tick
      ensures (At(b), made, ok) == S.CreateGroup(c, old(At(b)), segment, parent)
    {
      var tick := env.tick;
      var f := env.Next();
      var path := if parent.None? then segment else parent.value.path + "/" + segment;
      made := S.Target(c.newId(tick), path);
      if !f.Before? {
        groups := groups[S.Address(c.owner, path) := made.id];
        var p := S.Place(c.owner, made.id);
        if p !in members {
          members := members[p := c.founders(tick)];
        }
      }
      ok := Acknowledged(f);
    }

    method ListMembers(c: S.Client, p: S.Place, ghost b: Books) returns (listing: seq<Id>, ok: bool)
      requires c.fault == env.fault
      modifies env`tick
      ensures At(b) == S.Call(old(At(b))) && ok == Acknowledged(c.fault(old(env.tick)))
      ensures listing == c.listing(old(env.tick), Roster(p).Keys)
    {
      listing := c.listing(env.tick, Roster(p).Keys);
      var f := env.Next();
      ok := Acknowledged(f);
    }

    method GetMember(c: S.Client, p: S.Place, u: Id, ghost b: Books) returns (found: Option<S.Member>, ok: bool)
      requires c.fault == env.fault
      modifies env`tick
      ensures At(b) == S.Call(old(At(b))) && ok == Acknowledged(c.fault(old(env.tick)))
      ensures found == if u in Roster(p) then Some(Roster(p)[u]) else None
    {
      var f := env.Next();
      found := if u in Roster(p) then Some(Roster(p)[u]) else None;
      ok := Acknowledged(f);
    }

    method AddMember(c: S.Client, p: S.Place, user: S.User, level: int, ghost b: Books) returns (ok: bool)
      requires c.fault == env.fault
      modifies this`members, env`tick, env`log
      ensures (At(b), ok) == S.AddMember(c, old(At(b)), p, user, level)
    {
      var f := env.Next();
      if user.id in Roster(p) {
        return false;
      }
      if f.Smooth? || f.After? {
        members := members[p := Roster(p)[user.id := S.Member(level, false, user.username)]];
        env.Record(Added(S.Key(p, user.id)));
      }
      ok := Acknowledged(f);
    }

    method UpdateMember(c: S.Client, p: S.Place, u: Id, level: int, ghost b: Books) returns (ok: bool)
      requires c.fault == env.fault
      modifies this`members, env`tick, env`log
      ensures (At(b), ok) == S.UpdateMember(c, old(At(b)), p, u, level)
    {
      var f := env.Next();
      if u !in Roster(p) {
        return false;
      }
      if f.Smooth? || f.After? {
        members := members[p := Roster(p)[u := Roster(p)[u].(level := level)]];
        env.Record(Leveled(S.Key(p, u)));
      }
      ok := Acknowledged(f);
    }

    method RemoveMember(c: S.Client, p: S.Place, u: Id, ghost b: Books) returns (ok: bool)
      requires c.fault == env.fault
      modifies this`members, env`tick, env`log
      ensures (At(b), ok) == S.RemoveMember(c, old(At(b)), p, u)
    {
      var f := env.Next();
      if u in Roster(p) && !f.Before? {
        members := members[p := Roster(p) - {u}];
        env.Record(Removed(S.Key(p, u)));
      }
      ok := Acknowledged(f);
    }
  }

  /** One configured provider over the shared store. */
  class Provider {
    const c: S.Client
    const server: Server
    const store: Store

    constructor (c: S.Client, server: Server, store: Store)
      ensures this.c == c && this.server == server && this.store == store
    {
      this.c := c;
      this.server := server;
      this.store := store;
    }

    ghost predicate Valid()
      reads this, server, store, store.disk
    {
      store.Valid() && store.env == server.env && c.Valid() && c.fault == server.env.fault
    }

    ghost function World(): S.World
      requires store.Decodable()
      reads server, store, store.disk, server.env
    {
      server.At(store.Snapshot())
    }

    method ResetAbsent(m: Membership) returns (ok: bool)
      requires Valid()
      modifies store, store.disk, store.env
      ensures Valid() && (World(), ok) == S.ResetAbsent(c, old(World()), m)
    {
      ok := store.ResetAbsent(m);
      assert old(World()).log + [] == old(World()).log;
    }

    /** One save through the store, seen from the whole world. */
    method SaveMark(m: Membership) returns (ok: bool)
      requires Valid()
      modifies store, store.disk, store.env
      ensures Valid() && (World(), ok) == S.SaveTo(c, old(World()), Mark(old(World()).books.memory, m))
    {
      ok := store.MarkManaged(m);
    }

    method SaveUnmark(m: Membership) returns (ok: bool)
      requires Valid()
      modifies store, store.disk, store.env
      ensures Valid() && (World(), ok) == S.SaveTo(c, old(World()), Unmark(old(World()).books.memory, m))
    {
      ok := store.UnmarkManaged(m);
    }

    method SavePut(g: GroupMapping) returns (ok: bool)
      requires Valid()
      modifies store, store.disk, store.env
      ensures Valid() && (World(), ok) == S.SaveTo(c, old(World()), Put(old(World()).books.memory, g))
    {
      ok := store.PutGroup(g);
    }

    /** Of the answers to one lookup, those that match exactly. */
    method ExactMatches(field: string, source: S.SourceUser, users: seq<S.User>) returns (matches: seq<S.User>)
      ensures matches == S.MatchesIn(c, field, source, users)
    {
      matches := [];
      for j := 0 to |users|
        invariant matches == S.MatchesIn(c, field, source, users[..j])
      {
        assert users[..j + 1][..j] == users[..j];
        if S.Matches(c, field, source, users[j]) {
          matches := matches + [users[j]];
        }
      }
      assert users[..|users|] == users;
    }

    /** `findUser`: strategies in order, and in each exactly one exact match. */
    method FindUser(source: S.SourceUser, fields: seq<string>) returns (user: Option<S.User>, error: Option<S.Error>)
      requires Valid()
      modifies store.env
      ensures Valid() && World() == old(World()).(tick := World().tick)
      ensures S.Lookup(World().tick, user, error) == S.FindUser(c, source, fields, old(World()).tick)
    {
      if |fields| > 1 {
        for i := 0 to |fields|
          invariant "oidc-username" !in fields[..i]
        {
          if fields[i] == "oidc-username" {
            return None, Some(S.BadStrategy);
          }
        }
        assert fields[..|fields|] == fields;
      }
      var i := 0;
      while i < |fields|
        invariant 0 <= i <= |fields|
        invariant Valid() && World() == old(World()).(tick := World().tick)
        invariant S.Strategies(c, source, fields[i..], World().tick)
          == S.Strategies(c, source, fields, old(World()).tick)
      {
        assert fields[i..][0] == fields[i] && fields[i..][1..] == fields[i + 1..];
        var query := S.Query(c, fields[i], source);
        if query.Some? {
          var users := c.users(store.env.tick, fields[i], query.value);
          var f := store.env.Next();
          if !Acknowledged(f) {
            return None, Some(S.Api);
          }
          var matches := ExactMatches(fields[i], source, users);
          if |matches| > 1 {
            return None, Some(S.Ambiguous);
          }
          if |matches| == 1 {
            return Some(matches[0]), None;
          }
        }
        i := i + 1;
      }
      return None, None;
    }

    method AddNew(req: S.Request, p: S.Place, user: S.User, r0: S.Result) returns (r: S.Result, error: Option<S.Error>)
      requires Valid()
      modifies server, store, store.disk, store.env
      ensures Valid() && S.Step(World(), r, error) == S.AddNew(c, req, p, S.Step(old(World()), r0, None), user)
    {
      r := r0;
      var level := S.LevelOf(req.accessLevel);
      var ok := server.AddMember(c, p, user, level, store.Snapshot());
      if !ok {
        return r, Some(S.Api);
      }
      var verified, read := server.GetMember(c, p, user.id, store.Snapshot());
      if !read {
        return r, Some(S.Api);
      }
      if verified.None? || verified.value.level < level {
        return r, Some(S.Unverified);
      }
      ok := SaveMark(S.Key(p, user.id));
      if !ok {
        return r, Some(S.SaveFailed);
      }
      r := r.(added := r.added + 1);
      error := None;
    }

    method Relevel(req: S.Request, p: S.Place, user: S.User, r0: S.Result) returns (r: S.Result, error: Option<S.Error>)
      requires Valid()
      modifies server, store, store.disk, store.env
      ensures Valid() && S.Step(World(), r, error) == S.Relevel(c, req, p, S.Step(old(World()), r0, None), user)
    {
      r := r0;
      var level := S.LevelOf(req.accessLevel);
      if req.prune == "managed-only" && !store.IsManaged(S.Key(p, user.id)) {
        return r, Some(S.Unowned);
      }
      var ok := server.UpdateMember(c, p, user.id, level, store.Snapshot());
      if !ok {
        return r, Some(S.Api);
      }
      var verified, read := server.GetMember(c, p, user.id, store.Snapshot());
      if !read {
        return r, Some(S.Api);
      }
      if verified.None? || verified.value.level != level {
        return r, Some(S.Unverified);
      }
      r := r.(updated := r.updated + 1);
      error := None;
    }

    method EnsureUser(req: S.Request, p: S.Place, existing: S.Roster, user: S.User, r0: S.Result)
      returns (r: S.Result, error: Option<S.Error>)
      requires Valid()
      modifies server, store, store.disk, store.env
      ensures Valid() && S.Step(World(), r, error)
        == S.EnsureUser(c, req, p, existing, S.Step(old(World()), r0, None), user)
    {
      r := r0;
      var reset := ResetAbsent(S.Key(p, user.id));
      if !reset {
        return r, Some(S.SaveFailed);
      }
      if user.id !in existing {
        r, error := AddNew(req, p, user, r);
        return;
      }
      var current := existing[user.id];
      if current.customRole {
        if S.RoleConflict(req, current) {
          return r, Some(S.CustomRole);
        }
        return r, None;
      }
      if S.NeedsLevel(req, current) {
        r, error := Relevel(req, p, user, r);
        return;
      }
      error := None;
    }

    method GateUser(
        req: S.Request, p: S.Place, desired: set<Id>, self: Id, u: Id, m: S.Member, r0: S.Result, removals0: seq<Id>,
        pending0: bool)
      returns (r: S.Result, removals: seq<Id>, pending: bool, error: Option<S.Error>)
      requires Valid()
      modifies store, store.disk, store.env
      ensures Valid() && S.Gate(S.Step(World(), r, error), removals, pending) ==
        S.GateUser(c, req, p, desired, self, S.Gate(S.Step(old(World()), r0, None), removals0, pending0), u, m)
    {
      r, removals, pending, error := r0, removals0, pending0, None;
      if u in desired {
        return;
      }
      if S.Exempt(c, req, self, u, m) {
        r := r.(skipped := r.skipped + 1);
        return;
      }
      if S.Prunable(req, store.IsManaged(S.Key(p, u))) {
        var confirmed := req.immediate;
        if !confirmed {
          var ok;
          confirmed, ok := store.ConfirmAbsent(S.Key(p, u));
          if !ok {
            error := Some(S.SaveFailed);
            return;
          }
        }
        if !confirmed {
          r := r.(skipped := r.skipped + 1);
          pending := true;
          return;
        }
        removals := removals + [u];
      }
    }

    method RemoveUser(p: S.Place, u: Id, r0: S.Result) returns (r: S.Result, error: Option<S.Error>)
      requires Valid()
      modifies server, store, store.disk, store.env
      ensures Valid() && S.Step(World(), r, error) == S.RemoveUser(c, p, S.Step(old(World()), r0, None), u)
    {
      r := r0;
      var ok := server.RemoveMember(c, p, u, store.Snapshot());
      if !ok {
        return r, Some(S.Api);
      }
      ok := SaveUnmark(S.Key(p, u));
      if !ok {
        return r, Some(S.SaveFailed);
      }
      ok := ResetAbsent(S.Key(p, u));
      if !ok {
        return r, Some(S.SaveFailed);
      }
      r := r.(removed := r.removed + 1);
      error := None;
    }

    /** The mapping to record, or the reason not to. */
    method Bind(req: S.Request, t: S.Target, created: bool) returns (b: S.Binding)
      requires Valid()
      ensures b == S.Bind(c, req, t, created, store.Memory())
    {
      var k := BindingKey(c.owner, req.rule, S.StateKey(req));
      var found := store.Group(k);
      if found.Some? && (found.value.targetGroupId != t.id || found.value.targetGroupPath != t.path) {
        return S.Refused(S.Retarget);
      }
      var mapping;
      if found.None? {
        mapping := GroupMapping(
          c.owner, req.rule, k.source, req.group.id, req.group.path, t.id, t.path, created || req.adopt);
      } else {
        mapping := found.value;
        if req.adopt && !mapping.owned {
          mapping := mapping.(owned := true);
        }
      }
      mapping := mapping.(sourceGroupPath := req.group.path);
      mapping := mapping.(sourceNativeId := req.group.id);
      if req.prune == "authoritative" && !mapping.owned {
        return S.Refused(S.NotOwned);
      }
      return S.Bound(mapping);
    }

    /** Resolves the source's members one by one, counting those without an active account. */
    method ResolveAll(sources: seq<S.SourceUser>, fields: seq<string>)
      returns (desired: map<Id, S.User>, unresolved: nat, error: Option<S.Error>)
      requires Valid()
      modifies store.env
      ensures Valid() && World() == old(World()).(tick := World().tick)
      ensures S.Resolution(World().tick, desired, unresolved, error)
           == S.ResolveAll(c, sources, fields, S.Resolution(old(World()).tick, map[], 0, None))
    {
      ghost var so := S.Resolution(World().tick, map[], 0, None);
      desired, unresolved, error := map[], 0, None;
      var i := 0;
      while i < |sources|
        invariant 0 <= i <= |sources|
        invariant Valid() && World() == old(World()).(tick := World().tick)
        invariant error == None
        invariant S.ResolveAll(c, sources[i..], fields, S.Resolution(World().tick, desired, unresolved, None))
               == S.ResolveAll(c, sources, fields, so)
      {
        assert sources[i..][0] == sources[i] && sources[i..][1..] == sources[i + 1..];
        var user;
        user, error := FindUser(sources[i], fields);
        if error.Some? {
          return;
        }
        if user.None? || !user.value.active {
          unresolved := unresolved + 1;
        } else {
          desired := desired[user.value.id := user.value];
        }
        i := i + 1;
      }
    }

    /** The first half of a pass: the binding, the member listing, the resolved users. */
    method Open(req: S.Request, t: S.Target, created: bool)
      returns (r: S.Result, existing: S.Roster, listing: seq<Id>, desired: map<Id, S.User>, error: Option<S.Error>)
      requires Valid()
      modifies store, store.disk, store.env
      ensures Valid()
      ensures S.Opening(S.Step(World(), r, error), existing, listing, desired)
        == S.Open(c, req, t, created, old(World()))
    {
      r, existing, listing, desired := S.NOTHING.(created := created), map[], [], map[];
      var p := S.Place(c.owner, t.id);
      var binding := Bind(req, t, created);
      if binding.Refused? {
        error := Some(binding.error);
        return;
      }
      var put := SavePut(binding.mapping);
      if !put {
        error := Some(S.SaveFailed);
        return;
      }
      var order, listed := server.ListMembers(c, p, store.Snapshot());
      if !listed {
        error := Some(S.Api);
        return;
      }
      listing := order;
      existing := server.Roster(p);
      var unresolved;
      desired, unresolved, error := ResolveAll(req.group.members, req.identityMatch);
      r := r.(unresolved := unresolved);
    }

    /** Additions and raises, in Go's map order. */
    method EnsureAll(
        req: S.Request, p: S.Place, existing: S.Roster, desired: map<Id, S.User>, order: seq<Id>, r0: S.Result)
      returns (r: S.Result, error: Option<S.Error>)
      requires Valid()
      requires forall u <- order :: u in desired
      modifies server, store, store.disk, store.env
      ensures Valid()
      ensures S.Step(World(), r, error)
        == S.EnsureAll(c, req, p, existing, S.Step(old(World()), r0, None), desired, order)
    {
      r, error := r0, None;
      var i := 0;
      while i < |order|
        invariant 0 <= i <= |order|
        invariant Valid() && error == None
        invariant S.EnsureAll(c, req, p, existing, S.Step(World(), r, error), desired, order[i..])
               == S.EnsureAll(c, req, p, existing, S.Step(old(World()), r0, None), desired, order)
      {
        assert order[i..][0] == order[i] && order[i..][1..] == order[i + 1..];
        r, error := EnsureUser(req, p, existing, desired[order[i]], r);
        if error.Some? {
          return;
        }
        i := i + 1;
      }
    }

    method GateAll(
        req: S.Request, p: S.Place, existing: S.Roster, listing: seq<Id>, desired: set<Id>, self: Id, r0: S.Result)
      returns (r: S.Result, removals: seq<Id>, pending: bool, error: Option<S.Error>)
      requires Valid()
      requires forall u <- listing :: u in existing
      modifies store, store.disk, store.env
      ensures Valid()
      ensures S.Gate(S.Step(World(), r, error), removals, pending)
           == S.GateAll(c, req, p, existing, desired, self, S.Gate(S.Step(old(World()), r0, None), [], false), listing)
    {
      r, removals, pending, error := r0, [], false, None;
      ghost var g0 := S.Gate(S.Step(World(), r, None), [], false);
      var i := 0;
      while i < |listing|
        invariant 0 <= i <= |listing|
        invariant Valid() && error == None
        invariant S.GateAll(c, req, p, existing, desired, self, S.Gate(S.Step(World(), r, error), removals, pending),
          listing[i..])
               == S.GateAll(c, req, p, existing, desired, self, g0, listing)
      {
        assert listing[i..][0] == listing[i] && listing[i..][1..] == listing[i + 1..];
        r, removals, pending, error :=
          GateUser(req, p, desired, self, listing[i], existing[listing[i]], r, removals, pending);
        if error.Some? {
          return;
        }
        i := i + 1;
      }
    }

    method RemoveAll(p: S.Place, removals: seq<Id>, r0: S.Result) returns (r: S.Result, error: Option<S.Error>)
      requires Valid()
      modifies server, store, store.disk, store.env
      ensures Valid()
      ensures S.Step(World(), r, error) == S.RemoveAll(c, p, S.Step(old(World()), r0, None), removals)
    {
      r, error := r0, None;
      ghost var s1 := S.Step(World(), r, None);
      var i := 0;
      while i < |removals|
        invariant 0 <= i <= |removals|
        invariant Valid() && error == None
        invariant S.RemoveAll(c, p, S.Step(World(), r, error), removals[i..]) == S.RemoveAll(c, p, s1, removals)
      {
        assert removals[i..][0] == removals[i] && removals[i..][1..] == removals[i + 1..];
        r, error := RemoveUser(p, removals[i], r);
        if error.Some? {
          return;
        }
        i := i + 1;
      }
    }

    /** The gate over the listing, then the removals it allowed. */
    method Close(req: S.Request, p: S.Place, existing: S.Roster, listing: seq<Id>, desired: set<Id>, r0: S.Result)
      returns (r: S.Result, error: Option<S.Error>)
      requires Valid()
      requires forall u <- listing :: u in existing
      modifies server, store, store.disk, store.env
      ensures Valid()
      ensures S.Step(World(), r, error)
        == S.Close(c, req, p, existing, listing, desired, S.Step(old(World()), r0, None))
    {
      var self := c.self(store.env.tick);
      var f := store.env.Next();
      if !Acknowledged(f) {
        return r0, Some(S.Api);
      }
      var removals, pending;
      r, removals, pending, error := GateAll(req, p, existing, listing, desired, self, r0);
      if error.Some? {
        return;
      }
      if |removals| > req.maxRemovals {
        return r, Some(S.TooManyRemovals);
      }
      r, error := RemoveAll(p, removals, r);
      if error.Some? {
        return;
      }
      r := r.(converged := !pending);
    }

    /** `ensureGroup`: the group itself, or the missing descendants of its parent. */
    method EnsureGroup(fullPath: string, parentPath: string, create: bool)
      returns (target: Option<S.Target>, created: bool, error: Option<S.Error>)
      requires Valid()
      modifies server, store.env
      ensures Valid()
      ensures S.Ensured(World(), target, created, error) == S.EnsureGroup(c, old(World()), fullPath, parentPath, create)
    {
      var full := TrimSlashes(fullPath);
      var parent := TrimSlashes(parentPath);
      target, created, error := None, false, None;
      if full == "" {
        return None, false, Some(S.EmptyTarget);
      }
      if parent != "" && full != parent && !HasPrefix(full, parent + "/") {
        return None, false, Some(S.NotBelowParent);
      }
      var found, read := server.GetGroup(c, full, store.Snapshot());
      if !read {
        return None, false, Some(S.Api);
      }
      if found.Some? {
        return found, false, None;
      }
      if !create {
        return None, false, Some(S.Missing);
      }
      var current: Option<S.Target> := None;
      var i := 0;
      if parent != "" {
        var top, readTop := server.GetGroup(c, parent, store.Snapshot());
        if !readTop {
          return None, false, Some(S.Api);
        }
        if top.None? {
          return None, false, Some(S.NoParent);
        }
        current := top;
        i := |Split(parent)|;
      }
      target, created, error := Descend(Split(full), i, current);
    }

    /** The segments from the given one on, below what has been found so far. */
    method Descend(remaining: seq<string>, from: nat, top: Option<S.Target>)
      returns (target: Option<S.Target>, created: bool, error: Option<S.Error>)
      requires Valid()
      modifies server, store.env
      ensures Valid()
      ensures S.Ensured(World(), target, created, error) == S.Descend(c, old(World()), remaining, from, top, false)
    {
      var current, createdAny, i := top, false, from;
      ghost var goal := S.Descend(c, World(), remaining, i, current, false);
      while i < |remaining|
        invariant 0 <= i
        invariant Valid()
        invariant S.Descend(c, World(), remaining, i, current, createdAny) == goal
      {
        var candidate := Join(remaining[..i + 1]);
        var there, readThere := server.GetGroup(c, candidate, store.Snapshot());
        if !readThere {
          return None, false, Some(S.Api);
        }
        if there.Some? {
          current := there;
        } else {
          var made, ok := server.CreateGroup(c, remaining[i], current, store.Snapshot());
          if !ok {
            return None, false, Some(S.Api);
          }
          current := Some(made);
          createdAny := true;
        }
        i := i + 1;
      }
      if current.None? {
        return None, createdAny, Some(S.Missing);
      }
      return current, createdAny, None;
    }

    /** `SyncGroup`, call by call. */
    method SyncGroup(req: S.Request) returns (r: S.Result, error: Option<S.Error>)
      requires Valid()
      modifies server, store, store.disk, store.env
      ensures Valid()
      ensures S.Step(World(), r, error) == S.SyncGroup(c, req, old(World()))
    {
      var target, created, ensureError := EnsureGroup(req.targetPath, req.targetParent, req.createGroup);
      if ensureError.Some? {
        return S.NOTHING, ensureError;
      }
      if target.None? {
        return S.NOTHING, Some(S.Missing);
      }
      var t := target.value;
      var p := S.Place(c.owner, t.id);
      ghost var w := World();
      var existing, listing, desired;
      r, existing, listing, desired, error := Open(req, t, created);
      if error.Some? {
        return;
      }
      S.OpenLists(c, req, t, created, w);
      var order := c.ranging(store.env.tick, desired.Keys);
      r, error := EnsureAll(req, p, existing, desired, order, r);
      if error.Some? || r.unresolved > 0 {
        return;
      }
      r, error := Close(req, p, existing, listing, desired.Keys, r);
    }
  }
}

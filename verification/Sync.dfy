/**
 One membership pass (`SyncGroup`) as a function of the world, the request and
 the faults met on the way. Each call of GitLab or of the ledger is one step; an
 error at any step ends the pass with whatever has already taken effect.
*/
module Sync {
  import opened Wrappers
  import opened Ledger
  import opened Text

  const OWNER_LEVEL := 50

  // ----- GitLab -----

  datatype Address = Address(owner: Id, path: string)
  datatype Place = Place(owner: Id, groupId: Id)
  datatype Target = Target(id: Id, path: string)

  datatype Member = Member(level: int, customRole: bool, username: string)
  type Roster = map<Id, Member>

  datatype Identity = Identity(provider: string, externUid: string)
  datatype User = User(id: Id, username: string, email: string, active: bool, identities: seq<Identity>)

  // ----- the request -----

  datatype SourceUser = SourceUser(id: Id, username: string, email: string)
  datatype SourceGroup = SourceGroup(id: Id, name: string, path: string, members: seq<SourceUser>)

  datatype Request = Request(
    rule: Id, stateKey: Id, group: SourceGroup,
    targetPath: string, targetParent: string, createGroup: bool, adopt: bool,
    accessLevel: string, prune: string, protectedUsers: seq<string>, maxRemovals: int,
    identityMatch: seq<string>, enforce: bool, immediate: bool)

  datatype Error =
    | EmptyTarget | NotBelowParent | NoParent | Missing | Api | SaveFailed | Retarget | NotOwned
    | BadStrategy | Ambiguous | Unverified | CustomRole | Unowned | TooManyRemovals

  datatype Result = Result(
    created: bool, added: nat, updated: nat, removed: nat, unresolved: nat, skipped: nat, converged: bool)

  const NOTHING := Result(false, 0, 0, 0, 0, 0, false)

  // ----- the world a pass runs in -----

  /**
   GitLab's groups and direct members, the ledger in memory and on disk, how many
   calls were made, and the history of membership effects.
  */
  datatype World = World(
    groups: map<Address, Id>,
    members: map<Place, Roster>,
    books: Books,
    tick: nat,
    log: seq<Event>)
  {
    function Roster(p: Place): Roster {
      if p in members then members[p] else map[]
    }
  }

  /**
   A configured GitLab provider and everything it cannot control: GitLab's
   answers, the order in which it and Go list things, and the fault of each call.
   All are indexed by the number of calls made so far, so they may change freely.
  */
  datatype Client = Client(
    name: string, owner: Id, oidcProvider: string,
    lower: string -> string, equalFold: (string, string) -> bool,
    users: (nat, string, string) -> seq<User>,
    self: nat -> Id,
    newId: nat -> Id, founders: nat -> Roster,
    listing: (nat, set<Id>) -> seq<Id>, ranging: (nat, set<Id>) -> seq<Id>,
    fault: nat -> Fault)
  {
    ghost predicate Valid() {
      && (forall t, s :: Enumerates(listing(t, s), s))
      && (forall t, s :: Enumerates(ranging(t, s), s))
    }
  }

  ghost predicate Enumerates<T(!new)>(q: seq<T>, s: set<T>) {
    && (forall x :: x in q <==> x in s)
    && (forall i, j :: 0 <= i < j < |q| ==> q[i] != q[j])
  }

  /** The key of one member of a place in the ledger. */
  function Key(p: Place, u: Id): Membership {
    Membership(p.owner, p.groupId, u)
  }

  function LevelOf(accessLevel: string): int {
    if accessLevel == "guest" then 10
    else if accessLevel == "planner" then 15
    else if accessLevel == "reporter" then 20
    else if accessLevel == "developer" then 30
    else if accessLevel == "maintainer" then 40
    else 0
  }

  function StateKey(req: Request): Id {
    if req.stateKey == "" then req.group.id else req.stateKey
  }

  // ----- single calls -----

  /** A call that only reads, or whose effect is none of ours: one fault is used up. */
  function Call(w: World): World {
    w.(tick := w.tick + 1)
  }

  function SaveWith(fault: nat -> Fault, w: World, next: Ledger): (World, bool) {
    var f := fault(w.tick);
    (w.(books := Save(w.books, next, f), tick := w.tick + 1), Acknowledged(f))
  }

  function SaveTo(c: Client, w: World, next: Ledger): (World, bool) {
    SaveWith(c.fault, w, next)
  }

  function ResetAbsent(c: Client, w: World, m: Membership): (World, bool) {
    if m !in w.books.memory.absences then (w.(log := w.log + [Cleared(m)]), true)
    else
      var (w1, ok) := SaveTo(c, w, Clear(w.books.memory, m));
      (w1.(log := w1.log + if ok then [Cleared(m)] else []), ok)
  }

  /** The second component says whether the absence is confirmed, the third whether the save succeeded. */
  function ConfirmAbsent(c: Client, w: World, m: Membership): (World, bool, bool) {
    var f := c.fault(w.tick);
    var (w1, ok) := SaveTo(c, w, Observe(w.books.memory, m));
    (w1.(log := w1.log + if f.Before? then [] else [Observed(m)]), ok && w.books.memory.Observations(m) + 1 >= 2, ok)
  }

  function SetMember(w: World, p: Place, u: Id, m: Member, e: Event): World {
    w.(members := w.members[p := w.Roster(p)[u := m]], log := w.log + [e])
  }

  /** GitLab refuses to add a member twice. */
  function AddMember(c: Client, w: World, p: Place, user: User, level: int): (World, bool) {
    var w1 := Call(w);
    if user.id in w.Roster(p) then (w1, false)
    else
      match c.fault(w.tick)
      case Smooth => (SetMember(w1, p, user.id, Member(level, false, user.username), Added(Key(p, user.id))), true)
      case Ignored => (w1, true)
      case Before(_) => (w1, false)
      case After(_) => (SetMember(w1, p, user.id, Member(level, false, user.username), Added(Key(p, user.id))), false)
  }

  lemma AddMemberBooks(c: Client, w: World, p: Place, user: User, level: int)
    ensures AddMember(c, w, p, user, level).0.books == w.books
    ensures AddMember(c, w, p, user, level).0.groups == w.groups && AddMember(c, w, p, user, level).0.tick == w.tick + 1
  {
  }

  function UpdateMember(c: Client, w: World, p: Place, u: Id, level: int): (World, bool) {
    var w1 := Call(w);
    if u !in w.Roster(p) then (w1, false)
    else
      match c.fault(w.tick)
      case Smooth => (SetMember(w1, p, u, w.Roster(p)[u].(level := level), Leveled(Key(p, u))), true)
      case Ignored => (w1, true)
      case Before(_) => (w1, false)
      case After(_) => (SetMember(w1, p, u, w.Roster(p)[u].(level := level), Leveled(Key(p, u))), false)
  }

  /** Removing a member who is already gone counts as done. */
  function RemoveMember(c: Client, w: World, p: Place, u: Id): (World, bool) {
    var w1 := Call(w);
    var gone := if u in w.Roster(p) then
      w1.(members := w.members[p := w.Roster(p) - {u}], log := w.log + [Removed(Key(p, u))]) else w1;
    match c.fault(w.tick)
    case Smooth => (gone, true)
    case Ignored => (gone, true)
    case Before(_) => (w1, false)
    case After(_) => (gone, false)
  }

  // ----- resolving source users -----

  function HasIdentity(user: User, provider: string, externUid: string): bool {
    Identity(provider, externUid) in user.identities
  }

  /** What one strategy looks for; None when the strategy is skipped. */
  function Query(c: Client, field: string, source: SourceUser): Option<string> {
    if field == "oidc" then
      if source.id == "" || c.oidcProvider == "" then None else Some(source.id)
    else if field == "oidc-username" then
      if source.username == "" || c.oidcProvider == "" then None else Some(source.username)
    else if field == "username" then
      if source.username == "" then None else Some(source.username)
    else if field == "email" then
      if source.email == "" then None else Some(source.email)
    else None
  }

  /** The exact match that the code itself demands of what GitLab returned. */
  predicate Matches(c: Client, field: string, source: SourceUser, candidate: User) {
    || (field == "oidc" && HasIdentity(candidate, c.oidcProvider, source.id))
    || (field == "oidc-username" && HasIdentity(candidate, c.oidcProvider, source.username))
    || (field == "username" && c.equalFold(candidate.username, source.username))
    || (field == "email" && c.equalFold(candidate.email, source.email))
  }

  function MatchesIn(c: Client, field: string, source: SourceUser, users: seq<User>): seq<User> {
    if users == [] then []
    else
      var rest := MatchesIn(c, field, source, users[..|users| - 1]);
      var last := users[|users| - 1];
      if Matches(c, field, source, last) then rest + [last] else rest
  }

  datatype Lookup = Lookup(tick: nat, user: Option<User>, error: Option<Error>)

  function Strategies(c: Client, source: SourceUser, fields: seq<string>, tick: nat): Lookup {
    if fields == [] then Lookup(tick, None, None)
    else
      match Query(c, fields[0], source)
      case None => Strategies(c, source, fields[1..], tick)
      case Some(value) =>
        if !Acknowledged(c.fault(tick)) then Lookup(tick + 1, None, Some(Api))
        else
          var found := MatchesIn(c, fields[0], source, c.users(tick, fields[0], value));
          if |found| > 1 then Lookup(tick + 1, None, Some(Ambiguous))
          else if |found| == 1 then Lookup(tick + 1, Some(found[0]), None)
          else Strategies(c, source, fields[1..], tick + 1)
  }

  function FindUser(c: Client, source: SourceUser, fields: seq<string>, tick: nat): Lookup {
    if |fields| > 1 && "oidc-username" in fields then Lookup(tick, None, Some(BadStrategy))
    else Strategies(c, source, fields, tick)
  }

  datatype Resolution = Resolution(tick: nat, desired: map<Id, User>, unresolved: nat, error: Option<Error>)

  function ResolveOne(c: Client, source: SourceUser, fields: seq<string>, so: Resolution): Resolution {
    var found := FindUser(c, source, fields, so.tick);
    if found.error.Some? then so.(tick := found.tick, error := found.error)
    else if found.user.None? || !found.user.value.active then so.(tick := found.tick, unresolved := so.unresolved + 1)
    else so.(tick := found.tick, desired := so.desired[found.user.value.id := found.user.value])
  }

  function ResolveAll(c: Client, sources: seq<SourceUser>, fields: seq<string>, so: Resolution): Resolution
    decreases sources
  {
    if sources == [] || so.error.Some? then so
    else ResolveAll(c, sources[1..], fields, ResolveOne(c, sources[0], fields, so))
  }

  // ----- additions and raises -----

  datatype Step = Step(w: World, r: Result, error: Option<Error>)

  function AddNew(c: Client, req: Request, p: Place, s: Step, user: User): Step {
    var level := LevelOf(req.accessLevel);
    var (w1, added) := AddMember(c, s.w, p, user, level);
    if !added then s.(w := w1, error := Some(Api))
    else
      var w2 := Call(w1);
      if !Acknowledged(c.fault(w1.tick)) then s.(w := w2, error := Some(Api))
      else if user.id !in w1.Roster(p)
        || w1.Roster(p)[user.id].level < level then s.(w := w2, error := Some(Unverified))
      else
        var (w3, marked) := SaveTo(c, w2, Mark(w2.books.memory, Key(p, user.id)));
        if !marked then s.(w := w3, error := Some(SaveFailed))
        else s.(w := w3, r := s.r.(added := s.r.added + 1))
  }

  function Relevel(c: Client, req: Request, p: Place, s: Step, user: User): Step {
    var level := LevelOf(req.accessLevel);
    if req.prune == "managed-only" && Key(p, user.id) !in s.w.books.memory.records then s.(error := Some(Unowned))
    else
      var (w1, updated) := UpdateMember(c, s.w, p, user.id, level);
      if !updated then s.(w := w1, error := Some(Api))
      else
        var w2 := Call(w1);
        if !Acknowledged(c.fault(w1.tick)) then s.(w := w2, error := Some(Api))
        else if user.id !in w1.Roster(p)
          || w1.Roster(p)[user.id].level != level then s.(w := w2, error := Some(Unverified))
        else s.(w := w2, r := s.r.(updated := s.r.updated + 1))
  }

  predicate NeedsLevel(req: Request, current: Member) {
    var level := LevelOf(req.accessLevel);
    current.level < level || (req.enforce && current.level != level && current.level < OWNER_LEVEL)
  }

  predicate RoleConflict(req: Request, current: Member) {
    var level := LevelOf(req.accessLevel);
    current.customRole && (current.level < level || (req.enforce && current.level != level))
  }

  function EnsureUser(c: Client, req: Request, p: Place, existing: Roster, s: Step, user: User): Step {
    var (w1, reset) := ResetAbsent(c, s.w, Key(p, user.id));
    var s1 := s.(w := w1);
    if !reset then s1.(error := Some(SaveFailed))
    else if user.id !in existing then AddNew(c, req, p, s1, user)
    else
      var current := existing[user.id];
      if current.customRole then
        if RoleConflict(req, current) then s1.(error := Some(CustomRole)) else s1
      else if NeedsLevel(req, current) then Relevel(c, req, p, s1, user)
      else s1
  }

  function EnsureAll(
      c: Client, req: Request, p: Place, existing: Roster, s: Step, desired: map<Id, User>, order: seq<Id>): Step
    requires forall u <- order :: u in desired
    decreases order
  {
    if order == [] || s.error.Some? then s
    else EnsureAll(c, req, p, existing, EnsureUser(c, req, p, existing, s, desired[order[0]]), desired, order[1..])
  }

  // ----- the removal gate -----

  predicate Exempt(c: Client, req: Request, self: Id, u: Id, m: Member) {
    || u == self || m.level >= OWNER_LEVEL || m.customRole
    || exists name <- req.protectedUsers :: c.lower(name) == c.lower(m.username)
  }

  predicate Prunable(req: Request, managed: bool) {
    req.prune == "authoritative" || (req.prune == "managed-only" && managed)
  }

  datatype Gate = Gate(s: Step, removals: seq<Id>, pending: bool)

  function GateUser(c: Client, req: Request, p: Place, desired: set<Id>, self: Id, g: Gate, u: Id, m: Member): Gate {
    if u in desired then g
    else if Exempt(c, req, self, u, m) then g.(s := g.s.(r := g.s.r.(skipped := g.s.r.skipped + 1)))
    else if !Prunable(req, Key(p, u) in g.s.w.books.memory.records) then g
    else if req.immediate then g.(removals := g.removals + [u])
    else
      var (w1, confirmed, ok) := ConfirmAbsent(c, g.s.w, Key(p, u));
      var s1 := g.s.(w := w1);
      if !ok then g.(s := s1.(error := Some(SaveFailed)))
      else if !confirmed then g.(s := s1.(r := s1.r.(skipped := s1.r.skipped + 1)), pending := true)
      else g.(s := s1, removals := g.removals + [u])
  }

  function GateAll(
      c: Client, req: Request, p: Place, existing: Roster, desired: set<Id>, self: Id, g: Gate, listing: seq<Id>): Gate
    requires forall u <- listing :: u in existing
    decreases listing
  {
    if listing == [] || g.s.error.Some? then g
    else GateAll(c, req, p, existing, desired, self,
      GateUser(c, req, p, desired, self, g, listing[0], existing[listing[0]]), listing[1..])
  }

  // ----- removals -----

  function RemoveUser(c: Client, p: Place, s: Step, u: Id): Step {
    var (w1, removed) := RemoveMember(c, s.w, p, u);
    if !removed then s.(w := w1, error := Some(Api))
    else
      var (w2, unmarked) := SaveTo(c, w1, Unmark(w1.books.memory, Key(p, u)));
      if !unmarked then s.(w := w2, error := Some(SaveFailed))
      else
        var (w3, reset) := ResetAbsent(c, w2, Key(p, u));
        if !reset then s.(w := w3, error := Some(SaveFailed))
        else s.(w := w3, r := s.r.(removed := s.r.removed + 1))
  }

  function RemoveAll(c: Client, p: Place, s: Step, removals: seq<Id>): Step
    decreases removals
  {
    if removals == [] || s.error.Some? then s
    else RemoveAll(c, p, RemoveUser(c, p, s, removals[0]), removals[1..])
  }

  // ----- one pass on a target that exists -----

  datatype Binding = Bound(mapping: GroupMapping) | Refused(error: Error)

  /** The mapping this request would record, or why it must not. */
  function Bind(c: Client, req: Request, t: Target, created: bool, l: Ledger): Binding {
    var k := BindingKey(c.owner, req.rule, StateKey(req));
    if k in l.groups && (l.groups[k].targetGroupId != t.id || l.groups[k].targetGroupPath != t.path) then
      Refused(Retarget)
    else
      var base :=
        if k !in l.groups then
          GroupMapping(c.owner, req.rule, k.source, req.group.id, req.group.path, t.id, t.path, created || req.adopt)
        else if req.adopt then l.groups[k].(owned := true)
        else l.groups[k];
      var mapping := base.(sourceGroupPath := req.group.path, sourceNativeId := req.group.id);
      if req.prune == "authoritative" && !mapping.owned then Refused(NotOwned) else Bound(mapping)
  }

  /** Everything before the first membership change. */
  datatype Opening = Opening(s: Step, existing: Roster, order: seq<Id>, desired: map<Id, User>)

  function Open(c: Client, req: Request, t: Target, created: bool, w: World): Opening {
    var r := NOTHING.(created := created);
    var p := Place(c.owner, t.id);
    match Bind(c, req, t, created, w.books.memory)
    case Refused(e) => Opening(Step(w, r, Some(e)), map[], [], map[])
    case Bound(mapping) =>
      var (w1, put) := SaveTo(c, w, Put(w.books.memory, mapping));
      if !put then Opening(Step(w1, r, Some(SaveFailed)), map[], [], map[])
      else
        var w2 := Call(w1);
        if !Acknowledged(c.fault(w1.tick)) then Opening(Step(w2, r, Some(Api)), map[], [], map[])
        else
          var existing := w1.Roster(p);
          var listing := c.listing(w1.tick, existing.Keys);
          var so := ResolveAll(c, req.group.members, req.identityMatch, Resolution(w2.tick, map[], 0, None));
          Opening(Step(w2.(tick := so.tick), r.(unresolved := so.unresolved), so.error), existing, listing, so.desired)
  }

  /** Opening a pass saves at most its binding. */
  lemma OpenBooks(c: Client, req: Request, t: Target, created: bool, w: World)
    ensures var o := Open(c, req, t, created, w);
      && o.s.w == w.(books := o.s.w.books, tick := o.s.w.tick)
      && match Bind(c, req, t, created, w.books.memory)
         case Refused(_) => o.s.w.books == w.books && o.s.error.Some?
         case Bound(mapping) =>
           && o.s.w.books == Save(w.books, Put(w.books.memory, mapping), c.fault(w.tick))
           && (o.s.error.None? ==> Acknowledged(c.fault(w.tick)))
  {
  }

  function Close(c: Client, req: Request, p: Place, existing: Roster, listing: seq<Id>, desired: set<Id>, s: Step): Step
    requires forall u <- listing :: u in existing
  {
    var w1 := Call(s.w);
    if !Acknowledged(c.fault(s.w.tick)) then s.(w := w1, error := Some(Api))
    else
      var g := GateAll(c, req, p, existing, desired, c.self(s.w.tick), Gate(s.(w := w1), [], false), listing);
      if g.s.error.Some? then g.s
      else if |g.removals| > req.maxRemovals then g.s.(error := Some(TooManyRemovals))
      else
        var s2 := RemoveAll(c, p, g.s, g.removals);
        if s2.error.Some? then s2 else s2.(r := s2.r.(converged := !g.pending))
  }

  /** The state once every desired user has been added or raised, or an error met. */
  function Raised(c: Client, req: Request, t: Target, created: bool, w: World): Step
    requires c.Valid()
    requires Open(c, req, t, created, w).s.error.None?
  {
    var o := Open(c, req, t, created, w);
    OpenLists(c, req, t, created, w);
    EnsureAll(c, req, Place(c.owner, t.id), o.existing, o.s, o.desired, c.ranging(o.s.w.tick, o.desired.Keys))
  }

  function Pass(c: Client, req: Request, t: Target, created: bool, w: World): Step
    requires c.Valid()
  {
    var o := Open(c, req, t, created, w);
    if o.s.error.Some? then o.s
    else
      OpenLists(c, req, t, created, w);
      var s := Raised(c, req, t, created, w);
      if s.error.Some? || s.r.unresolved > 0 then s
      else Close(c, req, Place(c.owner, t.id), o.existing, o.order, o.desired.Keys, s)
  }

  lemma OpenLists(c: Client, req: Request, t: Target, created: bool, w: World)
    requires c.Valid()
    requires Open(c, req, t, created, w).s.error.None?
    ensures var o := Open(c, req, t, created, w);
      && Enumerates(o.order, o.existing.Keys)
      && Enumerates(c.ranging(o.s.w.tick, o.desired.Keys), o.desired.Keys)
  {
    var o := Open(c, req, t, created, w);
    var _ := c.ranging(o.s.w.tick, o.desired.Keys);
    var (w1, put) := SaveTo(c, w, Put(w.books.memory, Bind(c, req, t, created, w.books.memory).mapping));
    assert o.order == c.listing(w1.tick, o.existing.Keys);
  }

  // ----- finding or creating the target -----

  datatype Ensured = Ensured(w: World, target: Option<Target>, created: bool, error: Option<Error>)

  /** `GET /groups/:path`: the group, or none on 404. */
  function GetGroup(c: Client, w: World, path: string): (World, Option<Target>, bool) {
    var a := Address(c.owner, path);
    (Call(w), if a in w.groups then Some(Target(w.groups[a], path)) else None, Acknowledged(c.fault(w.tick)))
  }

  /** GitLab derives the new group's full path from the parent it was given. */
  function CreateGroup(c: Client, w: World, segment: string, parent: Option<Target>): (World, Target, bool) {
    var path := if parent.None? then segment else parent.value.path + "/" + segment;
    var id := c.newId(w.tick);
    var p := Place(c.owner, id);
    var made := Call(w).(
      groups := w.groups[Address(c.owner, path) := id],
      members := if p in w.members then w.members else w.members[p := c.founders(w.tick)]);
    (if c.fault(w.tick).Before? then Call(w) else made, Target(id, path), Acknowledged(c.fault(w.tick)))
  }

  function Descend(c: Client, w: World, segments: seq<string>, i: nat, current: Option<Target>, created: bool): Ensured
    decreases |segments| - i
  {
    if i >= |segments| then
      if current.None? then Ensured(w, None, created, Some(Missing)) else Ensured(w, current, created, None)
    else
      var (w1, found, read) := GetGroup(c, w, Join(segments[..i + 1]));
      if !read then Ensured(w1, None, false, Some(Api))
      else if found.Some? then Descend(c, w1, segments, i + 1, found, created)
      else
        var (w2, made, ok) := CreateGroup(c, w1, segments[i], current);
        if !ok then Ensured(w2, None, false, Some(Api))
        else Descend(c, w2, segments, i + 1, Some(made), true)
  }

  function EnsureGroup(c: Client, w: World, fullPath: string, parentPath: string, create: bool): Ensured {
    var full := TrimSlashes(fullPath);
    var parent := TrimSlashes(parentPath);
    if full == "" then Ensured(w, None, false, Some(EmptyTarget))
    else if parent != "" && full != parent
      && !HasPrefix(full, parent + "/") then Ensured(w, None, false, Some(NotBelowParent))
    else
      var (w1, found, read) := GetGroup(c, w, full);
      if !read then Ensured(w1, None, false, Some(Api))
      else if found.Some? then Ensured(w1, found, false, None)
      else if !create then Ensured(w1, None, false, Some(Missing))
      else if parent == "" then Descend(c, w1, Split(full), 0, None, false)
      else
        var (w2, top, readTop) := GetGroup(c, w1, parent);
        if !readTop then Ensured(w2, None, false, Some(Api))
        else if top.None? then Ensured(w2, None, false, Some(NoParent))
        else Descend(c, w2, Split(full), |Split(parent)|, top, false)
  }

  /** The whole of `SyncGroup`. */
  function SyncGroup(c: Client, req: Request, w: World): Step
    requires c.Valid()
  {
    var e := EnsureGroup(c, w, req.targetPath, req.targetParent, req.createGroup);
    if e.error.Some? then Step(e.w, NOTHING, e.error)
    else if e.target.None? then Step(e.w, NOTHING, Some(Missing))
    else Pass(c, req, e.target.value, e.created, e.w)
  }
}

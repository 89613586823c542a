/**
 The private routing index (`routeIndex`): four maps updated in place, always
 the ones a rebuild from the members under the current secret would give.
*/
module Routes {
  import opened Wrappers
  import opened Ledger
  import opened Sync

  type Key = string

  datatype Domain = GroupDomain | UserDomain

  /** The keyed hash: any function that tells domains and identifiers apart under one secret. */
  type Mac = (string, Domain, Id) -> Key

  ghost predicate Separates(mac: Mac) {
    forall s, d, i, e, j :: mac(s, d, i) == mac(s, e, j) ==> d == e && i == j
  }

  const MIN_SECRET := 32

  /** The secret file could be read and is long enough. */
  predicate Loadable(loaded: Option<string>) {
    loaded.Some? && |loaded.value| >= MIN_SECRET
  }

  // ----- what a rebuild gives -----

  /** The three derived maps, as values. */
  datatype Derived = Derived(groupIds: map<Key, Id>, groupKeys: map<Id, Key>, userGroups: map<Key, set<Id>>)

  /** The groups filed under a user key. */
  function Filed(userGroups: map<Key, set<Id>>, k: Key): set<Id> {
    if k in userGroups then userGroups[k] else {}
  }

  ghost predicate HasUserWithKey(mac: Mac, secret: string, users: set<Id>, k: Key) {
    exists u <- users :: mac(secret, UserDomain, u) == k
  }

  ghost predicate IsGroups(
      mac: Mac, secret: string, groupUsers: map<Id, set<Id>>, groupIds: map<Key, Id>, groupKeys: map<Id, Key>)
  {
    && (forall g :: g in groupKeys <==> g in groupUsers)
    && (forall g <- groupKeys :: groupKeys[g] == mac(secret, GroupDomain, g))
    && (forall k <- groupIds :: groupIds[k] in groupUsers && mac(secret, GroupDomain, groupIds[k]) == k)
    && (forall g <- groupUsers :: mac(secret, GroupDomain, g) in groupIds)
  }

  ghost predicate IsUsers(mac: Mac, secret: string, groupUsers: map<Id, set<Id>>, userGroups: map<Key, set<Id>>) {
    && (forall k <- userGroups :: userGroups[k] != {})
    && (forall k, g :: g in Filed(userGroups, k) <==> Belongs(mac, secret, groupUsers, k, g))
  }

  /** The group has a user with this key. */
  ghost predicate Belongs(mac: Mac, secret: string, groupUsers: map<Id, set<Id>>, k: Key, g: Id) {
    g in groupUsers && HasUserWithKey(mac, secret, groupUsers[g], k)
  }

  /** Exactly the index of `groupUsers` under one secret, without empty user sets. */
  ghost predicate IsIndex(mac: Mac, secret: string, groupUsers: map<Id, set<Id>>, x: Derived) {
    IsGroups(mac, secret, groupUsers, x.groupIds, x.groupKeys) && IsUsers(mac, secret, groupUsers, x.userGroups)
  }

  /** The index is determined by the members and the secret. */
  lemma IndexUnique(mac: Mac, secret: string, groupUsers: map<Id, set<Id>>, x: Derived, y: Derived)
    requires Separates(mac)
    requires IsIndex(mac, secret, groupUsers, x) && IsIndex(mac, secret, groupUsers, y)
    ensures x == y
  {
    GroupsWithin(mac, secret, groupUsers, x, y);
    GroupsWithin(mac, secret, groupUsers, y, x);
    assert x.groupKeys == y.groupKeys;
    assert x.groupIds == y.groupIds;
    forall k
      ensures Filed(x.userGroups, k) == Filed(y.userGroups, k)
    {
      forall g
        ensures g in Filed(x.userGroups, k) <==> g in Filed(y.userGroups, k)
      {
        assert g in Filed(x.userGroups, k) <==> Belongs(mac, secret, groupUsers, k, g);
        assert g in Filed(y.userGroups, k) <==> Belongs(mac, secret, groupUsers, k, g);
      }
    }
    assert forall k :: k in x.userGroups <==> Filed(x.userGroups, k) != {};
    assert forall k :: k in y.userGroups <==> Filed(y.userGroups, k) != {};
    assert x.userGroups == y.userGroups;
  }

  lemma GroupsWithin(mac: Mac, secret: string, groupUsers: map<Id, set<Id>>, x: Derived, y: Derived)
    requires Separates(mac)
    requires IsIndex(mac, secret, groupUsers, x) && IsIndex(mac, secret, groupUsers, y)
    ensures forall k <- x.groupIds :: k in y.groupIds && y.groupIds[k] == x.groupIds[k]
    ensures forall g <- x.groupKeys :: g in y.groupKeys && y.groupKeys[g] == x.groupKeys[g]
  {
  }

  /** One group's key entered by hand. */
  lemma EnterGroup(
      mac: Mac, secret: string, groupUsers: map<Id, set<Id>>, groupIds: map<Key, Id>, groupKeys: map<Id, Key>, g: Id,
      users: set<Id>)
    requires Separates(mac) && IsGroups(mac, secret, groupUsers, groupIds, groupKeys)
    ensures var k := mac(secret, GroupDomain, g);
      IsGroups(mac, secret, groupUsers[g := users], groupIds[k := g], groupKeys[g := k])
  {
  }

  /** One group's users refiled by hand: out under the old ones, in under the new. */
  lemma RefileUsers(
      mac: Mac, secret: string, groupUsers: map<Id, set<Id>>, before: map<Key, set<Id>>, middle: map<Key, set<Id>>,
      after: map<Key, set<Id>>,
      g: Id, users: set<Id>)
    requires IsUsers(mac, secret, groupUsers, before)
    requires forall k ::
      Filed(middle, k) == Filed(before, k) - (if Belongs(mac, secret, groupUsers, k, g) then {g} else {})
    requires forall k ::
      Filed(after, k) == Filed(middle, k) + (if HasUserWithKey(mac, secret, users, k) then {g} else {})
    requires forall k <- after :: after[k] != {}
    ensures IsUsers(mac, secret, groupUsers[g := users], after)
  {
  }

  /** The members a snapshot records; a user without id is dropped. */
  function UsersOf(members: seq<SourceUser>): set<Id> {
    set m | m in members && m.id != "" :: m.id
  }

  function Members(groups: seq<SourceGroup>): map<Id, set<Id>> {
    if groups == [] then map[]
    else Members(groups[..|groups| - 1])[groups[|groups| - 1].id := UsersOf(groups[|groups| - 1].members)]
  }

  /** The snapshot with one group's entry replaced, or added at the end. */
  function Substituted(groups: seq<SourceGroup>, g: SourceGroup): seq<SourceGroup> {
    if groups == [] then [g]
    else if groups[|groups| - 1].id == g.id then groups[..|groups| - 1] + [g]
    else Substituted(groups[..|groups| - 1], g) + [groups[|groups| - 1]]
  }

  lemma {:induction false} MembersSubstituted(groups: seq<SourceGroup>, g: SourceGroup)
    ensures Members(Substituted(groups, g)) == Members(groups)[g.id := UsersOf(g.members)]
  {
    if groups == [] {
      assert [g][..0] == [];
    } else {
      var init, last := groups[..|groups| - 1], groups[|groups| - 1];
      if last.id == g.id {
        assert (init + [g])[..|init|] == init;
      } else {
        MembersSubstituted(init, g);
        var s := Substituted(init, g);
        assert (s + [last])[..|s|] == s;
      }
    }
  }

  /** Updating one group gives the very index that replacing the whole snapshot would. */
  lemma UpdateIsReplace(
      mac: Mac, secret: string, groups: seq<SourceGroup>, g: SourceGroup, updated: Derived, replaced: Derived)
    requires Separates(mac)
    requires IsIndex(mac, secret, Members(groups)[g.id := UsersOf(g.members)], updated)
    requires IsIndex(mac, secret, Members(Substituted(groups, g)), replaced)
    ensures updated == replaced
  {
    MembersSubstituted(groups, g);
    IndexUnique(mac, secret, Members(Substituted(groups, g)), updated, replaced);
  }

  /** A key resolves to a group exactly if it is that group's key, and to the groups of the one user it names. */
  lemma ResolvesExactly(mac: Mac, secret: string, groupUsers: map<Id, set<Id>>, x: Derived, u: Id, g: Id)
    requires Separates(mac) && IsIndex(mac, secret, groupUsers, x)
    ensures var k := mac(secret, GroupDomain, g);
      (k in x.groupIds <==> g in groupUsers) && (k in x.groupIds ==> x.groupIds[k] == g)
    ensures g in Filed(x.userGroups, mac(secret, UserDomain, u)) <==> g in groupUsers && u in groupUsers[g]
    ensures mac(secret, UserDomain, u) !in x.groupIds
  {
  }

  lemma HasOneMore(mac: Mac, secret: string, users: set<Id>, u: Id)
    ensures forall k :: HasUserWithKey(mac, secret, users + {u}, k) <==>
      HasUserWithKey(mac, secret, users, k) || k == mac(secret, UserDomain, u)
  {
  }

  // ----- the object -----

  class RouteIndex {
    const mac: Mac
    var secret: string
    var groupIds: map<Key, Id>
    var groupKeys: map<Id, Key>
    var userGroups: map<Key, set<Id>>
    var groupUsers: map<Id, set<Id>>

    ghost predicate Valid()
      reads this
    {
      && Separates(mac)
      && (secret == "" ==> groupUsers == map[])
      && IsIndex(mac, secret, groupUsers, Derived(groupIds, groupKeys, userGroups))
    }

    constructor (mac: Mac)
      requires Separates(mac)
      ensures Valid() && this.mac == mac && secret == "" && groupUsers == map[]
    {
      this.mac := mac;
      secret := "";
      groupIds, groupKeys, userGroups, groupUsers := map[], map[], map[], map[];
    }

    /** Recomputes the three maps from the members. */
    method Rebuild()
      requires Separates(mac)
      modifies this`groupIds, this`groupKeys, this`userGroups
      ensures IsIndex(mac, secret, groupUsers, Derived(groupIds, groupKeys, userGroups))
    {
      groupIds, groupKeys, userGroups := map[], map[], map[];
      ghost var done: map<Id, set<Id>> := map[];
      var left := groupUsers.Keys;
      while left != {}
        invariant forall g <- left :: g in groupUsers && g !in done
        invariant forall g <- groupUsers :: g !in left ==> g in done
        invariant forall g <- done :: g in groupUsers && done[g] == groupUsers[g]
        invariant IsIndex(mac, secret, done, Derived(groupIds, groupKeys, userGroups))
        decreases left
      {
        var g :| g in left;
        AddGroup(g, groupUsers[g], done);
        done := done[g := groupUsers[g]];
        left := left - {g};
      }
      assert done == groupUsers;
    }

    /** Indexes one group that is not indexed yet. */
    method AddGroup(g: Id, users: set<Id>, ghost done: map<Id, set<Id>>)
      requires Separates(mac) && g !in done
      requires IsIndex(mac, secret, done, Derived(groupIds, groupKeys, userGroups))
      modifies this`groupIds, this`groupKeys, this`userGroups
      ensures IsIndex(mac, secret, done[g := users], Derived(groupIds, groupKeys, userGroups))
    {
      ghost var before := userGroups;
      EnterKey(g, users, done);
      AddUsers(g, users);
      RefileUsers(mac, secret, done, before, before, userGroups, g, users);
    }

    method EnterKey(g: Id, users: set<Id>, ghost done: map<Id, set<Id>>)
      requires Separates(mac) && IsGroups(mac, secret, done, groupIds, groupKeys)
      modifies this`groupIds, this`groupKeys
      ensures IsGroups(mac, secret, done[g := users], groupIds, groupKeys)
    {
      EnterGroup(mac, secret, done, groupIds, groupKeys, g, users);
      var groupKey := mac(secret, GroupDomain, g);
      groupIds := groupIds[groupKey := g];
      groupKeys := groupKeys[g := groupKey];
    }

    /** Moves one group from its old users to its new ones. */
    method Refile(g: Id, was: set<Id>, users: set<Id>)
      requires IsUsers(mac, secret, groupUsers, userGroups)
      requires was == if g in groupUsers then groupUsers[g] else {}
      modifies this`userGroups
      ensures IsUsers(mac, secret, groupUsers[g := users], userGroups)
    {
      ghost var before := userGroups;
      RemoveUsers(g, was);
      ghost var middle := userGroups;
      assert forall k :: HasUserWithKey(mac, secret, was, k) <==> Belongs(mac, secret, groupUsers, k, g);
      AddUsers(g, users);
      RefileUsers(mac, secret, groupUsers, before, middle, userGroups, g, users);
    }

    /** Files one group under each of its users' keys. */
    method AddUsers(g: Id, users: set<Id>)
      requires forall k <- userGroups :: userGroups[k] != {}
      modifies this`userGroups
      ensures forall k <- userGroups :: userGroups[k] != {}
      ensures forall k ::
        Filed(userGroups, k) == Filed(old(userGroups), k) + (if HasUserWithKey(mac, secret, users, k) then {g} else {})
    {
      var left := users;
      while left != {}
        invariant left <= users
        invariant forall k <- userGroups :: userGroups[k] != {}
        invariant forall k ::
          Filed(userGroups, k) ==
          Filed(old(userGroups), k) + (if HasUserWithKey(mac, secret, users - left, k) then {g} else {})
        decreases left
      {
        var u :| u in left;
        var key := mac(secret, UserDomain, u);
        HasOneMore(mac, secret, users - left, u);
        assert users - (left - {u}) == (users - left) + {u};
        userGroups := userGroups[key := (if key in userGroups then userGroups[key] else {}) + {g}];
        left := left - {u};
      }
      assert users - left == users;
    }

    /** Takes a group out from under each of its users' keys, dropping empty sets. */
    method RemoveUsers(g: Id, users: set<Id>)
      requires forall k <- userGroups :: userGroups[k] != {}
      modifies this`userGroups
      ensures forall k <- userGroups :: userGroups[k] != {}
      ensures forall k ::
        Filed(userGroups, k) == Filed(old(userGroups), k) - (if HasUserWithKey(mac, secret, users, k) then {g} else {})
    {
      var left := users;
      while left != {}
        invariant left <= users
        invariant forall k <- userGroups :: userGroups[k] != {}
        invariant forall k ::
          Filed(userGroups, k) ==
          Filed(old(userGroups), k) - (if HasUserWithKey(mac, secret, users - left, k) then {g} else {})
        decreases left
      {
        var u :| u in left;
        var key := mac(secret, UserDomain, u);
        HasOneMore(mac, secret, users - left, u);
        assert users - (left - {u}) == (users - left) + {u};
        if key in userGroups {
          var rest := userGroups[key] - {g};
          userGroups := if rest == {} then userGroups - {key} else userGroups[key := rest];
        }
        left := left - {u};
      }
      assert users - left == users;
    }

    /** A changed secret is adopted and everything rekeyed; a failed or short load changes nothing. */
    method RefreshSecret(loaded: Option<string>) returns (ok: bool)
      requires Valid()
      modifies this`secret, this`groupIds, this`groupKeys, this`userGroups
      ensures Valid() && ok == Loadable(loaded)
      ensures secret == if ok then loaded.value else old(secret)
      ensures !ok ==> unchanged(this)
    {
      if !Loadable(loaded) {
        return false;
      }
      ok := true;
      if loaded.value == secret {
        return;
      }
      secret := loaded.value;
      Rebuild();
    }

    method Refresh(loaded: Option<string>) returns (ok: bool)
      requires Valid()
      modifies this
      ensures Valid() && groupUsers == old(groupUsers) && ok == Loadable(loaded)
      ensures secret == if ok then loaded.value else old(secret)
    {
      ok := RefreshSecret(loaded);
    }

    method Replace(groups: seq<SourceGroup>, loaded: Option<string>) returns (ok: bool)
      requires Valid()
      modifies this
      ensures Valid() && ok == Loadable(loaded)
      ensures ok ==> secret == loaded.value && groupUsers == Members(groups)
      ensures !ok ==> unchanged(this)
    {
      ok := RefreshSecret(loaded);
      if !ok {
        return;
      }
      groupUsers := map[];
      for i := 0 to |groups|
        invariant secret == loaded.value && groupUsers == Members(groups[..i])
      {
        assert groups[..i + 1][..i] == groups[..i];
        groupUsers := groupUsers[groups[i].id := UsersOf(groups[i].members)];
      }
      assert groups[..|groups|] == groups;
      Rebuild();
    }

    method Update(group: SourceGroup, loaded: Option<string>) returns (ok: bool)
      requires Valid()
      modifies this
      ensures Valid() && ok == Loadable(loaded)
      ensures ok ==> secret == loaded.value && groupUsers == old(groupUsers)[group.id := UsersOf(group.members)]
      ensures !ok ==> unchanged(this)
    {
      ok := RefreshSecret(loaded);
      if !ok {
        return;
      }
      Reindex(group.id, UsersOf(group.members));
    }

    method Reindex(g: Id, users: set<Id>)
      requires Valid() && secret != ""
      modifies this`groupIds, this`groupKeys, this`userGroups, this`groupUsers
      ensures Valid() && groupUsers == old(groupUsers)[g := users]
    {
      ghost var before := groupUsers;
      var was := if g in groupUsers then groupUsers[g] else {};
      Refile(g, was, users);
      EnterKey(g, users, before);
      groupUsers := groupUsers[g := users];
      assert IsGroups(mac, secret, groupUsers, groupIds, groupKeys);
      assert IsUsers(mac, secret, groupUsers, userGroups);
    }

    function ResolveGroup(key: Key): Option<Id>
      reads this
    {
      if key in groupIds then Some(groupIds[key]) else None
    }

    function ResolveUser(key: Key): Option<set<Id>>
      reads this
    {
      if key in userGroups then Some(userGroups[key]) else None
    }

    function RouteForGroup(g: Id): Option<Key>
      reads this
    {
      if g in groupKeys then Some(groupKeys[g]) else None
    }
  }
}

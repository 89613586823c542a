/**
 Reading the source (`ListGroups`): a depth-first search over paged child
 listings with one shared set of seen ids, against reachability.
*/
module Traversal {
  import opened Wrappers
  import opened Ledger
  import Sync
  import Text

  /** A group as one listing shows it, and a user as a member listing shows it. */
  datatype Shown = Shown(id: Id, name: string, path: string)
  datatype Account = Account(id: Id, username: string, email: string, enabled: bool)

  type User = Sync.SourceUser
  type Group = Sync.SourceGroup

  /**
   A realm that does not change while it is read: what it lists, how many
   entries a page has by offset and call, and which calls fail.
  */
  datatype Realm = Realm(
    roots: seq<Shown>, children: Id -> seq<Shown>, members: Id -> seq<Account>,
    pageSize: nat -> nat, fails: nat -> bool)

  // ----- reachability -----

  predicate Lists(shown: seq<Shown>, x: Id) {
    exists i :: 0 <= i < |shown| && shown[i].id == x
  }

  ghost predicate IsPath(r: Realm, p: seq<Id>, x: Id) {
    && p != [] && Lists(r.roots, p[0]) && p[|p| - 1] == x
    && (forall i :: 0 <= i < |p| - 1 ==> Lists(r.children(p[i]), p[i + 1]))
  }

  ghost predicate Reachable(r: Realm, x: Id) {
    exists p :: IsPath(r, p, x)
  }

  lemma RootReachable(r: Realm, x: Id)
    requires Lists(r.roots, x)
    ensures Reachable(r, x)
  {
    assert IsPath(r, [x], x);
  }

  lemma ChildReachable(r: Realm, x: Id, y: Id)
    requires Reachable(r, x) && Lists(r.children(x), y)
    ensures Reachable(r, y)
  {
    var p :| IsPath(r, p, x);
    var q := p + [y];
    assert forall i :: 0 <= i < |p| ==> q[i] == p[i];
    assert IsPath(r, q, y);
  }

  /** A set with all roots that contains the children of its elements contains everything reachable. */
  ghost predicate ClosedUnderChildren(r: Realm, s: set<Id>) {
    forall x, y :: x in s && Lists(r.children(x), y) ==> y in s
  }

  lemma {:induction false} ReachableWithin(r: Realm, s: set<Id>, p: seq<Id>, x: Id)
    requires ClosedUnderChildren(r, s) && forall y :: Lists(r.roots, y) ==> y in s
    requires IsPath(r, p, x)
    ensures x in s
    decreases |p|
  {
    if |p| > 1 {
      var q := p[..|p| - 1];
      assert IsPath(r, q, q[|q| - 1]);
      ReachableWithin(r, s, q, q[|q| - 1]);
      assert Lists(r.children(p[|p| - 2]), p[|p| - 1]);
    }
  }

  /** Finitely many groups: every id listed anywhere within is in `all`. */
  ghost predicate Within(r: Realm, all: set<Id>) {
    && (forall y :: Lists(r.roots, y) ==> y in all)
    && ClosedUnderChildren(r, all)
  }

  // ----- what a listing has to be -----

  predicate Complete(s: Shown) {
    s.id != "" && s.name != ""
  }

  predicate Named(shown: seq<Shown>) {
    forall i :: 0 <= i < |shown| ==> Complete(shown[i])
  }

  predicate DistinctGroups(shown: seq<Shown>) {
    forall i, j :: 0 <= i < j < |shown| ==> shown[i].id != shown[j].id
  }

  predicate DistinctAccounts(accounts: seq<Account>) {
    forall i, j :: 0 <= i < j < |accounts| ==> accounts[i].id != accounts[j].id
  }

  /** Nothing this group lists is incomplete or listed twice. */
  predicate Clean(r: Realm, x: Id) {
    Named(r.children(x)) && DistinctGroups(r.children(x)) && DistinctAccounts(r.members(x))
  }

  ghost predicate NoFailure(r: Realm, from: nat, to: nat) {
    forall t :: from <= t < to ==> !r.fails(t)
  }

  // ----- what comes out -----

  function EnabledOnly(accounts: seq<Account>): seq<User> {
    if accounts == [] then []
    else
      var rest, last := EnabledOnly(accounts[..|accounts| - 1]), accounts[|accounts| - 1];
      if last.enabled then rest + [Sync.SourceUser(last.id, last.username, last.email)] else rest
  }

  function PathOf(shown: Shown, parentPath: string): string {
    if shown.path == "" then Text.TrimRight(parentPath, {'/'}) + "/" + shown.name else shown.path
  }

  function Describe(r: Realm, shown: Shown, parentPath: string): Group {
    Sync.SourceGroup(shown.id, shown.name, PathOf(shown, parentPath), EnabledOnly(r.members(shown.id)))
  }

  /** A group as a root listing, or the listing of some group before it in the result, shows it. */
  ghost predicate FromListing(r: Realm, groups: seq<Group>, g: Group) {
    (exists s <- r.roots :: g == Describe(r, s, "")) ||
    (exists j, s :: 0 <= j < |groups| && s in r.children(groups[j].id) && g == Describe(r, s, groups[j].path))
  }

  ghost predicate Follows(r: Realm, groups: seq<Group>, i: nat)
    requires i < |groups|
  {
    FromListing(r, groups[..i], groups[i])
  }

  /** Every group follows a group that lists it as a child, or is a root; each has an id, and none appears twice. */
  ghost predicate InOrder(r: Realm, groups: seq<Group>) {
    && (forall i {:trigger Follows(r, groups, i)} :: 0 <= i < |groups| ==> Follows(r, groups, i))
    && (forall i, j :: 0 <= i < j < |groups| ==> groups[i].id != groups[j].id)
    && (forall i :: 0 <= i < |groups| ==> groups[i].id != "")
  }

  ghost function Ids(groups: seq<Group>): set<Id> {
    set i | 0 <= i < |groups| :: groups[i].id
  }

  /** The whole snapshot: exactly the reachable groups, each once, parents first. */
  ghost predicate IsSnapshot(r: Realm, groups: seq<Group>) {
    InOrder(r, groups) && forall x :: x in Ids(groups) <==> Reachable(r, x)
  }

  lemma AppendInOrder(r: Realm, groups: seq<Group>, g: Group)
    requires InOrder(r, groups) && FromListing(r, groups, g) && g.id !in Ids(groups) && g.id != ""
    ensures InOrder(r, groups + [g]) && Ids(groups + [g]) == Ids(groups) + {g.id}
  {
    var more := groups + [g];
    forall i | 0 <= i < |more|
      ensures Follows(r, more, i)
    {
      if i < |groups| {
        assert Follows(r, groups, i);
        assert more[..i] == groups[..i];
      } else {
        assert more[..i] == groups;
      }
    }
    assert forall i :: 0 <= i < |groups| ==> groups[i].id in Ids(groups);
    assert more[|groups|] == g;
    assert forall i :: 0 <= i < |groups| ==> more[i] == groups[i];
  }

  /** What is owed for the groups taken up since `before`: none dirty, all children taken up too. */
  ghost predicate Settled(r: Realm, before: set<Id>, after: set<Id>) {
    && before <= after
    && (forall x <- after - before :: Clean(r, x))
    && (forall x, y :: x in after - before && Lists(r.children(x), y) ==> y in after)
  }

  lemma SettledChain(r: Realm, a: set<Id>, b: set<Id>, c: set<Id>)
    requires Settled(r, a, b) && Settled(r, b, c)
    ensures Settled(r, a, c)
  {
  }

  /** A group that was being worked on is settled once its children are taken up. */
  lemma SettledWith(r: Realm, a: set<Id>, x: Id, c: set<Id>)
    requires x !in a && Settled(r, a + {x}, c) && Clean(r, x)
    requires forall y :: Lists(r.children(x), y) ==> y in c
    ensures Settled(r, a, c)
  {
  }

  /** Why a traversal gives up: a failed call, or something a reachable group lists. */
  ghost predicate Defect(r: Realm, from: nat, to: nat) {
    || (exists t :: from <= t < to && r.fails(t))
    || !Named(r.roots) || !DistinctGroups(r.roots)
    || exists x :: Reachable(r, x) && !Clean(r, x)
  }

  /** A reachable group that some listing already met shows under this parent path. */
  ghost predicate Offered(r: Realm, all: set<Id>, groups: seq<Group>, s: Shown, parentPath: string) {
    Reachable(r, s.id) && s.id in all && FromListing(r, groups, Describe(r, s, parentPath))
  }

  ghost predicate AllOffered(r: Realm, all: set<Id>, groups: seq<Group>, listing: seq<Shown>, parentPath: string) {
    forall s <- listing :: Offered(r, all, groups, s, parentPath)
  }

  lemma OfferedStill(r: Realm, all: set<Id>, before: seq<Group>, groups: seq<Group>, s: Shown, parentPath: string)
    requires Offered(r, all, before, s, parentPath) && before <= groups
    ensures Offered(r, all, groups, s, parentPath)
  {
  }

  lemma ChildrenOffered(r: Realm, all: set<Id>, groups: seq<Group>, at: nat)
    requires Within(r, all) && at < |groups| && groups[at].id in all && Reachable(r, groups[at].id)
    ensures AllOffered(r, all, groups, r.children(groups[at].id), groups[at].path)
  {
    forall s | s in r.children(groups[at].id)
      ensures Offered(r, all, groups, s, groups[at].path)
    {
      assert Lists(r.children(groups[at].id), s.id);
      ChildReachable(r, groups[at].id, s.id);
    }
  }

  lemma RootsOffered(r: Realm, all: set<Id>, groups: seq<Group>)
    requires Within(r, all)
    ensures AllOffered(r, all, groups, r.roots, "")
  {
    forall s | s in r.roots
      ensures Offered(r, all, groups, s, "")
    {
      assert Lists(r.roots, s.id);
      RootReachable(r, s.id);
    }
  }

  /** Once the roots are settled, everything reachable has been taken up, and is clean. */
  lemma CollectedAll(r: Realm, seen: set<Id>)
    requires Settled(r, {}, seen) && forall s <- r.roots :: s.id in seen
    ensures forall x :: Reachable(r, x) ==> x in seen && Clean(r, x)
  {
    assert seen - {} == seen;
    forall x | Reachable(r, x)
      ensures x in seen && Clean(r, x)
    {
      var p :| IsPath(r, p, x);
      ReachableWithin(r, seen, p, x);
    }
  }

  class Keycloak {
    const realm: Realm
    var tick: nat
    var seen: set<Id>
    var groups: seq<Group>
    ghost const all: set<Id>

    constructor (realm: Realm, ghost all: set<Id>)
      requires Within(realm, all)
      ensures this.realm == realm && this.all == all && tick == 0 && seen == {} && groups == []
    {
      this.realm, this.all := realm, all;
      tick, seen, groups := 0, {}, [];
    }

    /**
     One call: None when it fails, else how many entries the server puts on the
     page, at least one if any are left.
    */
    method Get(left: nat) returns (count: Option<nat>)
      modifies this`tick
      ensures tick == old(tick) + 1 && count.None? == realm.fails(old(tick))
      ensures count.Some? ==> count.value <= left && (count.value == 0 <==> left == 0)
    {
      if realm.fails(tick) {
        count := None;
      } else {
        var size := if realm.pageSize(tick) == 0 then 1 else realm.pageSize(tick);
        count := Some(if size < left then size else left);
      }
      tick := tick + 1;
    }

    /** Takes one page of groups in; stops at an id already seen on some page. */
    method TakeShown(ids: set<Id>, page: seq<Shown>, ghost before: seq<Shown>) returns (more: set<Id>, duplicate: bool)
      requires DistinctGroups(before) && forall x :: x in ids <==> Lists(before, x)
      ensures duplicate == !DistinctGroups(before + page)
      ensures !duplicate ==> forall x :: x in more <==> Lists(before + page, x)
    {
      more, duplicate := ids, false;
      assert before + page[..0] == before;
      for i := 0 to |page|
        invariant DistinctGroups(before + page[..i]) && forall x :: x in more <==> Lists(before + page[..i], x)
      {
        TakeNext(before, page, i);
        if page[i].id in more {
          TwiceListed(before + page, before + page[..i], page[i]);
          return more, true;
        }
        OneMoreShown(before + page[..i], page[i]);
        more := more + {page[i].id};
      }
      assert page[..|page|] == page;
    }

    /** Pages through a listing of groups; None on a failed call or an id listed twice. */
    method ListGroupsPage(listing: seq<Shown>) returns (result: Option<seq<Shown>>)
      modifies this`tick
      ensures tick >= old(tick)
      ensures result.Some? ==> result.value == listing && DistinctGroups(listing) && NoFailure(realm, old(tick), tick)
      ensures result.None? ==> !DistinctGroups(listing) || !NoFailure(realm, old(tick), tick)
    {
      var collected: seq<Shown> := [];
      var ids: set<Id> := {};
      while true
        invariant tick >= old(tick) && NoFailure(realm, old(tick), tick)
        invariant collected <= listing
        invariant DistinctGroups(collected) && forall x :: x in ids <==> Lists(collected, x)
        decreases |listing| - |collected|
      {
        var count := Get(|listing| - |collected|);
        if count.None? {
          assert realm.fails(tick - 1);
          return None;
        }
        if count.value == 0 {
          return Some(collected);
        }
        var page := listing[|collected|..|collected| + count.value];
        assert collected + page == listing[..|collected| + count.value];
        var duplicate;
        ids, duplicate := TakeShown(ids, page, collected);
        if duplicate {
          return None;
        }
        collected := collected + page;
      }
    }

    /** Takes one page of members in, keeping the enabled ones. */
    method TakeAccounts(ids: set<Id>, kept: seq<User>, page: seq<Account>, ghost before: seq<Account>)
        returns (more: set<Id>, users: seq<User>, duplicate: bool)
      requires DistinctAccounts(before) && (forall x :: x in ids <==> Has(before, x)) && kept == EnabledOnly(before)
      ensures duplicate == !DistinctAccounts(before + page)
      ensures !duplicate ==> (forall x :: x in more <==> Has(before + page, x)) && users == EnabledOnly(before + page)
    {
      more, users, duplicate := ids, kept, false;
      assert before + page[..0] == before;
      for i := 0 to |page|
        invariant DistinctAccounts(before + page[..i]) && forall x :: x in more <==> Has(before + page[..i], x)
        invariant users == EnabledOnly(before + page[..i])
      {
        var user := page[i];
        TakeNext(before, page, i);
        if user.id in more {
          TwiceIn(before + page, before + page[..i], user);
          return more, users, true;
        }
        OneMoreAccount(before + page[..i], user);
        more := more + {user.id};
        if user.enabled {
          users := users + [Sync.SourceUser(user.id, user.username, user.email)];
        }
      }
      assert page[..|page|] == page;
    }

    /** Pages through the members of a group; disabled users are dropped. */
    method ListMembers(id: Id) returns (result: Option<seq<User>>)
      modifies this`tick
      ensures tick >= old(tick)
      ensures result.Some? ==>
        && result.value == EnabledOnly(realm.members(id)) && DistinctAccounts(realm.members(id))
        && NoFailure(realm, old(tick), tick)
      ensures result.None? ==> !DistinctAccounts(realm.members(id)) || !NoFailure(realm, old(tick), tick)
    {
      var listing := realm.members(id);
      var users: seq<User> := [];
      var ids: set<Id> := {};
      var first := 0;
      while true
        invariant tick >= old(tick) && NoFailure(realm, old(tick), tick)
        invariant first <= |listing| && users == EnabledOnly(listing[..first])
        invariant DistinctAccounts(listing[..first]) && forall x :: x in ids <==> Has(listing[..first], x)
        decreases |listing| - first
      {
        var count := Get(|listing| - first);
        if count.None? {
          assert realm.fails(tick - 1);
          return None;
        }
        if count.value == 0 {
          assert listing[..first] == listing;
          return Some(users);
        }
        var page := listing[first..first + count.value];
        assert listing[..first] + page == listing[..first + count.value];
        var duplicate;
        ids, users, duplicate := TakeAccounts(ids, users, page, listing[..first]);
        if duplicate {
          return None;
        }
        first := first + |page|;
      }
    }

    /** What has been collected so far is reachable, in order, and each group once. */
    ghost predicate Collecting()
      reads this
    {
      && Within(realm, all) && seen <= all
      && InOrder(realm, groups) && Ids(groups) == seen
      && forall x <- seen :: Reachable(realm, x)
    }

    /** Why collecting these groups may fail. */
    ghost predicate Troubled(from: nat, complete: bool)
      reads this
    {
      !NoFailure(realm, from, tick) || !complete || exists x :: Reachable(realm, x) && !Clean(realm, x)
    }

    /** Each of these groups in turn, and everything below it. */
    method CollectEach(listing: seq<Shown>, parentPath: string) returns (ok: bool)
      requires Collecting() && AllOffered(realm, all, groups, listing, parentPath)
      modifies this`tick, this`seen, this`groups
      ensures tick >= old(tick) && old(seen) <= seen
      ensures ok ==> Collecting() && old(groups) <= groups && NoFailure(realm, old(tick), tick)
      ensures ok ==> Named(listing) && Settled(realm, old(seen), seen) && forall s <- listing :: s.id in seen
      ensures !ok ==> Troubled(old(tick), Named(listing))
      decreases all - seen, 2
    {
      for i := 0 to |listing|
        invariant tick >= old(tick) && NoFailure(realm, old(tick), tick)
        invariant Collecting() && old(groups) <= groups && Settled(realm, old(seen), seen)
        invariant AllOffered(realm, all, groups, listing, parentPath)
        invariant forall j :: 0 <= j < i ==> Complete(listing[j]) && listing[j].id in seen
      {
        ghost var before := seen;
        ok := CollectNext(listing, i, parentPath);
        if !ok {
          return false;
        }
        SettledChain(realm, old(seen), before, seen);
      }
      return true;
    }

    method CollectNext(listing: seq<Shown>, i: nat, parentPath: string) returns (ok: bool)
      requires Collecting() && i < |listing| && AllOffered(realm, all, groups, listing, parentPath)
      modifies this`tick, this`seen, this`groups
      ensures tick >= old(tick) && old(seen) <= seen
      ensures ok ==> Collecting() && old(groups) <= groups && NoFailure(realm, old(tick), tick)
      ensures ok ==> Complete(listing[i]) && listing[i].id in seen && Settled(realm, old(seen), seen)
      ensures ok ==> AllOffered(realm, all, groups, listing, parentPath)
      ensures !ok ==> Troubled(old(tick), Complete(listing[i]))
      decreases all - seen, 1
    {
      ok := CollectGroup(listing[i], parentPath);
      if ok {
        forall s | s in listing
          ensures Offered(realm, all, groups, s, parentPath)
        {
          OfferedStill(realm, all, old(groups), groups, s, parentPath);
        }
      }
    }

    /** One group and, unless it was met before, everything below it. */
    method CollectGroup(shown: Shown, parentPath: string) returns (ok: bool)
      requires Collecting() && Offered(realm, all, groups, shown, parentPath)
      modifies this`tick, this`seen, this`groups
      ensures tick >= old(tick) && old(seen) <= seen
      ensures ok ==> Collecting() && old(groups) <= groups && NoFailure(realm, old(tick), tick)
      ensures ok ==> Complete(shown) && shown.id in seen && Settled(realm, old(seen), seen)
      ensures !ok ==> Troubled(old(tick), Complete(shown))
      decreases all - seen, 0
    {
      if !Complete(shown) {
        return false;
      }
      if shown.id in seen {
        return true;
      }
      seen := seen + {shown.id};
      var path := PathOf(shown, parentPath);
      var members := ListMembers(shown.id);
      if members.None? {
        return false;
      }
      AppendInOrder(realm, groups, Describe(realm, shown, parentPath));
      groups := groups + [Sync.SourceGroup(shown.id, shown.name, path, members.value)];
      var children := ListGroupsPage(realm.children(shown.id));
      if children.None? {
        return false;
      }
      ChildrenOffered(realm, all, groups, |groups| - 1);
      ok := CollectEach(children.value, path);
      if ok {
        SettledWith(realm, old(seen), shown.id, seen);
      }
    }

    /** The complete snapshot, or nothing. */
    method ListGroups() returns (result: Option<seq<Group>>)
      requires Within(realm, all)
      modifies this
      ensures tick >= old(tick)
      ensures result.Some? ==> IsSnapshot(realm, result.value)
      ensures result.Some? <==> !Defect(realm, old(tick), tick)
    {
      seen, groups := {}, [];
      var roots := ListGroupsPage(realm.roots);
      if roots.None? {
        return None;
      }
      RootsOffered(realm, all, groups);
      var ok := CollectEach(roots.value, "");
      if !ok {
        return None;
      }
      CollectedAll(realm, seen);
      return Some(groups);
    }
  }

  /** One more entry of a page. */
  lemma TakeNext<T>(before: seq<T>, page: seq<T>, i: nat)
    requires i < |page|
    ensures before + page[..i + 1] == (before + page[..i]) + [page[i]]
    ensures (before + page[..i]) + [page[i]] <= before + page
  {
  }

  predicate Has(accounts: seq<Account>, x: Id) {
    exists i :: 0 <= i < |accounts| && accounts[i].id == x
  }

  lemma OneMoreAccount(accounts: seq<Account>, a: Account)
    requires DistinctAccounts(accounts) && !Has(accounts, a.id)
    ensures DistinctAccounts(accounts + [a]) && forall x :: Has(accounts + [a], x) <==> Has(accounts, x) || x == a.id
    ensures EnabledOnly(accounts + [a]) == EnabledOnly(accounts) + if a.enabled then
      [Sync.SourceUser(a.id, a.username, a.email)] else []
  {
    var more := accounts + [a];
    assert more[|accounts|] == a && more[..|accounts|] == accounts;
    forall x | Has(accounts, x)
      ensures Has(more, x)
    {
      var i :| 0 <= i < |accounts| && accounts[i].id == x;
      assert more[i].id == x;
    }
  }

  lemma TwiceIn(listing: seq<Account>, before: seq<Account>, a: Account)
    requires before + [a] <= listing && Has(before, a.id)
    ensures !DistinctAccounts(listing)
  {
    var i :| 0 <= i < |before| && before[i].id == a.id;
    assert listing[i] == (before + [a])[i] && listing[|before|] == (before + [a])[|before|];
  }

  lemma OneMoreShown(shown: seq<Shown>, s: Shown)
    requires DistinctGroups(shown) && !Lists(shown, s.id)
    ensures DistinctGroups(shown + [s]) && forall x :: Lists(shown + [s], x) <==> Lists(shown, x) || x == s.id
  {
    var more := shown + [s];
    assert more[|shown|] == s;
    forall x | Lists(shown, x)
      ensures Lists(more, x)
    {
      var i :| 0 <= i < |shown| && shown[i].id == x;
      assert more[i].id == x;
    }
  }

  lemma TwiceListed(listing: seq<Shown>, before: seq<Shown>, s: Shown)
    requires before + [s] <= listing && Lists(before, s.id)
    ensures !DistinctGroups(listing)
  {
    var i :| 0 <= i < |before| && before[i].id == s.id;
    assert listing[i] == (before + [s])[i] && listing[|before|] == (before + [s])[|before|];
  }
}

/**
 Which GitLab user a source user resolves to (`findUser`): the first strategy
 whose answer has an exact match decides, and only by a single one.
*/
module IdentityMatch {
  import opened Wrappers
  import opened Ledger
  import opened Sync

  /** How many calls the strategies before the i-th make. */
  function Asked(c: Client, source: SourceUser, fields: seq<string>, i: nat): nat
    requires i <= |fields|
  {
    if i == 0 then 0 else Asked(c, source, fields, i - 1) + if Query(c, fields[i - 1], source).Some? then 1 else 0
  }

  /** What GitLab answers to the i-th strategy, which has something to ask for. */
  function AnswerTo(c: Client, source: SourceUser, fields: seq<string>, tick: nat, i: nat): seq<User>
    requires i < |fields| && Query(c, fields[i], source).Some?
  {
    c.users(tick + Asked(c, source, fields, i), fields[i], Query(c, fields[i], source).value)
  }

  predicate Answered(c: Client, source: SourceUser, fields: seq<string>, tick: nat, i: nat)
    requires i < |fields|
  {
    Acknowledged(c.fault(tick + Asked(c, source, fields, i)))
  }

  ghost predicate NoMatch(c: Client, field: string, source: SourceUser, answer: seq<User>) {
    forall k :: 0 <= k < |answer| ==> !Matches(c, field, source, answer[k])
  }

  /** One entry of the answer matches exactly, and no other does. */
  ghost predicate OnlyMatch(c: Client, field: string, source: SourceUser, answer: seq<User>, u: User) {
    exists k :: 0 <= k < |answer| && answer[k] == u && Matches(c, field, source, answer[k])
      && forall l :: 0 <= l < |answer| && l != k ==> !Matches(c, field, source, answer[l])
  }

  /** The i-th strategy is skipped, or GitLab answered it without an exact match. */
  ghost predicate Passed(c: Client, source: SourceUser, fields: seq<string>, tick: nat, i: nat)
    requires i < |fields|
  {
    Query(c, fields[i], source).None?
    || (Answered(c, source, fields, tick, i) && NoMatch(c, fields[i], source, AnswerTo(c, source, fields, tick, i)))
  }

  /** The i-th strategy names the user, and no strategy before it matched anybody. */
  ghost predicate Decides(c: Client, source: SourceUser, fields: seq<string>, tick: nat, i: nat, u: User)
    requires i < |fields|
  {
    && AllPassed(c, source, fields, tick, i)
    && Query(c, fields[i], source).Some? && Answered(c, source, fields, tick, i)
    && OnlyMatch(c, fields[i], source, AnswerTo(c, source, fields, tick, i), u)
  }

  /** One more entry in the answer. */
  lemma OneMoreCandidate(c: Client, field: string, source: SourceUser, init: seq<User>, last: User, u: User)
    ensures NoMatch(c, field, source, init + [last]) <==>
      NoMatch(c, field, source, init) && !Matches(c, field, source, last)
    ensures OnlyMatch(c, field, source, init + [last], u) <==>
      if Matches(c, field, source, last) then last == u && NoMatch(c, field, source, init)
        else OnlyMatch(c, field, source, init, u)
  {
    var users := init + [last];
    assert users[|init|] == last && forall l :: 0 <= l < |init| ==> users[l] == init[l];
    if OnlyMatch(c, field, source, init, u) && !Matches(c, field, source, last) {
      var k :| 0 <= k < |init| && init[k] == u && Matches(c, field, source, init[k])
        && forall l :: 0 <= l < |init| && l != k ==> !Matches(c, field, source, init[l]);
      assert users[k] == u;
    }
    if OnlyMatch(c, field, source, users, u) {
      var k :| 0 <= k < |users| && users[k] == u && Matches(c, field, source, users[k])
        && forall l :: 0 <= l < |users| && l != k ==> !Matches(c, field, source, users[l]);
      assert k < |init| ==> init[k] == u;
    }
  }

  lemma {:induction false} MatchesCount(c: Client, field: string, source: SourceUser, users: seq<User>, u: User)
    ensures MatchesIn(c, field, source, users) == [] <==> NoMatch(c, field, source, users)
    ensures MatchesIn(c, field, source, users) == [u] <==> OnlyMatch(c, field, source, users, u)
  {
    if users != [] {
      var init, last := users[..|users| - 1], users[|users| - 1];
      MatchesCount(c, field, source, init, u);
      assert users == init + [last];
      OneMoreCandidate(c, field, source, init, last, u);
      var rest := MatchesIn(c, field, source, init);
      assert rest + [last] == [u] <==> rest == [] && last == u by {
        assert rest == [] ==> rest + [last] == [last];
      }
    }
  }

  lemma {:induction false} AskedTail(c: Client, source: SourceUser, fields: seq<string>, i: nat)
    requires 0 < |fields| && i < |fields|
    ensures Asked(c, source, fields, i + 1)
      == (if Query(c, fields[0], source).Some? then 1 else 0) + Asked(c, source, fields[1..], i)
  {
    if i > 0 {
      AskedTail(c, source, fields, i - 1);
    }
  }

  /** The j-th of the rest is the one after it, asked at the same time. */
  lemma PassedTail(c: Client, source: SourceUser, fields: seq<string>, tick: nat, next: nat, j: nat)
    requires j + 1 < |fields| && next == tick + if Query(c, fields[0], source).Some? then 1 else 0
    ensures fields[1..][j] == fields[j + 1]
      && tick + Asked(c, source, fields, j + 1) == next + Asked(c, source, fields[1..], j)
    ensures Passed(c, source, fields, tick, j + 1) <==> Passed(c, source, fields[1..], next, j)
  {
    AskedTail(c, source, fields, j);
    if Query(c, fields[j + 1], source).Some? {
      assert AnswerTo(c, source, fields, tick, j + 1) == AnswerTo(c, source, fields[1..], next, j);
    }
  }

  /** Deciding later than the first strategy is deciding among the rest. */
  lemma DecidesTail(c: Client, source: SourceUser, fields: seq<string>, tick: nat, next: nat, i: nat, u: User)
    requires i + 1 < |fields| && Passed(c, source, fields, tick, 0)
    requires next == tick + if Query(c, fields[0], source).Some? then 1 else 0
    ensures Decides(c, source, fields, tick, i + 1, u) <==> Decides(c, source, fields[1..], next, i, u)
  {
    PassedTail(c, source, fields, tick, next, i);
    AllPassedTail(c, source, fields, tick, next, i);
  }

  ghost predicate AllPassed(c: Client, source: SourceUser, fields: seq<string>, tick: nat, i: nat)
    requires i <= |fields|
  {
    forall j :: 0 <= j < i ==> Passed(c, source, fields, tick, j)
  }

  lemma {:induction false} AllPassedTail(
      c: Client, source: SourceUser, fields: seq<string>, tick: nat, next: nat, i: nat)
    requires i + 1 <= |fields| && Passed(c, source, fields, tick, 0)
    requires next == tick + if Query(c, fields[0], source).Some? then 1 else 0
    ensures AllPassed(c, source, fields, tick, i + 1) <==> AllPassed(c, source, fields[1..], next, i)
  {
    if i > 0 {
      AllPassedTail(c, source, fields, tick, next, i - 1);
      PassedTail(c, source, fields, tick, next, i - 1);
      assert AllPassed(c, source, fields, tick, i + 1) <==>
        AllPassed(c, source, fields, tick, i) && Passed(c, source, fields, tick, i);
    }
  }

  lemma {:induction false} StrategiesExact(c: Client, source: SourceUser, fields: seq<string>, tick: nat, u: User)
    ensures Strategies(c, source, fields, tick).user == Some(u) <==>
      exists i :: 0 <= i < |fields| && Decides(c, source, fields, tick, i, u)
  {
    if fields != [] {
      var found := Strategies(c, source, fields, tick);
      if Query(c, fields[0], source).Some? {
        MatchesCount(c, fields[0], source, AnswerTo(c, source, fields, tick, 0), u);
      }
      if Passed(c, source, fields, tick, 0) {
        var next := tick + if Query(c, fields[0], source).Some? then 1 else 0;
        StrategiesExact(c, source, fields[1..], next, u);
        forall i | 0 <= i < |fields| - 1
          ensures Decides(c, source, fields, tick, i + 1, u) <==> Decides(c, source, fields[1..], next, i, u)
        {
          DecidesTail(c, source, fields, tick, next, i, u);
        }
        if i :| 0 <= i < |fields| && Decides(c, source, fields, tick, i, u) {
          assert i > 0 && Decides(c, source, fields[1..], next, i - 1, u);
        }
      } else {
        assert forall i :: 0 < i < |fields| ==> !Decides(c, source, fields, tick, i, u);
        assert found.user == Some(u) <==> Decides(c, source, fields, tick, 0, u);
      }
    }
  }

  /**
   A user is found exactly if some strategy decides for it: the only exact match
   of the first strategy that matched anyone, every earlier one having been
   answered; and a match by name at the identity provider is never combined.
  */
  lemma FindUserExact(c: Client, source: SourceUser, fields: seq<string>, tick: nat, u: User)
    ensures FindUser(c, source, fields, tick).user == Some(u) <==>
      && ("oidc-username" in fields ==> |fields| == 1)
      && exists i :: 0 <= i < |fields| && Decides(c, source, fields, tick, i, u)
  {
    StrategiesExact(c, source, fields, tick, u);
  }

  // ----- what a strategy asks for, and whom it takes -----

  /** The strategy has something to ask for: the subject or the user name at the identity provider, or a plain field. */
  predicate Asks(c: Client, field: string, source: SourceUser, value: string) {
    && value != ""
    && (|| (field == "oidc" && c.oidcProvider != "" && value == source.id)
        || (field == "oidc-username" && c.oidcProvider != "" && value == source.username)
        || (field == "username" && value == source.username)
        || (field == "email" && value == source.email))
  }

  /** The candidate has this very identity at the configured provider, or this field up to case. */
  predicate SameIdentity(c: Client, field: string, value: string, candidate: User) {
    if field == "oidc" || field == "oidc-username" then
      exists i ::
        && 0 <= i < |candidate.identities|
        && candidate.identities[i].provider == c.oidcProvider && candidate.identities[i].externUid == value
    else if field == "username" then c.equalFold(candidate.username, value)
    else field == "email" && c.equalFold(candidate.email, value)
  }

  lemma AsksExactly(c: Client, field: string, source: SourceUser, value: string)
    ensures Asks(c, field, source, value) <==> Query(c, field, source) == Some(value)
  {
  }

  lemma MatchesExactly(c: Client, field: string, source: SourceUser, value: string, candidate: User)
    requires Asks(c, field, source, value)
    ensures Matches(c, field, source, candidate) <==> SameIdentity(c, field, value, candidate)
  {
    if HasIdentity(candidate, c.oidcProvider, value) {
      var i :| 0 <= i < |candidate.identities| && candidate.identities[i] == Identity(c.oidcProvider, value);
    }
    forall i | 0 <= i < |candidate.identities|
      ensures candidate.identities[i] == Identity(c.oidcProvider, value) <==>
        candidate.identities[i].provider == c.oidcProvider && candidate.identities[i].externUid == value
    {
    }
  }

  /** Nobody is taken for a source user without sharing what one of the strategies asked for. */
  lemma FoundShares(c: Client, source: SourceUser, fields: seq<string>, tick: nat, u: User)
    requires FindUser(c, source, fields, tick).user == Some(u)
    ensures exists i, value ::
      0 <= i < |fields| && Asks(c, fields[i], source, value) && SameIdentity(c, fields[i], value, u)
  {
    FindUserExact(c, source, fields, tick, u);
    var i :| 0 <= i < |fields| && Decides(c, source, fields, tick, i, u);
    var value := Query(c, fields[i], source).value;
    AsksExactly(c, fields[i], source, value);
    MatchesExactly(c, fields[i], source, value, u);
  }

  // ----- all members of a group -----

  /** When the i-th member is looked up. */
  function LookedUpAt(c: Client, sources: seq<SourceUser>, fields: seq<string>, tick: nat, i: nat): nat
    requires i <= |sources|
  {
    if i == 0 then tick
    else FindUser(c, sources[i - 1], fields, LookedUpAt(c, sources, fields, tick, i - 1)).tick
  }

  /** The active user the i-th member is found to be, if any. */
  function FoundFor(c: Client, sources: seq<SourceUser>, fields: seq<string>, tick: nat, i: nat): Option<User>
    requires i < |sources|
  {
    var found := FindUser(c, sources[i], fields, LookedUpAt(c, sources, fields, tick, i)).user;
    if found.Some? && found.value.active then found else None
  }

  function Missing(c: Client, sources: seq<SourceUser>, fields: seq<string>, tick: nat, n: nat): nat
    requires n <= |sources|
  {
    if n == 0 then 0
    else Missing(c, sources, fields, tick, n - 1) + if FoundFor(c, sources, fields, tick, n - 1).None? then 1 else 0
  }

  lemma {:induction false} LookedUpTail(c: Client, sources: seq<SourceUser>, fields: seq<string>, tick: nat, i: nat)
    requires sources != [] && i < |sources|
    ensures LookedUpAt(c, sources, fields, tick, i + 1)
      == LookedUpAt(c, sources[1..], fields, FindUser(c, sources[0], fields, tick).tick, i)
  {
    if i > 0 {
      LookedUpTail(c, sources, fields, tick, i - 1);
    }
  }

  lemma {:induction false} MissingTail(c: Client, sources: seq<SourceUser>, fields: seq<string>, tick: nat, n: nat)
    requires sources != [] && n < |sources|
    ensures Missing(c, sources, fields, tick, n + 1)
      == (if FoundFor(c, sources, fields, tick, 0).None? then 1 else 0)
         + Missing(c, sources[1..], fields, FindUser(c, sources[0], fields, tick).tick, n)
  {
    if n > 0 {
      MissingTail(c, sources, fields, tick, n - 1);
      LookedUpTail(c, sources, fields, tick, n - 1);
    }
  }

  /** One of the members is found to be this active user. */
  predicate IsFound(c: Client, sources: seq<SourceUser>, fields: seq<string>, tick: nat, u: Id) {
    exists i :: 0 <= i < |sources| && IsFoundAs(c, sources, fields, tick, i, u)
  }

  predicate IsFoundAs(c: Client, sources: seq<SourceUser>, fields: seq<string>, tick: nat, i: nat, u: Id)
    requires i < |sources|
  {
    FoundFor(c, sources, fields, tick, i).Some? && FoundFor(c, sources, fields, tick, i).value.id == u
  }

  lemma FoundTail(c: Client, sources: seq<SourceUser>, fields: seq<string>, tick: nat, u: Id)
    requires sources != []
    ensures var next := FindUser(c, sources[0], fields, tick).tick;
      IsFound(c, sources, fields, tick, u) <==>
        (IsFoundAs(c, sources, fields, tick, 0, u) || IsFound(c, sources[1..], fields, next, u))
  {
    var next := FindUser(c, sources[0], fields, tick).tick;
    forall i | 0 <= i < |sources| - 1
      ensures IsFoundAs(c, sources[1..], fields, next, i, u) <==> IsFoundAs(c, sources, fields, tick, i + 1, u)
    {
      LookedUpTail(c, sources, fields, tick, i);
    }
    if IsFound(c, sources, fields, tick, u) {
      var i :| 0 <= i < |sources| && IsFoundAs(c, sources, fields, tick, i, u);
      assert i > 0 ==> IsFoundAs(c, sources[1..], fields, next, i - 1, u);
    }
    if IsFound(c, sources[1..], fields, next, u) {
      var i :| 0 <= i < |sources[1..]| && IsFoundAs(c, sources[1..], fields, next, i, u);
      assert IsFoundAs(c, sources, fields, tick, i + 1, u);
    }
  }

  /**
   Without an error, the wanted users are exactly the active users found for the
   members, and every member without one is counted.
  */
  lemma {:induction false} ResolvedMeans(c: Client, sources: seq<SourceUser>, fields: seq<string>, so: Resolution)
    requires ResolveAll(c, sources, fields, so).error.None?
    ensures var out := ResolveAll(c, sources, fields, so);
      && out.unresolved == so.unresolved + Missing(c, sources, fields, so.tick, |sources|)
      && (forall u :: u in out.desired <==> (u in so.desired || IsFound(c, sources, fields, so.tick, u)))
    decreases sources
  {
    if sources != [] {
      var next := ResolveOne(c, sources[0], fields, so);
      OneResolved(c, sources, fields, so);
      ResolvedMeans(c, sources[1..], fields, next);
      MissingTail(c, sources, fields, so.tick, |sources| - 1);
      forall u
        ensures u in ResolveAll(c, sources, fields, so).desired <==>
          (u in so.desired || IsFound(c, sources, fields, so.tick, u))
      {
        FoundTail(c, sources, fields, so.tick, u);
      }
    }
  }

  lemma OneResolved(c: Client, sources: seq<SourceUser>, fields: seq<string>, so: Resolution)
    requires sources != [] && ResolveAll(c, sources, fields, so).error.None?
    ensures var next := ResolveOne(c, sources[0], fields, so); var found := FoundFor(c, sources, fields, so.tick, 0);
      && next.error.None? && next.tick == FindUser(c, sources[0], fields, so.tick).tick
      && next.unresolved == so.unresolved + (if found.None? then 1 else 0)
      && (forall u :: u in next.desired <==> (u in so.desired || IsFoundAs(c, sources, fields, so.tick, 0, u)))
      && ResolveAll(c, sources, fields, so) == ResolveAll(c, sources[1..], fields, next)
  {
  }
}

/**
 The webhook receiver (`Handler`): the order of its checks, the replay window
 over all runs, and what an event may ask for (`classify`).
*/
module Webhook {
  import opened Wrappers
  import opened Sizes
  import Q = Queue

  const MAX_SEEN := 10000
  const MAX_DELIVERY := 128
  const MIN_SECRET := 32
  const KEY_LENGTH := 64

  datatype Envelope = Envelope(
    specVersion: string, eventId: string, realmName: string,
    resourceType: string, operationType: string, groupKey: string, userKey: string)

  // ----- what an event may ask for -----

  predicate IsHex(c: char) {
    '0' <= c <= '9' || 'a' <= c <= 'f'
  }

  predicate ValidRoutingKey(key: string) {
    |key| == KEY_LENGTH && forall i :: 0 <= i < |key| ==> IsHex(key[i])
  }

  /** None when the event is rejected. */
  function Classify(e: Envelope): Option<Q.Hint> {
    var h := Q.Hint(e.resourceType, e.operationType, "", "", false);
    if e.resourceType == "GROUP" then
      if e.operationType !in ["CREATE", "UPDATE", "DELETE"] || e.userKey != "" then None
      else Keyed(h.(groupKey := e.groupKey))
    else if e.resourceType == "GROUP_MEMBERSHIP" then
      if e.operationType !in ["CREATE", "DELETE"] || e.userKey != "" then None
      else Keyed(h.(groupKey := e.groupKey))
    else if e.resourceType == "USER" then
      if e.operationType == "LOGIN" then if e.groupKey != "" then None else Keyed(h.(userKey := e.userKey))
      else if e.operationType == "CREATE" then if e.userKey != "" then None else Keyed(h.(groupKey := e.groupKey))
      else if e.operationType == "UPDATE" then if e.groupKey != "" then None else Keyed(h.(userKey := e.userKey))
      else if e.operationType == "DELETE" then
        if (e.groupKey == "") == (e.userKey == "") then if e.groupKey != "" then None
          else Some(h.(globalRepair := true))
        else Keyed(h.(groupKey := e.groupKey, userKey := e.userKey))
      else None
    else None
  }

  function Keyed(h: Q.Hint): Option<Q.Hint> {
    if h.groupKey == "" && h.userKey == "" then Some(h.(globalRepair := true))
    else if (h.groupKey != "" && !ValidRoutingKey(h.groupKey))
      || (h.userKey != "" && !ValidRoutingKey(h.userKey)) then None
    else Some(h)
  }

  /** The kinds of event known, and which key each may carry. */
  predicate GroupEvent(e: Envelope) {
    || (e.resourceType == "GROUP" && e.operationType in ["CREATE", "UPDATE", "DELETE"])
    || (e.resourceType == "GROUP_MEMBERSHIP" && e.operationType in ["CREATE", "DELETE"])
    || (e.resourceType == "USER" && e.operationType in ["CREATE", "DELETE"])
  }

  predicate UserEvent(e: Envelope) {
    e.resourceType == "USER" && e.operationType in ["LOGIN", "UPDATE", "DELETE"]
  }

  /** A SHA-256 sum in lower-case hexadecimal. */
  predicate HexSum(key: string) {
    |key| == 64 && forall i :: 0 <= i < 64 ==> '0' <= key[i] <= '9' || 'a' <= key[i] <= 'f'
  }

  predicate KeysAllowed(e: Envelope) {
    && (e.groupKey != "" ==> GroupEvent(e) && HexSum(e.groupKey) && e.userKey == "")
    && (e.userKey != "" ==> UserEvent(e) && HexSum(e.userKey))
  }

  /**
   An event is taken exactly if its kind is known and it carries at most one key,
   allowed for that kind and well formed; the hint carries that key, or asks for a
   full repair when there is none.
  */
  lemma ClassifyExact(e: Envelope)
    ensures Classify(e).Some? <==> (GroupEvent(e) || UserEvent(e)) && KeysAllowed(e)
    ensures Classify(e).Some? ==>
      Classify(e).value == Q.Hint(e.resourceType, e.operationType, e.groupKey, e.userKey, e.groupKey == ""
        && e.userKey == "")
  {
    assert |"LOGIN"| == 5 && |"UPDATE"| == 6 && |"CREATE"| == 6 && |"DELETE"| == 6;
    assert "UPDATE"[0] == 'U' && "CREATE"[0] == 'C' && "DELETE"[0] == 'D';
    assert |"GROUP"| == 5 && |"GROUP_MEMBERSHIP"| == 16 && |"USER"| == 4;
  }

  // ----- the replay window, as a state machine -----

  /** The entries that are still remembered at a cutoff. */
  function Prune(seen: map<string, int>, cutoff: int): map<string, int> {
    map id | id in seen && seen[id] >= cutoff :: seen[id]
  }

  predicate Admits(pruned: map<string, int>, delivery: string) {
    delivery !in pruned && |pruned| < MAX_SEEN
  }

  /**
   One request that got as far as the replay check, with the three readings of
   the clock it makes: for freshness, for the cutoff and for the entry. Requests
   are handled at once, so only the last two are ordered between requests.
  */
  datatype Attempt = Attempt(delivery: string, timestamp: int, checked: int, cutoff: int, entered: int)

  predicate IsFresh(a: Attempt, maxSkew: int) {
    -maxSkew <= a.checked - a.timestamp <= maxSkew
  }

  predicate Accepts(seen: map<string, int>, a: Attempt, maxSkew: int) {
    IsFresh(a, maxSkew) && Admits(Prune(seen, a.cutoff - maxSkew), a.delivery)
  }

  function Serve(seen: map<string, int>, a: Attempt, maxSkew: int): map<string, int> {
    if !IsFresh(a, maxSkew) then seen
    else
      var pruned := Prune(seen, a.cutoff - maxSkew);
      if Admits(pruned, a.delivery) then pruned[a.delivery := a.entered] else pruned
  }

  /** What is remembered before the last of these attempts. */
  function Run(tries: seq<Attempt>, maxSkew: int): map<string, int> {
    if tries == [] then map[] else Serve(Run(tries[..|tries| - 1], maxSkew), tries[|tries| - 1], maxSkew)
  }

  lemma RunSnoc(tries: seq<Attempt>, a: Attempt, maxSkew: int)
    ensures Run(tries + [a], maxSkew) == Serve(Run(tries, maxSkew), a, maxSkew)
    ensures Accepted(tries + [a], |tries|, maxSkew) == Accepts(Run(tries, maxSkew), a, maxSkew)
  {
    assert (tries + [a])[..|tries|] == tries;
  }

  predicate Accepted(tries: seq<Attempt>, i: nat, maxSkew: int)
    requires i < |tries|
  {
    Accepts(Run(tries[..i], maxSkew), tries[i], maxSkew)
  }

  /** The clock never goes back: within a request, and from one replay check to the next. */
  predicate Monotone(tries: seq<Attempt>) {
    && (forall i :: 0 <= i < |tries| ==> tries[i].checked <= tries[i].cutoff <= tries[i].entered)
    && (forall i, j :: 0 <= i < j < |tries| ==> tries[i].entered <= tries[j].cutoff)
  }

  /** A delivery accepted at `at` is remembered, unless the clock is more than `maxSkew` past it. */
  predicate Remembers(seen: map<string, int>, delivery: string, at: int, now: int, maxSkew: int) {
    (delivery in seen && seen[delivery] >= at) || now > at + maxSkew
  }

  lemma {:induction false} StillRemembered(tries: seq<Attempt>, i: nat, n: nat, maxSkew: int)
    requires Monotone(tries) && i < n <= |tries| && Accepted(tries, i, maxSkew)
    ensures Remembers(Run(tries[..n], maxSkew), tries[i].delivery, tries[i].entered, tries[n - 1].entered, maxSkew)
    decreases n
  {
    assert tries[..n][..n - 1] == tries[..n - 1];
    if n - 1 > i {
      StillRemembered(tries, i, n - 1, maxSkew);
      assert tries[n - 2].entered <= tries[n - 1].cutoff;
    }
  }

  /** Two acceptances of one delivery id are more than `maxSkew` apart. */
  lemma AcceptancesApart(tries: seq<Attempt>, i: nat, j: nat, maxSkew: int)
    requires Monotone(tries) && i < j < |tries| && tries[i].delivery == tries[j].delivery
    requires Accepted(tries, i, maxSkew) && Accepted(tries, j, maxSkew)
    ensures tries[j].cutoff > tries[i].entered + maxSkew
  {
    StillRemembered(tries, i, j, maxSkew);
    assert tries[j - 1].entered <= tries[j].cutoff;
  }

  /**
   The same request is never accepted twice as long as its timestamp was not
   ahead of the clock at the first acceptance by more than the second try took
   from its freshness check to its replay check.
  */
  lemma NoReplay(tries: seq<Attempt>, i: nat, j: nat, maxSkew: int)
    requires Monotone(tries) && i < j < |tries|
    requires tries[i].delivery == tries[j].delivery && tries[i].timestamp == tries[j].timestamp
    requires Accepted(tries, i, maxSkew) && Accepted(tries, j, maxSkew)
    ensures tries[i].timestamp > tries[i].entered - (tries[j].cutoff - tries[j].checked)
  {
    AcceptancesApart(tries, i, j, maxSkew);
  }

  /** A request handled at one instant. */
  function At(delivery: string, timestamp: int, now: int): Attempt {
    Attempt(delivery, timestamp, now, now, now)
  }

  /** Everything remembered after a run was entered by its last clock reading. */
  lemma {:induction false} EnteredBy(tries: seq<Attempt>, maxSkew: int, now: int)
    requires Monotone(tries) && forall i :: 0 <= i < |tries| ==> tries[i].entered <= now
    ensures forall id <- Run(tries, maxSkew) :: Run(tries, maxSkew)[id] <= now
  {
    if tries != [] {
      EnteredBy(tries[..|tries| - 1], maxSkew, now);
    }
  }

  /**
   With the clock read once per request, an accepted request can be accepted
   again later if and only if its timestamp was ahead of the clock.
  */
  lemma ReplayableExactly(tries: seq<Attempt>, maxSkew: int)
    requires Monotone(tries) && tries != []
    requires var last := tries[|tries| - 1]; last == At(last.delivery, last.timestamp, last.entered)
    requires Accepted(tries, |tries| - 1, maxSkew)
    ensures var last := tries[|tries| - 1];
      (exists later :: later >= last.entered
        && Accepts(Run(tries, maxSkew), At(last.delivery, last.timestamp, later), maxSkew))
        <==> last.timestamp > last.entered
  {
    var last := tries[|tries| - 1];
    forall later | later >= last.entered
      && Accepts(Run(tries, maxSkew), At(last.delivery, last.timestamp, later), maxSkew)
      ensures last.timestamp > last.entered
    {
      AcceptedAgain(tries, maxSkew, later);
    }
    if last.timestamp > last.entered {
      AcceptableAgain(tries, maxSkew);
    }
  }

  lemma AcceptedAgain(tries: seq<Attempt>, maxSkew: int, later: int)
    requires Monotone(tries) && tries != [] && Accepted(tries, |tries| - 1, maxSkew)
    requires var last := tries[|tries| - 1];
      later >= last.entered && Accepts(Run(tries, maxSkew), At(last.delivery, last.timestamp, later), maxSkew)
    ensures tries[|tries| - 1].timestamp > tries[|tries| - 1].entered
  {
    var last := tries[|tries| - 1];
    var again := At(last.delivery, last.timestamp, later);
    var more := tries + [again];
    RunSnoc(tries, again, maxSkew);
    assert more[..|tries| - 1] == tries[..|tries| - 1];
    NoReplay(more, |tries| - 1, |tries|, maxSkew);
  }

  /** Once the window has passed everything is forgotten, and a timestamp ahead of the clock is still fresh. */
  lemma AcceptableAgain(tries: seq<Attempt>, maxSkew: int)
    requires Monotone(tries) && tries != [] && Accepted(tries, |tries| - 1, maxSkew)
    requires var last := tries[|tries| - 1];
      last == At(last.delivery, last.timestamp, last.entered) && last.timestamp > last.entered
    ensures var last := tries[|tries| - 1];
      Accepts(Run(tries, maxSkew), At(last.delivery, last.timestamp, last.entered + maxSkew + 1), maxSkew)
  {
    var last := tries[|tries| - 1];
    EnteredBy(tries, maxSkew, last.entered);
    assert Prune(Run(tries, maxSkew), last.entered + 1) == map[];
  }

  /** Five units ahead of the clock is enough: accepted at 0, and again at 6, with a window of 5. */
  lemma ReplayExample(delivery: string)
    ensures var tries := [At(delivery, 5, 0), At(delivery, 5, 6)];
      Monotone(tries) && Accepted(tries, 0, 5) && Accepted(tries, 1, 5)
  {
  }

  lemma PruneSize(seen: map<string, int>, cutoff: int)
    ensures |Prune(seen, cutoff)| <= |seen|
  {
    assert Prune(seen, cutoff).Keys <= seen.Keys;
    SubsetSize(Prune(seen, cutoff).Keys, seen.Keys);
    assert |Prune(seen, cutoff).Keys| == |Prune(seen, cutoff)| && |seen.Keys| == |seen|;
  }

  lemma ServeBound(seen: map<string, int>, a: Attempt, maxSkew: int)
    requires |seen| <= MAX_SEEN
    ensures |Serve(seen, a, maxSkew)| <= MAX_SEEN
  {
    var pruned := Prune(seen, a.cutoff - maxSkew);
    PruneSize(seen, a.cutoff - maxSkew);
    SizeAfterInsert(pruned, a.delivery, a.entered);
  }

  /** At most ten thousand delivery ids are remembered. */
  lemma {:induction false} RunBound(tries: seq<Attempt>, maxSkew: int)
    ensures |Run(tries, maxSkew)| <= 10000
  {
    if tries != [] {
      RunBound(tries[..|tries| - 1], maxSkew);
      ServeBound(Run(tries[..|tries| - 1], maxSkew), tries[|tries| - 1], maxSkew);
    }
  }

  // ----- the handler -----

  /** A request as far as the handler looks at it; the body is None when it cannot be read. */
  datatype Request = Request(post: bool, body: Option<string>, timestamp: string, delivery: string, signature: string)

  /**
   The parts that are not the handler's own: the timestamp as a clock reading, JSON,
   and the signature check under a secret.
  */
  datatype Codec = Codec(
    parseInt: string -> Option<int>, decode: string -> Option<Envelope>,
    signed: (string, string, string, string, string) -> bool)

  /** A request that passes every check before the replay check, with its timestamp and hint. */
  function Vetted(
      c: Codec, realm: string, maxSkew: int, r: Request, loaded: Option<string>, now: int): Option<(int, Q.Hint)>
  {
    if !r.post || r.body.None? then None
    else
      match c.parseInt(r.timestamp)
      case None => None
      case Some(seconds) =>
        if r.delivery == "" || |r.delivery| > MAX_DELIVERY || !(-maxSkew <= now - seconds <= maxSkew) then None
        else if loaded.None? || |loaded.value| < MIN_SECRET
          || !c.signed(loaded.value, r.timestamp, r.delivery, r.body.value, r.signature) then None
        else
          match c.decode(r.body.value)
          case None => None
          case Some(e) =>
            if e.specVersion != "1.0" || e.eventId == "" || e.eventId != r.delivery || e.realmName != realm then None
            else
              match Classify(e)
              case None => None
              case Some(h) => Some((seconds, h))
  }

  /**
   What is triggered was signed under the current secret within the window, for
   this realm, under its own delivery id, and asks for no more than it may.
  */
  lemma VettedMeans(c: Codec, realm: string, maxSkew: int, r: Request, loaded: Option<string>, now: int)
    ensures Vetted(c, realm, maxSkew, r, loaded, now).Some? <==>
      && r.post && r.body.Some? && 1 <= |r.delivery| <= 128
      && c.parseInt(r.timestamp).Some? && -maxSkew <= now - c.parseInt(r.timestamp).value <= maxSkew
      && loaded.Some? && |loaded.value| >= 32
      && c.signed(loaded.value, r.timestamp, r.delivery, r.body.value, r.signature)
      && c.decode(r.body.value).Some?
      && var e := c.decode(r.body.value).value;
         e.specVersion == "1.0" && e.eventId == r.delivery && e.realmName == realm && (GroupEvent(e) || UserEvent(e))
           && KeysAllowed(e)
    ensures Vetted(c, realm, maxSkew, r, loaded, now).Some? ==>
      var e := c.decode(r.body.value).value;
      Vetted(c, realm, maxSkew, r, loaded, now).value.1 ==
        Q.Hint(e.resourceType, e.operationType, e.groupKey, e.userKey, e.groupKey == "" && e.userKey == "")
  {
    if r.body.Some? && c.decode(r.body.value).Some? {
      ClassifyExact(c.decode(r.body.value).value);
    }
  }

  lemma VettedFresh(c: Codec, realm: string, maxSkew: int, r: Request, loaded: Option<string>, now: int)
    ensures var vetted := Vetted(c, realm, maxSkew, r, loaded, now);
      vetted.Some? ==> r.post && -maxSkew <= now - vetted.value.0 <= maxSkew
  {
  }

  class Handler {
    const codec: Codec
    const realm: string
    const maxSkew: int
    var seen: map<string, int>
    var accepted: nat
    var rejected: nat
    /** The hints handed on, and the attempts that reached the replay check, in order. */
    ghost var triggered: seq<Q.Hint>
    ghost var tries: seq<Attempt>

    /** The map is what the attempts so far leave. */
    ghost predicate Valid()
      reads this
    {
      seen == Run(tries, maxSkew) && accepted == |triggered|
    }

    constructor (codec: Codec, realm: string, maxSkew: int)
      ensures Valid() && tries == [] && triggered == [] && rejected == 0
    {
      this.codec, this.realm, this.maxSkew := codec, realm, maxSkew;
      seen, accepted, rejected, triggered, tries := map[], 0, 0, [], [];
    }

    /** Forgets what is too old; a known id, or one more than fits, counts as replayed. */
    method Replayed(delivery: string, cutoff: int, entered: int) returns (replayed: bool)
      modifies this`seen
      ensures var pruned := Prune(old(seen), cutoff - maxSkew);
        replayed == !Admits(pruned, delivery) && seen == if replayed then pruned else pruned[delivery := entered]
    {
      var left := seen.Keys;
      while left != {}
        invariant left <= old(seen).Keys
        invariant forall id <- seen :: id in old(seen) && seen[id] == old(seen)[id]
        invariant forall id <- old(seen) :: id in seen <==> id in left || old(seen)[id] >= cutoff - maxSkew
        decreases left
      {
        var id :| id in left;
        if seen[id] < cutoff - maxSkew {
          seen := seen - {id};
        }
        left := left - {id};
      }
      assert seen == Prune(old(seen), cutoff - maxSkew);
      if delivery in seen {
        return true;
      }
      if |seen| >= MAX_SEEN {
        return true;
      }
      seen := seen[delivery := entered];
      return false;
    }

    /** The checks before the replay check, in their order. */
    method Vet(r: Request, loaded: Option<string>, checked: int) returns (vetted: Option<(int, Q.Hint)>)
      requires r.post
      ensures vetted == Vetted(codec, realm, maxSkew, r, loaded, checked)
    {
      if r.body.None? {
        return None;
      }
      var seconds := codec.parseInt(r.timestamp);
      if seconds.None? || r.delivery == "" || |r.delivery| > MAX_DELIVERY
        || !(-maxSkew <= checked - seconds.value <= maxSkew) {
        return None;
      }
      if loaded.None? || |loaded.value| < MIN_SECRET
        || !codec.signed(loaded.value, r.timestamp, r.delivery, r.body.value, r.signature) {
        return None;
      }
      var event := codec.decode(r.body.value);
      if event.None? || event.value.specVersion != "1.0" || event.value.eventId == ""
        || event.value.eventId != r.delivery || event.value.realmName != realm {
        return None;
      }
      var hint := Classify(event.value);
      if hint.None? {
        return None;
      }
      return Some((seconds.value, hint.value));
    }

    /** A vetted request against the replay window. */
    method Admit(
        delivery: string, timestamp: int, hint: Q.Hint, checked: int, cutoff: int, entered: int) returns (ok: bool)
      requires Valid() && -maxSkew <= checked - timestamp <= maxSkew
      modifies this
      ensures Valid()
      ensures tries == old(tries) + [Attempt(delivery, timestamp, checked, cutoff, entered)]
        && ok == Accepted(tries, |old(tries)|, maxSkew)
      ensures triggered == old(triggered) + if ok then [hint] else []
      ensures rejected == old(rejected) + if ok then 0 else 1
    {
      ghost var attempt := Attempt(delivery, timestamp, checked, cutoff, entered);
      RunSnoc(tries, attempt, maxSkew);
      tries := tries + [attempt];
      var replayed := Replayed(delivery, cutoff, entered);
      if replayed {
        Reject();
        return false;
      }
      accepted := accepted + 1;
      triggered := triggered + [hint];
      return true;
    }

    /** One request; only one that passes every other check is remembered. */
    method ServeHTTP(r: Request, loaded: Option<string>, checked: int, cutoff: int, entered: int)
        returns (ok: bool, ghost vetted: Option<(int, Q.Hint)>)
      requires Valid()
      modifies this
      ensures Valid() && vetted == Vetted(codec, realm, maxSkew, r, loaded, checked)
      ensures if vetted.None? then !ok && seen == old(seen) && tries == old(tries)
        else
          && tries == old(tries) + [Attempt(r.delivery, vetted.value.0, checked, cutoff, entered)]
          && ok == Accepted(tries, |old(tries)|, maxSkew)
      ensures triggered == old(triggered) + if ok then [vetted.value.1] else []
      ensures rejected == old(rejected) + if r.post && !ok then 1 else 0
    {
      vetted := Vetted(codec, realm, maxSkew, r, loaded, checked);
      VettedFresh(codec, realm, maxSkew, r, loaded, checked);
      ok := false;
      if !r.post {
        return;
      }
      var passed := Vet(r, loaded, checked);
      if passed.None? {
        Reject();
        return;
      }
      ok := Admit(r.delivery, passed.value.0, passed.value.1, checked, cutoff, entered);
    }

    method Reject()
      modifies this`rejected
      ensures rejected == old(rejected) + 1
    {
      rejected := rejected + 1;
    }
  }
}

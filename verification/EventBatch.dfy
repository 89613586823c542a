/**
 Working off one drained batch (`processEventBatch`) and the rate-limited full
 repair behind it (`runEventFullRepair`).
*/
module EventBatch {
  import opened Wrappers
  import opened Ledger
  import Q = Queue
  import R = Routes
  import E = EventQueue

  type Key = string

  const CONFIRM_DELAY := 1500
  const JIT_DELAY := 3000
  const REPAIR_INTERVAL := 5000
  const CONFIRMATION := "membership-confirmation"
  const JIT := "jit-provisioning"

  const REPAIR_SLOT := Q.Slot(Q.GLOBAL, "")

  function ConfirmSlot(route: Key): Q.Slot {
    Q.Slot(CONFIRMATION, route)
  }

  // ----- what a batch asks for -----

  /** A group key of the batch that leads to `g`. */
  predicate GroupLeads(x: R.Derived, b: Q.Batch, k: Key, g: Id) {
    k in b.groups && k in x.groupIds && x.groupIds[k] == g
  }

  /** A user key of the batch that fans out to `g`. */
  predicate UserLeads(x: R.Derived, b: Q.Batch, k: Key, g: Id) {
    k in b.users && k in x.userGroups && g in x.userGroups[k]
  }

  predicate GroupForAll(x: R.Derived, b: Q.Batch, k: Key, g: Id) {
    GroupLeads(x, b, k, g) && b.groups[k].allProviders
  }

  predicate GroupConfirms(x: R.Derived, b: Q.Batch, k: Key, g: Id) {
    GroupLeads(x, b, k, g) && b.groups[k].confirmRemoval
  }

  predicate UserConfirms(x: R.Derived, b: Q.Batch, k: Key, g: Id) {
    UserLeads(x, b, k, g) && b.users[k].confirmMembership
  }

  predicate UserRetries(x: R.Derived, b: Q.Batch, k: Key, g: Id) {
    UserLeads(x, b, k, g) && b.users[k].jitRetry
  }

  /** Some key looked at so far reaches `g`. */
  ghost predicate Reached(x: R.Derived, b: Q.Batch, groups: set<Key>, users: set<Key>, g: Id) {
    (exists k <- groups :: GroupLeads(x, b, k, g)) || (exists k <- users :: UserLeads(x, b, k, g))
  }

  ghost predicate AllOwed(x: R.Derived, b: Q.Batch, groups: set<Key>, g: Id) {
    exists k <- groups :: GroupForAll(x, b, k, g)
  }

  ghost predicate ConfirmOwed(x: R.Derived, b: Q.Batch, groups: set<Key>, users: set<Key>, g: Id) {
    (exists k <- groups :: GroupConfirms(x, b, k, g)) || (exists k <- users :: UserConfirms(x, b, k, g))
  }

  /** Every reached group, and no other, with the OR of all its flags. */
  ghost predicate IsWork(x: R.Derived, b: Q.Batch, groups: set<Key>, users: set<Key>, work: map<Id, Q.Work>) {
    && (forall g :: g in work <==> Reached(x, b, groups, users, g))
    && (forall g <- work :: work[g].allProviders <==> AllOwed(x, b, groups, g))
    && (forall g <- work :: work[g].confirmRemoval <==> ConfirmOwed(x, b, groups, users, g))
  }

  ghost predicate Unresolved(x: R.Derived, b: Q.Batch, groups: set<Key>, users: set<Key>) {
    (exists k <- groups :: k !in x.groupIds) || (exists k <- users :: k !in x.userGroups)
  }

  /** Nothing reached, nothing owed. */
  lemma OwedIsReached(x: R.Derived, b: Q.Batch, groups: set<Key>, users: set<Key>, g: Id)
    ensures AllOwed(x, b, groups, g) || ConfirmOwed(x, b, groups, users, g) ==> Reached(x, b, groups, users, g)
  {
  }

  lemma OneMoreGroup(x: R.Derived, b: Q.Batch, groups: set<Key>, k: Key, g: Id)
    ensures var more := groups + {k};
      && (Reached(x, b, more, {}, g) <==> Reached(x, b, groups, {}, g) || GroupLeads(x, b, k, g))
      && (AllOwed(x, b, more, g) <==> AllOwed(x, b, groups, g) || GroupForAll(x, b, k, g))
      && (ConfirmOwed(x, b, more, {}, g) <==> ConfirmOwed(x, b, groups, {}, g) || GroupConfirms(x, b, k, g))
  {
  }

  /** What `work` becomes when a user key has been fanned out to the groups in `led`. */
  ghost predicate IsFanned(before: map<Id, Q.Work>, led: set<Id>, w: Q.Work, work: map<Id, Q.Work>) {
    && work.Keys == before.Keys + led
    && (forall g <- work :: work[g] ==
          if g in led then (if g in before then before[g] else Q.NO_WORK).Merge(w) else before[g])
  }

  function LedByGroup(x: R.Derived, k: Key): set<Id> {
    if k in x.groupIds then {x.groupIds[k]} else {}
  }

  /** One more group key. */
  lemma ReachByGroup(x: R.Derived, b: Q.Batch, groups: set<Key>, k: Key, before: map<Id, Q.Work>, work: map<Id, Q.Work>)
    requires k in b.groups && IsWork(x, b, groups, {}, before)
    requires IsFanned(before, LedByGroup(x, k), b.groups[k], work)
    ensures IsWork(x, b, groups + {k}, {}, work)
  {
    forall g
      ensures g in work <==> Reached(x, b, groups + {k}, {}, g)
      ensures g in work ==> (work[g].allProviders <==> AllOwed(x, b, groups + {k}, g))
      ensures g in work ==> (work[g].confirmRemoval <==> ConfirmOwed(x, b, groups + {k}, {}, g))
    {
      OneMoreGroup(x, b, groups, k, g);
      OwedIsReached(x, b, groups, {}, g);
    }
  }

  /** One more user key. */
  lemma ReachByUser(x: R.Derived, b: Q.Batch, users: set<Key>, k: Key, before: map<Id, Q.Work>, work: map<Id, Q.Work>)
    requires k in b.users && IsWork(x, b, b.groups.Keys, users, before)
    requires IsFanned(
      before, if k in x.userGroups then x.userGroups[k] else {}, Q.Work(false, b.users[k].confirmMembership), work)
    ensures IsWork(x, b, b.groups.Keys, users + {k}, work)
  {
    var all, more := b.groups.Keys, users + {k};
    forall g
      ensures Reached(x, b, all, more, g) <==> Reached(x, b, all, users, g) || UserLeads(x, b, k, g)
      ensures ConfirmOwed(x, b, all, more, g) <==> ConfirmOwed(x, b, all, users, g) || UserConfirms(x, b, k, g)
    {
      assert k in more && forall y <- users :: y in more;
    }
    forall g | g !in before
      ensures !AllOwed(x, b, all, g) && !ConfirmOwed(x, b, all, users, g)
    {
      assert forall y <- all :: !GroupLeads(x, b, y, g);
      assert forall y <- users :: !UserLeads(x, b, y, g);
    }
  }

  /** The keys found in an index lead back: a resolved group has that key, a filed group has one. */
  ghost predicate Routed(x: R.Derived) {
    && (forall k <- x.groupIds :: x.groupIds[k] in x.groupKeys && x.groupKeys[x.groupIds[k]] == k)
    && (forall k <- x.userGroups, g <- x.userGroups[k] :: g in x.groupKeys)
  }

  lemma IndexRouted(mac: R.Mac, secret: string, groupUsers: map<Id, set<Id>>, x: R.Derived)
    requires R.IsIndex(mac, secret, groupUsers, x)
    ensures Routed(x)
  {
    forall k, g | k in x.userGroups && g in x.userGroups[k]
      ensures g in x.groupKeys
    {
      assert g in R.Filed(x.userGroups, k) <==> R.Belongs(mac, secret, groupUsers, k, g);
    }
  }

  /** Every group with its own routing key. */
  ghost predicate AreRoutes(x: R.Derived, routes: map<Id, Key>, groups: set<Id>) {
    && routes.Keys == groups
    && (forall g <- routes :: g in x.groupKeys && routes[g] == x.groupKeys[g])
  }

  ghost function KeysOf(x: R.Derived, groups: set<Id>): set<Key> {
    set g | g in groups && g in x.groupKeys :: x.groupKeys[g]
  }

  function MergeAt(work: map<Id, Q.Work>, g: Id, w: Q.Work): map<Id, Q.Work> {
    work[g := (if g in work then work[g] else Q.NO_WORK).Merge(w)]
  }

  /** The routing keys of the groups some login leads to. */
  ghost function RetryKeys(x: R.Derived, b: Q.Batch, users: set<Key>): set<Key> {
    set k, g | k in users && g in x.groupKeys && UserRetries(x, b, k, g) :: x.groupKeys[g]
  }

  lemma OneMoreRetry(x: R.Derived, b: Q.Batch, users: set<Key>, k: Key)
    requires k in b.users
    ensures RetryKeys(x, b, users + {k}) ==
      RetryKeys(x, b, users) + (if k in x.userGroups && b.users[k].jitRetry then KeysOf(x, x.userGroups[k]) else {})
  {
  }

  lemma OneMoreUnresolved(x: R.Derived, b: Q.Batch, groups: set<Key>, users: set<Key>, k: Key)
    ensures Unresolved(x, b, groups + {k}, users) <==> Unresolved(x, b, groups, users) || k !in x.groupIds
    ensures Unresolved(x, b, groups, users + {k}) <==> Unresolved(x, b, groups, users) || k !in x.userGroups
  {
  }

  lemma EitherUnresolved(x: R.Derived, b: Q.Batch)
    ensures Unresolved(x, b, b.groups.Keys, b.users.Keys) <==>
      Unresolved(x, b, b.groups.Keys, {}) || Unresolved(x, b, {}, b.users.Keys)
  {
  }

  /** What the queue still owed when it was drained is served by the batch's work, or calls for a full repair. */
  lemma OwedIsServed(x: R.Derived, b: Q.Batch, owed: Q.Owed, work: map<Id, Q.Work>)
    requires IsWork(x, b, b.groups.Keys, b.users.Keys, work) && Routed(x) && Q.Carries(b, owed)
    requires !b.globalRepair && !Unresolved(x, b, b.groups.Keys, b.users.Keys)
    ensures owed.GroupOwed? ==>
      owed.key in x.groupIds && x.groupIds[owed.key] in work && work[x.groupIds[owed.key]].Covers(owed.work)
    ensures owed.SlotOwed? ==>
      owed.slot.route in x.groupIds && x.groupIds[owed.slot.route] in work
        && work[x.groupIds[owed.slot.route]].Covers(owed.slotWork)
    ensures owed.UserOwed? ==> owed.user in x.userGroups && forall g <- x.userGroups[owed.user] ::
      && g in work && (owed.userWork.confirmMembership ==> work[g].confirmRemoval)
      && (owed.userWork.jitRetry ==> x.groupKeys[g] in RetryKeys(x, b, b.users.Keys))
  {
    match owed
    case GroupOwed(k, w) => KeyIsServed(x, b, k, w, work);
    case SlotOwed(slot, w) => KeyIsServed(x, b, slot.route, w, work);
    case UserOwed(k, w) =>
      assert k in b.users.Keys && k in x.userGroups;
      forall g | g in x.userGroups[k]
        ensures g in work && (w.confirmMembership ==> work[g].confirmRemoval)
        ensures w.jitRetry ==> x.groupKeys[g] in RetryKeys(x, b, b.users.Keys)
      {
        assert UserLeads(x, b, k, g) && Reached(x, b, b.groups.Keys, b.users.Keys, g);
        if w.confirmMembership {
          assert UserConfirms(x, b, k, g);
        }
        if w.jitRetry {
          assert UserRetries(x, b, k, g);
        }
      }
    case GlobalOwed =>
  }

  lemma KeyIsServed(x: R.Derived, b: Q.Batch, k: Key, w: Q.Work, work: map<Id, Q.Work>)
    requires IsWork(x, b, b.groups.Keys, b.users.Keys, work)
    requires k in b.groups && b.groups[k].Covers(w) && !Unresolved(x, b, b.groups.Keys, b.users.Keys)
    ensures k in x.groupIds && x.groupIds[k] in work && work[x.groupIds[k]].Covers(w)
  {
    assert k in b.groups.Keys && k in x.groupIds;
    var g := x.groupIds[k];
    assert GroupLeads(x, b, k, g) && Reached(x, b, b.groups.Keys, b.users.Keys, g);
    if w.allProviders {
      assert GroupForAll(x, b, k, g);
    }
    if w.confirmRemoval {
      assert GroupConfirms(x, b, k, g);
    }
  }

  // ----- what is left in the queue -----

  /** The slot waits with a due time in the given window, or a pending full repair covers it. */
  predicate Waits(s: Q.State, slot: Q.Slot, lo: int, hi: int) {
    s.dirty.global || (slot in s.delayed && lo <= s.delayed[slot].due <= hi)
  }

  /** Between the two states only slots of this reason were scheduled. */
  ghost predicate Leaves(s: Q.State, t: Q.State, reason: string) {
    && t.closed == s.closed && t.clock.now >= s.clock.now
    && (s.dirty.global ==> t.dirty.global)
    && (forall slot <- s.delayed :: slot.reason != reason ==>
          t.dirty.global || (slot in t.delayed && t.delayed[slot].due == s.delayed[slot].due))
  }

  /** Every one of these routes has a slot of this reason waiting, in an open queue. */
  ghost predicate AllWait(s: Q.State, reason: string, routes: set<Key>, lo: int, hi: int) {
    !s.closed ==> forall k <- routes :: Waits(s, Q.Slot(reason, k), lo, hi)
  }

  lemma ScheduleAlso(s: Q.State, reason: string, routes: set<Key>, k: Key, delay: nat, lo: int, hi: int)
    requires AllWait(s, reason, routes, lo, hi) && lo <= s.clock.now + delay <= hi
    ensures var t := Q.Schedule(s, Q.Slot(reason, k), Q.NO_WORK, delay);
      Leaves(s, t, reason) && AllWait(t, reason, routes + {k}, lo, hi)
  {
  }

  lemma LeavesTransitive(s: Q.State, t: Q.State, u: Q.State, reason: string)
    requires Leaves(s, t, reason) && Leaves(t, u, reason)
    ensures Leaves(s, u, reason)
  {
  }

  /** One targeted run: the group, and whether only memberships are looked at. */
  datatype Targeted = Targeted(group: Id, membershipsOnly: bool)

  /** Exactly one run for every group of `groups`, over all providers if any of its hints asked for that. */
  ghost predicate ServesPart(runs: seq<Targeted>, work: map<Id, Q.Work>, groups: set<Id>) {
    && (forall i :: 0 <= i < |runs| ==>
      runs[i].group in groups && runs[i].group in work && runs[i].membershipsOnly == !work[runs[i].group].allProviders)
    && (forall i, j :: 0 <= i < j < |runs| ==> runs[i].group != runs[j].group)
    && (forall g <- groups :: exists i :: 0 <= i < |runs| && runs[i].group == g)
  }

  ghost predicate Serves(runs: seq<Targeted>, work: map<Id, Q.Work>) {
    ServesPart(runs, work, work.Keys)
  }

  lemma ServesOneMore(runs: seq<Targeted>, work: map<Id, Q.Work>, groups: set<Id>, g: Id)
    requires ServesPart(runs, work, groups) && g in work && g !in groups
    ensures ServesPart(runs + [Targeted(g, !work[g].allProviders)], work, groups + {g})
  {
    var more := runs + [Targeted(g, !work[g].allProviders)];
    assert more[|runs|].group == g;
    forall h | h in groups
      ensures exists i :: 0 <= i < |more| && more[i].group == h
    {
      var i :| 0 <= i < |runs| && runs[i].group == h;
      assert more[i].group == h;
    }
  }

  /** The queue after one targeted run. */
  ghost function TargetDone(s: Q.State, w: Q.Work, route: Key, span: nat): Q.State {
    var t := Q.Step(s, Q.Wait(span));
    if w.confirmRemoval then Q.Schedule(t, ConfirmSlot(route), Q.NO_WORK, CONFIRM_DELAY) else t
  }

  /** The routes of those groups that have a removal to confirm. */
  ghost function Confirmed(work: map<Id, Q.Work>, routes: map<Id, Key>, groups: set<Id>): set<Key> {
    set g | g in groups && g in work && g in routes && work[g].confirmRemoval :: routes[g]
  }

  lemma ConfirmedOneMore(work: map<Id, Q.Work>, routes: map<Id, Key>, groups: set<Id>, g: Id)
    requires g in work && g in routes
    ensures Confirmed(work, routes, groups + {g})
      == Confirmed(work, routes, groups) + (if work[g].confirmRemoval then {routes[g]} else {})
  {
  }

  lemma TargetWaits(s: Q.State, w: Q.Work, known: set<Key>, route: Key, span: nat, lo: int, hi: int)
    requires lo <= s.clock.now + CONFIRM_DELAY == hi
    requires AllWait(s, CONFIRMATION, known, lo, hi)
    ensures var t := TargetDone(s, w, route, span);
      Leaves(s, t, CONFIRMATION)
        && AllWait(t, CONFIRMATION, known + (if w.confirmRemoval then {route} else {}), lo, hi + span)
  {
    var u := Q.Step(s, Q.Wait(span));
    WaitLater(s, known, span, lo, hi);
    ScheduleAlso(u, CONFIRMATION, known, route, CONFIRM_DELAY, lo, hi + span);
    assert known + {} == known;
  }

  lemma WaitLater(s: Q.State, known: set<Key>, span: nat, lo: int, hi: int)
    requires AllWait(s, CONFIRMATION, known, lo, hi)
    ensures AllWait(Q.Step(s, Q.Wait(span)), CONFIRMATION, known, lo, hi + span)
    ensures Leaves(s, Q.Step(s, Q.Wait(span)), CONFIRMATION)
  {
  }

  // ----- from a hint to its run -----

  /** A full repair is pending or waits for its time. */
  predicate RepairWaits(s: Q.State) {
    s.dirty.global || REPAIR_SLOT in s.delayed
  }

  /** What a batch comes to: the repair it asked for ran or waits, and without one every group reached had its run. */
  ghost predicate Settles(
      x: R.Derived, b: Q.Batch, s: Q.State, repaired: bool, work: map<Id, Q.Work>, more: seq<Targeted>)
  {
    && (b.globalRepair || Unresolved(x, b, b.groups.Keys, b.users.Keys) ==> repaired || RepairWaits(s))
    && (!repaired ==> IsWork(x, b, b.groups.Keys, b.users.Keys, work) && Serves(more, work))
  }

  /** The group had its one run, over all providers if this asked for it, and its removals are confirmed if this did. */
  ghost predicate RanFor(g: Id, w: Q.Work, work: map<Id, Q.Work>, more: seq<Targeted>) {
    && g in work && (w.confirmRemoval ==> work[g].confirmRemoval)
    && exists i :: 0 <= i < |more| && more[i].group == g && (w.allProviders ==> !more[i].membershipsOnly)
  }

  /** Every group the obligation leads to had its run. */
  ghost predicate Answered(x: R.Derived, owed: Q.Owed, work: map<Id, Q.Work>, more: seq<Targeted>) {
    match owed
    case GroupOwed(k, w) => k in x.groupIds && RanFor(x.groupIds[k], w, work, more)
    case SlotOwed(slot, w) => slot.route in x.groupIds && RanFor(x.groupIds[slot.route], w, work, more)
    case UserOwed(k, w) => k in x.userGroups && forall g <- x.userGroups[k] ::
      RanFor(g, Q.Work(false, w.confirmMembership), work, more)
    case GlobalOwed => false
  }

  lemma ServedRan(work: map<Id, Q.Work>, more: seq<Targeted>, g: Id, w: Q.Work)
    requires Serves(more, work) && g in work && work[g].Covers(w)
    ensures RanFor(g, w, work, more)
  {
  }

  lemma CarriedIsAnswered(x: R.Derived, b: Q.Batch, owed: Q.Owed, work: map<Id, Q.Work>, more: seq<Targeted>)
    requires Routed(x) && Q.Carries(b, owed) && !b.globalRepair && !Unresolved(x, b, b.groups.Keys, b.users.Keys)
    requires IsWork(x, b, b.groups.Keys, b.users.Keys, work) && Serves(more, work)
    ensures Answered(x, owed, work, more)
  {
    OwedIsServed(x, b, owed, work);
    match owed
    case GroupOwed(k, w) => ServedRan(work, more, x.groupIds[k], w);
    case SlotOwed(slot, w) => ServedRan(work, more, x.groupIds[slot.route], w);
    case UserOwed(k, w) =>
      forall g | g in x.userGroups[k]
        ensures RanFor(g, Q.Work(false, w.confirmMembership), work, more)
      {
        ServedRan(work, more, g, Q.Work(false, w.confirmMembership));
      }
    case GlobalOwed =>
  }

  /**
   From the moment an open queue accepts it, through any interleaving, until its
   batch has been worked off: a hint is still delayed, or a full repair ran or
   waits, or every group it leads to had its targeted run.
  */
  lemma HintAnswered(
      before: seq<Q.Move>, m: Q.Move, after: seq<Q.Move>, x: R.Derived, t: Q.State, repaired: bool,
      work: map<Id, Q.Work>, more: seq<Targeted>)
    requires Q.Obligation(m).Some? && !Q.Run(Q.EMPTY_QUEUE, before).closed && Routed(x)
    requires forall y <- after :: !y.DrainBatch?
    requires Settles(x, Q.BatchOf(Q.Run(Q.Step(Q.Run(Q.EMPTY_QUEUE, before), m), after)), t, repaired, work, more)
    ensures var s := Q.Run(Q.Step(Q.Run(Q.EMPTY_QUEUE, before), m), after); var owed := Q.Obligation(m).value;
      Q.StillDelayed(Q.Drain(s), owed) || repaired || RepairWaits(t) || Answered(x, owed, work, more)
  {
    var b := Q.BatchOf(Q.Run(Q.Step(Q.Run(Q.EMPTY_QUEUE, before), m), after));
    var owed := Q.Obligation(m).value;
    Q.NoHintLost(before, m, after);
    if Q.Carries(b, owed) && !repaired && !RepairWaits(t) {
      CarriedIsAnswered(x, b, owed, work, more);
    }
  }

  /** The group had a run, over all providers if need be, and its removals are looked at again if need be. */
  ghost predicate RunFor(g: Id, all: bool, confirm: bool, work: map<Id, Q.Work>, more: seq<Targeted>) {
    && (exists i :: 0 <= i < |more| && more[i].group == g && (all ==> !more[i].membershipsOnly))
    && (confirm ==> g in work && work[g].confirmRemoval)
  }

  /** What the hint was about was run: its group, or the groups of its user. */
  ghost predicate RunsOf(x: R.Derived, b: Q.Batch, h: Q.Hint, work: map<Id, Q.Work>, more: seq<Targeted>) {
    if h.userKey != "" then
      && h.userKey in x.userGroups
      && forall g <- x.userGroups[h.userKey] ::
           && RunFor(g, false, h.operationType == "UPDATE" || h.operationType == "DELETE", work, more)
           && (h.operationType == "LOGIN" ==> g in x.groupKeys && x.groupKeys[g] in RetryKeys(x, b, b.users.Keys))
    else
      && h.groupKey in x.groupIds
      && RunFor(
           x.groupIds[h.groupKey], h.resourceType == "GROUP", h.resourceType != "GROUP" && h.operationType == "DELETE",
           work, more)
  }

  /** From the moment an open queue is given a hint until its batch has been worked off, flag by flag. */
  lemma HintRuns(
      before: seq<Q.Move>, h: Q.Hint, after: seq<Q.Move>, x: R.Derived, t: Q.State, repaired: bool,
      work: map<Id, Q.Work>, more: seq<Targeted>)
    requires !Q.Run(Q.EMPTY_QUEUE, before).closed && Routed(x) && forall y <- after :: !y.DrainBatch?
    requires Settles(
      x, Q.BatchOf(Q.Run(Q.Step(Q.Run(Q.EMPTY_QUEUE, before), Q.AddHint(h)), after)), t, repaired, work, more)
    ensures var b := Q.BatchOf(Q.Run(Q.Step(Q.Run(Q.EMPTY_QUEUE, before), Q.AddHint(h)), after));
      repaired || RepairWaits(t) || RunsOf(x, b, h, work, more)
  {
    var b := Q.BatchOf(Q.Run(Q.Step(Q.Run(Q.EMPTY_QUEUE, before), Q.AddHint(h)), after));
    var owed := Q.Obligation(Q.AddHint(h)).value;
    Q.NoHintLost(before, Q.AddHint(h), after);
    if !repaired && !RepairWaits(t) {
      CarriedIsAnswered(x, b, owed, work, more);
      OwedIsServed(x, b, owed, work);
    }
  }

  /** An event-driven full repair started, or some full run succeeded. */
  datatype Mark = Start(at: int) | Success(at: int)

  /** Every start comes five seconds after everything before it. */
  ghost predicate Spaced(timeline: seq<Mark>) {
    forall i, j :: 0 <= i < j < |timeline| && timeline[j].Start? ==> timeline[j].at - timeline[i].at >= 5000
  }

  datatype Outcome = Succeeds | Fails | Canceled

  lemma ConfirmedByKeys(x: R.Derived, work: map<Id, Q.Work>, routes: map<Id, Key>)
    requires AreRoutes(x, routes, work.Keys)
    ensures Confirmed(work, routes, work.Keys) == Confirmed(work, x.groupKeys, work.Keys)
  {
  }

  /** The second looks a batch leaves behind: removals after 1.5 seconds, logins after 3. */
  ghost predicate LooksAgain(s: Q.State, confirmed: set<Key>, retries: set<Key>, start: int) {
    && AllWait(s, CONFIRMATION, confirmed, start + 1500, s.clock.now + 1500)
    && AllWait(s, JIT, retries, s.clock.now + 3000, s.clock.now + 3000)
  }

  lemma LooksEarlier(s: Q.State, confirmed: set<Key>, retries: set<Key>, start: int, earlier: int)
    requires LooksAgain(s, confirmed, retries, start) && earlier <= start
    ensures LooksAgain(s, confirmed, retries, earlier)
  {
  }

  /** After the targeted runs and the retries, every window is still kept. */
  lemma AllKept(a: Q.State, b: Q.State, c: Q.State, confirmed: set<Key>, lo: int, hi: int, due: int)
    requires Leaves(a, b, CONFIRMATION) && Leaves(b, c, JIT)
    requires AllWait(b, CONFIRMATION, confirmed, lo, hi)
    ensures AllWait(c, CONFIRMATION, confirmed, lo, hi)
    ensures Waits(a, REPAIR_SLOT, due, due) ==> Waits(c, REPAIR_SLOT, due, due)
  {
  }

  // ----- the object -----

  class Consumer {
    const queue: E.EventQueue
    const index: R.RouteIndex?
    var lastFullAttempt: Option<int>
    var lastFullRepair: Option<int>
    /** The full runs, and which targeted runs there were. */
    ghost var timeline: seq<Mark>
    ghost var runs: seq<Targeted>

    /** Event-driven full repairs were spaced, and nothing marked lies after the anchor or in the future. */
    ghost predicate Paced()
      reads this, queue, queue.rt
    {
      && Spaced(timeline)
      && (timeline != [] ==> Anchor().Some?)
      && (forall i :: 0 <= i < |timeline| ==> timeline[i].at <= Anchor().value)
      && (Anchor().Some? ==> Anchor().value <= queue.rt.now)
    }

    ghost predicate Valid()
      reads this, index, queue, queue.rt
    {
      Paced() && (index != null ==> index.Valid())
    }

    constructor (queue: E.EventQueue, index: R.RouteIndex?)
      requires index != null ==> index.Valid()
      ensures Valid() && this.queue == queue && this.index == index && fresh(this)
    {
      this.queue, this.index := queue, index;
      lastFullAttempt, lastFullRepair, timeline, runs := None, None, [], [];
    }

    /** The later of the last attempt and the last success. */
    function Anchor(): Option<int>
      reads this
    {
      if lastFullAttempt.None? then lastFullRepair
      else if lastFullRepair.Some? && lastFullRepair.value > lastFullAttempt.value then lastFullRepair
      else lastFullAttempt
    }

    function Remaining(): int
      reads this, queue, queue.rt
    {
      if Anchor().None? then 0 else REPAIR_INTERVAL - (queue.rt.now - Anchor().value)
    }

    /** At most one event-driven start in five seconds; what cannot start now is queued for when it can. */
    method RunEventFullRepair(o: Outcome, span: nat) returns (repaired: bool)
      requires Paced()
      modifies this`lastFullAttempt, this`lastFullRepair, this`timeline, queue, queue.rt
      ensures Paced() && queue.closed == old(queue.closed)
      ensures repaired == (old(Remaining()) <= 0 && o.Succeeds?)
      ensures timeline == old(timeline) + (if old(Remaining()) <= 0 then [Start(old(queue.rt.now))] else [])
        + (if repaired then [Success(queue.rt.now)] else [])
      ensures queue.rt.now == old(queue.rt.now) + if old(Remaining()) <= 0 then span else 0
      ensures repaired ==> queue.State() == Q.Step(old(queue.State()), Q.Wait(span))
      ensures !repaired && !queue.closed && old(Remaining()) > 0 ==>
        Waits(queue.State(), REPAIR_SLOT, old(queue.rt.now + Remaining()), old(queue.rt.now + Remaining()))
      ensures !repaired && !queue.closed && old(Remaining()) <= 0 && o.Fails? ==>
        Waits(queue.State(), REPAIR_SLOT, queue.rt.now + REPAIR_INTERVAL, queue.rt.now + REPAIR_INTERVAL)
    {
      var remaining := Remaining();
      if remaining > 0 {
        DeferRepair(remaining);
        return false;
      }
      repaired := StartRepair(o, span);
      if o.Fails? {
        DeferRepair(REPAIR_INTERVAL);
      }
    }

    /** The full run itself, at a moment when one may start. */
    method StartRepair(o: Outcome, span: nat) returns (repaired: bool)
      requires Paced() && Remaining() <= 0
      modifies this`lastFullAttempt, this`lastFullRepair, this`timeline, queue.rt`now
      ensures Paced() && repaired == o.Succeeds? && queue.rt.now == old(queue.rt.now) + span
      ensures timeline == old(timeline) + [Start(old(queue.rt.now))]
        + (if repaired then [Success(queue.rt.now)] else [])
    {
      lastFullAttempt := Some(queue.rt.now);
      timeline := timeline + [Start(queue.rt.now)];
      queue.rt.now := queue.rt.now + span;
      repaired := o.Succeeds?;
      if repaired {
        lastFullRepair := Some(queue.rt.now);
        timeline := timeline + [Success(queue.rt.now)];
      }
    }

    method DeferRepair(delay: int)
      modifies queue, queue.rt
      ensures queue.closed == old(queue.closed) && queue.rt.now == old(queue.rt.now)
      ensures !queue.closed ==> Waits(queue.State(), REPAIR_SLOT, queue.rt.now + delay, queue.rt.now + delay)
    {
      queue.AddGlobalAfter(delay);
    }

    /**
     A scheduled full reconciliation. The anchor never goes back, and after a
     success no event-driven repair may start for the whole interval.
    */
    method RunScheduled(o: Outcome, span: nat)
      requires Paced()
      modifies this`lastFullRepair, this`timeline, queue.rt`now
      ensures Paced() && queue.rt.now == old(queue.rt.now) + span
      ensures timeline == old(timeline) + if o.Succeeds? then [Success(queue.rt.now)] else []
      ensures old(Anchor()).Some? ==> Anchor().Some? && Anchor().value >= old(Anchor()).value
      ensures if o.Succeeds? then Remaining() == REPAIR_INTERVAL else Anchor() == old(Anchor())
    {
      queue.rt.now := queue.rt.now + span;
      if o.Succeeds? {
        lastFullRepair := Some(queue.rt.now);
        timeline := timeline + [Success(queue.rt.now)];
      }
    }

    ghost function Index(): R.Derived
      requires index != null
      reads this, index
    {
      R.Derived(index.groupIds, index.groupKeys, index.userGroups)
    }

    /** The group keys of the batch, in any order. */
    method ResolveGroups(b: Q.Batch) returns (work: map<Id, Q.Work>, routes: map<Id, Key>, unresolved: bool)
      requires index != null && Routed(Index())
      ensures IsWork(Index(), b, b.groups.Keys, {}, work) && AreRoutes(Index(), routes, work.Keys)
      ensures unresolved == Unresolved(Index(), b, b.groups.Keys, {})
    {
      work, routes, unresolved := map[], map[], false;
      var left := b.groups.Keys;
      while left != {}
        invariant left <= b.groups.Keys
        invariant IsWork(Index(), b, b.groups.Keys - left, {}, work)
        invariant AreRoutes(Index(), routes, work.Keys)
        invariant unresolved == Unresolved(Index(), b, b.groups.Keys - left, {})
        decreases left
      {
        var k :| k in left;
        ghost var done := b.groups.Keys - left;
        left := left - {k};
        assert b.groups.Keys - left == done + {k};
        ghost var before := work;
        var found := index.ResolveGroup(k);
        if found.None? {
          unresolved := true;
        } else {
          work := MergeAt(work, found.value, b.groups[k]);
          routes := routes[found.value := k];
        }
        assert IsFanned(before, LedByGroup(Index(), k), b.groups[k], work);
        ReachByGroup(Index(), b, done, k, before, work);
        OneMoreUnresolved(Index(), b, done, {}, k);
      }
      assert b.groups.Keys - left == b.groups.Keys;
    }

    /** One user key fanned out to the groups filed under it; each of them has a routing key. */
    method FanOut(k: Key, w: Q.UserWork, before: map<Id, Q.Work>, known: map<Id, Key>, retriesBefore: set<Key>)
        returns (work: map<Id, Q.Work>, routes: map<Id, Key>, retries: set<Key>)
      requires index != null && Routed(Index()) && k in index.userGroups && AreRoutes(Index(), known, before.Keys)
      ensures IsFanned(before, index.userGroups[k], Q.Work(false, w.confirmMembership), work)
        && AreRoutes(Index(), routes, work.Keys)
      ensures retries == if w.jitRetry then retriesBefore + KeysOf(Index(), index.userGroups[k]) else retriesBefore
    {
      work, routes, retries := before, known, retriesBefore;
      var led := index.userGroups[k];
      var left := led;
      while left != {}
        invariant left <= led
        invariant IsFanned(before, led - left, Q.Work(false, w.confirmMembership), work)
        invariant AreRoutes(Index(), routes, work.Keys)
        invariant retries == if w.jitRetry then retriesBefore + KeysOf(Index(), led - left) else retriesBefore
        decreases left
      {
        var g :| g in left;
        assert led - (left - {g}) == (led - left) + {g};
        left := left - {g};
        var route := index.RouteForGroup(g);
        if route.None? {
          assert false;
        }
        work := MergeAt(work, g, Q.Work(false, w.confirmMembership));
        routes := routes[g := route.value];
        if w.jitRetry {
          retries := retries + {route.value};
        }
      }
      assert led - left == led;
    }

    method ResolveUserKey(
        b: Q.Batch, k: Key, before: map<Id, Q.Work>, known: map<Id, Key>, retriesBefore: set<Key>, ghost done: set<Key>)
        returns (work: map<Id, Q.Work>, routes: map<Id, Key>, retries: set<Key>, resolved: bool)
      requires index != null && Routed(Index()) && k in b.users
      requires IsWork(Index(), b, b.groups.Keys, done, before) && AreRoutes(Index(), known, before.Keys)
      requires retriesBefore == RetryKeys(Index(), b, done)
      ensures IsWork(Index(), b, b.groups.Keys, done + {k}, work) && AreRoutes(Index(), routes, work.Keys)
      ensures retries == RetryKeys(Index(), b, done + {k}) && resolved == (k in index.userGroups)
    {
      work, routes, retries := before, known, retriesBefore;
      var found := index.ResolveUser(k);
      resolved := found.Some?;
      if resolved {
        work, routes, retries := FanOut(k, b.users[k], work, routes, retries);
      }
      ReachByUser(Index(), b, done, k, before, work);
      OneMoreRetry(Index(), b, done, k);
    }

    /** The user keys of the batch, in any order. */
    method ResolveUsers(b: Q.Batch, known: map<Id, Q.Work>, knownRoutes: map<Id, Key>)
        returns (work: map<Id, Q.Work>, routes: map<Id, Key>, retries: set<Key>, unresolved: bool)
      requires index != null && Routed(Index())
      requires IsWork(Index(), b, b.groups.Keys, {}, known) && AreRoutes(Index(), knownRoutes, known.Keys)
      ensures IsWork(Index(), b, b.groups.Keys, b.users.Keys, work) && AreRoutes(Index(), routes, work.Keys)
      ensures retries == RetryKeys(Index(), b, b.users.Keys)
      ensures unresolved == Unresolved(Index(), b, {}, b.users.Keys)
    {
      work, routes, retries, unresolved := known, knownRoutes, {}, false;
      var left := b.users.Keys;
      while left != {}
        invariant left <= b.users.Keys
        invariant IsWork(Index(), b, b.groups.Keys, b.users.Keys - left, work)
        invariant AreRoutes(Index(), routes, work.Keys)
        invariant retries == RetryKeys(Index(), b, b.users.Keys - left)
        invariant unresolved == Unresolved(Index(), b, {}, b.users.Keys - left)
        decreases left
      {
        var k :| k in left;
        ghost var done := b.users.Keys - left;
        left := left - {k};
        assert b.users.Keys - left == done + {k};
        var found;
        work, routes, retries, found := ResolveUserKey(b, k, work, routes, retries, done);
        unresolved := unresolved || !found;
        OneMoreUnresolved(Index(), b, {}, done, k);
      }
      assert b.users.Keys - left == b.users.Keys;
    }

    /** Another look at the groups a login leads to, for memberships that appear late. */
    method RunRetries(retries: set<Key>)
      modifies queue, queue.rt
      ensures Leaves(old(queue.State()), queue.State(), JIT) && queue.rt.now == old(queue.rt.now)
      ensures AllWait(queue.State(), JIT, retries, queue.rt.now + JIT_DELAY, queue.rt.now + JIT_DELAY)
    {
      var left := retries;
      while left != {}
        invariant left <= retries
        invariant Leaves(old(queue.State()), queue.State(), JIT) && queue.rt.now == old(queue.rt.now)
        invariant AllWait(queue.State(), JIT, retries - left, queue.rt.now + JIT_DELAY, queue.rt.now + JIT_DELAY)
        decreases left
      {
        var k :| k in left;
        ghost var s, done := queue.State(), retries - left;
        left := left - {k};
        assert retries - left == done + {k};
        queue.ScheduleGroup(k, Q.NO_WORK, JIT_DELAY, JIT);
        ScheduleAlso(s, JIT, done, k, JIT_DELAY, queue.rt.now + JIT_DELAY, queue.rt.now + JIT_DELAY);
        LeavesTransitive(old(queue.State()), s, queue.State(), JIT);
      }
      assert retries - left == retries;
    }

    /** One targeted run, and a second look if it has a removal to confirm. */
    method RunTarget(g: Id, w: Q.Work, route: Key, span: nat, ghost known: set<Key>, ghost lo: int)
      requires lo <= queue.rt.now + CONFIRM_DELAY
      requires AllWait(queue.State(), CONFIRMATION, known, lo, queue.rt.now + CONFIRM_DELAY)
      modifies this`runs, queue, queue.rt
      ensures runs == old(runs) + [Targeted(g, !w.allProviders)]
      ensures Leaves(old(queue.State()), queue.State(), CONFIRMATION)
      ensures AllWait(queue.State(), CONFIRMATION, known + (if w.confirmRemoval then {route} else {}), lo,
        queue.rt.now + CONFIRM_DELAY)
    {
      ghost var s := queue.State();
      TargetWaits(s, w, known, route, span, lo, s.clock.now + CONFIRM_DELAY);
      runs := runs + [Targeted(g, !w.allProviders)];
      queue.rt.now := queue.rt.now + span;
      assert queue.State() == Q.Step(s, Q.Wait(span));
      if w.confirmRemoval {
        queue.ScheduleGroup(route, Q.NO_WORK, CONFIRM_DELAY, CONFIRMATION);
      }
    }

    /** One targeted run per group. */
    method RunTargets(work: map<Id, Q.Work>, routes: map<Id, Key>, spans: Id -> nat) returns (ghost more: seq<Targeted>)
      requires routes.Keys == work.Keys
      modifies this`runs, queue, queue.rt
      ensures runs == old(runs) + more && Serves(more, work)
      ensures Leaves(old(queue.State()), queue.State(), CONFIRMATION)
      ensures AllWait(queue.State(), CONFIRMATION, Confirmed(work, routes, work.Keys),
        old(queue.rt.now) + CONFIRM_DELAY, queue.rt.now + CONFIRM_DELAY)
    {
      more := [];
      var left := work.Keys;
      ghost var first, lo := queue.State(), queue.rt.now + CONFIRM_DELAY;
      while left != {}
        invariant left <= work.Keys && runs == old(runs) + more
        invariant ServesPart(more, work, work.Keys - left)
        invariant Leaves(first, queue.State(), CONFIRMATION)
        invariant AllWait(queue.State(), CONFIRMATION, Confirmed(work, routes, work.Keys - left), lo,
          queue.rt.now + CONFIRM_DELAY)
        decreases left
      {
        var g :| g in left;
        ghost var s, done := queue.State(), work.Keys - left;
        left := left - {g};
        assert work.Keys - left == done + {g};
        ServesOneMore(more, work, done, g);
        ConfirmedOneMore(work, routes, done, g);
        more := more + [Targeted(g, !work[g].allProviders)];
        RunTarget(g, work[g], routes[g], spans(g), Confirmed(work, routes, done), lo);
        LeavesTransitive(first, s, queue.State(), CONFIRMATION);
      }
      assert work.Keys - left == work.Keys;
    }

    /** The whole batch has to become a full repair: asked for, or some key leads nowhere. */
    ghost predicate Asked(b: Q.Batch)
      reads this, index
    {
      index == null || b.globalRepair || Unresolved(Index(), b, b.groups.Keys, b.users.Keys)
    }

    /** When a full repair that could not start, or failed, is due again. */
    ghost function RepairDue(span: nat): int
      reads this, queue, queue.rt
    {
      if Remaining() > 0 then queue.rt.now + Remaining() else queue.rt.now + span + REPAIR_INTERVAL
    }

    /** Everything the batch's keys lead to, and whether it has to become a full repair. */
    method Resolve(b: Q.Batch) returns (work: map<Id, Q.Work>, routes: map<Id, Key>, retries: set<Key>, asked: bool)
      requires index != null && Routed(Index())
      ensures IsWork(Index(), b, b.groups.Keys, b.users.Keys, work) && AreRoutes(Index(), routes, work.Keys)
      ensures retries == RetryKeys(Index(), b, b.users.Keys) && asked == Asked(b)
    {
      var groupWork, groupRoutes, unresolvedGroups := ResolveGroups(b);
      var unresolvedUsers;
      work, routes, retries, unresolvedUsers := ResolveUsers(b, groupWork, groupRoutes);
      asked := b.globalRepair || unresolvedGroups || unresolvedUsers;
      EitherUnresolved(Index(), b);
    }

    /** The targeted runs and every second look they and the logins call for. */
    method RunTargeted(
        work: map<Id, Q.Work>, routes: map<Id, Key>, retries: set<Key>, spans: Id -> nat,
        ghost due: int) returns (ghost more: seq<Targeted>)
      requires routes.Keys == work.Keys
      modifies this`runs, queue, queue.rt
      ensures runs == old(runs) + more && Serves(more, work)
      ensures queue.closed == old(queue.closed) && queue.rt.now >= old(queue.rt.now)
      ensures old(Paced()) ==> Paced()
      ensures LooksAgain(queue.State(), Confirmed(work, routes, work.Keys), retries, old(queue.rt.now))
      ensures old(Waits(queue.State(), REPAIR_SLOT, due, due)) ==> Waits(queue.State(), REPAIR_SLOT, due, due)
    {
      ghost var s := queue.State();
      more := RunTargets(work, routes, spans);
      ghost var t := queue.State();
      RunRetries(retries);
      AllKept(s, t, queue.State(), Confirmed(work, routes, work.Keys), s.clock.now + CONFIRM_DELAY,
        t.clock.now + CONFIRM_DELAY, due);
    }

    /** The full repair, if the batch has to become one. */
    method RepairIfAsked(asked: bool, o: Outcome, span: nat) returns (repaired: bool)
      requires Paced()
      modifies this`lastFullAttempt, this`lastFullRepair, this`timeline, queue, queue.rt
      ensures Paced() && queue.closed == old(queue.closed) && queue.rt.now >= old(queue.rt.now)
      ensures repaired <==> asked && o.Succeeds? && old(Remaining()) <= 0
      ensures asked && !repaired && !queue.closed && (old(Remaining()) > 0 || o.Fails?) ==>
        Waits(queue.State(), REPAIR_SLOT, old(RepairDue(span)), old(RepairDue(span)))
    {
      repaired := false;
      if asked {
        repaired := RunEventFullRepair(o, span);
      }
    }

    /** The batch once the index is current. */
    method WorkOff(b: Q.Batch, o: Outcome, span: nat, spans: Id -> nat)
        returns (ghost repaired: bool, ghost work: map<Id, Q.Work>, ghost more: seq<Targeted>)
      requires Paced() && index != null && Routed(Index())
      modifies this, queue, queue.rt
      ensures Paced() && queue.closed == old(queue.closed)
      ensures runs == old(runs) + more
      ensures repaired <==> Asked(b) && o.Succeeds? && old(Remaining()) <= 0
      ensures repaired ==> more == []
      ensures IsWork(Index(), b, b.groups.Keys, b.users.Keys, work)
      ensures !repaired ==> Serves(more, work)
      ensures !repaired ==> LooksAgain(queue.State(), Confirmed(work, index.groupKeys, work.Keys),
        RetryKeys(Index(), b, b.users.Keys), old(queue.rt.now))
      ensures Asked(b) && !repaired && !queue.closed && (old(Remaining()) > 0 || o.Fails?) ==>
        Waits(queue.State(), REPAIR_SLOT, old(RepairDue(span)), old(RepairDue(span)))
    {
      var allWork, routes, retries, asked := Resolve(b);
      ghost var start, due := queue.rt.now, RepairDue(span);
      work, more := allWork, [];
      ConfirmedByKeys(Index(), work, routes);
      var done := RepairIfAsked(asked, o, span);
      repaired := done;
      if done {
        return;
      }
      ghost var middle := queue.rt.now;
      more := RunTargeted(allWork, routes, retries, spans, due);
      LooksEarlier(queue.State(), Confirmed(work, routes, work.Keys), retries, middle, start);
    }

    /**
     One batch. `work` is what its keys lead to under the refreshed secret,
     `more` the targeted runs made for it.
    */
    method ProcessEventBatch(b: Q.Batch, loaded: Option<string>, o: Outcome, span: nat, spans: Id -> nat)
        returns (ghost repaired: bool, ghost work: map<Id, Q.Work>, ghost more: seq<Targeted>)
      requires Valid()
      modifies this, index, queue, queue.rt
      ensures Valid() && queue.closed == old(queue.closed)
      ensures runs == old(runs) + more
      ensures index != null ==> index.groupUsers == old(index.groupUsers)
      ensures index != null && !R.Loadable(loaded) ==>
        !repaired && more == [] && timeline == old(timeline) && queue.State() == old(queue.State())
      ensures index == null || R.Loadable(loaded) ==> (repaired <==> Asked(b) && o.Succeeds? && old(Remaining()) <= 0)
      ensures repaired || index == null ==> more == []
      ensures index != null && R.Loadable(loaded) ==>
        index.secret == loaded.value && IsWork(Index(), b, b.groups.Keys, b.users.Keys, work)
      ensures index != null && R.Loadable(loaded) && !repaired ==> Serves(more, work)
      ensures index != null && R.Loadable(loaded) && !repaired ==>
        LooksAgain(queue.State(), Confirmed(work, index.groupKeys, work.Keys), RetryKeys(Index(), b, b.users.Keys),
          old(queue.rt.now))
      ensures
        (index == null || R.Loadable(loaded)) && Asked(b) && !repaired && !queue.closed &&
        (old(Remaining()) > 0 || o.Fails?) ==>
        Waits(queue.State(), REPAIR_SLOT, old(RepairDue(span)), old(RepairDue(span)))
      ensures index != null && R.Loadable(loaded) && !queue.closed && (o.Canceled? ==> old(Remaining()) > 0) ==>
        Settles(Index(), b, queue.State(), repaired, work, more)
    {
      work, more := map[], [];
      if index == null {
        var done := RunEventFullRepair(o, span);
        repaired := done;
        return;
      }
      var refreshed := index.Refresh(loaded);
      if !refreshed {
        repaired := false;
        return;
      }
      IndexRouted(index.mac, index.secret, index.groupUsers, Index());
      repaired, work, more := WorkOff(b, o, span, spans);
    }
  }
}

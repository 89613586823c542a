/**
 What a hint makes the queue do, with every flag written out: a drained batch has
 the flags of the hints it was made of, and no others.
*/
module QueueFlags {
  import opened Queue

  // ----- every hint's flags are in the batch -----

  /** A batch that does what this hint asks for, or repairs everything. */
  predicate Serves(b: Batch, h: Hint) {
    b.globalRepair || (
      && !h.globalRepair
      && if h.userKey != "" then
           && h.userKey in b.users
           && (h.operationType == "LOGIN" ==> b.users[h.userKey].jitRetry)
           && (h.operationType == "UPDATE" || h.operationType == "DELETE" ==> b.users[h.userKey].confirmMembership)
         else
           && h.groupKey != "" && h.groupKey in b.groups
           && (h.resourceType == "GROUP" ==> b.groups[h.groupKey].allProviders)
           && (h.resourceType != "GROUP" && h.operationType == "DELETE" ==> b.groups[h.groupKey].confirmRemoval))
  }

  /** Whatever interleaving follows, the next drained batch serves a hint that an open queue was given. */
  lemma HintServed(before: seq<Move>, h: Hint, after: seq<Move>)
    requires !Run(EMPTY_QUEUE, before).closed && forall m <- after :: !m.DrainBatch?
    ensures Serves(BatchOf(Run(Step(Run(EMPTY_QUEUE, before), AddHint(h)), after)), h)
  {
    NoHintLost(before, AddHint(h), after);
  }

  // ----- and there are no others -----

  /** A key of the batch, or one of its two flags. */
  datatype Aspect = Present | First | Second

  predicate GroupHas(w: Work, a: Aspect) {
    match a
    case Present => true
    case First => w.allProviders
    case Second => w.confirmRemoval
  }

  predicate UserHas(w: UserWork, a: Aspect) {
    match a
    case Present => true
    case First => w.jitRetry
    case Second => w.confirmMembership
  }

  /** The call asks for this much work on this group. */
  predicate GivesGroup(m: Move, k: Key, a: Aspect) {
    match m
    case AddHint(h) =>
      && !h.globalRepair && h.userKey == "" && h.groupKey == k && k != ""
      && (a.First? ==> h.resourceType == "GROUP")
      && (a.Second? ==> h.resourceType != "GROUP" && h.operationType == "DELETE")
    case ScheduleWork(slot, work, _) =>
      slot.route == k && (a.First? ==> work.allProviders) && (a.Second? ==> work.confirmRemoval)
    case _ => false
  }

  predicate GivesUser(m: Move, k: Key, a: Aspect) {
    match m
    case AddHint(h) =>
      && !h.globalRepair && h.userKey == k && k != ""
      && (a.First? ==> h.operationType == "LOGIN")
      && (a.Second? ==> h.operationType == "UPDATE" || h.operationType == "DELETE")
    case _ => false
  }

  predicate GivesSlot(m: Move, slot: Slot, a: Aspect) {
    m.ScheduleWork? && m.slot == slot && (a.First? ==> m.work.allProviders) && (a.Second? ==> m.work.confirmRemoval)
  }

  /** The `n`-th move, if the consumer drained the queue with it. */
  ghost predicate Drained(moves: seq<Move>, n: nat)
    requires n < |moves|
  {
    moves[n].DrainBatch? && Run(EMPTY_QUEUE, moves[..n]).received
  }

  /** A hint counts for the batch only since the last drain; a delayed slot is released whenever it is due. */
  ghost predicate Current(moves: seq<Move>, n: nat)
    requires n < |moves|
  {
    moves[n].AddHint? ==> forall j :: n < j < |moves| ==> !Drained(moves, j)
  }

  ghost predicate GroupCause(moves: seq<Move>, n: int, k: Key, a: Aspect) {
    0 <= n < |moves| && GivesGroup(moves[n], k, a) && Current(moves, n)
  }

  ghost predicate UserCause(moves: seq<Move>, n: int, k: Key, a: Aspect) {
    0 <= n < |moves| && GivesUser(moves[n], k, a) && Current(moves, n)
  }

  ghost predicate SlotCause(moves: seq<Move>, n: int, slot: Slot, a: Aspect) {
    0 <= n < |moves| && GivesSlot(moves[n], slot, a)
  }

  /** Everything in the queue was asked for. */
  ghost predicate Caused(moves: seq<Move>, s: State) {
    && (forall k, a :: k in s.dirty.groups && GroupHas(s.dirty.groups[k], a) ==> exists n :: GroupCause(moves, n, k, a))
    && (forall k, a :: k in s.dirty.users && UserHas(s.dirty.users[k], a) ==> exists n :: UserCause(moves, n, k, a))
    && (forall slot, a :: slot in s.delayed && GroupHas(s.delayed[slot].work, a) ==>
      exists n :: SlotCause(moves, n, slot, a))
  }

  lemma StillCurrent(moves: seq<Move>, m: Move, n: nat)
    requires n < |moves| && Current(moves, n) && !Drained(moves + [m], |moves|)
    ensures Current(moves + [m], n)
  {
    var more := moves + [m];
    forall j | n < j < |more| && more[n].AddHint?
      ensures !Drained(more, j)
    {
      if j < |moves| {
        assert more[..j] == moves[..j] && !Drained(moves, j);
      }
    }
  }

  /** A move that does not drain leaves every cause a cause. */
  lemma CausesStay(moves: seq<Move>, m: Move)
    requires !Drained(moves + [m], |moves|)
    ensures forall n, k, a :: GroupCause(moves, n, k, a) ==> GroupCause(moves + [m], n, k, a)
    ensures forall n, k, a :: UserCause(moves, n, k, a) ==> UserCause(moves + [m], n, k, a)
  {
    forall n, k, a | GroupCause(moves, n, k, a)
      ensures GroupCause(moves + [m], n, k, a)
    {
      StillCurrent(moves, m, n);
    }
    forall n, k, a | UserCause(moves, n, k, a)
      ensures UserCause(moves + [m], n, k, a)
    {
      StillCurrent(moves, m, n);
    }
  }

  lemma SlotsStay(moves: seq<Move>, m: Move)
    ensures forall n, slot, a :: SlotCause(moves, n, slot, a) ==> SlotCause(moves + [m], n, slot, a)
  {
  }

  /** The last move is a cause of what it gives. */
  lemma LastCauses(moves: seq<Move>, m: Move)
    ensures forall k, a :: GivesGroup(m, k, a) ==> GroupCause(moves + [m], |moves|, k, a)
    ensures forall k, a :: GivesUser(m, k, a) ==> UserCause(moves + [m], |moves|, k, a)
    ensures forall slot, a :: GivesSlot(m, slot, a) ==> SlotCause(moves + [m], |moves|, slot, a)
  {
  }

  lemma LockedCaused(moves: seq<Move>, s: State)
    ensures Caused(moves, GlobalLocked(s))
  {
  }

  lemma AddCaused(moves: seq<Move>, s: State, h: Hint)
    requires Caused(moves, s)
    ensures Caused(moves + [AddHint(h)], Add(s, h))
  {
    var more := moves + [AddHint(h)];
    CausesStay(moves, AddHint(h));
    SlotsStay(moves, AddHint(h));
    LastCauses(moves, AddHint(h));
    StaysCaused(moves, AddHint(h), s);
    LockedCaused(more, s);
    if !s.closed && !h.globalRepair && !s.dirty.global && (h.userKey != "" || h.groupKey != "") {
      var d := AddKeyed(s.dirty, h);
      forall k, a | k in d.groups && GroupHas(d.groups[k], a)
        ensures exists n :: GroupCause(more, n, k, a)
      {
        assert GivesGroup(AddHint(h), k, a) || (k in s.dirty.groups && GroupHas(s.dirty.groups[k], a));
      }
      forall k, a | k in d.users && UserHas(d.users[k], a)
        ensures exists n :: UserCause(more, n, k, a)
      {
        assert GivesUser(AddHint(h), k, a) || (k in s.dirty.users && UserHas(s.dirty.users[k], a));
      }
    }
  }

  /** A move that changes neither pending nor delayed work. */
  lemma StaysCaused(moves: seq<Move>, m: Move, s: State)
    requires Caused(moves, s) && !Drained(moves + [m], |moves|)
    ensures Caused(moves + [m], s)
  {
    CausesStay(moves, m);
    SlotsStay(moves, m);
    forall k, a | k in s.dirty.groups && GroupHas(s.dirty.groups[k], a)
      ensures exists n :: GroupCause(moves + [m], n, k, a)
    {
      var n :| GroupCause(moves, n, k, a);
      assert GroupCause(moves + [m], n, k, a);
    }
    forall k, a | k in s.dirty.users && UserHas(s.dirty.users[k], a)
      ensures exists n :: UserCause(moves + [m], n, k, a)
    {
      var n :| UserCause(moves, n, k, a);
      assert UserCause(moves + [m], n, k, a);
    }
    forall slot, a | slot in s.delayed && GroupHas(s.delayed[slot].work, a)
      ensures exists n :: SlotCause(moves + [m], n, slot, a)
    {
      var n :| SlotCause(moves, n, slot, a);
      assert SlotCause(moves + [m], n, slot, a);
    }
  }

  lemma ScheduleCaused(moves: seq<Move>, s: State, slot: Slot, work: Work, delay: int)
    requires Caused(moves, s)
    ensures Caused(moves + [ScheduleWork(slot, work, delay)], Schedule(s, slot, work, delay))
  {
    var m := ScheduleWork(slot, work, delay);
    StaysCaused(moves, m, s);
    LastCauses(moves, m);
    LockedCaused(moves + [m], s);
    if !s.closed && (slot in s.delayed || Size(s) < MAX_DIRTY) {
      DelayCaused(moves + [m], |moves|, s, slot, work, s.clock.now + delay);
    }
  }

  lemma DelayCaused(more: seq<Move>, last: nat, s: State, slot: Slot, work: Work, due: int)
    requires Caused(more, s) && last < |more| && more[last].ScheduleWork?
    requires more[last].slot == slot && more[last].work == work
    ensures var delayed := Delay(s.delayed, slot, work, due);
      forall x, a :: x in delayed && GroupHas(delayed[x].work, a) ==> exists n :: SlotCause(more, n, x, a)
  {
    var delayed := Delay(s.delayed, slot, work, due);
    forall x, a | x in delayed && GroupHas(delayed[x].work, a)
      ensures exists n :: SlotCause(more, n, x, a)
    {
      if !(x in s.delayed && GroupHas(s.delayed[x].work, a)) {
        assert SlotCause(more, last, x, a);
      }
    }
  }

  lemma ReleaseCaused(moves: seq<Move>, s: State)
    requires Caused(moves, s) && s.clock.callbacks > 0
    ensures Caused(moves + [Callback], Release(s))
  {
    var more := moves + [Callback];
    StaysCaused(moves, Callback, s);
    LockedCaused(more, State(s.dirty, s.delayed, Ran(s.clock), s.closed, s.wake, s.received));
    if !s.closed && !GlobalDue(s.delayed, s.clock.now) && !s.dirty.global {
      var merged := Merged(s.dirty.groups, s.delayed, s.clock.now, s.delayed.Keys);
      forall k, a | k in merged && GroupHas(merged[k], a)
        ensures exists n :: GroupCause(more, n, k, a)
      {
        if !(k in s.dirty.groups && GroupHas(s.dirty.groups[k], a)) {
          var slot :| slot in s.delayed && slot.route == k && GroupHas(s.delayed[slot].work, a);
          var n :| SlotCause(more, n, slot, a);
          assert GroupCause(more, n, k, a);
        }
      }
    }
  }

  lemma StepCaused(moves: seq<Move>, m: Move)
    requires Caused(moves, Run(EMPTY_QUEUE, moves))
    ensures Caused(moves + [m], Run(EMPTY_QUEUE, moves + [m]))
  {
    var s := Run(EMPTY_QUEUE, moves);
    assert (moves + [m])[..|moves|] == moves && (moves + [m])[|moves|] == m;
    if m.AddHint? {
      AddCaused(moves, s, m.h);
    } else if m.ScheduleWork? {
      ScheduleCaused(moves, s, m.slot, m.work, m.delay);
    } else if m.Callback? && s.clock.callbacks > 0 {
      ReleaseCaused(moves, s);
    } else if m.DrainBatch? && s.received {
      SlotsStay(moves, m);
      DrainCaused(moves, s);
    } else {
      StaysCaused(moves, m, s);
    }
  }

  lemma DrainCaused(moves: seq<Move>, s: State)
    requires Caused(moves, s)
    ensures Caused(moves + [DrainBatch], Drain(s))
  {
    forall slot, a | slot in s.delayed && GroupHas(s.delayed[slot].work, a)
      ensures exists n :: SlotCause(moves + [DrainBatch], n, slot, a)
    {
      var n :| SlotCause(moves, n, slot, a);
      assert SlotCause(moves + [DrainBatch], n, slot, a);
    }
  }

  /** At every moment, all that the queue holds was asked for by a hint since the last drain or by delayed work. */
  lemma {:induction false} AllCaused(moves: seq<Move>)
    ensures Caused(moves, Run(EMPTY_QUEUE, moves))
    decreases |moves|
  {
    if moves != [] {
      var init, last := moves[..|moves| - 1], moves[|moves| - 1];
      AllCaused(init);
      StepCaused(init, last);
      assert init + [last] == moves;
    }
  }

  /**
   No key of a batch and no flag of a key without a cause: a hint for that key that
   asks for it and came since the last drain, or delayed work for that group.
  */
  lemma NothingInvented(moves: seq<Move>, k: Key, a: Aspect)
    ensures var b := BatchOf(Run(EMPTY_QUEUE, moves));
      && (k in b.groups && GroupHas(b.groups[k], a) ==> exists n :: GroupCause(moves, n, k, a))
      && (k in b.users && UserHas(b.users[k], a) ==> exists n :: UserCause(moves, n, k, a))
  {
    AllCaused(moves);
  }
}

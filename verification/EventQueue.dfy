/**
 The event queue as it runs: maps updated in place, one held timer, a one-slot
 wake-up channel. Every method is one step of the interleaving model.
*/
module EventQueue {
  import opened Wrappers
  import opened Queue

  /** The timers of the runtime: a stopped or fired timer is no longer armed. */
  class Runtime {
    var timers: map<nat, int>
    var next: nat
    var callbacks: nat
    var now: int

    constructor ()
      ensures timers == map[] && next == 0 && callbacks == 0 && now == 0
    {
      timers, next, callbacks, now := map[], 0, 0, 0;
    }

    method AfterFunc(at: int) returns (id: nat)
      modifies this`timers, this`next
      ensures id == old(next) && next == old(next) + 1 && timers == old(timers)[id := at]
    {
      id := next;
      next := next + 1;
      timers := timers[id := at];
    }

    method Stop(id: nat)
      modifies this`timers
      ensures timers == old(timers) - {id}
    {
      timers := timers - {id};
    }

    method Reset(id: nat, at: int)
      modifies this`timers
      ensures timers == old(timers)[id := at]
    {
      timers := timers[id := at];
    }

    /** A due timer fires: its callback will run some time later. */
    method Fire(id: nat)
      modifies this`timers, this`callbacks
      ensures if id in old(timers) && old(timers)[id] <= now
        then timers == old(timers) - {id} && callbacks == old(callbacks) + 1
        else timers == old(timers) && callbacks == old(callbacks)
    {
      if id in timers && timers[id] <= now {
        timers := timers - {id};
        callbacks := callbacks + 1;
      }
    }
  }

  class EventQueue {
    const rt: Runtime
    var groups: map<Key, Work>
    var users: map<Key, UserWork>
    var global: bool
    var wake: bool
    var delayed: map<Slot, Delayed>
    var timer: Option<nat>
    var closed: bool
    ghost var received: bool

    ghost function Clock(): Clock
      reads this, rt
    {
      Queue.Clock(rt.timers, timer, rt.next, rt.callbacks, rt.now)
    }

    ghost function State(): State
      reads this, rt
    {
      Queue.State(Dirty(groups, users, global), delayed, Clock(), closed, wake, received)
    }

    constructor (rt: Runtime)
      requires rt.timers == map[] && rt.next == 0 && rt.callbacks == 0 && rt.now == 0
      ensures this.rt == rt && State() == EMPTY_QUEUE
    {
      this.rt := rt;
      groups, users, global, wake := map[], map[], false, false;
      delayed, timer, closed, received := map[], None, false, false;
    }

    method StopTimerLocked()
      modifies this`timer, rt`timers
      ensures Clock() == StopTimer(old(Clock()))
    {
      if timer.Some? {
        rt.Stop(timer.value);
        timer := None;
      }
    }

    /** A full channel already holds the token. */
    method SignalLocked()
      modifies this`wake
      ensures wake
    {
      if !wake {
        wake := true;
      }
    }

    method GlobalLockedNow()
      modifies this, rt`timers
      ensures State() == GlobalLocked(old(State()))
    {
      groups := map[];
      users := map[];
      delayed := map[];
      global := true;
      StopTimerLocked();
      SignalLocked();
    }

    method ResetTimerLocked()
      modifies this`timer, rt`timers, rt`next
      ensures Clock() == ResetTimer(old(Clock()), delayed)
    {
      if delayed == map[] {
        StopTimerLocked();
        return;
      }
      var first :| first in delayed;
      var earliest := delayed[first].due;
      var left := delayed.Keys - {first};
      while left != {}
        invariant left <= delayed.Keys
        invariant exists k <- delayed :: delayed[k].due == earliest
        invariant forall k <- delayed :: k !in left ==> earliest <= delayed[k].due
        decreases left
      {
        var k :| k in left;
        if delayed[k].due < earliest {
          earliest := delayed[k].due;
        }
        left := left - {k};
      }
      assert Earliest(delayed, earliest);
      EarliestUnique(delayed, earliest, EarliestDue(delayed));
      var at := Max(earliest, rt.now);
      if timer.None? {
        var id := rt.AfterFunc(at);
        timer := Some(id);
        return;
      }
      rt.Stop(timer.value);
      rt.Reset(timer.value, at);
      assert old(rt.timers)[timer.value := at] == (old(rt.timers) - {timer.value})[timer.value := at];
    }

    method Add(h: Hint)
      modifies this, rt`timers
      ensures State() == Queue.Add(old(State()), h)
    {
      if closed {
        return;
      }
      if h.globalRepair {
        GlobalLockedNow();
        return;
      }
      if global {
        return;
      }
      if h.userKey != "" {
        var work := UserWorkOf(h);
        if h.userKey in users {
          users := users[h.userKey := users[h.userKey].Merge(work)];
        } else {
          users := users[h.userKey := work];
        }
      } else if h.groupKey != "" {
        var work := WorkOf(h);
        if h.groupKey in groups {
          groups := groups[h.groupKey := groups[h.groupKey].Merge(work)];
        } else {
          groups := groups[h.groupKey := work];
        }
      } else {
        GlobalLockedNow();
        return;
      }
      if |groups| + |users| + |delayed| > MAX_DIRTY {
        GlobalLockedNow();
        return;
      }
      SignalLocked();
    }

    method AddGlobalAfter(delay: int)
      modifies this, rt
      ensures State() == Schedule(old(State()), Slot(GLOBAL, ""), NO_WORK, delay)
    {
      ScheduleGroup("", NO_WORK, delay, GLOBAL);
    }

    method ScheduleGroup(routeKey: Key, work: Work, delay: int, reason: string)
      modifies this, rt
      ensures State() == Schedule(old(State()), Slot(reason, routeKey), work, delay)
    {
      if closed {
        return;
      }
      var key := Slot(reason, routeKey);
      var due := rt.now + delay;
      if key in delayed {
        var current := delayed[key];
        current := current.(due := due);
        current := current.(work := current.work.Merge(work));
        delayed := delayed[key := current];
      } else {
        if |groups| + |users| + |delayed| >= MAX_DIRTY {
          GlobalLockedNow();
          return;
        }
        delayed := delayed[key := Delayed(work, due)];
      }
      ResetTimerLocked();
    }

    /** The consumer takes the token, if there is one. */
    method Receive()
      requires !received
      modifies this`wake, this`received
      ensures State() == Step(old(State()), Move.Receive)
    {
      if wake {
        wake := false;
        received := true;
      }
    }

    method Drain() returns (batch: Batch)
      modifies this`groups, this`users, this`global, this`received
      ensures State() == Queue.Drain(old(State())) && batch == BatchOf(old(State()))
    {
      batch := Batch(groups, users, global);
      groups := map[];
      users := map[];
      global := false;
      received := false;
    }

    method Close()
      modifies this`closed, this`timer, rt`timers
      ensures State() == Queue.Close(old(State()))
    {
      if closed {
        return;
      }
      closed := true;
      StopTimerLocked();
    }

    /** Takes one visited slot out if it is due, merging its work unless a full repair is pending anyway. */
    method ReleaseOne(k: Slot, ghost start: map<Key, Work>, ghost slots: map<Slot, Delayed>, ghost done: set<Slot>)
      requires k in delayed && k in slots && delayed[k] == slots[k] && k.reason != GLOBAL
      requires groups == if global then start else Merged(start, slots, rt.now, done)
      modifies this`groups, this`delayed
      ensures groups == if global then start else Merged(start, slots, rt.now, done + {k})
      ensures delayed == if IsDue(slots, rt.now, k) then old(delayed) - {k} else old(delayed)
    {
      var d := delayed[k];
      if d.due <= rt.now {
        delayed := delayed - {k};
        if !global {
          MergeOne(start, slots, rt.now, done, k);
          groups := groups[k.route := (if k.route in groups then groups[k.route] else NO_WORK).Merge(d.work)];
        }
      } else {
        MergeSkip(start, slots, rt.now, done, k);
      }
    }

    /** Visits the delayed work in some order, up to the first due request for a full repair. */
    method ReleaseWalk() returns (repair: bool)
      modifies this`groups, this`delayed
      ensures repair == GlobalDue(old(delayed), rt.now)
      ensures !repair ==> delayed == NotDue(old(delayed), rt.now)
      ensures !repair ==> groups == if global then old(groups)
        else Merged(old(groups), old(delayed), rt.now, old(delayed).Keys)
    {
      ghost var start, slots := groups, delayed;
      var left := delayed.Keys;
      NoneDone(start, slots, rt.now);
      while left != {}
        invariant left <= slots.Keys
        invariant groups == if global then start else Merged(start, slots, rt.now, slots.Keys - left)
        invariant forall k <- slots :: k in left || !(IsDue(slots, rt.now, k) && k.reason == GLOBAL)
        invariant forall k <- delayed :: k in slots && delayed[k] == slots[k]
        invariant forall k <- slots :: k in delayed <==> k in left || !IsDue(slots, rt.now, k)
        decreases left
      {
        var k :| k in left;
        ghost var done := slots.Keys - left;
        assert slots.Keys - (left - {k}) == done + {k};
        if delayed[k].due <= rt.now && k.reason == GLOBAL {
          return true;
        }
        if k.reason == GLOBAL {
          MergeSkip(start, slots, rt.now, done, k);
        } else {
          ReleaseOne(k, start, slots, done);
        }
        left := left - {k};
      }
      assert slots.Keys - left == slots.Keys;
      assert delayed == NotDue(slots, rt.now);
      return false;
    }

    /** The callback. Whatever order the delayed work is visited in, the outcome is the same. */
    method ReleaseDue()
      requires rt.callbacks > 0
      modifies this, rt
      ensures State() == Release(old(State()))
    {
      rt.callbacks := rt.callbacks - 1;
      if closed {
        return;
      }
      var repair := ReleaseWalk();
      if repair {
        GlobalLockedNow();
        return;
      }
      timer := None;
      ResetTimerLocked();
      SignalLocked();
    }
  }

  /** Before the walk nothing is merged. */
  lemma NoneDone(groups: map<Key, Work>, delayed: map<Slot, Delayed>, now: int)
    ensures Merged(groups, delayed, now, delayed.Keys - delayed.Keys) == groups
  {
  }

  lemma EarliestUnique(delayed: map<Slot, Delayed>, a: int, b: int)
    requires Earliest(delayed, a) && Earliest(delayed, b)
    ensures a == b
  {
  }
}

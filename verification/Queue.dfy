/**
 The event queue (`eventQueue`): bounded, coalescing, with delayed work and a
 wake-up token, under every interleaving of producers, timers and the consumer.
*/
module Queue {
  import opened Wrappers
  import opened Sizes

  type Key = string

  const MAX_DIRTY := 10000

  datatype Work = Work(allProviders: bool, confirmRemoval: bool)
  {
    function Merge(other: Work): Work {
      Work(allProviders || other.allProviders, confirmRemoval || other.confirmRemoval)
    }

    predicate Covers(other: Work) {
      (other.allProviders ==> allProviders) && (other.confirmRemoval ==> confirmRemoval)
    }
  }

  const NO_WORK := Work(false, false)

  datatype UserWork = UserWork(jitRetry: bool, confirmMembership: bool)
  {
    function Merge(other: UserWork): UserWork {
      UserWork(jitRetry || other.jitRetry, confirmMembership || other.confirmMembership)
    }

    predicate Covers(other: UserWork) {
      (other.jitRetry ==> jitRetry) && (other.confirmMembership ==> confirmMembership)
    }
  }

  datatype Hint = Hint(resourceType: string, operationType: string, groupKey: Key, userKey: Key, globalRepair: bool)

  datatype Slot = Slot(reason: string, route: Key)
  datatype Delayed = Delayed(work: Work, due: int)

  const GLOBAL := "global"

  function UserWorkOf(h: Hint): UserWork {
    UserWork(h.operationType == "LOGIN", h.operationType == "UPDATE" || h.operationType == "DELETE")
  }

  function WorkOf(h: Hint): Work {
    Work(h.resourceType == "GROUP", h.resourceType != "GROUP" && h.operationType == "DELETE")
  }

  /** Undelayed work, by routing key. */
  datatype Dirty = Dirty(groups: map<Key, Work>, users: map<Key, UserWork>, global: bool)

  const CLEAN := Dirty(map[], map[], false)

  /**
   The runtime's timers: the armed ones with the time they fire, the one the
   queue holds on to, how many fired ones have not run their callback, the time.
  */
  datatype Clock = Clock(timers: map<nat, int>, current: Option<nat>, next: nat, callbacks: nat, now: int)

  /** `received`: the consumer took the wake-up token and has not drained yet. */
  datatype State = State(dirty: Dirty, delayed: map<Slot, Delayed>, clock: Clock, closed: bool, wake: bool,
    received: bool)

  function Count(d: Dirty): nat {
    |d.groups| + |d.users|
  }

  function Size(s: State): nat {
    Count(s.dirty) + |s.delayed|
  }

  /** The earliest due time of the delayed work. */
  ghost predicate Earliest(delayed: map<Slot, Delayed>, due: int) {
    && (exists k <- delayed :: delayed[k].due == due)
    && (forall k <- delayed :: due <= delayed[k].due)
  }

  ghost function EarliestDue(delayed: map<Slot, Delayed>): (due: int)
    requires delayed != map[]
    ensures Earliest(delayed, due)
  {
    EarliestExists(delayed.Keys, delayed);
    var k :| k in delayed.Keys && Soonest(delayed.Keys, delayed, k);
    delayed[k].due
  }

  lemma {:induction false} EarliestExists(keys: set<Slot>, delayed: map<Slot, Delayed>)
    requires keys <= delayed.Keys && keys != {}
    ensures exists k <- keys :: Soonest(keys, delayed, k)
  {
    var k :| k in keys;
    if keys == {k} {
      assert Soonest(keys, delayed, k);
    } else {
      assert keys - {k} != {};
      EarliestExists(keys - {k}, delayed);
      var m :| m in keys - {k} && Soonest(keys - {k}, delayed, m);
      var best := if delayed[k].due <= delayed[m].due then k else m;
      assert forall l <- keys :: l == k || l in keys - {k};
      assert Soonest(keys, delayed, best);
    }
  }

  /** No slot among the keys is due before this one. */
  ghost predicate Soonest(keys: set<Slot>, delayed: map<Slot, Delayed>, k: Slot)
    requires keys <= delayed.Keys
  {
    k in keys && forall l <- keys :: delayed[k].due <= delayed[l].due
  }

  function Max(a: int, b: int): int {
    if a >= b then a else b
  }

  function StopTimer(c: Clock): Clock {
    if c.current.None? then c else Clock(c.timers - {c.current.value}, None, c.next, c.callbacks, c.now)
  }

  /** Arms the held timer, or a new one, for the earliest due time or now. */
  ghost function ResetTimer(c: Clock, delayed: map<Slot, Delayed>): Clock {
    if delayed == map[] then StopTimer(c)
    else
      var at := Max(EarliestDue(delayed), c.now);
      if c.current.None? then Clock(c.timers[c.next := at], Some(c.next), c.next + 1, c.callbacks, c.now)
      else Clock(c.timers[c.current.value := at], c.current, c.next, c.callbacks, c.now)
  }

  /** Everything gives way to one full repair. */
  function GlobalLocked(s: State): State {
    State(Dirty(map[], map[], true), map[], StopTimer(s.clock), s.closed, true, s.received)
  }

  function AddUser(d: Dirty, k: Key, work: UserWork): Dirty {
    Dirty(d.groups, d.users[k := if k in d.users then d.users[k].Merge(work) else work], d.global)
  }

  function AddGroup(d: Dirty, k: Key, work: Work): Dirty {
    Dirty(d.groups[k := if k in d.groups then d.groups[k].Merge(work) else work], d.users, d.global)
  }

  function AddKeyed(d: Dirty, h: Hint): Dirty {
    if h.userKey != "" then AddUser(d, h.userKey, UserWorkOf(h)) else AddGroup(d, h.groupKey, WorkOf(h))
  }

  function Add(s: State, h: Hint): State {
    if s.closed then s
    else if h.globalRepair then GlobalLocked(s)
    else if s.dirty.global then s
    else if h.userKey == "" && h.groupKey == "" then GlobalLocked(s)
    else
      var d := AddKeyed(s.dirty, h);
      if Count(d) + |s.delayed| > MAX_DIRTY then GlobalLocked(s)
      else State(d, s.delayed, s.clock, s.closed, true, s.received)
  }

  function Delay(delayed: map<Slot, Delayed>, slot: Slot, work: Work, due: int): map<Slot, Delayed> {
    delayed[slot := Delayed(if slot in delayed then delayed[slot].work.Merge(work) else work, due)]
  }

  ghost function Schedule(s: State, slot: Slot, work: Work, delay: int): State {
    if s.closed then s
    else if slot !in s.delayed && Size(s) >= MAX_DIRTY then GlobalLocked(s)
    else
      var delayed := Delay(s.delayed, slot, work, s.clock.now + delay);
      State(s.dirty, delayed, ResetTimer(s.clock, delayed), s.closed, s.wake, s.received)
  }

  function Drain(s: State): State {
    State(CLEAN, s.delayed, s.clock, s.closed, s.wake, false)
  }

  function Close(s: State): State {
    if s.closed then s else State(s.dirty, s.delayed, StopTimer(s.clock), true, s.wake, s.received)
  }

  // ----- the timer callback, in closed form -----

  predicate IsDue(delayed: map<Slot, Delayed>, now: int, k: Slot) {
    k in delayed && delayed[k].due <= now
  }

  ghost predicate AllDue(delayed: map<Slot, Delayed>, now: int, done: set<Slot>, route: Key) {
    exists k <- done :: IsDue(delayed, now, k) && k.route == route && delayed[k].work.allProviders
  }

  ghost predicate ConfirmDue(delayed: map<Slot, Delayed>, now: int, done: set<Slot>, route: Key) {
    exists k <- done :: IsDue(delayed, now, k) && k.route == route && delayed[k].work.confirmRemoval
  }

  ghost function Routes(delayed: map<Slot, Delayed>, now: int, done: set<Slot>): set<Key> {
    set k | k in done && IsDue(delayed, now, k) :: k.route
  }

  /** The groups once the due slots among `done` are merged in: the same in every order. */
  ghost function Merged(
      groups: map<Key, Work>, delayed: map<Slot, Delayed>, now: int, done: set<Slot>): map<Key, Work>
  {
    map r | r in groups.Keys + Routes(delayed, now, done) ::
      Work((r in groups && groups[r].allProviders) || AllDue(delayed, now, done, r),
           (r in groups && groups[r].confirmRemoval) || ConfirmDue(delayed, now, done, r))
  }

  lemma MergeOne(groups: map<Key, Work>, delayed: map<Slot, Delayed>, now: int, done: set<Slot>, k: Slot)
    requires IsDue(delayed, now, k)
    ensures var before := Merged(groups, delayed, now, done);
      Merged(groups, delayed, now, done + {k})
        == before[k.route := (if k.route in before then before[k.route] else NO_WORK).Merge(delayed[k].work)]
  {
    assert Routes(delayed, now, done + {k}) == Routes(delayed, now, done) + {k.route};
    forall r
      ensures AllDue(delayed, now, done + {k}, r) <==>
        AllDue(delayed, now, done, r) || (r == k.route && delayed[k].work.allProviders)
      ensures ConfirmDue(delayed, now, done + {k}, r) <==>
        ConfirmDue(delayed, now, done, r) || (r == k.route && delayed[k].work.confirmRemoval)
    {
      if AllDue(delayed, now, done, r) {
        var x :| x in done && IsDue(delayed, now, x) && x.route == r && delayed[x].work.allProviders;
        assert x in done + {k};
      }
      if ConfirmDue(delayed, now, done, r) {
        var x :| x in done && IsDue(delayed, now, x) && x.route == r && delayed[x].work.confirmRemoval;
        assert x in done + {k};
      }
      assert k in done + {k};
    }
  }

  lemma MergeSkip(groups: map<Key, Work>, delayed: map<Slot, Delayed>, now: int, done: set<Slot>, k: Slot)
    requires !IsDue(delayed, now, k)
    ensures Merged(groups, delayed, now, done + {k}) == Merged(groups, delayed, now, done)
  {
    assert Routes(delayed, now, done + {k}) == Routes(delayed, now, done);
    forall r
      ensures AllDue(delayed, now, done + {k}, r) <==> AllDue(delayed, now, done, r)
      ensures ConfirmDue(delayed, now, done + {k}, r) <==> ConfirmDue(delayed, now, done, r)
    {
      if AllDue(delayed, now, done, r) {
        var x :| x in done && IsDue(delayed, now, x) && x.route == r && delayed[x].work.allProviders;
        assert x in done + {k};
      }
      if ConfirmDue(delayed, now, done, r) {
        var x :| x in done && IsDue(delayed, now, x) && x.route == r && delayed[x].work.confirmRemoval;
        assert x in done + {k};
      }
    }
  }

  ghost function NotDue(delayed: map<Slot, Delayed>, now: int): map<Slot, Delayed> {
    map k | k in delayed && !IsDue(delayed, now, k) :: delayed[k]
  }

  ghost predicate GlobalDue(delayed: map<Slot, Delayed>, now: int) {
    exists k <- delayed :: IsDue(delayed, now, k) && k.reason == GLOBAL
  }

  function Ran(c: Clock): Clock
    requires c.callbacks > 0
  {
    Clock(c.timers, c.current, c.next, c.callbacks - 1, c.now)
  }

  /** The queue lets go of its timer, whichever one it held. */
  function Forget(c: Clock): Clock {
    Clock(c.timers, None, c.next, c.callbacks, c.now)
  }

  ghost function ReleasedDirty(s: State): Dirty {
    if s.dirty.global then s.dirty
    else Dirty(Merged(s.dirty.groups, s.delayed, s.clock.now, s.delayed.Keys), s.dirty.users, false)
  }

  /** One run of the callback. */
  ghost function Release(s: State): State
    requires s.clock.callbacks > 0
  {
    var c := Ran(s.clock);
    if s.closed then State(s.dirty, s.delayed, c, s.closed, s.wake, s.received)
    else if GlobalDue(s.delayed, s.clock.now) then
      GlobalLocked(State(s.dirty, s.delayed, c, s.closed, s.wake, s.received))
    else
      var delayed := NotDue(s.delayed, s.clock.now);
      State(ReleasedDirty(s), delayed, ResetTimer(Forget(c), delayed), s.closed, true, s.received)
  }

  // ----- all interleavings -----

  datatype Move =
    | AddHint(h: Hint) | ScheduleWork(slot: Slot, work: Work, delay: int)
    | Fire(id: nat) | Callback
    | Receive | Absorb | DrainBatch
    | CloseQueue | Wait(span: nat)

  function FireTimer(c: Clock, id: nat): Clock {
    if id in c.timers && c.timers[id] <= c.now then Clock(c.timers - {id}, c.current, c.next, c.callbacks + 1, c.now)
      else c
  }

  ghost function Step(s: State, m: Move): State {
    match m
    case AddHint(h) => Add(s, h)
    case ScheduleWork(slot, work, delay) => Schedule(s, slot, work, delay)
    case Fire(id) => s.(clock := FireTimer(s.clock, id))
    case Callback => if s.clock.callbacks > 0 then Release(s) else s
    case Receive => if s.wake && !s.received then s.(wake := false, received := true) else s
    case Absorb => if s.wake && s.received then s.(wake := false) else s
    case DrainBatch => if s.received then Drain(s) else s
    case CloseQueue => Close(s)
    case Wait(span) => s.(clock := s.clock.(now := s.clock.now + span))
  }

  ghost function Run(s: State, moves: seq<Move>): State
    decreases |moves|
  {
    if moves == [] then s else Step(Run(s, moves[..|moves| - 1]), moves[|moves| - 1])
  }

  const EMPTY_QUEUE := State(CLEAN, map[], Clock(map[], None, 0, 0, 0), false, false, false)

  ghost predicate Pending(d: Dirty) {
    d.groups != map[] || d.users != map[] || d.global
  }

  /** A callback is due to run, or some timer fires no later than the earliest work is due, or now. */
  ghost predicate Armed(c: Clock, delayed: map<Slot, Delayed>) {
    delayed != map[] ==>
      c.callbacks > 0 || exists id <- c.timers :: c.timers[id] <= Max(EarliestDue(delayed), c.now)
  }

  ghost predicate Numbered(c: Clock) {
    && (forall id <- c.timers :: id < c.next)
    && (c.current.Some? ==> c.current.value < c.next)
  }

  ghost predicate Inv(s: State) {
    && Size(s) <= MAX_DIRTY
    && (s.dirty.global ==> s.dirty.groups == map[] && s.dirty.users == map[])
    && (Pending(s.dirty) ==> s.wake || s.received)
    && (!s.closed ==> Armed(s.clock, s.delayed))
    && Numbered(s.clock)
  }

  lemma ResetArms(c: Clock, delayed: map<Slot, Delayed>)
    requires Numbered(c)
    ensures Armed(ResetTimer(c, delayed), delayed) && Numbered(ResetTimer(c, delayed))
  {
    if delayed != map[] {
      var t := ResetTimer(c, delayed);
      var id := t.current.value;
      assert id in t.timers && t.timers[id] <= Max(EarliestDue(delayed), t.now);
    }
  }

  /** Renaming slots to routes never makes a set larger. */
  lemma {:induction false} RoutesFewer(delayed: map<Slot, Delayed>, now: int, done: set<Slot>)
    ensures |Routes(delayed, now, done)| <= |set k | k in done && IsDue(delayed, now, k)|
  {
    if done != {} {
      var k :| k in done;
      RoutesFewer(delayed, now, done - {k});
      var due, rest := set x | x in done && IsDue(delayed, now, x), set x | x in done - {k} && IsDue(delayed, now, x);
      if IsDue(delayed, now, k) {
        assert due == rest + {k};
        assert Routes(delayed, now, done) == Routes(delayed, now, done - {k}) + {k.route};
      } else {
        assert due == rest;
        assert Routes(delayed, now, done) == Routes(delayed, now, done - {k});
      }
    }
  }

  lemma MergedSize(groups: map<Key, Work>, delayed: map<Slot, Delayed>, now: int, done: set<Slot>)
    ensures |Merged(groups, delayed, now, done)| <= |groups| + |Routes(delayed, now, done)|
  {
    UnionBound(groups.Keys, Routes(delayed, now, done));
    MapSize(groups);
    MapSize(Merged(groups, delayed, now, done));
    assert Merged(groups, delayed, now, done).Keys == groups.Keys + Routes(delayed, now, done);
  }

  lemma NotDueSize(delayed: map<Slot, Delayed>, now: int)
    ensures |NotDue(delayed, now)| + |set k | k in delayed.Keys && IsDue(delayed, now, k)| == |delayed|
  {
    var due := set k | k in delayed.Keys && IsDue(delayed, now, k);
    var kept := NotDue(delayed, now).Keys;
    MapSize(delayed);
    MapSize(NotDue(delayed, now));
    assert delayed.Keys == due + kept && due !! kept;
  }

  lemma ReleaseSize(groups: map<Key, Work>, delayed: map<Slot, Delayed>, now: int)
    ensures |Merged(groups, delayed, now, delayed.Keys)| + |NotDue(delayed, now)| <= |groups| + |delayed|
    ensures |NotDue(delayed, now)| <= |delayed|
  {
    RoutesFewer(delayed, now, delayed.Keys);
    MergedSize(groups, delayed, now, delayed.Keys);
    NotDueSize(delayed, now);
  }

  /** What the callback leaves, as far as bound and flags go. */
  lemma ReleaseBound(s: State)
    requires Inv(s)
    ensures Count(ReleasedDirty(s)) + |NotDue(s.delayed, s.clock.now)| <= MAX_DIRTY
    ensures ReleasedDirty(s).global == s.dirty.global
    ensures s.dirty.global ==> ReleasedDirty(s) == s.dirty
  {
    ReleaseSize(s.dirty.groups, s.delayed, s.clock.now);
  }

  lemma ReleaseKeeps(s: State)
    requires Inv(s) && s.clock.callbacks > 0
    ensures Inv(Release(s))
  {
    ReleaseBound(s);
    var delayed := NotDue(s.delayed, s.clock.now);
    ResetArms(Forget(Ran(s.clock)), delayed);
    var dirty := ReleasedDirty(s);
    assert Inv(State(dirty, delayed, ResetTimer(Forget(Ran(s.clock)), delayed), false, true, s.received));
  }

  lemma ScheduleKeeps(s: State, slot: Slot, work: Work, delay: int)
    requires Inv(s)
    ensures Inv(Schedule(s, slot, work, delay))
  {
    if slot !in s.delayed && Size(s) >= MAX_DIRTY {
      LockKeeps(s);
    } else {
      var delayed := Delay(s.delayed, slot, work, s.clock.now + delay);
      SizeAfterInsert(s.delayed, slot, delayed[slot]);
      ResetArms(s.clock, delayed);
      assert s.closed || Inv(State(s.dirty, delayed, ResetTimer(s.clock, delayed), s.closed, s.wake, s.received));
    }
  }

  lemma LockKeeps(s: State)
    requires Inv(s)
    ensures Inv(GlobalLocked(s))
  {
  }

  lemma AddKeeps(s: State, h: Hint)
    requires Inv(s)
    ensures Inv(Add(s, h))
  {
  }

  /** A timer firing or time passing. */
  lemma TimeKeeps(s: State, c: Clock)
    requires Inv(s) && Numbered(c) && c.now >= s.clock.now && c.callbacks >= s.clock.callbacks
    requires c.callbacks > 0 || c.timers == s.clock.timers
    ensures Inv(s.(clock := c))
  {
  }

  lemma OtherKeeps(s: State, m: Move)
    requires Inv(s) && (m.Receive? || m.Absorb? || m.DrainBatch? || m.CloseQueue?)
    ensures Inv(Step(s, m))
  {
  }

  /** Every step of every participant keeps the bound, the token and the timer. */
  lemma StepKeeps(s: State, m: Move)
    requires Inv(s)
    ensures Inv(Step(s, m))
  {
    match m
    case AddHint(h) => AddKeeps(s, h);
    case ScheduleWork(slot, work, delay) => ScheduleKeeps(s, slot, work, delay);
    case Callback =>
      if s.clock.callbacks > 0 {
        ReleaseKeeps(s);
      }
    case Fire(id) => TimeKeeps(s, FireTimer(s.clock, id));
    case Wait(span) => TimeKeeps(s, s.clock.(now := s.clock.now + span));
    case _ => OtherKeeps(s, m);
  }

  /** Bounded, with no lost wake-up and no lost timer, whatever the interleaving. */
  lemma {:induction false} RunKeeps(s: State, moves: seq<Move>)
    requires Inv(s)
    ensures Inv(Run(s, moves))
    decreases |moves|
  {
    if moves != [] {
      RunKeeps(s, moves[..|moves| - 1]);
      StepKeeps(Run(s, moves[..|moves| - 1]), moves[|moves| - 1]);
    }
  }

  // ----- nothing accepted is lost -----

  datatype Owed =
    | GroupOwed(key: Key, work: Work)
    | UserOwed(user: Key, userWork: UserWork)
    | SlotOwed(slot: Slot, slotWork: Work)
    | GlobalOwed

  datatype Batch = Batch(groups: map<Key, Work>, users: map<Key, UserWork>, globalRepair: bool)

  function BatchOf(s: State): Batch {
    Batch(s.dirty.groups, s.dirty.users, s.dirty.global)
  }

  /** The batch carries the obligation out, or subsumes it by a full repair. */
  predicate Carries(b: Batch, o: Owed) {
    b.globalRepair
    || match o
       case GroupOwed(k, w) => k in b.groups && b.groups[k].Covers(w)
       case UserOwed(k, w) => k in b.users && b.users[k].Covers(w)
       case SlotOwed(slot, w) => slot.reason != GLOBAL && slot.route in b.groups && b.groups[slot.route].Covers(w)
       case GlobalOwed => false
  }

  predicate StillDelayed(s: State, o: Owed) {
    o.SlotOwed? && o.slot in s.delayed && s.delayed[o.slot].work.Covers(o.slotWork)
  }

  predicate Holds(s: State, o: Owed) {
    Carries(BatchOf(s), o) || StillDelayed(s, o)
  }

  /** What an accepted call obliges the queue to. */
  function Obligation(m: Move): Option<Owed> {
    match m
    case AddHint(h) =>
      if h.globalRepair || (h.userKey == "" && h.groupKey == "") then Some(GlobalOwed)
      else if h.userKey != "" then Some(UserOwed(h.userKey, UserWorkOf(h)))
      else Some(GroupOwed(h.groupKey, WorkOf(h)))
    case ScheduleWork(slot, work, _) => Some(SlotOwed(slot, work))
    case _ => None
  }

  lemma AcceptHolds(s: State, m: Move)
    requires !s.closed && Obligation(m).Some?
    ensures Holds(Step(s, m), Obligation(m).value)
  {
  }

  /** Merging keeps what was there and takes in all that is due. */
  lemma MergedCovers(groups: map<Key, Work>, delayed: map<Slot, Delayed>, now: int, done: set<Slot>)
    ensures var merged := Merged(groups, delayed, now, done);
      && (forall k <- groups :: k in merged && merged[k].Covers(groups[k]))
      && (forall k <- done :: IsDue(delayed, now, k) ==> k.route in merged && merged[k.route].Covers(delayed[k].work))
  {
  }

  lemma CoversTransitive(a: Work, b: Work, c: Work)
    requires a.Covers(b) && b.Covers(c)
    ensures a.Covers(c)
  {
  }

  lemma ReleaseHolds(s: State, o: Owed)
    requires Inv(s) && s.clock.callbacks > 0 && Holds(s, o)
    ensures Holds(Release(s), o)
  {
    var now := s.clock.now;
    if !s.closed && !s.dirty.global && !GlobalDue(s.delayed, now) {
      MergedCovers(s.dirty.groups, s.delayed, now, s.delayed.Keys);
      var delayed := NotDue(s.delayed, now);
      var dirty := ReleasedDirty(s);
      assert dirty.users == s.dirty.users;
      if o.SlotOwed? && StillDelayed(s, o) {
        if IsDue(s.delayed, now, o.slot) {
          assert o.slot in s.delayed.Keys;
          CoversTransitive(dirty.groups[o.slot.route], s.delayed[o.slot].work, o.slotWork);
        } else {
          assert o.slot in delayed;
        }
      }
      assert Holds(State(dirty, delayed, ResetTimer(Forget(Ran(s.clock)), delayed), s.closed, true, s.received), o);
    }
  }

  lemma StepHolds(s: State, m: Move, o: Owed)
    requires Inv(s) && Holds(s, o) && !m.DrainBatch?
    ensures Holds(Step(s, m), o)
  {
    if m.Callback? && s.clock.callbacks > 0 {
      ReleaseHolds(s, o);
    }
  }

  lemma {:induction false} RunHolds(s: State, moves: seq<Move>, o: Owed)
    requires Inv(s) && Holds(s, o)
    requires forall m <- moves :: !m.DrainBatch?
    ensures Holds(Run(s, moves), o)
    decreases |moves|
  {
    if moves != [] {
      var init := moves[..|moves| - 1];
      RunHolds(s, init, o);
      RunKeeps(s, init);
      assert moves[|moves| - 1] in moves;
      StepHolds(Run(s, init), moves[|moves| - 1], o);
    }
  }

  /**
   In any interleaving from an empty queue, what an open queue accepts is in the
   next drained batch under its key with at least its flags, or subsumed by its
   full repair, or still delayed after the drain with at least its flags.
  */
  lemma NoHintLost(before: seq<Move>, m: Move, after: seq<Move>)
    requires Obligation(m).Some? && !Run(EMPTY_QUEUE, before).closed
    requires forall x <- after :: !x.DrainBatch?
    ensures var s := Run(Step(Run(EMPTY_QUEUE, before), m), after);
      Carries(BatchOf(s), Obligation(m).value) || StillDelayed(Drain(s), Obligation(m).value)
  {
    RunKeeps(EMPTY_QUEUE, before);
    var s0 := Run(EMPTY_QUEUE, before);
    AcceptHolds(s0, m);
    StepKeeps(s0, m);
    RunHolds(Step(s0, m), after, Obligation(m).value);
  }

  /** From an empty queue, at every moment. */
  lemma BoundedAndAwake(moves: seq<Move>)
    ensures var s := Run(EMPTY_QUEUE, moves);
      && |s.dirty.groups| + |s.dirty.users| + |s.delayed| <= 10000
      && (s.dirty.global ==> s.dirty.groups == map[] && s.dirty.users == map[])
      && (Pending(s.dirty) ==> s.wake || s.received)
      && (!s.closed ==> Armed(s.clock, s.delayed))
  {
    RunKeeps(EMPTY_QUEUE, moves);
  }
}

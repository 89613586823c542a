/**
 The ownership ledger as a value, and every effect one store operation can have
 on memory and on the state file, as a function of how its save turns out.
*/
module Ledger {
  import opened Wrappers

  type Id = string

  /** One target membership; also the key of the two membership tables. */
  datatype Membership = Membership(provider: Id, groupId: Id, userId: Id)

  datatype BindingKey = BindingKey(provider: Id, rule: Id, source: Id)

  datatype GroupMapping = GroupMapping(
    provider: Id, rule: Id, sourceGroupId: Id, sourceNativeId: Id, sourceGroupPath: string,
    targetGroupId: Id, targetGroupPath: string, owned: bool)
  {
    function Key(): BindingKey {
      BindingKey(provider, rule, sourceGroupId)
    }
  }

  type Bindings = map<BindingKey, GroupMapping>

  datatype Ledger = Ledger(
    records: set<Membership>,
    groups: Bindings,
    absences: map<Membership, int>)
  {
    ghost predicate WellFormed() {
      KeysAgree(groups)
    }

    function Observations(m: Membership): int {
      if m in absences then absences[m] else 0
    }
  }

  /** Every mapping sits under its own key. */
  ghost predicate KeysAgree(groups: Bindings) {
    forall k <- groups :: groups[k].Key() == k
  }

  const EMPTY := Ledger({}, map[], map[])

  // ----- faults -----

  /**
   What the environment does to one call. `Before` stops it with nothing done,
   `After` lets it take effect and still reports failure, `Ignored` acknowledges
   a membership write that GitLab has not made active. `step` says which system
   call of a save stops.
  */
  datatype Fault = Smooth | Ignored | Before(step: nat) | After(step: nat)

  predicate Acknowledged(f: Fault) {
    f.Smooth? || f.Ignored?
  }

  /** What a run leaves behind for its history, in order. */
  datatype Event =
    | Observed(m: Membership)   // an absence observation was written
    | Cleared(m: Membership)    // an absence reset was acknowledged
    | Added(m: Membership)
    | Leveled(m: Membership)
    | Removed(m: Membership)

  /** Everything outside the program that a run draws on: one fault per call. */
  class Environment {
    const fault: nat -> Fault
    var tick: nat
    ghost var log: seq<Event>

    constructor (fault: nat -> Fault)
      ensures this.fault == fault && tick == 0 && log == []
    {
      this.fault := fault;
      tick := 0;
      log := [];
    }

    method Next() returns (f: Fault)
      modifies this`tick
      ensures f == fault(old(tick)) && tick == old(tick) + 1
    {
      f := fault(tick);
      tick := tick + 1;
    }

    ghost method Record(e: Event)
      modifies this`log
      ensures log == old(log) + [e]
    {
      log := log + [e];
    }
  }

  // ----- one save -----

  /**
   The ledger in memory, the one the state file decodes to, and the one it would
   decode to after a power failure that loses directory changes. `syncs` counts
   the saves that reached their directory sync.
  */
  datatype Books = Books(memory: Ledger, disk: Ledger, settled: Ledger, syncs: nat)

  /**
   A failing save rolls memory back; the file may or may not be the new one, and
   it is there for good only if the directory was synced before the save stopped.
  */
  function Save(b: Books, next: Ledger, f: Fault): Books {
    match f
    case Smooth => Books(next, next, next, b.syncs + 1)
    case Ignored => Books(next, next, next, b.syncs + 1)
    case Before(_) => b
    case After(step) =>
      if Durable(step) then Books(b.memory, next, next, b.syncs + 1) else Books(b.memory, next, b.settled, b.syncs)
  }

  /** Of the three steps after the rename, the last comes after the directory sync. */
  predicate Durable(step: nat) {
    step % 3 == 2
  }

  /** The save got as far as the directory sync. */
  predicate Settling(f: Fault) {
    Acknowledged(f) || (f.After? && Durable(f.step))
  }

  /** Without a directory sync, neither memory nor what is settled changes. */
  predicate Advances(b: Books, b1: Books) {
    b1.syncs >= b.syncs && (b1.syncs == b.syncs ==> b1.memory == b.memory && b1.settled == b.settled)
  }

  /** A restart loads the file as it is, or as a power failure left it. */
  function Restarted(b: Books, lost: bool): Books {
    if lost then Books(b.settled, b.settled, b.settled, b.syncs) else Books(b.disk, b.disk, b.settled, b.syncs)
  }

  // ----- the operations -----

  function Mark(l: Ledger, m: Membership): Ledger {
    l.(records := l.records + {m})
  }

  function Unmark(l: Ledger, m: Membership): Ledger {
    l.(records := l.records - {m})
  }

  function Put(l: Ledger, g: GroupMapping): Ledger {
    l.(groups := l.groups[g.Key() := g])
  }

  function Delete(l: Ledger, k: BindingKey): Ledger {
    l.(groups := l.groups - {k})
  }

  function Observe(l: Ledger, m: Membership): Ledger {
    l.(absences := l.absences[m := l.Observations(m) + 1])
  }

  function Clear(l: Ledger, m: Membership): Ledger {
    l.(absences := l.absences - {m})
  }

  /** The mapping a source keeps after its key becomes its canonical path. */
  function Canonical(g: GroupMapping, source: Id, native: Id, path: string): GroupMapping {
    g.(sourceGroupId := source, sourceNativeId := native, sourceGroupPath := path)
  }

  /** Rekeys a mapping; None when there is nothing to move or the new key is bound elsewhere. */
  function Move(l: Ledger, from: BindingKey, source: Id, native: Id, path: string): Option<Ledger> {
    var to := BindingKey(from.provider, from.rule, source);
    if from !in l.groups then None
    else if to in l.groups then
      var there := l.groups[to];
      if there.targetGroupId == l.groups[from].targetGroupId
         && there.targetGroupPath == l.groups[from].targetGroupPath
      then Some(l.(groups := l.groups[to := there.(sourceNativeId := native, sourceGroupPath := path)] - {from}))
      else None
    else
      Some(l.(groups := (l.groups - {from})[to := Canonical(l.groups[from], source, native, path)]))
  }
}

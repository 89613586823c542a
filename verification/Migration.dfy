/**
 Rekeying legacy mappings of declared paths to their canonical path
 (`migrateCanonicalMappings`): what it conserves and when it is finished.
*/
module Migration {
  import opened Wrappers
  import opened Ledger
  import opened Paths
  import opened Sync
  import opened Planner
  import Store

  /** The part of the world a migration works on. */
  datatype Desk = Desk(books: Books, tick: nat, ok: bool)

  /** Keyed by something other than its declared path. */
  predicate Legacy(rule: Rule, group: SourceGroup, m: GroupMapping) {
    OfRule(rule, m) && m.sourceGroupPath == group.path && m.sourceGroupId != group.path
  }

  predicate Declares(rule: Rule) {
    rule.vault.None? && rule.sourceGroupPaths.Some?
  }

  function MoveOne(fault: nat -> Fault, d: Desk, group: SourceGroup, m: GroupMapping): Desk {
    match Move(d.books.memory, m.Key(), group.path, group.id, group.path)
    case None => d.(ok := false)
    case Some(next) => Desk(Save(d.books, next, fault(d.tick)), d.tick + 1, Acknowledged(fault(d.tick)))
  }

  function MoveMappings(fault: nat -> Fault, d: Desk, rule: Rule, group: SourceGroup, mappings: seq<GroupMapping>): Desk
    decreases mappings
  {
    if mappings == [] || !d.ok then d
    else
      var next := if Legacy(rule, group, mappings[0]) then MoveOne(fault, d, group, mappings[0]) else d;
      MoveMappings(fault, next, rule, group, mappings[1..])
  }

  function MoveGroups(
      fault: nat -> Fault, d: Desk, rule: Rule, groups: seq<SourceGroup>, mappings: seq<GroupMapping>): Desk
    decreases groups
  {
    if groups == [] || !d.ok then d
    else
      var allowed := SourcePathAllowed(rule, groups[0].path);
      var next := if allowed then MoveMappings(fault, d, rule, groups[0], mappings) else d;
      MoveGroups(fault, next, rule, groups[1..], mappings)
  }

  function MoveRules(
      fault: nat -> Fault, d: Desk, rules: seq<Rule>, groups: seq<SourceGroup>, mappings: seq<GroupMapping>): Desk
    decreases rules
  {
    if rules == [] || !d.ok then d
    else
      var next := if Declares(rules[0]) then MoveGroups(fault, d, rules[0], groups, mappings) else d;
      MoveRules(fault, next, rules[1..], groups, mappings)
  }

  ghost function Migrate(fault: nat -> Fault, books: Books, tick: nat, groups: seq<SourceGroup>, rules: seq<Rule>): Desk
    requires books.memory.WellFormed()
  {
    MoveRules(fault, Desk(books, tick, true), rules, groups, Listing(books.memory.groups))
  }

  // ----- what one move keeps -----

  /** What a binding gives access to. */
  datatype Grant = Grant(provider: Id, rule: Id, targetId: Id, targetPath: string)

  function GrantOf(m: GroupMapping): Grant {
    Grant(m.provider, m.rule, m.targetGroupId, m.targetGroupPath)
  }

  ghost function Grants(groups: Bindings): set<Grant> {
    set k | k in groups :: GrantOf(groups[k])
  }

  predicate IsCanonical(m: GroupMapping) {
    m.sourceGroupId == m.sourceGroupPath
  }

  /** Nothing is left to move under this key. */
  ghost predicate Settled(groups: Bindings, k: BindingKey) {
    k in groups ==> IsCanonical(groups[k])
  }

  /** Relative to the bindings `start` a migration began with. */
  ghost predicate Conserves(start: Ledger, l: Ledger) {
    && l.WellFormed()
    && l.records == start.records && l.absences == start.absences
    && Grants(l.groups) == Grants(start.groups)
    && (forall k <- l.groups :: (k in start.groups && l.groups[k] == start.groups[k]) || IsCanonical(l.groups[k]))
  }

  /**
   Rekeying, field by field: the old key goes, the new one has the old mapping's
   target and ownership, or what was there already if the targets agree.
  */
  lemma MoveExactly(l: Ledger, from: BindingKey, source: Id, native: Id, path: string)
    requires from.source != source
    ensures var to := BindingKey(from.provider, from.rule, source); var next := Move(l, from, source, native, path);
      && (next.Some? <==>
            && from in l.groups
            && (to in l.groups ==>
                  && l.groups[to].targetGroupId == l.groups[from].targetGroupId
                  && l.groups[to].targetGroupPath == l.groups[from].targetGroupPath))
      && (next.Some? ==>
            && next.value.records == l.records && next.value.absences == l.absences
            && next.value.groups.Keys == l.groups.Keys - {from} + {to}
            && (forall k <- next.value.groups :: k != to ==> next.value.groups[k] == l.groups[k])
            && next.value.groups[to] ==
                 (if to in l.groups then l.groups[to] else l.groups[from].(sourceGroupId := source))
                 .(sourceNativeId := native, sourceGroupPath := path))
  {
  }

  lemma MoveKeeps(start: Ledger, l: Ledger, group: SourceGroup, m: GroupMapping)
    requires Conserves(start, l) && m.sourceGroupId != group.path
    requires Move(l, m.Key(), group.path, group.id, group.path).Some?
    ensures var next := Move(l, m.Key(), group.path, group.id, group.path).value;
      && Conserves(start, next)
      && Settled(next.groups, m.Key())
      && (forall k :: Settled(l.groups, k) ==> Settled(next.groups, k))
      && (forall k: BindingKey :: k.rule != m.rule ==>
        (k in next.groups <==> k in l.groups) && (k in l.groups ==> next.groups[k] == l.groups[k]))
  {
    var from := m.Key();
    var to := BindingKey(from.provider, from.rule, group.path);
    var next := Move(l, from, group.path, group.id, group.path).value;
    assert GrantOf(next.groups[to]) == GrantOf(l.groups[from]);
    forall g
      ensures g in Grants(next.groups) <==> g in Grants(l.groups)
    {
      if g in Grants(l.groups) {
        var k :| k in l.groups && GrantOf(l.groups[k]) == g;
        if k == from || k == to {
          assert to in next.groups && GrantOf(next.groups[to]) == g;
        } else {
          assert k in next.groups && GrantOf(next.groups[k]) == g;
        }
      }
      if g in Grants(next.groups) {
        var k :| k in next.groups && GrantOf(next.groups[k]) == g;
        if k == to {
          assert from in l.groups && GrantOf(l.groups[from]) == g;
        } else {
          assert k in l.groups && GrantOf(l.groups[k]) == g;
        }
      }
    }
  }

  /** The books stay conserved, on disk too. */
  ghost predicate DeskKeeps(start: Books, d: Desk) {
    && Conserves(start.memory, d.books.memory)
    && (d.books.disk == start.disk || Conserves(start.memory, d.books.disk))
    && (d.books.settled == start.settled || Conserves(start.memory, d.books.settled))
  }

  ghost predicate StaysSettled(a: Bindings, b: Bindings) {
    forall k :: Settled(a, k) ==> Settled(b, k)
  }

  /** Other rules' bindings are not touched. */
  ghost predicate SameForRule(name: Id, a: Bindings, b: Bindings) {
    forall k: BindingKey :: k.rule == name ==> (k in a <==> k in b) && (k in a ==> a[k] == b[k])
  }

  ghost predicate DeskSame(name: Id, d: Desk, d1: Desk) {
    && SameForRule(name, d.books.memory.groups, d1.books.memory.groups)
    && (SameForRule(name, d.books.disk.groups, d1.books.disk.groups)
      || SameForRule(name, d.books.memory.groups, d1.books.disk.groups))
    && (SameForRule(name, d.books.settled.groups, d1.books.settled.groups)
      || SameForRule(name, d.books.memory.groups, d1.books.settled.groups))
    && Advances(d.books, d1.books)
    && (d1.books.syncs > d.books.syncs ==> SameForRule(name, d1.books.memory.groups, d1.books.settled.groups))
  }

  /** What any number of moves keep, for a rule name they do not concern. */
  ghost predicate Moves(start: Books, other: Id, d: Desk, d1: Desk) {
    && DeskKeeps(start, d1)
    && StaysSettled(d.books.memory.groups, d1.books.memory.groups)
    && DeskSame(other, d, d1)
    && (d1.ok ==> d.ok)
  }

  lemma MovesChain(start: Books, other: Id, d: Desk, d1: Desk, d2: Desk)
    requires Moves(start, other, d, d1) && Moves(start, other, d1, d2)
    ensures Moves(start, other, d, d2)
  {
  }

  lemma MoveOneKeeps(fault: nat -> Fault, start: Books, d: Desk, group: SourceGroup, m: GroupMapping, other: Id)
    requires DeskKeeps(start, d) && m.sourceGroupId != group.path && d.ok && m.rule != other
    ensures var d1 := MoveOne(fault, d, group, m);
      Moves(start, other, d, d1) && (d1.ok ==> Settled(d1.books.memory.groups, m.Key()))
  {
    if Move(d.books.memory, m.Key(), group.path, group.id, group.path).Some? {
      MoveKeeps(start.memory, d.books.memory, group, m);
      var next := Move(d.books.memory, m.Key(), group.path, group.id, group.path).value;
      SaveMoves(start, other, d, next, fault(d.tick));
    }
  }

  /** Saving a ledger that conserves what there was. */
  lemma SaveMoves(start: Books, other: Id, d: Desk, next: Ledger, f: Fault)
    requires DeskKeeps(start, d) && d.ok && Conserves(start.memory, next)
    requires StaysSettled(d.books.memory.groups, next.groups) && SameForRule(other, d.books.memory.groups, next.groups)
    ensures Moves(start, other, d, Desk(Save(d.books, next, f), d.tick + 1, Acknowledged(f)))
  {
  }

  /** Every legacy mapping of this group and rule has been dealt with. */
  ghost predicate MappingsDone(groups: Bindings, rule: Rule, group: SourceGroup, mappings: seq<GroupMapping>) {
    forall m <- mappings :: Legacy(rule, group, m) ==> Settled(groups, m.Key())
  }

  lemma {:induction false} MoveMappingsKeeps(
      fault: nat -> Fault, start: Books, d: Desk, rule: Rule, group: SourceGroup, mappings: seq<GroupMapping>,
      other: Id)
    requires DeskKeeps(start, d) && rule.name != other
    ensures var d1 := MoveMappings(fault, d, rule, group, mappings);
      Moves(start, other, d, d1) && (d1.ok ==> MappingsDone(d1.books.memory.groups, rule, group, mappings))
    decreases mappings
  {
    if mappings != [] && d.ok {
      var next := if Legacy(rule, group, mappings[0]) then MoveOne(fault, d, group, mappings[0]) else d;
      if Legacy(rule, group, mappings[0]) {
        MoveOneKeeps(fault, start, d, group, mappings[0], other);
      }
      MoveMappingsKeeps(fault, start, next, rule, group, mappings[1..], other);
      MovesChain(start, other, d, next, MoveMappings(fault, next, rule, group, mappings[1..]));
      assert forall m <- mappings :: m == mappings[0] || m in mappings[1..];
    }
  }

  ghost predicate GroupsDone(bindings: Bindings, rule: Rule, groups: seq<SourceGroup>, mappings: seq<GroupMapping>) {
    forall g <- groups :: SourcePathAllowed(rule, g.path) ==> MappingsDone(bindings, rule, g, mappings)
  }

  lemma DoneStays(a: Bindings, b: Bindings, rule: Rule, group: SourceGroup, mappings: seq<GroupMapping>)
    requires MappingsDone(a, rule, group, mappings) && StaysSettled(a, b)
    ensures MappingsDone(b, rule, group, mappings)
  {
  }

  lemma {:induction false} MoveGroupsKeeps(
      fault: nat -> Fault, start: Books, d: Desk, rule: Rule, groups: seq<SourceGroup>, mappings: seq<GroupMapping>,
      other: Id)
    requires DeskKeeps(start, d) && rule.name != other
    ensures var d1 := MoveGroups(fault, d, rule, groups, mappings);
      Moves(start, other, d, d1) && (d1.ok ==> GroupsDone(d1.books.memory.groups, rule, groups, mappings))
    decreases groups
  {
    if groups != [] && d.ok {
      var g := groups[0];
      var next := if SourcePathAllowed(rule, g.path) then MoveMappings(fault, d, rule, g, mappings) else d;
      if SourcePathAllowed(rule, g.path) {
        MoveMappingsKeeps(fault, start, d, rule, g, mappings, other);
      }
      MoveGroupsKeeps(fault, start, next, rule, groups[1..], mappings, other);
      var d1 := MoveGroups(fault, next, rule, groups[1..], mappings);
      MovesChain(start, other, d, next, d1);
      if d1.ok && SourcePathAllowed(rule, g.path) {
        DoneStays(next.books.memory.groups, d1.books.memory.groups, rule, g, mappings);
      }
      assert forall x <- groups :: x == g || x in groups[1..];
    }
  }

  ghost predicate RulesDone(
      bindings: Bindings, rules: seq<Rule>, groups: seq<SourceGroup>, mappings: seq<GroupMapping>)
  {
    forall rule <- rules :: Declares(rule) ==> GroupsDone(bindings, rule, groups, mappings)
  }

  lemma GroupsDoneStays(a: Bindings, b: Bindings, rule: Rule, groups: seq<SourceGroup>, mappings: seq<GroupMapping>)
    requires GroupsDone(a, rule, groups, mappings) && StaysSettled(a, b)
    ensures GroupsDone(b, rule, groups, mappings)
  {
  }

  lemma {:induction false} MoveRulesKeeps(
      fault: nat -> Fault, start: Books, d: Desk, rules: seq<Rule>, groups: seq<SourceGroup>,
      mappings: seq<GroupMapping>, other: Id)
    requires DeskKeeps(start, d)
    requires forall rule <- rules :: Declares(rule) ==> rule.name != other
    ensures var d1 := MoveRules(fault, d, rules, groups, mappings);
      Moves(start, other, d, d1) && (d1.ok ==> RulesDone(d1.books.memory.groups, rules, groups, mappings))
    decreases rules
  {
    if rules != [] && d.ok {
      var rule := rules[0];
      var next := if Declares(rule) then MoveGroups(fault, d, rule, groups, mappings) else d;
      if Declares(rule) {
        MoveGroupsKeeps(fault, start, d, rule, groups, mappings, other);
      }
      MoveRulesKeeps(fault, start, next, rules[1..], groups, mappings, other);
      var d1 := MoveRules(fault, next, rules[1..], groups, mappings);
      MovesChain(start, other, d, next, d1);
      if d1.ok && Declares(rule) {
        GroupsDoneStays(next.books.memory.groups, d1.books.memory.groups, rule, groups, mappings);
      }
      assert forall x <- rules :: x == rule || x in rules[1..];
    }
  }

  /** No present declared path has a mapping under another key. */
  ghost predicate Migrated(groups: Bindings, sources: seq<SourceGroup>, rules: seq<Rule>) {
    forall rule <- rules, g <- sources, k <- groups ::
      Declares(rule) && SourcePathAllowed(rule, g.path) ==> !Legacy(rule, g, groups[k])
  }

  /**
   However a migration ends, it conserves every binding's grant, every membership
   and every absence record, in memory and in a file it wrote. When it succeeds no
   present declared path is left under a legacy key.
  */
  lemma MigrationConserves(fault: nat -> Fault, books: Books, tick: nat, sources: seq<SourceGroup>, rules: seq<Rule>)
    requires books.memory.WellFormed()
    ensures var d := Migrate(fault, books, tick, sources, rules);
      && Conserves(books.memory, d.books.memory)
      && (d.books.disk == books.disk || Conserves(books.memory, d.books.disk))
      && (d.books.settled == books.settled || Conserves(books.memory, d.books.settled))
      && (d.ok ==> Migrated(d.books.memory.groups, sources, rules))
  {
    var mappings := Listing(books.memory.groups);
    var other := UnusedName(rules);
    MoveRulesKeeps(fault, books, Desk(books, tick, true), rules, sources, mappings, other);
    var d := Migrate(fault, books, tick, sources, rules);
    if d.ok {
      var groups := d.books.memory.groups;
      forall rule, g, k | rule in rules && g in sources && k in groups && Declares(rule)
        && SourcePathAllowed(rule, g.path)
        ensures !Legacy(rule, g, groups[k])
      {
        if k in books.memory.groups && groups[k] == books.memory.groups[k] {
          assert groups[k] in books.memory.groups.Values;
          assert groups[k] in mappings;
          assert groups[k].Key() == k;
          assert RulesDone(groups, rules, sources, mappings);
          assert GroupsDone(groups, rule, sources, mappings);
          assert MappingsDone(groups, rule, g, mappings);
          assert Legacy(rule, g, groups[k]) ==> Settled(groups, groups[k].Key());
        }
      }
    }
  }

  /** A name longer than every rule's. */
  ghost function UnusedName(rules: seq<Rule>): (r: string)
    ensures forall rule <- rules :: |rule.name| < |r|
  {
    if rules == [] then ""
    else
      var rest := UnusedName(rules[1..]);
      if |rest| > |rules[0].name| then rest else rules[0].name + "x"
  }

  lemma {:induction false} NothingToMoveMappings(
      fault: nat -> Fault, d: Desk, rule: Rule, group: SourceGroup, mappings: seq<GroupMapping>)
    requires forall m <- mappings :: !Legacy(rule, group, m)
    ensures MoveMappings(fault, d, rule, group, mappings) == d
    decreases mappings
  {
    if mappings != [] {
      assert mappings[0] in mappings;
      NothingToMoveMappings(fault, d, rule, group, mappings[1..]);
    }
  }

  lemma {:induction false} NothingToMoveGroups(
      fault: nat -> Fault, d: Desk, rule: Rule, groups: seq<SourceGroup>, mappings: seq<GroupMapping>)
    requires forall g <- groups, m <- mappings :: SourcePathAllowed(rule, g.path) ==> !Legacy(rule, g, m)
    ensures MoveGroups(fault, d, rule, groups, mappings) == d
    decreases groups
  {
    if groups != [] {
      assert groups[0] in groups;
      if SourcePathAllowed(rule, groups[0].path) {
        NothingToMoveMappings(fault, d, rule, groups[0], mappings);
      }
      NothingToMoveGroups(fault, d, rule, groups[1..], mappings);
    }
  }

  lemma {:induction false} NothingToMoveRules(
      fault: nat -> Fault, d: Desk, rules: seq<Rule>, groups: seq<SourceGroup>, mappings: seq<GroupMapping>)
    requires forall rule <- rules, g <- groups, m <- mappings :: Declares(rule) && SourcePathAllowed(rule, g.path) ==>
      !Legacy(rule, g, m)
    ensures MoveRules(fault, d, rules, groups, mappings) == d
    decreases rules
  {
    if rules != [] {
      assert rules[0] in rules;
      if Declares(rules[0]) {
        NothingToMoveGroups(fault, d, rules[0], groups, mappings);
      }
      NothingToMoveRules(fault, d, rules[1..], groups, mappings);
    }
  }

  /** Without a legacy key there is nothing to do. */
  lemma MigratedIsIdle(fault: nat -> Fault, books: Books, tick: nat, sources: seq<SourceGroup>, rules: seq<Rule>)
    requires books.memory.WellFormed() && Migrated(books.memory.groups, sources, rules)
    ensures Migrate(fault, books, tick, sources, rules) == Desk(books, tick, true)
  {
    var groups := books.memory.groups;
    forall rule, g, m | rule in rules && g in sources && m in Listing(groups) && Declares(rule)
      && SourcePathAllowed(rule, g.path)
      ensures !Legacy(rule, g, m)
    {
      assert m in groups.Values;
      var k :| k in groups && groups[k] == m;
    }
    NothingToMoveRules(fault, Desk(books, tick, true), rules, sources, Listing(groups));
  }

  /** A second migration after a successful one changes nothing and makes no call. */
  lemma SecondMigrationIsIdle(fault: nat -> Fault, books: Books, tick: nat, sources: seq<SourceGroup>, rules: seq<Rule>)
    requires books.memory.WellFormed()
    requires Migrate(fault, books, tick, sources, rules).ok
    ensures var d := Migrate(fault, books, tick, sources, rules);
      d.books.memory.WellFormed() && Migrate(fault, d.books, d.tick, sources, rules) == d
  {
    MigrationConserves(fault, books, tick, sources, rules);
    var d := Migrate(fault, books, tick, sources, rules);
    MigratedIsIdle(fault, d.books, d.tick, sources, rules);
  }

  /** Bindings of a rule without declared paths are left exactly as they are. */
  lemma MigrationLeavesOtherRules(
      fault: nat -> Fault, books: Books, tick: nat, sources: seq<SourceGroup>, rules: seq<Rule>, name: Id)
    requires books.memory.WellFormed()
    requires forall rule <- rules :: Declares(rule) ==> rule.name != name
    ensures DeskSame(name, Desk(books, tick, true), Migrate(fault, books, tick, sources, rules))
  {
    MoveRulesKeeps(fault, books, Desk(books, tick, true), rules, sources, Listing(books.memory.groups), name);
  }

  // ----- the migration as it runs -----

  ghost function DeskOf(store: Store.Store, ok: bool): Desk
    requires store.Decodable()
    reads store, store.disk, store.env
  {
    Desk(store.Snapshot(), store.env.tick, ok)
  }

  method MigrateMapping(store: Store.Store, rule: Rule, group: SourceGroup, m: GroupMapping) returns (ok: bool)
    requires store.Valid()
    modifies store, store.disk, store.env`tick
    ensures store.Valid()
    ensures DeskOf(store, ok) ==
      if Legacy(rule, group, m) then MoveOne(store.env.fault, old(DeskOf(store, true)), group, m)
      else old(DeskOf(store, true))
  {
    if m.rule != rule.name || !OfRule(rule, m) || m.sourceGroupPath != group.path || m.sourceGroupId == group.path {
      return true;
    }
    ok := store.MoveGroup(m.Key(), group.path, group.id, group.path);
  }

  method MigrateGroup(
      store: Store.Store, rule: Rule, group: SourceGroup, mappings: seq<GroupMapping>) returns (ok: bool)
    requires store.Valid()
    modifies store, store.disk, store.env`tick
    ensures store.Valid()
    ensures DeskOf(store, ok) == MoveMappings(store.env.fault, old(DeskOf(store, true)), rule, group, mappings)
  {
    ok := true;
    for i := 0 to |mappings|
      invariant store.Valid() && ok
      invariant MoveMappings(store.env.fault, DeskOf(store, ok), rule, group, mappings[i..])
             == MoveMappings(store.env.fault, old(DeskOf(store, true)), rule, group, mappings)
    {
      assert mappings[i..][0] == mappings[i] && mappings[i..][1..] == mappings[i + 1..];
      ok := MigrateMapping(store, rule, group, mappings[i]);
      if !ok {
        return;
      }
    }
  }

  method MigrateRule(
      store: Store.Store, rule: Rule, groups: seq<SourceGroup>, mappings: seq<GroupMapping>) returns (ok: bool)
    requires store.Valid()
    modifies store, store.disk, store.env`tick
    ensures store.Valid()
    ensures DeskOf(store, ok) == MoveGroups(store.env.fault, old(DeskOf(store, true)), rule, groups, mappings)
  {
    ok := true;
    for i := 0 to |groups|
      invariant store.Valid() && ok
      invariant MoveGroups(store.env.fault, DeskOf(store, ok), rule, groups[i..], mappings)
             == MoveGroups(store.env.fault, old(DeskOf(store, true)), rule, groups, mappings)
    {
      assert groups[i..][0] == groups[i] && groups[i..][1..] == groups[i + 1..];
      if SourcePathAllowed(rule, groups[i].path) {
        ok := MigrateGroup(store, rule, groups[i], mappings);
        if !ok {
          return;
        }
      }
    }
  }

  /** `migrateCanonicalMappings` over a snapshot of the mappings. */
  method MigrateCanonicalMappings(store: Store.Store, groups: seq<SourceGroup>, rules: seq<Rule>) returns (ok: bool)
    requires store.Valid()
    modifies store, store.disk, store.env`tick
    ensures store.Valid()
    ensures DeskOf(store, ok) == Migrate(store.env.fault, old(store.Snapshot()), old(store.env.tick), groups, rules)
  {
    var mappings := store.GroupMappings();
    Store.ListingUnique(mappings, Listing(store.groups), store.groups.Values, Store.MappingIds);
    ok := true;
    for i := 0 to |rules|
      invariant store.Valid() && ok
      invariant MoveRules(store.env.fault, DeskOf(store, ok), rules[i..], groups, mappings)
             == MoveRules(store.env.fault, old(DeskOf(store, true)), rules, groups, mappings)
    {
      assert rules[i..][0] == rules[i] && rules[i..][1..] == rules[i + 1..];
      if Declares(rules[i]) {
        ok := MigrateRule(store, rules[i], groups, mappings);
        if !ok {
          return;
        }
      }
    }
  }
}

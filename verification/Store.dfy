/**
 The ledger file: a save that may stop at any system call, what a crash can
 then find under the state path, and the store operations with their rollback.
*/
module Store {
  import opened Wrappers
  import opened Ledger
  import opened Text

  // ----- the image written to disk -----

  datatype Absence = Absence(m: Membership, observations: int)

  datatype Image = Image(
    version: int,
    memberships: seq<Membership>,
    mappings: seq<GroupMapping>,
    absences: seq<Absence>)

  function MembershipIds(m: Membership): seq<string> {
    [m.provider, m.groupId, m.userId]
  }

  function MappingIds(g: GroupMapping): seq<string> {
    [g.provider, g.rule, g.sourceGroupId]
  }

  function AbsenceIds(a: Absence): seq<string> {
    MembershipIds(a.m)
  }

  ghost predicate SortedBy<T(!new)>(s: seq<T>, ids: T -> seq<string>) {
    forall i, j :: 0 <= i < j < |s| ==> TupleLess(ids(s[i]), ids(s[j]))
  }

  ghost predicate Lists<T(!new)>(s: seq<T>, elements: set<T>) {
    forall x :: x in s <==> x in elements
  }

  ghost function AbsenceSet(l: Ledger): set<Absence> {
    set m | m in l.absences :: Absence(m, l.absences[m])
  }

  /** The image of a ledger: every entry once, in key order. */
  ghost predicate IsImage(image: Image, l: Ledger) {
    && image.version == 3
    && SortedBy(image.memberships, MembershipIds) && Lists(image.memberships, l.records)
    && SortedBy(image.mappings, MappingIds) && Lists(image.mappings, l.groups.Values)
    && SortedBy(image.absences, AbsenceIds) && Lists(image.absences, AbsenceSet(l))
  }

  /** A strictly sorted listing of a set is determined by the set. */
  lemma {:induction false} ListingUnique<T(!new)>(s: seq<T>, t: seq<T>, elements: set<T>, ids: T -> seq<string>)
    requires SortedBy(s, ids) && SortedBy(t, ids)
    requires Lists(s, elements) && Lists(t, elements)
    ensures s == t
  {
    HeadListed(s, elements);
    HeadListed(t, elements);
    if s != [] {
      var i :| 0 <= i < |t| && t[i] == s[0];
      var j :| 0 <= j < |s| && s[j] == t[0];
      TupleTotal(ids(s[0]), ids(t[0]));
      assert s[0] == t[0];
      var rest := elements - {s[0]};
      ListingTail(s, elements, ids);
      ListingTail(t, elements, ids);
      ListingUnique(s[1..], t[1..], rest, ids);
      assert s == [s[0]] + s[1..] && t == [t[0]] + t[1..];
    }
  }

  lemma HeadListed<T(!new)>(s: seq<T>, elements: set<T>)
    requires Lists(s, elements)
    ensures |s| > 0 ==> s[0] in elements
    ensures s == [] ==> elements == {}
  {
  }

  lemma ListingTail<T(!new)>(s: seq<T>, elements: set<T>, ids: T -> seq<string>)
    requires s != [] && SortedBy(s, ids) && Lists(s, elements)
    ensures SortedBy(s[1..], ids) && Lists(s[1..], elements - {s[0]})
  {
    forall x
      ensures x in s[1..] <==> x in elements && x != s[0]
    {
      if x in s[1..] {
        var i :| 1 <= i < |s| && s[i] == x;
        TupleTotal(ids(s[0]), ids(s[i]));
        assert x in s;
      }
    }
  }

  /** So the bytes written depend on the maps alone, not on the order Go walks them. */
  lemma ImageUnique(a: Image, b: Image, l: Ledger)
    requires IsImage(a, l) && IsImage(b, l)
    ensures a == b
  {
    ListingUnique(a.memberships, b.memberships, l.records, MembershipIds);
    ListingUnique(a.mappings, b.mappings, l.groups.Values, MappingIds);
    ListingUnique(a.absences, b.absences, AbsenceSet(l), AbsenceIds);
  }

  // ----- reading the image back -----

  function LoadMemberships(s: seq<Membership>): set<Membership> {
    set m | m in s
  }

  function LoadMappings(s: seq<GroupMapping>): (r: Bindings)
    ensures forall k <- r :: r[k].Key() == k
  {
    if s == [] then map[]
    else LoadMappings(s[..|s| - 1])[s[|s| - 1].Key() := s[|s| - 1]]
  }

  function LoadAbsences(s: seq<Absence>): map<Membership, int> {
    if s == [] then map[]
    else LoadAbsences(s[..|s| - 1])[s[|s| - 1].m := s[|s| - 1].observations]
  }

  function Load(image: Image): Option<Ledger> {
    if image.version != 2 && image.version != 3 then None
    else Some(Ledger(LoadMemberships(image.memberships), LoadMappings(image.mappings), LoadAbsences(image.absences)))
  }

  lemma {:induction false} LoadMappingsAgree(s: seq<GroupMapping>, groups: Bindings)
    requires forall g <- s :: g.Key() in groups && groups[g.Key()] == g
    ensures forall k <- LoadMappings(s) :: k in groups && groups[k] == LoadMappings(s)[k]
    ensures forall g <- s :: g.Key() in LoadMappings(s)
  {
    if s != [] {
      LoadMappingsAgree(s[..|s| - 1], groups);
      assert s == s[..|s| - 1] + [s[|s| - 1]];
    }
  }

  lemma {:induction false} LoadAbsencesAgree(s: seq<Absence>, absences: map<Membership, int>)
    requires forall a <- s :: a.m in absences && absences[a.m] == a.observations
    ensures forall m <- LoadAbsences(s) :: m in absences && absences[m] == LoadAbsences(s)[m]
    ensures forall a <- s :: a.m in LoadAbsences(s)
  {
    if s != [] {
      LoadAbsencesAgree(s[..|s| - 1], absences);
      assert s == s[..|s| - 1] + [s[|s| - 1]];
    }
  }

  /** Reading an image back gives exactly the ledger it was written from. */
  lemma LoadImage(image: Image, l: Ledger)
    requires l.WellFormed() && IsImage(image, l)
    ensures Load(image) == Some(l)
  {
    assert LoadMemberships(image.memberships) == l.records;
    forall g | g in image.mappings
      ensures g.Key() in l.groups && l.groups[g.Key()] == g
    {
      assert g in l.groups.Values;
    }
    LoadMappingsAgree(image.mappings, l.groups);
    forall k | k in l.groups
      ensures k in LoadMappings(image.mappings)
    {
      assert l.groups[k] in l.groups.Values;
      assert l.groups[k] in image.mappings;
    }
    assert LoadMappings(image.mappings) == l.groups;
    LoadAbsencesAgree(image.absences, l.absences);
    forall m | m in l.absences
      ensures m in LoadAbsences(image.absences)
    {
      assert Absence(m, l.absences[m]) in AbsenceSet(l);
      assert Absence(m, l.absences[m]) in image.absences;
    }
    assert LoadAbsences(image.absences) == l.absences;
  }

  // ----- collecting and sorting -----

  /** `sort.Slice` by key order. */
  function Insert<T>(x: T, s: seq<T>, ids: T -> seq<string>): seq<T> {
    if s == [] then [x]
    else if TupleLess(ids(s[0]), ids(x)) then [s[0]] + Insert(x, s[1..], ids)
    else [x] + s
  }

  function Sort<T>(s: seq<T>, ids: T -> seq<string>): seq<T> {
    if s == [] then [] else Insert(s[0], Sort(s[1..], ids), ids)
  }

  lemma {:induction false} InsertSorted<T(!new)>(x: T, s: seq<T>, ids: T -> seq<string>)
    requires SortedBy(s, ids)
    requires forall y <- s :: ids(y) != ids(x)
    ensures SortedBy(Insert(x, s, ids), ids)
    ensures forall y :: y in Insert(x, s, ids) <==> y == x || y in s
  {
    if s != [] {
      TupleTotal(ids(s[0]), ids(x));
      if TupleLess(ids(s[0]), ids(x)) {
        InsertSorted(x, s[1..], ids);
        var rest := Insert(x, s[1..], ids);
        forall j | 0 <= j < |rest|
          ensures TupleLess(ids(s[0]), ids(rest[j]))
        {
          assert rest[j] in rest;
        }
        assert s == [s[0]] + s[1..];
      } else {
        forall j | 0 <= j < |s|
          ensures TupleLess(ids(x), ids(s[j]))
        {
          if j > 0 {
            TupleTransitive(ids(x), ids(s[0]), ids(s[j]));
          }
        }
      }
    }
  }

  ghost predicate DistinctIds<T(!new)>(s: seq<T>, ids: T -> seq<string>) {
    forall i, j :: 0 <= i < j < |s| ==> ids(s[i]) != ids(s[j])
  }

  lemma {:induction false} SortLists<T(!new)>(s: seq<T>, ids: T -> seq<string>)
    requires DistinctIds(s, ids)
    ensures SortedBy(Sort(s, ids), ids)
    ensures forall y :: y in Sort(s, ids) <==> y in s
  {
    if s != [] {
      SortLists(s[1..], ids);
      InsertSorted(s[0], Sort(s[1..], ids), ids);
      assert s == [s[0]] + s[1..];
    }
  }

  /** Such a listing exists for every set of distinctly named things. */
  ghost function ListingOf<T(!new)>(elements: set<T>, ids: T -> seq<string>): (r: seq<T>)
    requires forall x <- elements, y <- elements :: ids(x) == ids(y) ==> x == y
    ensures SortedBy(r, ids) && Lists(r, elements)
  {
    if elements == {} then []
    else
      var x :| x in elements;
      var rest := ListingOf(elements - {x}, ids);
      InsertSorted(x, rest, ids);
      Insert(x, rest, ids)
  }

  /** Walks a set in an order of Go's choosing, then sorts. */
  method SortedListing<T(==, !new)>(elements: set<T>, ids: T -> seq<string>) returns (r: seq<T>)
    requires forall x <- elements, y <- elements :: ids(x) == ids(y) ==> x == y
    ensures SortedBy(r, ids) && Lists(r, elements)
  {
    var walked: seq<T> := [];
    var remaining := elements;
    while remaining != {}
      invariant remaining <= elements
      invariant forall x :: x in walked <==> x in elements && x !in remaining
      invariant DistinctIds(walked, ids)
      decreases remaining
    {
      var x :| x in remaining;
      forall i | 0 <= i < |walked|
        ensures ids(walked[i]) != ids(x)
      {
        assert walked[i] in walked;
      }
      walked := walked + [x];
      remaining := remaining - {x};
    }
    SortLists(walked, ids);
    r := Sort(walked, ids);
  }

  // ----- files -----

  /** A file is torn until every byte of an image is in it. */
  datatype Content = Torn | Whole(image: Image)

  datatype Inode = Inode(content: Content, synced: bool)

  /**
   `path` is what the state path names now, `settled` what it would name after a
   power failure that loses directory changes, `temp` the temporary file; `syncs`
   counts the directory syncs.
  */
  datatype FileSystem = FileSystem(path: Option<Inode>, settled: Option<Inode>, temp: Option<Inode>, syncs: nat)

  /** What a crash can make of one directory entry: unsynced data may be torn. */
  ghost function Readings(entry: Option<Inode>): set<Option<Content>> {
    match entry
    case None => {None}
    case Some(inode) => if inode.synced then {Some(inode.content)} else {Some(inode.content), Some(Torn)}
  }

  ghost function CrashReadings(fs: FileSystem): set<Option<Content>> {
    Readings(fs.path) + Readings(fs.settled)
  }

  function EntryContent(entry: Option<Inode>): Option<Content> {
    if entry.None? then None else Some(entry.value.content)
  }

  ghost predicate SteadyEntry(entry: Option<Inode>) {
    (entry.Some? ==> entry.value.synced) && Opened(EntryContent(entry)).Some?
  }

  /** What every save keeps of the file system, and a fresh one has. */
  ghost predicate Steady(fs: FileSystem) {
    SteadyEntry(fs.path) && SteadyEntry(fs.settled)
  }

  /** `Open` on what it finds under the path. */
  ghost function Opened(found: Option<Content>): Option<Ledger> {
    match found
    case None => Some(EMPTY)
    case Some(Torn) => None
    case Some(Whole(image)) => Load(image)
  }

  /** Which of the ten fallible system calls of a save stops it, if any. */
  datatype Stop = Nowhere | MakeDirectory | MakeTemp | Chmod | WriteTemp | SyncTemp | CloseTemp | RenameTemp
    | OpenDirectory | SyncDirectory | CloseDirectory

  function StopOf(f: Fault): (s: Stop)
    ensures Acknowledged(f) <==> s.Nowhere?
    ensures f.After? <==> s.OpenDirectory? || s.SyncDirectory? || s.CloseDirectory?
  {
    match f
    case Smooth => Nowhere
    case Ignored => Nowhere
    case Before(step) =>
      (match step % 7
       case 0 => MakeDirectory
       case 1 => MakeTemp
       case 2 => Chmod
       case 3 => WriteTemp
       case 4 => SyncTemp
       case 5 => CloseTemp
       case _ => RenameTemp)
    case After(step) =>
      if Durable(step) then CloseDirectory else if step % 3 == 0 then OpenDirectory else SyncDirectory
  }

  class Disk {
    var fs: FileSystem
    /** The file system after every system call so far. */
    ghost var history: seq<FileSystem>

    constructor (fs: FileSystem)
      ensures this.fs == fs && history == [fs]
    {
      this.fs := fs;
      history := [fs];
    }

    method CreateTemp(fails: bool)
      modifies this
      ensures fs == if fails then old(fs) else old(fs).(temp := Some(Inode(Torn, false)))
      ensures history == old(history) + [fs]
    {
      if !fails {
        fs := fs.(temp := Some(Inode(Torn, false)));
      }
      history := history + [fs];
    }

    /** A failing write leaves a torn file behind. */
    method Write(image: Image, fails: bool)
      requires fs.temp.Some?
      modifies this
      ensures fs == old(fs).(temp := Some(Inode(if fails then Torn else Whole(image), false)))
      ensures history == old(history) + [fs]
    {
      fs := fs.(temp := Some(Inode(if fails then Torn else Whole(image), false)));
      history := history + [fs];
    }

    method Sync(fails: bool)
      requires fs.temp.Some?
      modifies this
      ensures fs == if fails then old(fs) else old(fs).(temp := Some(old(fs).temp.value.(synced := true)))
      ensures history == old(history) + [fs]
    {
      if !fails {
        fs := fs.(temp := Some(fs.temp.value.(synced := true)));
      }
      history := history + [fs];
    }

    method Rename(fails: bool)
      requires fs.temp.Some?
      modifies this
      ensures fs == if fails then old(fs) else old(fs).(path := old(fs).temp, temp := None)
      ensures history == old(history) + [fs]
    {
      if !fails {
        fs := fs.(path := fs.temp, temp := None);
      }
      history := history + [fs];
    }

    method SyncDirectory(fails: bool)
      modifies this
      ensures fs == if fails then old(fs) else old(fs).(settled := old(fs).path, syncs := old(fs).syncs + 1)
      ensures history == old(history) + [fs]
    {
      if !fails {
        fs := fs.(settled := fs.path, syncs := fs.syncs + 1);
      }
      history := history + [fs];
    }

    /** Everything up to the rename: a synced temporary file, or nothing but a removed one. */
    method Stage(image: Image, stop: Stop) returns (staged: bool)
      modifies this
      ensures staged == !(stop.MakeDirectory? || stop.MakeTemp? || stop.Chmod? || stop.WriteTemp? || stop.SyncTemp?
        || stop.CloseTemp?)
      ensures staged ==> fs.temp == Some(Inode(Whole(image), true))
      ensures fs.path == old(fs).path && fs.settled == old(fs).settled && fs.syncs == old(fs).syncs
      ensures old(history) <= history && Untouched(history, |old(history)|, old(fs))
    {
      if stop.MakeDirectory? {
        return false;
      }
      CreateTemp(stop.MakeTemp?);
      if stop.MakeTemp? {
        return false;
      }
      if stop.Chmod? {
        RemoveTemp();
        return false;
      }
      Write(image, stop.WriteTemp?);
      if stop.WriteTemp? {
        RemoveTemp();
        return false;
      }
      Sync(stop.SyncTemp?);
      if stop.SyncTemp? || stop.CloseTemp? {
        RemoveTemp();
        return false;
      }
      staged := true;
    }

    /** The rename and the directory sync behind it. */
    method Publish(image: Image, stop: Stop) returns (ok: bool)
      requires fs.temp == Some(Inode(Whole(image), true))
      modifies this
      ensures ok == !(stop.RenameTemp? || stop.OpenDirectory? || stop.SyncDirectory? || stop.CloseDirectory?)
      ensures stop.RenameTemp? ==> fs.path == old(fs).path && fs.settled == old(fs).settled
      ensures !stop.RenameTemp? ==>
        fs.path == Some(Inode(Whole(image), true)) && fs.settled in {old(fs).settled, fs.path}
      ensures ok || stop.CloseDirectory? ==> fs.settled == fs.path
      ensures stop.OpenDirectory? || stop.SyncDirectory? ==> fs.settled == old(fs).settled
      ensures fs.syncs == old(fs).syncs + if ok || stop.CloseDirectory? then 1 else 0
      ensures old(history) <= history && forall i :: |old(history)| <= i < |history| ==>
        history[i].path in {old(fs).path, Some(Inode(Whole(image), true))}
          && history[i].settled in {old(fs).settled, Some(Inode(Whole(image), true))}
    {
      Rename(stop.RenameTemp?);
      if stop.RenameTemp? {
        RemoveTemp();
        return false;
      }
      if stop.OpenDirectory? {
        RemoveTemp();
        return false;
      }
      SyncDirectory(stop.SyncDirectory?);
      RemoveTemp();
      ok := !stop.SyncDirectory? && !stop.CloseDirectory?;
    }

    /** The deferred removal of the temporary file. */
    method RemoveTemp()
      modifies this
      ensures fs == old(fs).(temp := None)
      ensures history == old(history) + [fs]
    {
      fs := fs.(temp := None);
      history := history + [fs];
    }
  }

  /** From `from` on, no system call changed what the state path names. */
  ghost predicate Untouched(history: seq<FileSystem>, from: nat, fs: FileSystem) {
    from <= |history| && forall i :: from <= i < |history| ==>
      history[i].path == fs.path && history[i].settled == fs.settled
  }

  /** Every crash leaves one of the earlier readings or a file that loads as `l`. */
  ghost predicate CrashesTo(fs: FileSystem, before: set<Option<Content>>, l: Ledger) {
    forall found <- CrashReadings(fs) :: found in before || Opened(found) == Some(l)
  }

  /** What crashes could leave at each system call from `from` on. */
  ghost predicate Trail(history: seq<FileSystem>, from: nat, before: set<Option<Content>>, l: Ledger) {
    from <= |history| && forall i :: from <= i < |history| ==> CrashesTo(history[i], before, l)
  }

  /** From a steady file system a crash finds the visible ledger or the settled one, and nothing else. */
  lemma SteadyCrashes(fs: FileSystem)
    requires Steady(fs)
    ensures forall found <- CrashReadings(fs) ::
      Opened(found) in {Opened(EntryContent(fs.path)), Opened(EntryContent(fs.settled))}
    ensures forall entry <- {fs.path, fs.settled} :: EntryContent(entry) in CrashReadings(fs)
  {
  }

  /** Any mix of the old entries and the new synced file crashes to one of the two. */
  lemma MixtureCrashes(fs: FileSystem, start: FileSystem, image: Image, l: Ledger)
    requires Load(image) == Some(l)
    requires fs.path in {start.path, Some(Inode(Whole(image), true))}
    requires fs.settled in {start.settled, Some(Inode(Whole(image), true))}
    ensures CrashesTo(fs, CrashReadings(start), l)
  {
  }

  // ----- the store -----

  class Store {
    const env: Environment
    const disk: Disk
    var records: set<Membership>
    var groups: Bindings
    var absences: map<Membership, int>

    ghost function Memory(): Ledger
      reads this
    {
      Ledger(records, groups, absences)
    }

    ghost function Snapshot(): Books
      requires Decodable()
      reads this, disk
    {
      Books(Memory(), FromDisk(), FromSettled(), disk.fs.syncs)
    }

    /** The ledger a restart would load now. */
    ghost function FromDisk(): Ledger
      requires Decodable()
      reads disk
    {
      Opened(EntryContent(disk.fs.path)).value
    }

    /** The ledger a restart would load after a power failure. */
    ghost function FromSettled(): Ledger
      requires Decodable()
      reads disk
    {
      Opened(EntryContent(disk.fs.settled)).value
    }

    /** Both entries are synced files that `Open` accepts, or missing. */
    ghost predicate Decodable()
      reads disk
    {
      Steady(disk.fs)
    }

    ghost predicate Valid()
      reads this, disk
    {
      && Memory().WellFormed()
      && Decodable()
    }

    constructor (env: Environment, disk: Disk, l: Ledger)
      ensures this.env == env && this.disk == disk && Memory() == l
    {
      this.env := env;
      this.disk := disk;
      records, groups, absences := l.records, l.groups, l.absences;
    }

    /** A missing file is an empty ledger, an unreadable one an error. */
    static method Open(env: Environment, disk: Disk) returns (s: Store?)
      ensures s != null ==>
        && fresh(s) && s.env == env && s.disk == disk
        && Opened(EntryContent(disk.fs.path)) == Some(s.Memory())
      ensures s != null && Steady(disk.fs) ==> s.Valid()
      ensures s == null <==> Opened(EntryContent(disk.fs.path)).None?
    {
      if disk.fs.path.None? {
        s := new Store(env, disk, EMPTY);
        return;
      }
      if disk.fs.path.value.content.Torn? {
        return null;
      }
      var image := disk.fs.path.value.content.image;
      if image.version != 2 && image.version != 3 {
        return null;
      }
      s := new Store(env, disk,
        Ledger(LoadMemberships(image.memberships), LoadMappings(image.mappings), LoadAbsences(image.absences)));
    }

    method BuildImage() returns (image: Image)
      requires Memory().WellFormed()
      ensures IsImage(image, Memory())
    {
      var memberships := SortedListing(records, MembershipIds);
      forall g, h | g in groups.Values && h in groups.Values && MappingIds(g) == MappingIds(h)
        ensures g == h
      {
        SameMappingIds(g, h);
        assert groups[g.Key()] == g && groups[h.Key()] == h;
      }
      var mappings := SortedListing(groups.Values, MappingIds);
      var all := set m | m in absences :: Absence(m, absences[m]);
      forall a, b | a in all && b in all && AbsenceIds(a) == AbsenceIds(b)
        ensures a == b
      {
        SameMembershipIds(a.m, b.m);
      }
      var counts := SortedListing(all, AbsenceIds);
      image := Image(3, memberships, mappings, counts);
    }

    /**
     Writes the ledger, stopping where the environment says. Stopped anywhere, a
     crash finds a ledger that was there before or the whole new one.
    */
    method SaveLocked() returns (ok: bool)
      requires Memory().WellFormed() && Decodable()
      modifies env`tick, disk
      ensures env.tick == old(env.tick) + 1
      ensures ok == Acknowledged(env.fault(old(env.tick)))
      ensures Decodable() && FromDisk() == (if env.fault(old(env.tick)).Before? then old(FromDisk()) else Memory())
      ensures FromSettled() == if Settling(env.fault(old(env.tick))) then Memory() else old(FromSettled())
      ensures disk.fs.syncs == old(disk.fs.syncs) + if Settling(env.fault(old(env.tick))) then 1 else 0
      ensures Trail(disk.history, |old(disk.history)|, old(CrashReadings(disk.fs)), Memory())
      ensures ok ==> forall found <- CrashReadings(disk.fs) :: Opened(found) == Some(Memory())
    {
      ghost var start := disk.fs;
      ghost var before := CrashReadings(start);
      ghost var l := Memory();
      var f := env.Next();
      var stop := StopOf(f);
      var image := BuildImage();
      LoadImage(image, l);
      ok := disk.Stage(image, stop);
      if ok {
        ok := disk.Publish(image, stop);
      }
      forall i | |old(disk.history)| <= i < |disk.history|
        ensures CrashesTo(disk.history[i], before, l)
      {
        MixtureCrashes(disk.history[i], start, image, l);
      }
    }

    predicate IsManaged(m: Membership)
      reads this
    {
      m in records
    }

    function Group(k: BindingKey): Option<GroupMapping>
      reads this
    {
      if k in groups then Some(groups[k]) else None
    }

    /** The mappings in key order. */
    method GroupMappings() returns (r: seq<GroupMapping>)
      requires Valid()
      ensures SortedBy(r, MappingIds) && Lists(r, groups.Values)
    {
      forall g, h | g in groups.Values && h in groups.Values && MappingIds(g) == MappingIds(h)
        ensures g == h
      {
        SameMappingIds(g, h);
        assert groups[g.Key()] == g && groups[h.Key()] == h;
      }
      r := SortedListing(groups.Values, MappingIds);
    }

    method MarkManaged(m: Membership) returns (ok: bool)
      requires Valid()
      modifies this, env`tick, disk
      ensures Valid() && env.tick == old(env.tick) + 1
      ensures ok == Acknowledged(env.fault(old(env.tick)))
      ensures Snapshot() == Save(old(Snapshot()), Mark(old(Memory()), m), env.fault(old(env.tick)))
      ensures Trail(disk.history, |old(disk.history)|, old(CrashReadings(disk.fs)), Mark(old(Memory()), m))
    {
      var existed := m in records;
      records := records + {m};
      ok := SaveLocked();
      if !ok && !existed {
        records := records - {m};
      }
    }

    method UnmarkManaged(m: Membership) returns (ok: bool)
      requires Valid()
      modifies this, env`tick, disk
      ensures Valid() && env.tick == old(env.tick) + 1
      ensures ok == Acknowledged(env.fault(old(env.tick)))
      ensures Snapshot() == Save(old(Snapshot()), Unmark(old(Memory()), m), env.fault(old(env.tick)))
      ensures Trail(disk.history, |old(disk.history)|, old(CrashReadings(disk.fs)), Unmark(old(Memory()), m))
    {
      var existed := m in records;
      records := records - {m};
      ok := SaveLocked();
      if !ok && existed {
        records := records + {m};
      }
    }

    method PutGroup(g: GroupMapping) returns (ok: bool)
      requires Valid()
      modifies this, env`tick, disk
      ensures Valid() && env.tick == old(env.tick) + 1
      ensures ok == Acknowledged(env.fault(old(env.tick)))
      ensures Snapshot() == Save(old(Snapshot()), Put(old(Memory()), g), env.fault(old(env.tick)))
      ensures Trail(disk.history, |old(disk.history)|, old(CrashReadings(disk.fs)), Put(old(Memory()), g))
    {
      var k := g.Key();
      var previous := Group(k);
      groups := groups[k := g];
      ok := SaveLocked();
      if !ok {
        if previous.Some? {
          groups := groups[k := previous.value];
        } else {
          groups := groups - {k};
        }
        assert groups == old(groups);
      }
    }

    /** Deleting what is not there succeeds without a save. */
    method DeleteGroup(k: BindingKey) returns (ok: bool)
      requires Valid()
      modifies this, env`tick, disk
      ensures Valid()
      ensures k !in old(groups) ==> ok && Snapshot() == old(Snapshot()) && env.tick == old(env.tick)
      ensures k in old(groups) ==> env.tick == old(env.tick) + 1
      ensures k in old(groups) ==> ok == Acknowledged(env.fault(old(env.tick)))
      ensures k in old(groups) ==>
        Snapshot() == Save(old(Snapshot()), Delete(old(Memory()), k), env.fault(old(env.tick)))
      ensures Trail(disk.history, |old(disk.history)|, old(CrashReadings(disk.fs)), Delete(old(Memory()), k))
    {
      if k !in groups {
        return true;
      }
      var previous := groups[k];
      groups := groups - {k};
      ok := SaveLocked();
      if !ok {
        groups := groups[k := previous];
        assert groups == old(groups);
      }
    }

    /** Rekeys a mapping; callers never pass a key that stays the same. */
    method MoveGroup(from: BindingKey, source: Id, native: Id, path: string) returns (ok: bool)
      requires Valid()
      requires from.source != source
      modifies this, env`tick, disk
      ensures Valid()
      ensures var next := Move(old(Memory()), from, source, native, path);
        if next.None? then !ok && Snapshot() == old(Snapshot()) && env.tick == old(env.tick)
          && disk.history == old(disk.history)
        else
          && env.tick == old(env.tick) + 1
          && ok == Acknowledged(env.fault(old(env.tick)))
          && Snapshot() == Save(old(Snapshot()), next.value, env.fault(old(env.tick)))
          && Trail(disk.history, |old(disk.history)|, old(CrashReadings(disk.fs)), next.value)
    {
      var to := BindingKey(from.provider, from.rule, source);
      if from !in groups {
        return false;
      }
      var mapping := groups[from];
      if to in groups {
        var existing := groups[to];
        if existing.targetGroupId != mapping.targetGroupId || existing.targetGroupPath != mapping.targetGroupPath {
          return false;
        }
        ok := Merge(from, to, existing.(sourceNativeId := native, sourceGroupPath := path));
        return;
      }
      ok := Rekey(from, to, Canonical(mapping, source, native, path));
    }

    /** Drops one mapping for another that has its target; a failed save restores both. */
    method Merge(from: BindingKey, to: BindingKey, merged: GroupMapping) returns (ok: bool)
      requires Valid() && from in groups && to in groups && from != to && merged.Key() == to
      modifies this`groups, env`tick, disk
      ensures Valid() && env.tick == old(env.tick) + 1 && ok == Acknowledged(env.fault(old(env.tick)))
      ensures var next := old(Memory()).(groups := old(groups)[to := merged] - {from});
        && Snapshot() == Save(old(Snapshot()), next, env.fault(old(env.tick)))
        && Trail(disk.history, |old(disk.history)|, old(CrashReadings(disk.fs)), next)
    {
      var mapping, existing := groups[from], groups[to];
      groups := groups[to := merged];
      groups := groups - {from};
      ok := SaveLocked();
      if !ok {
        groups := groups[from := mapping];
        groups := groups[to := existing];
        assert groups == old(groups);
      }
    }

    /** Puts a mapping under a new key; a failed save puts it back. */
    method Rekey(from: BindingKey, to: BindingKey, mapping: GroupMapping) returns (ok: bool)
      requires Valid() && from in groups && to !in groups && mapping.Key() == to
      modifies this`groups, env`tick, disk
      ensures Valid() && env.tick == old(env.tick) + 1 && ok == Acknowledged(env.fault(old(env.tick)))
      ensures var next := old(Memory()).(groups := (old(groups) - {from})[to := mapping]);
        && Snapshot() == Save(old(Snapshot()), next, env.fault(old(env.tick)))
        && Trail(disk.history, |old(disk.history)|, old(CrashReadings(disk.fs)), next)
    {
      var before := groups[from];
      groups := groups - {from};
      groups := groups[to := mapping];
      ok := SaveLocked();
      if !ok {
        groups := groups - {to};
        groups := groups[from := before];
        assert groups == old(groups);
      }
    }

    /** Counts one more absence; confirmed from the second on. */
    method ConfirmAbsent(m: Membership) returns (confirmed: bool, ok: bool)
      requires Valid()
      modifies this, env`tick, env`log, disk
      ensures Valid() && env.tick == old(env.tick) + 1
      ensures ok == Acknowledged(env.fault(old(env.tick)))
      ensures confirmed == (ok && old(Memory()).Observations(m) + 1 >= 2)
      ensures Snapshot() == Save(old(Snapshot()), Observe(old(Memory()), m), env.fault(old(env.tick)))
      ensures env.log == old(env.log) + if env.fault(old(env.tick)).Before? then [] else [Observed(m)]
      ensures Trail(disk.history, |old(disk.history)|, old(CrashReadings(disk.fs)), Observe(old(Memory()), m))
    {
      var existed := m in absences;
      var previous := if existed then absences[m] else 0;
      absences := absences[m := previous + 1];
      ghost var f := env.fault(env.tick);
      assert Memory() == Observe(old(Memory()), m);
      ok := SaveLocked();
      if !f.Before? {
        env.Record(Observed(m));
      }
      if !ok {
        if existed {
          absences := absences[m := previous];
        } else {
          absences := absences - {m};
        }
        assert absences == old(absences);
      }
      confirmed := ok && previous + 1 >= 2;
    }

    /** Forgets an absence; a membership without one needs no save. */
    method ResetAbsent(m: Membership) returns (ok: bool)
      requires Valid()
      modifies this, env`tick, env`log, disk
      ensures Valid()
      ensures m !in old(absences) ==> ok && Snapshot() == old(Snapshot()) && env.tick == old(env.tick)
      ensures m in old(absences) ==> env.tick == old(env.tick) + 1
      ensures m in old(absences) ==> ok == Acknowledged(env.fault(old(env.tick)))
      ensures m in old(absences) ==>
        Snapshot() == Save(old(Snapshot()), Clear(old(Memory()), m), env.fault(old(env.tick)))
      ensures env.log == old(env.log) + if ok then [Cleared(m)] else []
      ensures Trail(disk.history, |old(disk.history)|, old(CrashReadings(disk.fs)), Clear(old(Memory()), m))
    {
      if m !in absences {
        env.Record(Cleared(m));
        return true;
      }
      var previous := absences[m];
      absences := absences - {m};
      ok := SaveLocked();
      if ok {
        env.Record(Cleared(m));
      } else {
        absences := absences[m := previous];
        assert absences == old(absences);
      }
    }
  }

  lemma SameMembershipIds(m: Membership, n: Membership)
    requires MembershipIds(m) == MembershipIds(n)
    ensures m == n
  {
  }

  lemma SameMappingIds(g: GroupMapping, h: GroupMapping)
    requires MappingIds(g) == MappingIds(h)
    ensures g.Key() == h.Key()
  {
  }
}

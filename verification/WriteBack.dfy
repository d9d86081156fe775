/** Open files: a local copy per file, many handles, and an upload when a changed handle is closed. */
module WriteBack {
  import opened Basics
  import opened StoreLayout

  datatype HandleState = HandleState(id: Id, inode: nat, changed: bool)

  /**
   * Remote contents, local copies (an id names an inode, an inode holds bytes) with the directories made for them,
   * and the open handles.
   */
  datatype Files<H(==)> = Files(
    cloud: map<Id, Bytes>, local: map<Id, nat>, data: map<nat, Bytes>, next: nat, dirs: set<Path>,
    handles: map<H, HandleState>)

  predicate FileId(i: Id) {
    PlainId(i) && |i| >= 2
  }

  ghost predicate Valid<H>(s: Files<H>) {
    && (forall i :: i in s.cloud ==> FileId(i))
    && (forall i :: i in s.local ==> i in s.cloud && s.local[i] in s.data && House(i) in s.dirs)
    && (forall n :: n in s.data ==> n < s.next)
    && (forall i, j :: i in s.local && j in s.local && s.local[i] == s.local[j] ==> i == j)
    && (forall h :: h in s.handles ==> s.handles[h].id in s.local && s.handles[h].inode in s.data)
    && (forall h, i :: h in s.handles && i in s.local && s.handles[h].inode == s.local[i] ==> s.handles[h].id == i)
  }

  ghost predicate Dirty<H>(s: Files<H>, i: Id) {
    exists h :: h in s.handles && s.handles[h].id == i && s.handles[h].changed
  }

  function Content<H(==)>(s: Files<H>, i: Id): Bytes {
    if i in s.local && s.local[i] in s.data then s.data[s.local[i]] else if i in s.cloud then s.cloud[i] else []
  }

  /** Unsaved data exists only while a handle that will save it is open. */
  ghost predicate Safe<H>(s: Files<H>) {
    forall i :: i in s.local && i in s.cloud && Content(s, i) != s.cloud[i] ==> Dirty(s, i)
  }

  // ---------- the steps ----------

  /** A file under a fresh inode takes the name. */
  function Placed<H(==)>(s: Files<H>, i: Id, b: Bytes): Files<H> {
    s.(local := s.local[i := s.next], data := s.data[s.next := b], next := s.next + 1)
  }

  function SetContent<H(==)>(s: Files<H>, i: Id, b: Bytes): Files<H> {
    if i in s.local then s.(data := s.data[s.local[i] := b]) else s
  }

  /** A missing copy is fetched into directories made for it. */
  function Fetched<H(==)>(s: Files<H>, i: Id): Files<H> {
    if i in s.local then s else Placed(s, i, Content(s, i)).(dirs := s.dirs + Above(FileName(i)))
  }

  /** Creating by opening makes no directories. */
  predicate CannotOpen<H(==)>(s: Files<H>, i: Id, f: Flags) {
    f.create && i !in s.local && House(i) !in s.dirs
  }

  predicate WillBeCreated<H(==)>(s: Files<H>, i: Id, f: Flags) {
    f.create && (i !in s.local || f.exclusive)
  }

  /** The local copy as `openContent` leaves it, before the handle exists. */
  function Prepared<H(==)>(s: Files<H>, i: Id, f: Flags): Files<H> {
    var t := if WillBeCreated(s, i, f) then Placed(s, i, []) else Fetched(s, i);
    if f.truncate then SetContent(t, i, []) else t
  }

  ghost function Opened<H>(s: Files<H>, i: Id, f: Flags, h: H): Files<H> {
    if CannotOpen(s, i, f) then s
    else
      var t := Prepared(s, i, f);
      t.(handles := t.handles[h := HandleState(i, if i in t.local then t.local[i] else 0, WillBeCreated(s, i, f))])
  }

  ghost function Wrote<H>(s: Files<H>, h: H, off: nat, b: Bytes): Files<H> {
    if h in s.handles && s.handles[h].inode in s.data then
      var n := s.handles[h].inode;
      s.(data := s.data[n := WrittenAt(s.data[n], off, b)], handles := s.handles[h := s.handles[h].(changed := true)])
    else s
  }

  ghost function Closed<H>(s: Files<H>, h: H): Files<H> {
    if h in s.handles then
      var i := s.handles[h].id;
      s.(handles := s.handles - {h}, cloud := if s.handles[h].changed then s.cloud[i := Content(s, i)] else s.cloud)
    else s
  }

  function Truncated<H(==)>(s: Files<H>, i: Id, n: nat): Files<H> {
    var t := Fetched(s, i);
    SetContent(t, i, Resized(Content(t, i), n))
  }

  /** The entry goes from the drive, and its name from the local store; an inode in use stays. */
  function Deleted<H(==)>(s: Files<H>, i: Id): Files<H> {
    s.(cloud := s.cloud - {i}, local := s.local - {i})
  }

  ghost predicate Unused<H>(s: Files<H>, i: Id) {
    forall h :: h in s.handles ==> s.handles[h].id != i
  }

  // ---------- each step keeps the state valid ----------

  lemma PlacedValid<H>(s: Files<H>, i: Id, b: Bytes, dirs: set<Path>)
    requires Valid(s) && i in s.cloud && s.dirs <= dirs && House(i) in dirs
    ensures var t := Placed(s, i, b).(dirs := dirs);
            && Valid(t) && Content(t, i) == b
            && forall j :: j != i ==> Content(t, j) == Content(s, j)
  {
    hide FileId;
  }

  lemma FetchedValid<H>(s: Files<H>, i: Id)
    requires Valid(s) && i in s.cloud
    ensures var t := Fetched(s, i);
            && Valid(t) && i in t.local && t.cloud == s.cloud && t.handles == s.handles
            && forall j :: Content(t, j) == Content(s, j)
  {
    assert FileId(i);
    HouseIsUp(i);
    hide Above, FileName, House;
    if i !in s.local { PlacedValid(s, i, Content(s, i), s.dirs + Above(FileName(i))); }
  }

  lemma SetContentValid<H>(s: Files<H>, i: Id, b: Bytes)
    requires Valid(s) && i in s.local
    ensures Valid(SetContent(s, i, b)) && Content(SetContent(s, i, b), i) == b
    ensures forall j :: j != i ==> Content(SetContent(s, i, b), j) == Content(s, j)
  {
  }

  lemma PreparedValid<H>(s: Files<H>, i: Id, f: Flags)
    requires Valid(s) && i in s.cloud && !CannotOpen(s, i, f)
    ensures Valid(Prepared(s, i, f)) && i in Prepared(s, i, f).local
    ensures Content(Prepared(s, i, f), i) == if WillBeCreated(s, i, f) || f.truncate then [] else Content(s, i)
    ensures forall j :: j != i ==> Content(Prepared(s, i, f), j) == Content(s, j)
  {
    var t := if WillBeCreated(s, i, f) then Placed(s, i, []) else Fetched(s, i);
    if WillBeCreated(s, i, f) { PlacedValid(s, i, [], s.dirs); } else { FetchedValid(s, i); }
    assert WillBeCreated(s, i, f) ==> t == Placed(s, i, []).(dirs := s.dirs);
    hide Valid, Content, Fetched;
    if f.truncate { SetContentValid(t, i, []); }
  }

  lemma HandleAdded<H>(s: Files<H>, i: Id, h: H, changed: bool)
    requires Valid(s) && i in s.local && h !in s.handles
    ensures Valid(s.(handles := s.handles[h := HandleState(i, s.local[i], changed)]))
    ensures forall j :: Content(s.(handles := s.handles[h := HandleState(i, s.local[i], changed)]), j) == Content(s, j)
  {
  }

  lemma OpenValid<H>(s: Files<H>, i: Id, f: Flags, h: H)
    requires Valid(s) && i in s.cloud && h !in s.handles
    ensures Valid(Opened(s, i, f, h))
    ensures !CannotOpen(s, i, f) ==>
              && Content(Opened(s, i, f, h), i) == (if WillBeCreated(s, i, f) || f.truncate then [] else Content(s, i))
              && forall j :: j != i ==> Content(Opened(s, i, f, h), j) == Content(s, j)
  {
    if !CannotOpen(s, i, f) {
      PreparedValid(s, i, f);
      PreparedFrame(s, i, f);
      hide Prepared, WillBeCreated, Valid, Content;
      HandleAdded(Prepared(s, i, f), i, h, WillBeCreated(s, i, f));
    }
  }

  lemma PreparedFrame<H>(s: Files<H>, i: Id, f: Flags)
    ensures Prepared(s, i, f).handles == s.handles && Prepared(s, i, f).cloud == s.cloud
    ensures forall j :: j in s.local && j != i ==>
              j in Prepared(s, i, f).local && Prepared(s, i, f).local[j] == s.local[j]
    ensures i in s.local && !WillBeCreated(s, i, f) ==>
            i in Prepared(s, i, f).local && Prepared(s, i, f).local[i] == s.local[i]
    ensures forall j :: j in Prepared(s, i, f).local ==> j in s.local || j == i
  {
  }

  lemma WriteValid<H>(s: Files<H>, h: H, off: nat, b: Bytes)
    requires Valid(s) && h in s.handles
    ensures Valid(Wrote(s, h, off, b))
    ensures forall j :: j in s.local && s.local[j] != s.handles[h].inode ==>
              Content(Wrote(s, h, off, b), j) == Content(s, j)
  {
  }

  // ---------- where unsaved data can be ----------

  lemma DirtyAfterOpen<H>(s: Files<H>, i: Id, f: Flags, h: H, j: Id)
    requires h !in s.handles && !CannotOpen(s, i, f)
    ensures Dirty(Opened(s, i, f, h), j) <==> Dirty(s, j) || (j == i && WillBeCreated(s, i, f))
  {
    PreparedFrame(s, i, f);
    hide Prepared, WillBeCreated, CannotOpen;
    var t := Opened(s, i, f, h);
    assert t.handles == s.handles[h := t.handles[h]] && t.handles[h].id == i;
    assert t.handles[h].changed == WillBeCreated(s, i, f);
    if Dirty(s, j) {
      var g :| g in s.handles && s.handles[g].id == j && s.handles[g].changed;
      assert g in t.handles && t.handles[g] == s.handles[g];
    }
  }

  lemma OpenedNames<H>(s: Files<H>, i: Id, f: Flags, h: H)
    requires Valid(s) && i in s.cloud && h !in s.handles && !CannotOpen(s, i, f)
    ensures var t := Opened(s, i, f, h); t.cloud == s.cloud && t.local.Keys == s.local.Keys + {i}
  {
    PreparedFrame(s, i, f);
    PreparedValid(s, i, f);
    hide Prepared, WillBeCreated, CannotOpen, Valid;
  }

  /** Opening is safe unless it empties a copy that nobody is going to upload. */
  lemma OpenSafe<H>(s: Files<H>, i: Id, f: Flags, h: H)
    requires Valid(s) && Safe(s) && i in s.cloud && h !in s.handles
    ensures Safe(Opened(s, i, f, h)) <==> !f.truncate || WillBeCreated(s, i, f) || s.cloud[i] == [] || Dirty(s, i)
  {
    var t := Opened(s, i, f, h);
    CannotMeansCreate(s, i, f);
    if !CannotOpen(s, i, f) {
      OpenValid(s, i, f, h);
      OpenedNames(s, i, f, h);
      ContentElsewhere(s, i);
      hide Valid, Content, Opened, WillBeCreated, CannotOpen, Dirty;
      forall j
        ensures Dirty(t, j) <==> Dirty(s, j) || (j == i && WillBeCreated(s, i, f))
      {
        DirtyAfterOpen(s, i, f, h, j);
      }
    }
  }

  lemma ContentElsewhere<H>(s: Files<H>, i: Id)
    requires i in s.cloud
    ensures i !in s.local ==> Content(s, i) == s.cloud[i]
  {
  }

  lemma CannotMeansCreate<H>(s: Files<H>, i: Id, f: Flags)
    ensures CannotOpen(s, i, f) ==> WillBeCreated(s, i, f)
  {
  }

  lemma WriteSafe<H>(s: Files<H>, h: H, off: nat, b: Bytes)
    requires Valid(s) && Safe(s) && h in s.handles
    ensures Safe(Wrote(s, h, off, b))
  {
    var t := Wrote(s, h, off, b);
    WriteValid(s, h, off, b);
    assert h in t.handles && t.handles[h].changed;
    forall j | Dirty(s, j)
      ensures Dirty(t, j)
    {
      var g :| g in s.handles && s.handles[g].id == j && s.handles[g].changed;
      assert g in t.handles && t.handles[g].changed && t.handles[g].id == j;
    }
  }

  /** A close uploads the copy whenever no other handle is left to do it. */
  lemma CloseSafe<H>(s: Files<H>, h: H)
    requires Valid(s) && Safe(s) && h in s.handles
    ensures Valid(Closed(s, h)) && Safe(Closed(s, h))
  {
    var t := Closed(s, h);
    forall j | Dirty(s, j) && !(j == s.handles[h].id && s.handles[h].changed)
      ensures Dirty(t, j)
    {
      var g :| g in s.handles && s.handles[g].id == j && s.handles[g].changed;
      assert g in t.handles && g != h;
    }
  }

  /** Changing the size by name is safe exactly if the result is the remote content or a changed handle is open. */
  lemma TruncateSafe<H>(s: Files<H>, i: Id, n: nat)
    requires Valid(s) && Safe(s) && i in s.cloud
    ensures Valid(Truncated(s, i, n))
    ensures Safe(Truncated(s, i, n)) <==> Resized(Content(s, i), n) == s.cloud[i] || Dirty(s, i)
  {
    var t := Truncated(s, i, n);
    var u := Fetched(s, i);
    FetchedValid(s, i);
    SetContentValid(u, i, Resized(Content(u, i), n));
    hide Valid, Content, Fetched;
    assert t.handles == s.handles && t.cloud == s.cloud;
    assert forall j :: Dirty(t, j) == Dirty(s, j);
    assert i in t.local && Content(t, i) == Resized(Content(s, i), n);
  }

  /** Deleting a file leaves no handle without its file exactly if none is open on it. */
  lemma DeleteValid<H>(s: Files<H>, i: Id)
    requires Valid(s) && i in s.cloud
    ensures Valid(Deleted(s, i)) <==> Unused(s, i)
    ensures forall j :: j != i ==> Content(Deleted(s, i), j) == Content(s, j)
  {
    hide FileId, House;
    var t := Deleted(s, i);
    if !Unused(s, i) {
      var h :| h in s.handles && s.handles[h].id == i;
      assert h in t.handles && t.handles[h].id !in t.local;
    }
  }

  lemma DeleteSafe<H>(s: Files<H>, i: Id)
    requires Safe(s)
    ensures Safe(Deleted(s, i))
  {
    var t := Deleted(s, i);
    forall j | j in t.local && j in t.cloud && Content(t, j) != t.cloud[j]
      ensures Dirty(t, j)
    {
      var h :| h in s.handles && s.handles[h].id == j && s.handles[h].changed;
      assert h in t.handles && t.handles[h] == s.handles[h];
    }
  }

  /** Once every handle is closed, every local copy is what the drive holds. */
  lemma AllClosedSynced<H>(s: Files<H>)
    requires Valid(s) && Safe(s) && s.handles == map[]
    ensures forall i :: i in s.cloud ==> Content(s, i) == s.cloud[i]
  {
    forall i | i in s.local
      ensures Content(s, i) == s.cloud[i]
    {
      assert !Dirty(s, i);
    }
  }

  // ---------- runs ----------

  datatype Action<H> =
    | Open(id: Id, flags: Flags, h: H)
    | Read(h: H, off: nat, len: nat)
    | Write(h: H, off: nat, bytes: Bytes)
    | Close(h: H)
    | Truncate(id: Id, size: nat)
    | Delete(id: Id)

  /** Opens, truncations and deletions name known files; the other requests come through an open handle. */
  ghost predicate Enabled<H>(s: Files<H>, a: Action<H>) {
    match a
    case Open(i, _, h) => i in s.cloud && h !in s.handles
    case Truncate(i, _) => i in s.cloud
    case Delete(i) => i in s.cloud
    case _ => a.h in s.handles
  }

  /**
   * A request that empties or resizes a copy finds a changed handle open, or leaves the copy as the drive has it; a
   * deletion finds no handle open.
   */
  ghost predicate Careful<H>(s: Files<H>, a: Action<H>) {
    match a
    case Open(i, f, _) => i in s.cloud && (!f.truncate || WillBeCreated(s, i, f) || s.cloud[i] == [] || Dirty(s, i))
    case Truncate(i, n) => i in s.cloud && (Resized(Content(s, i), n) == s.cloud[i] || Dirty(s, i))
    case Delete(i) => Unused(s, i)
    case _ => true
  }

  ghost function Next<H>(s: Files<H>, a: Action<H>): Files<H> {
    match a
    case Open(i, f, h) => Opened(s, i, f, h)
    case Read(_, _, _) => s
    case Write(h, off, b) => Wrote(s, h, off, b)
    case Close(h) => Closed(s, h)
    case Truncate(i, n) => Truncated(s, i, n)
    case Delete(i) => Deleted(s, i)
  }

  ghost function BytesRead<H>(s: Files<H>, a: Action<H>): Bytes {
    if a.Read? && a.h in s.handles && s.handles[a.h].inode in s.data
    then Slice(s.data[s.handles[a.h].inode], a.off, a.len) else []
  }

  ghost function After<H>(s: Files<H>, run: seq<Action<H>>): Files<H>
    decreases run
  {
    if run == [] then s else After(Next(s, run[0]), run[1..])
  }

  ghost predicate EnabledRun<H>(s: Files<H>, run: seq<Action<H>>)
    decreases run
  {
    run == [] || (Enabled(s, run[0]) && EnabledRun(Next(s, run[0]), run[1..]))
  }

  ghost predicate CarefulRun<H>(s: Files<H>, run: seq<Action<H>>)
    decreases run
  {
    run == [] || (Careful(s, run[0]) && CarefulRun(Next(s, run[0]), run[1..]))
  }

  /** One request leaves every handle its file and unsaved data covered exactly when it is careful. */
  lemma StepSafe<H>(s: Files<H>, a: Action<H>)
    requires Valid(s) && Safe(s) && Enabled(s, a)
    ensures Valid(Next(s, a)) && Safe(Next(s, a)) <==> Careful(s, a)
    ensures a.Delete? || Valid(Next(s, a))
  {
    match a
    case Open(i, f, h) => OpenValid(s, i, f, h); OpenSafe(s, i, f, h);
    case Read(_, _, _) =>
    case Write(h, off, b) => WriteValid(s, h, off, b); WriteSafe(s, h, off, b);
    case Close(h) => CloseSafe(s, h);
    case Truncate(i, n) => TruncateSafe(s, i, n);
    case Delete(i) => DeleteValid(s, i); DeleteSafe(s, i);
  }

  /** Over every interleaving on any files and handles, unsaved data is covered by a handle that will save it. */
  lemma {:induction false} RunSafe<H>(s: Files<H>, run: seq<Action<H>>)
    requires Valid(s) && Safe(s) && EnabledRun(s, run) && CarefulRun(s, run)
    ensures Valid(After(s, run)) && Safe(After(s, run))
    decreases run
  {
    if run != [] {
      StepSafe(s, run[0]);
      RunSafe(Next(s, run[0]), run[1..]);
    }
  }

  // ---------- the same run on plain files ----------

  /** Files without copies: every request acts on the one content there is. */
  datatype PlainFiles<H(==)> = PlainFiles(files: map<Id, Bytes>, open: map<H, Id>)

  ghost function View<H>(s: Files<H>): PlainFiles<H> {
    PlainFiles(map i | i in s.cloud :: Content(s, i), map h | h in s.handles :: s.handles[h].id)
  }

  ghost function PlainNext<H>(p: PlainFiles<H>, a: Action<H>): PlainFiles<H> {
    match a
    case Open(i, f, h) => PlainFiles(if f.truncate then p.files[i := []] else p.files, p.open[h := i])
    case Read(_, _, _) => p
    case Write(h, off, b) =>
      if h in p.open && p.open[h] in p.files
      then p.(files := p.files[p.open[h] := WrittenAt(p.files[p.open[h]], off, b)]) else p
    case Close(h) => p.(open := p.open - {h})
    case Truncate(i, n) => if i in p.files then p.(files := p.files[i := Resized(p.files[i], n)]) else p
    case Delete(i) => p.(files := p.files - {i})
  }

  ghost function PlainRead<H>(p: PlainFiles<H>, a: Action<H>): Bytes {
    if a.Read? && a.h in p.open && p.open[a.h] in p.files then Slice(p.files[p.open[a.h]], a.off, a.len) else []
  }

  ghost function PlainAfter<H>(p: PlainFiles<H>, run: seq<Action<H>>): PlainFiles<H>
    decreases run
  {
    if run == [] then p else PlainAfter(PlainNext(p, run[0]), run[1..])
  }

  /** No handle points at a copy that has since been replaced. */
  ghost predicate Attached<H>(s: Files<H>) {
    forall h :: h in s.handles ==> s.handles[h].id in s.local && s.local[s.handles[h].id] == s.handles[h].inode
  }

  /**
   * The request behaves like on plain files: an open does not fail, replaces no copy that a handle has open, and
   * creates nothing anew over existing contents; nothing open is deleted.
   */
  ghost predicate LikePlain<H>(s: Files<H>, a: Action<H>) {
    match a
    case Open(i, f, _) =>
      && !CannotOpen(s, i, f)
      && (WillBeCreated(s, i, f) ==> Unused(s, i) && (f.truncate || Content(s, i) == []))
    case Delete(i) => Unused(s, i)
    case _ => true
  }

  ghost predicate PlainRun<H>(s: Files<H>, run: seq<Action<H>>)
    decreases run
  {
    run == [] || (LikePlain(s, run[0]) && PlainRun(Next(s, run[0]), run[1..]))
  }

  /** Opening leaves a handle at a replaced copy exactly if it replaces one that is open. */
  lemma OpenAttached<H>(s: Files<H>, i: Id, f: Flags, h: H)
    requires Valid(s) && Attached(s) && i in s.cloud && h !in s.handles && !CannotOpen(s, i, f)
    ensures Attached(Opened(s, i, f, h)) <==> !WillBeCreated(s, i, f) || Unused(s, i)
  {
    PreparedFrame(s, i, f);
    PreparedValid(s, i, f);
    var t := Opened(s, i, f, h);
    if WillBeCreated(s, i, f) && !Unused(s, i) {
      var g :| g in s.handles && s.handles[g].id == i;
      assert g in t.handles && t.handles[g] == s.handles[g] && t.local[i] == s.next;
    }
    hide Prepared, Valid;
  }

  lemma ViewUpdate<H>(s: Files<H>, t: Files<H>, i: Id, b: Bytes)
    requires i in s.cloud && t.cloud == s.cloud && Content(t, i) == b
    requires forall j :: j != i ==> Content(t, j) == Content(s, j)
    ensures View(t).files == View(s).files[i := b]
  {
    hide Content;
  }

  lemma WriteContent<H>(s: Files<H>, h: H, off: nat, b: Bytes)
    requires Valid(s) && Attached(s) && h in s.handles
    ensures var t, i := Wrote(s, h, off, b), s.handles[h].id;
            && i in s.cloud && Content(t, i) == WrittenAt(Content(s, i), off, b)
            && (forall j :: j != i ==> Content(t, j) == Content(s, j))
            && Attached(t)
  {
    hide WrittenAt;
  }

  lemma WriteView<H>(s: Files<H>, h: H, off: nat, b: Bytes)
    requires Valid(s) && Attached(s) && h in s.handles
    ensures View(Wrote(s, h, off, b)) == PlainNext(View(s), Write(h, off, b)) && Attached(Wrote(s, h, off, b))
  {
    WriteContent(s, h, off, b);
    var i := s.handles[h].id;
    hide Valid, Content, WrittenAt, Attached;
    ViewUpdate(s, Wrote(s, h, off, b), i, WrittenAt(Content(s, i), off, b));
  }

  lemma SamePut(m: map<Id, Bytes>, i: Id, x: Bytes, y: Bytes)
    ensures m[i := x] == m[i := y] <==> x == y
  {
    assert m[i := x][i] == x && m[i := y][i] == y;
  }

  lemma OpenedFiles<H>(s: Files<H>, i: Id, f: Flags, h: H)
    requires Valid(s) && i in s.cloud && h !in s.handles && !CannotOpen(s, i, f)
    ensures View(Opened(s, i, f, h)).files ==
            View(s).files[i := if WillBeCreated(s, i, f) || f.truncate then [] else Content(s, i)]
    ensures View(Opened(s, i, f, h)).open == View(s).open[h := i]
  {
    OpenValid(s, i, f, h);
    PreparedFrame(s, i, f);
    hide Valid, Content, Prepared, WillBeCreated, CannotOpen;
    ViewUpdate(s, Opened(s, i, f, h), i, Content(Opened(s, i, f, h), i));
  }

  /** An open shows the plain file exactly when it does not fail and creates nothing over existing contents. */
  lemma OpenView<H>(s: Files<H>, i: Id, f: Flags, h: H)
    requires Valid(s) && i in s.cloud && h !in s.handles
    ensures View(Opened(s, i, f, h)) == PlainNext(View(s), Open(i, f, h)) <==>
            !CannotOpen(s, i, f) && (WillBeCreated(s, i, f) ==> f.truncate || Content(s, i) == [])
  {
    if CannotOpen(s, i, f) {
      assert h in PlainNext(View(s), Open(i, f, h)).open && h !in View(s).open;
      return;
    }
    OpenedFiles(s, i, f, h);
    ShownFile(s, i);
    hide Valid, Content, WillBeCreated, Opened, CannotOpen;
    var x := if WillBeCreated(s, i, f) || f.truncate then [] else Content(s, i);
    SamePut(View(s).files, i, x, if f.truncate then [] else Content(s, i));
    hide View;
  }

  lemma ShownFile<H>(s: Files<H>, i: Id)
    requires i in s.cloud
    ensures i in View(s).files && View(s).files[i] == Content(s, i)
    ensures View(s).files == View(s).files[i := Content(s, i)]
  {
    hide Content;
  }

  lemma CloseView<H>(s: Files<H>, h: H)
    requires Valid(s) && h in s.handles
    ensures View(Closed(s, h)) == PlainNext(View(s), Close(h))
  {
    hide Valid, Content, Closed;
    CloseContent(s, h);
    assert forall g :: g in Closed(s, h).handles ==> Closed(s, h).handles[g] == s.handles[g];
  }

  /** An upload changes no content: the copy stays what the file is. */
  lemma CloseContent<H>(s: Files<H>, h: H)
    requires Valid(s) && h in s.handles
    ensures Closed(s, h).cloud.Keys == s.cloud.Keys && Closed(s, h).handles == s.handles - {h}
    ensures forall j :: Content(Closed(s, h), j) == Content(s, j)
  {
    hide FileId, House;
  }

  lemma TruncateContent<H>(s: Files<H>, i: Id, n: nat)
    requires Valid(s) && i in s.cloud
    ensures var t := Truncated(s, i, n);
            && Valid(t) && t.cloud == s.cloud && t.handles == s.handles
            && Content(t, i) == Resized(Content(s, i), n) && (forall j :: j != i ==> Content(t, j) == Content(s, j))
            && (Attached(s) ==> Attached(t))
  {
    FetchedValid(s, i);
    SetContentValid(Fetched(s, i), i, Resized(Content(Fetched(s, i), i), n));
    hide Valid, Content, Resized;
  }

  lemma TruncateView<H>(s: Files<H>, i: Id, n: nat)
    requires Valid(s) && i in s.cloud
    ensures View(Truncated(s, i, n)) == PlainNext(View(s), Truncate(i, n))
  {
    TruncateContent(s, i, n);
    hide Valid, Content, Resized, Truncated;
    ViewUpdate(s, Truncated(s, i, n), i, Resized(Content(s, i), n));
  }

  lemma DeleteView<H>(s: Files<H>, i: Id)
    requires Valid(s) && Attached(s) && i in s.cloud
    ensures View(Deleted(s, i)) == PlainNext(View(s), Delete(i))
    ensures Unused(s, i) ==> Attached(Deleted(s, i))
  {
    DeleteValid(s, i);
    hide Valid, Content;
  }

  lemma OpenPlain<H>(s: Files<H>, i: Id, f: Flags, h: H)
    requires Valid(s) && Attached(s) && i in s.cloud && h !in s.handles
    ensures Valid(Opened(s, i, f, h))
    ensures Attached(Opened(s, i, f, h)) && View(Opened(s, i, f, h)) == PlainNext(View(s), Open(i, f, h)) <==>
            LikePlain(s, Open(i, f, h))
  {
    hide Valid, Content, WillBeCreated, CannotOpen, Opened, View, PlainNext, Attached, Unused;
    OpenValid(s, i, f, h);
    OpenView(s, i, f, h);
    if !CannotOpen(s, i, f) { OpenAttached(s, i, f, h); }
  }

  /** Copies, handles and uploads are invisible to each single request exactly if it is one of those above. */
  lemma StepPlain<H>(s: Files<H>, a: Action<H>)
    requires Valid(s) && Attached(s) && Enabled(s, a)
    ensures Valid(Next(s, a)) && Attached(Next(s, a)) && View(Next(s, a)) == PlainNext(View(s), a) <==> LikePlain(s, a)
    ensures BytesRead(s, a) == PlainRead(View(s), a)
  {
    hide Valid, Content, Attached, View, Opened, Wrote, Closed, Truncated, Deleted, Unused, WillBeCreated, CannotOpen,
      BytesRead, PlainRead;
    ReadPlain(s, a);
    match a
    case Open(i, f, h) => OpenPlain(s, i, f, h);
    case Read(_, _, _) =>
    case Write(h, off, b) => WriteValid(s, h, off, b); WriteView(s, h, off, b);
    case Close(h) => CloseView(s, h); CloseKeeps(s, h);
    case Truncate(i, n) => TruncateView(s, i, n); TruncateContent(s, i, n);
    case Delete(i) => DeleteView(s, i); DeleteValid(s, i);
  }

  lemma ReadPlain<H>(s: Files<H>, a: Action<H>)
    requires Valid(s) && Attached(s) && Enabled(s, a)
    ensures BytesRead(s, a) == PlainRead(View(s), a)
  {
  }

  lemma CloseKeeps<H>(s: Files<H>, h: H)
    requires Valid(s) && Attached(s) && h in s.handles
    ensures Valid(Closed(s, h)) && Attached(Closed(s, h))
  {
    hide FileId, House;
  }

  /**
   * Nothing written is lost: after any run that ends with every handle closed, the drive holds what the same
   * requests leave in plain files.
   */
  lemma {:induction false} RunPlain<H>(s: Files<H>, run: seq<Action<H>>)
    requires Valid(s) && Attached(s) && EnabledRun(s, run) && PlainRun(s, run)
    ensures Valid(After(s, run)) && View(After(s, run)) == PlainAfter(View(s), run)
    decreases run
  {
    if run != [] {
      StepPlain(s, run[0]);
      RunPlain(Next(s, run[0]), run[1..]);
    }
  }

  lemma NothingLost<H>(s: Files<H>, run: seq<Action<H>>)
    requires Valid(s) && Safe(s) && Attached(s) && EnabledRun(s, run) && CarefulRun(s, run) && PlainRun(s, run)
    requires After(s, run).handles == map[]
    ensures After(s, run).cloud == PlainAfter(View(s), run).files
  {
    RunSafe(s, run);
    RunPlain(s, run);
    AllClosedSynced(After(s, run));
  }

  // ---------- where creating works ----------

  /** Only fetching a copy makes directories, and none ever goes. */
  lemma DirsAfter<H>(s: Files<H>, a: Action<H>)
    ensures Next(s, a).dirs == match a
              case Open(i, f, _) => if f.create || i in s.local then s.dirs else s.dirs + Above(FileName(i))
              case Truncate(i, _) => if i in s.local then s.dirs else s.dirs + Above(FileName(i))
              case _ => s.dirs
  {
  }

  lemma {:induction false} DirsStay<H>(s: Files<H>, run: seq<Action<H>>)
    ensures s.dirs <= After(s, run).dirs
    decreases run
  {
    if run != [] {
      DirsAfter(s, run[0]);
      DirsStay(Next(s, run[0]), run[1..]);
    }
  }

  /** So a file can be created for good once its directory is there. */
  lemma CreatableStays<H>(s: Files<H>, run: seq<Action<H>>, i: Id, f: Flags)
    requires House(i) in s.dirs
    ensures !CannotOpen(After(s, run), i, f)
  {
    DirsStay(s, run);
  }

  // ---------- inputs on which the code does less ----------

  /** A new file of an untouched store cannot be opened, although the drive has it. */
  lemma NewFileFails(i: Id, b: Bytes, f: Flags, h: nat)
    requires FileId(i) && |i| > 2 && f.create
    ensures var s: Files<nat> := Files(map[i := b], map[], map[], 0, {}, map[]);
            Valid(s) && Safe(s) && Enabled(s, Open(i, f, h)) && CannotOpen(s, i, f) && Next(s, Open(i, f, h)) == s
  {
  }

  ghost function CleanCopy(): Files<nat> {
    Files(map["id" := [1]], map["id" := 0], map[0 := [1]], 1, {[]}, map[])
  }

  lemma CleanCopyIsSafe()
    ensures var s := CleanCopy();
            && Valid(s) && Safe(s) && "id" in s.cloud && s.cloud["id"] == Content(s, "id") == [1] && "id" in s.local
            && s.handles == map[] && (forall j :: !Dirty(s, j))
  {
  }

  /** Emptying a clean copy, by opening or by name, leaves it different from the drive with nobody to upload it. */
  lemma CleanCopyEmptied()
    ensures !Safe(Next(CleanCopy(), Open("id", Flags(true, false, false, true), 0)))
    ensures !Safe(Next(CleanCopy(), Truncate("id", 0)))
  {
    hide CleanCopy, Valid, Safe, Opened, Truncated, Content, Dirty;
    CleanCopyIsSafe();
    assert Resized([1], 0) == [];
    OpenSafe(CleanCopy(), "id", Flags(true, false, false, true), 0);
    TruncateSafe(CleanCopy(), "id", 0);
  }

  /** Opening with O_CREAT a file that has no copy shows it empty. */
  lemma UnfetchedShownEmpty()
    ensures var s: Files<nat> := Files(map["id" := [1]], map[], map[], 0, {[]}, map[]);
            && Valid(s) && Safe(s)
            && var open := Open("id", Flags(false, true, false, false), 0);
            View(Next(s, open)) != PlainNext(View(s), open)
  {
    var s: Files<nat> := Files(map["id" := [1]], map[], map[], 0, {[]}, map[]);
    OpenView(s, "id", Flags(false, true, false, false), 0);
  }
}

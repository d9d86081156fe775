/** The file handles and the store behind them, each method one step of the write-back protocol. */
module FileHandles {
  import opened Basics
  import opened StoreLayout
  import opened ContentStore
  import opened WriteBack

  class FileHandle {
    const id: Id
    var inode: Option<nat>
    var changed: bool

    constructor (id: Id, inode: nat, changed: bool)
      ensures this.id == id && this.inode == Some(inode) && this.changed == changed
    {
      this.id, this.inode, this.changed := id, Some(inode), changed;
    }

    ghost function State(): HandleState
      reads this
    {
      HandleState(id, if inode.Some? then inode.value else 0, changed)
    }
  }

  // ---------- the protocol's state and the store's ----------

  ghost function StateOf(cloud: map<Id, Bytes>, v: Volume, handles: map<FileHandle, HandleState>): Files<FileHandle> {
    Files(cloud, Index(v), v.data, v.next, v.disk.dirs, handles)
  }

  /** No id of the drive is ever in the way of another. */
  lemma NeverBlocked(cloud: map<Id, Bytes>, v: Volume, handles: map<FileHandle, HandleState>, i: Id)
    requires Valid(StateOf(cloud, v, handles)) && Ok(v) && i in cloud
    ensures FileId(i) && !Blocked(v.disk, i) && FileName(i) !in v.disk.dirs
    ensures House(i) in v.disk.dirs ==> v.disk.dirs + Above(FileName(i)) == v.disk.dirs
    ensures House(i) in Above(FileName(i))
  {
    assert FileId(i);
    HouseStands(v.disk, i);
    HouseIsUp(i);
    assert forall j :: j in Index(v) ==> FileId(j);
  }

  lemma AddedState(cloud: map<Id, Bytes>, v: Volume, hs: map<FileHandle, HandleState>, i: Id, dirs: set<Path>, b: Bytes)
    requires Ok(v) && PlainId(i) && !Blocked(v.disk, i) && i !in Index(v) && dirs == v.disk.dirs + Above(FileName(i))
    ensures StateOf(cloud, Added(v, i, dirs, b), hs) == Placed(StateOf(cloud, v, hs), i, b).(dirs := dirs)
  {
    hide Ok, Index, Blocked, Above, FileName, PlainId;
    AddedFacts(v, i, dirs, b);
  }

  lemma RewrittenState(cloud: map<Id, Bytes>, v: Volume, hs: map<FileHandle, HandleState>, i: Id, b: Bytes)
    requires Ok(v)
    ensures StateOf(cloud, Rewritten(v, i, b), hs) == SetContent(StateOf(cloud, v, hs), i, b)
  {
    hide Ok, Index;
    if i in Index(v) { RewrittenFacts(v, i, b); }
  }

  /** Fetching a missing copy is what createFile does with the drive's bytes. */
  lemma FetchedState(cloud: map<Id, Bytes>, v: Volume, hs: map<FileHandle, HandleState>, i: Id)
    requires Valid(StateOf(cloud, v, hs)) && Ok(v) && i in cloud && i !in Index(v)
    ensures Ok(Made(v, i, cloud[i])) && StateOf(cloud, Made(v, i, cloud[i]), hs) == Fetched(StateOf(cloud, v, hs), i)
  {
    hide Ok, Index, Blocked, Above, FileName, Valid, PlainId, House;
    NeverBlocked(cloud, v, hs, i);
    MadeFacts(v, i, cloud[i]);
    AddedState(cloud, v, hs, i, v.disk.dirs + Above(FileName(i)), cloud[i]);
  }

  /** The volume openContent leaves before it opens the file. */
  ghost function BeforeOpen(cloud: map<Id, Bytes>, v: Volume, i: Id, f: Flags): Volume {
    if f.create then if f.exclusive && i in Index(v) then Unnamed(v, i) else v
    else if i in Index(v) || i !in cloud then v
    else Made(v, i, cloud[i])
  }

  /** An existing or fetched copy is opened as it is, or emptied. */
  lemma OpenExisting(cloud: map<Id, Bytes>, v: Volume, hs: map<FileHandle, HandleState>, i: Id, f: Flags)
    requires Ok(v) && i in Index(v) && !(f.create && f.exclusive)
    ensures OpenResult(v, i, f) == File(Index(v)[i])
    ensures StateOf(cloud, OpenVolume(v, i, f), hs) ==
            var s := StateOf(cloud, v, hs); if f.truncate then SetContent(s, i, []) else s
  {
    hide Ok, Index, Rewritten;
    RewrittenState(cloud, v, hs, i, []);
  }

  /** A missing copy is created by opening if its directory is there, and not otherwise. */
  lemma OpenMissing(cloud: map<Id, Bytes>, v: Volume, hs: map<FileHandle, HandleState>, i: Id, f: Flags)
    requires Ok(v) && PlainId(i) && FileName(i) !in v.disk.dirs && !Blocked(v.disk, i) && i !in Index(v) && f.create
    requires House(i) in v.disk.dirs ==> v.disk.dirs + Above(FileName(i)) == v.disk.dirs
    ensures House(i) !in v.disk.dirs ==> OpenResult(v, i, f) == NoFile && OpenVolume(v, i, f) == v
    ensures House(i) in v.disk.dirs ==>
              && OpenResult(v, i, f) == File(v.next)
              && StateOf(cloud, OpenVolume(v, i, f), hs) == Placed(StateOf(cloud, v, hs), i, [])
  {
    hide Ok, Index, Blocked, Above, FileName, House, PlainId;
    if House(i) in v.disk.dirs { AddedState(cloud, v, hs, i, v.disk.dirs, []); }
  }

  /** The steps of openContent on the disk are the protocol's step. */
  lemma OpenSteps(cloud: map<Id, Bytes>, v: Volume, hs: map<FileHandle, HandleState>, i: Id, f: Flags)
    requires Valid(StateOf(cloud, v, hs)) && Ok(v) && i in cloud
    ensures var s, w := StateOf(cloud, v, hs), BeforeOpen(cloud, v, i, f);
            && Ok(w)
            && (CannotOpen(s, i, f) <==> OpenResult(w, i, f) == NoFile)
            && (CannotOpen(s, i, f) ==> OpenVolume(w, i, f) == v)
            && (!CannotOpen(s, i, f) ==>
                  && OpenResult(w, i, f).File?
                  && StateOf(cloud, OpenVolume(w, i, f), hs) == Prepared(s, i, f)
                  && i in Prepared(s, i, f).local && Prepared(s, i, f).local[i] == OpenResult(w, i, f).inode)
  {
    hide Ok, Index, Valid, Blocked, Above, FileName, House, PlainId, OpenResult, OpenVolume, Made;
    NeverBlocked(cloud, v, hs, i);
    if f.create && (f.exclusive || i !in Index(v)) {
      OpenFresh(cloud, v, hs, i, f);
    } else if i in Index(v) {
      OpenExisting(cloud, v, hs, i, f);
    } else {
      FetchedState(cloud, v, hs, i);
      MadeFacts(v, i, cloud[i]);
      OpenExisting(cloud, Made(v, i, cloud[i]), hs, i, f);
    }
  }

  lemma OpenFresh(cloud: map<Id, Bytes>, v: Volume, hs: map<FileHandle, HandleState>, i: Id, f: Flags)
    requires Valid(StateOf(cloud, v, hs)) && Ok(v) && i in cloud && f.create && (f.exclusive || i !in Index(v))
    ensures var s, w := StateOf(cloud, v, hs), BeforeOpen(cloud, v, i, f);
            && Ok(w)
            && (CannotOpen(s, i, f) ==> OpenResult(w, i, f) == NoFile && OpenVolume(w, i, f) == v)
            && (!CannotOpen(s, i, f) ==>
                  && OpenResult(w, i, f) == File(v.next)
                  && StateOf(cloud, OpenVolume(w, i, f), hs) == Prepared(s, i, f)
                  && i in Prepared(s, i, f).local && Prepared(s, i, f).local[i] == v.next)
  {
    hide Ok, Index, Valid, Blocked, Above, FileName, House, PlainId, OpenResult, OpenVolume, Unnamed, StateOf, Prepared,
      Placed;
    var s, w := StateOf(cloud, v, hs), BeforeOpen(cloud, v, i, f);
    NeverBlocked(cloud, v, hs, i);
    UnnamedFacts(v, i);
    BlockedLess(v, w, i);
    LocalHoused(s, i);
    StateFields(cloud, v, hs);
    OpenMissing(cloud, w, hs, i, f);
    CreatedPrepared(s, i, f);
    SamePlaced(cloud, v, hs, i);
  }

  lemma StateFields(cloud: map<Id, Bytes>, v: Volume, hs: map<FileHandle, HandleState>)
    ensures var s := StateOf(cloud, v, hs);
            s.cloud == cloud && s.local == Index(v) && s.dirs == v.disk.dirs && s.next == v.next
  {
  }

  /** What opening creates is empty already. */
  lemma CreatedPrepared(s: Files<FileHandle>, i: Id, f: Flags)
    ensures WillBeCreated(s, i, f) ==>
              && Prepared(s, i, f) == Placed(s, i, [])
              && i in Placed(s, i, []).local && Placed(s, i, []).local[i] == s.next
  {
  }

  /** A new file takes the name of a deleted one. */
  lemma SamePlaced(cloud: map<Id, Bytes>, v: Volume, hs: map<FileHandle, HandleState>, i: Id)
    requires Ok(v)
    ensures Placed(StateOf(cloud, Unnamed(v, i), hs), i, []) == Placed(StateOf(cloud, v, hs), i, [])
    ensures Unnamed(v, i).next == v.next
  {
    UnnamedFacts(v, i);
    hide Ok, Index;
    assert (Index(v) - {i})[i := v.next] == Index(v)[i := v.next];
  }

  lemma LocalHoused(s: Files<FileHandle>, i: Id)
    requires Valid(s)
    ensures i in s.local ==> House(i) in s.dirs
  {
  }

  lemma BlockedLess(v: Volume, w: Volume, i: Id)
    requires w == v || w == Unnamed(v, i)
    ensures !Blocked(v.disk, i) ==> !Blocked(w.disk, i)
    ensures w.disk.dirs == v.disk.dirs
  {
    if |i| > 2 {
      StoredIs(v.disk, i[..1]);
      StoredIs(w.disk, i[..1]);
    }
  }

  // ---------- the classes ----------

  /** The two maps agree on every id but i. */
  ghost predicate SameBut(a: map<Id, Bytes>, b: map<Id, Bytes>, i: Id) {
    forall j :: j != i ==> (j in a <==> j in b) && (j in a ==> a[j] == b[j])
  }

  class FileStore {
    var cloud: map<Id, Bytes>
    const cm: ContentManager
    ghost var open: set<FileHandle>

    ghost function Handles(): map<FileHandle, HandleState>
      reads this, open
    {
      map h | h in open :: h.State()
    }

    ghost function State(): Files<FileHandle>
      reads this, cm, open
    {
      StateOf(cloud, cm.Here(), Handles())
    }

    ghost predicate Coherent()
      reads this, cm, open
    {
      cm.Valid() && Valid(State()) && forall h :: h in open ==> h.inode.Some?
    }

    constructor (cloud: map<Id, Bytes>)
      requires forall i :: i in cloud ==> FileId(i)
      ensures Coherent() && fresh(cm) && State() == Files(cloud, map[], map[], 0, {}, map[])
    {
      this.cloud, open := cloud, {};
      cm := new ContentManager();
    }

    /**
     * Opens a file of the drive, fetching, creating or emptying its copy as the flags ask. It fails, and changes
     * nothing, exactly if it would have to create the copy in a directory that nobody has made.
     */
    method OpenContent(i: Id, f: Flags) returns (h: FileHandle?)
      requires Coherent() && i in cloud
      modifies this`open, cm
      ensures Coherent()
      ensures h == null <==> f.create && i !in old(State()).local && House(i) !in old(cm.dirs)
      ensures h == null ==> State() == old(State()) && open == old(open)
      ensures h != null ==> fresh(h) && open == old(open) + {h} && State() == Opened(old(State()), i, f, h)
      ensures h != null ==>
                var copied := i in old(cm.Content());
                && h.id == i && h.inode.Some? && h.inode.value in cm.data && i in cm.Content()
                && (h.changed <==> f.create && (!copied || f.exclusive))
                && cm.data[h.inode.value] == cm.Content()[i]
                && cm.Content()[i] == if f.truncate || h.changed then []
                                      else if copied then old(cm.Content())[i] else cloud[i]
      ensures SameBut(cm.Content(), old(cm.Content()), i)
    {
      hide Valid, Prepared, WillBeCreated, CannotOpen, Ok, Index, Contents;
      ghost var s := State();
      CannotMeans(s, i, f);
      var o, willBeCreated := OpenCopy(i, f);
      if o == NoFile { return null; }
      h := NewHandle(i, o.inode, willBeCreated);
      OpenValid(s, i, f, h);
    }

    /** The copy that a new handle is to point at, fetched, created or emptied on the way. */
    method OpenCopy(i: Id, f: Flags) returns (o: Opening, willBeCreated: bool)
      requires Coherent() && i in cloud
      modifies cm
      ensures cm.Valid() && Handles() == old(Handles())
      ensures var s := old(State());
              if CannotOpen(s, i, f) then o == NoFile && State() == s
              else
                && o.File? && State() == Prepared(s, i, f) && willBeCreated == WillBeCreated(s, i, f)
                && i in State().local && State().local[i] == o.inode
      ensures o.File? ==>
                var copied := i in old(cm.Content());
                && o.inode in cm.data && i in cm.Content() && cm.data[o.inode] == cm.Content()[i]
                && (willBeCreated <==> f.create && (!copied || f.exclusive))
                && cm.Content()[i] == if f.truncate || willBeCreated then []
                                      else if copied then old(cm.Content())[i] else cloud[i]
      ensures SameBut(cm.Content(), old(cm.Content()), i)
    {
      hide Valid, Prepared, WillBeCreated, CannotOpen, OpenResult, OpenVolume, Ok, Index, FileId, Contents, BeforeOpen;
      ghost var s, v, hs := State(), cm.Here(), Handles();
      OpenSteps(cloud, v, hs, i, f);
      willBeCreated := LocalCopy(i, f);
      PlainFile(s, i);
      o := cm.OpenFile(i, f);
      assert Handles() == hs;
    }

    method NewHandle(i: Id, inode: nat, changed: bool) returns (h: FileHandle)
      modifies this`open
      ensures fresh(h) && h.id == i && h.inode == Some(inode) && h.changed == changed && open == old(open) + {h}
      ensures Handles() == old(Handles())[h := HandleState(i, inode, changed)]
    {
      ghost var hs := Handles();
      h := new FileHandle(i, inode, changed);
      open := open + {h};
      assert forall g :: g in open && g != h ==> g.State() == hs[g];
    }

    ghost method Untrack(h: FileHandle)
      modifies this`open
      ensures open == old(open) - {h} && Handles() == old(Handles()) - {h}
    {
      ghost var hs := Handles();
      open := open - {h};
      assert forall g :: g in open ==> g.State() == hs[g];
    }

    /** Deletes, fetches or leaves the local copy; the answer says whether opening has to create it. */
    method LocalCopy(i: Id, f: Flags) returns (willBeCreated: bool)
      requires Coherent() && i in cloud
      modifies cm
      ensures cm.Here() == BeforeOpen(cloud, old(cm.Here()), i, f) && cm.Valid()
      ensures willBeCreated == WillBeCreated(old(State()), i, f)
      ensures willBeCreated <==> f.create && (i !in old(cm.Content()) || f.exclusive)
      ensures cm.Content() ==
              if willBeCreated then old(cm.Content()) - {i}
              else if i in old(cm.Content()) then old(cm.Content()) else old(cm.Content())[i := cloud[i]]
    {
      hide Valid, Prepared, CannotOpen, OpenResult, OpenVolume, Ok, Index, FileId, PlainId, Made, Unnamed, Blocked,
        Contents;
      ghost var v := cm.Here();
      FetchReady(cloud, v, Handles(), i);
      OpenSteps(cloud, v, Handles(), i, f);
      willBeCreated := false;
      var present := cm.Is(i);
      if f.create {
        if !present {
          willBeCreated := true;
        } else if f.exclusive {
          var deletion := cm.DeleteFile(i);
          willBeCreated := deletion == WasThere;
        }
      }
      if !willBeCreated {
        if !present {
          Fetch(i);
        }
      }
    }

    /** The drive's bytes go into a new local file. */
    method Fetch(i: Id)
      requires Coherent() && i in cloud
      modifies cm
      ensures cm.Here() == Made(old(cm.Here()), i, cloud[i]) && cm.Valid()
      ensures cm.Content() == old(cm.Content())[i := cloud[i]]
    {
      hide Valid, Ok, Index, Made, Unnamed, Blocked, PlainId, Pieces, Accepted, Lost, Contents;
      FetchReady(cloud, cm.Here(), Handles(), i);
      FullWritesOfOne(cloud[i]);
      var media := new Reader([cloud[i]], false);
      var outcome, lost := cm.CreateFile(i, media, [], None);
    }

    /** Reads through the handle's inode; interruptions and short reads do not show. */
    method Read(h: FileHandle, buf: array<Byte>, len: nat, off: nat, attempts: seq<Attempt>) returns (n: nat)
      requires Coherent() && h in open && len <= buf.Length
      modifies buf
      ensures n <= buf.Length
      ensures Failed !in attempts ==> buf[..n] == BytesRead(State(), Action.Read(h, off, len))
      ensures h.inode.Some? && h.inode.value in cm.data
      ensures Failed !in attempts ==>
                var file := cm.data[h.inode.value];
                && n == (if off >= |file| then 0 else if off + len <= |file| then len else |file| - off)
                && forall k :: 0 <= k < n ==> buf[k] == file[off + k]
    {
      hide Valid, Ok, Index, Slice;
      assert State().handles[h] == h.State();
      HandleInode(State(), h);
      ghost var file := Slice(cm.data[h.inode.value], off, len);
      SliceBytes(cm.data[h.inode.value], off, len);
      n := ReadContent(cm.data[h.inode.value], buf, len, off, attempts);
      assert n == |file| ==> file[..n] == file && buf[..n] == buf[..][..n];
    }

    /** The system may accept only the first part of what is offered. */
    method Write(h: FileHandle, off: nat, b: Bytes, accepted: nat)
      requires Coherent() && h in open && accepted <= |b|
      modifies cm`data, h
      ensures Coherent() && State() == Wrote(old(State()), h, off, b[..accepted])
      ensures h.changed && h.inode == old(h.inode) && h.inode.Some? && cm.data.Keys == old(cm.data).Keys
      ensures h.inode.value in cm.data
      ensures var was, now := old(cm.data)[h.inode.value], cm.data[h.inode.value];
              && |now| == (if accepted == 0 || off + accepted <= |was| then |was| else off + accepted)
              && forall k :: 0 <= k < |now| ==>
                   now[k] == if off <= k < off + accepted then b[k - off] else if k < |was| then was[k] else 0
      ensures forall n :: n in cm.data && n != h.inode.value ==> cm.data[n] == old(cm.data)[n]
    {
      hide WrittenAt, Index, Valid, Ok, Wrote;
      ghost var s := State();
      assert s.handles[h] == h.State();
      HandleInode(s, h);
      WriteOk(cm.Here(), h.inode.value, off, b[..accepted]);
      WroteState(cloud, cm.Here(), Handles(), h, off, b[..accepted]);
      cm.WriteContent(h.inode.value, b[..accepted], off);
      MarkChanged(h);
      WriteValid(s, h, off, b[..accepted]);
    }

    method MarkChanged(h: FileHandle)
      requires h in open
      modifies h`changed
      ensures h.changed && Handles() == old(Handles())[h := old(Handles())[h].(changed := true)]
    {
      ghost var hs := Handles();
      h.changed := true;
      assert forall g :: g in open && g != h ==> g.State() == hs[g];
    }

    /** Closing a changed handle uploads whatever the local copy holds by then. */
    method Close(h: FileHandle)
      requires Coherent() && h in open
      modifies this`cloud, this`open, h
      ensures Coherent() && State() == Closed(old(State()), h) && open == old(open) - {h} && h.inode == None
      ensures h.id in cm.Content()
      ensures cloud == if old(h.changed) then old(cloud)[h.id := cm.Content()[h.id]] else old(cloud)
    {
      hide Valid, Ok, Content, FileName, Index, Contents, Closed;
      ghost var s := State();
      assert s.handles[h] == h.State();
      HandleInode(s, h);
      ContentIs(cloud, cm.Here(), Handles(), h.id);
      ClosedValid(s, h);
      NamedFile(cloud, cm.Here(), Handles(), h.id);
      ClosedState(cloud, cm.Here(), Handles(), h);
      Untrack(h);
      Release(h);
      if h.changed {
        UpdateNodeContent(h.id);
      }
    }

    method Release(h: FileHandle)
      requires h !in open
      modifies h`inode
      ensures h.inode == None && Handles() == old(Handles())
    {
      ghost var hs := Handles();
      h.inode := None;
      assert forall g :: g in open ==> g.State() == hs[g];
    }

    method UpdateNodeContent(i: Id)
      requires FileName(i) in cm.files && cm.files[FileName(i)] in cm.data
      modifies this`cloud
      ensures cloud == old(cloud)[i := cm.data[cm.files[FileName(i)]]] && Handles() == old(Handles())
    {
      cloud := cloud[i := cm.data[cm.files[FileName(i)]]];
    }

    /** Resizing by name marks no handle as changed. */
    method TruncateFile(i: Id, size: nat)
      requires Coherent() && i in cloud
      modifies cm
      ensures Coherent() && State() == Truncated(old(State()), i, size)
      ensures i in cm.Content() && |cm.Content()[i]| == size
      ensures var was := if i in old(cm.Content()) then old(cm.Content())[i] else cloud[i];
              forall k :: 0 <= k < size ==> cm.Content()[i][k] == if k < |was| then was[k] else 0
      ensures SameBut(cm.Content(), old(cm.Content()), i)
    {
      hide Valid, Ok, Index, Made, Unnamed, Blocked, PlainId, Resized, FileId, Content, Rewritten, Contents;
      ghost var s, v, hs := State(), cm.Here(), Handles();
      FetchReady(cloud, v, hs, i);
      FetchedValid(s, i);
      TruncateContent(s, i, size);
      if i !in Index(v) { FetchedState(cloud, v, hs, i); }
      var present := cm.Is(i);
      if !present {
        Fetch(i);
      }
      assert Handles() == hs;
      assert StateOf(cloud, cm.Here(), hs) == Fetched(s, i);
      ghost var w := cm.Here();
      ContentIs(cloud, w, hs, i);
      var ok := cm.TruncateFile(i, size);
      RewrittenState(cloud, w, hs, i, Resized(Contents(w)[i], size));
      assert Handles() == hs;
    }

    /** A deleted file goes with its local copy, whoever has it open; a handle left without its file is a broken one. */
    method Delete(i: Id)
      requires Coherent() && i in cloud
      modifies this`cloud, cm
      ensures State() == Deleted(old(State()), i) && open == old(open)
      ensures cloud == old(cloud) - {i} && cm.Content() == old(cm.Content()) - {i}
      ensures Coherent() <==> Unused(old(State()), i)
    {
      hide Valid, Ok, Index, Made, Unnamed, Blocked, PlainId, FileId, Content, Unused;
      ghost var s, v, hs := State(), cm.Here(), Handles();
      FetchReady(cloud, v, hs, i);
      DeletedState(cloud, v, hs, i);
      DeleteValid(s, i);
      cloud := cloud - {i};
      var deletion := cm.DeleteFile(i);
      assert Handles() == hs;
      InodeKnown(v, i);
      UnnamedFacts(v, i);
    }
  }

  /** What was accepted is read back at its place through any handle on the same copy. */
  method WriteThenRead(store: FileStore, h: FileHandle, g: FileHandle, off: nat, b: Bytes, accepted: nat,
                       attempts: seq<Attempt>) returns (got: Bytes)
    requires store.Coherent() && h in store.open && g in store.open && g.inode == h.inode
    requires accepted <= |b| && Failed !in attempts
    modifies store.cm`data, h
    ensures store.Coherent() && got == b[..accepted]
  {
    hide Valid, Ok, Index, Slice, WrittenAt, Wrote, BytesRead;
    store.Write(h, off, b, accepted);
    var buf := new Byte[accepted];
    var n := store.Read(g, buf, accepted, off, attempts);
    got := buf[..n];
  }

  /** Without a copy there is nothing to take a name from. */
  lemma DeletedState(cloud: map<Id, Bytes>, v: Volume, hs: map<FileHandle, HandleState>, i: Id)
    requires Ok(v)
    ensures StateOf(cloud - {i}, if i in Contents(v) then Unnamed(v, i) else v, hs) == Deleted(StateOf(cloud, v, hs), i)
  {
    UnnamedFacts(v, i);
    InodeKnown(v, i);
    hide Ok, Index;
    if i !in Contents(v) { assert Index(v) - {i} == Index(v); }
  }

  lemma ClosedState(cloud: map<Id, Bytes>, v: Volume, hs: map<FileHandle, HandleState>, h: FileHandle)
    requires h in hs
    ensures var s, i := StateOf(cloud, v, hs), hs[h].id;
            Closed(s, h) == StateOf(if hs[h].changed then cloud[i := Content(s, i)] else cloud, v, hs - {h})
  {
    hide Content, Index;
  }

  lemma WroteState(cloud: map<Id, Bytes>, v: Volume, hs: map<FileHandle, HandleState>, h: FileHandle, off: nat,
                   b: Bytes)
    requires h in hs && hs[h].inode in v.data
    ensures var n := hs[h].inode;
            Wrote(StateOf(cloud, v, hs), h, off, b) ==
            StateOf(cloud, v.(data := v.data[n := WrittenAt(v.data[n], off, b)]), hs[h := hs[h].(changed := true)])
  {
    hide WrittenAt, Stored;
  }

  lemma HandleInode(s: Files<FileHandle>, h: FileHandle)
    requires Valid(s) && h in s.handles
    ensures s.handles[h].inode in s.data && s.handles[h].id in s.local && s.handles[h].id in s.cloud
  {
  }

  lemma NamedFile(cloud: map<Id, Bytes>, v: Volume, hs: map<FileHandle, HandleState>, i: Id)
    requires Valid(StateOf(cloud, v, hs)) && i in Index(v)
    ensures FileName(i) in v.disk.files && v.disk.files[FileName(i)] in v.data
    ensures v.data[v.disk.files[FileName(i)]] == Content(StateOf(cloud, v, hs), i)
  {
    StoredIs(v.disk, i);
  }

  lemma PlainFile(s: Files<FileHandle>, i: Id)
    requires Valid(s) && i in s.cloud
    ensures FileId(i) && PlainId(i)
  {
    assert FileId(i);
  }

  lemma CannotMeans(s: Files<FileHandle>, i: Id, f: Flags)
    ensures CannotOpen(s, i, f) <==> f.create && i !in s.local && House(i) !in s.dirs
  {
  }

  lemma FetchReady(cloud: map<Id, Bytes>, v: Volume, hs: map<FileHandle, HandleState>, i: Id)
    requires Valid(StateOf(cloud, v, hs)) && Ok(v) && i in cloud
    ensures PlainId(i) && |i| >= 2 && !Blocked(v.disk, i)
    ensures i in Contents(v) <==> i in Index(v)
    ensures Ok(Made(v, i, cloud[i])) && Ok(Unnamed(v, i))
  {
    NeverBlocked(cloud, v, hs, i);
    MadeFacts(v, i, cloud[i]);
    UnnamedFacts(v, i);
    InodeKnown(v, i);
  }

  lemma ContentIs(cloud: map<Id, Bytes>, v: Volume, hs: map<FileHandle, HandleState>, i: Id)
    requires Ok(v) && i in Index(v)
    ensures i in Contents(v) && Contents(v)[i] == Content(StateOf(cloud, v, hs), i)
  {
    InodeKnown(v, i);
  }

  lemma WriteOk(v: Volume, inode: nat, off: nat, b: Bytes)
    requires Ok(v) && inode in v.data
    ensures var w := v.(data := v.data[inode := WrittenAt(v.data[inode], off, b)]); Ok(w) && Index(w) == Index(v)
  {
  }

  lemma ClosedValid(s: Files<FileHandle>, h: FileHandle)
    requires Valid(s) && h in s.handles
    ensures Valid(Closed(s, h)) && s.handles[h].id in s.local && s.local[s.handles[h].id] in s.data
  {
  }

  /** A new file of the drive whose first two letters no local copy shares yet cannot be opened after its creation. */
  method NewFile(i: Id, b: Bytes) returns (store: FileStore, h: FileHandle?)
    requires FileId(i) && |i| > 2
    ensures h == null && store.cloud == map[i := b]
  {
    store := new FileStore(map[i := b]);
    h := store.OpenContent(i, Flags(true, true, false, true));
  }
}

/** The local content store: a directory of files that behaves as a map from id to bytes. */
module ContentStore {
  import opened Basics
  import opened StoreLayout

  // ---------- readers ----------

  /** How much one write call is offered, and one read call asked for. */
  const BUFFER: nat := 4096

  function Concat(chunks: seq<Bytes>): Bytes {
    if chunks == [] then [] else chunks[0] + Concat(chunks[1..])
  }

  /** One chunk as it passes through a buffer of n bytes. */
  function Cut(chunk: Bytes, n: nat): seq<Bytes>
    requires n > 0
  {
    if |chunk| <= n then [chunk] else [chunk[..n]] + Cut(chunk[n..], n)
  }

  /** What the read calls deliver, one after the other. */
  function Pieces(chunks: seq<Bytes>, n: nat): seq<Bytes>
    requires n > 0
  {
    if chunks == [] then [] else Cut(chunks[0], n) + Pieces(chunks[1..], n)
  }

  lemma {:induction false} ConcatJoin(a: seq<Bytes>, b: seq<Bytes>)
    ensures Concat(a + b) == Concat(a) + Concat(b)
  {
    if a == [] {
      assert a + b == b;
    } else {
      ConcatJoin(a[1..], b);
      assert (a + b)[0] == a[0] && (a + b)[1..] == a[1..] + b;
    }
  }

  /** All pieces are as long as the buffer but for the last, which may be shorter. */
  lemma {:induction false} CutSizes(chunk: Bytes, n: nat)
    requires n > 0
    ensures var cut := Cut(chunk, n);
            && cut != [] && (forall j :: 0 <= j < |cut| - 1 ==> |cut[j]| == n) && |cut[|cut| - 1]| <= n
            && (chunk != [] ==> cut[|cut| - 1] != [])
  {
    if |chunk| > n { CutSizes(chunk[n..], n); }
  }

  lemma {:induction false} CutConcat(chunk: Bytes, n: nat)
    requires n > 0
    ensures Concat(Cut(chunk, n)) == chunk
  {
    if |chunk| > n {
      CutConcat(chunk[n..], n);
      assert Cut(chunk, n)[1..] == Cut(chunk[n..], n);
    }
  }

  /** Cutting chunks to the size of the buffer loses nothing. */
  lemma {:induction false} PiecesConcat(chunks: seq<Bytes>, n: nat)
    requires n > 0
    ensures Concat(Pieces(chunks, n)) == Concat(chunks)
  {
    if chunks != [] {
      CutConcat(chunks[0], n);
      PiecesConcat(chunks[1..], n);
      ConcatJoin(Cut(chunks[0], n), Pieces(chunks[1..], n));
    }
  }

  /** A source of bytes that arrive in pieces of any size, empty ones included. */
  class Reader {
    var chunks: seq<Bytes>
    const broken: bool

    constructor (chunks: seq<Bytes>, broken: bool)
      ensures this.chunks == chunks && this.broken == broken
    {
      this.chunks, this.broken := chunks, broken;
    }

    predicate Done()
      reads this
    {
      chunks == []
    }

    method Read(size: nat) returns (b: Bytes)
      requires !Done() && size > 0
      modifies this
      ensures Pieces(old(chunks), size) == [b] + Pieces(chunks, size)
      ensures |b| == (if |old(chunks)[0]| < size then |old(chunks)[0]| else size) && b <= old(chunks)[0]
      ensures chunks == (if |b| < |old(chunks)[0]| then [old(chunks)[0][|b|..]] else []) + old(chunks)[1..]
    {
      b := chunks[0];
      if |b| <= size {
        chunks := chunks[1..];
      } else {
        b, chunks := b[..size], [b[size..]] + chunks[1..];
        assert chunks[1..] == old(chunks[1..]);
        assert old(chunks[0])[size..] == chunks[0];
        assert Pieces(old(chunks), size) == [b] + (Cut(chunks[0], size) + Pieces(chunks[1..], size));
      }
    }
  }

  // ---------- short writes ----------

  /** How many bytes of the piece the next write call refuses. */
  function Refusal(piece: Bytes, shorts: seq<nat>): (r: nat)
    ensures r <= |piece|
  {
    if shorts == [] then 0 else if shorts[0] < |piece| then shorts[0] else |piece|
  }

  function Later(shorts: seq<nat>): seq<nat> {
    if shorts == [] then [] else shorts[1..]
  }

  /** What reaches the file: of every piece the part its write call accepted. */
  function Accepted(pieces: seq<Bytes>, shorts: seq<nat>): Bytes {
    if pieces == [] then []
    else pieces[0][..|pieces[0]| - Refusal(pieces[0], shorts)] + Accepted(pieces[1..], Later(shorts))
  }

  function Lost(pieces: seq<Bytes>, shorts: seq<nat>): nat {
    if pieces == [] then 0 else Refusal(pieces[0], shorts) + Lost(pieces[1..], Later(shorts))
  }

  /** The writes that succeed: all of them, or those before the first that fails. */
  function Tried(pieces: seq<Bytes>, failing: Option<nat>): seq<Bytes> {
    if WriteFails(pieces, failing) then pieces[..failing.value] else pieces
  }

  predicate WriteFails(pieces: seq<Bytes>, failing: Option<nat>) {
    failing.Some? && failing.value < |pieces|
  }

  function NextFailing(failing: Option<nat>): Option<nat> {
    if failing.Some? && failing.value > 0 then Some(failing.value - 1) else None
  }

  lemma TriedStep(pieces: seq<Bytes>, failing: Option<nat>)
    requires pieces != [] && failing != Some(0)
    ensures Tried(pieces, failing) == [pieces[0]] + Tried(pieces[1..], NextFailing(failing))
    ensures WriteFails(pieces, failing) <==> WriteFails(pieces[1..], NextFailing(failing))
  {
    if WriteFails(pieces, failing) {
      assert pieces[..failing.value] == [pieces[0]] + pieces[1..][..failing.value - 1];
    }
  }

  /** What the copy loop has left to do comes out as what it was asked to do. */
  ghost predicate CopyGoesOn(all: seq<Bytes>, shorts: seq<nat>, failing: Option<nat>, rest: seq<Bytes>, left: seq<nat>,
                             until: Option<nat>, written: Bytes, lost: nat) {
    && written + Accepted(Tried(rest, until), left) == Accepted(Tried(all, failing), shorts)
    && lost + Lost(Tried(rest, until), left) == Lost(Tried(all, failing), shorts)
    && (WriteFails(rest, until) <==> WriteFails(all, failing))
  }

  lemma CopyStep(all: seq<Bytes>, shorts: seq<nat>, failing: Option<nat>, rest: seq<Bytes>, left: seq<nat>,
                 until: Option<nat>, written: Bytes, lost: nat)
    requires rest != [] && CopyGoesOn(all, shorts, failing, rest, left, until, written, lost)
    ensures until == Some(0) ==>
              && written == Accepted(Tried(all, failing), shorts) && lost == Lost(Tried(all, failing), shorts)
              && WriteFails(all, failing)
    ensures until != Some(0) ==>
              CopyGoesOn(all, shorts, failing, rest[1..], Later(left), NextFailing(until),
                         written + rest[0][..|rest[0]| - Refusal(rest[0], left)], lost + Refusal(rest[0], left))
  {
    if until == Some(0) {
      assert rest[..0] == [];
    } else {
      TriedStep(rest, until);
      var more := Accepted(Tried(rest[1..], NextFailing(until)), Later(left));
      assert Tried(rest, until)[1..] == Tried(rest[1..], NextFailing(until));
      assert written + (rest[0][..|rest[0]| - Refusal(rest[0], left)] + more)
          == written + rest[0][..|rest[0]| - Refusal(rest[0], left)] + more;
    }
  }

  lemma CopyEnds(all: seq<Bytes>, shorts: seq<nat>, failing: Option<nat>, left: seq<nat>, until: Option<nat>,
                 written: Bytes, lost: nat)
    requires CopyGoesOn(all, shorts, failing, [], left, until, written, lost)
    ensures written == Accepted(Tried(all, failing), shorts) && lost == Lost(Tried(all, failing), shorts)
    ensures !WriteFails(all, failing)
  {
  }

  lemma {:induction false} AcceptedLength(pieces: seq<Bytes>, shorts: seq<nat>)
    ensures |Accepted(pieces, shorts)| + Lost(pieces, shorts) == |Concat(pieces)|
    ensures Lost(pieces, shorts) == 0 ==> Accepted(pieces, shorts) == Concat(pieces)
  {
    if pieces != [] { AcceptedLength(pieces[1..], Later(shorts)); }
  }

  /** What is kept of each piece: all but the bytes its own write call refused. */
  lemma {:induction false} AcceptedIs(pieces: seq<Bytes>, shorts: seq<nat>, kept: seq<Bytes>)
    requires |kept| == |pieces|
    requires forall j :: 0 <= j < |pieces| ==>
               kept[j] == if j >= |shorts| then pieces[j]
                          else if shorts[j] >= |pieces[j]| then []
                          else pieces[j][..|pieces[j]| - shorts[j]]
    ensures Accepted(pieces, shorts) == Concat(kept)
  {
    if pieces != [] {
      var later := if shorts == [] then [] else shorts[1..];
      assert forall j :: 0 <= j < |kept[1..]| ==> kept[1..][j] == kept[j + 1] && pieces[1..][j] == pieces[j + 1];
      assert forall j :: 0 <= j < |later| ==> later[j] == shorts[j + 1];
      AcceptedIs(pieces[1..], later, kept[1..]);
    }
  }

  lemma {:induction false} NothingRefused(pieces: seq<Bytes>, shorts: seq<nat>)
    ensures Lost(pieces, shorts) == 0 <==>
            forall j :: 0 <= j < |pieces| && j < |shorts| && pieces[j] != [] ==> shorts[j] == 0
  {
    if pieces != [] && shorts != [] {
      NothingRefused(pieces[1..], shorts[1..]);
      assert forall j :: 0 < j < |pieces| ==> pieces[j] == pieces[1..][j - 1];
      assert forall j :: 0 < j < |shorts| ==> shorts[j] == shorts[1..][j - 1];
      if Lost(pieces[1..], shorts[1..]) != 0 {
        var j :| 0 <= j < |pieces[1..]| && j < |shorts[1..]| && pieces[1..][j] != [] && shorts[1..][j] != 0;
        assert pieces[j + 1] != [] && shorts[j + 1] != 0;
      }
    } else if pieces != [] {
      NothingRefused(pieces[1..], []);
    }
  }

  /** The file is the stream exactly if no write of a non-empty piece is short, and none fails with bytes to come. */
  lemma StreamSaved(chunks: seq<Bytes>, shorts: seq<nat>, failing: Option<nat>)
    ensures var pieces := Pieces(chunks, BUFFER);
            Accepted(Tried(pieces, failing), shorts) == Concat(chunks) <==>
            && (forall j :: 0 <= j < |pieces| && j < |shorts| && pieces[j] != [] ==> shorts[j] == 0)
            && (WriteFails(pieces, failing) ==> forall j :: failing.value <= j < |pieces| ==> pieces[j] == [])
  {
    var pieces := Pieces(chunks, BUFFER);
    var done := Tried(pieces, failing);
    PiecesConcat(chunks, BUFFER);
    AcceptedLength(done, shorts);
    NothingRefused(done, shorts);
    var rest := if WriteFails(pieces, failing) then pieces[failing.value..] else [];
    assert pieces == done + rest;
    ConcatJoin(done, rest);
    NothingIn(rest);
    assert forall j :: 0 <= j < |done| ==> done[j] == pieces[j];
    assert forall j :: 0 <= j < |rest| ==> rest[j] == pieces[|done| + j];
    assert forall j :: |done| <= j < |pieces| ==> pieces[j] == rest[j - |done|];
  }

  lemma {:induction false} NothingIn(pieces: seq<Bytes>)
    ensures Concat(pieces) == [] <==> forall j :: 0 <= j < |pieces| ==> pieces[j] == []
  {
    if pieces != [] {
      NothingIn(pieces[1..]);
      assert forall j :: 0 < j < |pieces| ==> pieces[j] == pieces[1..][j - 1];
      assert forall j :: 0 <= j < |pieces[1..]| ==> pieces[1..][j] == pieces[j + 1];
    }
  }

  /** Full writes save the stream. */
  lemma FullWrites(chunks: seq<Bytes>)
    ensures Accepted(Tried(Pieces(chunks, BUFFER), None), []) == Concat(chunks)
  {
    StreamSaved(chunks, [], None);
  }

  lemma FullWritesOfOne(b: Bytes)
    ensures Accepted(Tried(Pieces([b], BUFFER), None), []) == b
  {
    FullWrites([b]);
    assert [b][1..] == [];
  }

  // ---------- names, inodes and bytes ----------

  /** A name stands for an inode, an inode for bytes; a descriptor keeps the inode when the name is gone. */
  datatype Volume = Volume(disk: Disk<nat>, data: map<nat, Bytes>, next: nat)

  ghost predicate Ok(v: Volume) {
    Sound(v.disk) && Inodes(Index(v), v.data, v.next)
  }

  ghost predicate Inodes(index: map<Id, nat>, data: map<nat, Bytes>, next: nat) {
    && (forall i :: i in index ==> index[i] in data)
    && (forall n :: n in data ==> n < next)
    && (forall i, j :: i in index && j in index && index[i] == index[j] ==> i == j)
  }

  ghost function Named(index: map<Id, nat>, data: map<nat, Bytes>): map<Id, Bytes> {
    map i | i in index && index[i] in data :: data[index[i]]
  }

  lemma NamedAfter(index: map<Id, nat>, data: map<nat, Bytes>, next: nat, id: Id, b: Bytes)
    requires Inodes(index, data, next)
    ensures id in index ==>
            var e := data[index[id] := b]; Inodes(index, e, next) && Named(index, e) == Named(index, data)[id := b]
    ensures id !in index ==>
              var x, e := index[id := next], data[next := b];
              Inodes(x, e, next + 1) && Named(x, e) == Named(index, data)[id := b]
    ensures Inodes(index - {id}, data, next) && Named(index - {id}, data) == Named(index, data) - {id}
  {
  }

  ghost function Index(v: Volume): map<Id, nat> {
    Stored(v.disk)
  }

  /** The map the directory stands for. */
  ghost function Contents(v: Volume): map<Id, Bytes> {
    Named(Index(v), v.data)
  }

  /** New bytes for the inode of an id. */
  ghost function Rewritten(v: Volume, id: Id, b: Bytes): Volume {
    if id in Index(v) then v.(data := v.data[Index(v)[id] := b]) else v
  }

  /** A new inode under the name of an id. */
  ghost function Added(v: Volume, id: Id, dirs: set<Path>, b: Bytes): Volume {
    Volume(Disk(v.disk.files[FileName(id) := v.next], dirs), v.data[v.next := b], v.next + 1)
  }

  ghost function Unnamed(v: Volume, id: Id): Volume {
    v.(disk := Disk(v.disk.files - {FileName(id)}, v.disk.dirs))
  }

  /** What creating a file leaves: the old inode rewritten or a new one, and the directories above. */
  ghost function Made(v: Volume, id: Id, b: Bytes): Volume {
    if id in Index(v) then Rewritten(v, id, b) else Added(v, id, v.disk.dirs + Above(FileName(id)), b)
  }

  lemma RewrittenFacts(v: Volume, id: Id, b: Bytes)
    requires Ok(v) && id in Index(v)
    ensures var w := Rewritten(v, id, b);
            Ok(w) && w.disk == v.disk && Index(w) == Index(v) && Contents(w) == Contents(v)[id := b]
  {
    hide Stored, Sound, Inodes, Named;
    NamedAfter(Index(v), v.data, v.next, id, b);
  }

  lemma AddedFacts(v: Volume, id: Id, dirs: set<Path>, b: Bytes)
    requires Ok(v) && PlainId(id) && !Blocked(v.disk, id) && id !in Index(v)
    requires dirs == v.disk.dirs + Above(FileName(id))
    ensures var w := Added(v, id, dirs, b);
            Ok(w) && Index(w) == Index(v)[id := v.next] && Contents(w) == Contents(v)[id := b]
  {
    hide Stored, Sound, FileName, Above, Blocked, PlainId, Inodes, Named;
    var w := Added(v, id, dirs, b);
    CreateSound(v.disk, w.disk, id, v.next);
    StoredAfterWrite(v.disk, w.disk, id, v.next);
    NamedAfter(Index(v), v.data, v.next, id, b);
  }

  lemma UnnamedFacts(v: Volume, id: Id)
    requires Ok(v)
    ensures var w := Unnamed(v, id);
            Ok(w) && Index(w) == Index(v) - {id} && Contents(w) == Contents(v) - {id} && w.disk.dirs == v.disk.dirs
  {
    DeleteFacts(v.disk, id);
    NamedAfter(Index(v), v.data, v.next, id, []);
    hide Stored, Sound, FileName, Inodes, Named;
  }

  lemma BlockedMeans(v: Volume, id: Id)
    requires Ok(v)
    ensures Blocked(v.disk, id) <==> (|id| == 1 && [id] in v.disk.dirs) || (|id| > 2 && id[..1] in Contents(v))
  {
    if |id| > 2 { InodeKnown(v, id[..1]); }
  }

  /** Creating changes the content of one id and the directories above it, and nothing else. */
  lemma MadeFacts(v: Volume, id: Id, b: Bytes)
    requires Ok(v) && PlainId(id) && !Blocked(v.disk, id)
    ensures var w := Made(v, id, b);
            && Ok(w) && Contents(w) == Contents(v)[id := b] && w.disk.dirs == v.disk.dirs + Above(FileName(id))
            && Index(w) == if id in Index(v) then Index(v) else Index(v)[id := v.next]
  {
    if id in Index(v) {
      RewrittenFacts(v, id, b);
      HouseStands(v.disk, id);
    } else {
      AddedFacts(v, id, v.disk.dirs + Above(FileName(id)), b);
    }
  }

  lemma InodeKnown(v: Volume, id: Id)
    requires Ok(v)
    ensures id in Index(v) ==> Index(v)[id] in v.data && id in Contents(v) && Contents(v)[id] == v.data[Index(v)[id]]
    ensures id in Contents(v) ==> id in Index(v)
  {
  }

  // ---------- opening by name ----------

  datatype Opening = File(inode: nat) | Directory | NoFile

  /** The cases in which open(2) fails; a directory is opened for reading only. */
  ghost predicate OpenFails(v: Volume, id: Id, f: Flags) {
    if id in Index(v) then f.create && f.exclusive
    else if FileName(id) in v.disk.dirs then f.write || f.create || f.truncate
    else !f.create || House(id) !in v.disk.dirs
  }

  ghost function OpenResult(v: Volume, id: Id, f: Flags): Opening {
    if OpenFails(v, id, f) then NoFile
    else if id in Index(v) then File(Index(v)[id])
    else if FileName(id) in v.disk.dirs then Directory
    else File(v.next)
  }

  ghost function OpenVolume(v: Volume, id: Id, f: Flags): Volume {
    if OpenFails(v, id, f) then v
    else if id in Index(v) then if f.truncate then Rewritten(v, id, []) else v
    else if FileName(id) in v.disk.dirs then v
    else Added(v, id, v.disk.dirs, [])
  }

  lemma OpenVolumeFacts(v: Volume, id: Id, f: Flags)
    requires Ok(v) && PlainId(id)
    ensures var w := OpenVolume(v, id, f);
            && Ok(w) && w.disk.dirs == v.disk.dirs
            && (OpenResult(v, id, f).File? ==> id in Index(w) && Index(w)[id] == OpenResult(v, id, f).inode)
  {
    HouseStands(v.disk, id);
    if OpenFails(v, id, f) {
    } else if id in Index(v) {
      RewrittenFacts(v, id, []);
    } else if FileName(id) !in v.disk.dirs {
      assert v.disk.dirs + Above(FileName(id)) == v.disk.dirs;
      AddedFacts(v, id, v.disk.dirs, []);
    }
  }

  /** The same in terms of ids and bytes. */
  lemma OpenPlainly(v: Volume, id: Id, f: Flags)
    requires Ok(v) && PlainId(id)
    ensures var c, o := Contents(v), OpenResult(v, id, f);
            && (o == Directory <==>
                  id !in c && |id| == 1 && [id] in v.disk.dirs && !f.write && !f.create && !f.truncate)
            && (o.File? <==>
                  if id in c then !(f.create && f.exclusive)
                  else !(|id| == 1 && [id] in v.disk.dirs) && f.create && House(id) in v.disk.dirs)
            && Contents(OpenVolume(v, id, f)) ==
               if o.File? then c[id := if id in c && !f.truncate then c[id] else []] else c
  {
    hide Sound, Stored, Inodes, Named, Blocked;
    ContentsIndex(v);
    HouseStands(v.disk, id);
    if id in Index(v) {
      RewrittenFacts(v, id, []);
      SameEntry(Contents(v), id);
    } else if !OpenFails(v, id, f) && FileName(id) !in v.disk.dirs {
      assert v.disk.dirs + Above(FileName(id)) == v.disk.dirs;
      AddedFacts(v, id, v.disk.dirs, []);
    }
  }

  lemma SameEntry(c: map<Id, Bytes>, id: Id)
    ensures id in c ==> c == c[id := c[id]]
  {
  }

  // ---------- the store ----------

  datatype Outcome = Saved | Refused | WriteFailed | ReaderFailed

  datatype Deletion = WasThere | WasNot | NotEmpty

  class ContentManager {
    var files: map<Path, nat>
    var dirs: set<Path>
    var data: map<nat, Bytes>
    var next: nat

    constructor ()
      ensures Valid() && Here() == Volume(Disk(map[], {}), map[], 0)
    {
      files, dirs, data, next := map[], {}, map[], 0;
    }

    ghost function Here(): Volume
      reads this
    {
      Volume(Disk(files, dirs), data, next)
    }

    ghost predicate Valid()
      reads this
    {
      Ok(Here())
    }

    ghost function Content(): map<Id, Bytes>
      reads this
    {
      Contents(Here())
    }

    method Exists(p: Path) returns (r: bool)
      ensures r <==> p in files || p in dirs
    {
      r := p in files || p in dirs;
    }

    /** For one-letter ids a directory of longer ids answers as well. */
    method Is(id: Id) returns (r: bool)
      requires Valid() && PlainId(id)
      ensures r <==> id in Content() || (|id| == 1 && [id] in dirs)
    {
      StoredIs(Here().disk, id);
      HouseStands(Here().disk, id);
      hide Stored, Sound, FileName;
      r := Exists(FileName(id));
    }

    method CreateDirectories(p: Path) returns (ok: bool)
      modifies this`dirs
      ensures ok <==> forall k :: 0 <= k <= |p| ==> p[..k] !in files
      ensures ok ==> dirs == old(dirs) + Above(p) + {p}
      ensures !ok ==> exists k :: 0 <= k <= |p| && p[..k] in files && dirs == old(dirs) + Above(p[..k])
    {
      var k := 0;
      while k <= |p|
        invariant 0 <= k <= |p| + 1
        invariant forall j :: 0 <= j < k ==> p[..j] !in files
        invariant dirs == old(dirs) + set j | 0 <= j < k :: p[..j]
      {
        if p[..k] in files {
          assert Above(p[..k]) == set j | 0 <= j < k :: p[..j] by {
            assert forall j :: 0 <= j < k ==> p[..k][..j] == p[..j];
          }
          return false;
        }
        dirs := dirs + {p[..k]};
        k := k + 1;
      }
      assert p[..|p|] == p;
      ok := true;
    }

    /**
     * Drains the reader into the id's file, through a buffer. The write of piece j refuses shorts[j] bytes; the
     * code does not look at how much was written, so the refused bytes are missing without any report. A write that
     * fails is reported, and leaves the file as far as it got.
     */
    method CreateFile(id: Id, content: Reader?, shorts: seq<nat>, failing: Option<nat>)
      returns (outcome: Outcome, lost: nat)
      requires Valid() && PlainId(id)
      modifies this, content
      ensures Valid() && (outcome == Refused <==> Blocked(old(Here()).disk, id))
      ensures outcome == Refused <==> (|id| == 1 && [id] in old(dirs)) || (|id| > 2 && id[..1] in old(Content()))
      ensures outcome == Refused ==> Here() == old(Here())
      ensures outcome != Refused ==>
                var pieces := if content == null then [] else Pieces(old(content.chunks), BUFFER);
                && Here() == Made(old(Here()), id, Accepted(Tried(pieces, failing), shorts))
                && (outcome == WriteFailed <==> failing.Some? && failing.value < |pieces|)
                && Content() == old(Content())[id := Accepted(if outcome == WriteFailed then pieces[..failing.value]
                                                              else pieces, shorts)]
                && lost == Lost(Tried(pieces, failing), shorts)
                && (outcome == WriteFailed <==> WriteFails(pieces, failing))
                && (content != null && outcome != WriteFailed ==> content.Done())
      ensures outcome == ReaderFailed <==>
              content != null && content.broken && outcome != Refused && outcome != WriteFailed
    {
      hide FileName, Sound, Stored, Blocked, Above, PlainId, Ok, Index;
      lost := 0;
      ghost var v := Here();
      BlockedMeans(v, id);
      var placed, inode := Place(id);
      if !placed { return Refused, 0; }
      var written: Bytes := [];
      if content != null {
        var failed;
        written, lost, failed := Copy(id, inode, content, shorts, failing, v);
        if failed {
          MadeFacts(v, id, written);
          return WriteFailed, lost;
        }
      }
      outcome := if content != null && content.broken then ReaderFailed else Saved;
      MadeFacts(v, id, written);
    }

    /** The copy loop: read a buffer, write a buffer. */
    method Copy(id: Id, inode: nat, content: Reader, shorts: seq<nat>, failing: Option<nat>, ghost v: Volume)
      returns (written: Bytes, lost: nat, failed: bool)
      requires Here() == Made(v, id, []) && inode == InodeFor(v, id)
      modifies this`data, content
      ensures Here() == Made(v, id, written) && (!failed ==> content.Done())
      ensures var pieces := Pieces(old(content.chunks), BUFFER);
              && written == Accepted(Tried(pieces, failing), shorts) && lost == Lost(Tried(pieces, failing), shorts)
              && (failed <==> WriteFails(pieces, failing))
    {
      hide FileName, Sound, Stored, Above, Index, Made, InodeFor, Accepted, Lost, Tried, WriteFails;
      ghost var all := Pieces(content.chunks, BUFFER);
      var left: seq<nat>, until := shorts, failing;
      written, lost, failed := [], 0, false;
      while !content.Done()
        invariant Here() == Made(v, id, written)
        invariant CopyGoesOn(all, shorts, failing, Pieces(content.chunks, BUFFER), left, until, written, lost)
        decreases |Pieces(content.chunks, BUFFER)|
      {
        ghost var pieces := Pieces(content.chunks, BUFFER);
        var b := content.Read(BUFFER);
        assert pieces[0] == b && pieces[1..] == Pieces(content.chunks, BUFFER);
        CopyStep(all, shorts, failing, pieces, left, until, written, lost);
        if until == Some(0) { return written, lost, true; }
        MadeAgain(v, id, inode, written, written + b[..|b| - Refusal(b, left)]);
        written, lost := written + b[..|b| - Refusal(b, left)], lost + Refusal(b, left);
        left, until := Later(left), NextFailing(until);
        data := data[inode := written];
      }
      CopyEnds(all, shorts, failing, left, until, written, lost);
    }

    /** The directories above the file, and the file itself, empty: a new inode, or the old one emptied. */
    method Place(id: Id) returns (placed: bool, inode: nat)
      requires Valid() && PlainId(id)
      modifies this
      ensures placed <==> !Blocked(old(Here()).disk, id)
      ensures !placed ==> Here() == old(Here())
      ensures placed ==> Here() == Made(old(Here()), id, []) && inode == InodeFor(old(Here()), id)
    {
      hide FileName, Sound, Stored, Blocked, Above, PlainId;
      inode := 0;
      var p := FileName(id);
      ghost var v := Here();
      ghost var d := v.disk;
      UpFacts(d, id);
      StoredIs(d, id);
      HouseStands(d, id);
      var up := p[..|p| - 1];
      var there := Exists(up);
      if !there {
        var ok := CreateDirectories(up);
        if !ok {
          ghost var k :| 0 <= k <= |up| && up[..k] in files && dirs == d.dirs + Above(up[..k]);
          AboveInDirs(d, up[..k]);
          return false, 0;
        }
      }
      if up !in dirs || p in dirs { return false, 0; }
      if p in files {
        inode := files[p];
        AboveInDirs(d, p);
      } else {
        inode := next;
        files, next := files[p := next], next + 1;
      }
      data := data[inode := []];
      placed := true;
    }

    method DeleteFile(id: Id) returns (outcome: Deletion)
      requires Valid() && PlainId(id)
      modifies this
      ensures Valid()
      ensures outcome ==
              if id in old(Content()) then WasThere else if |id| == 1 && [id] in old(dirs) then NotEmpty else WasNot
      ensures Here() == if id in old(Content()) then Unnamed(old(Here()), id) else old(Here())
      ensures Content() == old(Content()) - {id} && dirs == old(dirs)
    {
      hide Sound, Stored, Inodes, Named;
      ghost var v := Here();
      var p := FileName(id);
      StoredIs(v.disk, id);
      InodeKnown(v, id);
      HouseStands(v.disk, id);
      UnnamedFacts(v, id);
      NeverEmpty(v.disk, p);
      var there := Exists(p);
      if there {
        if p in files {
          files := files - {p};
        } else if exists q :: q in files.Keys + dirs && StrictlyBelow(p, q) {
          return NotEmpty;
        }
        return WasThere;
      }
      outcome := WasNot;
    }

    method OpenFile(id: Id, f: Flags) returns (o: Opening)
      requires Valid() && PlainId(id)
      modifies this
      ensures Valid() && o == OpenResult(old(Here()), id, f) && Here() == OpenVolume(old(Here()), id, f)
      ensures o == Directory <==>
                id !in old(Content()) && |id| == 1 && [id] in old(dirs) && !f.write && !f.create && !f.truncate
      ensures o.File? <==>
                if id in old(Content()) then !(f.create && f.exclusive)
                else !(|id| == 1 && [id] in old(dirs)) && f.create && House(id) in old(dirs)
      ensures Content() ==
                if !o.File? then old(Content())
                else old(Content())[id := if id in old(Content()) && !f.truncate then old(Content())[id] else []]
      ensures o.File? ==> o.inode in data && data[o.inode] == Content()[id]
    {
      hide FileName, Sound, Stored, PlainId, Ok, Inodes, House;
      OpenVolumeFacts(Here(), id, f);
      StoredIs(Here().disk, id);
      InodeKnown(Here(), id);
      OpenPlainly(Here(), id, f);
      InodeKnown(OpenVolume(Here(), id, f), id);
      var p := FileName(id);
      if p in files {
        if f.create && f.exclusive { return NoFile; }
        if f.truncate { data := data[files[p] := []]; }
        return File(files[p]);
      }
      if p in dirs {
        return if f.write || f.create || f.truncate then NoFile else Directory;
      }
      if !f.create || House(id) !in dirs { return NoFile; }
      o := File(next);
      files, data, next := files[p := next], data[next := []], next + 1;
    }

    /** The system may accept only the first part of what is offered. */
    method WriteContent(inode: nat, b: Bytes, offset: nat)
      requires inode in data
      modifies this`data
      ensures data == old(data)[inode := WrittenAt(old(data)[inode], offset, b)]
      ensures var was := old(data)[inode];
              && |data[inode]| == (if b == [] || offset + |b| <= |was| then |was| else offset + |b|)
              && forall k :: 0 <= k < |data[inode]| ==>
                   data[inode][k] ==
                   if offset <= k < offset + |b| then b[k - offset] else if k < |was| then was[k] else 0
    {
      WrittenBytes(data[inode], offset, b);
      hide WrittenAt;
      data := data[inode := WrittenAt(data[inode], offset, b)];
    }

    method TruncateFile(id: Id, newSize: nat) returns (ok: bool)
      requires Valid() && PlainId(id)
      modifies this`data
      ensures Valid() && (ok <==> id in old(Content()))
      ensures Here() == if ok then Rewritten(old(Here()), id, Resized(old(Content())[id], newSize)) else old(Here())
      ensures ok ==>
                && Content().Keys == old(Content()).Keys && |Content()[id]| == newSize
                && (forall k :: 0 <= k < newSize ==>
                      Content()[id][k] == if k < |old(Content())[id]| then old(Content())[id][k] else 0)
                && forall j :: j in Content() && j != id ==> Content()[j] == old(Content())[j]
    {
      hide FileName, Sound, Stored, PlainId, Ok, Inodes, Resized;
      StoredIs(Here().disk, id);
      InodeKnown(Here(), id);
      var p := FileName(id);
      if p !in files { return false; }
      RewrittenFacts(Here(), id, Resized(data[files[p]], newSize));
      ResizedBytes(data[files[p]], newSize);
      data := data[files[p] := Resized(data[files[p]], newSize)];
      ok := true;
    }
  }

  ghost function InodeFor(v: Volume, id: Id): nat {
    if id in Index(v) then Index(v)[id] else v.next
  }

  /** Rewriting the file just made is making it with other bytes. */
  lemma MadeAgain(v: Volume, id: Id, inode: nat, a: Bytes, b: Bytes)
    requires inode == InodeFor(v, id)
    ensures Made(v, id, a).(data := Made(v, id, a).data[inode := b]) == Made(v, id, b)
  {
    hide Index, FileName, Above;
    var data := Made(v, id, a).data;
    assert data[inode := b] == v.data[inode := b];
  }

  /** A directory that an id can name holds another one. */
  lemma NeverEmpty(d: Disk<nat>, p: Path)
    requires Sound(d)
    ensures |p| == 1 && p in d.dirs ==> exists q :: q in d.dirs && StrictlyBelow(p, q)
  {
    if |p| == 1 && p in d.dirs { assert DirOk(d, p); }
  }

  // ---------- reading through a descriptor ----------

  /** How one read call goes: interrupted by a signal, failed, or at most n + 1 bytes. */
  datatype Attempt = Interrupted | Failed | AtMost(n: nat)

  function Smaller(a: nat, b: nat): (r: nat)
    ensures r <= a && r <= b && (a > 0 && b > 0 ==> r > 0)
  {
    if a < b then a else b
  }

  /** One system call: reads into buf from `at` on, and answers -1 on any error. */
  method Pread(file: Bytes, buf: array<Byte>, at: nat, len: nat, offset: nat, a: Attempt) returns (readed: int)
    requires at + len <= buf.Length
    modifies buf
    ensures a.AtMost? ==>
              && readed == |Slice(file, offset, Smaller(len, a.n + 1))|
              && buf[..] ==
                   old(buf[..])[..at] + Slice(file, offset, Smaller(len, a.n + 1)) + old(buf[..])[at + readed..]
    ensures !a.AtMost? ==> readed == -1 && buf[..] == old(buf[..])
  {
    if !a.AtMost? { return -1; }
    var piece := Slice(file, offset, Smaller(len, a.n + 1));
    readed := |piece|;
    forall k | 0 <= k < |piece| {
      buf[at + k] := piece[k];
    }
  }

  lemma SliceJoin(file: Bytes, offset: nat, a: nat, b: nat)
    ensures Slice(file, offset, a) + Slice(file, offset + a, b) == Slice(file, offset, a + b)
  {
  }

  /** A read that found nothing is at the end. */
  lemma SliceEnds(file: Bytes, offset: nat, len: nat)
    requires len > 0 && Slice(file, offset, len) == []
    ensures forall n: nat :: Slice(file, offset, n) == []
  {
  }

  /** A partial read can be continued where it stopped. */
  lemma SliceContinues(file: Bytes, offset: nat, k: nat, len: nat)
    requires k <= len
    ensures |Slice(file, offset, k)| <= k && |Slice(file, offset, len)| <= len
    ensures var n := |Slice(file, offset, k)|;
            Slice(file, offset, len) == Slice(file, offset, k) + Slice(file, offset + n, len - n)
  {
  }

  /** One call in the course of a read: it extends what is there, leaves it alone, or shows that it is complete. */
  method PreadStep(file: Bytes, buf: array<Byte>, ret: nat, len: nat, off: nat, a: Attempt, ghost orig: Bytes)
    returns (readed: int)
    requires len > 0 && off >= ret && ret + len <= buf.Length == |orig|
    requires Reading(file, off - ret, ret + len, orig, buf[..], ret)
    modifies buf
    ensures readed == -1 <==> !a.AtMost?
    ensures -1 <= readed <= len
    ensures Reading(file, off - ret, ret + len, orig, buf[..], if readed == -1 then ret else ret + readed)
    ensures readed == 0 ==> ret == |Slice(file, off - ret, ret + len)|
  {
    hide Reading, Slice;
    ghost var before := buf[..];
    readed := Pread(file, buf, ret, len, off, a);
    if a.AtMost? {
      ghost var k := Smaller(len, a.n + 1);
      SliceContinues(file, off, k, len);
      ReadingStep(file, off - ret, ret + len, orig, before, buf[..], ret, k);
      if readed == 0 { ReadingEnds(file, off - ret, ret + len, orig, before, ret, k); }
    }
  }

  /**
   * Reads again after an interruption and after every short read. Unless a call fails, the buffer gets exactly the
   * slice asked for; a failure ends the reading with what came before it. `attempts` says how the first calls go;
   * later ones deliver all there is.
   */
  method ReadContent(file: Bytes, buf: array<Byte>, size: nat, offset: nat, attempts: seq<Attempt>) returns (ret: nat)
    requires size <= buf.Length
    modifies buf
    ensures ret <= |Slice(file, offset, size)|
    ensures buf[..] == Slice(file, offset, size)[..ret] + old(buf[..])[ret..]
    ensures Failed !in attempts ==> ret == |Slice(file, offset, size)|
  {
    hide Reading, Slice;
    ret := 0;
    ghost var orig := buf[..];
    ReadingStart(file, offset, size, orig);
    var off: nat, len: nat, left: seq<Attempt> := offset, size, attempts;
    while len != 0
      invariant len + ret == size && off == offset + ret
      invariant Reading(file, offset, size, orig, buf[..], ret)
      invariant Failed in left ==> Failed in attempts
      decreases len, |left|
    {
      var a := if left == [] then AtMost(len) else left[0];
      left := if left == [] then [] else left[1..];
      var readed := PreadStep(file, buf, ret, len, off, a, orig);
      if readed == 0 {
        break;
      }
      if readed == -1 {
        if a == Interrupted { continue; }
        break;
      }
      off, len, ret := off + readed, len - readed, ret + readed;
    }
    ReadingDone(file, offset, size, orig, buf[..], ret);
  }

  /** The first `ret` bytes are there, the rest of the buffer is as it was. */
  ghost predicate Reading(file: Bytes, offset: nat, size: nat, orig: Bytes, now: Bytes, ret: nat) {
    var all := Slice(file, offset, size);
    && ret <= |all| <= size && ret <= |orig|
    && all == all[..ret] + Slice(file, offset + ret, size - ret) && now == all[..ret] + orig[ret..]
  }

  lemma ReadingStart(file: Bytes, offset: nat, size: nat, orig: Bytes)
    ensures Reading(file, offset, size, orig, orig, 0)
  {
    SliceContinues(file, offset, 0, size);
  }

  lemma ReadingStep(file: Bytes, offset: nat, size: nat, orig: Bytes, before: Bytes, after: Bytes, ret: nat, k: nat)
    requires size <= |orig| && ret <= size && k <= size - ret && Reading(file, offset, size, orig, before, ret)
    requires var piece := Slice(file, offset + ret, k);
             |before| == |orig| && ret + |piece| <= |orig| && after == before[..ret] + piece + before[ret + |piece|..]
    ensures ret + |Slice(file, offset + ret, k)| <= size
    ensures Reading(file, offset, size, orig, after, ret + |Slice(file, offset + ret, k)|)
  {
    hide Slice;
    var all, piece := Slice(file, offset, size), Slice(file, offset + ret, k);
    SliceContinues(file, offset + ret, k, size - ret);
    PieceFits(all, ret, piece, Slice(file, offset + ret + |piece|, size - ret - |piece|));
    BufferStep(orig, before, after, all, ret, piece);
  }

  lemma ReadingEnds(file: Bytes, offset: nat, size: nat, orig: Bytes, now: Bytes, ret: nat, k: nat)
    requires ret <= size && Reading(file, offset, size, orig, now, ret) && k > 0 && Slice(file, offset + ret, k) == []
    ensures ret == |Slice(file, offset, size)|
  {
    SliceEnds(file, offset + ret, k);
  }

  lemma ReadingDone(file: Bytes, offset: nat, size: nat, orig: Bytes, now: Bytes, ret: nat)
    requires Reading(file, offset, size, orig, now, ret)
    ensures ret <= |Slice(file, offset, size)| && ret <= |orig| && now == Slice(file, offset, size)[..ret] + orig[ret..]
    ensures ret == size ==> ret == |Slice(file, offset, size)|
  {
  }

  lemma BufferStep(orig: Bytes, before: Bytes, after: Bytes, all: Bytes, ret: nat, piece: Bytes)
    requires |before| == |orig| && ret + |piece| <= |orig| && ret + |piece| <= |all|
    requires before == all[..ret] + orig[ret..] && all[..ret + |piece|] == all[..ret] + piece
    requires after == before[..ret] + piece + before[ret + |piece|..]
    ensures after == all[..ret + |piece|] + orig[ret + |piece|..]
  {
  }

  lemma PieceFits(all: Bytes, ret: nat, piece: Bytes, rest: Bytes)
    requires ret <= |all| && all == all[..ret] + (piece + rest)
    ensures ret + |piece| <= |all| && all[..ret + |piece|] == all[..ret] + piece
    ensures all == all[..ret + |piece|] + rest
  {
  }

  function Sum(sizes: seq<nat>): nat {
    if sizes == [] then 0 else sizes[0] + Sum(sizes[1..])
  }

  lemma {:induction false} SumJoin(a: seq<nat>, b: seq<nat>)
    ensures Sum(a + b) == Sum(a) + Sum(b) && forall n: nat :: Sum([n]) == n
  {
    if a == [] {
      assert a + b == b;
    } else {
      SumJoin(a[1..], b);
      assert (a + b)[0] == a[0] && (a + b)[1..] == a[1..] + b;
    }
  }

  /** Consecutive reads of any sizes, each disturbed in its own way, put the file back together. */
  method ReadTiles(file: Bytes, sizes: seq<nat>, disturbances: seq<seq<Attempt>>) returns (all: Bytes)
    requires |disturbances| == |sizes| && forall d :: d in disturbances ==> Failed !in d
    ensures all == Slice(file, 0, Sum(sizes))
    ensures Sum(sizes) >= |file| ==> all == file
  {
    all := [];
    var offset: nat, i := 0, 0;
    assert sizes[0..] == sizes;
    while i < |sizes|
      invariant 0 <= i <= |sizes| && offset + Sum(sizes[i..]) == Sum(sizes)
      invariant all == Slice(file, 0, offset)
    {
      assert sizes[i..][0] == sizes[i] && sizes[i..][1..] == sizes[i + 1..];
      var buf := new Byte[sizes[i]];
      assert disturbances[i] in disturbances;
      var ret := ReadContent(file, buf, sizes[i], offset, disturbances[i]);
      SliceJoin(file, 0, offset, sizes[i]);
      assert buf[..ret] == Slice(file, offset, sizes[i]);
      all := all + buf[..ret];
      offset := offset + sizes[i];
      i := i + 1;
    }
  }

  /** What a reader delivered into the store is what later reads of the file deliver, piece by piece. */
  method StoreThenRead(m: ContentManager, id: Id, content: Reader, sizes: seq<nat>, disturbances: seq<seq<Attempt>>)
    returns (all: Bytes)
    requires m.Valid() && PlainId(id) && !Blocked(m.Here().disk, id)
    requires Sum(sizes) >= |Concat(content.chunks)|
    requires |disturbances| == |sizes| && forall d :: d in disturbances ==> Failed !in d
    modifies m, content
    ensures m.Valid() && all == old(Concat(content.chunks)) && m.Content() == old(m.Content())[id := all]
  {
    hide Stored, Sound, FileName, Above, Blocked;
    FullWrites(content.chunks);
    MadeFacts(m.Here(), id, Concat(content.chunks));
    var outcome, lost := m.CreateFile(id, content, [], None);
    var o := m.OpenFile(id, Flags(false, false, false, false));
    all := ReadTiles(m.data[o.inode], sizes, disturbances);
  }

  // ---------- whole runs ----------

  datatype Request =
    | Put(id: Id, chunks: seq<Bytes>, shorts: seq<nat>, failing: Option<nat>)
    | Drop(id: Id)
    | Ask(id: Id)
    | Fetch(id: Id, offset: nat, len: nat)

  datatype Reply = Done(saved: bool) | Dropped(outcome: Deletion) | Asked(there: bool) | Got(bytes: Option<Bytes>)

  /** What callers can tell of the store: the contents, and the first letters that have become directories. */
  datatype Shelf = Shelf(content: map<Id, Bytes>, letters: set<char>)

  ghost predicate IsLetter(s: Shelf, id: Id) {
    |id| == 1 && id[0] in s.letters
  }

  ghost function NextShelf(s: Shelf, r: Request): Shelf {
    match r
    case Put(id, chunks, shorts, failing) =>
      if LetterBlocks(s.content.Keys, s.letters, id) then s
      else
        var saved := Accepted(Tried(Pieces(chunks, BUFFER), failing), shorts);
        Shelf(s.content[id := saved], s.letters + if |id| > 2 then {id[0]} else {})
    case Drop(id) => s.(content := s.content - {id})
    case _ => s
  }

  ghost function ReplyOf(s: Shelf, r: Request): Reply {
    match r
    case Put(id, chunks, _, failing) =>
      Done(!LetterBlocks(s.content.Keys, s.letters, id) && !WriteFails(Pieces(chunks, BUFFER), failing))
    case Drop(id) => Dropped(if id in s.content then WasThere else if IsLetter(s, id) then NotEmpty else WasNot)
    case Ask(id) => Asked(id in s.content || IsLetter(s, id))
    case Fetch(id, offset, len) =>
      Got(if id in s.content then Some(Slice(s.content[id], offset, len))
          else if IsLetter(s, id) then Some([]) else None)
  }

  ghost function Replies(s: Shelf, rs: seq<Request>): seq<Reply>
    decreases |rs|
  {
    if rs == [] then [] else [ReplyOf(s, rs[0])] + Replies(NextShelf(s, rs[0]), rs[1..])
  }

  ghost function ShelfAfter(s: Shelf, rs: seq<Request>): Shelf
    decreases |rs|
  {
    if rs == [] then s else ShelfAfter(NextShelf(s, rs[0]), rs[1..])
  }

  ghost function ShelfOf(v: Volume): Shelf {
    Shelf(Contents(v), Letters(v.disk.dirs))
  }

  lemma ContentsIndex(v: Volume)
    requires Ok(v)
    ensures Contents(v).Keys == Index(v).Keys
  {
  }

  method Serve(m: ContentManager, r: Request) returns (a: Reply)
    requires m.Valid() && PlainId(r.id)
    modifies m
    ensures m.Valid() && a == ReplyOf(old(ShelfOf(m.Here())), r)
    ensures ShelfOf(m.Here()) == NextShelf(old(ShelfOf(m.Here())), r)
    ensures var i, was := r.id, old(m.Content());
            var letter := |i| == 1 && [i] in old(m.dirs);
            match r
            case Put(_, chunks, _, failing) =>
              a == Done(!letter && !(|i| > 2 && i[..1] in was) &&
                        !(failing.Some? && failing.value < |Pieces(chunks, BUFFER)|))
            case Drop(_) => a == Dropped(if i in was then WasThere else if letter then NotEmpty else WasNot)
            case Ask(_) => a == Asked(i in was || letter)
            case Fetch(_, off, len) =>
              a == Got(if i in was then Some(Slice(was[i], off, len)) else if letter then Some([]) else None)
    ensures !r.Put? ==> m.Content() == if r.Drop? then old(m.Content()) - {r.id} else old(m.Content())
    ensures forall i :: i != r.id ==>
              && (i in m.Content() <==> i in old(m.Content()))
              && (i in m.Content() ==> m.Content()[i] == old(m.Content())[i])
  {
    hide Stored, Sound, Blocked, Above, FileName, LetterBlocks, Letters, Made, Unnamed;
    ghost var v := m.Here();
    BlockedByLetters(v.disk, r.id);
    ContentsIndex(v);
    match r {
      case Put(id, chunks, shorts, failing) =>
        var reader := new Reader(chunks, false);
        var outcome, lost := m.CreateFile(id, reader, shorts, failing);
        if outcome != Refused {
          MadeFacts(v, id, Accepted(Tried(Pieces(chunks, BUFFER), failing), shorts));
          LettersAfter(v.disk.dirs, id);
        }
        a := Done(outcome == Saved);
      case Drop(id) =>
        UnnamedFacts(v, id);
        var outcome := m.DeleteFile(id);
        a := Dropped(outcome);
      case Ask(id) =>
        var there := m.Is(id);
        a := Asked(there);
      case Fetch(id, offset, len) =>
        var bytes := FetchFrom(m, id, offset, len);
        a := Got(bytes);
    }
  }

  /** Reading a directory fails at once, which looks like an empty file. */
  method FetchFrom(m: ContentManager, id: Id, offset: nat, len: nat) returns (b: Option<Bytes>)
    requires m.Valid() && PlainId(id)
    modifies m
    ensures m.Here() == old(m.Here())
    ensures b ==
            if id in m.Content() then Some(Slice(m.Content()[id], offset, len))
            else if |id| == 1 && [id] in m.dirs then Some([]) else None
  {
    HouseStands(m.Here().disk, id);
    ContentsIndex(m.Here());
    hide Stored, Sound, FileName, Slice, House;
    var o := m.OpenFile(id, Flags(false, false, false, false));
    match o
    case NoFile => b := None;
    case Directory => b := Some([]);
    case File(inode) =>
      var buf := new Byte[len];
      SliceContinues(m.data[inode], offset, 0, len);
      var n := ReadContent(m.data[inode], buf, len, offset, []);
      ghost var all := Slice(m.data[inode], offset, len);
      assert all[..n] == all && buf[..n] == buf[..][..n];
      b := Some(buf[..n]);
  }

  /** The state of the shelf before each request of a run, and at its end. */
  ghost predicate Shelves(s: Shelf, rs: seq<Request>, shelves: seq<Shelf>) {
    && |shelves| == |rs| + 1 && shelves[0] == s
    && forall k :: 0 <= k < |rs| ==> shelves[k + 1] == NextShelf(shelves[k], rs[k])
  }

  /** The replies come in order, each from the shelf as the requests before it have left it. */
  lemma {:induction false} ReplyAt(s: Shelf, rs: seq<Request>, shelves: seq<Shelf>)
    requires Shelves(s, rs, shelves)
    ensures |Replies(s, rs)| == |rs| && ShelfAfter(s, rs) == shelves[|rs|]
    ensures forall k :: 0 <= k < |rs| ==> Replies(s, rs)[k] == ReplyOf(shelves[k], rs[k])
    decreases |rs|
  {
    hide ReplyOf, NextShelf;
    if rs != [] {
      assert shelves[0 + 1] == NextShelf(shelves[0], rs[0]);
      ReplyAt(NextShelf(s, rs[0]), rs[1..], shelves[1..]);
    }
  }

  /** Over every run the directory answers like a map from id to bytes and a set of letters. */
  method ServeAll(m: ContentManager, rs: seq<Request>) returns (answers: seq<Reply>)
    requires m.Valid() && forall r :: r in rs ==> PlainId(r.id)
    modifies m
    ensures m.Valid()
    ensures answers == Replies(old(ShelfOf(m.Here())), rs)
    ensures ShelfOf(m.Here()) == ShelfAfter(old(ShelfOf(m.Here())), rs)
  {
    hide ShelfOf, Ok, ReplyOf, NextShelf, PlainId;
    answers := [];
    var i := 0;
    assert rs[0..] == rs;
    while i < |rs|
      invariant 0 <= i <= |rs| && m.Valid()
      invariant answers + Replies(ShelfOf(m.Here()), rs[i..]) == Replies(old(ShelfOf(m.Here())), rs)
      invariant ShelfAfter(ShelfOf(m.Here()), rs[i..]) == ShelfAfter(old(ShelfOf(m.Here())), rs)
    {
      assert rs[i..][0] == rs[i] && rs[i..][1..] == rs[i + 1..];
      ghost var later := rs[i + 1..];
      var a := Serve(m, rs[i]);
      assert answers + ([a] + Replies(ShelfOf(m.Here()), later)) == answers + [a] + Replies(ShelfOf(m.Here()), later);
      answers := answers + [a];
      i := i + 1;
    }
  }

  ghost predicate LongIds(ids: set<Id>) {
    forall i :: i in ids ==> |i| >= 2
  }

  /** As long as only ids of two letters and more are used, the letters never show: the store is a plain map. */
  lemma LongIdsArePlain(s: Shelf, r: Request)
    requires LongIds(s.content.Keys) && |r.id| >= 2
    ensures LongIds(NextShelf(s, r).content.Keys)
    ensures NextShelf(s, r).content == match r
              case Put(id, chunks, shorts, failing) =>
                s.content[id := Accepted(Tried(Pieces(chunks, BUFFER), failing), shorts)]
              case Drop(id) => s.content - {id}
              case _ => s.content
    ensures ReplyOf(s, r) == match r
              case Put(_, chunks, _, failing) => Done(!WriteFails(Pieces(chunks, BUFFER), failing))
              case Drop(id) => Dropped(if id in s.content then WasThere else WasNot)
              case Ask(id) => Asked(id in s.content)
              case Fetch(id, offset, len) =>
                Got(if id in s.content then Some(Slice(s.content[id], offset, len)) else None)
  {
  }

  /** After a long id its first letter seems to exist, and cannot be stored. */
  lemma FirstLetter(s: Shelf, id: Id, chunks: seq<Bytes>, shorts: seq<nat>, failing: Option<nat>)
    requires |id| > 2 && !LetterBlocks(s.content.Keys, s.letters, id)
    ensures var t := NextShelf(s, Put(id, chunks, shorts, failing));
            && id[..1] !in t.content && ReplyOf(t, Ask(id[..1])) == Asked(true)
            && forall c, k, f :: ReplyOf(t, Put(id[..1], c, k, f)) == Done(false)
  {
    assert id[..1][0] == id[0];
  }
}

/** The layout of the local content store: which file an id has, and what may stand on the disk. */
module StoreLayout {
  import opened Basics

  datatype Flags = Flags(write: bool, create: bool, exclusive: bool, truncate: bool)

  // ---------- file names ----------

  /** Ids as the drive issues them: not empty, no separator and no dot. */
  predicate PlainId(id: Id) {
    id != "" && forall c :: c in id ==> c != '/' && c != '.'
  }

  /** The file of an id, as components below the working directory: long ids are spread over two levels. */
  function FileName(id: Id): Path {
    if id == "" then []
    else if |id| > 2 then [id[..1], id[1..2], id[2..]]
    else [id]
  }

  function IdOf(p: Path): Id {
    if p == [] then "" else p[0] + IdOf(p[1..])
  }

  lemma IdOfFileName(id: Id)
    ensures IdOf(FileName(id)) == id
  {
    var p := FileName(id);
    if |id| > 2 {
      assert p[1..] == [id[1..2], id[2..]] && p[1..][1..] == [id[2..]] && p[1..][1..][1..] == [];
      assert IdOf([id[2..]]) == id[2..] && IdOf(p[1..]) == id[1..2] + IdOf([id[2..]]);
      assert id == id[..1] + (id[1..2] + id[2..]);
    } else if id != "" {
      assert p[1..] == [];
    }
  }

  /** Different ids never share a file. */
  lemma FileNameInjective(a: Id, b: Id)
    ensures FileName(a) == FileName(b) <==> a == b
  {
    IdOfFileName(a);
    IdOfFileName(b);
  }

  /** A file is a directory on the way to another file only if its id is the one first letter of a long id. */
  lemma OnTheWay(a: Id, b: Id)
    requires a != "" && b != ""
    ensures StrictlyBelow(FileName(a), FileName(b)) <==> |a| == 1 && |b| > 2 && a[0] == b[0]
  {
    var p, q := FileName(a), FileName(b);
    if p <= q && p != q {
      assert p[0] == q[0] && |q| == 3;
      assert |a| == 1 ==> a == b[..1];
    }
    if |a| == 1 && |b| > 2 && a[0] == b[0] {
      assert a == b[..1];
    }
  }

  /** The directory an id's file lies in. */
  function House(id: Id): Path {
    if |id| > 2 then [id[..1], id[1..2]] else []
  }

  lemma HouseIsUp(id: Id)
    requires id != ""
    ensures FileName(id) != [] && FileName(id)[..|FileName(id)| - 1] == House(id) && House(id) in Above(FileName(id))
  {
    assert FileName(id)[..|FileName(id)| - 1] == House(id);
  }

  // ---------- the disk ----------

  /** What a file name stands for is left open: an inode, or the bytes themselves. */
  datatype Disk<+V> = Disk(files: map<Path, V>, dirs: set<Path>)

  /** Only the store writes here: every file is some id's, and directories lie above files, with one-letter names. */
  ghost predicate Sound<V>(d: Disk<V>) {
    && (forall p :: p in d.files ==> FileOk(d, p))
    && (forall p :: p in d.dirs ==> DirOk(d, p))
  }

  ghost predicate FileOk<V>(d: Disk<V>, p: Path) {
    PlainId(IdOf(p)) && FileName(IdOf(p)) == p && p[..|p| - 1] in d.dirs
  }

  ghost predicate DirOk<V>(d: Disk<V>, p: Path) {
    && p !in d.files && |p| <= 2 && (forall k :: 0 <= k < |p| ==> |p[k]| == 1)
    && (p != [] ==> p[..|p| - 1] in d.dirs)
    && (|p| == 1 ==> exists q :: q in d.dirs && StrictlyBelow(p, q))
  }

  /** The map the directory stands for. */
  ghost function Stored<V>(d: Disk<V>): map<Id, V> {
    map id | id in (set p | p in d.files :: IdOf(p)) && FileName(id) in d.files :: d.files[FileName(id)]
  }

  lemma StoredIs<V>(d: Disk<V>, id: Id)
    ensures id in Stored(d) <==> FileName(id) in d.files
    ensures id in Stored(d) ==> Stored(d)[id] == d.files[FileName(id)]
  {
    IdOfFileName(id);
  }

  lemma StoredAfterWrite<V>(d: Disk<V>, e: Disk<V>, id: Id, b: V)
    requires e.files == d.files[FileName(id) := b]
    ensures Stored(e) == Stored(d)[id := b]
  {
    forall i
      ensures i in Stored(e) <==> i in Stored(d)[id := b]
      ensures i in Stored(e) ==> Stored(e)[i] == Stored(d)[id := b][i]
    {
      StoredIs(d, i);
      StoredIs(e, i);
      FileNameInjective(i, id);
    }
  }

  lemma StoredAfterDelete<V>(d: Disk<V>, e: Disk<V>, id: Id)
    requires e.files == d.files - {FileName(id)}
    ensures Stored(e) == Stored(d) - {id}
  {
    forall i
      ensures i in Stored(e) <==> i in Stored(d) - {id}
      ensures i in Stored(e) ==> Stored(e)[i] == Stored(d)[i]
    {
      StoredIs(d, i);
      StoredIs(e, i);
      FileNameInjective(i, id);
    }
  }

  /** What stands in the way of storing an id: only ids of one letter, against long ids with that first letter. */
  ghost predicate Blocked<V>(d: Disk<V>, id: Id) {
    (|id| == 1 && [id] in d.dirs) || (|id| > 2 && id[..1] in Stored(d))
  }

  /** On a sound disk an id of two letters or more never names a directory. */
  lemma LongIdsAreFiles<V>(d: Disk<V>, id: Id)
    requires Sound(d) && |id| >= 2
    ensures FileName(id) !in d.dirs
  {
    if |id| == 2 { assert FileName(id)[0] == id; }
  }

  function Above(p: Path): set<Path> {
    set k | 0 <= k < |p| :: p[..k]
  }

  /** Putting a file in place, with the directories above it, keeps the disk sound. */
  lemma CreateSound<V>(d: Disk<V>, e: Disk<V>, id: Id, b: V)
    requires Sound(d) && PlainId(id) && !Blocked(d, id)
    requires e == Disk(d.files[FileName(id) := b], d.dirs + Above(FileName(id)))
    ensures Sound(e)
  {
    var p := FileName(id);
    LongIdsBlock(d, id);
    forall q | q in e.dirs
      ensures DirOk(e, q)
    {
      if q in Above(p) { AboveDirOk(d, e, id, q); } else { assert DirOk(d, q); }
    }
    forall q | q in e.files
      ensures FileOk(e, q)
    {
      if q == p { NewFileOk(d, e, id); } else { assert FileOk(d, q); }
    }
  }

  lemma NewFileOk<V>(d: Disk<V>, e: Disk<V>, id: Id)
    requires PlainId(id) && Above(FileName(id)) <= e.dirs
    ensures FileOk(e, FileName(id))
  {
    var p := FileName(id);
    IdOfFileName(id);
    assert p[..|p| - 1] in Above(p);
  }

  lemma AboveDirOk<V>(d: Disk<V>, e: Disk<V>, id: Id, q: Path)
    requires Sound(d) && PlainId(id) && !Blocked(d, id) && q in Above(FileName(id))
    requires e.files.Keys == d.files.Keys + {FileName(id)} && Above(FileName(id)) <= e.dirs
    ensures DirOk(e, q)
  {
    var p := FileName(id);
    var k :| 0 <= k < |p| && q == p[..k];
    AboveIsFree(d, id, q);
    if k > 0 { assert q[..|q| - 1] == p[..k - 1]; }
    if |q| == 1 { assert p[..2] in Above(p) && StrictlyBelow(q, p[..2]); }
  }

  lemma LongIdsBlock<V>(d: Disk<V>, id: Id)
    requires Sound(d) && PlainId(id) && !Blocked(d, id)
    ensures FileName(id) !in d.dirs
  {
    if |id| >= 2 { LongIdsAreFiles(d, id); }
  }

  /** The only file that can lie above an id's file is the one-letter id that blocks it. */
  lemma FileAbove<V>(d: Disk<V>, id: Id, k: nat)
    requires Sound(d) && PlainId(id) && k < |FileName(id)|
    ensures FileName(id)[..k] in d.files <==> k == 1 && |id| > 2 && id[..1] in Stored(d)
  {
    hide Stored, IdOf;
    var q := FileName(id)[..k];
    if q in d.files {
      FileOfId(d, q);
      OnTheWay(IdOf(q), id);
      assert |id| > 2 && IdOf(q) == id[..1];
    }
    if |id| > 2 {
      StoredIs(d, id[..1]);
      assert k == 1 ==> q == FileName(id[..1]);
    }
  }

  lemma FileOfId<V>(d: Disk<V>, q: Path)
    requires Sound(d) && q in d.files
    ensures PlainId(IdOf(q)) && FileName(IdOf(q)) == q && q != [] && q[..|q| - 1] in d.dirs
  {
  }

  lemma AboveIsFree<V>(d: Disk<V>, id: Id, q: Path)
    requires Sound(d) && PlainId(id) && !Blocked(d, id) && q in Above(FileName(id))
    ensures q !in d.files
  {
    var k :| 0 <= k < |FileName(id)| && q == FileName(id)[..k];
    FileAbove(d, id, k);
  }

  lemma {:induction false} AboveInDirs<V>(d: Disk<V>, q: Path)
    requires Sound(d) && (q in d.files || q in d.dirs)
    ensures Above(q) <= d.dirs
    decreases |q|
  {
    if q != [] {
      AboveInDirs(d, q[..|q| - 1]);
      AboveSplit(q);
    }
  }

  lemma AboveSplit(q: Path)
    requires q != []
    ensures Above(q) == Above(q[..|q| - 1]) + {q[..|q| - 1]}
  {
    var up := q[..|q| - 1];
    assert forall k :: 0 <= k < |up| ==> up[..k] == q[..k];
    forall x | x in Above(q)
      ensures x in Above(up) + {up}
    {
      var k :| 0 <= k < |q| && x == q[..k];
      if k < |up| { assert x == up[..k]; }
    }
    forall x | x in Above(up)
      ensures x in Above(q)
    {
      var k :| 0 <= k < |up| && x == up[..k];
      assert x == q[..k];
    }
    assert up in Above(q);
  }

  /** What creating a file finds above it. */
  lemma UpFacts<V>(d: Disk<V>, id: Id)
    requires Sound(d) && PlainId(id)
    ensures FileName(id) != []
    ensures var p := FileName(id);
            var up := p[..|p| - 1];
            && up !in d.files && Above(p) == Above(up) + {up} && p !in Above(p)
            && (up in d.dirs ==> Above(p) <= d.dirs && (Blocked(d, id) <==> p in d.dirs))
            && (up !in d.dirs ==> p !in d.dirs && (Blocked(d, id) <==> |id| > 2 && id[..1] in Stored(d)))
            && ((forall k :: 0 <= k <= |up| ==> up[..k] !in d.files) <==> !(|id| > 2 && id[..1] in Stored(d)))
  {
    var p := FileName(id);
    var up := p[..|p| - 1];
    AboveSplit(p);
    FileAbove(d, id, |p| - 1);
    if |id| >= 2 { LongIdsAreFiles(d, id); }
    if up in d.dirs { AboveInDirs(d, up); }
    forall k | 0 <= k <= |up|
      ensures up[..k] == p[..k] && (up[..k] in d.files <==> k == 1 && |id| > 2 && id[..1] in Stored(d))
    {
      FileAbove(d, id, k);
    }
    if |id| > 2 {
      assert up[..1] == p[..1] && up[..1] in Above(p);
    }
  }

  lemma DeleteFacts<V>(d: Disk<V>, id: Id)
    requires Sound(d)
    ensures var e := Disk(d.files - {FileName(id)}, d.dirs); Sound(e) && Stored(e) == Stored(d) - {id}
    ensures |id| >= 2 ==> FileName(id) !in d.dirs
    ensures |id| == 1 ==> FileName(id) == [id]
    ensures forall dirs :: Stored(Disk(d.files, dirs)) == Stored(d)
  {
    StoredAfterDelete(d, Disk(d.files - {FileName(id)}, d.dirs), id);
    if |id| >= 2 { LongIdsAreFiles(d, id); }
  }

  /** Once a file is in place its directory stays usable for files to come. */
  lemma HouseStands<V>(d: Disk<V>, id: Id)
    requires Sound(d) && PlainId(id)
    ensures id in Stored(d) ==> House(id) in d.dirs
    ensures House(id) in d.dirs && FileName(id) !in d.dirs ==> !Blocked(d, id) && Above(FileName(id)) <= d.dirs
    ensures !Blocked(d, id) ==> FileName(id) !in d.dirs
    ensures FileName(id) in d.dirs <==> |id| == 1 && [id] in d.dirs
  {
    HouseIsUp(id);
    UpFacts(d, id);
    StoredIs(d, id);
    if id in Stored(d) { FileOfId(d, FileName(id)); }
    if |id| >= 2 { LongIdsAreFiles(d, id); }
  }

  // ---------- what a run can see of the directories ----------

  /** The letters that have become directories. */
  ghost function Letters(dirs: set<Path>): set<char> {
    set p, c | p in dirs && |p| == 1 && c in p[0] :: c
  }

  /** Only first letters matter: for one-letter ids those of the directories, for long ids those stored themselves. */
  ghost predicate LetterBlocks(ids: set<Id>, letters: set<char>, id: Id) {
    (|id| == 1 && id[0] in letters) || (|id| > 2 && id[..1] in ids)
  }

  lemma BlockedByLetters<V>(d: Disk<V>, id: Id)
    requires Sound(d)
    ensures Blocked(d, id) <==> LetterBlocks(Stored(d).Keys, Letters(d.dirs), id)
    ensures |id| == 1 ==> ([id] in d.dirs <==> id[0] in Letters(d.dirs))
  {
    forall p | p in d.dirs && |p| == 1
      ensures |p[0]| == 1
    {
      assert DirOk(d, p);
    }
    hide Stored, Sound;
    if |id| == 1 { LetterOf(d.dirs, id); }
  }

  lemma LetterOf(dirs: set<Path>, id: Id)
    requires |id| == 1 && forall p :: p in dirs && |p| == 1 ==> |p[0]| == 1
    ensures [id] in dirs <==> id[0] in Letters(dirs)
  {
    if [id] in dirs { assert |[id]| == 1 && id[0] in [id][0]; }
    if id[0] in Letters(dirs) {
      var p :| p in dirs && |p| == 1 && id[0] in p[0];
      assert p[0] == id && p == [id];
    }
  }

  lemma LettersAfter(dirs: set<Path>, id: Id)
    requires id != ""
    ensures Letters(dirs + Above(FileName(id))) == Letters(dirs) + if |id| > 2 then {id[0]} else {}
  {
    var p := FileName(id);
    if |id| > 2 {
      assert p[..1] in Above(p) && p[..1] == [id[..1]];
      assert forall q :: q in Above(p) && |q| == 1 ==> q == [id[..1]];
    } else {
      assert forall q :: q in Above(p) ==> |q| == 0;
    }
    forall c | c in Letters(dirs) + if |id| > 2 then {id[0]} else {}
      ensures c in Letters(dirs + Above(p))
    {
      if c in Letters(dirs) {
        var q :| q in dirs && |q| == 1 && c in q[0];
        assert q in dirs + Above(p);
      } else {
        assert p[..1] in dirs + Above(p) && c in p[..1][0];
      }
    }
  }
}

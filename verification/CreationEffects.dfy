/** What a creation leaves behind: on the drive, in memory, for the lookups that follow, and in listings. */
module CreationEffects {
  import opened Basics
  import opened CloudTree
  import opened CloudUpdates
  import opened LoadedTree
  import opened TreeUpdates
  import opened NodeCache
  import opened Loading
  import opened Lookups
  import opened Operations
  import opened Creation

  /** For the path, the search in memory got to `top` after `from` names, and `made` are the nodes for the others. */
  datatype Making = Making(path: Path, from: nat, top: Node, made: seq<Node>, chain: Chain)

  /** The part of the path that memory has. */
  function Held(r: Making): Path {
    if r.from <= |r.path| then r.path[..r.from] else r.path
  }

  /** The part that ends with the first name memory lacks. */
  function Onward(r: Making): Path {
    if r.from < |r.path| then r.path[..r.from + 1] else r.path
  }

  ghost function TopId(s: Snapshot, r: Making): Id {
    if r.top in s.tree then s.tree[r.top].id else ROOT
  }

  ghost function DriveAfter(c: Cloud, s: Snapshot, r: Making): Cloud {
    if |r.chain.names| <= |r.chain.ids| then Grown(c, TopId(s, r), r.chain, |r.chain.names|) else c
  }

  ghost predicate Creates(c: Cloud, root: Node, s: Snapshot, r: Making, u: Snapshot) {
    && Stops(c, root, s, r.path, r.top, r.from) && r.chain.names == r.path[r.from..] && ChainOk(c, r.chain)
    && Chained(s, u, r.top, r.made, r.chain) && |r.made| == |r.chain.names|
  }

  ghost predicate InFolder(c: Cloud, r: Making) {
    FolderAt(c, Held(r))
  }

  /** The drive does not have the first of the names either. */
  ghost predicate NameIsNew(c: Cloud, r: Making) {
    Walk(c, ROOT, Onward(r)) == None
  }

  ghost predicate OneBelowFilled(s: Snapshot, r: Making) {
    r.top in s.tree && s.tree[r.top].filled && r.from == |r.path| - 1
  }

  // ---------- what is known ----------

  lemma CreatesSizes(c: Cloud, root: Node, s: Snapshot, r: Making, u: Snapshot)
    requires Creates(c, root, s, r, u)
    ensures r.made != [] && 0 < |r.made| == |r.chain.names| <= |r.chain.ids| && r.from < |r.path|
    ensures r.chain.names[0] == r.path[r.from] && ChainOk(c, r.chain)
    ensures Held(r) + r.chain.names == r.path && Onward(r) == Held(r) + [r.chain.names[0]]
    ensures r.chain.ids[0] !in c
  {
    hide Stops, Chained;
    StopsShort(c, root, s, r.path, r.top, r.from);
  }

  lemma StopsShort(c: Cloud, root: Node, s: Snapshot, p: Path, n: Node, k: nat)
    requires Stops(c, root, s, p, n, k)
    ensures k < |p| && n in s.tree && WellFormed(c) && UniqueNames(c) && Mirrored(c, root, s)
    ensures Reached(s.tree, root, p, 0).0 == n && Reached(s.tree, root, p, 0).1 == k
    ensures Walk(c, ROOT, p[..k]) == Some(s.tree[n].id) && Named(s.tree, s.tree[n].next, p[k]).None?
  {
  }

  lemma CreatesFacts(c: Cloud, root: Node, s: Snapshot, r: Making, u: Snapshot)
    requires Creates(c, root, s, r, u)
    ensures WellFormed(c) && UniqueNames(c) && Mirrored(c, root, s) && Mirrors(c, s.tree, root, s.at)
    ensures Right(c, root, s.tree) && Usable(c, root, s.tree) && Chained(s, u, r.top, r.made, r.chain)
    ensures r.top in s.tree && TopId(s, r) == s.tree[r.top].id && TopId(s, r) in c && r.from < |r.path|
    ensures Walk(c, ROOT, Held(r)) == Some(TopId(s, r))
    ensures Reached(s.tree, root, r.path, 0).0 == r.top && Reached(s.tree, root, r.path, 0).1 == r.from
  {
    StopsShort(c, root, s, r.path, r.top, r.from);
    MirroredParts(c, root, s);
    MirrorRight(c, root, s);
    RightUsable(c, root, s.tree);
    hide Stops, Chained, Right, Mirrors, Agrees, Mirrored, Walk, Named, Reached, WellFormed, UniqueNames, ChainOk;
    assert Backed(c, s.tree, r.top);
  }

  lemma TopFacts(c: Cloud, root: Node, s: Snapshot, r: Making, u: Snapshot)
    requires Creates(c, root, s, r, u)
    ensures r.top in s.tree && TopId(s, r) in c && r.chain.names != []
    ensures InFolder(c, r) <==> c[TopId(s, r)].folder
    ensures Child(c, TopId(s, r), r.chain.names[0]) == None <==> NameIsNew(c, r)
    ensures s.tree[r.top].filled ==> InFolder(c, r) && NameIsNew(c, r)
    ensures !s.tree[r.top].filled ==> s.tree[r.top].next == []
  {
    CreatesFacts(c, root, s, r, u);
    CreatesSizes(c, root, s, r, u);
    StopsFacts(c, root, s, r.path, r.top, r.from);
    if !s.tree[r.top].filled { UnfilledIsEmpty(c, root, s, r.top); }
    hide Stops, Chained, Right, Usable, Mirrors, Agrees, Mirrored, Walk, Reached, WellFormed, UniqueNames, ChainOk,
      Child;
  }

  lemma FirstNewHere(c: Cloud, root: Node, s: Snapshot, r: Making, u: Snapshot)
    requires Creates(c, root, s, r, u) && InFolder(c, r) && NameIsNew(c, r)
    ensures FirstIsNew(c, Held(r), TopId(s, r), r.chain)
  {
    hide Mirrors, Right, Usable, WellFormed, UniqueNames, Child, Walk, Chained, Mirrored, InFolder, NameIsNew;
    CreatesFacts(c, root, s, r, u);
    CreatesSizes(c, root, s, r, u);
    TopFacts(c, root, s, r, u);
  }

  lemma UnfilledIsEmpty(c: Cloud, root: Node, s: Snapshot, n: Node)
    requires Mirrored(c, root, s) && n in s.tree && !s.tree[n].filled
    ensures s.tree[n].next == []
  {
    assert NodeOk(c, s.tree, root, s.at, n);
  }

  lemma StopsFacts(c: Cloud, root: Node, s: Snapshot, p: Path, n: Node, k: nat)
    requires Stops(c, root, s, p, n, k)
    ensures s.tree[n].filled ==> FolderAt(c, p[..k]) && Walk(c, ROOT, p[..k + 1]) == None
    ensures s.tree[n].id in c && (Child(c, s.tree[n].id, p[k]) == None <==> Walk(c, ROOT, p[..k + 1]) == None)
    ensures FolderAt(c, p[..k]) <==> c[s.tree[n].id].folder
  {
    hide UniqueNames, Agrees;
    assert NodeOk(c, s.tree, root, s.at, n);
    StepDown(c, s.tree, root, s.at, n, p, k);
    assert p[..k + 1] == p[..k] + [p[k]];
    WalkSnoc(c, ROOT, p[..k], p[k]);
  }

  // ---------- the drive and the invariant ----------

  lemma ChainedFilled(s: Snapshot, u: Snapshot, n: Node, made: seq<Node>, ch: Chain)
    requires Chained(s, u, n, made, ch)
    ensures FilledIds(u.tree) == FilledIds(s.tree)
  {
    forall l | l in s.tree && s.tree[l].filled
      ensures l in u.tree && u.tree[l].filled && u.tree[l].id == s.tree[l].id
    {
    }
    forall k | 0 <= k < |made|
      ensures !u.tree[made[k]].filled
    {
      assert u.tree[made[k]] == LinkState(n, made, ch, k);
    }
    assert forall l :: l in u.tree && u.tree[l].filled ==> l !in made;
  }

  lemma ChainedOne(s: Snapshot, u: Snapshot, n: Node, made: seq<Node>, ch: Chain)
    requires Chained(s, u, n, made, ch) && |made| == 1
    ensures n in s.tree && n in s.at && made[0] !in s.tree
    ensures u == Snapshot(AddedTree(s.tree, n, made[0], ch.ids[0], ch.names[0], KindAt(ch, 0)),
                          s.at[made[0] := s.at[n] + [ch.ids[0]]], s.maps)
  {
    hide KindAt;
    assert u.tree[made[0]] == LinkState(n, made, ch, 0);
    assert ch.ids[..1] == [ch.ids[0]];
  }

  lemma ChainedMany(c: Cloud, root: Node, s: Snapshot, u: Snapshot, n: Node, made: seq<Node>, ch: Chain)
    requires Chained(s, u, n, made, ch) && made != [] && n in s.tree && (|made| > 1 || !s.tree[n].filled)
    ensures !Mirrored(c, root, u)
  {
    var m := if |made| > 1 then made[0] else n;
    if |made| > 1 { assert u.tree[m] == LinkState(n, made, ch, 0) && m in made; }
    if Mirrored(c, root, u) { UnfilledIsEmpty(c, root, u, m); }
  }

  /**
   * The drive: below a folder it stays a tree; its names stay unique, and the path leads to the new entry, exactly if
   * the first of the names was not there yet.
   */
  lemma CreationOnDrive(c: Cloud, root: Node, s: Snapshot, r: Making, u: Snapshot)
    requires Creates(c, root, s, r, u) && InFolder(c, r)
    ensures |r.chain.names| <= |r.chain.ids| && r.chain.names != []
    ensures var d := DriveAfter(c, s, r);
            && WellFormed(d) && (UniqueNames(d) <==> NameIsNew(c, r))
            && Walk(d, ROOT, r.path) ==
               if NameIsNew(c, r) then Some(r.chain.ids[|r.chain.names| - 1]) else Walk(c, ROOT, r.path)
  {
    hide WellFormed, UniqueNames, Mirrored, Walk, Child, Grown, KindAt, Mirrors, Right, Usable, Chained, InFolder,
      NameIsNew, Creates;
    CreatesFacts(c, root, s, r, u);
    CreatesSizes(c, root, s, r, u);
    TopFacts(c, root, s, r, u);
    var par, all := TopId(s, r), |r.chain.names|;
    if NameIsNew(c, r) {
      FirstNewHere(c, root, s, r, u);
      GrownWell(c, Held(r), par, r.chain, all);
      OwnerReached(c, Held(r), par, r.chain, all);
      assert r.chain.names[..all] == r.chain.names;
    } else {
      GrownUnseen(c, par, r.chain, all, r.path);
    }
  }

  /** On the drive one entry is made for each name, and nothing else changes but the list that holds the first one. */
  lemma CreationEntries(c: Cloud, root: Node, s: Snapshot, r: Making, u: Snapshot)
    requires Creates(c, root, s, r, u)
    ensures |r.chain.names| <= |r.chain.ids|
    ensures MadeSoFar(c, DriveAfter(c, s, r), TopId(s, r), r.chain, |r.chain.names|)
    ensures LastOf(r.top, r.made) in u.tree && u.tree[LastOf(r.top, r.made)].id == r.chain.ids[|r.chain.names| - 1]
  {
    hide WellFormed, UniqueNames, Mirrored, Walk, Grown, Mirrors, Right, Usable, Chained, InFolder, NameIsNew, Creates,
      MadeSoFar;
    CreatesFacts(c, root, s, r, u);
    CreatesSizes(c, root, s, r, u);
    ChainedLast(s, u, r.top, r.made, r.chain);
    GrownEntries(c, TopId(s, r), r.chain, |r.chain.names|);
  }

  /** With a new first name the paths of the new entries lead to them, and all others where they led. */
  lemma CreationWalks(c: Cloud, root: Node, s: Snapshot, r: Making, u: Snapshot)
    requires Creates(c, root, s, r, u) && InFolder(c, r) && NameIsNew(c, r)
    ensures PathAdded(c, DriveAfter(c, s, r), r.path, r.from, r.chain.ids)
  {
    hide Walk, InFolder, NameIsNew, Creates, PathAdded, FirstIsNew, Grown;
    CreatedNames(c, root, s, r, u);
    FirstNewHere(c, root, s, r, u);
    PathGrows(c, r.path, r.from, TopId(s, r), r.chain);
  }

  lemma CreatedNames(c: Cloud, root: Node, s: Snapshot, r: Making, u: Snapshot)
    requires Creates(c, root, s, r, u)
    ensures r.from < |r.path| && r.chain.names == r.path[r.from..] && |r.chain.names| <= |r.chain.ids|
    ensures ChainOk(c, r.chain)
  {
    hide WellFormed, UniqueNames, Mirrored, Walk, Chained;
  }

  /** Memory goes on mirroring the drive exactly if one name was missing below a filled folder. */
  lemma CreationOutcome(c: Cloud, root: Node, s: Snapshot, r: Making, u: Snapshot)
    requires Creates(c, root, s, r, u)
    ensures WellFormed(DriveAfter(c, s, r)) && Mirrored(DriveAfter(c, s, r), root, u) <==> OneBelowFilled(s, r)
    ensures OneBelowFilled(s, r) ==> InFolder(c, r) && NameIsNew(c, r)
    ensures FilledIds(u.tree) == FilledIds(s.tree)
  {
    hide WellFormed, UniqueNames, Mirrored, Walk, Child, Grown, KindAt, Mirrors, Right, Usable, Chained, InFolder,
      NameIsNew, Creates, FilledIds, DriveAfter;
    CreatesFacts(c, root, s, r, u);
    CreatesSizes(c, root, s, r, u);
    TopFacts(c, root, s, r, u);
    ChainedFilled(s, u, r.top, r.made, r.chain);
    if OneBelowFilled(s, r) {
      OneKeepsAll(c, root, s, r, u);
      CreationOnDrive(c, root, s, r, u);
    } else {
      ChainedMany(DriveAfter(c, s, r), root, s, u, r.top, r.made, r.chain);
    }
  }

  lemma OneKeepsAll(c: Cloud, root: Node, s: Snapshot, r: Making, u: Snapshot)
    requires Creates(c, root, s, r, u) && OneBelowFilled(s, r)
    ensures Mirrored(DriveAfter(c, s, r), root, u)
  {
    hide WellFormed, UniqueNames, Mirrored, Walk, Child, Chained, AddedTree, KindAt, Mirrors, Right, Usable, NameIsNew;
    CreatesFacts(c, root, s, r, u);
    CreatesSizes(c, root, s, r, u);
    TopFacts(c, root, s, r, u);
    ChainedOne(s, u, r.top, r.made, r.chain);
    GrownOnce(c, TopId(s, r), r.chain, 1);
    CreateKeepsMirrored(c, root, s, Held(r), r.top, r.made[0], r.chain.ids[0], r.chain.names[0], KindAt(r.chain, 0));
  }

  /** Then the cache is as true as it was. */
  lemma OneKeepsTrue(c: Cloud, root: Node, s: Snapshot, r: Making, u: Snapshot, stale: set<Path>)
    requires Creates(c, root, s, r, u) && OneBelowFilled(s, r)
    ensures Faithful(c, root, s) ==> Faithful(DriveAfter(c, s, r), root, u)
    ensures Sound(c, root, s, stale) ==> Sound(DriveAfter(c, s, r), root, u, stale)
  {
    hide WellFormed, UniqueNames, Mirrored, Walk, Child, Chained, AddedTree, KindAt, Mirrors, Right, Usable, NameIsNew,
      Faithful, Sound;
    CreatesFacts(c, root, s, r, u);
    CreatesSizes(c, root, s, r, u);
    TopFacts(c, root, s, r, u);
    ChainedOne(s, u, r.top, r.made, r.chain);
    GrownOnce(c, TopId(s, r), r.chain, 1);
    var up, n, m, i, x, kind := Held(r), r.top, r.made[0], r.chain.ids[0], r.chain.names[0], KindAt(r.chain, 0);
    if Faithful(c, root, s) { CreateKeepsFaithful(c, root, s, up, n, m, i, x, kind); }
    if Sound(c, root, s, stale) { CreateKeepsSound(c, root, s, up, n, m, i, x, kind, stale); }
  }

  // ---------- the children of the new tree, on the drive and in memory ----------

  lemma {:induction false} GrownOld(c: Cloud, par: Id, ch: Chain, j: nat, i: Id)
    requires par in c && ChainOk(c, ch) && j <= |ch.names| && i in c
    ensures i in Grown(c, par, ch, j)
    ensures Grown(c, par, ch, j)[i] == if i == par && j > 0 then c[i].(kids := c[i].kids + [ch.ids[0]]) else c[i]
  {
    if j > 0 {
      GrownOld(c, par, ch, j - 1, i);
      GrownKeys(c, par, ch, j - 1);
      NotYetUsed(c, par, ch, j - 1);
      GrownOnce(c, par, ch, j);
      hide Grown, KindAt;
    }
  }

  lemma {:induction false} GrownNew(c: Cloud, par: Id, ch: Chain, j: nat, k: nat)
    requires par in c && ChainOk(c, ch) && k < j <= |ch.names|
    ensures ch.ids[k] in Grown(c, par, ch, j)
    ensures Grown(c, par, ch, j)[ch.ids[k]] ==
            Entry(ch.names[k], KindAt(ch, k), if k + 1 < j then [ch.ids[k + 1]] else [])
  {
    GrownKeys(c, par, ch, j - 1);
    NotYetUsed(c, par, ch, j - 1);
    GrownOnce(c, par, ch, j);
    assert [] + [ch.ids[j - 1]] == [ch.ids[j - 1]];
    if k < j - 1 { GrownNew(c, par, ch, j - 1, k); }
    hide Grown, KindAt;
  }

  lemma EntryChildren(c: Cloud, par: Id, ch: Chain, i: Id, x: Name)
    requires WellFormed(c) && par in c && ChainOk(c, ch) && ch.names != [] && i in c
    ensures Child(Grown(c, par, ch, |ch.names|), i, x) ==
            if i == par && x == ch.names[0] && Child(c, i, x) == None then Some(ch.ids[0]) else Child(c, i, x)
  {
    var d := Grown(c, par, ch, |ch.names|);
    forall l | l in c[i].kids
      ensures l in c && l in d && c[l].name == d[l].name
    {
      GrownOld(c, par, ch, |ch.names|, l);
    }
    GrownOld(c, par, ch, |ch.names|, i);
    GrownNew(c, par, ch, |ch.names|, 0);
    hide Grown, KindAt, ChainOk, WellFormed;
    LookupSame(c, d, c[i].kids, x);
    if i == par { LookupAppended(d, c[i].kids, ch.ids[0], x); }
  }

  lemma LinkChildren(c: Cloud, par: Id, ch: Chain, k: nat, x: Name)
    requires par in c && ChainOk(c, ch) && k < |ch.names|
    ensures Child(Grown(c, par, ch, |ch.names|), ch.ids[k], x) ==
            if k + 1 < |ch.names| && x == ch.names[k + 1] then Some(ch.ids[k + 1]) else None
  {
    GrownNew(c, par, ch, |ch.names|, k);
    if k + 1 < |ch.names| { GrownNew(c, par, ch, |ch.names|, k + 1); }
    hide Grown, KindAt, ChainOk;
  }

  lemma ChainedMember(s: Snapshot, u: Snapshot, n: Node, made: seq<Node>, ch: Chain, l: Node) returns (k: nat)
    requires Chained(s, u, n, made, ch) && l in u.tree && l !in s.tree
    ensures k < |made| && made[k] == l && u.tree[l] == LinkState(n, made, ch, k)
    ensures k + 1 < |made| ==> made[k + 1] in u.tree && made[k + 1] in made
  {
    k :| 0 <= k < |made| && made[k] == l;
    if k + 1 < |made| { assert made[k + 1] in made; }
  }

  lemma ChainedOld(s: Snapshot, u: Snapshot, n: Node, made: seq<Node>, ch: Chain, l: Node)
    requires Chained(s, u, n, made, ch) && made != [] && l in s.tree
    ensures l in u.tree && made[0] in u.tree && made[0] !in s.tree && u.tree[made[0]] == LinkState(n, made, ch, 0)
    ensures u.tree[l] == if l == n then s.tree[l].(next := s.tree[l].next + [made[0]]) else s.tree[l]
    ensures forall m :: m in s.tree ==>
              m in u.tree && u.tree[m].id == s.tree[m].id && u.tree[m].name == s.tree[m].name
  {
    assert made[0] in made;
  }

  lemma LinkNamed(s: Snapshot, u: Snapshot, n: Node, made: seq<Node>, ch: Chain, j: nat, x: Name)
    requires Chained(s, u, n, made, ch) && j < |made|
    ensures made[j] in u.tree && u.tree[made[j]].id == ch.ids[j]
    ensures Named(u.tree, [made[j]], x) == if x == ch.names[j] then Some(made[j]) else None
  {
    assert made[j] in made && u.tree[made[j]] == LinkState(n, made, ch, j);
  }

  lemma BackedAfter(c: Cloud, root: Node, s: Snapshot, u: Snapshot, n: Node, made: seq<Node>, ch: Chain, l: Node)
    requires Usable(c, root, s.tree) && Chained(s, u, n, made, ch) && |made| == |ch.names| && made != []
    requires ChainOk(c, ch)
    requires l in u.tree
    ensures n in s.tree && Backed(Grown(c, s.tree[n].id, ch, |made|), u.tree, l)
  {
    assert n in s.tree && Backed(c, s.tree, n);
    if l in s.tree {
      ChainedOld(s, u, n, made, ch, l);
      assert Backed(c, s.tree, l);
      hide Chained;
      GrownOld(c, s.tree[n].id, ch, |made|, s.tree[l].id);
    } else {
      var k := ChainedMember(s, u, n, made, ch, l);
      hide Chained, Usable;
      GrownNew(c, s.tree[n].id, ch, |made|, k);
    }
  }

  // ---------- lookups afterwards ----------

  lemma UsableAfter(c: Cloud, root: Node, s: Snapshot, r: Making, u: Snapshot)
    requires Creates(c, root, s, r, u)
    ensures Usable(DriveAfter(c, s, r), root, u.tree)
  {
    hide WellFormed, UniqueNames, Mirrored, Walk, Child, Grown, Mirrors, Right, Chained, Creates, Backed, ChainOk;
    CreatesFacts(c, root, s, r, u);
    CreatesSizes(c, root, s, r, u);
    ChainedOld(s, u, r.top, r.made, r.chain, root);
    forall l | l in u.tree
      ensures Backed(DriveAfter(c, s, r), u.tree, l)
    {
      BackedAfter(c, root, s, u, r.top, r.made, r.chain, l);
    }
    assert u.tree[root].id == s.tree[root].id;
  }

  lemma OldFinds(c: Cloud, root: Node, s: Snapshot, r: Making, u: Snapshot, l: Node, x: Name)
    requires Creates(c, root, s, r, u) && NameIsNew(c, r) && l in s.tree
    ensures l in u.tree && FindsRight(DriveAfter(c, s, r), u.tree, l, x)
  {
    CreatesFacts(c, root, s, r, u);
    CreatesSizes(c, root, s, r, u);
    TopFacts(c, root, s, r, u);
    assert FindsRight(c, s.tree, l, x) && Backed(c, s.tree, l);
    hide Creates, Mirrors, Right, Usable, Chained, WellFormed, Child, Grown, ChainOk, KindAt, Mirrored, NameIsNew;
    ChainedOld(s, u, r.top, r.made, r.chain, l);
    LinkNamed(s, u, r.top, r.made, r.chain, 0, x);
    IdsDiffer(c, s.tree, root, s.at, l, r.top);
    EntryChildren(c, TopId(s, r), r.chain, s.tree[l].id, x);
    NamedSame(s.tree, u.tree, s.tree[l].next, x);
    NamedAppend(u.tree, s.tree[l].next, [r.made[0]], x);
  }

  lemma NewFinds(c: Cloud, root: Node, s: Snapshot, r: Making, u: Snapshot, l: Node, x: Name)
    requires Creates(c, root, s, r, u) && l in u.tree && l !in s.tree
    ensures FindsRight(DriveAfter(c, s, r), u.tree, l, x)
  {
    hide Creates, Mirrors, Right, Usable, Chained, WellFormed, UniqueNames, Child, Walk, Reached, Grown, ChainOk,
      KindAt, Mirrored;
    CreatesFacts(c, root, s, r, u);
    CreatesSizes(c, root, s, r, u);
    var j := ChainedMember(s, u, r.top, r.made, r.chain, l);
    LinkChildren(c, TopId(s, r), r.chain, j, x);
    if j + 1 < |r.made| { LinkNamed(s, u, r.top, r.made, r.chain, j + 1, x); }
  }

  /** If the first name was new, memory goes on finding what the drive finds, filled or not. */
  lemma RightAfter(c: Cloud, root: Node, s: Snapshot, r: Making, u: Snapshot)
    requires Creates(c, root, s, r, u) && NameIsNew(c, r)
    ensures Right(DriveAfter(c, s, r), root, u.tree)
  {
    UsableAfter(c, root, s, r, u);
    hide Creates, NameIsNew, Usable, DriveAfter, FindsRight;
    forall l, x | l in u.tree
      ensures FindsRight(DriveAfter(c, s, r), u.tree, l, x)
    {
      if l in s.tree { OldFinds(c, root, s, r, u, l, x); } else { NewFinds(c, root, s, r, u, l, x); }
    }
  }

  /** Where a path leads does not change unless it is new. */
  lemma WalkUnchanged(c: Cloud, root: Node, s: Snapshot, r: Making, u: Snapshot, q: Path)
    requires Creates(c, root, s, r, u) && InFolder(c, r) && Walk(c, ROOT, q).Some?
    ensures Walk(DriveAfter(c, s, r), ROOT, q) == Walk(c, ROOT, q)
  {
    hide Creates, Mirrors, Right, Usable, WellFormed, UniqueNames, Child, Walk, Grown, ChainOk, Chained, InFolder,
      FirstIsNew, Mirrored;
    CreatesFacts(c, root, s, r, u);
    CreatesSizes(c, root, s, r, u);
    TopFacts(c, root, s, r, u);
    var first, all := Onward(r), |r.chain.names|;
    if NameIsNew(c, r) {
      FirstNewHere(c, root, s, r, u);
      GrownWalks(c, Held(r), TopId(s, r), r.chain, all, q);
      if IsNew(Held(r), r.chain, all, q) {
        NewStartsSo(r, q);
        assert q[..|first|] == first;
        WalkCut(c, q, |first|);
      }
    } else {
      GrownUnseen(c, TopId(s, r), r.chain, all, q);
    }
  }

  lemma NewStartsSo(r: Making, q: Path)
    requires r.from < |r.path| && r.chain.names == r.path[r.from..]
    requires IsNew(Held(r), r.chain, |r.chain.names|, q)
    ensures Onward(r) <= q
  {
    assert Held(r) + r.chain.names[..|r.chain.names|] == r.path;
  }

  /** A cached path goes on walking to its node. */
  lemma CachedAfter(c: Cloud, root: Node, s: Snapshot, r: Making, u: Snapshot, stale: set<Path>)
    requires Creates(c, root, s, r, u) && InFolder(c, r) && TrueBut(c, s.tree, s.maps.paths, stale)
    ensures TrueBut(DriveAfter(c, s, r), u.tree, u.maps.paths, stale)
  {
    SamePathsAfter(s, u, r.top, r.made, r.chain);
    hide Creates, Mirrors, Right, Usable, WellFormed, UniqueNames, Child, Walk, Grown, Chained, InFolder, Mirrored,
      DriveAfter;
    CreatesFacts(c, root, s, r, u);
    CreatesSizes(c, root, s, r, u);
    forall q | q in u.maps.paths && q !in stale
      ensures u.maps.paths[q] in u.tree && Walk(DriveAfter(c, s, r), ROOT, q) == Some(u.tree[u.maps.paths[q]].id)
    {
      ChainedOld(s, u, r.top, r.made, r.chain, s.maps.paths[q]);
      WalkUnchanged(c, root, s, r, u, q);
    }
  }

  lemma SamePathsAfter(s: Snapshot, u: Snapshot, n: Node, made: seq<Node>, ch: Chain)
    requires Chained(s, u, n, made, ch)
    ensures u.maps == s.maps
  {
  }

  /** The way a search took is the way it takes afterwards, and it goes on to the new node. */
  lemma {:induction false} ReachedAfter(s: Snapshot, u: Snapshot, r: Making, l: Node, j: nat)
    requires Chained(s, u, r.top, r.made, r.chain) && r.made != [] && l in s.tree && j <= r.from < |r.path|
    requires Reached(s.tree, l, r.path, j).0 == r.top && Reached(s.tree, l, r.path, j).1 == r.from
    requires r.chain.names[0] == r.path[r.from]
    requires forall m :: m in s.tree ==> forall i :: i in s.tree[m].next ==> i in s.tree
    ensures j <= |Onward(r)| && Reached(u.tree, l, Onward(r), j) == (r.made[0], r.from + 1)
    decreases r.from - j
  {
    var x := r.path[j];
    ChainedOld(s, u, r.top, r.made, r.chain, l);
    LinkNamed(s, u, r.top, r.made, r.chain, 0, x);
    hide Chained, Named;
    NamedSame(s.tree, u.tree, s.tree[l].next, x);
    NamedAppend(u.tree, s.tree[l].next, [r.made[0]], x);
    assert Onward(r)[j] == x;
    if j < r.from { ReachedAfter(s, u, r, Named(s.tree, s.tree[l].next, x).value, j + 1); }
  }

  lemma SearchTook(c: Cloud, root: Node, s: Snapshot, r: Making, u: Snapshot)
    requires Creates(c, root, s, r, u)
    ensures r.made != [] && Reached(u.tree, root, Onward(r), 0) == (r.made[0], r.from + 1)
  {
    CreatesFacts(c, root, s, r, u);
    CreatesSizes(c, root, s, r, u);
    hide Creates, Mirrored, Mirrors, Right, WellFormed, UniqueNames, Walk, Chained, Reached;
    forall m | m in s.tree
      ensures forall i :: i in s.tree[m].next ==> i in s.tree
    {
      assert Backed(c, s.tree, m);
    }
    ReachedAfter(s, u, r, root, 0);
  }

  /** A loaded entry one step below the node where the search stopped would have been found. */
  lemma NotLoaded(c: Cloud, root: Node, s: Snapshot, r: Making, u: Snapshot, m: Node)
    requires Creates(c, root, s, r, u) && m in s.tree
    ensures Walk(c, ROOT, Onward(r)) != Some(s.tree[m].id)
  {
    hide Creates, Mirrored, Mirrors, Right, WellFormed, UniqueNames, Walk, Chained, Usable;
    CreatesFacts(c, root, s, r, u);
    CreatesSizes(c, root, s, r, u);
    TopFacts(c, root, s, r, u);
    if Walk(c, ROOT, Onward(r)) == Some(s.tree[m].id) {
      OwnerOnPath(c, s.tree, root, s.at, m, Held(r), r.chain.names[0]);
      IdsDiffer(c, s.tree, root, s.at, s.tree[m].parent, r.top);
    }
  }

  /** A name the drive already had is found as the new node afterwards, where the walk leads to the old entry. */
  lemma WrongAfter(c: Cloud, root: Node, s: Snapshot, r: Making, u: Snapshot, stale: set<Path>)
    requires Creates(c, root, s, r, u) && InFolder(c, r) && !NameIsNew(c, r)
    requires TrueBut(c, s.tree, s.maps.paths, stale) && Onward(r) !in stale
    ensures r.chain.ids != []
    ensures LookupAnswer(DriveAfter(c, s, r), u.tree, u.maps.paths, root, Onward(r)) == Some(r.chain.ids[0])
    ensures Walk(DriveAfter(c, s, r), ROOT, Onward(r)) == Walk(c, ROOT, Onward(r))
    ensures Walk(c, ROOT, Onward(r)).Some? && Walk(c, ROOT, Onward(r)) != Some(r.chain.ids[0])
  {
    SamePathsAfter(s, u, r.top, r.made, r.chain);
    hide Creates, Mirrors, Right, Usable, WellFormed, UniqueNames, Child, Walk, Grown, Chained, InFolder, Mirrored,
      Reached, DriveAfter;
    CreatesFacts(c, root, s, r, u);
    CreatesSizes(c, root, s, r, u);
    WalkStays(c, ROOT, Onward(r));
    WalkUnchanged(c, root, s, r, u, Onward(r));
    if Onward(r) in s.maps.paths {
      NotLoaded(c, root, s, r, u, s.maps.paths[Onward(r)]);
    }
    SearchTook(c, root, s, r, u);
    LinkNamed(s, u, r.top, r.made, r.chain, 0, "");
  }

  /**
   * The lookups that follow, in a folder, away from paths that misled before: each is answered as the drive walks
   * exactly if the drive did not have the first of the names; and then memory is in a state that keeps it so.
   */
  lemma LookupsAfter(c: Cloud, root: Node, s: Snapshot, r: Making, u: Snapshot, stale: set<Path>)
    requires Creates(c, root, s, r, u) && InFolder(c, r) && TrueBut(c, s.tree, s.maps.paths, stale)
    ensures NameIsNew(c, r) ==>
              && AnswersRight(DriveAfter(c, s, r), root, u.tree, u.maps.paths, stale)
              && Right(DriveAfter(c, s, r), root, u.tree) && TrueBut(DriveAfter(c, s, r), u.tree, u.maps.paths, stale)
    ensures !NameIsNew(c, r) && Onward(r) !in stale ==>
              !AnswersRight(DriveAfter(c, s, r), root, u.tree, u.maps.paths, stale)
  {
    hide Creates, Right, WellFormed, Walk, InFolder, NameIsNew, LookupAnswer, DriveAfter, TrueBut;
    var d := DriveAfter(c, s, r);
    if NameIsNew(c, r) {
      RightAfter(c, root, s, r, u);
      CachedAfter(c, root, s, r, u, stale);
      CreationOnDrive(c, root, s, r, u);
      forall q | q !in stale
        ensures LookupAnswer(d, u.tree, u.maps.paths, root, q) == Walk(d, ROOT, q)
      {
        AnswerWalks(d, root, u.tree, u.maps.paths, stale, q);
      }
    } else if Onward(r) !in stale {
      WrongAfter(c, root, s, r, u, stale);
      assert LookupAnswer(d, u.tree, u.maps.paths, root, Onward(r)) != Walk(d, ROOT, Onward(r));
    }
  }

  // ---------- listings afterwards ----------

  lemma IdsSame(t: Tree, u: Tree, next: seq<Node>)
    requires forall m :: m in next ==> m in t && m in u && u[m].id == t[m].id
    ensures IdsIn(u, next) == IdsIn(t, next)
  {
    forall a | 0 <= a < |next|
      ensures IdsIn(u, next)[a] == IdsIn(t, next)[a]
    {
      assert next[a] in next;
    }
  }

  lemma OldLists(c: Cloud, root: Node, s: Snapshot, r: Making, u: Snapshot, l: Node)
    requires Creates(c, root, s, r, u) && l in s.tree && l != r.top
    ensures l in u.tree && NoDup(ListedIds(DriveAfter(c, s, r), u.tree, l))
  {
    CreatesFacts(c, root, s, r, u);
    CreatesSizes(c, root, s, r, u);
    assert Backed(c, s.tree, l);
    hide Creates, Mirrors, Right, Usable, Chained, WellFormed, Child, Grown, ChainOk, Mirrored, Walk;
    ChainedOld(s, u, r.top, r.made, r.chain, l);
    MirrorListsOnce(c, root, s, l);
    IdsDiffer(c, s.tree, root, s.at, l, r.top);
    GrownOld(c, TopId(s, r), r.chain, |r.chain.names|, s.tree[l].id);
    IdsSame(s.tree, u.tree, s.tree[l].next);
  }

  lemma TopParts(c: Cloud, root: Node, s: Snapshot, r: Making, u: Snapshot)
    requires Creates(c, root, s, r, u)
    ensures r.top in s.tree && TopId(s, r) in c && r.top in u.tree && r.chain.ids != [] && r.made != []
    ensures u.tree[r.top] == s.tree[r.top].(next := s.tree[r.top].next + [r.made[0]])
    ensures IdsIn(u.tree, u.tree[r.top].next) == IdsIn(s.tree, s.tree[r.top].next) + [r.chain.ids[0]]
    ensures TopId(s, r) == s.tree[r.top].id && TopId(s, r) in DriveAfter(c, s, r)
    ensures DriveAfter(c, s, r)[TopId(s, r)].kids == c[TopId(s, r)].kids + [r.chain.ids[0]]
  {
    hide Creates, Mirrors, Right, Usable, Chained, WellFormed, Child, Grown, ChainOk, Mirrored, Walk, NameIsNew,
      InFolder;
    CreatesFacts(c, root, s, r, u);
    CreatesSizes(c, root, s, r, u);
    BackedIn(c, root, s, r.top);
    ChainedOld(s, u, r.top, r.made, r.chain, r.top);
    LinkNamed(s, u, r.top, r.made, r.chain, 0, "");
    GrownOld(c, TopId(s, r), r.chain, |r.chain.names|, TopId(s, r));
    IdsSame(s.tree, u.tree, s.tree[r.top].next);
    IdsAppended(u.tree, s.tree[r.top].next, r.made[0]);
  }

  lemma IdsAppended(t: Tree, next: seq<Node>, m: Node)
    requires m in t
    ensures IdsIn(t, next + [m]) == IdsIn(t, next) + [t[m].id]
  {
  }

  lemma BackedIn(c: Cloud, root: Node, s: Snapshot, n: Node)
    requires Usable(c, root, s.tree) && n in s.tree
    ensures Backed(c, s.tree, n)
  {
  }

  /** The folder the search stopped at lists the new entry at the end, and unless it was filled at the start as well. */
  lemma TopLists(c: Cloud, root: Node, s: Snapshot, r: Making, u: Snapshot)
    requires Creates(c, root, s, r, u)
    ensures r.top in s.tree && TopId(s, r) in c && r.top in u.tree && r.chain.ids != []
    ensures var i := r.chain.ids[0];
            ListedIds(DriveAfter(c, s, r), u.tree, r.top) ==
            if s.tree[r.top].filled then ListedIds(c, s.tree, r.top) + [i] else [i] + c[TopId(s, r)].kids + [i]
  {
    hide Creates, DriveAfter, IdsIn, NameIsNew, InFolder, Child;
    TopParts(c, root, s, r, u);
    TopFacts(c, root, s, r, u);
    var ids, i := IdsIn(s.tree, s.tree[r.top].next), r.chain.ids[0];
    if s.tree[r.top].filled {
      assert ids + [] == ids && ids + [i] + [] == ids + [i];
    } else {
      assert ids == [] && ids + [i] == [i];
      assert [i] + (c[TopId(s, r)].kids + [i]) == [i] + c[TopId(s, r)].kids + [i];
    }
  }

  lemma LinkParts(c: Cloud, root: Node, s: Snapshot, r: Making, u: Snapshot, j: nat)
    requires Creates(c, root, s, r, u) && j < |r.made|
    ensures |r.made| == |r.chain.names| <= |r.chain.ids| && r.made[j] in u.tree
    ensures u.tree[r.made[j]] == LinkState(r.top, r.made, r.chain, j)
    ensures r.chain.ids[j] in DriveAfter(c, s, r)
    ensures DriveAfter(c, s, r)[r.chain.ids[j]].kids == if j + 1 < |r.made| then [r.chain.ids[j + 1]] else []
    ensures j + 1 < |r.made| ==> r.made[j + 1] in u.tree && u.tree[r.made[j + 1]].id == r.chain.ids[j + 1]
  {
    hide Creates, Mirrors, Right, Usable, WellFormed, Child, Grown, ChainOk, Mirrored, Walk, NameIsNew, InFolder;
    CreatesFacts(c, root, s, r, u);
    CreatesSizes(c, root, s, r, u);
    assert r.made[j] in r.made && u.tree[r.made[j]] == LinkState(r.top, r.made, r.chain, j);
    hide Chained;
    BackedIn(c, root, s, r.top);
    GrownNew(c, TopId(s, r), r.chain, |r.chain.names|, j);
    if j + 1 < |r.made| { LinkNamed(s, u, r.top, r.made, r.chain, j + 1, ""); }
  }

  /** A new folder lists the next new entry twice: once from memory, once from the drive. */
  lemma NewLists(c: Cloud, root: Node, s: Snapshot, r: Making, u: Snapshot, j: nat)
    requires Creates(c, root, s, r, u) && j < |r.made|
    ensures |r.made| == |r.chain.names| <= |r.chain.ids| && r.made[j] in u.tree
    ensures u.tree[r.made[j]].folder == KindAt(r.chain, j)
    ensures ListedIds(DriveAfter(c, s, r), u.tree, r.made[j]) ==
            if j + 1 < |r.made| then [r.chain.ids[j + 1], r.chain.ids[j + 1]] else []
  {
    hide Creates, DriveAfter, KindAt;
    LinkParts(c, root, s, r, u, j);
    if j + 1 < |r.made| {
      assert IdsIn(u.tree, [r.made[j + 1]]) == [r.chain.ids[j + 1]];
      assert [r.chain.ids[j + 1]] + [r.chain.ids[j + 1]] == [r.chain.ids[j + 1], r.chain.ids[j + 1]];
    }
  }

  lemma TopListsOnce(c: Cloud, root: Node, s: Snapshot, r: Making, u: Snapshot)
    requires Creates(c, root, s, r, u)
    ensures r.top in s.tree && r.top in u.tree
    ensures NoDup(ListedIds(DriveAfter(c, s, r), u.tree, r.top)) <==> s.tree[r.top].filled
  {
    hide Creates, Mirrors, Right, Usable, Chained, WellFormed, Child, Mirrored, Walk, DriveAfter, ListedIds;
    CreatesFacts(c, root, s, r, u);
    CreatesSizes(c, root, s, r, u);
    TopLists(c, root, s, r, u);
    var i, ids := r.chain.ids[0], ListedIds(DriveAfter(c, s, r), u.tree, r.top);
    if s.tree[r.top].filled {
      MirrorListsOnce(c, root, s, r.top);
      ListedKnown(c, root, s, r.top);
    } else {
      assert ids[0] == i && ids[|ids| - 1] == i && |ids| >= 2;
    }
  }

  lemma ListedKnown(c: Cloud, root: Node, s: Snapshot, n: Node)
    requires WellFormed(c) && Mirrors(c, s.tree, root, s.at) && n in s.tree && s.tree[n].filled
    ensures forall i :: i in ListedIds(c, s.tree, n) ==> i in c
  {
    MirrorListsOnce(c, root, s, n);
    hide Mirrors, WellFormed;
    assert IdsIn(s.tree, s.tree[n].next) + [] == IdsIn(s.tree, s.tree[n].next);
  }

  /** The listings that follow: each entry once in every folder exactly if one name was missing below a filled one. */
  lemma ListingsAfter(c: Cloud, root: Node, s: Snapshot, r: Making, u: Snapshot)
    requires Creates(c, root, s, r, u) && InFolder(c, r)
    ensures ListsOnce(DriveAfter(c, s, r), u.tree) <==> OneBelowFilled(s, r)
  {
    hide Creates, Mirrors, Right, WellFormed, UniqueNames, Mirrored, Walk, DriveAfter, ListedIds, InFolder, Chained,
      ChainOk, Usable;
    var d := DriveAfter(c, s, r);
    CreatesFacts(c, root, s, r, u);
    CreatesSizes(c, root, s, r, u);
    TopFacts(c, root, s, r, u);
    TopListsOnce(c, root, s, r, u);
    ChainedOld(s, u, r.top, r.made, r.chain, r.top);
    BackedIn(c, root, s, r.top);
    if |r.made| > 1 {
      NewLists(c, root, s, r, u, 0);
      assert ListedIds(d, u.tree, r.made[0])[0] == ListedIds(d, u.tree, r.made[0])[1];
    } else if s.tree[r.top].filled {
      forall l | l in u.tree && u.tree[l].folder
        ensures NoDup(ListedIds(d, u.tree, l))
      {
        if l !in s.tree {
          var j := ChainedMember(s, u, r.top, r.made, r.chain, l);
          NewLists(c, root, s, r, u, j);
        } else if l != r.top {
          OldLists(c, root, s, r, u, l);
        }
      }
    }
  }
}

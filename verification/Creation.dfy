/** Creating every missing name of a path: one request and one node each, whatever part of the path is loaded. */
module Creation {
  import opened Basics
  import opened CloudTree
  import opened CloudUpdates
  import opened LoadedTree
  import opened TreeUpdates
  import opened NodeCache
  import opened Loading
  import opened Lookups
  import opened Operations

  // ---------- how far memory goes ----------

  /** What a creation finds: the search in memory ends at n, after k of the names. */
  ghost predicate Stops(c: Cloud, root: Node, s: Snapshot, p: Path, n: Node, k: nat) {
    && WellFormed(c) && UniqueNames(c) && Mirrored(c, root, s)
    && n in s.tree && k < |p| && Reached(s.tree, root, p, 0).0 == n && Reached(s.tree, root, p, 0).1 == k
    && Walk(c, ROOT, p[..k]) == Some(s.tree[n].id) && Named(s.tree, s.tree[n].next, p[k]).None?
  }

  lemma SearchStops(c: Cloud, root: Node, s: Snapshot, p: Path)
    requires WellFormed(c) && UniqueNames(c) && Mirrored(c, root, s)
    ensures root in s.tree && s.at.Keys == s.tree.Keys
    ensures var r := Reached(s.tree, root, p, 0);
            && r.0 in s.tree
            && if r.1 < |p| then Stops(c, root, s, p, r.0, r.1) else Walk(c, ROOT, p) == Some(s.tree[r.0].id)
  {
    hide WellFormed, UniqueNames, Mirrored, Walk, Named, Reached, Right, Usable, Mirrors, Agrees;
    RootKnown(c, root, s, p);
    MirroredParts(c, root, s);
    MirrorRight(c, root, s);
    RightUsable(c, root, s.tree);
    ReachedRight(c, root, s.tree, root, p, 0);
    ReachedIn(c, root, s.tree, root, p, 0);
    assert p[..|p|] == p;
  }

  lemma RootKnown(c: Cloud, root: Node, s: Snapshot, p: Path)
    requires WellFormed(c) && Mirrored(c, root, s)
    ensures root in s.tree && s.at.Keys == s.tree.Keys && Walk(c, ROOT, p[..0]) == Some(s.tree[root].id)
  {
  }

  /** With the parent loaded the search stops at it, one name short. */
  lemma StopsAtParent(c: Cloud, root: Node, s: Snapshot, p: Path, n: Node, k: nat)
    requires Stops(c, root, s, p, n, k) && ParentFilled(c, s, p)
    ensures k == |p| - 1 && s.tree[n].filled
  {
    hide WellFormed, Mirrored, Walk, ParentFilled, Named;
    FindReachesParent(c, root, s, p, n, k);
  }

  // ---------- what the drive is asked for ----------

  /** The missing names, the ids the drive will give them, and the kind of the last one. */
  datatype Chain = Chain(names: seq<Name>, ids: seq<Id>, isDirectory: bool)

  ghost predicate ChainOk(c: Cloud, ch: Chain) {
    |ch.names| <= |ch.ids| && NoDup(ch.ids) && forall i :: i in ch.ids ==> i !in c
  }

  lemma ChainLengths(c: Cloud, ch: Chain)
    requires ChainOk(c, ch)
    ensures |ch.names| <= |ch.ids|
  {
  }

  /** All names but the last become folders. */
  function KindAt(ch: Chain, j: nat): bool {
    j + 1 < |ch.names| || ch.isDirectory
  }

  function OwnerId(par: Id, ch: Chain, j: nat): Id
    requires j <= |ch.ids|
  {
    if j == 0 then par else ch.ids[j - 1]
  }

  /** The drive after the first j creation requests, each below the entry made before it. */
  function Grown(c: Cloud, par: Id, ch: Chain, j: nat): Cloud
    requires j <= |ch.names| <= |ch.ids|
  {
    if j == 0 then c
    else
      var d, up := Grown(c, par, ch, j - 1), OwnerId(par, ch, j - 1);
      if up in d then Created(d, up, ch.ids[j - 1], ch.names[j - 1], KindAt(ch, j - 1)) else d
  }

  lemma {:induction false} GrownKeys(c: Cloud, par: Id, ch: Chain, j: nat)
    requires j <= |ch.names| <= |ch.ids| && par in c
    ensures Grown(c, par, ch, j).Keys == c.Keys + (set i | i in ch.ids[..j])
    ensures OwnerId(par, ch, j) in Grown(c, par, ch, j)
  {
    if j > 0 {
      GrownKeys(c, par, ch, j - 1);
      assert ch.ids[..j] == ch.ids[..j - 1] + [ch.ids[j - 1]];
    }
  }

  lemma NotYetUsed(c: Cloud, par: Id, ch: Chain, j: nat)
    requires ChainOk(c, ch) && j < |ch.names| && par in c
    ensures ch.ids[j] !in Grown(c, par, ch, j)
  {
    GrownKeys(c, par, ch, j);
  }

  /** New entry k after j of the requests: its name, its kind, and the next one below it if that is made. */
  ghost predicate EntryMade(d: Cloud, ch: Chain, j: nat, k: int) {
    0 <= k < j <= |ch.names| <= |ch.ids| ==>
      && ch.ids[k] in d && d[ch.ids[k]].name == ch.names[k]
      && (d[ch.ids[k]].folder <==> k < |ch.names| - 1 || ch.isDirectory)
      && d[ch.ids[k]].kids == if k < j - 1 then [ch.ids[k + 1]] else []
  }

  /** After j of the requests the entry par lists the first new one last, and nothing else has changed. */
  ghost predicate OldKept(c: Cloud, d: Cloud, par: Id, ch: Chain, j: nat) {
    && j <= |ch.ids| && par in c && par in d
    && d[par] == (if j == 0 then c[par] else c[par].(kids := c[par].kids + [ch.ids[0]]))
    && (forall i :: i in d ==> i in c || i in ch.ids[..j])
    && forall i :: i in c && i != par ==> i in d && d[i] == c[i]
  }

  ghost predicate MadeSoFar(c: Cloud, d: Cloud, par: Id, ch: Chain, j: nat) {
    j <= |ch.names| <= |ch.ids| && OldKept(c, d, par, ch, j) && forall k :: 0 <= k < j ==> EntryMade(d, ch, j, k)
  }

  lemma {:induction false} GrownEntries(c: Cloud, par: Id, ch: Chain, j: nat)
    requires ChainOk(c, ch) && j <= |ch.names| && par in c
    ensures MadeSoFar(c, Grown(c, par, ch, j), par, ch, j)
  {
    hide MadeSoFar, Grown, Created;
    if j > 0 {
      GrownEntries(c, par, ch, j - 1);
      NotYetUsed(c, par, ch, j - 1);
      GrownKeys(c, par, ch, j - 1);
      OneMoreMade(c, Grown(c, par, ch, j - 1), par, ch, j - 1);
      GrownOnce(c, par, ch, j);
    } else {
      NothingMade(c, par, ch);
    }
  }

  lemma NothingMade(c: Cloud, par: Id, ch: Chain)
    requires |ch.names| <= |ch.ids| && par in c
    ensures Grown(c, par, ch, 0) == c && MadeSoFar(c, c, par, ch, 0)
  {
  }

  lemma OneMoreMade(c: Cloud, b: Cloud, par: Id, ch: Chain, j: nat)
    requires MadeSoFar(c, b, par, ch, j) && ChainOk(c, ch) && j < |ch.names| && ch.ids[j] !in b
    requires OwnerId(par, ch, j) in b
    ensures MadeSoFar(c, Created(b, OwnerId(par, ch, j), ch.ids[j], ch.names[j], KindAt(ch, j)), par, ch, j + 1)
  {
    var d := Created(b, OwnerId(par, ch, j), ch.ids[j], ch.names[j], KindAt(ch, j));
    OldStillKept(c, b, par, ch, j);
    hide OldKept, ChainOk;
    var n := j + 1;
    forall k | 0 <= k < n
      ensures EntryMade(d, ch, n, k)
    {
      if k < j {
        assert EntryMade(b, ch, j, k);
        IdsOfChain(c, ch, k, j);
        OwnerApart(c, b, par, ch, j, k);
      }
    }
  }

  lemma IdsOfChain(c: Cloud, ch: Chain, k: nat, l: nat)
    requires ChainOk(c, ch) && k <= l < |ch.ids|
    ensures ch.ids[k] !in c && (k < l ==> ch.ids[k] != ch.ids[l])
  {
    assert ch.ids[k] in ch.ids;
  }

  lemma OwnerApart(c: Cloud, b: Cloud, par: Id, ch: Chain, j: nat, k: nat)
    requires OldKept(c, b, par, ch, j) && ChainOk(c, ch) && k < j && j < |ch.ids|
    ensures OwnerId(par, ch, j) == ch.ids[k] <==> k == j - 1
  {
    if k < j - 1 { IdsOfChain(c, ch, k, j - 1); }
  }

  lemma OldStillKept(c: Cloud, b: Cloud, par: Id, ch: Chain, j: nat)
    requires OldKept(c, b, par, ch, j) && ChainOk(c, ch) && j < |ch.names| && ch.ids[j] !in b
    requires OwnerId(par, ch, j) in b
    ensures OldKept(c, Created(b, OwnerId(par, ch, j), ch.ids[j], ch.names[j], KindAt(ch, j)), par, ch, j + 1)
  {
    assert ch.ids[..j + 1] == ch.ids[..j] + [ch.ids[j]];
    IdsOfChain(c, ch, j, j);
    if j > 0 { IdsOfChain(c, ch, j - 1, j); }
  }

  /** The path belongs to one of the first j new entries. */
  predicate IsNew(at: Path, ch: Chain, j: nat, q: Path)
    requires j <= |ch.names|
  {
    StrictlyBelow(at, q) && q <= at + ch.names[..j]
  }

  lemma NewPaths(at: Path, ch: Chain, j: nat, q: Path)
    requires j < |ch.names|
    ensures IsNew(at, ch, j + 1, q) <==> IsNew(at, ch, j, q) || q == at + ch.names[..j] + [ch.names[j]]
  {
    assert at + ch.names[..j + 1] == at + ch.names[..j] + [ch.names[j]];
    PrefixOfSnoc(q, at + ch.names[..j], ch.names[j]);
  }

  ghost predicate FirstIsNew(c: Cloud, at: Path, par: Id, ch: Chain) {
    && WellFormed(c) && UniqueNames(c) && Walk(c, ROOT, at) == Some(par) && par in c && c[par].folder
    && ChainOk(c, ch) && ch.names != [] && Child(c, par, ch.names[0]) == None
  }

  lemma {:induction false} GrownWell(c: Cloud, at: Path, par: Id, ch: Chain, j: nat)
    requires FirstIsNew(c, at, par, ch) && j <= |ch.names|
    ensures var d, up := Grown(c, par, ch, j), OwnerId(par, ch, j);
            && WellFormed(d) && UniqueNames(d) && up in d
            && (j < |ch.names| ==> d[up].folder && Child(d, up, ch.names[j]) == None)
  {
    hide WellFormed, UniqueNames, Walk;
    if j > 0 {
      GrownWell(c, at, par, ch, j - 1);
      NotYetUsed(c, par, ch, j - 1);
      GrownOnce(c, par, ch, j);
      hide Grown, ChainOk;
      var b, up := Grown(c, par, ch, j - 1), OwnerId(par, ch, j - 1);
      CreatedWellFormed(b, up, ch.ids[j - 1], ch.names[j - 1], KindAt(ch, j - 1));
      CreatedUniqueNames(b, up, ch.ids[j - 1], ch.names[j - 1], KindAt(ch, j - 1));
    }
  }

  /** If the first name is new to its folder, each new path leads to its entry, and no other walk changes. */
  lemma {:induction false} GrownWalks(c: Cloud, at: Path, par: Id, ch: Chain, j: nat, q: Path)
    requires FirstIsNew(c, at, par, ch) && j <= |ch.names|
    ensures IsNew(at, ch, j, q) ==> |at| < |q| <= |at| + j
    ensures Walk(Grown(c, par, ch, j), ROOT, q) ==
            if IsNew(at, ch, j, q) then Some(ch.ids[|q| - |at| - 1]) else Walk(c, ROOT, q)
    decreases j, 0
  {
    hide WellFormed, UniqueNames, Walk, Grown, IsNew, Child, Created, KindAt;
    if j == 0 { NothingNew(c, at, par, ch, q); }
    if j > 0 {
      var b, up, w := Grown(c, par, ch, j - 1), OwnerId(par, ch, j - 1), at + ch.names[..j - 1];
      GrownWalks(c, at, par, ch, j - 1, q);
      OwnerReached(c, at, par, ch, j - 1);
      GrownWell(c, at, par, ch, j - 1);
      NotYetUsed(c, par, ch, j - 1);
      GrownOnce(c, par, ch, j);
      NewPaths(at, ch, j - 1, q);
      hide FirstIsNew, ChainOk;
      WalkAfterCreate(b, w, up, ch.ids[j - 1], ch.names[j - 1], KindAt(ch, j - 1), q);
    }
  }

  /** Beyond the first k names the path leads to the new entries, and every other path where it led. */
  ghost predicate PathAdded(c: Cloud, d: Cloud, p: Path, k: nat, ids: seq<Id>) {
    k < |p| && |p| - k <= |ids| &&
    forall q :: Walk(d, ROOT, q) == if k < |q| && q <= p then Some(ids[|q| - k - 1]) else Walk(c, ROOT, q)
  }

  lemma PathGrows(c: Cloud, p: Path, k: nat, par: Id, ch: Chain)
    requires k < |p| && ch.names == p[k..] && FirstIsNew(c, p[..k], par, ch)
    ensures |ch.names| <= |ch.ids| && PathAdded(c, Grown(c, par, ch, |ch.names|), p, k, ch.ids)
  {
    hide WellFormed, UniqueNames, Walk, Grown, IsNew, Child;
    ChainLengths(c, ch);
    forall q
      ensures Walk(Grown(c, par, ch, |ch.names|), ROOT, q) ==
              if k < |q| && q <= p then Some(ch.ids[|q| - k - 1]) else Walk(c, ROOT, q)
    {
      GrownWalks(c, p[..k], par, ch, |ch.names|, q);
      NewOnPath(p, k, ch, q);
    }
  }

  lemma NewOnPath(p: Path, k: nat, ch: Chain, q: Path)
    requires k < |p| && ch.names == p[k..]
    ensures IsNew(p[..k], ch, |ch.names|, q) <==> k < |q| && q <= p
  {
    assert ch.names[..|ch.names|] == ch.names && p[..k] + p[k..] == p;
    if q <= p && k < |q| {
      assert p[..k] == q[..k];
    }
  }

  lemma OwnerReached(c: Cloud, at: Path, par: Id, ch: Chain, j: nat)
    requires FirstIsNew(c, at, par, ch) && j <= |ch.names|
    ensures Walk(Grown(c, par, ch, j), ROOT, at + ch.names[..j]) == Some(OwnerId(par, ch, j))
    decreases j, 1
  {
    var w := at + ch.names[..j];
    hide WellFormed, UniqueNames, Walk, Child;
    if j == 0 { assert w == at; } else { GrownWalks(c, at, par, ch, j, w); }
  }

  lemma NothingNew(c: Cloud, at: Path, par: Id, ch: Chain, q: Path)
    requires |ch.names| <= |ch.ids|
    ensures !IsNew(at, ch, 0, q) && Grown(c, par, ch, 0) == c
  {
  }

  lemma GrownOnce(c: Cloud, par: Id, ch: Chain, j: nat)
    requires 0 < j <= |ch.names| <= |ch.ids| && OwnerId(par, ch, j - 1) in Grown(c, par, ch, j - 1)
    ensures Grown(c, par, ch, j) ==
            Created(Grown(c, par, ch, j - 1), OwnerId(par, ch, j - 1), ch.ids[j - 1], ch.names[j - 1],
                    KindAt(ch, j - 1))
  {
  }

  /** An entry that repeats a name, or hangs below one nothing leads to, is never found. */
  lemma {:induction false} WalkAfterUnseen(c: Cloud, par: Id, i: Id, x: Name, folder: bool, p: Path)
    requires WellFormed(c) && par in c && i !in c
    requires Child(c, par, x).Some? || forall q :: Walk(c, ROOT, q) != Some(par)
    ensures Walk(Created(c, par, i, x, folder), ROOT, p) == Walk(c, ROOT, p)
    decreases |p|
  {
    var d := Created(c, par, i, x, folder);
    if p != [] {
      var q, y := p[..|p| - 1], p[|p| - 1];
      WalkAfterUnseen(c, par, i, x, folder, q);
      if Walk(c, ROOT, q).Some? {
        var j := Walk(c, ROOT, q).value;
        WalkStays(c, ROOT, q);
        NobodysChild(c, i);
        LookupSame(c, d, c[j].kids, y);
        if j == par { LookupAppended(d, c[j].kids, i, y); }
      }
    }
  }

  /** If the first name is taken, the drive holds it twice, and nothing new can be reached. */
  lemma {:induction false} GrownUnseen(c: Cloud, par: Id, ch: Chain, j: nat, q: Path)
    requires WellFormed(c) && par in c && c[par].folder
    requires ChainOk(c, ch) && j <= |ch.names| && ch.names != [] && Child(c, par, ch.names[0]).Some?
    ensures var d := Grown(c, par, ch, j);
            && WellFormed(d) && Walk(d, ROOT, q) == Walk(c, ROOT, q) && (j > 0 ==> !UniqueNames(d))
            && (j > 0 ==> ch.ids[j - 1] in d && d[ch.ids[j - 1]] == Entry(ch.names[j - 1], KindAt(ch, j - 1), []))
    decreases j
  {
    if j > 0 {
      var b, up := Grown(c, par, ch, j - 1), OwnerId(par, ch, j - 1);
      GrownUnseen(c, par, ch, j - 1, q);
      NotYetUsed(c, par, ch, j - 1);
      GrownKeys(c, par, ch, j - 1);
      if j > 1 {
        forall p
          ensures Walk(b, ROOT, p) != Some(up)
        {
          GrownUnseen(c, par, ch, j - 1, p);
          WalkStays(c, ROOT, p);
        }
      }
      CreatedWellFormed(b, up, ch.ids[j - 1], ch.names[j - 1], KindAt(ch, j - 1));
      WalkAfterUnseen(b, up, ch.ids[j - 1], ch.names[j - 1], KindAt(ch, j - 1), q);
      if j == 1 { CreatedTwice(c, par, ch.ids[0], ch.names[0], KindAt(ch, 0)); }
      else { CreatedKeepsClash(b, up, ch.ids[j - 1], ch.names[j - 1], KindAt(ch, j - 1)); }
    }
  }

  lemma CreatedTwice(c: Cloud, par: Id, i: Id, x: Name, folder: bool)
    requires WellFormed(c) && par in c && i !in c && Child(c, par, x).Some?
    ensures !UniqueNames(Created(c, par, i, x, folder))
  {
    var d, k := Created(c, par, i, x, folder), Child(c, par, x).value;
    assert k in d[par].kids && i in d[par].kids && d[k].name == d[i].name && k != i;
  }

  lemma CreatedKeepsClash(c: Cloud, par: Id, i: Id, x: Name, folder: bool)
    requires WellFormed(c) && !UniqueNames(c) && par in c && i !in c
    ensures !UniqueNames(Created(c, par, i, x, folder))
  {
    hide WellFormed, Created;
    var d := Created(c, par, i, x, folder);
    var j, k, l :| j in c && k in c[j].kids && l in c[j].kids && k in c && l in c && c[k].name == c[l].name && k != l;
    StillListed(c, par, i, x, folder, j, k);
    StillListed(c, par, i, x, folder, j, l);
  }

  lemma StillListed(c: Cloud, par: Id, i: Id, x: Name, folder: bool, j: Id, k: Id)
    requires par in c && i !in c && j in c && k in c[j].kids && k in c
    ensures var d := Created(c, par, i, x, folder); j in d && k in d[j].kids && k in d && d[k].name == c[k].name
  {
  }

  // ---------- what memory gets ----------

  /** One new node for each of the first names, each the only child of the one before; the first is appended to n. */
  ghost predicate Chained(s: Snapshot, u: Snapshot, n: Node, made: seq<Node>, ch: Chain) {
    && |made| <= |ch.names| <= |ch.ids| && NoDup(made) && s.at.Keys == s.tree.Keys && u.maps == s.maps
    && ChainedNodes(s.tree, u.tree, n, made, ch) && ChainedLineage(s.at, u.at, n, made, ch)
  }

  ghost predicate ChainedNodes(t: Tree, u: Tree, n: Node, made: seq<Node>, ch: Chain)
    requires |made| <= |ch.names| <= |ch.ids|
  {
    && n in t && u.Keys == t.Keys + (set m | m in made)
    && (forall l :: l in t ==> u[l] == if l == n && made != [] then t[l].(next := t[l].next + [made[0]]) else t[l])
    && (forall k :: 0 <= k < |made| ==> made[k] !in t && u[made[k]] == LinkState(n, made, ch, k))
  }

  ghost predicate ChainedLineage(at: Lineage, bt: Lineage, n: Node, made: seq<Node>, ch: Chain)
    requires |made| <= |ch.ids|
  {
    && n in at && bt.Keys == at.Keys + (set m | m in made)
    && (forall l :: l in at ==> bt[l] == at[l])
    && (forall k :: 0 <= k < |made| ==> bt[made[k]] == at[n] + ch.ids[..k + 1])
  }

  ghost function LinkState(n: Node, made: seq<Node>, ch: Chain, k: nat): NodeState
    requires k < |made| <= |ch.names| <= |ch.ids|
  {
    NodeState(ch.ids[k], ch.names[k], KindAt(ch, k), false,
              if k + 1 < |made| then [made[k + 1]] else [], if k == 0 then n else made[k - 1])
  }

  ghost function LastOf(n: Node, made: seq<Node>): Node {
    if made == [] then n else made[|made| - 1]
  }

  lemma ChainedLast(s: Snapshot, u: Snapshot, n: Node, made: seq<Node>, ch: Chain)
    requires Chained(s, u, n, made, ch)
    ensures var o := LastOf(n, made); o in u.tree && o in u.at && u.tree[o].id == OwnerId(s.tree[n].id, ch, |made|)
    ensures u.tree.Keys == s.tree.Keys + (set m | m in made)
  {
    if made != [] { assert LastOf(n, made) in made; }
  }

  lemma LastOfMade(n: Node, made: seq<Node>)
    ensures made != [] ==> LastOf(n, made) in made
    ensures forall m: Node :: (set l | l in made + [m]) == (set l | l in made) + {m}
  {
  }

  lemma NodesOn(t: Tree, u: Tree, n: Node, made: seq<Node>, ch: Chain, m: Node)
    requires |made| < |ch.names| <= |ch.ids| && ChainedNodes(t, u, n, made, ch) && NoDup(made) && m !in u
    ensures var o, j := LastOf(n, made), |made|;
            o in u && ChainedNodes(t, AddedTree(u, o, m, ch.ids[j], ch.names[j], KindAt(ch, j)), n, made + [m], ch)
  {
    hide KindAt, LinkState;
    LastOfMade(n, made);
    var o, j, more := LastOf(n, made), |made|, made + [m];
    var v := AddedTree(u, o, m, ch.ids[j], ch.names[j], KindAt(ch, j));
    forall k | 0 <= k <= j
      ensures more[k] !in t && v[more[k]] == LinkState(n, more, ch, k)
    {
      LinkOn(t, u, n, made, ch, m, k);
    }
    assert forall l :: l in t && l != n ==> l !in made && l != m;
  }

  lemma LinkOn(t: Tree, u: Tree, n: Node, made: seq<Node>, ch: Chain, m: Node, k: nat)
    requires |made| < |ch.names| <= |ch.ids| && ChainedNodes(t, u, n, made, ch) && NoDup(made) && m !in u && k <= |made|
    ensures var o, j, more := LastOf(n, made), |made|, made + [m];
            && o in u && more[k] !in t
            && var v := AddedTree(u, o, m, ch.ids[j], ch.names[j], KindAt(ch, j));
            more[k] in v && v[more[k]] == LinkState(n, more, ch, k)
  {
    hide KindAt;
    LastOfMade(n, made);
    if k < |made| {
      hide ChainedNodes;
      LinkKnown(t, u, n, made, ch, k);
    }
  }

  lemma LinkKnown(t: Tree, u: Tree, n: Node, made: seq<Node>, ch: Chain, k: nat)
    requires k < |made| <= |ch.names| <= |ch.ids| && ChainedNodes(t, u, n, made, ch) && NoDup(made)
    ensures made[k] !in t && made[k] in made && u.Keys == t.Keys + (set m | m in made)
    ensures u[made[k]] == LinkState(n, made, ch, k) && (made[k] == LastOf(n, made) <==> k == |made| - 1)
  {
  }

  lemma LineageOn(at: Lineage, bt: Lineage, n: Node, made: seq<Node>, ch: Chain, m: Node)
    requires |made| < |ch.ids| && ChainedLineage(at, bt, n, made, ch) && m !in bt
    ensures var o, j := LastOf(n, made), |made|;
            o in bt && ChainedLineage(at, bt[m := bt[o] + [ch.ids[j]]], n, made + [m], ch)
  {
    LastOfMade(n, made);
    var o, j, more := LastOf(n, made), |made|, made + [m];
    assert ch.ids[..j + 1] == ch.ids[..j] + [ch.ids[j]];
    assert bt[o] == at[n] + ch.ids[..j];
    forall k | 0 <= k < j
      ensures more[k] == made[k] && made[k] in bt
    {
      assert made[k] in made;
    }
  }

  lemma ChainedOn(s: Snapshot, u: Snapshot, n: Node, made: seq<Node>, ch: Chain, m: Node)
    requires Chained(s, u, n, made, ch) && |made| < |ch.names| && m !in u.tree
    ensures var o, j := LastOf(n, made), |made|;
            && o in u.tree && o in u.at
            && Chained(s, Snapshot(AddedTree(u.tree, o, m, ch.ids[j], ch.names[j], KindAt(ch, j)),
                                   u.at[m := u.at[o] + [ch.ids[j]]], u.maps), n, made + [m], ch)
  {
    hide KindAt, LastOf, AddedTree;
    NodesOn(s.tree, u.tree, n, made, ch, m);
    LineageOn(s.at, u.at, n, made, ch, m);
    hide ChainedNodes, ChainedLineage;
  }
}

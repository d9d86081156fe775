# A Dafny model of the google2fuse core

The repository presents a cloud drive as a mounted file system. This project models its core in Dafny and proves what
that core promises: a lazily loaded tree with a path cache in front of a drive, the write-back of open files, the tree
of mount points laid over several file systems, the directory of files that holds local content, and the parser of
enumeration values. `dafny verify dfyconfig.toml` checks everything.

## How the model is built

**The drive** (`CloudTree`, `CloudUpdates`, `CloudRename`) is a map from id to name, kind and child ids. The `cloud*`
virtuals of `AbstractFileSystem` are operations on it. `Walk` is the plain, uncached meaning of a path: follow the
first listed child of each name. A path is the sequence of its components, so `/` is `[]`. How each update changes
every walk is proved as an equation over all paths.

**The loaded tree and the cache** (`LoadedTree`, `NodeCache`, `CloudFileSystem`) are classes with the source's fields,
updated in place. Ghost fields record the live nodes, the chain of ids that owns each of them (its lineage), and the
requests and notifications sent. The state between calls has three degrees:

- `Mirrored`: a filled folder holds exactly one node for each entry of the drive, an unfilled one holds none, no id is
  loaded twice, parent links and ownership agree and have no cycle, and names find what the drive lists first.
- `Sound` but for some stale paths: besides, every other cached path leads to a live node that is filed under it, and
  the drive's own walk leads there too.
- `Faithful`: no path is stale, and the three cache maps agree. This is the invariant `Valid` of the class.

Lookups, listings, removals and renames keep `Sound`; so does the creation of one name below a filled folder. The
contracts say exactly when `Faithful` survives a rename and `Mirrored` a creation. For the states a creation leaves that
are no mirror, `Lookups` says what a lookup answers and a folder lists, whatever memory holds. The proofs are about
snapshots of that state (`TreeUpdates`, `Loading`, `TreeRemoval`, `Removals`, `Operations`, `RenameOperation`,
`Creation`, `CreationEffects`, `EventLog`), and each method is tied to a snapshot lemma. `Runs` compares whole runs with a machine
that has neither tree nor cache: over legal runs, for which it also tells which folders have been read and which paths
are cached, and over runs that go on after any rename. `Mishaps` has the short runs that end badly.

**Open files** (`WriteBack`, `FileHandles`): contents on the drive, one local copy per file, and any number of handles.
A handle keeps its inode even when the copy is replaced under its name. `WriteBack` is the protocol as a state machine
with its runs; `FileHandles` performs each step on the class of `ContentStore` that keeps the copies.

**Mounts** (`MountTree`, `MergedListing`, `JoinedFileSystem`): nodes linked to parent and children, and the prefetching
iterator that merges two listings. **Local content** (`StoreLayout`, `ContentStore`): files under one or three path
components with the directories above them, inodes, a reader that delivers pieces of any size, writes that may be short,
and read calls that may be short, interrupted or fail. **Enumerations** (`EnumText`): the table, an input stream with
its state bits, the parser, and the stepping operators.

## What the code demands of its callers

- Sibling names are unique in runs that change the tree. Lookups and listings need no such thing: they follow the first
  match in listing order (`Agrees`). A node created or moved in is modelled as listed last; with unique names the order
  makes no difference (`UniqueNamesAgree`).
- `createNode` asks for ids that are new, and is meant for one name below a folder that is already filled:
  `src/presentation/FuseGate.cpp:98-112` sees to it by looking the path up first, and `Runs.DoCreate` follows those
  lines. `createDir` at `src/presentation/FuseGate.cpp:159-167` makes no lookup of its own and relies on the kernel's.
- `renameNode` gets two different paths, the new one not inside the old (`src/fs/JoinedFileSystem.cpp:320-321` and the
  kernel), and a new parent that is a folder if it exists (the kernel).
- Each drive entry is listed by one folder only, and each folder lists an entry once (`CloudTree.WellFormed`).
- Only this client changes the drive, and no request fails half-way.
- Mount points have at most one component. `getFS` needs at least one mount: it does not look whether there is a tree
  (`src/fs/JoinedFileSystem.cpp:376-379`).
- Ids are not empty and hold neither `/` nor `.`. Files that are opened have ids of two letters or more; the content
  directory itself is modelled for all ids.

## Where the code does less than it seems to

Each of these is part of the model, with the exact condition proved.

- Renaming a folder purges only the folder's own cache entry. The cache stays true if and only if nothing strictly below
  the old path was cached (`RenameOperation.RenameOutcome`); otherwise those paths go on being answered though nothing
  is there (`Runs.StaleLookup`). Only such paths can mislead: over every run, whatever it renames, of requests that look
  up no path asked for before something above it was renamed, all answers are as the drive walks (`Runs.RunOn`). Once a
  node below a renamed one has been looked up at its new path it is filed under that path alone, so removing it leaves
  the old path leading to a freed node (`RenameOperation.StaleEntryDangles`). No path leads to a freed node if and only
  if every path leads to a node filed under it (`NodeCache.NoneDangles`).
- `createNode` adds every name the search in memory misses, without asking the drive. Memory goes on mirroring the drive
  if and only if one name was missing below a filled folder (`CreationEffects.CreationOutcome`). Below any folder, the
  lookups that follow are answered as the drive walks, and names stay unique, if and only if the first of the names was
  not on the drive either (`CreationEffects.LookupsAfter`); a folder made twice is `Mishaps.FolderMadeTwice`. Listings
  give every entry once if and only if one name was missing below a filled folder (`CreationEffects.ListingsAfter`); in
  `Mishaps.ListedTwice` a folder that was looked up but not listed gives the new entry twice, while all lookups stay
  right.
- Opening with `O_CREAT` a file without a local copy makes no directories. It fails if and only if the directory for its
  id was not made before (`FileHandles.FileStore.OpenContent`), so a new file fails on a fresh store
  (`FileHandles.NewFile`, which follows `src/presentation/handler.cpp:281`). Where it does not fail, a file that has
  contents on the drive and is not emptied anyway is presented as empty; an open shows the plain file if and only if
  neither happens (`WriteBack.OpenView`, `WriteBack.UnfetchedShownEmpty`).
- Replacing or deleting a file does not look whether it is open. After an open, no handle is at a replaced copy if and
  only if it replaced none or no handle was open on the file (`WriteBack.OpenAttached`); after a deletion, no handle is
  without its file if and only if none was open on it (`WriteBack.DeleteValid`, `FileHandles.FileStore.Delete`).
- Opening with `O_TRUNC`, and `truncate`, change a local copy without marking a handle. Unsaved data stays covered if
  and only if the request is `Careful` (`WriteBack.StepSafe`, `WriteBack.CleanCopyEmptied`).
- `buildBranch` lists every new node under the node it was called on. A mount point is reachable at its path if and only
  if its node existed before or the path has at most one component (`MountTree.BranchReached`); a mount at `/a/b` is
  found at `/b` (`JoinedFileSystem.DeepMount`).
- `createFile` ignores how much each write accepted, and leaves a part of the file when a write fails. The file is the
  stream if and only if every non-empty piece the reader handed over was written whole and none was left when a write
  failed (`ContentStore.StreamSaved`); otherwise it is what was accepted, piece by piece. Only a failing write is
  reported, and what it leaves passes for the file (`ContentStore.ContentManager.CreateFile`, `ContentStore.ServeAll`).
- With ids of one letter the content directory is not a map: a directory made for a longer id answers for the first
  letter (`ContentStore.FirstLetter`). With longer ids it is a map (`ContentStore.LongIdsArePlain`).
- The parser reads every name of its table, given on its own and in any case, if and only if each name is the first that
  starts with it and none is another name followed by white space (`EnumText.EveryNameStops`); a name that breaks off
  is in `EnumText.BrokenName`.
- The checks that say a mount point cannot be renamed are never reached: `getFS` has answered null before
  (`JoinedFileSystem.Joined.RenameRoute`).
- The clearing branch of `fillDir` is in the model and never taken by a lookup or a listing: neither adds to the log
  (`CloudFileSystem.FileSystem.Get`, `CloudFileSystem.FileSystem.GetDirectoryIterator`).
- Detaching the node in `renameNode` happens inside an `assert`; the model has assertions enabled. Without them the
  moved node has one owner, the one its parent link names, if and only if the folder stays the same
  (`CloudFileSystem.FileSystem.RelinkUnasserted`).

## Model

| member | source | states |
|---|---|---|
| CloudTree.WalkInjective | src/fs/AbstractFileSystem.cpp:391-403 | No drive entry lies at two paths, even where siblings share names |
| CloudTree.WalkDescends | src/fs/AbstractFileSystem.cpp:391-403 | With unique names a path walks to an entry if and only if listed children of the path's names lead down to it from the root |
| CloudTree.BelowByPath | src/fs/AbstractFileSystem.cpp:368-389 | The entries deleted with an entry are exactly those whose paths its path starts |
| CloudUpdates.RemovalAbsorbs | src/fs/AbstractFileSystem.cpp:376-377 | Deleting a part of a subtree before the whole leaves the drive as deleting the whole at once does |
| CloudUpdates.WalkAfterCreate | src/fs/AbstractFileSystem.cpp:703-713 | Creating an entry adds one path and changes no other walk |
| CloudUpdates.WalkAfterRemove | src/fs/AbstractFileSystem.cpp:721-731 | Deleting an entry ends every walk at or below its path and changes no other |
| CloudRename.RenamedWellFormed | src/fs/AbstractFileSystem.cpp:757-765 | The drive is a tree again after the update and the deletion of the replaced entry |
| CloudRename.RenamedUniqueNames | src/fs/AbstractFileSystem.cpp:757-765 | Although the new parent holds the name twice for a moment, names are unique in the end |
| CloudRename.WalkAfterRename | src/fs/AbstractFileSystem.cpp:733-767 | For every path: at or below the new path it walks where the old subtree led, below the old path it ends, elsewhere nothing changes |
| LoadedTree.UniqueNamesAgree | src/fs/AbstractFileSystem.cpp:396-397 | With unique names, first match in memory and first match on the drive are the same child whatever the orders |
| LoadedTree.FillMirrors | src/fs/AbstractFileSystem.cpp:627-635 | Filling an unfilled folder keeps ownership, parent links, uniqueness of ids and completeness |
| LoadedTree.FillAgrees | src/fs/AbstractFileSystem.cpp:627-635 | A filled folder gives every name the child the drive lists first under it |
| TreeUpdates.AddMirrors | src/fs/AbstractFileSystem.cpp:703-713 | Creating on the drive and in a filled folder keeps the loaded tree a partial copy of the drive |
| TreeUpdates.LeafMirrors | src/fs/AbstractFileSystem.cpp:376-388 | Dropping a childless node while the drive deletes its entry, with all that was never loaded below it, keeps the copy |
| TreeUpdates.MoveMirrors | src/fs/AbstractFileSystem.cpp:750-760 | Moving a node with its whole loaded subtree, with one update request, keeps the copy |
| NodeCache.Cache.FindByPath | src/cache/Cache.cpp:6-13 | The node filed under the path, or none |
| NodeCache.Cache.Insert | src/cache/Cache.cpp:24-31 | All three maps get the entry |
| NodeCache.Cache.SlotNodeRemoved | src/cache/Cache.cpp:33-48 | The purge through the three finds is the purge of one node |
| NodeCache.Cache.SlotNodeChanged | src/cache/Cache.cpp:50-54 | A change purges the node itself and nothing else |
| NodeCache.InsertConsistent | src/cache/Cache.cpp:24-31 | The three maps stay inverse to each other if and only if both path and node are new, or the entry is repeated |
| NodeCache.PurgeExact | src/cache/Cache.cpp:33-48 | After a purge no map mentions the node, and every other entry is as it was |
| NodeCache.NoneDangles | src/cache/Cache.cpp:33-48 | Purging never leaves a path to the purged node, whichever node it is, if and only if every path leads to a node filed under that path |
| NodeCache.InsertKeepsOnePath | src/cache/Cache.cpp:24-31 | An insert keeps that if and only if the node was not on file under another path that still leads to it |
| Loading.AncestorsFilled | src/fs/AbstractFileSystem.cpp:665-684 | Every folder on the way to a loaded node has been filled |
| Loading.InsertIsFresh | src/fs/AbstractFileSystem.cpp:669-682 | Every insert a lookup makes is new in path and in node, and keeps the cache true |
| Loading.FillKeepsFaithful | src/fs/AbstractFileSystem.cpp:616-636 | Filling keeps the whole invariant, and no new node is in the cache |
| Loading.FolderStep | src/fs/AbstractFileSystem.cpp:676-683 | In a filled folder a name is found where the walk finds it, and where it is not found the walk fails |
| Loading.FileStops | src/fs/AbstractFileSystem.cpp:674 | Stopping at a file is right: no path goes on below it |
| Loading.CachedStretch | src/fs/AbstractFileSystem.cpp:672-688 | A search that goes on from an unfilled node caches exactly the paths of the entries it had to ask the drive for |
| Operations.PathsAndLineages | src/fs/AbstractFileSystem.cpp:750-756 | For loaded nodes one owns the other if and only if its path starts the other's |
| Operations.FindReachesParent | src/fs/AbstractFileSystem.cpp:694-698 | After the lookup that precedes it, the search of createNode stops exactly one component short, at the filled parent |
| Operations.CreateKeepsFaithful | src/fs/AbstractFileSystem.cpp:692-719 | Creating keeps the whole invariant and the new path walks to the new entry |
| Lookups.SoughtWalks | src/fs/AbstractFileSystem.cpp:657-690 | While memory finds under each name what the drive lists first, filled or not, the search and the loading that follows it answer every path as the uncached walk does |
| Lookups.FillRight | src/fs/AbstractFileSystem.cpp:616-636 | Filling keeps memory in that state even where the folder held nodes before, to which the listing is appended |
| Lookups.GainedTrue | src/fs/AbstractFileSystem.cpp:669-682 | In that state every entry a lookup adds to the cache is true, and those that were true stay so |
| Lookups.FiledFaithful | src/fs/AbstractFileSystem.cpp:672-688 | Filing the nodes just loaded under the prefixes of the path keeps the whole invariant and no entry changes |
| Lookups.FiledSound | src/fs/AbstractFileSystem.cpp:672-688 | Where stale paths are cached, filing adds nothing that misleads, though it may overwrite a stale entry |
| Creation.GrownWalks | src/fs/AbstractFileSystem.cpp:700-717 | If the first name is new to its folder, after each request the new paths lead to the new entries and no other walk changes |
| Creation.GrownUnseen | src/fs/AbstractFileSystem.cpp:700-717 | If the first name is taken, the drive holds it twice after every request and no walk changes at all |
| Creation.GrownEntries | src/fs/AbstractFileSystem.cpp:700-717 | After each request every entry made so far has its name, is a folder unless it is the last of all and a file was asked for, and holds the next one only; the starting folder lists the first one last; nothing else on the drive has changed |
| Creation.PathGrows | src/fs/AbstractFileSystem.cpp:700-717 | If the first name is new, all requests together give each longer part of the path its own entry, in order, and leave every other path where it led |
| CreationEffects.CreationOnDrive | src/fs/AbstractFileSystem.cpp:692-719 | Below a folder the drive stays a tree; names stay unique, and the path leads to the new entry, if and only if the first of the missing names was not on the drive |
| CreationEffects.CreationOutcome | src/fs/AbstractFileSystem.cpp:692-719 | For any path and any loaded part: memory goes on mirroring the drive if and only if one name was missing below a filled folder |
| CreationEffects.RightAfter | src/fs/AbstractFileSystem.cpp:692-719 | If the first name was new, every name is found in memory as the drive lists it, also in the unfilled folder that now holds a node |
| CreationEffects.WrongAfter | src/fs/AbstractFileSystem.cpp:692-719 | If it was not, the path that ends with it is answered with the new entry, where the drive walks to the old one |
| CreationEffects.LookupsAfter | src/fs/AbstractFileSystem.cpp:657-719 | Below a folder every lookup is answered as the drive walks if and only if the first of the missing names was not on the drive |
| CreationEffects.TopLists | src/fs/AbstractFileSystem.cpp:292-303 | An unfilled folder lists the new entry, the drive's entries and the new entry again; a filled one lists it once, at the end |
| CreationEffects.ListingsAfter | src/fs/AbstractFileSystem.cpp:292-303 | Every folder lists each entry once if and only if one name was missing below a filled folder |
| Mishaps.FolderMadeTwice | src/fs/AbstractFileSystem.cpp:692-719 | With only the root loaded, asking for a path below an existing folder gives the drive that folder twice, and a lookup of it then returns the new one |
| Mishaps.ListedTwice | src/fs/AbstractFileSystem.cpp:692-719 | Created in a folder that was looked up but not listed, an entry is listed twice, while lookups stay right |
| TreeRemoval.LeafCut | src/fs/AbstractFileSystem.cpp:376-388 | One childless node leaves tree and cache, and nothing else changes |
| TreeRemoval.PostOrderNext | src/fs/AbstractFileSystem.cpp:370-376 | Appending the next child's post-order to those before it is a post-order again |
| TreeRemoval.PurgedTogether | src/cache/Cache.cpp:33-48 | While the three maps are in step, nodes that leave one after the other are forgotten and nothing else is |
| Removals.SomeStep | src/fs/AbstractFileSystem.cpp:370-384 | Removing the first i children and then the next one is removing the first i + 1, in tree, cache, log and drive |
| Removals.AllThenOne | src/fs/AbstractFileSystem.cpp:376-380 | Removing all below a node and then the node is one deletion on the drive and a post-order of the subtree |
| Removals.LineageBelow | src/fs/AbstractFileSystem.cpp:368-389 | What a node owns in memory is below its entry on the drive |
| Removals.FilledAfterOne | src/fs/AbstractFileSystem.cpp:368-389 | The folders still filled are those whose entries still exist |
| Removals.StayOnDrive | src/fs/AbstractFileSystem.cpp:368-389 | A node stays in memory if and only if its entry is still on the drive |
| Removals.RemovedWalks | src/fs/AbstractFileSystem.cpp:721-731 | Whatever was loaded, no path at or below the removed one leads anywhere, every other path leads where it did, and entries keep their kind |
| EventLog.RemovalTold | src/fs/AbstractFileSystem.cpp:376-380 | The log grows by exactly one deletion request and one notification for each node that has gone, and one deletion of the local copy for each that was a file, about no other id; for a node in that order, and all about a child before anything about its parent |
| Operations.RemoveKeepsFaithful | src/fs/AbstractFileSystem.cpp:721-731 | After a removal the whole invariant holds again and no cache entry lies |
| Operations.RemoveKeepsSound | src/fs/AbstractFileSystem.cpp:721-731 | Whatever the cache said before, a removal adds no path that misleads |
| Operations.RemovedPaths | src/fs/AbstractFileSystem.cpp:721-731 | A removal takes out of the cache exactly the paths at and below its own |
| RenameOperation.DoneOnDrive | src/fs/AbstractFileSystem.cpp:757-765 | Whatever was loaded, the requests of a rename leave on the drive exactly the old tree with the subtree moved and the replaced one gone |
| RenameOperation.WalksAfter | src/fs/AbstractFileSystem.cpp:733-767 | Whatever was loaded, what was at or below the old path is at the same rest below the new one, the old path leads nowhere, every other path leads where it did, and entries keep their kind |
| EventLog.RenameTold | src/fs/AbstractFileSystem.cpp:757-765 | The log grows by these requests for exactly the nodes of what stood at the new path, and by nothing if nothing stood there |
| RenameOperation.Survivors | src/fs/AbstractFileSystem.cpp:750-765 | A node is freed if and only if the replaced node owned it and the moved one did not; ids stay |
| RenameOperation.CacheAfter | src/fs/AbstractFileSystem.cpp:760-765 | The cache forgets the moved node and the freed ones, and no other entry |
| RenameOperation.EntryAfter | src/cache/Cache.cpp:50-54 | An entry that remains is true if and only if its path is not strictly below the old path |
| RenameOperation.RenameKeepsMirrored | src/fs/AbstractFileSystem.cpp:733-767 | Whatever the cache says, a rename keeps the drive a tree with unique names and memory a mirror of it |
| RenameOperation.RenameOutcome | src/fs/AbstractFileSystem.cpp:733-767 | Tree and maps are sound after every rename; the invariant holds again if and only if nothing strictly below the old path was cached |
| RenameOperation.RenameKeepsSound | src/fs/AbstractFileSystem.cpp:733-767 | What misleads after a rename misled before, or was cached strictly below the old path |
| RenameOperation.ChildlessIsSafe | src/fs/AbstractFileSystem.cpp:750-761 | For a node without loaded children, as every file is, that condition holds |
| RenameOperation.StaysStale | src/cache/Cache.cpp:50-54 | A path cached strictly below the old one stays cached with the same node although its walk now fails |
| RenameOperation.NowAt | src/fs/AbstractFileSystem.cpp:750-757 | After the rename a node cached strictly below the old path is at the substituted path, and a lookup there is a hit only for an entry that is stale too |
| RenameOperation.StaleEntryDangles | src/cache/Cache.cpp:24-48 | A lookup at the new path misses the cache and files the node there; when it is removed, the old path still leads to it |
| RenameOperation.RenamedPaths | src/fs/AbstractFileSystem.cpp:757-765 | With nothing cached strictly below, exactly the paths at and below the two paths leave the cache |
| CloudFileSystem.FileSystem.GetRoot | src/fs/AbstractFileSystem.cpp:644-655 | The root is made once, and the invariant holds with it |
| CloudFileSystem.FileSystem.Find | src/fs/AbstractFileSystem.cpp:391-403 | The search ends where memory has no child of the next name, and while memory finds what the drive lists, at the node the walk of the same prefix ends at |
| CloudFileSystem.FileSystem.FillDir | src/fs/AbstractFileSystem.cpp:616-636 | An unfilled folder gets its entries after the nodes it may hold already, and nothing else changes; a file is left alone; a filled folder frees its nodes and gets new ones for the same entries |
| CloudFileSystem.FileSystem.LoadAlong | src/fs/AbstractFileSystem.cpp:672-688 | From any memory: ends at the end of the path if and only if the drive's walk of the rest succeeds, and files exactly the nodes it makes under the prefixes they stand for; while memory mirrors the drive, fills exactly the folders on the path |
| CloudFileSystem.FileSystem.Get | src/fs/AbstractFileSystem.cpp:657-690 | For every path that is not stale: null exactly if the uncached walk fails, else the node with the walk's id; exactly which folders are loaded and which paths cached afterwards; a cached node is returned again; nothing is freed; in any other memory the answer of cache, search and listings |
| CloudFileSystem.FileSystem.GetDirectoryIterator | src/fs/AbstractFileSystem.cpp:292-303 | A folder is filled if it was not, and lists what it held and then the drive's entries; a file has no listing |
| CloudFileSystem.FileSystem.CreateNode | src/fs/AbstractFileSystem.cpp:692-719 | For any path: a path found in memory changes nothing; otherwise one request and one node for each missing name, each in the one before, with its name, kind and id, nothing else on the drive changed, and the exact conditions under which mirror, names, lookups and listings survive it |
| CloudFileSystem.FileSystem.RemoveOne | src/fs/AbstractFileSystem.cpp:376-380 | A subtree is removed children first: each node once, all maps purged; the drive's deletion, then the local one for a file only, then the notification, and all about a child before anything about its parent |
| CloudFileSystem.FileSystem.RemoveAll | src/fs/AbstractFileSystem.cpp:370-384 | The loop over all children removes everything below a node and keeps the node |
| CloudFileSystem.FileSystem.RemoveNodes | src/fs/AbstractFileSystem.cpp:368-389 | One child or all of them go, with their subtrees, and the list holds what is left |
| CloudFileSystem.FileSystem.RemoveNode | src/fs/AbstractFileSystem.cpp:721-731 | Succeeds exactly for an existing path other than the root; then the paths at and below lead nowhere and all others where they led, the nodes that go are those whose entries are gone, and the log grows by the requests for each of them, once and in order; no path becomes stale |
| CloudFileSystem.FileSystem.DetachNode | src/fs/AbstractFileSystem.cpp:565-575 | Takes the node off the list and clears its parent link if it is on the list, else changes nothing and says so |
| CloudFileSystem.FileSystem.AttachNode | src/fs/AbstractFileSystem.cpp:577-585 | Appends the node once and sets its parent link |
| CloudFileSystem.FileSystem.MoveNode | src/fs/AbstractFileSystem.cpp:750-761 | After the move, memory, drive and cache are the moved state, node by node |
| CloudFileSystem.FileSystem.RelinkUnasserted | src/fs/AbstractFileSystem.cpp:750-755 | With the assertion compiled out the moved node has one owner, its parent, if and only if it keeps its folder |
| CloudFileSystem.FileSystem.Resolve | src/fs/AbstractFileSystem.cpp:735-748 | The four nodes of a rename are those at the two paths and above them, or the right error is raised |
| CloudFileSystem.FileSystem.RenameNode | src/fs/AbstractFileSystem.cpp:733-767 | Errors exactly for a missing source or parent; otherwise every path leads where the substitution of the new path for the old says, and the nodes of the replaced subtree go, each with its requests once and in order; only paths cached strictly below the old one become stale, and the invariant holds again if and only if there are none |
| Runs.DoCreate | src/presentation/FuseGate.cpp:98-113 | createFile's lookups make the later createNode legal. From the walk and the entry's kind: opened exactly for an existing file, refused exactly for an existing folder or below a file, made exactly where only the parent exists and is a folder; the path then leads to an entry of the kind asked for, and no other path has moved. For a directory the same lookups are put before createNode, which createDir (src/presentation/FuseGate.cpp:159-167) calls without any |
| Runs.DoLookup | src/fs/AbstractFileSystem.cpp:657-690 | A lookup answers what the walk gives, for every path that is not stale, and leaves the drive alone |
| Runs.DoList | src/fs/AbstractFileSystem.cpp:292-303 | A path that walks to a folder is answered with each of its entries once, by id, name and kind, and nothing else; any other path with no listing |
| Runs.DoRemove | src/fs/AbstractFileSystem.cpp:721-731 | Success exactly for an existing path other than the root, which then leads nowhere with all below it; otherwise the drive is as it was |
| Runs.DoRename | src/fs/AbstractFileSystem.cpp:733-767 | The three answers exactly as the walks of the old path, and of the parent of the new one, say; the drive is substituted or left alone |
| Runs.AnswerAt | src/fs/AbstractFileSystem.cpp:657-767 | In a run each answer is that of the drive as the requests before it have left it, in order |
| Runs.Run | src/fs/AbstractFileSystem.cpp:657-767 | Over every legal run of lookups, listings, creations, removals and renames, all answers and the final drive are those of a machine without tree and cache |
| Runs.RunOn | src/fs/AbstractFileSystem.cpp:657-767 | Over every run, renames of any folder included, of requests that look up no path asked for before something above it was renamed, all answers and the final drive are those of the plain walks |
| Runs.RunFresh | src/fs/AbstractFileSystem.cpp:657-767 | The same for every drive, starting with nothing loaded and nothing cached |
| Runs.ListedRows | src/fs/AbstractFileSystem.cpp:292-303 | A filled folder lists each entry of the drive once, with its name and kind |
| Runs.StableLookup | src/fs/AbstractFileSystem.cpp:657-767 | A path keeps its node over every legal run that removes or renames nothing at or above it |
| Runs.RepeatedLookup | src/fs/AbstractFileSystem.cpp:657-690 | Whatever is looked up and listed in between, a path keeps its node, and no folder is ever cleared |
| Runs.StaleLookup | src/fs/AbstractFileSystem.cpp:757-761 | After a folder's rename a lookup of a path below it that was looked up before returns a node, although the path no longer exists |
| WriteBack.OpenSafe | src/fs/AbstractFileSystem.cpp:305-329 | An open keeps unsaved data covered if and only if it does not empty a copy nobody will upload |
| WriteBack.TruncateSafe | src/fs/AbstractFileSystem.cpp:331-340 | Truncating keeps it covered if and only if a changed handle is open or the result is the drive's content |
| WriteBack.StepSafe | src/fs/AbstractFileSystem.cpp:156-170 | Each open, read, write, close, truncation or deletion leaves every handle its file, and unsaved data covered by a changed handle, if and only if it is careful |
| WriteBack.DeleteValid | src/fs/AbstractFileSystem.cpp:376-380 | Deleting a file leaves no handle without its file if and only if none is open on it, and changes no other content |
| WriteBack.RunSafe | src/fs/AbstractFileSystem.cpp:156-170 | So does every careful interleaving on any number of handles and files |
| WriteBack.AllClosedSynced | src/fs/AbstractFileSystem.cpp:163-170 | With every handle closed, each local copy is what the drive holds |
| WriteBack.OpenView | src/fs/AbstractFileSystem.cpp:305-329 | An open shows the plain file if and only if it does not fail for want of a directory and creates nothing over existing contents |
| WriteBack.OpenPlain | src/fs/AbstractFileSystem.cpp:305-329 | An open shows the plain file and leaves no handle at a replaced copy if and only if it does not fail, creates nothing over existing contents, and replaces no copy that is open |
| WriteBack.StepPlain | src/fs/AbstractFileSystem.cpp:151-170 | Reads return what plain files would; a request leaves what it would leave there, with every handle at its file's copy, if and only if it is an open as above, a deletion of a file that is not open, or any other request |
| WriteBack.RunPlain | src/fs/AbstractFileSystem.cpp:151-170 | Over every run of such requests copies and uploads are invisible |
| WriteBack.NothingLost | src/fs/AbstractFileSystem.cpp:796-803 | When all handles are closed the drive holds what the same requests leave in plain files |
| WriteBack.DirsStay | src/fs/ContentManager.cpp:131-135 | No request ever takes a directory away |
| WriteBack.CreatableStays | src/fs/ContentManager.cpp:66-79 | Once its directory is there, a file can be opened with O_CREAT after any run |
| WriteBack.NewFileFails | src/presentation/handler.cpp:275-289 | On a fresh store creating a file fails and changes nothing, whatever the drive holds for it |
| WriteBack.CleanCopyEmptied | src/fs/AbstractFileSystem.cpp:331-340 | Emptying a clean copy, by opening or by name, leaves it different from the drive with nobody to upload it |
| WriteBack.UnfetchedShownEmpty | src/fs/AbstractFileSystem.cpp:311-327 | A file with contents but no copy, opened with O_CREAT, is shown empty |
| FileHandles.FileStore.OpenContent | src/fs/AbstractFileSystem.cpp:305-329 | Null exactly if O_CREAT meets neither a copy nor a directory for it, and then nothing changes; otherwise a new handle on the copy, marked changed exactly if the copy was created, which is empty if it was created or truncated, else the old copy or the drive's bytes; no other copy changes |
| FileHandles.FileStore.Read | src/fs/AbstractFileSystem.cpp:151-154 | Delivers, byte by byte, what the handle's inode holds from the offset on, as far as it goes |
| FileHandles.FileStore.Write | src/fs/AbstractFileSystem.cpp:156-161 | Byte by byte: the accepted bytes are at their offset in the handle's inode, zeros in a gap before them, everything else there and in other inodes as it was; the handle is marked changed |
| FileHandles.WriteThenRead | src/fs/AbstractFileSystem.cpp:151-161 | What was accepted is read back at its offset through any handle on the same copy, whatever short reads come in between |
| FileHandles.FileStore.Close | src/fs/AbstractFileSystem.cpp:163-170 | Closing a changed handle gives the drive what the file's copy holds by then, closing any other leaves the drive's contents alone; the handle is freed |
| FileHandles.FileStore.TruncateFile | src/fs/AbstractFileSystem.cpp:331-340 | Truncating fetches a missing copy first; the copy then has the new size, its first bytes as they were and zeros after them; no other copy changes and no handle is marked |
| FileHandles.FileStore.Delete | src/fs/AbstractFileSystem.cpp:376-380 | The file goes from the drive with its local copy; the store stays coherent if and only if no handle is open on it |
| FileHandles.NewFile | src/presentation/handler.cpp:275-289 | The front end's way to a new file fails on a fresh store for every id longer than two letters |
| MountTree.BranchWalks | src/fs/JoinedFileSystem.cpp:170-190 | After adding a branch every old walk leads where it did, and the new nodes are found below the root only |
| MountTree.BranchReached | src/fs/JoinedFileSystem.cpp:170-190 | The mounted node is found at its path if and only if it was there before or the path has at most one component |
| MountTree.ShallowLinked | src/fs/JoinedFileSystem.cpp:170-190 | A mount point of at most one component keeps parent links, child lists and paths in agreement |
| MountTree.CarriesOneMore | src/fs/JoinedFileSystem.cpp:258-263 | It adds exactly its own mount, replacing an earlier one on the same path |
| MountTree.TableIs | src/fs/JoinedFileSystem.cpp:252-265 | A path is in the table if and only if something is mounted there, and the last mount on it counts |
| MountTree.WalkIsPlace | src/fs/JoinedFileSystem.cpp:204-217 | In a well-formed tree going down a path reaches the one node that climbs back along it |
| MountTree.DeepestIsLongest | src/fs/JoinedFileSystem.cpp:192-220 | The deepest mounted node on the way is the longest mounted prefix of the path |
| JoinedFileSystem.Joined.constructor | src/fs/JoinedFileSystem.cpp:252-265 | From mounts of at most one component the tree is well-formed and carries exactly the last mount of each path |
| JoinedFileSystem.Joined.BuildBranch | src/fs/JoinedFileSystem.cpp:170-190 | The loop leaves exactly the described branch, in any tree |
| JoinedFileSystem.DeepMount | src/fs/JoinedFileSystem.cpp:170-190 | Mounted at /a/b beside a root mount, a file system is found at /b, and /a/b is answered by the root mount |
| JoinedFileSystem.Joined.FindMountPoint | src/fs/JoinedFileSystem.cpp:192-220 | The deepest mounted node along the path, with the iterator right behind it; the end if there is none; in any tree |
| JoinedFileSystem.Joined.FindPrevMountPoint | src/fs/JoinedFileSystem.cpp:222-236 | The climb ends, at the deepest mount point on the path of the parent |
| JoinedFileSystem.Joined.ClimbMeetsDescent | src/fs/JoinedFileSystem.cpp:192-236 | Climbing from a node and descending along its parent's path give the same mount point |
| JoinedFileSystem.Joined.Get | src/fs/JoinedFileSystem.cpp:280-298 | The root and mount points answer for themselves; every other path is handed to the deepest mount with exactly its rest |
| JoinedFileSystem.Joined.GetFS | src/fs/JoinedFileSystem.cpp:376-388 | For a path that the mount table's longest prefix does not exhaust: the file system mounted there and exactly the rest; none if and only if nothing mounted starts the path, or it is a mount point itself |
| JoinedFileSystem.Joined.RenameRoute | src/fs/JoinedFileSystem.cpp:318-355 | By the table: a source that its file system does not have is reported first, then a target that no file system is asked about; otherwise within one file system, with both rests, or across two; the two refusals for mount points never happen |
| JoinedFileSystem.RoutedByTable | src/fs/JoinedFileSystem.cpp:280-298 | In terms of the mount table: the longest prefix decides, and with no prefix there is no answer |
| JoinedFileSystem.Joined.ListDirectory | src/fs/JoinedFileSystem.cpp:149-160 | No listing without file system and mounts; otherwise the unshadowed entries and then the mounts |
| JoinedFileSystem.ListingMeetsLookup | src/fs/JoinedFileSystem.cpp:149-160 | At the root an entry is listed if and only if a lookup of its name gives that entry, mounts included |
| JoinedFileSystem.Joined.ListAndGet | src/fs/JoinedFileSystem.cpp:280-298 | The same for the two methods side by side, over every list of such mounts |
| JoinedFileSystem.DriveAgrees | src/fs/AbstractFileSystem.cpp:292-303 | A drive with unique names meets what this asks of a mounted file system |
| MergedListing.CollectMounts | src/fs/JoinedFileSystem.cpp:33-37 | The map holds the first child of each name, in the order of the first differing character, a name before what it starts |
| MergedListing.SortedIs | src/fs/JoinedFileSystem.cpp:33-37 | The order of the map is the lexicographic one |
| MergedListing.SortedUnique | src/fs/JoinedFileSystem.cpp:84-86 | The order and the entries determine that list |
| MergedListing.MountMapUnique | src/fs/JoinedFileSystem.cpp:33-37 | First child of each name and strict order leave one list only |
| MergedListing.MergeIt.ReadNext | src/fs/JoinedFileSystem.cpp:57-80 | Each step of the mode machine delivers the next pending entry, or finds that none is left |
| MergedListing.MergeIt.Next | src/fs/JoinedFileSystem.cpp:50-55 | Hands out the prefetched entry and fetches the one after it |
| MergedListing.MergeIt.HasNext | src/fs/JoinedFileSystem.cpp:46-49 | True exactly while an entry remains |
| MergedListing.Drain | src/fs/JoinedFileSystem.cpp:46-80 | Calling next while there is one more ends, and delivers all that was to come |
| MergedListing.ListAll | src/fs/JoinedFileSystem.cpp:27-89 | Run to the end: the underlying entries no mount hides, in their order, then the one sorted list of first mounts |
| MergedListing.UnshadowedIs | src/fs/JoinedFileSystem.cpp:57-80 | The entries that stay are those of other names than the mounts, each as often as it was |
| MergedListing.UnshadowedJoin | src/fs/JoinedFileSystem.cpp:57-80 | They stay in their order |
| StoreLayout.FileNameInjective | src/fs/ContentManager.cpp:11-27 | Different ids never share a file |
| StoreLayout.OnTheWay | src/fs/ContentManager.cpp:11-27 | One id's file lies on the way to another's if and only if it is that id's first letter alone |
| StoreLayout.LongIdsAreFiles | src/fs/ContentManager.cpp:131-135 | An id of two letters or more never names a directory |
| ContentStore.ContentManager.Is | src/fs/ContentManager.cpp:60-64 | True exactly for stored ids, and for one-letter ids whose directory exists |
| ContentStore.ContentManager.OpenFile | src/fs/ContentManager.cpp:66-79 | Opens the inode of the name, empties it under O_TRUNC, makes a new one under O_CREAT if the directory exists, opens a directory only for reading, and fails otherwise |
| ContentStore.ContentManager.CreateFile | src/fs/ContentManager.cpp:131-161 | Refused exactly if the path is blocked; otherwise the file is the accepted prefixes of the reader's pieces of 4096 bytes up to the first write that fails, and `lost` counts what these refused; a failing write and a failing reader are told apart; no other id changes |
| ContentStore.AcceptedIs | src/fs/ContentManager.cpp:146-157 | The bytes that reach the file are those of each piece but for the ones that its own write refused at its end |
| ContentStore.CutSizes | src/fs/ContentManager.cpp:146-157 | A chunk goes through the buffer in full pieces but for the last |
| ContentStore.StreamSaved | src/fs/ContentManager.cpp:146-157 | The file is the whole stream if and only if no non-empty piece was written short and no bytes were left when a write failed |
| ContentStore.ContentManager.DeleteFile | src/fs/ContentManager.cpp:163-176 | Only that id's content goes, and the answer says whether it was there |
| ContentStore.ContentManager.WriteContent | src/fs/ContentManager.cpp:106-115 | Byte by byte: what was written in its range, what was there elsewhere, zeros in a gap past the old end |
| ContentStore.ContentManager.TruncateFile | src/fs/ContentManager.cpp:117-129 | A missing file is refused; otherwise the file has the new size, its bytes as far as both sizes go and zeros after them, in its inode, and no other file changes |
| ContentStore.ReadContent | src/fs/ContentManager.cpp:86-104 | For every pattern of short reads and interruptions exactly the slice asked for; after a failure a prefix of it; the rest of the buffer is untouched |
| ContentStore.ReadTiles | src/fs/ContentManager.cpp:86-104 | Consecutive reads of any sizes put the file back together |
| ContentStore.StoreThenRead | src/fs/ContentManager.cpp:131-161 | What the reader delivered is what later reads deliver |
| ContentStore.Serve | src/fs/ContentManager.cpp:60-176 | Each single answer in terms of what is stored and of the directories, and no other id ever changes |
| ContentStore.ServeAll | src/fs/ContentManager.cpp:60-176 | Over every run on any ids the answers are those of a map from id to bytes and the set of first letters that became directories |
| ContentStore.ReplyAt | src/fs/ContentManager.cpp:60-176 | In a run each answer is that of the state the requests before it have left, in order |
| ContentStore.LongIdsArePlain | src/fs/ContentManager.cpp:11-27 | While only ids of two letters or more are used the letters never show |
| ContentStore.FirstLetter | src/fs/ContentManager.cpp:18-25 | After a longer id is stored its first letter seems to exist and is refused |
| EnumText.EqualIgnoreCase | src/utils/Enum.h:190-202 | Same length, and at each place the same character or the two cases of one of the 26 letters |
| EnumText.LetterCase | src/utils/Enum.h:10-40 | Two characters are folded to the same one if and only if they are equal or the two cases of one of the 26 letters |
| EnumText.IndexString | src/utils/Enum.h:190-202 | The first item of that name, or -1 if and only if there is none |
| EnumText.Position | src/utils/Enum.h:181-188 | The first item of that value, or -1 if and only if there is none |
| EnumText.Narrow | src/utils/Enum.h:358-388 | One round over the candidates: a completed name before white space or the end, or the candidates that go on with the character |
| EnumText.KeepStep | src/utils/Enum.h:358-390 | Narrowing character by character keeps exactly the names that start with what was read |
| EnumText.Extract | src/utils/Enum.h:328-403 | For every table: reads the first complete name, sets its first item and leaves the rest unread; otherwise fails with the undefined value |
| EnumText.ReadAnyCase | src/utils/Enum.h:328-403 | Where no name starts another, each name with any of its letters in the other case is read to its own item before any of the six blanks or the end |
| EnumText.AcceptedInputs | src/utils/Enum.h:345-401 | If every name leads itself, an input is accepted if and only if it is some name, in any case, up to white space or the end; where no name starts another there is one such name |
| EnumText.EveryNameStops | src/utils/Enum.h:345-401 | For every table: each name, given on its own in any case, is read to its end if and only if each name is the first that starts with it and none is another one followed by white space |
| EnumText.NameStops | src/utils/Enum.h:345-401 | The same for a single name of the table |
| EnumText.BrokenName | src/utils/Enum.h:371-382 | In the table a, a b the name a b is never read to its end: the first is accepted at the white space |
| EnumText.PrefixFreeLeads | src/utils/Enum.h:376-382 | A table in which no name starts another meets both of these conditions |
| EnumText.OrderMatters | src/utils/Enum.h:376-382 | The same two names in either order: one order meets that condition and accepts the shorter name at the end of input, the other does not |
| EnumText.PrintAndParse | src/utils/Enum.h:321-403 | For every table and value: parsing what was printed, followed by white space and text or by nothing, gives the value back and leaves what followed if and only if its item is the first of that name, the name is no other name followed by white space, and, at the end of input, the first item that starts with the name is that name |
| EnumText.EnumValue.Incr | src/utils/Enum.h:274-294 | One place forward in the circle of items and the undefined value |
| EnumText.EnumValue.Decr | src/utils/Enum.h:295-316 | One place back |
| EnumText.StepsInverse | src/utils/Enum.h:274-316 | Forward and back are inverse on the items and the undefined value |
| EnumText.FullCircle | src/utils/Enum.h:274-294 | One step more than there are items is the identity |
| EnumText.Enumerate | src/utils/Enum.h:166-174 | From begin to end every item comes once, in table order |

## Left out

- Runs.Run: legal runs rename only what nothing is cached strictly below, so that which paths are cached is known to the end; `Runs.RunOn` covers every rename.
- Runs.RunOn: a request that does look up a stale path is not covered; what it may find is a node that is elsewhere (`Runs.StaleLookup`) or freed (`RenameOperation.StaleEntryDangles`). A freed node's address is never that of a new node in the model.
- CloudFileSystem.FileSystem.CreateNode: after a creation that leaves memory no mirror of the drive only lookups and listings are covered (`CloudFileSystem.FileSystem.Get`, `CloudFileSystem.FileSystem.GetDirectoryIterator`), not another creation, removal or rename.
- Runs.Run: listings are compared as multisets of rows; their order is the drive's only until a node is created or moved in.
- Runs.Run: a creation has an existing parent, as the kernel sees to; `CloudFileSystem.FileSystem.CreateNode` covers every path.
- CloudFileSystem.FileSystem.RemoveNodes: the loop and recursion of the source are split into `RemoveNodes`, `RemoveChild`, `RemoveAll`, `RemoveNext` and `RemoveOne`, one for each thing proved.
- WriteBack.RunPlain: only requests that behave like on plain files, one by one (`WriteBack.StepPlain` is exact); runs with an open handle at a replaced copy are covered by `WriteBack.RunSafe`.
- WriteBack.RunSafe: deletions of files that are open end the run; what later uses of such a handle do is not modelled.
- ContentStore.StoreThenRead: assumes full writes; `ContentStore.ContentManager.CreateFile` says exactly what short and failing ones lose.
- CloudFileSystem.FileSystem.RenameNode: a new path inside the old one and a new parent that is a file are outside its precondition; the kernel refuses both before the call.
- `Cache::findById`: nothing calls it.
- ContentStore.ReadContent: sizes are unbounded, so the narrowing of the count to `int` is not modelled.
- JoinedFileSystem.Joined.ListAndGet: only for mount points of at most one component and for the root of the joined tree.
- Google Drive requests, OAuth, HTTP and JSON: only the abstract drive is modelled.
- FUSE callbacks, option parsing, logging, directories of the user and the environment: plumbing, used only for the order of calls.
- Threads and locks: the model takes one request after another; the tree has no lock in the source.
- Failures in the middle of drive requests, which can leave a half-filled folder.
- `importNreplace`, `replaceNode`, `insertNode` and renames across file systems: the copy loop there moves its offset before it writes.
- `superpath`, the message compiler of `G2FException`, `updateConf` and `readConf`: unused, or not doing what their comments say.
- Properties, registries, configuration chains, times, sizes, checksums and attribute filling.

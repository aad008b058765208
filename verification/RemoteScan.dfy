/** The recursive listing of a bucket without a manifest call (src/sync/remote.rs:148-230). */
module RemoteScan {
  import opened Convergence
  import opened Manifests
  import opened Paths

  datatype FolderInfo = FolderInfo(id: nat, name: string, parent: nat, status: int)

  datatype FileInfo = FileInfo(
    id: nat, name: string, parent: nat, size: nat, filled: nat, hash: Option<Digest>, status: int)

  /** What the bucket lists below each folder id, and a finite set that holds all folder ids. Nothing
      says that the folders form a tree. */
  datatype Graph = Graph(folders: nat -> seq<FolderInfo>, files: nat -> seq<FileInfo>, ids: set<nat>)
  {
    ghost predicate Valid(root: nat) {
      && root in ids
      && (forall id, f {:trigger f in folders(id)} :: f in folders(id) ==>
            f.id in ids && f.parent == id && ValidName(f.name))
      && forall id, f {:trigger f in files(id)} :: f in files(id) ==> f.parent == id && ValidName(f.name)
    }
  }

  function FolderEntry(f: FolderInfo): RemoteEntry {
    RemoteEntry(f.id, f.parent, Directory, 0, 0, None, f.status)
  }

  function FileEntry(f: FileInfo): RemoteEntry {
    RemoteEntry(f.id, f.parent, File, f.size, f.filled, f.hash, f.status)
  }

  /** A folder waiting to be listed. */
  datatype Pending = Pending(id: nat, path: string)

  function Ids(queue: seq<Pending>): (ids: seq<nat>)
    ensures |ids| == |queue|
  {
    seq(|queue|, i requires 0 <= i < |queue| => queue[i].id)
  }

  ghost predicate Distinct(ids: seq<nat>) {
    forall i, j :: 0 <= i < j < |ids| ==> ids[i] != ids[j]
  }

  ghost function SetOf(ids: seq<nat>): set<nat> {
    set id | id in ids
  }

  /** Where an entry may hang: below the root or below a listed directory, with that folder's id. */
  ghost predicate HangsBelow(entries: map<string, RemoteEntry>, root: nat, parentId: nat, parentPath: string) {
    if parentPath == "" then parentId == root
    else parentPath in entries && entries[parentPath].kind == Directory && entries[parentPath].id == parentId
         && ValidPath(parentPath)
  }

  ghost predicate Placed(entries: map<string, RemoteEntry>, root: nat, path: string)
    requires path in entries
  {
    ValidPath(path) && HangsBelow(entries, root, entries[path].parent, ParentPath(path))
  }

  ghost predicate ParentClosed(entries: map<string, RemoteEntry>, root: nat) {
    forall p {:trigger Placed(entries, root, p)} :: p in entries ==> Placed(entries, root, p)
  }

  /** The variables of the scan. */
  datatype Scan = Scan(
    entries: map<string, RemoteEntry>, conflicts: seq<(string, string)>, queue: seq<Pending>, visited: set<nat>)

  /** Every folder seen so far is listed or waiting, once; `listed` are those already listed. */
  ghost predicate Explored(g: Graph, root: nat, s: Scan, listed: seq<nat>) {
    && ParentClosed(s.entries, root)
    && root in s.visited && s.visited <= g.ids && Distinct(listed + Ids(s.queue)) && SetOf(listed + Ids(s.queue)) == s.visited
    && (forall i :: 0 <= i < |s.queue| ==> HangsBelow(s.entries, root, s.queue[i].id, s.queue[i].path))
    && forall p :: p in s.entries && s.entries[p].kind == Directory ==> s.entries[p].id in s.visited
  }

  /** The body of the loop over listed folders. */
  function AddFolder(s: Scan, parentPath: string, f: FolderInfo): Scan {
    var path := JoinPath(parentPath, f.name);
    if path in s.entries then s.(conflicts := s.conflicts + [(path, "duplicate remote name")])
    else
      var added := s.(entries := s.entries[path := FolderEntry(f)]);
      if f.id in s.visited then
        added.(conflicts := s.conflicts + [(path, "remote folder cycle or duplicate id")])
      else added.(visited := s.visited + {f.id}, queue := s.queue + [Pending(f.id, path)])
  }

  /** The body of the loop over listed files. */
  function AddFile(s: Scan, parentPath: string, f: FileInfo): Scan {
    var path := JoinPath(parentPath, f.name);
    if path in s.entries then s.(conflicts := s.conflicts + [(path, "duplicate remote name")])
    else
      s.(entries := s.entries[path := FileEntry(f)],
         conflicts := s.conflicts + if f.filled != f.size then [(path, "remote file is incomplete")] else [])
  }

  lemma HangsBelowKept(entries: map<string, RemoteEntry>, root: nat, path: string, e: RemoteEntry)
    requires path !in entries
    ensures forall id, parent {:trigger HangsBelow(entries, root, id, parent)} ::
              HangsBelow(entries, root, id, parent) ==> HangsBelow(entries[path := e], root, id, parent)
  {
  }

  lemma PlacedBelow(entries: map<string, RemoteEntry>, root: nat, parentPath: string, name: string, e: RemoteEntry)
    requires ParentClosed(entries, root) && ValidName(name) && JoinPath(parentPath, name) !in entries
    requires HangsBelow(entries, root, e.parent, parentPath)
    ensures ValidPath(JoinPath(parentPath, name))
    ensures ParentClosed(entries[JoinPath(parentPath, name) := e], root)
  {
    var path := JoinPath(parentPath, name);
    SplitJoin(parentPath, name);
    JoinValid(parentPath, name);
    HangsBelowKept(entries, root, path, e);
    forall p | p in entries ensures Placed(entries[path := e], root, p) {
      assert Placed(entries, root, p);
    }
  }

  lemma DistinctAppend(ids: seq<nat>, id: nat)
    requires Distinct(ids) && id !in ids
    ensures Distinct(ids + [id]) && SetOf(ids + [id]) == SetOf(ids) + {id}
  {
  }

  lemma FolderExplored(g: Graph, root: nat, s: Scan, listed: seq<nat>, parentPath: string, f: FolderInfo)
    requires Explored(g, root, s, listed) && ValidName(f.name) && f.id in g.ids
    requires HangsBelow(s.entries, root, f.parent, parentPath)
    ensures Explored(g, root, AddFolder(s, parentPath, f), listed)
  {
    var path := JoinPath(parentPath, f.name);
    if path !in s.entries {
      PlacedBelow(s.entries, root, parentPath, f.name, FolderEntry(f));
      HangsBelowKept(s.entries, root, path, FolderEntry(f));
      if f.id !in s.visited {
        assert f.id !in listed + Ids(s.queue) by { assert f.id !in SetOf(listed + Ids(s.queue)); }
        DistinctAppend(listed + Ids(s.queue), f.id);
        assert listed + Ids(s.queue + [Pending(f.id, path)]) == listed + Ids(s.queue) + [f.id];
      }
    }
  }

  lemma FileExplored(g: Graph, root: nat, s: Scan, listed: seq<nat>, parentPath: string, f: FileInfo)
    requires Explored(g, root, s, listed) && ValidName(f.name)
    requires HangsBelow(s.entries, root, f.parent, parentPath)
    ensures Explored(g, root, AddFile(s, parentPath, f), listed)
  {
    var path := JoinPath(parentPath, f.name);
    if path !in s.entries {
      PlacedBelow(s.entries, root, parentPath, f.name, FileEntry(f));
      HangsBelowKept(s.entries, root, path, FileEntry(f));
    }
  }

  // ---- Buckets whose folders form a tree -------------------------------------------------------

  /** The bucket's information about a folder or a file is that of an entry of the tree. */
  predicate TellsFolder(f: FolderInfo, e: RemoteEntry) {
    && e.kind == Directory && f.id == e.id && f.parent == e.parent && f.status == e.status
    && e.size == 0 && e.filled == 0 && e.hash == None
  }

  predicate TellsFile(f: FileInfo, e: RemoteEntry) {
    && e.kind == File && f.id == e.id && f.parent == e.parent && f.status == e.status
    && f.size == e.size && f.filled == e.filled && f.hash == e.hash
  }

  ghost predicate ListsFolders(g: Graph, t: Tree, path: string) {
    FolderAt(t, path) ==>
      && var fs := g.folders(FolderId(t, path));
      && (forall i, j :: 0 <= i < j < |fs| ==> fs[i].name != fs[j].name)
      && (forall f :: f in fs ==> JoinPath(path, f.name) in t.entries && TellsFolder(f, t.entries[JoinPath(path, f.name)]))
      && (forall p :: p in t.entries && ParentPath(p) == path && t.entries[p].kind == Directory ==>
            exists f :: f in fs && p == JoinPath(path, f.name))
  }

  ghost predicate ListsFiles(g: Graph, t: Tree, path: string) {
    FolderAt(t, path) ==>
      && var fs := g.files(FolderId(t, path));
      && (forall i, j :: 0 <= i < j < |fs| ==> fs[i].name != fs[j].name)
      && (forall f :: f in fs ==> JoinPath(path, f.name) in t.entries && TellsFile(f, t.entries[JoinPath(path, f.name)]))
      && (forall p :: p in t.entries && ParentPath(p) == path && t.entries[p].kind == File ==>
            exists f :: f in fs && p == JoinPath(path, f.name))
  }

  /** The bucket's listings describe exactly the tree below the root, in any order. */
  ghost predicate Lists(g: Graph, t: Tree) {
    && ValidTree(t)
    && (forall p {:trigger ListsFolders(g, t, p)} :: ListsFolders(g, t, p))
    && forall p {:trigger ListsFiles(g, t, p)} :: ListsFiles(g, t, p)
  }

  /** What has been reported so far is part of the tree, with conflicts for exactly the reported files
      that are incomplete, and the folder ids seen are those of the reported folders. */
  ghost predicate Mirrors(t: Tree, s: Scan) {
    && (forall p :: p in s.entries ==> p in t.entries && s.entries[p] == t.entries[p])
    && ConflictPaths(s.conflicts) == IncompletePaths(s.entries)
    && (forall id :: id in s.visited ==>
          id == t.rootId || exists p :: p in s.entries && s.entries[p].kind == Directory && s.entries[p].id == id)
  }

  /** Folders in `done` have been listed completely; of `current`, only the entries in `seen`. */
  ghost predicate Frontier(t: Tree, s: Scan, done: set<string>, current: string, seen: set<string>) {
    && current !in done && FolderAt(t, current)
    && FullyListed(t, s, done)
    && (forall p :: p in s.entries && ParentPath(p) !in done ==> ParentPath(p) == current && p in seen)
    && Waiting(t, s, done + {current})
  }

  ghost predicate FullyListed(t: Tree, s: Scan, done: set<string>) {
    forall p :: p in t.entries && ParentPath(p) in done ==> p in s.entries
  }

  /** The same between two folders. */
  ghost predicate Between(t: Tree, s: Scan, done: set<string>) {
    FullyListed(t, s, done) && (forall p :: p in s.entries ==> ParentPath(p) in done) && Waiting(t, s, done)
  }

  /** Reported folders that have not been started are waiting. */
  ghost predicate Waiting(t: Tree, s: Scan, started: set<string>) {
    && "" in started && "" !in s.entries
    && (forall q :: q in started ==> q == "" || q in s.entries)
    && (forall i :: 0 <= i < |s.queue| ==> IsWaiting(t, s, started, s.queue[i]))
    && (forall i, j :: 0 <= i < j < |s.queue| ==> s.queue[i].path != s.queue[j].path)
    && (forall p :: p in s.entries && s.entries[p].kind == Directory && p !in started ==> p in PathList(s.queue))
  }

  function PathList(queue: seq<Pending>): (paths: seq<string>)
    ensures |paths| == |queue|
  {
    seq(|queue|, i requires 0 <= i < |queue| => queue[i].path)
  }

  ghost predicate IsWaiting(t: Tree, s: Scan, started: set<string>, item: Pending) {
    item.path in s.entries && FolderAt(t, item.path) && item.id == FolderId(t, item.path) && item.path !in started
  }

  /** In a tree nothing is met twice. */
  lemma FolderIsNew(t: Tree, s: Scan, done: set<string>, current: string, seen: set<string>, f: FolderInfo)
    requires ValidTree(t) && Mirrors(t, s) && Frontier(t, s, done, current, seen) && ValidName(f.name)
    requires var p := JoinPath(current, f.name); p !in seen && p in t.entries && t.entries[p] == FolderEntry(f)
    ensures JoinPath(current, f.name) !in s.entries && f.id !in s.visited
    ensures JoinPath(current, f.name) != "" && ParentPath(JoinPath(current, f.name)) == current
  {
    var path := JoinPath(current, f.name);
    SplitJoin(current, f.name);
    assert EntryPlaced(t, path);
    if f.id in s.visited {
      assert f.id != t.rootId;
      var p :| p in s.entries && s.entries[p].kind == Directory && s.entries[p].id == f.id;
      assert SameObject(t.entries[p], t.entries[path]);
    }
  }

  lemma FolderMirrors(t: Tree, s: Scan, path: string, e: RemoteEntry)
    requires Mirrors(t, s) && path in t.entries && t.entries[path] == e && e.kind == Directory && path !in s.entries
    ensures Mirrors(t, s.(entries := s.entries[path := e], visited := s.visited + {e.id},
                          queue := s.queue + [Pending(e.id, path)]))
  {
    var s' := s.(entries := s.entries[path := e], visited := s.visited + {e.id}, queue := s.queue + [Pending(e.id, path)]);
    forall id | id in s'.visited
      ensures id == t.rootId || exists p :: p in s'.entries && s'.entries[p].kind == Directory && s'.entries[p].id == id
    {
      if id == e.id {
        assert path in s'.entries && s'.entries[path].kind == Directory && s'.entries[path].id == id;
      } else if id != t.rootId {
        var p :| p in s.entries && s.entries[p].kind == Directory && s.entries[p].id == id;
        assert p in s'.entries && s'.entries[p].kind == Directory && s'.entries[p].id == id;
      }
    }
  }

  lemma FolderWaits(t: Tree, s: Scan, started: set<string>, path: string, e: RemoteEntry)
    requires Waiting(t, s, started) && path in t.entries && t.entries[path] == e && e.kind == Directory
    requires path !in s.entries && path != ""
    ensures Waiting(t, s.(entries := s.entries[path := e], visited := s.visited + {e.id},
                          queue := s.queue + [Pending(e.id, path)]), started)
  {
    var s' := s.(entries := s.entries[path := e], visited := s.visited + {e.id}, queue := s.queue + [Pending(e.id, path)]);
    forall i | 0 <= i < |s'.queue| ensures IsWaiting(t, s', started, s'.queue[i]) {
      assert i < |s.queue| ==> IsWaiting(t, s, started, s.queue[i]);
    }
    forall i, j | 0 <= i < j < |s'.queue| ensures s'.queue[i].path != s'.queue[j].path {
      assert IsWaiting(t, s, started, s.queue[i]);
    }
    assert PathList(s'.queue) == PathList(s.queue) + [path];
  }

  lemma FolderMirrored(t: Tree, s: Scan, done: set<string>, current: string, seen: set<string>, f: FolderInfo)
    requires ValidTree(t) && Mirrors(t, s) && Frontier(t, s, done, current, seen) && ValidName(f.name)
    requires var p := JoinPath(current, f.name); p !in seen && p in t.entries && t.entries[p] == FolderEntry(f)
    ensures Mirrors(t, AddFolder(s, current, f))
    ensures Frontier(t, AddFolder(s, current, f), done, current, seen + {JoinPath(current, f.name)})
  {
    hide Mirrors, Waiting, ValidTree;
    var path := JoinPath(current, f.name);
    FolderIsNew(t, s, done, current, seen, f);
    FolderMirrors(t, s, path, FolderEntry(f));
    FolderWaits(t, s, done + {current}, path, FolderEntry(f));
  }

  lemma FileMirrored(t: Tree, s: Scan, done: set<string>, current: string, seen: set<string>, f: FileInfo)
    requires ValidTree(t) && Mirrors(t, s) && Frontier(t, s, done, current, seen) && ValidName(f.name)
    requires var p := JoinPath(current, f.name); p !in seen && p in t.entries && t.entries[p] == FileEntry(f)
    ensures Mirrors(t, AddFile(s, current, f))
    ensures Frontier(t, AddFile(s, current, f), done, current, seen + {JoinPath(current, f.name)})
  {
    var path := JoinPath(current, f.name);
    SplitJoin(current, f.name);
    assert path !in s.entries;
    assert EntryPlaced(t, path);
    FileMirrors(t, s, path, f);
    FileWaits(t, s, done + {current}, path, f);
  }

  lemma FileMirrors(t: Tree, s: Scan, path: string, f: FileInfo)
    requires Mirrors(t, s) && path in t.entries && t.entries[path] == FileEntry(f) && path !in s.entries
    ensures Mirrors(t, s.(entries := s.entries[path := FileEntry(f)],
                          conflicts := s.conflicts + if f.filled != f.size then [(path, "remote file is incomplete")] else []))
  {
    var entries := s.entries[path := FileEntry(f)];
    forall id | id in s.visited && id != t.rootId
      ensures exists p :: p in entries && entries[p].kind == Directory && entries[p].id == id
    {
      var p :| p in s.entries && s.entries[p].kind == Directory && s.entries[p].id == id;
      assert p in entries && entries[p] == s.entries[p];
    }
    OneMoreConflict(s.conflicts, (path, "remote file is incomplete"));
    assert s.conflicts + [] == s.conflicts;
    assert IncompletePaths(entries) == IncompletePaths(s.entries) + if f.filled != f.size then {path} else {};
  }

  lemma FileWaits(t: Tree, s: Scan, started: set<string>, path: string, f: FileInfo)
    requires Waiting(t, s, started) && path !in s.entries && path != ""
    ensures Waiting(t, s.(entries := s.entries[path := FileEntry(f)],
                          conflicts := s.conflicts + if f.filled != f.size then [(path, "remote file is incomplete")] else []),
                    started)
  {
    var s' := s.(entries := s.entries[path := FileEntry(f)],
                 conflicts := s.conflicts + if f.filled != f.size then [(path, "remote file is incomplete")] else []);
    forall i | 0 <= i < |s'.queue| ensures IsWaiting(t, s', started, s'.queue[i]) {
      assert IsWaiting(t, s, started, s.queue[i]);
    }
  }

  // ---- Scans without conflicts -----------------------------------------------------------------

  /** Below `path` exactly these folders and files have been reported. */
  ghost predicate Reports(entries: map<string, RemoteEntry>, path: string, folders: seq<FolderInfo>, files: seq<FileInfo>) {
    && (forall i, j :: 0 <= i < j < |folders| ==> folders[i].name != folders[j].name)
    && (forall i, j :: 0 <= i < j < |files| ==> files[i].name != files[j].name)
    && (forall f :: f in folders ==> JoinPath(path, f.name) in entries && entries[JoinPath(path, f.name)] == FolderEntry(f))
    && (forall f :: f in files ==> JoinPath(path, f.name) in entries && entries[JoinPath(path, f.name)] == FileEntry(f))
    && (forall p :: p in entries && ParentPath(p) == path && entries[p].kind == Directory ==>
          exists f :: f in folders && p == JoinPath(path, f.name))
    && (forall p :: p in entries && ParentPath(p) == path && entries[p].kind == File ==>
          exists f :: f in files && p == JoinPath(path, f.name))
  }

  /** A reported folder is waiting and nothing is reported below it, or it is reported in full. */
  ghost predicate Settled(g: Graph, root: nat, entries: map<string, RemoteEntry>, queue: seq<Pending>, path: string) {
    var t := Tree(entries, root, 0);
    FolderAt(t, path) ==>
      if Pending(FolderId(t, path), path) in queue then Reports(t.entries, path, [], [])
      else Reports(t.entries, path, g.folders(FolderId(t, path)), g.files(FolderId(t, path)))
  }

  ghost predicate DistinctIds(entries: map<string, RemoteEntry>, kind: EntryKind) {
    forall p, q {:trigger SameObject(entries[p], entries[q])} ::
      p in entries && q in entries && entries[p].kind == kind && SameObject(entries[p], entries[q]) ==> p == q
  }

  /** The folders reported so far have different ids, and the files are complete. */
  ghost predicate NothingTwice(t: Tree) {
    && DistinctIds(t.entries, Directory)
    && (forall p :: p in t.entries && t.entries[p].kind == Directory ==> t.entries[p].id != t.rootId)
    && Complete(t)
  }

  /** What has been reported without a conflict is a tree; the folder `current` may be listed in part. */
  ghost predicate Tidy(g: Graph, root: nat, s: Scan, current: set<string>) {
    && NothingTwice(Tree(s.entries, root, 0)) && "" !in s.entries
    && forall p {:trigger Settled(g, root, s.entries, s.queue, p)} ::
         p !in current ==> Settled(g, root, s.entries, s.queue, p)
  }

  /** Unless there has been a conflict, the scan is tidy and has reported this much of `item`. */
  ghost predicate TidyWithin(
    g: Graph, root: nat, s: Scan, item: Pending, folders: seq<FolderInfo>, files: seq<FileInfo>)
  {
    s.conflicts == [] ==>
      && Tidy(g, root, s, {item.path}) && item !in s.queue
      && HangsBelow(s.entries, root, item.id, item.path)
      && Reports(s.entries, item.path, folders, files)
  }

  lemma ReportsElsewhere(
    entries: map<string, RemoteEntry>, path: string, folders: seq<FolderInfo>, files: seq<FileInfo>,
    current: string, name: string, e: RemoteEntry)
    requires Reports(entries, path, folders, files) && path != current
    requires ValidName(name) && JoinPath(current, name) !in entries
    ensures Reports(entries[JoinPath(current, name) := e], path, folders, files)
  {
    SplitJoin(current, name);
  }

  lemma ReportsFolder(entries: map<string, RemoteEntry>, path: string, folders: seq<FolderInfo>, f: FolderInfo)
    requires Reports(entries, path, folders, []) && JoinPath(path, f.name) !in entries
    ensures Reports(entries[JoinPath(path, f.name) := FolderEntry(f)], path, folders + [f], [])
  {
    var after, more := entries[JoinPath(path, f.name) := FolderEntry(f)], folders + [f];
    assert more[|folders|] == f;
    forall i | 0 <= i < |folders| ensures folders[i].name != f.name {
      assert folders[i] in folders;
    }
    forall p | p in after && ParentPath(p) == path && after[p].kind == Directory
      ensures exists h :: h in more && p == JoinPath(path, h.name)
    {
      if p in entries {
        var h :| h in folders && p == JoinPath(path, h.name);
        assert h in more;
      } else {
        assert f in more;
      }
    }
  }

  lemma ReportsFile(
    entries: map<string, RemoteEntry>, path: string, folders: seq<FolderInfo>, files: seq<FileInfo>, f: FileInfo)
    requires Reports(entries, path, folders, files) && JoinPath(path, f.name) !in entries
    ensures Reports(entries[JoinPath(path, f.name) := FileEntry(f)], path, folders, files + [f])
  {
    var after, more := entries[JoinPath(path, f.name) := FileEntry(f)], files + [f];
    assert more[|files|] == f;
    forall i | 0 <= i < |files| ensures files[i].name != f.name {
      assert files[i] in files;
    }
    forall p | p in after && ParentPath(p) == path && after[p].kind == File
      ensures exists h :: h in more && p == JoinPath(path, h.name)
    {
      if p in entries {
        var h :| h in files && p == JoinPath(path, h.name);
        assert h in more;
      } else {
        assert f in more;
      }
    }
  }

  /** Nothing is reported below a path that is not. */
  lemma NothingReportedBelow(entries: map<string, RemoteEntry>, root: nat, path: string)
    requires ParentClosed(entries, root) && path !in entries && path != ""
    ensures Reports(entries, path, [], [])
  {
    forall p | p in entries ensures ParentPath(p) != path {
      assert Placed(entries, root, p);
    }
  }

  lemma FolderNotTwice(s: Scan, root: nat, path: string, e: RemoteEntry)
    requires NothingTwice(Tree(s.entries, root, 0)) && path !in s.entries && e.kind == Directory
    requires root in s.visited && e.id !in s.visited
    requires forall p :: p in s.entries && s.entries[p].kind == Directory ==> s.entries[p].id in s.visited
    ensures NothingTwice(Tree(s.entries[path := e], root, 0))
  {
    var after := s.entries[path := e];
    forall p, q | p in after && q in after && after[p].kind == Directory && SameObject(after[p], after[q]) ensures p == q {
      if p in s.entries && q in s.entries {
        assert SameObject(s.entries[p], s.entries[q]);
      }
    }
  }

  lemma FileNotTwice(entries: map<string, RemoteEntry>, root: nat, path: string, e: RemoteEntry)
    requires NothingTwice(Tree(entries, root, 0)) && path !in entries && e.kind == File && e.filled == e.size
    ensures NothingTwice(Tree(entries[path := e], root, 0))
  {
    var after := entries[path := e];
    forall p, q | p in after && q in after && after[p].kind == Directory && SameObject(after[p], after[q]) ensures p == q {
      assert SameObject(entries[p], entries[q]);
    }
  }

  lemma SettledElsewhere(
    g: Graph, root: nat, entries: map<string, RemoteEntry>, queue: seq<Pending>, queue': seq<Pending>,
    current: string, name: string, e: RemoteEntry, path: string)
    requires Settled(g, root, entries, queue, path) && path != current && path != JoinPath(current, name)
    requires ValidName(name) && JoinPath(current, name) !in entries
    requires queue' == queue || queue' == queue + [Pending(e.id, JoinPath(current, name))]
    ensures Settled(g, root, entries[JoinPath(current, name) := e], queue', path)
  {
    var t, t' := Tree(entries, root, 0), Tree(entries[JoinPath(current, name) := e], root, 0);
    if FolderAt(t', path) {
      var item := Pending(FolderId(t, path), path);
      assert item in queue' <==> item in queue;
      var folders := if item in queue then [] else g.folders(item.id);
      var files := if item in queue then [] else g.files(item.id);
      ReportsElsewhere(entries, path, folders, files, current, name, e);
    }
  }

  lemma OthersSettled(
    g: Graph, root: nat, s: Scan, queue: seq<Pending>, current: string, name: string, e: RemoteEntry)
    requires Tidy(g, root, s, {current}) && ValidName(name) && JoinPath(current, name) !in s.entries
    requires queue == s.queue || queue == s.queue + [Pending(e.id, JoinPath(current, name))]
    ensures var after := s.entries[JoinPath(current, name) := e];
            forall p {:trigger Settled(g, root, after, queue, p)} ::
              p != current && p != JoinPath(current, name) ==> Settled(g, root, after, queue, p)
  {
    hide Settled;
    var after := s.entries[JoinPath(current, name) := e];
    forall p {:trigger Settled(g, root, after, queue, p)} | p != current && p != JoinPath(current, name)
      ensures Settled(g, root, after, queue, p)
    {
      assert Settled(g, root, s.entries, s.queue, p);
      SettledElsewhere(g, root, s.entries, s.queue, queue, current, name, e, p);
    }
  }

  lemma CleanFolder(s: Scan, parentPath: string, f: FolderInfo)
    requires AddFolder(s, parentPath, f).conflicts == []
    ensures var path := JoinPath(parentPath, f.name);
            && path !in s.entries && f.id !in s.visited && s.conflicts == []
            && AddFolder(s, parentPath, f) == Scan(s.entries[path := FolderEntry(f)], [],
                                                   s.queue + [Pending(f.id, path)], s.visited + {f.id})
  {
  }

  lemma CleanFile(s: Scan, parentPath: string, f: FileInfo)
    requires AddFile(s, parentPath, f).conflicts == []
    ensures var path := JoinPath(parentPath, f.name);
            && path !in s.entries && f.filled == f.size && s.conflicts == []
            && AddFile(s, parentPath, f) == s.(entries := s.entries[path := FileEntry(f)])
  {
  }

  lemma ItemStays(
    root: nat, entries: map<string, RemoteEntry>, queue: seq<Pending>, item: Pending, name: string, e: RemoteEntry)
    requires HangsBelow(entries, root, item.id, item.path) && item !in queue && "" !in entries
    requires ValidName(name) && JoinPath(item.path, name) !in entries
    ensures var path := JoinPath(item.path, name);
            && HangsBelow(entries[path := e], root, item.id, item.path) && "" !in entries[path := e]
            && item !in queue + [Pending(e.id, path)] && (item.path == "" || item.path in entries)
  {
    SplitJoin(item.path, name);
  }

  lemma FolderTidy(
    g: Graph, root: nat, s: Scan, listed: seq<nat>, item: Pending, folders: seq<FolderInfo>, f: FolderInfo)
    requires Explored(g, root, s, listed) && ValidName(f.name) && TidyWithin(g, root, s, item, folders, [])
    ensures TidyWithin(g, root, AddFolder(s, item.path, f), item, folders + [f], [])
  {
    var s', path := AddFolder(s, item.path, f), JoinPath(item.path, f.name);
    if s'.conflicts == [] {
      hide AddFolder, NothingTwice, Settled, Reports, HangsBelow, JoinPath;
      CleanFolder(s, item.path, f);
      ItemStays(root, s.entries, s.queue, item, f.name, FolderEntry(f));
      FolderNotTwice(s, root, path, FolderEntry(f));
      ReportsFolder(s.entries, item.path, folders, f);
      NewFolderSettled(g, root, s, listed, item.path, f);
      OthersSettled(g, root, s, s'.queue, item.path, f.name, FolderEntry(f));
    }
  }

  lemma NewFolderSettled(g: Graph, root: nat, s: Scan, listed: seq<nat>, current: string, f: FolderInfo)
    requires Explored(g, root, s, listed) && ValidName(f.name) && JoinPath(current, f.name) !in s.entries
    requires current == "" || current in s.entries
    ensures var path := JoinPath(current, f.name);
            Settled(g, root, s.entries[path := FolderEntry(f)], s.queue + [Pending(f.id, path)], path)
  {
    var path := JoinPath(current, f.name);
    var item := Pending(f.id, path);
    assert (s.queue + [item])[|s.queue|] == item;
    NothingReportedBelow(s.entries, root, path);
    ReportsElsewhere(s.entries, path, [], [], current, f.name, FolderEntry(f));
  }

  lemma FileTidy(
    g: Graph, root: nat, s: Scan, item: Pending, folders: seq<FolderInfo>, files: seq<FileInfo>, f: FileInfo)
    requires ParentClosed(s.entries, root) && ValidName(f.name) && TidyWithin(g, root, s, item, folders, files)
    ensures TidyWithin(g, root, AddFile(s, item.path, f), item, folders, files + [f])
  {
    var s', path := AddFile(s, item.path, f), JoinPath(item.path, f.name);
    if s'.conflicts == [] {
      hide AddFile, NothingTwice, Settled, Reports, HangsBelow, JoinPath;
      CleanFile(s, item.path, f);
      ItemStays(root, s.entries, s.queue, item, f.name, FileEntry(f));
      FileNotTwice(s.entries, root, path, FileEntry(f));
      ReportsFile(s.entries, item.path, folders, files, f);
      NewFileSettled(g, root, s, item.path, f);
      OthersSettled(g, root, s, s.queue, item.path, f.name, FileEntry(f));
    }
  }

  lemma NewFileSettled(g: Graph, root: nat, s: Scan, current: string, f: FileInfo)
    requires ValidName(f.name)
    ensures var path := JoinPath(current, f.name);
            Settled(g, root, s.entries[path := FileEntry(f)], s.queue, path)
  {
    SplitJoin(current, f.name);
  }

  /** A folder is taken from the queue. */
  lemma TakenTidy(g: Graph, root: nat, s: Scan, listed: seq<nat>)
    requires Explored(g, root, s, listed) && s.queue != [] && (s.conflicts == [] ==> Tidy(g, root, s, {}))
    ensures TidyWithin(g, root, s.(queue := s.queue[1..]), s.queue[0], [], [])
  {
    if s.conflicts == [] {
      var item, rest := s.queue[0], s.queue[1..];
      assert s.queue == [item] + rest;
      assert item !in rest by {
        forall i | 0 <= i < |rest| ensures rest[i].id != item.id {
          assert (listed + Ids(s.queue))[|listed|] == item.id && (listed + Ids(s.queue))[|listed| + 1 + i] == rest[i].id;
        }
      }
      assert HangsBelow(s.entries, root, item.id, item.path);
      assert Settled(g, root, s.entries, s.queue, item.path);
      forall p | p != item.path ensures Settled(g, root, s.entries, rest, p) {
        assert Settled(g, root, s.entries, s.queue, p);
      }
    }
  }

  /** A folder has been listed in full. */
  lemma FinishedTidy(g: Graph, root: nat, s: Scan, item: Pending)
    requires TidyWithin(g, root, s, item, g.folders(item.id), g.files(item.id))
    ensures s.conflicts == [] ==> Tidy(g, root, s, {})
  {
    if s.conflicts == [] {
      forall p ensures Settled(g, root, s.entries, s.queue, p) {
        assert p != item.path ==> Settled(g, root, s.entries, s.queue, p);
      }
    }
  }

  // ---- The scan as written ---------------------------------------------------------------------

  function FolderPaths(parent: string, fs: seq<FolderInfo>): set<string> {
    set f | f in fs :: JoinPath(parent, f.name)
  }

  function FilePaths(parent: string, fs: seq<FileInfo>): set<string> {
    set f | f in fs :: JoinPath(parent, f.name)
  }

  /** What remains to be explored: unseen folders and waiting ones. */
  ghost function Work(g: Graph, s: Scan): nat {
    |g.ids - s.visited| + |s.queue|
  }

  lemma WorkKept(g: Graph, s: Scan, parentPath: string, f: FolderInfo)
    requires f.id in g.ids
    ensures Work(g, AddFolder(s, parentPath, f)) == Work(g, s)
  {
    if f.id !in s.visited {
      assert g.ids - s.visited == (g.ids - (s.visited + {f.id})) + {f.id};
    }
  }

  /** The scan mirrors the tree, as far as it has come. */
  ghost predicate OnTrack(g: Graph, t: Tree, s: Scan, done: set<string>, current: string, seen: set<string>) {
    Lists(g, t) && Mirrors(t, s) && Frontier(t, s, done, current, seen)
  }

  lemma NextFolderPath(parent: string, fs: seq<FolderInfo>, i: nat)
    requires i < |fs| && forall j, k :: 0 <= j < k < |fs| ==> fs[j].name != fs[k].name
    requires forall k :: 0 <= k < |fs| ==> ValidName(fs[k].name)
    ensures JoinPath(parent, fs[i].name) !in FolderPaths(parent, fs[..i])
    ensures FolderPaths(parent, fs[..i + 1]) == FolderPaths(parent, fs[..i]) + {JoinPath(parent, fs[i].name)}
  {
    var path := JoinPath(parent, fs[i].name);
    SplitJoin(parent, fs[i].name);
    if path in FolderPaths(parent, fs[..i]) {
      var f :| f in fs[..i] && JoinPath(parent, f.name) == path;
      var k :| 0 <= k < i && fs[k] == f;
      SplitJoin(parent, fs[k].name);
    }
    assert fs[..i + 1] == fs[..i] + [fs[i]];
  }

  lemma NextFilePath(parent: string, fs: seq<FileInfo>, i: nat)
    requires i < |fs| && forall j, k :: 0 <= j < k < |fs| ==> fs[j].name != fs[k].name
    requires forall k :: 0 <= k < |fs| ==> ValidName(fs[k].name)
    ensures JoinPath(parent, fs[i].name) !in FilePaths(parent, fs[..i])
    ensures FilePaths(parent, fs[..i + 1]) == FilePaths(parent, fs[..i]) + {JoinPath(parent, fs[i].name)}
  {
    var path := JoinPath(parent, fs[i].name);
    SplitJoin(parent, fs[i].name);
    if path in FilePaths(parent, fs[..i]) {
      var f :| f in fs[..i] && JoinPath(parent, f.name) == path;
      var k :| 0 <= k < i && fs[k] == f;
      SplitJoin(parent, fs[k].name);
    }
    assert fs[..i + 1] == fs[..i] + [fs[i]];
  }

  lemma NextFolderOnTrack(g: Graph, t: Tree, s: Scan, done: set<string>, current: string, fs: seq<FolderInfo>, i: nat)
    requires i < |fs| && OnTrack(g, t, s, done, current, FolderPaths(current, fs[..i]))
    requires FolderAt(t, current) && fs == g.folders(FolderId(t, current))
    requires forall k :: 0 <= k < |fs| ==> ValidName(fs[k].name)
    ensures OnTrack(g, t, AddFolder(s, current, fs[i]), done, current, FolderPaths(current, fs[..i + 1]))
  {
    hide Mirrors, Frontier, ValidTree, FolderPaths, AddFolder, JoinPath;
    assert ListsFolders(g, t, current);
    assert fs[i] in fs;
    NextFolderPath(current, fs, i);
    FolderMirrored(t, s, done, current, FolderPaths(current, fs[..i]), fs[i]);
  }

  lemma NoFileIsFolder(g: Graph, t: Tree, current: string, f: FileInfo)
    requires FolderAt(t, current) && ListsFolders(g, t, current) && ListsFiles(g, t, current)
    requires f in g.files(FolderId(t, current))
    ensures JoinPath(current, f.name) !in FolderPaths(current, g.folders(FolderId(t, current)))
  {
    forall d | d in g.folders(FolderId(t, current)) ensures JoinPath(current, d.name) != JoinPath(current, f.name) {
    }
  }

  lemma NextFileOnTrack(g: Graph, t: Tree, s: Scan, done: set<string>, current: string, fs: seq<FileInfo>, i: nat)
    requires i < |fs| && FolderAt(t, current) && fs == g.files(FolderId(t, current))
    requires OnTrack(g, t, s, done, current,
                     FolderPaths(current, g.folders(FolderId(t, current))) + FilePaths(current, fs[..i]))
    requires forall k :: 0 <= k < |fs| ==> ValidName(fs[k].name)
    ensures OnTrack(g, t, AddFile(s, current, fs[i]), done, current,
                    FolderPaths(current, g.folders(FolderId(t, current))) + FilePaths(current, fs[..i + 1]))
  {
    hide Mirrors, Frontier, ValidTree, FolderPaths, FilePaths, AddFile, JoinPath;
    assert ListsFolders(g, t, current) && ListsFiles(g, t, current);
    assert fs[i] in fs;
    var folders := FolderPaths(current, g.folders(FolderId(t, current)));
    NextFilePath(current, fs, i);
    NoFileIsFolder(g, t, current, fs[i]);
    FileMirrored(t, s, done, current, folders + FilePaths(current, fs[..i]), fs[i]);
    assert folders + FilePaths(current, fs[..i + 1])
        == folders + FilePaths(current, fs[..i]) + {JoinPath(current, fs[i].name)};
  }

  /** The loop over the folders listed below one folder. */
  method VisitFolders(g: Graph, root: nat, start: Scan, item: Pending, ghost listed: seq<nat>, ghost t: Tree,
                      ghost done: set<string>)
    returns (s: Scan)
    requires g.Valid(root) && Explored(g, root, start, listed) && HangsBelow(start.entries, root, item.id, item.path)
    requires TidyWithin(g, root, start, item, [], [])
    ensures Explored(g, root, s, listed) && HangsBelow(s.entries, root, item.id, item.path)
    ensures TidyWithin(g, root, s, item, g.folders(item.id), [])
    ensures Work(g, s) == Work(g, start) && start.entries.Keys <= s.entries.Keys
    ensures forall f :: f in g.folders(item.id) ==> JoinPath(item.path, f.name) in s.entries
    ensures FolderAt(t, item.path) && item.id == FolderId(t, item.path) && OnTrack(g, t, start, done, item.path, {}) ==>
              OnTrack(g, t, s, done, item.path, FolderPaths(item.path, g.folders(item.id)))
  {
    hide Explored, OnTrack, Work, FolderAt, TidyWithin;
    var fs := g.folders(item.id);
    s := start;
    assert FolderPaths(item.path, fs[..0]) == {};
    assert forall k :: 0 <= k < |fs| ==> fs[k] in fs;
    for i := 0 to |fs|
      invariant Explored(g, root, s, listed) && HangsBelow(s.entries, root, item.id, item.path)
      invariant Work(g, s) == Work(g, start) && start.entries.Keys <= s.entries.Keys
      invariant TidyWithin(g, root, s, item, fs[..i], [])
      invariant forall k :: 0 <= k < i ==> JoinPath(item.path, fs[k].name) in s.entries
      invariant FolderAt(t, item.path) && item.id == FolderId(t, item.path) && OnTrack(g, t, start, done, item.path, {}) ==>
                  OnTrack(g, t, s, done, item.path, FolderPaths(item.path, fs[..i]))
    {
      assert fs[i] in fs;
      FolderExplored(g, root, s, listed, item.path, fs[i]);
      FolderTidy(g, root, s, listed, item, fs[..i], fs[i]);
      assert fs[..i + 1] == fs[..i] + [fs[i]];
      WorkKept(g, s, item.path, fs[i]);
      if FolderAt(t, item.path) && item.id == FolderId(t, item.path) && OnTrack(g, t, start, done, item.path, {}) {
        NextFolderOnTrack(g, t, s, done, item.path, fs, i);
      }
      s := AddFolder(s, item.path, fs[i]);
    }
    assert fs[..|fs|] == fs;
  }

  /** The loop over the files listed below one folder. */
  method VisitFiles(g: Graph, root: nat, start: Scan, item: Pending, ghost listed: seq<nat>, ghost t: Tree,
                    ghost done: set<string>)
    returns (s: Scan)
    requires g.Valid(root) && Explored(g, root, start, listed) && HangsBelow(start.entries, root, item.id, item.path)
    requires TidyWithin(g, root, start, item, g.folders(item.id), [])
    ensures TidyWithin(g, root, s, item, g.folders(item.id), g.files(item.id))
    ensures Explored(g, root, s, listed) && Work(g, s) == Work(g, start) && start.entries.Keys <= s.entries.Keys
    ensures forall f :: f in g.files(item.id) ==> JoinPath(item.path, f.name) in s.entries
    ensures FolderAt(t, item.path) && item.id == FolderId(t, item.path)
            && OnTrack(g, t, start, done, item.path, FolderPaths(item.path, g.folders(item.id))) ==>
              OnTrack(g, t, s, done, item.path,
                      FolderPaths(item.path, g.folders(item.id)) + FilePaths(item.path, g.files(item.id)))
  {
    hide Explored, OnTrack, Work, FolderAt, TidyWithin;
    var fs := g.files(item.id);
    s := start;
    ghost var folders := FolderPaths(item.path, g.folders(item.id));
    assert folders + FilePaths(item.path, fs[..0]) == folders;
    assert forall k :: 0 <= k < |fs| ==> fs[k] in fs;
    for i := 0 to |fs|
      invariant Explored(g, root, s, listed) && HangsBelow(s.entries, root, item.id, item.path)
      invariant Work(g, s) == Work(g, start) && start.entries.Keys <= s.entries.Keys
      invariant TidyWithin(g, root, s, item, g.folders(item.id), fs[..i])
      invariant forall k :: 0 <= k < i ==> JoinPath(item.path, fs[k].name) in s.entries
      invariant FolderAt(t, item.path) && item.id == FolderId(t, item.path) && OnTrack(g, t, start, done, item.path, folders) ==>
                  OnTrack(g, t, s, done, item.path, folders + FilePaths(item.path, fs[..i]))
    {
      assert fs[i] in fs;
      FileExplored(g, root, s, listed, item.path, fs[i]);
      ExploredIsClosed(g, root, s, listed);
      FileTidy(g, root, s, item, g.folders(item.id), fs[..i], fs[i]);
      assert fs[..i + 1] == fs[..i] + [fs[i]];
      FileWork(g, s, item.path, fs[i]);
      if FolderAt(t, item.path) && item.id == FolderId(t, item.path) && OnTrack(g, t, start, done, item.path, folders) {
        NextFileOnTrack(g, t, s, done, item.path, fs, i);
      }
      s := AddFile(s, item.path, fs[i]);
    }
    assert fs[..|fs|] == fs;
  }

  lemma ExploredIsClosed(g: Graph, root: nat, s: Scan, listed: seq<nat>)
    requires Explored(g, root, s, listed)
    ensures ParentClosed(s.entries, root)
  {
  }

  lemma FileWork(g: Graph, s: Scan, parentPath: string, f: FileInfo)
    ensures Work(g, AddFile(s, parentPath, f)) == Work(g, s)
  {
  }

  // ---- The outer loop --------------------------------------------------------------------------

  /** Between two folders of a bucket whose folders form a tree. */
  ghost predicate TreeMirrored(g: Graph, t: Tree, s: Scan, done: set<string>) {
    && Lists(g, t) && Mirrors(t, s)
    && if done == {} then s.entries == map[] && s.queue == [Pending(t.rootId, "")] else Between(t, s, done)
  }

  lemma StartExplored(g: Graph, root: nat, s: Scan)
    requires g.Valid(root) && s == Scan(map[], [], [Pending(root, "")], {root})
    ensures Explored(g, root, s, [])
  {
    assert Ids(s.queue) == [root];
    assert [] + [root] == [root];
  }

  lemma TakenExplored(g: Graph, root: nat, s: Scan, listed: seq<nat>)
    requires Explored(g, root, s, listed) && s.queue != []
    ensures Explored(g, root, s.(queue := s.queue[1..]), listed + [s.queue[0].id])
    ensures HangsBelow(s.entries, root, s.queue[0].id, s.queue[0].path)
    ensures Work(g, s.(queue := s.queue[1..])) == Work(g, s) - 1
  {
    assert listed + Ids(s.queue) == listed + [s.queue[0].id] + Ids(s.queue[1..]);
  }

  lemma TakenOnTrack(g: Graph, t: Tree, s: Scan, done: set<string>)
    requires TreeMirrored(g, t, s, done) && s.queue != []
    ensures var item := s.queue[0];
            && FolderAt(t, item.path) && item.id == FolderId(t, item.path)
            && OnTrack(g, t, s.(queue := s.queue[1..]), done, item.path, {})
  {
    var item, rest := s.queue[0], s.(queue := s.queue[1..]);
    if done == {} {
      assert item == Pending(t.rootId, "");
    } else {
      assert IsWaiting(t, s, done, item);
      forall i | 0 <= i < |rest.queue| ensures IsWaiting(t, rest, done + {item.path}, rest.queue[i]) {
        assert IsWaiting(t, s, done, s.queue[i + 1]);
      }
      assert PathList(s.queue) == [item.path] + PathList(rest.queue);
    }
  }

  lemma FolderFinished(g: Graph, t: Tree, s: Scan, done: set<string>, current: string)
    requires FolderAt(t, current)
    requires OnTrack(g, t, s, done, current,
                     FolderPaths(current, g.folders(FolderId(t, current))) + FilePaths(current, g.files(FolderId(t, current))))
    requires forall f :: f in g.folders(FolderId(t, current)) ==> JoinPath(current, f.name) in s.entries
    requires forall f :: f in g.files(FolderId(t, current)) ==> JoinPath(current, f.name) in s.entries
    ensures TreeMirrored(g, t, s, done + {current})
  {
    assert ListsFolders(g, t, current) && ListsFiles(g, t, current);
    forall p | p in t.entries && ParentPath(p) in done + {current} ensures p in s.entries {
      if ParentPath(p) == current {
        if t.entries[p].kind == Directory {
          var f :| f in g.folders(FolderId(t, current)) && p == JoinPath(current, f.name);
        } else {
          var f :| f in g.files(FolderId(t, current)) && p == JoinPath(current, f.name);
        }
      }
    }
  }

  /** One round of the outer loop. */
  method VisitFolder(g: Graph, root: nat, start: Scan, ghost listed: seq<nat>, ghost t: Tree, ghost done: set<string>)
    returns (s: Scan)
    requires g.Valid(root) && Explored(g, root, start, listed) && start.queue != []
    requires start.conflicts == [] ==> Tidy(g, root, start, {})
    ensures Explored(g, root, s, listed + [start.queue[0].id]) && Work(g, s) == Work(g, start) - 1
    ensures s.conflicts == [] ==> Tidy(g, root, s, {})
    ensures TreeMirrored(g, t, start, done) ==> TreeMirrored(g, t, s, done + {start.queue[0].path})
  {
    hide Explored, TreeMirrored, Work, OnTrack, Tidy, TidyWithin;
    var item := start.queue[0];
    TakenExplored(g, root, start, listed);
    TakenTidy(g, root, start, listed);
    if TreeMirrored(g, t, start, done) {
      TakenOnTrack(g, t, start, done);
    }
    s := VisitFolders(g, root, start.(queue := start.queue[1..]), item, listed + [item.id], t, done);
    s := VisitFiles(g, root, s, item, listed + [item.id], t, done);
    FinishedTidy(g, root, s, item);
    if TreeMirrored(g, t, start, done) {
      FolderFinished(g, t, s, done, item.path);
    }
  }

  lemma {:induction false} AllReported(g: Graph, t: Tree, s: Scan, done: set<string>, path: string)
    requires TreeMirrored(g, t, s, done) && done != {} && s.queue == [] && path in t.entries
    ensures path in s.entries
    decreases |path|
  {
    assert EntryPlaced(t, path);
    ParentValid(path);
    if ParentPath(path) != "" {
      AllReported(g, t, s, done, ParentPath(path));
      assert PathList(s.queue) == [];
    }
  }

  // ---- The whole scan --------------------------------------------------------------------------

  /** What hangs below the root is this tree. */
  ghost predicate TreeBelow(g: Graph, root: nat, rootStatus: int, t: Tree) {
    Lists(g, t) && t.rootId == root && t.rootStatus == rootStatus
  }

  /** There is at most one such tree. */
  lemma {:induction false} ListedOnce(g: Graph, t: Tree, u: Tree, path: string)
    requires Lists(g, t) && Lists(g, u) && t.rootId == u.rootId && path in t.entries
    ensures path in u.entries && u.entries[path] == t.entries[path]
    decreases |path|
  {
    var parent := ParentPath(path);
    assert EntryPlaced(t, path);
    ParentValid(path);
    if parent != "" {
      ListedOnce(g, t, u, parent);
    }
    assert ListsFolders(g, t, parent) && ListsFolders(g, u, parent);
    assert ListsFiles(g, t, parent) && ListsFiles(g, u, parent);
  }

  lemma TreeIsUnique(g: Graph, root: nat, rootStatus: int, t: Tree, u: Tree)
    requires TreeBelow(g, root, rootStatus, t) && TreeBelow(g, root, rootStatus, u)
    ensures t == u
  {
    forall p | p in t.entries ensures p in u.entries && u.entries[p] == t.entries[p] {
      ListedOnce(g, t, u, p);
    }
    forall p | p in u.entries ensures p in t.entries {
      ListedOnce(g, u, t, p);
    }
  }

  /** What a finished scan without conflicts has reported is the tree below the root. */
  lemma TidyIsTree(g: Graph, root: nat, rootStatus: int, s: Scan, t: Tree)
    requires ParentClosed(s.entries, root) && Tidy(g, root, s, {}) && s.queue == []
    requires t == Tree(s.entries, root, rootStatus)
    ensures Complete(t)
    ensures DistinctIds(t.entries, File) <==> TreeBelow(g, root, rootStatus, t)
  {
    if DistinctIds(t.entries, File) {
      forall p | p in t.entries ensures EntryPlaced(t, p) {
        assert Placed(s.entries, root, p);
      }
      forall p ensures ListsFolders(g, t, p) && ListsFiles(g, t, p) {
        assert Settled(g, root, s.entries, s.queue, p);
        SettledIsListed(g, t, p);
      }
      hide Settled, ListsFolders, ListsFiles;
      TwoKinds(t);
    }
  }

  lemma SettledIsListed(g: Graph, t: Tree, path: string)
    requires Settled(g, t.rootId, t.entries, [], path)
    ensures ListsFolders(g, t, path) && ListsFiles(g, t, path)
  {
    assert FolderAt(Tree(t.entries, t.rootId, 0), path) <==> FolderAt(t, path);
  }

  lemma TwoKinds(t: Tree)
    requires DistinctIds(t.entries, File) && DistinctIds(t.entries, Directory)
    ensures forall p, q {:trigger SameObject(t.entries[p], t.entries[q])} ::
              p in t.entries && q in t.entries && SameObject(t.entries[p], t.entries[q]) ==> p == q
  {
  }

  /** A file id stands for one file. The scan does not check this, but the bucket keeps files by id. */
  ghost predicate FilesKeptById(g: Graph) {
    forall a, b, f, h {:trigger f in g.files(a), h in g.files(b)} ::
      f in g.files(a) && h in g.files(b) && f.id == h.id ==> f == h
  }

  lemma ReportedFile(g: Graph, root: nat, s: Scan, path: string) returns (folder: nat, f: FileInfo)
    requires ParentClosed(s.entries, root) && Tidy(g, root, s, {}) && s.queue == []
    requires path in s.entries && s.entries[path].kind == File
    ensures f in g.files(folder) && s.entries[path] == FileEntry(f) && path == JoinPath(ParentPath(path), f.name)
    ensures HangsBelow(s.entries, root, folder, ParentPath(path))
  {
    assert Placed(s.entries, root, path);
    assert Settled(g, root, s.entries, s.queue, ParentPath(path));
    folder := s.entries[path].parent;
    f :| f in g.files(folder) && path == JoinPath(ParentPath(path), f.name);
  }

  lemma KeptByIdIsDistinct(g: Graph, root: nat, s: Scan)
    requires g.Valid(root) && FilesKeptById(g)
    requires ParentClosed(s.entries, root) && Tidy(g, root, s, {}) && s.queue == []
    ensures DistinctIds(s.entries, File)
  {
    forall p, q
      | p in s.entries && q in s.entries && s.entries[p].kind == File && SameObject(s.entries[p], s.entries[q])
      ensures p == q
    {
      var a, f := ReportedFile(g, root, s, p);
      var b, h := ReportedFile(g, root, s, q);
      assert f == h && a == b;
      if ParentPath(p) != "" && ParentPath(q) != "" {
        assert SameObject(s.entries[ParentPath(p)], s.entries[ParentPath(q)]);
      }
    }
  }

  /** The manifest is the tree below the root if there is one, with conflicts exactly for its incomplete
      files; and a scan without conflicts means that there is one and that its files are complete,
      provided that no two reported files have the same id. */
  ghost predicate Faithful(g: Graph, root: nat, rootStatus: int, m: RemoteManifest) {
    && (forall t {:trigger TreeBelow(g, root, rootStatus, t)} :: TreeBelow(g, root, rootStatus, t) ==> Scanned(m, t))
    && (m.conflicts == [] && DistinctIds(m.entries, File) <==>
          exists t :: TreeBelow(g, root, rootStatus, t) && Complete(t))
    && (FilesKeptById(g) && m.conflicts == [] ==> DistinctIds(m.entries, File))
  }

  lemma FaithfulScan(g: Graph, root: nat, rootStatus: int, s: Scan, t: Tree, m: RemoteManifest)
    requires g.Valid(root) && ParentClosed(s.entries, root) && s.queue == []
    requires s.conflicts == [] ==> Tidy(g, root, s, {})
    requires m == RemoteManifest(s.entries, rootStatus, [], s.conflicts)
    requires (exists u :: TreeBelow(g, root, rootStatus, u)) ==> TreeBelow(g, root, rootStatus, t) && Scanned(m, t)
    ensures Faithful(g, root, rootStatus, m)
  {
    hide Tidy, Scanned, TreeBelow, DistinctIds, Complete, FilesKeptById;
    if s.conflicts == [] && FilesKeptById(g) {
      KeptByIdIsDistinct(g, root, s);
    }
    forall u | TreeBelow(g, root, rootStatus, u) ensures u == t {
      TreeIsUnique(g, root, rootStatus, u, t);
    }
    if s.conflicts == [] {
      TidyIsTree(g, root, rootStatus, s, Tree(s.entries, root, rootStatus));
    }
    if TreeBelow(g, root, rootStatus, t) {
      CompleteMeansClean(g, root, rootStatus, t, m);
    }
  }

  lemma CompleteMeansClean(g: Graph, root: nat, rootStatus: int, t: Tree, m: RemoteManifest)
    requires TreeBelow(g, root, rootStatus, t) && Scanned(m, t)
    ensures (m.conflicts == [] <==> Complete(t)) && DistinctIds(m.entries, File)
  {
    NoConflictsIffComplete(m, t);
  }

  /** `scan_remote_legacy`: on any finite folder graph, cycles included, the scan ends, lists every
      folder that it reports exactly once, and reports entries that hang below reported directories;
      and its result is faithful. */
  method ScanLegacy(g: Graph, root: nat, rootStatus: int) returns (m: RemoteManifest, ghost listed: seq<nat>)
    requires g.Valid(root)
    ensures ParentClosed(m.entries, root) && m.rootStatus == rootStatus
    ensures Distinct(listed) && root in listed
    ensures forall p :: p in m.entries && m.entries[p].kind == Directory ==> m.entries[p].id in listed
    ensures Faithful(g, root, rootStatus, m)
  {
    ghost var t := if u :| TreeBelow(g, root, rootStatus, u) then u else Tree(map[], root, rootStatus);
    hide Tidy, Explored, TreeMirrored, TreeBelow, Faithful, Work, ParentClosed, Graph.Valid, Distinct;
    var s := Scan(map[], [], [Pending(root, "")], {root});
    listed := [];
    StartExplored(g, root, s);
    StartTidy(g, root, s);
    StartMirrored(g, root, rootStatus, s, t);
    ghost var done: set<string> := {};
    while s.queue != []
      invariant Explored(g, root, s, listed) && (s.conflicts == [] ==> Tidy(g, root, s, {}))
      invariant TreeBelow(g, root, rootStatus, t) ==> TreeMirrored(g, t, s, done)
      invariant s.queue == [] ==> done != {}
      decreases Work(g, s)
    {
      var item := s.queue[0];
      s := VisitFolder(g, root, s, listed, t, done);
      listed := listed + [item.id];
      done := done + {item.path};
    }
    AllListed(g, root, s, listed);
    if TreeBelow(g, root, rootStatus, t) {
      MirroredIsScanned(g, root, rootStatus, s, done, t);
    }
    m := RemoteManifest(s.entries, rootStatus, [], s.conflicts);
    FaithfulScan(g, root, rootStatus, s, t, m);
  }

  lemma StartMirrored(g: Graph, root: nat, rootStatus: int, s: Scan, t: Tree)
    requires s == Scan(map[], [], [Pending(root, "")], {root})
    ensures TreeBelow(g, root, rootStatus, t) ==> TreeMirrored(g, t, s, {})
  {
  }

  lemma AllListed(g: Graph, root: nat, s: Scan, listed: seq<nat>)
    requires Explored(g, root, s, listed) && s.queue == []
    ensures ParentClosed(s.entries, root) && Distinct(listed) && root in listed
    ensures forall p :: p in s.entries && s.entries[p].kind == Directory ==> s.entries[p].id in listed
  {
    assert listed + Ids(s.queue) == listed;
  }

  lemma MirroredIsScanned(g: Graph, root: nat, rootStatus: int, s: Scan, done: set<string>, t: Tree)
    requires TreeBelow(g, root, rootStatus, t) && TreeMirrored(g, t, s, done) && s.queue == [] && done != {}
    ensures Scanned(RemoteManifest(s.entries, rootStatus, [], s.conflicts), t)
  {
    forall p | p in t.entries ensures p in s.entries {
      AllReported(g, t, s, done, p);
    }
    assert s.entries == t.entries;
  }

  lemma StartTidy(g: Graph, root: nat, s: Scan)
    requires s == Scan(map[], [], [Pending(root, "")], {root})
    ensures Tidy(g, root, s, {})
  {
    forall p ensures Settled(g, root, s.entries, s.queue, p) {
      assert s.queue[0] == Pending(root, "");
    }
  }
}

/** The recursive local scan with its hash cache (src/sync/local.rs:61-259). */
module LocalScan {
  import opened FileChunks
  import opened FileNames
  import opened LocalTree
  import opened Manifests
  import opened Paths

  datatype Stamp = Stamp(secs: nat, nanos: nat)

  /** `hash` is the cached text decoded; `None` when it is not a digest. */
  datatype CachedHash = CachedHash(size: nat, stamp: Stamp, hash: Option<Digest>)

  type Cache = map<string, CachedHash>

  datatype Limits = Limits(maxFileSize: nat, maxDepth: nat, parentDepth: nat, maxChildren: nat)

  /** A snapshot of the disk, and everything else that a scan without cache depends on. A file without a modification
      time after the epoch has no stamp. */
  datatype Setting = Setting(
    files: Files, stamps: string -> Option<Stamp>, ex: Excludes, sha3: Bytes -> Digest, limits: Limits)
  {
    function SizeOf(path: string): nat
      requires path in files
    {
      if files[path].Regular? then |files[path].content| else 0
    }

    predicate CacheHit(cache: Cache, path: string)
      requires path in files
    {
      && stamps(path).Some? && path in cache && cache[path].size == SizeOf(path)
      && cache[path].stamp == stamps(path).value && cache[path].hash.Some?
    }

    /** The hash the scan reports for a file. */
    function HashOf(cache: Cache, path: string): Digest
      requires path in files && files[path].Regular?
    {
      if CacheHit(cache, path) then cache[path].hash.value else sha3(files[path].content)
    }

    function Entry(cache: Cache, path: string): LocalEntry
      requires path in files
    {
      if files[path].Regular? then LocalEntry(File, SizeOf(path), Some(HashOf(cache, path))) else LocalEntry(Directory, 0, None)
    }

    ghost predicate Listed(path: string) {
      Visited(files, ex, path)
    }

    ghost predicate Protected(path: string) {
      Blocked(files, ex, path)
    }

    ghost predicate ListedFile(path: string) {
      Listed(path) && files[path].Regular?
    }

    /** The scan looks at the path at all. */
    ghost predicate Inspected(path: string) {
      path in files && (ParentPath(path) == "" || Listed(ParentPath(path)))
    }

    ghost predicate Admissible(path: string) {
      Inspected(path) ==>
        && ValidFileName(EntryName(path))
        && (Listed(path) && files[path].Folder? ==> limits.parentDepth + PathDepth(path) <= limits.maxDepth)
        && (ListedFile(path) ==> SizeOf(path) <= limits.maxFileSize)
    }

    ghost function ListedChildren(dir: string): set<string> {
      set p | p in files && ParentPath(p) == dir && Listed(p)
    }

    ghost predicate CountFits(dir: string) {
      limits.parentDepth > 0 || dir != "" ==> |ListedChildren(dir)| <= limits.maxChildren
    }

    /** Nothing below `dir` makes the scan fail. */
    ghost predicate Fits(path: string) {
      Admissible(path) && (Listed(path) && files[path].Folder? ==> CountFits(path))
    }

    ghost predicate WithinLimits() {
      CountFits("") && forall p {:trigger Fits(p)} :: p in files ==> Fits(p)
    }

    ghost function Subtree(path: string): set<string> {
      set q | q in files && AtOrBelow(path, q)
    }

    ghost function Below(dir: string): set<string> {
      set q | q in files && (dir == "" || Under(dir, q))
    }

    ghost function Subtrees(roots: seq<string>): set<string> {
      set q | q in files && InSubtrees(roots, q)
    }

    ghost predicate InSubtrees(roots: seq<string>, path: string) {
      exists r :: r in roots && AtOrBelow(r, path)
    }
  }

  predicate AtOrBelow(root: string, path: string) {
    path == root || Under(root, path)
  }

  datatype ScanError =
    | InvalidName(path: string)
    | TooDeep(path: string)
    | TooLarge(path: string)
    | TooManyChildren(dir: string)

  /** The error names something that the scan has looked at and that breaks the limit. */
  ghost predicate Explains(env: Setting, e: ScanError) {
    match e
    case InvalidName(path) => env.Inspected(path) && !ValidFileName(EntryName(path))
    case TooDeep(path) =>
      env.Listed(path) && env.files[path].Folder? && env.limits.parentDepth + PathDepth(path) > env.limits.maxDepth
    case TooLarge(path) => env.ListedFile(path) && |env.files[path].content| > env.limits.maxFileSize
    case TooManyChildren(dir) => (dir == "" || env.Listed(dir)) && |env.ListedChildren(dir)| > env.limits.maxChildren
  }

  lemma {:induction false} HiddenBelow(env: Setting, path: string, q: string)
    requires ValidFiles(env.files) && q in env.files && Under(path, q) && !env.Listed(path)
    ensures !env.Listed(q) && !env.Inspected(q)
    decreases |q|
  {
    assert HangsBelowFolder(env.files, q);
    ParentValid(q);
    UnderParent(path, q);
    if path != ParentPath(q) {
      HiddenBelow(env, path, ParentPath(q));
    }
  }

  lemma FilesHaveNoChildren(env: Setting, path: string)
    requires ValidFiles(env.files) && path in env.files && !env.files[path].Folder?
    ensures env.Subtree(path) == {path}
  {
    forall q | q in env.files && Under(path, q) ensures false {
      NothingBelowFile(env, path, q);
    }
  }

  lemma {:induction false} NothingBelowFile(env: Setting, path: string, q: string)
    requires ValidFiles(env.files) && q in env.files && Under(path, q)
    ensures path in env.files && env.files[path].Folder?
    decreases |q|
  {
    assert HangsBelowFolder(env.files, q);
    ParentValid(q);
    UnderParent(path, q);
    if path != ParentPath(q) {
      NothingBelowFile(env, path, ParentPath(q));
    }
  }

  /** Everything below a directory is one of its children or below one of them. */
  lemma {:induction false} ReachedFromChild(env: Setting, dir: string, q: string) returns (child: string)
    requires ValidFiles(env.files) && q in env.Below(dir)
    ensures child in env.files && ParentPath(child) == dir && (q == child || Under(child, q))
    decreases |q|
  {
    assert HangsBelowFolder(env.files, q);
    ParentValid(q);
    UnderParent(dir, q);
    child := q;
    if ParentPath(q) != dir {
      child := ReachedFromChild(env, dir, ParentPath(q));
      UnderParent(child, q);
    }
  }

  lemma ChildIsBelow(env: Setting, dir: string, child: string, q: string)
    requires ValidFiles(env.files) && child in env.files && ParentPath(child) == dir
    requires q in env.files && (q == child || Under(child, q))
    ensures q in env.Below(dir)
  {
    assert HangsBelowFolder(env.files, child);
    if dir != "" {
      UnderParent(dir, child);
      if q != child {
        assert q[..|dir|] == child[..|dir|];
      }
    }
  }

  lemma ChildrenCover(env: Setting, dir: string, order: seq<string>)
    requires ValidFiles(env.files)
    requires forall p :: p in order <==> p in env.files && ParentPath(p) == dir
    ensures env.Subtrees(order) == env.Below(dir)
  {
    forall q ensures q in env.Subtrees(order) <==> q in env.Below(dir) {
      if q in env.Below(dir) {
        var child := ReachedFromChild(env, dir, q);
        assert child in order && AtOrBelow(child, q);
      }
      if q in env.Subtrees(order) {
        var r :| r in order && AtOrBelow(r, q);
        ChildIsBelow(env, dir, r, q);
      }
    }
  }

  lemma NextSubtree(env: Setting, order: seq<string>, i: nat)
    requires i < |order|
    ensures env.Subtrees(order[..i + 1]) == env.Subtrees(order[..i]) + env.Subtree(order[i])
  {
    assert order[..i + 1] == order[..i] + [order[i]];
    forall q | q in env.files
      ensures env.InSubtrees(order[..i + 1], q) <==> env.InSubtrees(order[..i], q) || q in env.Subtree(order[i])
    {
      if env.InSubtrees(order[..i + 1], q) {
        var r :| r in order[..i + 1] && AtOrBelow(r, q);
        assert r in order[..i] || r == order[i];
      }
      if env.InSubtrees(order[..i], q) {
        var r :| r in order[..i] && AtOrBelow(r, q);
        assert r in order[..i + 1];
      }
      assert order[i] in order[..i + 1];
    }
  }

  lemma {:induction false} SiblingsApart(dir: string, a: string, b: string, q: string)
    requires ValidPath(a) && ValidPath(b) && ValidPath(q) && ParentPath(a) == dir == ParentPath(b)
    requires (q == a || Under(a, q)) && (q == b || Under(b, q))
    ensures a == b
    decreases |q|
  {
    ParentValid(a);
    ParentValid(b);
    ParentValid(q);
    UnderParent(a, q);
    UnderParent(b, q);
    if q != a && q != b {
      SiblingsApart(dir, a, b, ParentPath(q));
    }
  }

  lemma NextChildIsFresh(env: Setting, dir: string, order: seq<string>, i: nat)
    requires ValidFiles(env.files) && KeyOrder(order) && i < |order|
    requires forall p :: p in order ==> p in env.files && ParentPath(p) == dir
    ensures env.Subtrees(order[..i]) !! env.Subtree(order[i])
    ensures env.Subtree(order[i]) <= env.Below(dir)
  {
    assert order[i] in order && HangsBelowFolder(env.files, order[i]);
    forall q | q in env.Subtree(order[i]) ensures q !in env.Subtrees(order[..i]) && q in env.Below(dir) {
      assert HangsBelowFolder(env.files, q);
      ChildIsBelow(env, dir, order[i], q);
      if r :| r in order[..i] && AtOrBelow(r, q) {
        assert r in order && HangsBelowFolder(env.files, r);
        SiblingsApart(dir, order[i], r, q);
        var k :| 0 <= k < i && order[k] == r;
        PathLessIrreflexive(r);
      }
    }
  }

  ghost function ListedOf(env: Setting, order: seq<string>): set<string> {
    set p | p in order && env.Listed(p)
  }

  lemma NextListed(env: Setting, order: seq<string>, i: nat)
    requires KeyOrder(order) && i < |order|
    ensures |ListedOf(env, order[..i + 1])| == |ListedOf(env, order[..i])| + if env.Listed(order[i]) then 1 else 0
  {
    assert order[..i + 1] == order[..i] + [order[i]];
    if order[i] in order[..i] {
      var k :| 0 <= k < i && order[k] == order[i];
      PathLessIrreflexive(order[i]);
    }
    if env.Listed(order[i]) {
      assert ListedOf(env, order[..i + 1]) == ListedOf(env, order[..i]) + {order[i]};
    } else {
      assert ListedOf(env, order[..i + 1]) == ListedOf(env, order[..i]);
    }
  }

  ghost predicate AllFit(env: Setting, paths: set<string>) {
    forall p {:trigger env.Fits(p)} :: p in paths ==> env.Fits(p)
  }

  lemma NothingYet(env: Setting, cover: set<string>, order: seq<string>)
    ensures cover + env.Subtrees(order[..0]) == cover && AllFit(env, env.Subtrees(order[..0]))
    ensures ListedOf(env, order[..0]) == {}
  {
  }

  lemma NextChild(env: Setting, dir: string, cover: set<string>, order: seq<string>, i: nat)
    requires ValidFiles(env.files) && KeyOrder(order) && i < |order| && cover !! env.Below(dir)
    requires forall p :: p in order ==> p in env.files && ParentPath(p) == dir
    ensures (cover + env.Subtrees(order[..i])) !! env.Subtree(order[i])
    ensures env.Subtree(order[i]) <= env.Below(dir)
    ensures cover + env.Subtrees(order[..i]) + env.Subtree(order[i]) == cover + env.Subtrees(order[..i + 1])
    ensures AllFit(env, env.Subtrees(order[..i])) && AllFit(env, env.Subtree(order[i])) ==>
              AllFit(env, env.Subtrees(order[..i + 1]))
    ensures |ListedOf(env, order[..i + 1])| == |ListedOf(env, order[..i])| + if env.Listed(order[i]) then 1 else 0
  {
    NextChildIsFresh(env, dir, order, i);
    NextSubtree(env, order, i);
    NextListed(env, order, i);
  }

  lemma AllChildren(env: Setting, dir: string, order: seq<string>)
    requires ValidFiles(env.files) && forall p :: p in order <==> p in env.files && ParentPath(p) == dir
    ensures env.Subtrees(order[..|order|]) == env.Below(dir)
    ensures ListedOf(env, order[..|order|]) == env.ListedChildren(dir)
  {
    assert order[..|order|] == order;
    ChildrenCover(env, dir, order);
  }

  // ---- What has been reported about a part of the tree -----------------------------------------

  ghost predicate EntriesFor(env: Setting, cache: Cache, cover: set<string>, entries: map<string, LocalEntry>) {
    && (forall p {:trigger p in entries} {:trigger env.Listed(p)} :: p in entries <==> p in cover && env.Listed(p))
    && (forall p :: p in entries && p in env.files ==> entries[p] == env.Entry(cache, p))
  }

  ghost predicate ProtectedFor(env: Setting, cover: set<string>, protectedPaths: set<string>) {
    forall p {:trigger p in protectedPaths} {:trigger env.Protected(p)} ::
      p in protectedPaths <==> p in cover && env.Protected(p)
  }

  ghost function FilesIn(env: Setting, cover: set<string>): set<string> {
    set p | p in cover && env.ListedFile(p)
  }

  /** The cache has the hash of a file with this size and time stamp. */
  ghost predicate Remembered(env: Setting, cache: Cache, path: string) {
    && env.ListedFile(path) && path in cache && cache[path].hash.Some?
    && cache[path].size == |env.files[path].content| && env.stamps(path) == Some(cache[path].stamp)
  }

  ghost function RememberedIn(env: Setting, cache: Cache, cover: set<string>): set<string> {
    set p | p in cover && Remembered(env, cache, p)
  }

  lemma OneMoreRemembered(env: Setting, cache: Cache, cover: set<string>, path: string)
    requires env.ListedFile(path) && path !in cover
    ensures |RememberedIn(env, cache, cover + {path})|
            == |RememberedIn(env, cache, cover)| + if env.CacheHit(cache, path) then 1 else 0
  {
    if env.CacheHit(cache, path) {
      assert RememberedIn(env, cache, cover + {path}) == RememberedIn(env, cache, cover) + {path};
    } else {
      assert RememberedIn(env, cache, cover + {path}) == RememberedIn(env, cache, cover);
    }
  }

  ghost predicate CacheFor(env: Setting, cache: Cache, cover: set<string>, next: Cache) {
    && (forall p {:trigger p in next} :: p in next <==> p in FilesIn(env, cover) && env.stamps(p).Some?)
    && (forall p :: p in next && p in FilesIn(env, cover) && env.stamps(p).Some? ==>
          next[p] == CachedHash(env.SizeOf(p), env.stamps(p).value, Some(env.HashOf(cache, p))))
  }

  /** A subtree whose root is not listed: only the root itself can be reported, as protected. */
  lemma HiddenSubtree(env: Setting, path: string)
    requires ValidFiles(env.files) && path in env.files && !env.Listed(path)
    ensures path in env.Subtree(path)
    ensures forall q :: q in env.Subtree(path) ==> !env.Listed(q) && (q != path ==> !env.Protected(q))
  {
    forall q | q in env.Subtree(path) && q != path ensures !env.Listed(q) && !env.Protected(q) {
      HiddenBelow(env, path, q);
    }
  }

  lemma HiddenReport(env: Setting, cache: Cache, cover: set<string>, path: string, entries: map<string, LocalEntry>,
                     protectedPaths: set<string>)
    requires ValidFiles(env.files) && env.Protected(path) && !env.Listed(path)
    requires EntriesFor(env, cache, cover, entries) && ProtectedFor(env, cover, protectedPaths)
    ensures EntriesFor(env, cache, cover + env.Subtree(path), entries)
    ensures ProtectedFor(env, cover + env.Subtree(path), protectedPaths + {path})
    ensures FilesIn(env, cover + env.Subtree(path)) == FilesIn(env, cover)
    ensures RememberedIn(env, cache, cover + env.Subtree(path)) == RememberedIn(env, cache, cover)
  {
    HiddenSubtree(env, path);
  }

  lemma ListedReport(env: Setting, cache: Cache, cover: set<string>, path: string, entries: map<string, LocalEntry>,
                     protectedPaths: set<string>)
    requires env.Listed(path) && EntriesFor(env, cache, cover, entries) && ProtectedFor(env, cover, protectedPaths)
    ensures EntriesFor(env, cache, cover + {path}, entries[path := env.Entry(cache, path)])
    ensures ProtectedFor(env, cover + {path}, protectedPaths)
    ensures FilesIn(env, cover + {path}) == FilesIn(env, cover) + if env.ListedFile(path) then {path} else {}
    ensures !env.ListedFile(path) ==> RememberedIn(env, cache, cover + {path}) == RememberedIn(env, cache, cover)
  {
    assert !env.Protected(path);
  }

  lemma CachedReport(env: Setting, cache: Cache, cover: set<string>, path: string, next: Cache)
    requires env.ListedFile(path) && CacheFor(env, cache, cover, next)
    ensures FilesIn(env, cover + {path}) == FilesIn(env, cover) + {path}
    ensures env.stamps(path).Some? ==>
              CacheFor(env, cache, cover + {path},
                       next[path := CachedHash(env.SizeOf(path), env.stamps(path).value, Some(env.HashOf(cache, path)))])
    ensures env.stamps(path).None? ==> CacheFor(env, cache, cover + {path}, next)
  {
    assert FilesIn(env, cover + {path}) == FilesIn(env, cover) + {path};
  }

  // ---- The scan as written ---------------------------------------------------------------------

  /** The manifest and the next cache while they are being filled, with the cache that is read. */
  class Scan {
    const cache: Cache
    var entries: map<string, LocalEntry>
    var protectedPaths: set<string>
    var cacheHits: nat
    var hashedFiles: nat
    var nextCache: Cache

    constructor (cache: Cache)
      ensures this.cache == cache
      ensures entries == map[] && protectedPaths == {} && cacheHits == 0 && hashedFiles == 0 && nextCache == map[]
    {
      this.cache := cache;
      entries, protectedPaths, cacheHits, hashedFiles, nextCache := map[], {}, 0, 0, map[];
    }

    /** Exactly what there is to report about the paths in `cover` has been reported. */
    ghost predicate Reports(env: Setting, cover: set<string>)
      reads this
    {
      && EntriesFor(env, cache, cover, entries) && ProtectedFor(env, cover, protectedPaths)
      && cacheHits + hashedFiles == |FilesIn(env, cover)| && cacheHits == |RememberedIn(env, cache, cover)|
      && CacheFor(env, cache, cover, nextCache)
    }

    /** An excluded, linked or special entry: nothing below it is inspected. */
    method Protect(env: Setting, path: string, ghost cover: set<string>)
      requires ValidFiles(env.files) && Reports(env, cover) && env.Protected(path) && !env.Listed(path)
      modifies this
      ensures Reports(env, cover + env.Subtree(path))
    {
      HiddenReport(env, cache, cover, path, entries, protectedPaths);
      protectedPaths := protectedPaths + {path};
    }

    method AddDirectory(env: Setting, path: string, ghost cover: set<string>)
      requires Reports(env, cover) && env.Listed(path) && env.files[path].Folder?
      modifies this
      ensures Reports(env, cover + {path})
    {
      ListedReport(env, cache, cover, path, entries, protectedPaths);
      entries := entries[path := LocalEntry(Directory, 0, None)];
    }

    /** The cached hash if size and time stamp are those of the cache, else a fresh one. */
    method TakeHash(env: Setting, path: string) returns (hash: Digest)
      requires path in env.files && env.files[path].Regular?
      modifies this`cacheHits, this`hashedFiles
      ensures hash == env.HashOf(cache, path)
      ensures cacheHits + hashedFiles == old(cacheHits + hashedFiles) + 1
      ensures cacheHits == old(cacheHits) + if env.CacheHit(cache, path) then 1 else 0
    {
      if env.CacheHit(cache, path) {
        cacheHits := cacheHits + 1;
        hash := cache[path].hash.value;
      } else {
        hashedFiles := hashedFiles + 1;
        hash := env.sha3(env.files[path].content);
      }
    }

    method AddFile(env: Setting, path: string, ghost cover: set<string>)
      requires ValidFiles(env.files) && Reports(env, cover) && env.ListedFile(path) && path !in cover
      modifies this
      ensures Reports(env, cover + env.Subtree(path))
    {
      hide EntriesFor, ProtectedFor, CacheFor, RememberedIn;
      FilesHaveNoChildren(env, path);
      OneMoreRemembered(env, cache, cover, path);
      ListedReport(env, cache, cover, path, entries, protectedPaths);
      CachedReport(env, cache, cover, path, nextCache);
      assert |FilesIn(env, cover + {path})| == |FilesIn(env, cover)| + 1;
      var hash := TakeHash(env, path);
      if env.stamps(path).Some? {
        nextCache := nextCache[path := CachedHash(env.SizeOf(path), env.stamps(path).value, Some(hash))];
      }
      entries := entries[path := LocalEntry(File, env.SizeOf(path), Some(hash))];
    }

    /** A directory below `dir`, with everything in it. */
    method ScanSubdirectory(env: Setting, path: string, ghost cover: set<string>, ghost bound: nat)
      returns (r: Result<bool, ScanError>)
      requires ValidFiles(env.files) && Reports(env, cover) && env.Listed(path) && env.files[path].Folder?
      requires ValidFileName(EntryName(path)) && path != ""
      requires cover !! env.Subtree(path) && forall p :: p in env.files ==> |p| <= bound
      modifies this
      ensures r.Ok? <==> AllFit(env, env.Subtree(path))
      ensures r.Err? ==> Explains(env, r.error)
      ensures r.Ok? ==> Reports(env, cover + env.Subtree(path)) && r.value
      decreases bound - |path|, 2
    {
      hide EntriesFor, ProtectedFor, CacheFor, RememberedIn;
      FolderFits(env, path);
      if env.limits.parentDepth + PathDepth(path) > env.limits.maxDepth {
        return Err(TooDeep(path));
      }
      AddDirectory(env, path, cover);
      assert cover + {path} + env.Below(path) == cover + env.Subtree(path);
      var below := ScanDirectory(env, path, cover + {path}, bound);
      match below {
        case Err(e) => return Err(e);
        case Ok(_) => return Ok(true);
      }
    }

    /** One entry of a directory. */
    method ScanChild(env: Setting, dir: string, child: string, ghost cover: set<string>, ghost bound: nat)
      returns (r: Result<bool, ScanError>)
      requires ValidFiles(env.files) && Reports(env, cover) && child in env.files && ParentPath(child) == dir
      requires dir == "" || env.Listed(dir)
      requires cover !! env.Subtree(child) && forall p :: p in env.files ==> |p| <= bound
      modifies this
      ensures r.Ok? <==> AllFit(env, env.Subtree(child))
      ensures r.Err? ==> Explains(env, r.error)
      ensures r.Ok? ==> Reports(env, cover + env.Subtree(child)) && r.value == env.Listed(child)
      decreases bound - |dir|, 0
    {
      hide EntriesFor, ProtectedFor, CacheFor, RememberedIn;
      assert HangsBelowFolder(env.files, child);
      ParentValid(child);
      assert child in env.Subtree(child);
      if !ValidFileName(EntryName(child)) {
        assert !env.Fits(child);
        return Err(InvalidName(child));
      }
      if Matches(env.ex, child) || env.files[child].Special? {
        HiddenSubtree(env, child);
        HiddenFits(env, child);
        Protect(env, child, cover);
        return Ok(false);
      }
      if env.files[child].Folder? {
        r := ScanSubdirectory(env, child, cover, bound);
      } else {
        FilesHaveNoChildren(env, child);
        if env.SizeOf(child) > env.limits.maxFileSize {
          assert !env.Fits(child);
          return Err(TooLarge(child));
        }
        AddFile(env, child, cover);
        return Ok(true);
      }
    }

    /** `scan_directory`. */
    method ScanDirectory(env: Setting, dir: string, ghost cover: set<string>, ghost bound: nat)
      returns (r: Result<(), ScanError>)
      requires ValidFiles(env.files) && Reports(env, cover)
      requires dir == "" || (env.Listed(dir) && env.files[dir].Folder?)
      requires cover !! env.Below(dir) && forall p :: p in env.files ==> |p| <= bound
      modifies this
      ensures r.Ok? <==> AllFit(env, env.Below(dir)) && env.CountFits(dir)
      ensures r.Err? ==> Explains(env, r.error)
      ensures r.Ok? ==> Reports(env, cover + env.Below(dir))
      decreases bound - |dir|, 1
    {
      hide EntriesFor, ProtectedFor, CacheFor, RememberedIn, AllFit, ListedOf, KeyOrder;
      var order := SortedKeys(set p | p in env.files && ParentPath(p) == dir);
      var included := 0;
      NothingYet(env, cover, order);
      for i := 0 to |order|
        invariant Reports(env, cover + env.Subtrees(order[..i])) && AllFit(env, env.Subtrees(order[..i]))
        invariant included == |ListedOf(env, order[..i])|
      {
        assert order[i] in order;
        NextChild(env, dir, cover, order, i);
        FitsInPart(env, env.Subtree(order[i]), env.Below(dir));
        var child := ScanChild(env, dir, order[i], cover + env.Subtrees(order[..i]), bound);
        match child {
          case Err(e) => return Err(e);
          case Ok(listed) => if listed { included := included + 1; }
        }
      }
      AllChildren(env, dir, order);
      if (env.limits.parentDepth > 0 || dir != "") && included > env.limits.maxChildren {
        return Err(TooManyChildren(dir));
      }
      return Ok(());
    }
  }

  /** A directory fits if it may be there, has few enough children, and everything below it fits. */
  lemma FolderFits(env: Setting, path: string)
    requires ValidFiles(env.files) && env.Listed(path) && env.files[path].Folder? && path != ""
    requires ValidFileName(EntryName(path))
    ensures env.Subtree(path) == {path} + env.Below(path) && path !in env.Below(path)
    ensures AllFit(env, env.Subtree(path))
            <==> env.limits.parentDepth + PathDepth(path) <= env.limits.maxDepth
                 && AllFit(env, env.Below(path)) && env.CountFits(path)
  {
    var root := env.Subtree(path);
    assert root == {path} + env.Below(path);
    assert env.Fits(path) <==> env.limits.parentDepth + PathDepth(path) <= env.limits.maxDepth && env.CountFits(path);
    assert AllFit(env, root) <==> env.Fits(path) && AllFit(env, env.Below(path)) by {
      assert path in root;
      assert forall p :: p in env.Below(path) ==> p in root;
    }
  }

  lemma FitsInPart(env: Setting, part: set<string>, whole: set<string>)
    ensures part <= whole && AllFit(env, whole) ==> AllFit(env, part)
  {
  }

  lemma HiddenFits(env: Setting, path: string)
    requires ValidFiles(env.files) && path in env.files && !env.Listed(path)
    requires ValidFileName(EntryName(path))
    ensures AllFit(env, env.Subtree(path))
  {
    forall q | q in env.Subtree(path) ensures env.Fits(q) {
      if q != path {
        HiddenBelow(env, path, q);
      }
    }
  }

  // ---- A whole scan ----------------------------------------------------------------------------

  ghost function LongestPath(paths: set<string>): (bound: nat)
    ensures forall p :: p in paths ==> |p| <= bound
  {
    if paths == {} then 0
    else
      var p :| p in paths;
      var rest := LongestPath(paths - {p});
      if |p| > rest then |p| else rest
  }

  lemma NothingReported(env: Setting, cache: Cache)
    ensures EntriesFor(env, cache, {}, map[]) && ProtectedFor(env, {}, {}) && CacheFor(env, cache, {}, map[])
    ensures FilesIn(env, {}) == {} && RememberedIn(env, cache, {}) == {}
  {
  }

  lemma FilesReported(env: Setting, cache: Cache, entries: map<string, LocalEntry>)
    requires EntriesFor(env, cache, env.files.Keys, entries)
    ensures FilesIn(env, env.files.Keys) == set p | p in entries && entries[p].kind == File
  {
  }

  /** `scan_local_with_cache`: it succeeds exactly when no limit is exceeded, and accounts for every
      file as either a cache hit or freshly hashed. */
  method ScanLocal(env: Setting, cache: Cache) returns (r: Result<Scan, ScanError>)
    requires ValidFiles(env.files)
    ensures r.Ok? <==> env.WithinLimits()
    ensures r.Err? ==> Explains(env, r.error)
    ensures r.Ok? ==> r.value.cacheHits == |RememberedIn(env, cache, env.files.Keys)|
    ensures r.Ok? ==> fresh(r.value) && r.value.cache == cache && r.value.Reports(env, env.files.Keys)
    ensures r.Ok? ==> r.value.cacheHits + r.value.hashedFiles == |set p | p in r.value.entries && r.value.entries[p].kind == File|
  {
    hide Setting.Fits, Setting.CountFits, Setting.Entry, EntriesFor, ProtectedFor, CacheFor, Visited;
    var scan := new Scan(cache);
    NothingReported(env, cache);
    var done := scan.ScanDirectory(env, "", {}, LongestPath(env.files.Keys));
    assert env.Below("") == env.files.Keys && {} + env.files.Keys == env.files.Keys;
    match done {
      case Err(e) => r := Err(e);
      case Ok(_) =>
        FilesReported(env, cache, scan.entries);
        r := Ok(scan);
    }
  }

  /** Equal size and time stamp of a file mean equal content: `versions` says which. */
  type Versions = (string, nat, Stamp) -> Bytes

  ghost predicate Faithful(env: Setting, versions: Versions) {
    forall p {:trigger env.stamps(p)} :: p in env.files && env.files[p].Regular? && env.stamps(p).Some? ==>
      env.files[p].content == versions(p, |env.files[p].content|, env.stamps(p).value)
  }

  ghost predicate SoundCache(cache: Cache, sha3: Bytes -> Digest, versions: Versions) {
    forall p :: p in cache && cache[p].hash.Some? ==>
      cache[p].hash.value == sha3(versions(p, cache[p].size, cache[p].stamp))
  }

  function ManifestOf(entries: map<string, LocalEntry>, protectedPaths: set<string>): LocalManifest {
    LocalManifest(entries, protectedPaths, [])
  }

  /** With a sound cache the report is the one that hashing every file would give, and what is saved
      for the next scan is sound again. */
  lemma CachedScanIsExact(
    env: Setting, cache: Cache, versions: Versions, entries: map<string, LocalEntry>, protectedPaths: set<string>, next: Cache)
    requires ValidFiles(env.files) && Faithful(env, versions) && SoundCache(cache, env.sha3, versions)
    requires EntriesFor(env, cache, env.files.Keys, entries) && ProtectedFor(env, env.files.Keys, protectedPaths)
    requires CacheFor(env, cache, env.files.Keys, next)
    ensures ScanOf(ManifestOf(entries, protectedPaths), env.files, env.ex, env.sha3)
    ensures SoundCache(next, env.sha3, versions)
  {
    forall p | p in env.files && env.files[p].Regular? ensures env.HashOf(cache, p) == env.sha3(env.files[p].content) {
    }
    var m := ManifestOf(entries, protectedPaths);
    forall p ensures p in m.entries <==> Visited(env.files, env.ex, p) {
      assert p in m.entries <==> p in env.files.Keys && env.Listed(p);
    }
    forall p ensures p in m.protectedPaths <==> Blocked(env.files, env.ex, p) {
      assert p in m.protectedPaths <==> p in env.files.Keys && env.Protected(p);
    }
  }

  /** A scan that reads what the scan before it has saved, with nothing changed in between, hashes only the
      files without a time stamp. */
  lemma NothingHashedTwice(env: Setting, cache: Cache, next: Cache)
    requires ValidFiles(env.files) && CacheFor(env, cache, env.files.Keys, next)
    ensures RememberedIn(env, next, env.files.Keys) == set p | p in FilesIn(env, env.files.Keys) && env.stamps(p).Some?
  {
    forall p ensures p in RememberedIn(env, next, env.files.Keys) <==>
                       p in FilesIn(env, env.files.Keys) && env.stamps(p).Some?
    {
      assert p in next <==> p in FilesIn(env, env.files.Keys) && env.stamps(p).Some?;
    }
  }

  /** The scan lists exactly the entries that are neither excluded nor special, nor below one that is. */
  lemma {:induction false} ListedIff(env: Setting, path: string)
    requires ValidFiles(env.files)
    ensures env.Listed(path) <==>
              && path in env.files
              && forall q :: q in env.files && AtOrBelow(q, path) ==>
                   !env.ex(q) && !env.ex(q + "/") && !env.files[q].Special?
    decreases |path|
  {
    if path in env.files {
      assert HangsBelowFolder(env.files, path);
      ParentValid(path);
      if ParentPath(path) != "" {
        ListedIff(env, ParentPath(path));
      }
      forall q ensures AtOrBelow(q, path) <==> q == path || (ParentPath(path) != "" && AtOrBelow(q, ParentPath(path))) {
        UnderParent(q, path);
      }
    }
  }

  /** A completed scan only lists names that the bucket accepts. */
  lemma ListedNamesAreValid(env: Setting, path: string)
    requires ValidFiles(env.files) && env.WithinLimits() && env.Listed(path)
    ensures ValidFileName(EntryName(path))
  {
    assert env.Fits(path);
    assert HangsBelowFolder(env.files, path);
  }

  /** What push planning relies on holds for every completed scan. */
  lemma ScanIsParentClosed(m: LocalManifest, files: Files, ex: Excludes, sha3: Bytes -> Digest)
    requires ValidFiles(files) && ScanOf(m, files, ex, sha3)
    ensures ScannedLocal(m)
  {
    forall p | p in m.entries ensures ValidPath(p) && HasLocalParent(m, p) {
      ListedParent(m, files, ex, sha3, p);
    }
    forall p | p in m.entries && m.entries[p].kind == File ensures m.entries[p].hash.Some? {
      ListedParent(m, files, ex, sha3, p);
    }
    forall p | p in m.protectedPaths ensures ValidPath(p) && HasLocalParent(m, p) && p !in m.entries {
      ListedParent(m, files, ex, sha3, p);
    }
  }

  lemma ListedParent(m: LocalManifest, files: Files, ex: Excludes, sha3: Bytes -> Digest, path: string)
    requires ValidFiles(files) && ScanOf(m, files, ex, sha3) && (path in m.entries || path in m.protectedPaths)
    ensures path in files && ValidPath(path) && HasLocalParent(m, path)
    ensures path in m.protectedPaths ==> path !in m.entries
  {
    assert path in m.entries <==> Visited(files, ex, path);
    assert path in m.protectedPaths <==> Blocked(files, ex, path);
    assert HangsBelowFolder(files, path);
    var parent := ParentPath(path);
    assert parent != "" ==> (parent in m.entries <==> Visited(files, ex, parent));
  }

  /** Two scans of the same tree report the same, whatever their caches. */
  lemma ScansAgree(a: LocalManifest, b: LocalManifest, files: Files, ex: Excludes, sha3: Bytes -> Digest)
    requires ScanOf(a, files, ex, sha3) && ScanOf(b, files, ex, sha3)
    ensures a.entries == b.entries && a.protectedPaths == b.protectedPaths
  {
    forall p ensures p in a.entries <==> p in b.entries {
      assert p in a.entries <==> Visited(files, ex, p);
      assert p in b.entries <==> Visited(files, ex, p);
    }
    forall p | p in a.entries && p in b.entries ensures a.entries[p] == b.entries[p] {
      assert Visited(files, ex, p);
    }
    forall p ensures p in a.protectedPaths <==> p in b.protectedPaths {
      assert p in a.protectedPaths <==> Blocked(files, ex, p);
      assert p in b.protectedPaths <==> Blocked(files, ex, p);
    }
  }

  /** Any sequence of scans with edits in between, each scan reading the cache that the last
      successful one saved: every one reports what an uncached scan would. */
  method ScanAgainAndAgain(snapshots: seq<Setting>, ghost versions: Versions)
    returns (manifests: seq<Option<LocalManifest>>)
    requires forall i :: 0 <= i < |snapshots| ==> ValidFiles(snapshots[i].files) && Faithful(snapshots[i], versions)
    requires forall i, j :: 0 <= i < j < |snapshots| ==> snapshots[i].sha3 == snapshots[j].sha3
    ensures |manifests| == |snapshots|
    ensures forall i :: 0 <= i < |snapshots| ==> (manifests[i].Some? <==> snapshots[i].WithinLimits())
    ensures forall i :: 0 <= i < |snapshots| && manifests[i].Some? ==>
              ScanOf(manifests[i].value, snapshots[i].files, snapshots[i].ex, snapshots[i].sha3)
  {
    hide ScanOf, Setting.WithinLimits, ValidFiles, Faithful;
    manifests := [];
    var cache: Cache := map[];
    for i := 0 to |snapshots|
      invariant |manifests| == i
      invariant forall k :: 0 <= k < i ==> (manifests[k].Some? <==> snapshots[k].WithinLimits())
      invariant forall k :: 0 <= k < i && manifests[k].Some? ==>
                  ScanOf(manifests[k].value, snapshots[k].files, snapshots[k].ex, snapshots[k].sha3)
      invariant i < |snapshots| ==> SoundCache(cache, snapshots[i].sha3, versions)
    {
      var m;
      m, cache := ScanOnce(snapshots[i], cache, versions);
      manifests := manifests + [m];
    }
  }

  method ScanOnce(snapshot: Setting, cache: Cache, ghost versions: Versions)
    returns (m: Option<LocalManifest>, next: Cache)
    requires ValidFiles(snapshot.files) && Faithful(snapshot, versions) && SoundCache(cache, snapshot.sha3, versions)
    ensures m.Some? <==> snapshot.WithinLimits()
    ensures m.Some? ==> ScanOf(m.value, snapshot.files, snapshot.ex, snapshot.sha3)
    ensures SoundCache(next, snapshot.sha3, versions)
  {
    var scanned := ScanLocal(snapshot, cache);
    match scanned {
      case Err(_) => m, next := None, cache;
      case Ok(scan) =>
        CachedScanIsExact(snapshot, cache, versions, scan.entries, scan.protectedPaths, scan.nextCache);
        m, next := Some(ManifestOf(scan.entries, scan.protectedPaths)), scan.nextCache;
    }
  }
}

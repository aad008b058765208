/** The local tree and what a scan of it reports (src/sync/local.rs:101-259). */
module LocalTree {
  import opened FileChunks
  import opened Manifests
  import opened Paths

  datatype Node = Folder | Regular(content: Bytes) | Special

  /** Everything below the local root. */
  type Files = map<string, Node>

  ghost predicate HangsBelowFolder(files: Files, path: string) {
    ValidPath(path) && (ParentPath(path) == "" || (ParentPath(path) in files && files[ParentPath(path)].Folder?))
  }

  ghost predicate ValidFiles(files: Files) {
    forall p {:trigger HangsBelowFolder(files, p)} :: p in files ==> HangsBelowFolder(files, p)
  }

  /** A compiled set of exclude patterns: which paths it matches. */
  type Excludes = string -> bool

  /** How the local scan tests one entry (src/sync/local.rs:317-319). */
  predicate Matches(ex: Excludes, path: string) {
    ex(path) || ex(path + "/")
  }

  /** The scan lists the path: neither it nor anything above it is excluded or special. */
  ghost predicate Visited(files: Files, ex: Excludes, path: string)
    decreases |path|
  {
    && path in files && !Matches(ex, path) && !files[path].Special?
    && (ParentPath(path) == "" || (|ParentPath(path)| < |path| && Visited(files, ex, ParentPath(path))))
  }

  ghost predicate Blocked(files: Files, ex: Excludes, path: string) {
    && path in files && (Matches(ex, path) || files[path].Special?)
    && (ParentPath(path) == "" || Visited(files, ex, ParentPath(path)))
  }

  function EntryOf(node: Node, sha3: Bytes -> Digest): LocalEntry {
    match node
    case Regular(content) => LocalEntry(File, |content|, Some(sha3(content)))
    case _ => LocalEntry(Directory, 0, None)
  }

  /** What a completed scan reports (src/sync/local.rs:101-259). */
  ghost predicate ScanOf(m: LocalManifest, files: Files, ex: Excludes, sha3: Bytes -> Digest) {
    && (forall p {:trigger Visited(files, ex, p)} :: p in m.entries <==> Visited(files, ex, p))
    && (forall p :: p in m.entries && p in files ==> m.entries[p] == EntryOf(files[p], sha3))
    && (forall p {:trigger Blocked(files, ex, p)} :: p in m.protectedPaths <==> Blocked(files, ex, p))
  }
}

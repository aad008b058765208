/** Local and remote manifests: path-keyed snapshots of the two trees (src/sync/types.rs). */
module Manifests {
  import opened FileChunks
  import opened Paths

  datatype Option<+T> = None | Some(value: T)
  datatype Result<+T, +E> = Ok(value: T) | Err(error: E)

  type Digest = d: seq<Byte> | |d| == 32 witness seq(32, _ => 0)

  datatype EntryKind = File | Directory

  /** The path of an entry is its key in the manifest. */
  datatype LocalEntry = LocalEntry(kind: EntryKind, size: nat, hash: Option<Digest>)

  datatype LocalManifest = LocalManifest(
    entries: map<string, LocalEntry>,
    protectedPaths: set<string>,
    warnings: seq<string>)
  {
    predicate Protects(path: string) {
      exists p :: p in protectedPaths && (path == p || Under(p, path))
    }
  }

  /** status: -1 archived, 0 readable and writable, 1 read-only. */
  datatype RemoteEntry = RemoteEntry(
    id: nat, parent: nat, kind: EntryKind, size: nat, filled: nat, hash: Option<Digest>, status: int)

  datatype RemoteManifest = RemoteManifest(
    entries: map<string, RemoteEntry>,
    rootStatus: int,
    warnings: seq<string>,
    conflicts: seq<(string, string)>)

  /** What a completed local scan guarantees (src/sync/local.rs:101-259): every entry and every
      protected path hangs below the root or a scanned directory, protected paths are skipped,
      and every file is hashed. */
  ghost predicate ScannedLocal(m: LocalManifest) {
    && (forall p {:trigger HasLocalParent(m, p)} :: p in m.entries ==> ValidPath(p) && HasLocalParent(m, p))
    && (forall p {:trigger HasLocalParent(m, p)} :: p in m.protectedPaths ==>
          ValidPath(p) && HasLocalParent(m, p) && p !in m.entries)
    && (forall p :: p in m.entries && m.entries[p].kind == File ==> m.entries[p].hash.Some?)
  }

  predicate HasLocalParent(m: LocalManifest, path: string) {
    var parent := ParentPath(path);
    parent == "" || (parent in m.entries && m.entries[parent].kind == Directory)
  }

  /** The scan prunes below protected paths, so nothing it lists is protected. */
  lemma {:induction false} ListedIsUnprotected(m: LocalManifest, path: string)
    requires ScannedLocal(m) && path in m.entries
    ensures !m.Protects(path)
    decreases |path|
  {
    assert HasLocalParent(m, path);
    forall p | p in m.protectedPaths ensures !(path == p || Under(p, path)) {
      assert HasLocalParent(m, p);
      UnderParent(p, path);
      if ParentPath(path) != "" {
        ParentValid(path);
        ListedIsUnprotected(m, ParentPath(path));
      }
    }
  }

  /** A protected path below an unprotected directory is not one of its direct children unless it is
      protected itself; its parent is always scanned. */
  lemma {:induction false} UnscannedParentProtects(m: LocalManifest, path: string)
    requires ScannedLocal(m) && ValidPath(path) && m.Protects(path)
    requires ParentPath(path) != "" && ParentPath(path) !in m.entries
    ensures m.Protects(ParentPath(path))
  {
    var p :| p in m.protectedPaths && (path == p || Under(p, path));
    assert HasLocalParent(m, p);
    UnderParent(p, path);
  }
}

/** What a push does to excluded remote paths (src/sync/local.rs:124-145, src/sync/planner.rs:147-170).
    Its planner knows the exclude patterns only through what the local scan has protected. */
module PushExcludes {
  import opened FileChunks
  import opened LocalTree
  import opened Manifests
  import opened Paths
  import opened Planner
  import Pull = PullPlanner
  import Sync = PullSync

  predicate Deletes(a: PlanAction) {
    a.DeleteFile? || a.DeleteDirectory?
  }

  predicate Hidden(files: Files, ex: Excludes, path: string)
    requires path in files
  {
    Matches(ex, path) || files[path].Special?
  }

  /** At the path or above it, something excluded or special stands locally. */
  predicate Shielded(files: Files, ex: Excludes, path: string) {
    exists q :: q in files && (q == path || Under(q, path)) && Hidden(files, ex, q)
  }

  /** What the scan does not list is protected, together with everything below it. */
  lemma {:induction false} UnlistedIsBlocked(files: Files, ex: Excludes, path: string) returns (top: string)
    requires ValidFiles(files) && path in files && !Visited(files, ex, path)
    ensures Blocked(files, ex, top) && (top == path || Under(top, path))
    decreases |path|
  {
    assert HangsBelowFolder(files, path);
    ParentValid(path);
    var parent := ParentPath(path);
    top := path;
    if parent != "" && !Visited(files, ex, parent) {
      top := UnlistedIsBlocked(files, ex, parent);
      UnderParent(top, path);
    }
  }

  lemma ShieldProtects(files: Files, ex: Excludes, sha3: Bytes -> Digest, m: LocalManifest, path: string)
    requires ValidFiles(files) && ScanOf(m, files, ex, sha3)
    ensures m.Protects(path) <==> Shielded(files, ex, path)
  {
    if m.Protects(path) {
      var p :| p in m.protectedPaths && (path == p || Under(p, path));
      assert Blocked(files, ex, p);
      assert Hidden(files, ex, p);
    }
    if Shielded(files, ex, path) {
      var q :| q in files && (q == path || Under(q, path)) && Hidden(files, ex, q);
      var top := UnlistedIsBlocked(files, ex, q);
      assert top in m.protectedPaths;
      if top != q && q != path {
        Sync.UnderTransitive(top, q, path);
      }
    }
  }

  /** An excluded remote path is deleted by a push exactly when `delete` is set, the entry is writable
      and nothing excluded or special stands locally at it or above it; in particular when there is
      nothing local. A pull never touches an excluded path (`PullPlanner.DestructiveOnlyOnRequest`). */
  lemma ExcludedIsDeletedIff(
    files: Files, ex: Excludes, sha3: Bytes -> Digest, m: LocalManifest, remote: RemoteManifest, o: PlanOptions,
    actions: seq<PlanAction>, path: string)
    requires ValidFiles(files) && ScanOf(m, files, ex, sha3) && IsPlan(actions, m, remote, o)
    requires path in remote.entries && Pull.IsExcluded(ex, path)
    ensures (exists a :: a in actions && a.path == path && Deletes(a)) <==>
            o.delete && remote.entries[path].status == 0 && !Shielded(files, ex, path)
  {
    assert path !in m.entries by {
      if Visited(files, ex, path) { Sync.VisitedNotExcluded(files, ex, path); }
    }
    ShieldProtects(files, ex, sha3, m, path);
    var decision := RemoteAction(m, remote, o, path);
    if a :| a in actions && a.path == path && Deletes(a) {
      PlannedOrReported(actions, m, remote, o, a);
    }
    if decision.Some? && Deletes(decision.value) {
      PlannedOrReported(actions, m, remote, o, decision.value);
      assert decision.value in actions;
    }
  }
}

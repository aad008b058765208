/** Planning a pull again after the client has died at any point, with the temporary file of an unfinished
    download still there (src/sync/pull.rs:201-299, 502-563). */
module PullResume {
  import opened FileChunks
  import opened LocalTree
  import opened Manifests
  import opened Paths
  import opened PullPlanner
  import opened Download
  import opened PullSync
  import opened PullExecutor

  /** A reached tree with the temporary file of a download to `destination` in addition. */
  ghost predicate Leftover(job: PullJob, files: Files, done: set<string>, temporary: string, destination: string) {
    && temporary in files && files[temporary].Regular? && ValidPath(temporary)
    && temporary !in job.start && temporary !in job.remote.entries
    && Reached(job, files - {temporary}, done)
    && job.Wanted(destination) && ParentPath(temporary) == ParentPath(destination)
    && FoldersAbove(files - {temporary}, destination)
  }

  // ---- What the scan makes of the temporary file -----------------------------------------------

  /** The manifest of a scan, whether or not one has been made. */
  ghost function Scan(files: Files, ex: Excludes, sha3: Bytes -> Digest): LocalManifest {
    LocalManifest(map p | p in files && Visited(files, ex, p) :: EntryOf(files[p], sha3),
                  set p | p in files && Blocked(files, ex, p), [])
  }

  lemma ScanIsScan(files: Files, ex: Excludes, sha3: Bytes -> Digest)
    ensures ScanOf(Scan(files, ex, sha3), files, ex, sha3)
  {
  }

  lemma {:induction false} VisitedElsewhere(files: Files, ex: Excludes, temporary: string, path: string)
    requires ValidFiles(files - {temporary}) && path != temporary
    ensures Visited(files, ex, path) <==> Visited(files - {temporary}, ex, path)
    decreases |path|
  {
    if path in files {
      assert HangsBelowFolder(files - {temporary}, path);
      ParentValid(path);
      if ParentPath(path) != "" {
        VisitedElsewhere(files, ex, temporary, ParentPath(path));
      }
    }
  }

  lemma BlockedElsewhere(files: Files, ex: Excludes, temporary: string, path: string)
    requires ValidFiles(files - {temporary}) && path != temporary
    ensures Blocked(files, ex, path) <==> Blocked(files - {temporary}, ex, path)
  {
    if path in files {
      assert HangsBelowFolder(files - {temporary}, path);
      if ParentPath(path) != "" {
        VisitedElsewhere(files, ex, temporary, ParentPath(path));
      }
    }
  }

  /** Nothing hangs below a path that is not there. */
  lemma {:induction false} NothingBelow(files: Files, absent: string, path: string)
    requires ValidFiles(files) && path in files && absent !in files
    ensures !Under(absent, path)
    decreases |path|
  {
    assert HangsBelowFolder(files, path);
    UnderParent(absent, path);
    if ParentPath(path) != "" {
      ParentValid(path);
      NothingBelow(files, absent, ParentPath(path));
    }
  }

  /** Everything above a wanted path is wanted. */
  lemma {:induction false} AboveIsWanted(job: PullJob, path: string, above: string)
    requires job.Valid() && job.Wanted(path) && Under(above, path)
    ensures job.Wanted(above)
    decreases |path|
  {
    assert RemotePlaced(job.remote, path);
    UnderParent(above, path);
    ExcludedBelow(job.ex, path);
    if above != ParentPath(path) {
      ParentValid(path);
      AboveIsWanted(job, ParentPath(path), above);
    }
  }

  lemma {:induction false} VisitedAbove(files: Files, ex: Excludes, path: string, above: string)
    requires ValidFiles(files) && Visited(files, ex, path) && Under(above, path)
    ensures Visited(files, ex, above)
    decreases |path|
  {
    assert HangsBelowFolder(files, path);
    UnderParent(above, path);
    if above != ParentPath(path) {
      VisitedAbove(files, ex, ParentPath(path), above);
    }
  }

  /** The directory of the temporary file is scanned. */
  lemma DirectoryVisited(job: PullJob, files: Files, done: set<string>, temporary: string, destination: string)
    requires job.Valid() && job.NoConflicts() && Leftover(job, files, done, temporary, destination)
    requires ParentPath(temporary) != ""
    ensures Visited(files - {temporary}, job.ex, ParentPath(temporary)) && Visited(files, job.ex, ParentPath(temporary))
    ensures !IsExcluded(job.ex, ParentPath(temporary))
  {
    var parent, files' := ParentPath(temporary), files - {temporary};
    assert RemotePlaced(job.remote, destination);
    ExcludedBelow(job.ex, destination);
    assert parent in files' && files'[parent].Folder?;
    assert PathReached(job, files', done, parent);
    ReachedVisited(job, files', done, parent);
    if parent in job.start {
      assert !job.InTheWay(parent);
      WantedIsListed(job, parent);
    }
    ParentValid(temporary);
    VisitedElsewhere(files, job.ex, temporary, parent);
  }

  /** Nothing that is protected lies above or below the temporary file. */
  lemma OnlyItselfProtects(
    job: PullJob, files: Files, done: set<string>, temporary: string, destination: string, p: string)
    requires job.Valid() && job.NoConflicts() && Leftover(job, files, done, temporary, destination)
    requires Blocked(files, job.ex, p) && p != temporary
    ensures !Under(temporary, p) && !Under(p, temporary)
  {
    var files' := files - {temporary};
    BlockedElsewhere(files, job.ex, temporary, p);
    NothingBelow(files', temporary, p);
    UnderParent(p, temporary);
    if ParentPath(temporary) != "" {
      DirectoryVisited(job, files, done, temporary, destination);
      if Under(p, ParentPath(temporary)) {
        VisitedAbove(files', job.ex, ParentPath(temporary), p);
      }
    }
  }

  // ---- Replanning ------------------------------------------------------------------------------

  /** The temporary file is deleted if the options allow it, like any file that is not wanted. */
  lemma TemporaryDecision(
    job: PullJob, files: Files, done: set<string>, temporary: string, destination: string, m: LocalManifest)
    requires job.Valid() && job.NoConflicts() && Leftover(job, files, done, temporary, destination)
    requires ScanOf(m, files, job.ex, job.sha3)
    ensures Decision(m, job.remote, job.o, job.ex, temporary)
            == if job.o.delete && !IsExcluded(job.ex, temporary) then Some(DeleteFile(temporary)) else None
  {
    if ParentPath(temporary) != "" {
      DirectoryVisited(job, files, done, temporary, destination);
    }
    assert Visited(files, job.ex, temporary) <==> !Matches(job.ex, temporary);
    assert Blocked(files, job.ex, temporary) <==> Matches(job.ex, temporary);
    if !Matches(job.ex, temporary) {
      forall p | p in m.protectedPaths ensures p != temporary && !Under(temporary, p) && !Under(p, temporary) {
        OnlyItselfProtects(job, files, done, temporary, destination, p);
      }
    }
  }

  /** All other decisions are what they would be without it. */
  lemma OtherDecisions(
    job: PullJob, files: Files, done: set<string>, temporary: string, destination: string, m: LocalManifest,
    path: string)
    requires job.Valid() && job.NoConflicts() && Leftover(job, files, done, temporary, destination)
    requires ScanOf(m, files, job.ex, job.sha3) && path != temporary
    ensures Decision(m, job.remote, job.o, job.ex, path)
            == Decision(Scan(files - {temporary}, job.ex, job.sha3), job.remote, job.o, job.ex, path)
  {
    var files' := files - {temporary};
    var m' := Scan(files', job.ex, job.sha3);
    ScanIsScan(files', job.ex, job.sha3);
    VisitedElsewhere(files, job.ex, temporary, path);
    assert path in m.entries <==> path in m'.entries;
    if path in m.entries && path !in job.remote.entries {
      SameProtection(job, files, done, temporary, destination, m, m', path);
    }
  }

  lemma SameProtection(
    job: PullJob, files: Files, done: set<string>, temporary: string, destination: string, m: LocalManifest,
    m': LocalManifest, path: string)
    requires job.Valid() && job.NoConflicts() && Leftover(job, files, done, temporary, destination)
    requires ScanOf(m, files, job.ex, job.sha3) && ScanOf(m', files - {temporary}, job.ex, job.sha3)
    requires path in files - {temporary} && path !in job.remote.entries
    ensures PathProtected(m, path) <==> PathProtected(m', path)
  {
    forall p | p != temporary ensures p in m.protectedPaths <==> p in m'.protectedPaths {
      BlockedElsewhere(files, job.ex, temporary, p);
    }
    NothingBelow(files - {temporary}, temporary, path);
    assert RemotePlaced(job.remote, destination);
    UnderParent(path, temporary);
    UnderParent(path, destination);
    if Under(path, temporary) {
      AboveIsWanted(job, destination, path);
    }
    assert temporary !in m'.protectedPaths by { assert !Blocked(files - {temporary}, job.ex, temporary); }
  }

  lemma ReplanPathWithTemporary(
    job: PullJob, files: Files, done: set<string>, temporary: string, destination: string, m: LocalManifest,
    path: string)
    requires job.Valid() && job.NoConflicts() && job.Hashed() && Leftover(job, files, done, temporary, destination)
    requires ScanOf(m, files, job.ex, job.sha3)
    ensures Decision(m, job.remote, job.o, job.ex, path)
            == if path == temporary then
                 (if job.o.delete && !IsExcluded(job.ex, temporary) then Some(DeleteFile(temporary)) else None)
               else if path in done then None else job.Plan(path)
  {
    assert Reached(job, files - {temporary}, done);
    hide Decision, Leftover, PullJob.Valid, PullJob.NoConflicts, PullJob.Hashed, ScanOf, IsExcluded;
    if path == temporary {
      TemporaryDecision(job, files, done, temporary, destination, m);
    } else {
      OtherDecisions(job, files, done, temporary, destination, m, path);
      ScanIsScan(files - {temporary}, job.ex, job.sha3);
      ReplanPath(job, files - {temporary}, done, Scan(files - {temporary}, job.ex, job.sha3), path);
    }
  }

  /** Resuming with the temporary file: the remaining actions, and its deletion if `delete` is set and its
      name is not excluded. */
  lemma ReplanWithTemporary(
    job: PullJob, actions: seq<PullAction>, files: Files, done: set<string>, temporary: string, destination: string,
    m: LocalManifest, again: seq<PullAction>)
    requires PlanOf(job, actions) && job.Hashed() && Leftover(job, files, done, temporary, destination)
    requires ScanOf(m, files, job.ex, job.sha3) && IsPullPlan(again, m, job.remote, job.o, job.ex)
    ensures ConflictFree(again)
    ensures forall a :: a in again <==>
              || (a in actions && a.path !in done)
              || (a == DeleteFile(temporary) && job.o.delete && !IsExcluded(job.ex, temporary))
  {
    NoConflictsInPlan(job, actions);
    assert Leftover(job, files, done, temporary, destination) && job.Valid() && job.NoConflicts();
    assert job.Plan(temporary) == None by {
      assert !Visited(job.start, job.ex, temporary);
    }
    hide Decision, Leftover, PullJob.Valid, PullJob.NoConflicts, PullJob.Hashed, ScanOf, IsExcluded, IsPullPlan;
    forall a | a in again ensures !a.Conflict? {
      assert ReportedConflicts(job.remote.conflicts, job.ex) == [] by { NoneReported(job, actions); }
      PlannedIsDecided(m, job.remote, job.o, job.ex, again, a);
      ReplanPathWithTemporary(job, files, done, temporary, destination, m, a.path);
    }
    PlanElements(again, m, job.remote, job.o, job.ex);
    forall a
      ensures a in again <==>
                || (a in actions && a.path !in done)
                || (a == DeleteFile(temporary) && job.o.delete && !IsExcluded(job.ex, temporary))
    {
      ReplanPathWithTemporary(job, files, done, temporary, destination, m, a.path);
    }
  }

  lemma NoneReported(job: PullJob, actions: seq<PullAction>)
    requires PlanOf(job, actions)
    ensures ReportedConflicts(job.remote.conflicts, job.ex) == []
  {
    PlanElements(actions, job.local, job.remote, job.o, job.ex);
  }

  // ---- After a crash ---------------------------------------------------------------------------

  /** The plan made after a crash: the actions from the k-th on, and the deletion of `temporary` if it is
      there and may be deleted. */
  ghost predicate Resumes(
    job: PullJob, actions: seq<PullAction>, k: nat, files: Files, temporary: string, again: seq<PullAction>)
  {
    k <= |actions| && forall a {:trigger a in again} :: a in again <==>
      || a in actions[k..]
      || (a == DeleteFile(temporary) && temporary in files && job.o.delete && !IsExcluded(job.ex, temporary))
  }

  lemma RestOfPlan(job: PullJob, actions: seq<PullAction>, k: nat, a: PullAction)
    requires PlanOf(job, actions) && k <= |actions|
    ensures a in actions && a.path !in PathsOf(actions[..k]) <==> a in actions[k..]
  {
    if a in actions[k..] {
      var i :| k <= i < |actions| && actions[i] == a;
      forall b | b in actions[..k] ensures b.path != a.path {
        var j :| 0 <= j < k && actions[j] == b;
        PlanPathsDistinct(actions, job.local, job.remote, job.o, job.ex, j, i);
      }
    }
    if a in actions && a !in actions[k..] {
      assert a in actions[..k] by { assert actions == actions[..k] + actions[k..]; }
    }
  }

  lemma TemporaryIsLeftover(
    job: PullJob, env: Setting, actions: seq<PullAction>, files: Files, k: nat)
    requires PlanOf(job, actions) && FreshNames(job, env) && WithinAction(job, env, actions, files, k)
    ensures Leftover(job, files, PathsOf(actions[..k]), env.Temporary(k, actions[k].path), actions[k].path)
  {
    var destination := actions[k].path;
    var temporary := env.Temporary(k, destination);
    NoConflictsInPlan(job, actions);
    OrderIsReady(job, actions, k);
    TemporaryIsNew(job, env, k, destination);
    DownloadParent(job, files - {temporary}, PathsOf(actions[..k]), actions[k]);
    PlannedPathValid(job, destination);
    ParentValid(destination);
    JoinValid(ParentPath(destination), env.names(k));
  }

  /** Wherever a pull dies, planning again is conflict-free and gives exactly the actions from the
      interrupted one on; a temporary file that was left is deleted if `delete` is set and its name is
      not excluded, and otherwise stays. */
  lemma ReplanAfterCrash(
    job: PullJob, env: Setting, actions: seq<PullAction>, files: Files, m: LocalManifest,
    again: seq<PullAction>)
    returns (k: nat, temporary: string)
    requires PlanOf(job, actions) && job.Hashed() && FreshNames(job, env)
    requires CrashState(job, env, actions, files)
    requires ScanOf(m, files, job.ex, job.sha3) && IsPullPlan(again, m, job.remote, job.o, job.ex)
    ensures ConflictFree(again) && Resumes(job, actions, k, files, temporary, again)
    ensures temporary in files ==> WithinAction(job, env, actions, files, k)
    ensures temporary !in files ==> AtAction(job, env, actions, files, k)
  {
    if n: nat :| WithinAction(job, env, actions, files, n) {
      k, temporary := n, env.Temporary(n, actions[n].path);
      TemporaryIsLeftover(job, env, actions, files, k);
      ReplanWithTemporary(job, actions, files, PathsOf(actions[..k]), temporary, actions[k].path, m, again);
    } else {
      k :| AtAction(job, env, actions, files, k);
      temporary := "";
      ReplanIsRemaining(job, actions, files, PathsOf(actions[..k]), m, again);
      assert "" !in files by { assert ValidFiles(files); assert !HangsBelowFolder(files, ""); }
    }
    forall a ensures a in actions && a.path !in PathsOf(actions[..k]) <==> a in actions[k..] {
      RestOfPlan(job, actions, k, a);
    }
  }
}

/** Executing a conflict-free pull plan on the local disk (src/sync/pull.rs:374-500, 733-767): no step
    gets stuck, and planning again after any part of the run yields exactly the rest of the plan. */
module PullSync {
  import opened FileChunks
  import opened ActionOrder
  import opened LocalTree
  import opened Manifests
  import opened Paths
  import opened PullPlanner
  import opened Download

  ghost predicate RemotePlaced(remote: RemoteManifest, path: string) {
    && ValidPath(path)
    && (ParentPath(path) == "" ||
        (ParentPath(path) in remote.entries && remote.entries[ParentPath(path)].kind == Directory))
  }

  // ---- How far a run has come ------------------------------------------------------------------

  datatype PullJob = PullJob(
    local: LocalManifest, start: Files, remote: RemoteManifest, o: PullOptions, ex: Excludes, sha3: Bytes -> Digest)
  {
    ghost predicate Valid() {
      && ValidFiles(start)
      && ScanOf(local, start, ex, sha3)
      && forall p {:trigger RemotePlaced(remote, p)} :: p in remote.entries ==> RemotePlaced(remote, p)
    }

    /** A symbolic link or special file stands where something is to be downloaded. */
    ghost predicate InTheWay(path: string) {
      Wanted(path) && path in start && start[path].Special?
    }

    /** A check of the remote entries against the protected paths. */
    ghost predicate NothingInTheWay() {
      forall p {:trigger InTheWay(p)} :: !InTheWay(p)
    }

    predicate Wanted(path: string) {
      path in remote.entries && !IsExcluded(ex, path)
    }

    ghost predicate Hashed() {
      forall p {:trigger Wanted(p)} :: Wanted(p) && remote.entries[p].kind == File ==> remote.entries[p].hash.Some?
    }

    function Plan(path: string): Option<PullAction> {
      Decision(local, remote, o, ex, path)
    }

    ghost predicate NoConflicts() {
      && ReportedConflicts(remote.conflicts, ex) == []
      && forall p {:trigger Plan(p)} :: Plan(p).Some? ==> !Plan(p).value.Conflict?
    }
  }

  /** What the disk holds at `path` once its action has been executed. */
  ghost predicate Executed(job: PullJob, files: Files, path: string, a: PullAction) {
    match a
    case Conflict(_, _) => true
    case CreateDirectory(_) => path in files && files[path] == Folder
    case DownloadFile(_, _, _) => Downloaded(job, files, path)
    case ReplaceFile(_, _, _) => Downloaded(job, files, path)
    case DeleteFile(_) => path !in files
    case DeleteDirectory(_) => path !in files
  }

  ghost predicate Downloaded(job: PullJob, files: Files, path: string) {
    && path in files && files[path].Regular? && path in job.remote.entries
    && |files[path].content| == job.remote.entries[path].size
    && (job.remote.entries[path].hash.Some? ==> job.remote.entries[path].hash == Some(job.sha3(files[path].content)))
  }

  ghost predicate PathReached(job: PullJob, files: Files, done: set<string>, path: string) {
    if path in done && job.Plan(path).Some? then Executed(job, files, path, job.Plan(path).value)
    else (path in files <==> path in job.start) && (path in files ==> files[path] == job.start[path])
  }

  /** `files` is a local tree in which the decisions for exactly the paths in `done` have been
      executed; links and special files are never replaced. */
  ghost predicate Reached(job: PullJob, files: Files, done: set<string>) {
    && ValidFiles(files)
    && (forall p {:trigger job.InTheWay(p)} :: p in done ==> !job.InTheWay(p))
    && forall p {:trigger PathReached(job, files, done, p)} :: PathReached(job, files, done, p)
  }

  lemma StartReached(job: PullJob)
    requires job.Valid()
    ensures Reached(job, job.start, {})
  {
  }

  // ---- The scan of a reached tree --------------------------------------------------------------

  lemma {:induction false} VisitedNotExcluded(files: Files, ex: Excludes, path: string)
    requires ValidFiles(files) && Visited(files, ex, path)
    ensures !IsExcluded(ex, path)
    decreases |path|
  {
    assert HangsBelowFolder(files, path);
    if ParentPath(path) != "" {
      VisitedNotExcluded(files, ex, ParentPath(path));
    }
  }

  lemma ExcludedBelow(ex: Excludes, path: string)
    requires ValidPath(path) && !IsExcluded(ex, path) && ParentPath(path) != ""
    ensures !IsExcluded(ex, ParentPath(path)) && !Matches(ex, path)
  {
  }

  /** Wanted paths that exist locally are listed, unless they are links or special files: everything
      above them is a real directory. */
  lemma {:induction false} WantedIsListed(job: PullJob, path: string)
    requires job.Valid() && job.Wanted(path) && path in job.start && !job.InTheWay(path)
    ensures Visited(job.start, job.ex, path)
    decreases |path|
  {
    assert RemotePlaced(job.remote, path);
    assert HangsBelowFolder(job.start, path);
    ParentValid(path);
    if ParentPath(path) != "" {
      ExcludedBelow(job.ex, path);
      WantedIsListed(job, ParentPath(path));
    }
  }

  lemma ListedKind(job: PullJob, path: string)
    requires job.Valid() && Visited(job.start, job.ex, path)
    ensures path in job.local.entries && job.local.entries[path] == EntryOf(job.start[path], job.sha3)
    ensures job.start[path].Folder? <==> job.local.entries[path].kind == Directory
    ensures job.start[path].Regular? <==> job.local.entries[path].kind == File
  {
  }

  /** Only listed paths and wanted paths have an action. */
  lemma ActionIsOnListedOrNew(job: PullJob, path: string)
    requires job.Valid() && job.Plan(path).Some? && !job.InTheWay(path)
    ensures path in job.start ==> Visited(job.start, job.ex, path)
    ensures path !in job.start ==> job.Wanted(path)
  {
    if path in job.remote.entries && path in job.start {
      WantedIsListed(job, path);
    } else if path in job.local.entries {
      assert Visited(job.start, job.ex, path);
    }
  }

  /** The decision for a wanted path in a plan without conflicts. */
  lemma WantedDecision(job: PullJob, path: string)
    requires job.Valid() && job.NoConflicts() && job.Wanted(path)
    ensures path !in job.start || job.InTheWay(path) ==>
              job.Plan(path) == Some(if job.remote.entries[path].kind == Directory then CreateDirectory(path)
                                     else DownloadFile(path, job.remote.entries[path].id, job.remote.entries[path].size))
    ensures path in job.start && !job.InTheWay(path) && job.remote.entries[path].kind == Directory ==>
              job.start[path] == Folder && job.Plan(path) == None
    ensures path in job.start && !job.InTheWay(path) && job.remote.entries[path].kind == File ==>
              && job.start[path].Regular?
              && (job.Plan(path) == None ==> job.remote.entries[path].hash == Some(job.sha3(job.start[path].content)))
              && (job.Plan(path).Some? ==> job.Plan(path).value.ReplaceFile?)
  {
    assert path in job.local.entries <==> Visited(job.start, job.ex, path);
    if path in job.start && !job.InTheWay(path) {
      WantedIsListed(job, path);
      ListedKind(job, path);
    }
    var d := job.Plan(path);
    assert d.Some? ==> !d.value.Conflict?;
    assert d == RemoteDecision(job.local, job.remote, job.o, job.ex, path);
  }

  /** What was hidden from the scan stays as it is and stays hidden; what is new is not hidden. */
  lemma {:induction false} ReachedVisited(job: PullJob, files: Files, done: set<string>, path: string)
    requires job.Valid() && job.NoConflicts() && Reached(job, files, done) && path in files
    ensures Visited(files, job.ex, path) <==> (path in job.start ==> Visited(job.start, job.ex, path))
    ensures path !in job.start ==> job.Wanted(path)
    decreases |path|
  {
    assert PathReached(job, files, done, path);
    assert HangsBelowFolder(files, path);
    ParentValid(path);
    if job.Plan(path).Some? && path in done {
      ActionIsOnListedOrNew(job, path);
    }
    var parent := ParentPath(path);
    if parent != "" {
      ReachedVisited(job, files, done, parent);
      assert PathReached(job, files, done, parent);
    }
    if path !in job.start {
      assert RemotePlaced(job.remote, path);
      if parent != "" {
        ExcludedBelow(job.ex, path);
        if parent in job.start && !job.InTheWay(parent) { WantedIsListed(job, parent); }
      }
    } else {
      assert HangsBelowFolder(job.start, path);
    }
  }

  /** Protected paths are never touched, so the next scan finds exactly the same ones. */
  lemma ReachedBlocked(job: PullJob, files: Files, done: set<string>, path: string)
    requires job.Valid() && job.NoConflicts() && Reached(job, files, done)
    ensures Blocked(files, job.ex, path) <==> Blocked(job.start, job.ex, path)
  {
    assert PathReached(job, files, done, path);
    if job.Plan(path).Some? && path in done {
      ActionIsOnListedOrNew(job, path);
    }
    if path in files {
      assert HangsBelowFolder(files, path);
      ReachedVisited(job, files, done, path);
      if ParentPath(path) != "" { ReachedVisited(job, files, done, ParentPath(path)); }
    }
    if path in job.start {
      assert HangsBelowFolder(job.start, path);
      if Blocked(job.start, job.ex, path) && ParentPath(path) != "" {
        FolderAboveStays(job, files, done, path);
      }
    }
  }

  /** A directory above a protected path is not deleted. */
  lemma {:induction false} FolderAboveStays(job: PullJob, files: Files, done: set<string>, path: string)
    requires job.Valid() && job.NoConflicts() && Reached(job, files, done)
    requires Blocked(job.start, job.ex, path) && ParentPath(path) != ""
    ensures ParentPath(path) in files
  {
    var parent := ParentPath(path);
    assert HangsBelowFolder(job.start, path);
    assert PathReached(job, files, done, parent);
    UnderParent(parent, path);
    assert path in job.local.protectedPaths;
    assert PathProtected(job.local, parent);
  }

  /** The scan of a reached tree. */
  lemma RescanReached(job: PullJob, files: Files, done: set<string>, m: LocalManifest)
    requires job.Valid() && job.NoConflicts() && Reached(job, files, done)
    requires ScanOf(m, files, job.ex, job.sha3)
    ensures m.protectedPaths == job.local.protectedPaths
    ensures forall p :: p in m.entries <==> p in files && (p in job.local.entries || p !in job.start)
  {
    forall p ensures p in m.protectedPaths <==> p in job.local.protectedPaths {
      ReachedBlocked(job, files, done, p);
    }
    forall p ensures p in m.entries <==> p in files && (p in job.local.entries || p !in job.start) {
      assert p in m.entries <==> Visited(files, job.ex, p);
      assert p in job.local.entries <==> Visited(job.start, job.ex, p);
      if p in files { ReachedVisited(job, files, done, p); }
    }
  }

  // ---- Replanning ------------------------------------------------------------------------------

  lemma ReplanExecuted(job: PullJob, files: Files, done: set<string>, m: LocalManifest, path: string)
    requires job.Valid() && job.NoConflicts() && Reached(job, files, done)
    requires ScanOf(m, files, job.ex, job.sha3) && path in done && job.Plan(path).Some?
    ensures Decision(m, job.remote, job.o, job.ex, path) == None
            || (job.Wanted(path) && job.remote.entries[path].kind == File && job.remote.entries[path].hash == None)
  {
    RescanReached(job, files, done, m);
    assert PathReached(job, files, done, path);
    ActionIsOnListedOrNew(job, path);
    assert !job.Plan(path).value.Conflict?;
  }

  lemma ReplanPending(job: PullJob, files: Files, done: set<string>, m: LocalManifest, path: string)
    requires job.Valid() && job.NoConflicts() && Reached(job, files, done)
    requires ScanOf(m, files, job.ex, job.sha3) && (path in done ==> job.Plan(path) == None)
    ensures Decision(m, job.remote, job.o, job.ex, path) == job.Plan(path)
  {
    RescanReached(job, files, done, m);
    assert PathReached(job, files, done, path);
    assert path in job.local.entries <==> Visited(job.start, job.ex, path);
    assert path in m.entries <==> path in job.local.entries;
    assert PathProtected(m, path) <==> PathProtected(job.local, path);
  }

  /** One path: its decision is gone once it has been executed and unchanged before. */
  lemma ReplanPath(job: PullJob, files: Files, done: set<string>, m: LocalManifest, path: string)
    requires job.Valid() && job.NoConflicts() && job.Hashed() && Reached(job, files, done)
    requires ScanOf(m, files, job.ex, job.sha3)
    ensures Decision(m, job.remote, job.o, job.ex, path) == if path in done then None else job.Plan(path)
  {
    if path in done && job.Plan(path).Some? {
      ReplanExecuted(job, files, done, m, path);
    } else {
      ReplanPending(job, files, done, m, path);
    }
  }

  /** A wanted remote file without a hash is never recognised as up to date. */
  lemma UnhashedNeverSettles(job: PullJob, files: Files, done: set<string>, m: LocalManifest, path: string)
    requires job.Valid() && ScanOf(m, files, job.ex, job.sha3)
    requires job.Wanted(path) && job.remote.entries[path].kind == File && job.remote.entries[path].hash == None
    ensures Decision(m, job.remote, job.o, job.ex, path).Some?
  {
  }

  /** A plan of a job and of what it was made from. */
  ghost predicate PlanOf(job: PullJob, actions: seq<PullAction>) {
    && job.Valid()
    && IsPullPlan(actions, job.local, job.remote, job.o, job.ex) && ConflictFree(actions)
  }

  lemma NoConflictsInPlan(job: PullJob, actions: seq<PullAction>)
    requires PlanOf(job, actions)
    ensures job.NoConflicts()
    ensures forall a :: a in actions <==> job.Plan(a.path) == Some(a)
  {
    PlanElements(actions, job.local, job.remote, job.o, job.ex);
    forall p | job.Plan(p).Some? ensures !job.Plan(p).value.Conflict? {
      DecisionKeepsPath(job.local, job.remote, job.o, job.ex, p);
      assert job.Plan(p).value in actions;
    }
  }

  /** Resuming an interrupted run: whatever part of the plan has been executed, planning again from
      a rescan is conflict-free and yields exactly the remaining actions. */
  lemma ReplanIsRemaining(
    job: PullJob, actions: seq<PullAction>, files: Files, done: set<string>, m: LocalManifest, again: seq<PullAction>)
    requires PlanOf(job, actions) && job.Hashed() && Reached(job, files, done)
    requires ScanOf(m, files, job.ex, job.sha3) && IsPullPlan(again, m, job.remote, job.o, job.ex)
    ensures ConflictFree(again)
    ensures forall a :: a in again <==> a in actions && a.path !in done
  {
    NoConflictsInPlan(job, actions);
    forall a | a in again ensures !a.Conflict? {
      PlannedIsDecided(m, job.remote, job.o, job.ex, again, a);
      ReplanPath(job, files, done, m, a.path);
    }
    PlanElements(again, m, job.remote, job.o, job.ex);
    forall a ensures a in again <==> a in actions && a.path !in done {
      ReplanPath(job, files, done, m, a.path);
    }
  }

  lemma PlannedIsDecided(
    local: LocalManifest, remote: RemoteManifest, o: PullOptions, ex: Excludes, actions: seq<PullAction>, a: PullAction)
    requires IsPullPlan(actions, local, remote, o, ex) && ReportedConflicts(remote.conflicts, ex) == [] && a in actions
    ensures Decision(local, remote, o, ex, a.path) == Some(a)
  {
    var decided := Decided(local, remote, o, ex, AllPaths(local, remote));
    assert a in multiset(actions);
    assert a in decided;
    var p :| p in AllPaths(local, remote) && Decision(local, remote, o, ex, p) == Some(a);
    DecisionKeepsPath(local, remote, o, ex, p);
  }

  lemma DecisionIsPlanned(
    local: LocalManifest, remote: RemoteManifest, o: PullOptions, ex: Excludes, actions: seq<PullAction>, path: string)
    requires IsPullPlan(actions, local, remote, o, ex) && Decision(local, remote, o, ex, path).Some?
    ensures Decision(local, remote, o, ex, path).value in actions
  {
    var a := Decision(local, remote, o, ex, path).value;
    var decided := Decided(local, remote, o, ex, AllPaths(local, remote));
    assert path in AllPaths(local, remote);
    assert a in decided;
    assert a in multiset(decided);
    assert a in multiset(actions);
  }

  ghost predicate AllDone(job: PullJob, done: set<string>) {
    forall p {:trigger job.Plan(p)} :: job.Plan(p).Some? ==> p in done
  }

  lemma SomeElement(actions: seq<PullAction>)
    ensures actions == [] || exists a :: a in actions
  {
    if actions != [] {
      assert actions[0] in actions;
    }
  }

  /** Once every action has been executed, planning again finds nothing to do, exactly when every
      wanted remote file has a hash. */
  lemma SettledIffHashed(
    job: PullJob, actions: seq<PullAction>, files: Files, done: set<string>, m: LocalManifest, again: seq<PullAction>)
    requires PlanOf(job, actions) && Reached(job, files, done) && AllDone(job, done)
    requires ScanOf(m, files, job.ex, job.sha3) && IsPullPlan(again, m, job.remote, job.o, job.ex)
    ensures again == [] <==> job.Hashed()
  {
    NoConflictsInPlan(job, actions);
    if job.Hashed() {
      ReplanIsRemaining(job, actions, files, done, m, again);
      assert forall a :: a in actions ==> job.Plan(a.path).Some?;
      SomeElement(again);
    } else {
      var p :| job.Wanted(p) && job.remote.entries[p].kind == File && job.remote.entries[p].hash == None;
      UnhashedNeverSettles(job, files, done, m, p);
      DecisionIsPlanned(m, job.remote, job.o, job.ex, again, p);
    }
  }

  /** At the end of a run the disk mirrors the remote tree; everything else that is still there is
      what the user asked to keep, untouched. */
  lemma FinalFiles(job: PullJob, files: Files, done: set<string>, path: string)
    requires job.Valid() && job.NoConflicts() && Reached(job, files, done) && AllDone(job, done)
    ensures job.Wanted(path) ==>
              && path in files
              && (files[path].Folder? <==> job.remote.entries[path].kind == Directory)
              && (files[path].Regular? <==> job.remote.entries[path].kind == File)
              && (files[path].Regular? && job.remote.entries[path].hash.Some? ==>
                    job.remote.entries[path].hash == Some(job.sha3(files[path].content)))
    ensures path in files && !job.Wanted(path) ==>
              && path in job.start && files[path] == job.start[path]
              && (path !in job.local.entries || IsExcluded(job.ex, path) || !job.o.delete
                  || PathProtected(job.local, path))
  {
    assert PathReached(job, files, done, path);
    assert job.Plan(path).Some? ==> path in done && !job.Plan(path).value.Conflict?;
    if job.Wanted(path) {
      WantedDecision(job, path);
      assert !job.InTheWay(path);
    }
    if path in files {
      ReachedVisited(job, files, done, path);
    }
  }

  // ---- No action gets stuck --------------------------------------------------------------------

  /** What must have happened before an action: directories above a new entry, deletions below a
      directory to be deleted. */
  ghost predicate Ready(job: PullJob, a: PullAction, done: set<string>) {
    && a.path !in done
    && (a.CreateDirectory? || a.DownloadFile? || a.ReplaceFile? ==>
          job.Plan(ParentPath(a.path)).Some? ==> ParentPath(a.path) in done)
    && (a.DeleteDirectory? ==> forall p {:trigger job.Plan(p)} ::
          ValidPath(p) && ParentPath(p) == a.path && job.Plan(p).Some? ==> p in done)
  }

  ghost predicate NoChild(files: Files, path: string) {
    forall p :: p in files ==> ParentPath(p) != path
  }

  /** What the file system demands of an action. */
  ghost predicate Possible(files: Files, a: PullAction) {
    && FoldersAbove(files, a.path)
    && match a
       case Conflict(_, _) => true
       case CreateDirectory(path) => path !in files
       case DownloadFile(path, _, _) => path !in files
       case ReplaceFile(path, _, _) => path in files && files[path].Regular?
       case DeleteFile(path) => path in files && files[path].Regular?
       case DeleteDirectory(path) => path in files && files[path].Folder? && NoChild(files, path)
  }

  lemma {:induction false} ValidHasFolders(files: Files, path: string)
    requires ValidFiles(files) && HangsBelowFolder(files, path)
    ensures FoldersAbove(files, path)
    decreases |path|
  {
    ParentValid(path);
    if ParentPath(path) != "" {
      assert HangsBelowFolder(files, ParentPath(path));
      ValidHasFolders(files, ParentPath(path));
    }
  }

  lemma DownloadParent(job: PullJob, files: Files, done: set<string>, a: PullAction)
    requires job.Valid() && job.NoConflicts() && Reached(job, files, done)
    requires job.Plan(a.path) == Some(a) && a.path in job.remote.entries && Ready(job, a, done)
    ensures FoldersAbove(files, a.path)
  {
    var parent := ParentPath(a.path);
    assert RemotePlaced(job.remote, a.path);
    if parent != "" {
      ExcludedBelow(job.ex, a.path);
      assert job.Wanted(parent);
      assert PathReached(job, files, done, parent);
      WantedDecision(job, parent);
    }
    ValidHasFolders(files, a.path);
  }

  /** Whatever is below a directory that the plan deletes is deleted by the plan as well: an excluded
      or special entry would have protected the directory. */
  lemma ChildIsDeletedToo(job: PullJob, files: Files, done: set<string>, path: string, child: string)
    requires job.Valid() && job.NoConflicts() && Reached(job, files, done)
    requires job.Plan(path) == Some(DeleteDirectory(path)) && child in files && ParentPath(child) == path && path != ""
    ensures job.Plan(child).Some? && (job.Plan(child).value.DeleteFile? || job.Plan(child).value.DeleteDirectory?)
  {
    assert HangsBelowFolder(files, child);
    assert PathReached(job, files, done, child);
    UnderParent(path, child);
    ReachedVisited(job, files, done, child);
    assert child in job.remote.entries ==> RemotePlaced(job.remote, child);
    assert child in job.start;
    assert HangsBelowFolder(job.start, child);
    assert Visited(job.start, job.ex, path);
    HiddenChildProtects(job, path, child);
    ListedKind(job, child);
    VisitedNotExcluded(job.start, job.ex, child);
    if PathProtected(job.local, child) {
      ProtectionReachesUp(job, path, child);
    }
  }

  lemma HiddenChildProtects(job: PullJob, path: string, child: string)
    requires job.Valid() && Visited(job.start, job.ex, path) && child in job.start && path != ""
    requires ValidPath(child) && ParentPath(child) == path
    ensures Visited(job.start, job.ex, child) || PathProtected(job.local, path)
  {
    UnderParent(path, child);
    ParentValid(child);
    if !Visited(job.start, job.ex, child) {
      assert Blocked(job.start, job.ex, child);
    }
  }

  lemma ProtectionReachesUp(job: PullJob, path: string, child: string)
    requires job.Valid() && ValidPath(child) && ParentPath(child) == path && path != ""
    requires child in job.local.entries && PathProtected(job.local, child)
    ensures PathProtected(job.local, path)
  {
    var p :| p in job.local.protectedPaths && (p == child || Under(child, p) || Under(p, child));
    assert Blocked(job.start, job.ex, p);
    assert Visited(job.start, job.ex, child);
    assert p != child;
    UnderParent(p, child);
    UnderParent(path, child);
    if Under(child, p) {
      assert Under(path, p) by { UnderTransitive(path, child, p); }
    }
  }

  lemma UnderTransitive(a: string, b: string, c: string)
    requires Under(a, b) && Under(b, c)
    ensures Under(a, c)
  {
    assert c[..|a|] == b[..|a|];
  }

  lemma DeletionPossible(job: PullJob, files: Files, done: set<string>, a: PullAction)
    requires job.Valid() && job.NoConflicts() && Reached(job, files, done)
    requires job.Plan(a.path) == Some(a) && a.path !in job.remote.entries && Ready(job, a, done)
    ensures Possible(files, a)
  {
    assert PathReached(job, files, done, a.path);
    assert Visited(job.start, job.ex, a.path);
    assert HangsBelowFolder(files, a.path);
    ValidHasFolders(files, a.path);
    if a.DeleteDirectory? {
      forall child | child in files ensures ParentPath(child) != a.path {
        assert PathReached(job, files, done, child);
        assert HangsBelowFolder(files, child);
        if ParentPath(child) == a.path {
          ChildIsDeletedToo(job, files, done, a.path, child);
        }
      }
    }
  }

  /** Every action of the plan is possible when its turn comes. */
  lemma ActionPossible(job: PullJob, files: Files, done: set<string>, a: PullAction)
    requires job.Valid() && job.NoConflicts() && Reached(job, files, done)
    requires job.Plan(a.path) == Some(a) && Ready(job, a, done) && !job.InTheWay(a.path)
    ensures Possible(files, a) && !a.Conflict?
  {
    if a.path in job.remote.entries {
      DownloadParent(job, files, done, a);
      assert PathReached(job, files, done, a.path);
      WantedDecision(job, a.path);
    } else {
      DeletionPossible(job, files, done, a);
    }
  }

  /** What is in the way stays there, below real directories, and its action is not possible. */
  lemma StaysInTheWay(job: PullJob, files: Files, done: set<string>, a: PullAction)
    requires job.Valid() && job.NoConflicts() && Reached(job, files, done)
    requires job.Plan(a.path) == Some(a) && Ready(job, a, done) && job.InTheWay(a.path)
    ensures FoldersAbove(files, a.path) && a.path in files && files[a.path].Special?
    ensures a.CreateDirectory? || a.DownloadFile?
    ensures !Possible(files, a)
  {
    WantedDecision(job, a.path);
    DownloadParent(job, files, done, a);
    assert PathReached(job, files, done, a.path);
  }

  lemma {:induction false} SomethingInTheWay(job: PullJob, path: string) returns (top: string)
    requires job.Valid() && job.Wanted(path) && path in job.start && !Visited(job.start, job.ex, path)
    ensures job.Wanted(top) && top in job.start && job.start[top].Special?
    ensures ParentPath(top) == "" || Visited(job.start, job.ex, ParentPath(top))
    decreases |path|
  {
    assert RemotePlaced(job.remote, path);
    assert HangsBelowFolder(job.start, path);
    ParentValid(path);
    top := path;
    if ParentPath(path) != "" {
      ExcludedBelow(job.ex, path);
      if !Visited(job.start, job.ex, ParentPath(path)) {
        top := SomethingInTheWay(job, ParentPath(path));
      }
    }
  }

  /** The condition is exact: with a link or special file in the way, the plan holds an action whose
      turn can come at once and which the file system refuses. */
  lemma StuckOtherwise(job: PullJob) returns (path: string)
    requires job.Valid() && job.NoConflicts() && !job.NothingInTheWay()
    ensures job.Plan(path).Some? && Ready(job, job.Plan(path).value, {}) && !Possible(job.start, job.Plan(path).value)
  {
    var p :| job.Wanted(p) && p in job.start && job.start[p].Special?;
    path := SomethingInTheWay(job, p);
    var parent := ParentPath(path);
    assert RemotePlaced(job.remote, path);
    assert HangsBelowFolder(job.start, path);
    assert path in job.local.entries ==> Visited(job.start, job.ex, path);
    assert !job.Plan(path).value.Conflict?;
    if parent == "" {
      assert "" !in job.remote.entries by { assert !RemotePlaced(job.remote, ""); }
      assert "" !in job.local.entries by {
        assert !HangsBelowFolder(job.start, "");
        assert !Visited(job.start, job.ex, "");
      }
    } else {
      ListedKind(job, parent);
    }
  }

  // ---- The plan in its order -------------------------------------------------------------------

  ghost function PathsOf(actions: seq<PullAction>): set<string> {
    set a | a in actions :: a.path
  }

  lemma EarlierIsDone(actions: seq<PullAction>, a: PullAction, k: nat)
    requires SortedBy(PullKey, actions) && k < |actions| && a in actions && KeyLess(PullKey(a), PullKey(actions[k]))
    ensures a.path in PathsOf(actions[..k])
  {
    var i :| 0 <= i < |actions| && actions[i] == a;
    KeyLessTotal(PullKey(a), PullKey(actions[k]));
    assert i < k;
    assert actions[..k][i] == a;
  }

  lemma PlannedPathValid(job: PullJob, path: string)
    requires job.Valid() && job.Plan(path).Some?
    ensures ValidPath(path)
  {
    if path in job.remote.entries {
      assert RemotePlaced(job.remote, path);
    } else {
      assert Visited(job.start, job.ex, path);
      assert HangsBelowFolder(job.start, path);
    }
  }

  lemma DirectoryAboveSortsFirst(job: PullJob, path: string)
    requires job.Valid() && job.NoConflicts()
    requires path in job.remote.entries && job.Plan(path).Some? && job.Plan(ParentPath(path)).Some?
    ensures KeyLess(PullKey(job.Plan(ParentPath(path)).value), PullKey(job.Plan(path).value))
  {
    var parent := ParentPath(path);
    assert RemotePlaced(job.remote, path);
    assert "" !in job.remote.entries by { assert !RemotePlaced(job.remote, ""); }
    assert "" !in job.local.entries by {
      assert !HangsBelowFolder(job.start, "");
      assert !Visited(job.start, job.ex, "");
    }
    ExcludedBelow(job.ex, path);
    WantedDecision(job, parent);
    WantedDecision(job, path);
    ParentDepth(path);
  }

  lemma ChildDeletionSortsFirst(job: PullJob, path: string, child: string)
    requires job.Valid() && job.NoConflicts()
    requires job.Plan(path) == Some(DeleteDirectory(path)) && job.Plan(child).Some?
    requires ValidPath(child) && ParentPath(child) == path && path != ""
    ensures KeyLess(PullKey(job.Plan(child).value), PullKey(DeleteDirectory(path)))
  {
    assert child in job.remote.entries ==> RemotePlaced(job.remote, child);
    ParentDepth(child);
  }

  /** In plan order, everything an action waits for has happened. */
  lemma OrderIsReady(job: PullJob, actions: seq<PullAction>, k: nat)
    requires PlanOf(job, actions) && k < |actions|
    ensures job.Plan(actions[k].path) == Some(actions[k]) && Ready(job, actions[k], PathsOf(actions[..k]))
  {
    var a, done := actions[k], PathsOf(actions[..k]);
    NoConflictsInPlan(job, actions);
    assert a in actions;
    if a.path in done {
      var b :| b in actions[..k] && b.path == a.path;
      var i :| 0 <= i < k && actions[i] == b;
      PlanPathsDistinct(actions, job.local, job.remote, job.o, job.ex, i, k);
    }
    PlannedPathValid(job, a.path);
    if a.path in job.remote.entries && job.Plan(ParentPath(a.path)).Some? {
      DirectoryAboveSortsFirst(job, a.path);
      ParentActionDone(job, actions, ParentPath(a.path), k);
    }
    if a.DeleteDirectory? {
      forall p | ValidPath(p) && ParentPath(p) == a.path && job.Plan(p).Some? ensures p in done {
        ChildDeletionSortsFirst(job, a.path, p);
        ParentActionDone(job, actions, p, k);
      }
    }
  }

  lemma ParentActionDone(job: PullJob, actions: seq<PullAction>, path: string, k: nat)
    requires PlanOf(job, actions) && k < |actions| && job.Plan(path).Some?
    requires KeyLess(PullKey(job.Plan(path).value), PullKey(actions[k]))
    ensures path in PathsOf(actions[..k])
  {
    NoConflictsInPlan(job, actions);
    DecisionKeepsPath(job.local, job.remote, job.o, job.ex, path);
    assert job.Plan(path).value in actions;
    EarlierIsDone(actions, job.Plan(path).value, k);
  }

  // ---- One step --------------------------------------------------------------------------------

  /** The disk after an action; `content` is what a download has fetched. */
  function Effect(files: Files, a: PullAction, content: Bytes): Files {
    match a
    case Conflict(_, _) => files
    case CreateDirectory(path) => files[path := Folder]
    case DownloadFile(path, _, _) => files[path := Regular(content)]
    case ReplaceFile(path, _, _) => files[path := Regular(content)]
    case DeleteFile(path) => files - {path}
    case DeleteDirectory(path) => files - {path}
  }

  predicate Downloads(a: PullAction) {
    a.DownloadFile? || a.ReplaceFile?
  }

  lemma StepValid(files: Files, a: PullAction, content: Bytes)
    requires ValidFiles(files) && Possible(files, a) && ValidPath(a.path)
    ensures ValidFiles(Effect(files, a, content))
  {
    var files' := Effect(files, a, content);
    ParentValid(a.path);
    forall p | p in files' ensures HangsBelowFolder(files', p) {
      if p != a.path {
        assert HangsBelowFolder(files, p);
      }
    }
  }

  lemma StepReached(job: PullJob, files: Files, done: set<string>, a: PullAction, content: Bytes)
    requires job.Valid() && job.NoConflicts() && Reached(job, files, done)
    requires job.Plan(a.path) == Some(a) && Ready(job, a, done)
    requires !job.InTheWay(a.path) && (Downloads(a) ==> Downloaded(job, Effect(files, a, content), a.path))
    ensures Reached(job, Effect(files, a, content), done + {a.path})
  {
    ActionPossible(job, files, done, a);
    PlannedPathValid(job, a.path);
    StepValid(files, a, content);
    var files' := Effect(files, a, content);
    forall p ensures PathReached(job, files', done + {a.path}, p) {
      assert PathReached(job, files, done, p);
    }
  }
}

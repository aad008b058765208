/** Executing a prepared pull (src/sync/pull.rs:374-424). */
module PullExecutor {
  import opened FileChunks
  import opened LocalTree
  import opened Manifests
  import opened Paths
  import opened PullPlanner
  import opened Download
  import opened PullSync

  /** How the bucket answers the queries for one file. */
  datatype Source = Source(infos: InfoServer, chunks: ChunkServer)

  /** The environment of a run: the bucket's answers for every path, and the name of the temporary
      file for the n-th action, which nothing else uses. */
  datatype Setting = Setting(sources: string -> Source, names: nat -> string, retry: nat)
  {
    /** `destination.with_file_name(..)`. */
    function Temporary(k: nat, destination: string): string {
      JoinPath(ParentPath(destination), names(k))
    }
  }

  ghost predicate Unused(job: PullJob, name: string) {
    forall p :: p in job.start || p in job.remote.entries ==> EntryName(p) != name
  }

  ghost predicate FreshNames(job: PullJob, env: Setting) {
    forall k {:trigger env.names(k)} :: ValidName(env.names(k)) && Unused(job, env.names(k))
  }

  lemma TemporaryIsNew(job: PullJob, env: Setting, k: nat, destination: string)
    requires FreshNames(job, env)
    ensures var t := env.Temporary(k, destination); t !in job.start && t !in job.remote.entries
    ensures ParentPath(env.Temporary(k, destination)) == ParentPath(destination)
  {
    SplitJoin(ParentPath(destination), env.names(k));
    assert Unused(job, env.names(k));
  }

  /** The wanted files stay as planned and the bucket serves their chunks; calls may still fail. */
  ghost predicate Undisturbed(job: PullJob, env: Setting, truth: string -> Bytes) {
    forall p {:trigger job.Wanted(p)} :: job.Wanted(p) && job.remote.entries[p].kind == File ==>
      Unchanging(env.sources(p).infos, job.remote.entries[p], job.sha3, env.sources(p).chunks, truth(p))
  }

  lemma FreshIsAbsent(job: PullJob, files: Files, done: set<string>, path: string)
    requires job.Valid() && Reached(job, files, done) && path !in job.start && path !in job.remote.entries
    ensures path !in files && job.Plan(path) == None
  {
    assert PathReached(job, files, done, path);
    assert path in job.local.entries ==> Visited(job.start, job.ex, path);
  }

  /** What has been verified against an unchanged remote file is what the plan asked for. */
  lemma PublishedIsPlanned(job: PullJob, env: Setting, files: Files, path: string)
    requires path in job.remote.entries && path in files && files[path].Regular?
    requires Publishable(env.sources(path).chunks, env.sources(path).infos, job.sha3, job.remote.entries[path],
                         files[path].content)
    ensures Downloaded(job, files, path)
  {
    var content, expected := files[path].content, job.remote.entries[path];
    var i: nat, j: nat :|
      PublishableBetween(env.sources(path).chunks, env.sources(path).infos, job.sha3, expected, content, i, j);
  }

  /** What an action does to the disk on its way to the next action: a download changes its temporary
      file only, any other action is one atomic change. */
  ghost predicate LeavesTrace(
    env: Setting, k: nat, a: PullAction, before: seq<Files>, after: seq<Files>, files: Files, ok: bool)
  {
    if Downloads(a) then OnlyPublishes(before, after, files, env.Temporary(k, a.path), ok)
    else before <= after && |after| <= |before| + if ok then 1 else 0
  }

  method DownloadAction(disk: Disk, job: PullJob, env: Setting, k: nat, a: PullAction, ghost done: set<string>,
                        ghost truth: string -> Bytes)
    returns (r: Result<(), DownloadError>)
    requires disk.Valid() && job.Valid() && job.NoConflicts() && FreshNames(job, env)
    requires Reached(job, disk.files, done) && job.Plan(a.path) == Some(a) && Ready(job, a, done) && Downloads(a)
    modifies disk
    ensures disk.Valid()
    ensures r.Ok? ==> Reached(job, disk.files, done + {a.path})
    ensures r.Ok? ==> disk.files - {a.path} == old(disk.files) - {a.path}
    ensures r.Ok? ==> PublishedAt(job, env, disk.files, a.path)
    ensures r.Err? ==> disk.files == old(disk.files)
    ensures LeavesTrace(env, k, a, old(disk.trace), disk.trace, old(disk.files), r.Ok?)
    ensures job.InTheWay(a.path) ==> r.Err?
    ensures r.Err? ==> TriedEnough(env.sources(a.path).infos, env.sources(a.path).chunks, env.retry, r.error)
    ensures Undisturbed(job, env, truth) && r.Err? ==>
              r.error.InfoFailed? || r.error.CallFailed? || job.InTheWay(a.path)
  {
    hide FreshNames, JoinPath, OnlyPublishes, Possible;
    ghost var files := disk.files;
    assert job.Wanted(a.path) && job.remote.entries[a.path].kind == File;
    if job.InTheWay(a.path) {
      StaysInTheWay(job, files, done, a);
    } else {
      ActionPossible(job, files, done, a);
    }
    PlannedPathValid(job, a.path);
    TemporaryIsNew(job, env, k, a.path);
    FreshIsAbsent(job, files, done, env.Temporary(k, a.path));
    r := Download.DownloadFile(disk, a.path, env.Temporary(k, a.path), job.remote.entries[a.path], a.ReplaceFile?,
                      env.sources(a.path).infos, env.sources(a.path).chunks, job.sha3, env.retry, truth(a.path));
    if r.Ok? {
      PublishedIsPlanned(job, env, disk.files, a.path);
      assert disk.files == Effect(files, a, disk.files[a.path].content);
      StepReached(job, files, done, a, disk.files[a.path].content);
    }
  }

  // ---- The other actions -----------------------------------------------------------------------

  /** `ensure_local_directory`. */
  method EnsureDirectory(disk: Disk, path: string) returns (ok: bool)
    requires disk.Valid() && ValidPath(path)
    modifies disk
    ensures disk.Valid()
    ensures Possible(old(disk.files), CreateDirectory(path)) ==>
              ok && disk.files == old(disk.files)[path := Folder] && disk.trace == old(disk.trace) + [disk.files]
    ensures FoldersAbove(old(disk.files), path) && path in old(disk.files) ==>
              ok == old(disk.files)[path].Folder? && disk.trace == old(disk.trace)
    ensures ok ==> path in disk.files && disk.files[path].Folder? && FoldersAbove(disk.files, path)
    ensures forall q :: q in old(disk.files) ==> q in disk.files && disk.files[q] == old(disk.files)[q]
  {
    ok := EnsureParent(disk, path);
    if ok {
      if path in disk.files {
        ok := disk.files[path].Folder?;
      } else {
        ghost var before := disk.files;
        disk.Change(disk.files[path := Folder]);
        FoldersStay(before, disk.files, path);
      }
    }
  }

  /** `delete_local_file`. */
  method DeleteLocalFile(disk: Disk, path: string) returns (ok: bool)
    requires disk.Valid() && ValidPath(path)
    modifies disk
    ensures disk.Valid()
    ensures Possible(old(disk.files), DeleteFile(path)) ==>
              ok && disk.files == old(disk.files) - {path} && disk.trace == old(disk.trace) + [disk.files]
    ensures ok ==> path in old(disk.files) && old(disk.files)[path].Regular?
    ensures forall q :: q in old(disk.files) && (q != path || !ok) ==> q in disk.files && disk.files[q] == old(disk.files)[q]
  {
    ok := EnsureParent(disk, path);
    if ok {
      ok := path in disk.files && disk.files[path].Regular?;
      if ok {
        disk.Change(disk.files - {path});
      }
    }
  }

  /** `delete_local_directory`; the file system only removes empty directories. */
  method DeleteLocalDirectory(disk: Disk, path: string) returns (ok: bool)
    requires disk.Valid() && ValidPath(path)
    modifies disk
    ensures disk.Valid()
    ensures Possible(old(disk.files), DeleteDirectory(path)) ==>
              ok && disk.files == old(disk.files) - {path} && disk.trace == old(disk.trace) + [disk.files]
    ensures ok ==> path in old(disk.files) && old(disk.files)[path].Folder? && NoChild(old(disk.files), path)
    ensures forall q :: q in old(disk.files) && (q != path || !ok) ==> q in disk.files && disk.files[q] == old(disk.files)[q]
  {
    ok := EnsureParent(disk, path);
    if ok {
      ok := path in disk.files && disk.files[path].Folder? && forall p :: p in disk.files ==> ParentPath(p) != path;
      if ok {
        disk.Change(disk.files - {path});
      }
    }
  }

  datatype PullFailure =
    | TooManyRetries
    | HasConflicts
    | DownloadFailed(error: DownloadError)
    | LocalFailed(path: string)

  /** An action that downloads nothing. */
  method PerformLocally(disk: Disk, a: PullAction) returns (ok: bool)
    requires disk.Valid() && ValidPath(a.path) && !Downloads(a) && !a.Conflict?
    modifies disk
    ensures disk.Valid()
    ensures Possible(old(disk.files), a) ==>
              ok && disk.files == Effect(old(disk.files), a, []) && disk.trace == old(disk.trace) + [disk.files]
    ensures a.CreateDirectory? && FoldersAbove(old(disk.files), a.path) && a.path in old(disk.files) ==>
              ok == old(disk.files)[a.path].Folder? && disk.trace == old(disk.trace)
  {
    match a {
      case CreateDirectory(path) => ok := EnsureDirectory(disk, path);
      case DeleteFile(path) => ok := DeleteLocalFile(disk, path);
      case DeleteDirectory(path) => ok := DeleteLocalDirectory(disk, path);
    }
  }

  method LocalAction(disk: Disk, job: PullJob, env: Setting, k: nat, a: PullAction, ghost done: set<string>)
    returns (r: Result<(), PullFailure>)
    requires disk.Valid() && job.Valid() && job.NoConflicts() && FreshNames(job, env)
    requires Reached(job, disk.files, done) && job.Plan(a.path) == Some(a) && Ready(job, a, done) && !Downloads(a)
    modifies disk
    ensures disk.Valid()
    ensures r.Ok? <==> !job.InTheWay(a.path)
    ensures r.Ok? ==> Reached(job, disk.files, done + {a.path})
    ensures r.Ok? ==> disk.files - {a.path} == old(disk.files) - {a.path}
    ensures r.Err? ==> disk.files == old(disk.files) && r == Err(LocalFailed(a.path))
    ensures LeavesTrace(env, k, a, old(disk.trace), disk.trace, old(disk.files), r.Ok?)
  {
    hide Reached, Possible, Effect, FreshNames, PullJob.Valid;
    if job.InTheWay(a.path) {
      StaysInTheWay(job, disk.files, done, a);
    } else {
      ActionPossible(job, disk.files, done, a);
      StepReached(job, disk.files, done, a, []);
      EffectElsewhere(disk.files, a, []);
    }
    PlannedPathValid(job, a.path);
    var ok := PerformLocally(disk, a);
    if ok {
      assert disk.trace[..|disk.trace| - 1] == old(disk.trace);
    }
    r := if ok then Ok(()) else Err(LocalFailed(a.path));
  }

  lemma EffectElsewhere(files: Files, a: PullAction, content: Bytes)
    ensures Effect(files, a, content) - {a.path} == files - {a.path}
  {
  }

  // ---- The run ---------------------------------------------------------------------------------

  /** The path holds what its download has verified. */
  ghost predicate PublishedAt(job: PullJob, env: Setting, files: Files, path: string) {
    && path in job.remote.entries && path in files && files[path].Regular?
    && Publishable(env.sources(path).chunks, env.sources(path).infos, job.sha3, job.remote.entries[path],
                   files[path].content)
  }

  /** So do all paths in `done` that were to be downloaded. */
  ghost predicate Published(job: PullJob, env: Setting, files: Files, done: set<string>) {
    forall p {:trigger job.Plan(p)} :: p in done && job.Plan(p).Some? && Downloads(job.Plan(p).value) ==>
      PublishedAt(job, env, files, p)
  }

  ghost predicate AtAction(job: PullJob, env: Setting, actions: seq<PullAction>, files: Files, k: nat) {
    && k <= |actions| && Reached(job, files, PathsOf(actions[..k]))
    && Published(job, env, files, PathsOf(actions[..k]))
  }

  /** The disk stands between two actions of the plan. */
  ghost predicate BetweenActions(job: PullJob, env: Setting, actions: seq<PullAction>, files: Files) {
    exists k :: AtAction(job, env, actions, files, k)
  }

  /** The temporary file of the next action, a download, is there in addition. */
  ghost predicate WithinAction(
    job: PullJob, env: Setting, actions: seq<PullAction>, files: Files, k: nat)
  {
    && k < |actions| && Downloads(actions[k])
    && var temporary := env.Temporary(k, actions[k].path);
       temporary in files && files[temporary].Regular? && AtAction(job, env, actions, files - {temporary}, k)
  }

  /** What a crash may leave: some first part of the plan has been executed and at most the temporary
      file of the next action is there in addition. */
  ghost predicate CrashState(job: PullJob, env: Setting, actions: seq<PullAction>, files: Files) {
    BetweenActions(job, env, actions, files) || exists k :: WithinAction(job, env, actions, files, k)
  }

  ghost predicate CrashSafe(job: PullJob, env: Setting, actions: seq<PullAction>, trace: seq<Files>, from: nat) {
    forall i {:trigger trace[i]} :: from <= i < |trace| ==> CrashState(job, env, actions, trace[i])
  }

  lemma StepIsSafe(job: PullJob, env: Setting, actions: seq<PullAction>, k: nat, files: Files, files': Files,
                   before: seq<Files>, after: seq<Files>, from: nat, ok: bool)
    requires job.Valid() && FreshNames(job, env) && k < |actions| && AtAction(job, env, actions, files, k)
    requires before != [] && before[|before| - 1] == files && after != [] && after[|after| - 1] == files'
    requires from <= |before| && CrashSafe(job, env, actions, before, from)
    requires LeavesTrace(env, k, actions[k], before, after, files, ok)
    requires if ok then AtAction(job, env, actions, files', k + 1) else files' == files
    ensures before <= after && CrashSafe(job, env, actions, after, from)
  {
    hide PullJob.Valid, Reached, FreshNames, Undisturbed;
    var temporary := env.Temporary(k, actions[k].path);
    TemporaryIsNew(job, env, k, actions[k].path);
    FreshIsAbsent(job, files, PathsOf(actions[..k]), temporary);
    forall i | from <= i < |after| ensures CrashState(job, env, actions, after[i]) {
      if i < |before| {
        assert after[i] == before[i];
      } else if i < |after| - 1 || !ok {
        assert after[i] - {temporary} == files - {temporary} == files;
        if temporary in after[i] {
          assert WithinAction(job, env, actions, after[i], k);
        } else {
          assert after[i] == files;
        }
      }
    }
  }

  lemma NextDone(actions: seq<PullAction>, k: nat)
    requires k < |actions|
    ensures PathsOf(actions[..k + 1]) == PathsOf(actions[..k]) + {actions[k].path}
  {
    assert actions[..k + 1] == actions[..k] + [actions[k]];
  }

  /** Among any `retry + 1` successive queries for the file one is answered. */
  ghost predicate Responsive(source: Source, retry: nat) {
    !InfosGaveUp(source.infos, retry) && !GaveUp(source.chunks, retry)
  }

  ghost predicate AllResponsive(env: Setting) {
    forall p {:trigger env.sources(p)} :: Responsive(env.sources(p), env.retry)
  }

  /** The bucket has not answered. */
  predicate Unreachable(e: PullFailure) {
    e.DownloadFailed? && (e.error.InfoFailed? || e.error.CallFailed?)
  }

  lemma PublishedStep(job: PullJob, env: Setting, files: Files, files': Files, done: set<string>, a: PullAction)
    requires Published(job, env, files, done) && a.path !in done && job.Plan(a.path) == Some(a)
    requires files' - {a.path} == files - {a.path}
    requires Downloads(a) ==> PublishedAt(job, env, files', a.path)
    ensures Published(job, env, files', done + {a.path})
  {
    hide Publishable;
    forall p | p in done && job.Plan(p).Some? && Downloads(job.Plan(p).value) ensures PublishedAt(job, env, files', p) {
      assert PublishedAt(job, env, files, p);
      assert p in files - {a.path};
      assert p in files' - {a.path};
    }
  }

  method ExecuteAction(disk: Disk, job: PullJob, env: Setting, actions: seq<PullAction>, k: nat,
                       ghost truth: string -> Bytes)
    returns (r: Result<(), PullFailure>)
    requires disk.Valid() && PlanOf(job, actions) && FreshNames(job, env)
    requires k < |actions| && AtAction(job, env, actions, disk.files, k)
    modifies disk
    ensures disk.Valid()
    ensures if r.Ok? then AtAction(job, env, actions, disk.files, k + 1) else disk.files == old(disk.files)
    ensures LeavesTrace(env, k, actions[k], old(disk.trace), disk.trace, old(disk.files), r.Ok?)
    ensures r.Err? ==> r.error.DownloadFailed? || r.error.LocalFailed?
    ensures Undisturbed(job, env, truth) && job.NothingInTheWay() && r.Err? ==> Unreachable(r.error) && !AllResponsive(env)
  {
    NoConflictsInPlan(job, actions);
    OrderIsReady(job, actions, k);
    NextDone(actions, k);
    var a := actions[k];
    hide Reached, Undisturbed, FreshNames, Published, PublishedAt, PullJob.Valid, InfosGaveUp, GaveUp;
    forall i | 0 <= i < k ensures actions[i].path != a.path {
      PlanPathsDistinct(actions, job.local, job.remote, job.o, job.ex, i, k);
    }
    assert a.path !in PathsOf(actions[..k]);
    if Downloads(a) {
      var d := DownloadAction(disk, job, env, k, a, PathsOf(actions[..k]), truth);
      match d {
        case Ok(_) => r := Ok(());
        case Err(e) => r := Err(DownloadFailed(e));
      }
    } else {
      r := LocalAction(disk, job, env, k, a, PathsOf(actions[..k]));
    }
    if r.Ok? {
      PublishedStep(job, env, old(disk.files), disk.files, PathsOf(actions[..k]), a);
    }
  }

  const MAX_DOWNLOAD_RETRIES: nat := 10

  method RunActions(disk: Disk, job: PullJob, env: Setting, actions: seq<PullAction>, ghost truth: string -> Bytes)
    returns (r: Result<(), PullFailure>)
    requires disk.Valid() && job.Valid() && PlanOf(job, actions) && FreshNames(job, env)
    requires AtAction(job, env, actions, disk.files, 0)
    modifies disk
    ensures disk.Valid() && old(disk.trace) <= disk.trace
    ensures r.Ok? ==> AtAction(job, env, actions, disk.files, |actions|)
    ensures BetweenActions(job, env, actions, disk.files)
    ensures CrashSafe(job, env, actions, disk.trace, |old(disk.trace)|)
    ensures r.Err? ==> r.error.DownloadFailed? || r.error.LocalFailed?
    ensures Undisturbed(job, env, truth) && job.NothingInTheWay() && r.Err? ==> Unreachable(r.error) && !AllResponsive(env)
  {
    hide AtAction, CrashState, Undisturbed, FreshNames, PlanOf;
    r := Ok(());
    var k := 0;
    while k < |actions| && r.Ok?
      invariant k <= |actions| && disk.Valid() && old(disk.trace) <= disk.trace
      invariant BetweenActions(job, env, actions, disk.files)
      invariant r.Ok? ==> AtAction(job, env, actions, disk.files, k)
      invariant CrashSafe(job, env, actions, disk.trace, |old(disk.trace)|)
      invariant r.Err? ==> r.error.DownloadFailed? || r.error.LocalFailed?
      invariant Undisturbed(job, env, truth) && job.NothingInTheWay() && r.Err? ==> Unreachable(r.error) && !AllResponsive(env)
    {
      ghost var trace, files := disk.trace, disk.files;
      r := ExecuteAction(disk, job, env, actions, k, truth);
      StepIsSafe(job, env, actions, k, files, disk.files, trace, disk.trace, |old(disk.trace)|, r.Ok?);
      k := k + 1;
    }
  }

  /** `execute_pull`: refused plans change nothing; an accepted plan succeeds only if no link or special
      file is in the way, and then fails only if the bucket cannot be reached or a remote file has
      changed; and at every point the disk is at most one temporary file away from a state between two
      actions. */
  method ExecutePull(disk: Disk, job: PullJob, env: Setting, actions: seq<PullAction>, ghost truth: string -> Bytes)
    returns (r: Result<(), PullFailure>)
    requires disk.Valid() && disk.files == job.start
    requires job.Valid() && IsPullPlan(actions, job.local, job.remote, job.o, job.ex)
    requires FreshNames(job, env)
    modifies disk
    ensures disk.Valid() && old(disk.trace) <= disk.trace
    ensures r == Err(TooManyRetries) <==> env.retry > MAX_DOWNLOAD_RETRIES
    ensures r == Err(HasConflicts) <==> env.retry <= MAX_DOWNLOAD_RETRIES && !ConflictFree(actions)
    ensures r == Err(TooManyRetries) || r == Err(HasConflicts) ==> disk.trace == old(disk.trace)
    ensures r.Ok? ==> Reached(job, disk.files, PathsOf(actions)) && AllDone(job, PathsOf(actions))
    ensures r.Ok? ==> job.NothingInTheWay()
    ensures r.Ok? ==> forall a :: a in actions && Downloads(a) ==> PublishedAt(job, env, disk.files, a.path)
    ensures Undisturbed(job, env, truth) && r.Ok? ==>
              forall a :: a in actions && Downloads(a) ==> a.path in disk.files && disk.files[a.path] == Regular(truth(a.path))
    ensures BetweenActions(job, env, actions, disk.files)
    ensures CrashSafe(job, env, actions, disk.trace, |old(disk.trace)|)
    ensures Undisturbed(job, env, truth) && job.NothingInTheWay() && r.Err? ==>
              r == Err(TooManyRetries) || r == Err(HasConflicts) || (Unreachable(r.error) && !AllResponsive(env))
  {
    hide Reached, CrashState, Undisturbed, FreshNames, PullJob.NothingInTheWay, AllDone;
    StartReached(job);
    assert PathsOf(actions[..0]) == {};
    assert AtAction(job, env, actions, disk.files, 0);
    if env.retry > MAX_DOWNLOAD_RETRIES {
      return Err(TooManyRetries);
    }
    if exists a :: a in actions && a.Conflict? {
      return Err(HasConflicts);
    }
    r := RunActions(disk, job, env, actions, truth);
    assert actions[..|actions|] == actions;
    if r.Ok? {
      DoneMeansClear(job, actions, disk.files);
      DownloadsArePublished(job, env, actions, disk.files);
      if Undisturbed(job, env, truth) {
        DownloadsAreTrue(job, env, actions, disk.files, truth);
      }
    }
  }

  lemma DoneMeansClear(job: PullJob, actions: seq<PullAction>, files: Files)
    requires PlanOf(job, actions) && Reached(job, files, PathsOf(actions))
    ensures AllDone(job, PathsOf(actions)) && job.NothingInTheWay()
  {
    NoConflictsInPlan(job, actions);
    AllPlanned(job, actions);
    forall p ensures !job.InTheWay(p) {
      if job.InTheWay(p) {
        WantedDecision(job, p);
      }
    }
  }

  lemma DownloadsArePublished(job: PullJob, env: Setting, actions: seq<PullAction>, files: Files)
    requires PlanOf(job, actions) && Published(job, env, files, PathsOf(actions))
    ensures forall a :: a in actions && Downloads(a) ==> PublishedAt(job, env, files, a.path)
  {
    hide PublishedAt;
    NoConflictsInPlan(job, actions);
    forall a | a in actions && Downloads(a) ensures PublishedAt(job, env, files, a.path) {
      assert job.Plan(a.path) == Some(a);
    }
  }

  lemma DownloadsAreTrue(job: PullJob, env: Setting, actions: seq<PullAction>, files: Files, truth: string -> Bytes)
    requires PlanOf(job, actions) && Undisturbed(job, env, truth)
    requires forall a :: a in actions && Downloads(a) ==> PublishedAt(job, env, files, a.path)
    ensures forall a :: a in actions && Downloads(a) ==> a.path in files && files[a.path] == Regular(truth(a.path))
  {
    NoConflictsInPlan(job, actions);
    forall a | a in actions && Downloads(a) ensures a.path in files && files[a.path] == Regular(truth(a.path)) {
      assert job.Plan(a.path) == Some(a);
      assert job.Wanted(a.path) && PublishedAt(job, env, files, a.path);
      PublishableIsTruth(env.sources(a.path).chunks, env.sources(a.path).infos, job.sha3, job.remote.entries[a.path],
                         files[a.path].content, truth(a.path));
    }
  }

  lemma AllPlanned(job: PullJob, actions: seq<PullAction>)
    requires PlanOf(job, actions)
    ensures AllDone(job, PathsOf(actions))
  {
    NoConflictsInPlan(job, actions);
    forall p | job.Plan(p).Some? ensures p in PathsOf(actions) {
      DecisionKeepsPath(job.local, job.remote, job.o, job.ex, p);
      assert job.Plan(p).value in actions;
    }
  }
}

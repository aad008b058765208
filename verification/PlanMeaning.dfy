/** What a push plan means for the bucket (src/sync/planner.rs:77-228): which actions are called for by the
    two trees, the options and what the bucket would accept, when there is nothing to do, and in which
    order the actions stand. */
module PlanMeaning {
  import opened ActionOrder
  import opened Paths
  import opened Manifests
  import opened Planner
  import opened Convergence
  import opened Execution

  // ---- What is called for ----------------------------------------------------------------------

  predicate LocalIs(job: Job, path: string, kind: EntryKind) {
    path in job.local.entries && job.local.entries[path].kind == kind
  }

  predicate RemoteIs(job: Job, path: string, kind: EntryKind, id: nat) {
    path in job.start.entries && job.start.entries[path].kind == kind && job.start.entries[path].id == id
  }

  /** A new entry could be put there now, or its folder does not exist yet either. */
  predicate CanCreate(job: Job, path: string) {
    var parent := ParentPath(path);
    || (parent != "" && parent !in job.start.entries)
    || (FolderAt(job.start, parent)
        && Accepts(job.start, CreateFolder(FolderId(job.start, parent), EntryName(path)), path))
  }

  /** The bucket would take new content for the file there. */
  predicate CanReplace(job: Job, path: string)
    requires path in job.local.entries && path in job.start.entries
  {
    var l, r := job.local.entries[path], job.start.entries[path];
    Accepts(job.start, ReplaceContent(r.id, r.parent, EntryName(path), l.size, l.hash), path)
  }

  /** Files on both sides whose contents are not known to be equal. */
  predicate FilesDiffer(job: Job, path: string, id: nat) {
    && LocalIs(job, path, File) && RemoteIs(job, path, File, id)
    && (job.local.entries[path].hash.None? || job.local.entries[path].hash != job.start.entries[path].hash)
  }

  /** Only the bucket has it, and it is to be deleted. */
  predicate Unwanted(job: Job, path: string) {
    path in job.start.entries && path !in job.local.entries && job.o.delete && !job.local.Protects(path)
  }

  /** The two trees and the options call for this action. */
  predicate CalledFor(job: Job, a: PlanAction) {
    var path := a.path;
    match a
    case CreateDirectory(_) => LocalIs(job, path, Directory) && path !in job.start.entries && CanCreate(job, path)
    case UploadFile(_, size) =>
      && LocalIs(job, path, File) && job.local.entries[path].size == size
      && path !in job.start.entries && CanCreate(job, path)
    case ReplaceFile(_, id, size) =>
      && FilesDiffer(job, path, id) && job.local.entries[path].size == size
      && job.o.overwrite && CanReplace(job, path)
    case DeleteFile(_, id) =>
      RemoteIs(job, path, File, id) && Unwanted(job, path) && Accepts(job.start, RemoveFile(id), path)
    case DeleteDirectory(_, id) =>
      RemoteIs(job, path, Directory, id) && Unwanted(job, path) && job.start.entries[path].status == 0
    case Conflict(_, reason) =>
      match reason
      case Reported(text) => (path, text) in job.remote.conflicts
      case ParentNotWritable => path in job.local.entries && path !in job.start.entries && !CanCreate(job, path)
      case KindMismatch(localKind, remoteKind, id) =>
        LocalIs(job, path, localKind) && RemoteIs(job, path, remoteKind, id) && localKind != remoteKind
      case ArchivedDirectory =>
        && LocalIs(job, path, Directory) && path in job.start.entries
        && RemoteIs(job, path, Directory, job.start.entries[path].id) && job.start.entries[path].status < 0
      case FileDiffers(id) => FilesDiffer(job, path, id) && !job.o.overwrite
      case FileNotWritable =>
        && path in job.start.entries && FilesDiffer(job, path, job.start.entries[path].id)
        && job.o.overwrite && !CanReplace(job, path)
      case RemoteNotDeletable => Unwanted(job, path) && job.start.entries[path].status != 0
  }

  lemma CreationPlace(job: Job, path: string)
    requires job.Valid() && path in job.local.entries && path !in job.remote.entries
    ensures CanCreate(job, path) <==> ParentIsWritable(job.remote, path)
  {
    assert HasLocalParent(job.local, path);
    JoinSplit(path);
    EntryNameValid(path);
  }

  lemma ReplacementPlace(job: Job, path: string)
    requires job.Valid() && path in job.local.entries && path in job.remote.entries
    requires job.remote.entries[path].kind == File
    ensures CanReplace(job, path) <==> job.remote.entries[path].status == 0 && ParentIsWritable(job.remote, path)
  {
    assert EntryPlaced(job.start, path);
    assert "" in job.start.entries ==> EntryPlaced(job.start, "");
  }

  lemma DecisionIsCalledFor(job: Job, a: PlanAction)
    requires job.Valid() && !(a.Conflict? && a.reason.Reported?)
    ensures CalledFor(job, a) <==> a.path in job.Paths() && job.Decision(a.path) == Some(a)
  {
    hide CanCreate, CanReplace, ParentIsWritable, LocalManifest.Protects;
    if a.path in job.local.entries {
      if a.path !in job.remote.entries {
        CreationPlace(job, a.path);
      } else if job.remote.entries[a.path].kind == File {
        ReplacementPlace(job, a.path);
      }
    }
  }

  /** A plan holds an action if and only if the trees and the options call for it: in particular it
      holds a conflict only if the bucket would refuse what would have to be done, if the kinds
      differ, if an archived directory is in the way, or if the option that permits it is not set. */
  lemma PlannedIffCalledFor(job: Job, actions: seq<PlanAction>, a: PlanAction)
    requires job.Valid() && IsPlan(actions, job.local, job.remote, job.o)
    ensures a in actions <==> CalledFor(job, a)
  {
    hide ActionFor, CalledFor;
    PlannedOrReported(actions, job.local, job.remote, job.o, a);
    if a.Conflict? && a.reason.Reported? {
      ReportedIsNotDecided(job, a);
    } else {
      DecisionIsCalledFor(job, a);
    }
  }

  lemma ReportedIsNotDecided(job: Job, a: PlanAction)
    requires a.Conflict? && a.reason.Reported?
    ensures CalledFor(job, a) <==> (a.path, a.reason.text) in job.remote.conflicts
    ensures a.path in job.Paths() ==> ActionFor(job.local, job.remote, job.o, a.path) != Some(a)
  {
  }

  // ---- Nothing to do ---------------------------------------------------------------------------

  /** The remote entry needs nothing. */
  predicate InSync(local: LocalManifest, remote: RemoteManifest, path: string)
    requires path in local.entries
  {
    && path in remote.entries
    && var l, r := local.entries[path], remote.entries[path];
       l.kind == r.kind && if l.kind == Directory then r.status >= 0 else l.hash.Some? && r.hash == l.hash
  }

  /** The plan of two manifests is empty if and only if the remote scan had no conflicts, every local
      entry has its like in the bucket, and whatever else is there is to stay. Nothing else matters:
      no other option and no other status. */
  lemma NothingToDoIff(actions: seq<PlanAction>, local: LocalManifest, remote: RemoteManifest, o: PlanOptions)
    requires IsPlan(actions, local, remote, o)
    ensures actions == [] <==>
              && remote.conflicts == []
              && (forall p {:trigger InSync(local, remote, p)} :: p in local.entries ==> InSync(local, remote, p))
              && (forall p :: p in remote.entries && p !in local.entries && o.delete ==> local.Protects(p))
  {
    forall p | p in PathUnion(local, remote)
      ensures ActionFor(local, remote, o, p) == None <==>
                if p in local.entries then InSync(local, remote, p) else o.delete ==> local.Protects(p)
    {
    }
    forall p | p in PathUnion(local, remote)
      ensures ActionFor(local, remote, o, p).Some? ==> ActionFor(local, remote, o, p).value in actions
    {
      if ActionFor(local, remote, o, p).Some? {
        DecisionKeepsPath(local, remote, o, p);
        PlannedOrReported(actions, local, remote, o, ActionFor(local, remote, o, p).value);
      }
    }
    forall c | c in remote.conflicts ensures Conflict(c.0, Reported(c.1)) in actions {
      PlannedOrReported(actions, local, remote, o, Conflict(c.0, Reported(c.1)));
    }
    if actions != [] {
      PlannedOrReported(actions, local, remote, o, actions[0]);
    } else {
      assert forall c :: c in remote.conflicts ==> false;
    }
  }

  // ---- The order of a plan -----------------------------------------------------------------------

  /** Conflicts, then what is created from the top down, then uploads and replacements, then deletions
      of files and of directories from the bottom up; by path where that leaves a choice. */
  predicate InOrder(a: PlanAction, b: PlanAction) {
    && (b.Conflict? ==> a.Conflict?)
    && (b.CreateDirectory? ==> a.Conflict? || a.CreateDirectory?)
    && (b.UploadFile? ==> !a.ReplaceFile? && !a.DeleteFile? && !a.DeleteDirectory?)
    && (b.ReplaceFile? ==> !a.DeleteFile? && !a.DeleteDirectory?)
    && (b.DeleteFile? ==> !a.DeleteDirectory?)
    && (SameSort(a, b) ==>
          var up, down := PathDepth(a.path), PathDepth(b.path);
          && (if a.DeleteFile? || a.DeleteDirectory? then up >= down else up <= down)
          && (up == down ==> !PathLess(b.path, a.path)))
  }

  predicate SameSort(a: PlanAction, b: PlanAction) {
    match a
    case Conflict(_, _) => b.Conflict?
    case CreateDirectory(_) => b.CreateDirectory?
    case UploadFile(_, _) => b.UploadFile?
    case ReplaceFile(_, _, _) => b.ReplaceFile?
    case DeleteFile(_, _) => b.DeleteFile?
    case DeleteDirectory(_, _) => b.DeleteDirectory?
  }

  lemma PlanOrder(
    actions: seq<PlanAction>, local: LocalManifest, remote: RemoteManifest, o: PlanOptions, i: nat, j: nat)
    requires IsPlan(actions, local, remote, o) && i < j < |actions|
    ensures InOrder(actions[i], actions[j])
  {
    hide PathDepth, PathLess;
    assert !ActionLess(actions[j], actions[i]);
  }
}

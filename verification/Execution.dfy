/** The bucket's side of a push, one request at a time, and the orders in which a plan can be run. */
module Execution {
  import opened Paths
  import opened Manifests
  import opened Planner
  import opened Convergence

  /** Requests as they are sent: places are named by the id of the parent folder and an entry name,
      existing entries by their id. */
  datatype Request =
    | CreateFolder(parent: nat, name: string)
    | CreateFile(parent: nat, name: string, size: nat, hash: Option<Digest>)
    | ReplaceContent(id: nat, parent: nat, name: string, size: nat, hash: Option<Digest>)
    | RemoveFile(id: nat)
    | RemoveFolder(id: nat)

  /** A free name in a writable folder with this id. */
  predicate FreePlace(t: Tree, parent: nat, name: string, path: string) {
    && ValidName(name) && path !in t.entries
    && path == JoinPath(ParentPath(path), name)
    && FolderAt(t, ParentPath(path))
    && FolderId(t, ParentPath(path)) == parent
    && FolderStatus(t, ParentPath(path)) == 0
  }

  predicate EmptyFolder(t: Tree, path: string) {
    forall q :: q in t.entries ==> ParentPath(q) != path
  }

  /** The bucket carries out the request and the affected path is `path`. */
  predicate Accepts(t: Tree, r: Request, path: string) {
    match r
    case CreateFolder(parent, name) => FreePlace(t, parent, name, path)
    case CreateFile(parent, name, _, _) => FreePlace(t, parent, name, path)
    case ReplaceContent(id, parent, name, _, _) =>
      && path in t.entries && FolderAt(t, ParentPath(path)) && FolderStatus(t, ParentPath(path)) == 0
      && var e := t.entries[path];
         e.kind == File && e.id == id && e.status == 0 && e.parent == parent && EntryName(path) == name
    case RemoveFile(id) =>
      path in t.entries && t.entries[path].kind == File && t.entries[path].id == id && t.entries[path].status == 0
    case RemoveFolder(id) =>
      && path in t.entries && t.entries[path].kind == Directory && t.entries[path].id == id
      && t.entries[path].status == 0 && EmptyFolder(t, path)
  }

  function Effect(t: Tree, r: Request, path: string, newId: nat): Tree {
    match r
    case CreateFolder(parent, _) =>
      t.(entries := t.entries[path := RemoteEntry(newId, parent, Directory, 0, 0, None, 0)])
    case CreateFile(parent, _, size, hash) =>
      t.(entries := t.entries[path := RemoteEntry(newId, parent, File, size, size, hash, 0)])
    case ReplaceContent(_, _, _, size, hash) =>
      if path in t.entries then
        t.(entries := t.entries[path := t.entries[path].(size := size, filled := size, hash := hash)])
      else t
    case RemoveFile(_) => t.(entries := t.entries - {path})
    case RemoveFolder(_) => t.(entries := t.entries - {path})
  }

  ghost predicate FreshId(t: Tree, id: nat) {
    id != t.rootId && forall p :: p in t.entries ==> t.entries[p].id != id
  }

  lemma AddedValid(t: Tree, path: string, e: RemoteEntry)
    requires ValidTree(t) && path !in t.entries && FreshId(t, e.id)
    requires ValidPath(path) && FolderAt(t, ParentPath(path)) && e.parent == FolderId(t, ParentPath(path))
    ensures ValidTree(t.(entries := t.entries[path := e]))
  {
    var t' := t.(entries := t.entries[path := e]);
    ParentValid(path);
    forall p | p in t'.entries ensures EntryPlaced(t', p) {
      if p != path {
        assert EntryPlaced(t, p);
      }
    }
    forall p, q | p in t'.entries && q in t'.entries && SameObject(t'.entries[p], t'.entries[q]) ensures p == q {
      if p != path && q != path {
        assert SameObject(t.entries[p], t.entries[q]);
      }
    }
  }

  lemma UpdatedValid(t: Tree, path: string, e: RemoteEntry)
    requires ValidTree(t) && path in t.entries && SameObject(e, t.entries[path]) && e.parent == t.entries[path].parent
    ensures ValidTree(t.(entries := t.entries[path := e]))
  {
    var t' := t.(entries := t.entries[path := e]);
    forall p | p in t'.entries ensures EntryPlaced(t', p) {
      assert EntryPlaced(t, p);
    }
    forall p, q | p in t'.entries && q in t'.entries && SameObject(t'.entries[p], t'.entries[q]) ensures p == q {
      assert SameObject(t.entries[p], t.entries[q]);
    }
  }

  lemma RemovedValid(t: Tree, path: string)
    requires ValidTree(t) && path in t.entries
    requires t.entries[path].kind == File || EmptyFolder(t, path)
    ensures ValidTree(t.(entries := t.entries - {path}))
  {
    var t' := t.(entries := t.entries - {path});
    forall p | p in t'.entries ensures EntryPlaced(t', p) {
      assert EntryPlaced(t, p);
    }
    forall p, q | p in t'.entries && q in t'.entries && SameObject(t'.entries[p], t'.entries[q]) ensures p == q {
      assert SameObject(t.entries[p], t.entries[q]);
    }
  }

  lemma FreePlaceValid(t: Tree, parent: nat, name: string, path: string)
    requires ValidTree(t) && FreePlace(t, parent, name, path)
    ensures ValidPath(path)
  {
    if ParentPath(path) != "" {
      assert EntryPlaced(t, ParentPath(path));
    }
    JoinValid(ParentPath(path), name);
  }

  /** The bucket's structure survives every accepted request. */
  lemma EffectValid(t: Tree, r: Request, path: string, newId: nat)
    requires ValidTree(t) && Accepts(t, r, path) && FreshId(t, newId)
    ensures ValidTree(Effect(t, r, path, newId))
  {
    match r {
      case CreateFolder(parent, name) =>
        FreePlaceValid(t, parent, name, path);
        AddedValid(t, path, RemoteEntry(newId, parent, Directory, 0, 0, None, 0));
      case CreateFile(parent, name, size, hash) =>
        FreePlaceValid(t, parent, name, path);
        AddedValid(t, path, RemoteEntry(newId, parent, File, size, size, hash, 0));
      case ReplaceContent(_, _, _, size, hash) =>
        UpdatedValid(t, path, t.entries[path].(size := size, filled := size, hash := hash));
      case RemoveFile(_) => RemovedValid(t, path);
      case RemoveFolder(_) => RemovedValid(t, path);
    }
  }

  lemma {:induction false} SameFolder(t: Tree, p: string, q: string)
    requires ValidTree(t) && FolderAt(t, p) && FolderAt(t, q) && FolderId(t, p) == FolderId(t, q)
    ensures p == q
  {
    if p != "" && q != "" {
      assert SameObject(t.entries[p], t.entries[q]);
    }
  }

  /** A request names its target unambiguously. */
  lemma AcceptedPathUnique(t: Tree, r: Request, p: string, q: string)
    requires ValidTree(t) && Accepts(t, r, p) && Accepts(t, r, q)
    ensures p == q
  {
    if r.CreateFolder? || r.CreateFile? {
      SameFolder(t, ParentPath(p), ParentPath(q));
    } else {
      assert SameObject(t.entries[p], t.entries[q]);
    }
  }

  // ---- Running one action ----------------------------------------------------------------------

  /** The map from directory path to folder id kept by the executor. */
  ghost function FolderIds(t: Tree): map<string, nat> {
    map p | p in t.entries.Keys + {""} && FolderAt(t, p) :: FolderId(t, p)
  }

  /** The request the executor sends for an action, once it has looked up the parent folder. */
  function RequestFor(a: PlanAction, parent: nat, hash: Option<Digest>): Request
    requires !a.Conflict?
  {
    match a
    case CreateDirectory(path) => CreateFolder(parent, EntryName(path))
    case UploadFile(path, size) => CreateFile(parent, EntryName(path), size, hash)
    case ReplaceFile(path, id, size) => ReplaceContent(id, parent, EntryName(path), size, hash)
    case DeleteFile(_, id) => RemoveFile(id)
    case DeleteDirectory(_, id) => RemoveFolder(id)
  }

  function LocalHash(local: LocalManifest, path: string): Option<Digest> {
    if path in local.entries then local.entries[path].hash else None
  }

  /** What has to be done before: a missing parent has been created, a directory's remote children
      have been deleted. */
  ghost predicate Ready(job: Job, a: PlanAction, done: set<string>) {
    && (a.CreateDirectory? || a.UploadFile? ==>
          ParentPath(a.path) == "" || ParentPath(a.path) in job.remote.entries || ParentPath(a.path) in done)
    && (a.DeleteDirectory? ==>
          forall q :: q in job.remote.entries && ParentPath(q) == a.path ==> q in done)
  }

  /** An action of the plan that is about to be run on `t`. */
  ghost predicate Runnable(job: Job, t: Tree, done: set<string>, a: PlanAction) {
    && job.Valid() && job.NoConflicts() && Reached(job, t, done)
    && a.path in job.Paths() && job.Decision(a.path) == Some(a) && a.path !in done
    && Ready(job, a, done)
  }

  lemma ParentAvailable(job: Job, t: Tree, done: set<string>, a: PlanAction)
    requires Runnable(job, t, done, a) && (a.CreateDirectory? || a.UploadFile? || a.ReplaceFile?)
    ensures FolderAt(t, ParentPath(a.path)) && FolderStatus(t, ParentPath(a.path)) == 0
    ensures ValidPath(a.path)
  {
    var path, parent := a.path, ParentPath(a.path);
    assert path in job.local.entries;
    assert HasLocalParent(job.local, path);
    assert ParentIsWritable(job.remote, path) by {
      var decision := job.Decision(path);
    }
    if parent != "" {
      if a.ReplaceFile? {
        assert EntryPlaced(job.start, path);
      }
      assert PathReached(job, t, done, parent);
      var decision := job.Decision(parent);
      assert decision.Some? ==> !decision.value.Conflict?;
    }
  }

  /** Create and upload never meet a missing parent, a read-only parent or a taken name. */
  lemma CreationAccepted(job: Job, t: Tree, done: set<string>, a: PlanAction)
    requires Runnable(job, t, done, a) && (a.CreateDirectory? || a.UploadFile?)
    ensures FolderAt(t, ParentPath(a.path))
    ensures Accepts(t, RequestFor(a, FolderId(t, ParentPath(a.path)), LocalHash(job.local, a.path)), a.path)
  {
    ParentAvailable(job, t, done, a);
    var path, parent := a.path, FolderId(t, ParentPath(a.path));
    assert path !in t.entries by {
      assert PathReached(job, t, done, path);
    }
    assert FreePlace(t, parent, EntryName(path), path) by {
      JoinSplit(path);
      EntryNameValid(path);
    }
  }

  lemma ReplacementAccepted(job: Job, t: Tree, done: set<string>, a: PlanAction)
    requires Runnable(job, t, done, a) && a.ReplaceFile?
    ensures FolderAt(t, ParentPath(a.path))
    ensures Accepts(t, RequestFor(a, FolderId(t, ParentPath(a.path)), LocalHash(job.local, a.path)), a.path)
  {
    ParentAvailable(job, t, done, a);
    assert PathReached(job, t, done, a.path);
    assert EntryPlaced(t, a.path);
  }

  /** Whatever the scan has seen below a directory that is to be deleted is to be deleted as well. */
  lemma ChildIsDeletedToo(job: Job, path: string, child: string)
    requires job.Valid() && job.NoConflicts()
    requires path in job.Paths() && job.Decision(path).Some? && job.Decision(path).value.DeleteDirectory?
    requires child in job.Paths() && ParentPath(child) == path
    ensures child !in job.local.entries && child in job.remote.entries && job.Decision(child).Some?
  {
    assert EntryPlaced(job.start, path);
    assert child in job.local.entries ==> HasLocalParent(job.local, child);
    assert child in job.start.entries ==> EntryPlaced(job.start, child);
    if job.local.Protects(child) {
      UnscannedParentProtects(job.local, child);
    }
  }

  /** A directory is empty when its deletion is reached: its remote children are gone, and nothing
      local or protected ever lived below it. */
  lemma DeletedDirectoryIsEmpty(job: Job, t: Tree, done: set<string>, a: PlanAction)
    requires Runnable(job, t, done, a) && a.DeleteDirectory?
    ensures EmptyFolder(t, a.path)
  {
    forall q | q in job.Paths() && ParentPath(q) == a.path ensures q !in t.entries {
      ChildIsDeletedToo(job, a.path, q);
      assert PathReached(job, t, done, q);
      assert !job.Decision(q).value.Conflict?;
    }
  }

  lemma DeletionAccepted(job: Job, t: Tree, done: set<string>, a: PlanAction, parent: nat)
    requires Runnable(job, t, done, a) && (a.DeleteFile? || a.DeleteDirectory?)
    ensures Accepts(t, RequestFor(a, parent, LocalHash(job.local, a.path)), a.path)
  {
    assert PathReached(job, t, done, a.path);
    if a.DeleteDirectory? {
      DeletedDirectoryIsEmpty(job, t, done, a);
    }
  }

  lemma EffectElsewhere(t: Tree, r: Request, path: string, newId: nat, p: string)
    requires p != path
    ensures p in t.entries <==> p in Effect(t, r, path, newId).entries
    ensures p in t.entries ==> Effect(t, r, path, newId).entries[p] == t.entries[p]
  {
  }

  lemma EffectKeepsRoot(t: Tree, r: Request, path: string, newId: nat)
    ensures Effect(t, r, path, newId).rootId == t.rootId && Effect(t, r, path, newId).rootStatus == t.rootStatus
  {
  }

  lemma EffectExecuted(job: Job, t: Tree, a: PlanAction, parent: nat, newId: nat)
    requires a.path in job.Paths() && job.Decision(a.path) == Some(a) && !a.Conflict?
    requires a.path in t.entries ==> a.path in job.start.entries && t.entries[a.path] == job.start.entries[a.path]
    requires a.UploadFile? || a.ReplaceFile? ==> a.path in job.local.entries
    requires Accepts(t, RequestFor(a, parent, LocalHash(job.local, a.path)), a.path)
    ensures Executed(job, Effect(t, RequestFor(a, parent, LocalHash(job.local, a.path)), a.path, newId), a.path, a)
  {
  }

  /** Carrying out the request of a runnable action reaches the tree with one more path done. */
  lemma StepReached(job: Job, t: Tree, t': Tree, done: set<string>, a: PlanAction, r: Request, newId: nat)
    requires Runnable(job, t, done, a) && FreshId(t, newId)
    requires exists parent :: r == RequestFor(a, parent, LocalHash(job.local, a.path))
    requires Accepts(t, r, a.path) && t' == Effect(t, r, a.path, newId)
    ensures Reached(job, t', done + {a.path})
  {
    hide ValidTree, Accepts, RequestFor, Effect;
    var parent :| r == RequestFor(a, parent, LocalHash(job.local, a.path));
    EffectValid(t, r, a.path, newId);
    EffectKeepsRoot(t, r, a.path, newId);
    assert PathReached(job, t, done, a.path);
    EffectExecuted(job, t, a, parent, newId);
    forall p | p in t'.entries ensures p in job.Paths() {
      if p != a.path { EffectElsewhere(t, r, a.path, newId, p); }
    }
    forall p | p in job.Paths() ensures PathReached(job, t', done + {a.path}, p) {
      if p != a.path {
        assert PathReached(job, t, done, p);
        EffectElsewhere(t, r, a.path, newId, p);
        OtherPathReached(job, t, t', done, a.path, p);
      }
    }
  }

  lemma OtherPathReached(job: Job, t: Tree, t': Tree, done: set<string>, path: string, p: string)
    requires p in job.Paths() && p != path && PathReached(job, t, done, p)
    requires p in t.entries <==> p in t'.entries
    requires p in t.entries ==> t.entries[p] == t'.entries[p]
    ensures PathReached(job, t', done + {path}, p)
  {
  }
}

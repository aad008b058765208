/** What one call to the bucket does to a run (src/sync/mod.rs:213-318, 332-486). */
module Calls {
  import opened Paths
  import opened Manifests
  import opened Planner
  import opened Convergence
  import opened Execution
  import opened Orders
  import opened Batches
  import opened Server

  function PathSeq(actions: seq<PlanAction>): seq<string> {
    seq(|actions|, i requires 0 <= i < |actions| => actions[i].path)
  }

  // ---- One call of the run ---------------------------------------------------------------------

  /** The requests for the actions of one call, given the folder ids known before it. */
  ghost predicate RequestsFor(rs: seq<Request>, batch: seq<PlanAction>, local: LocalManifest, folderIds: map<string, nat>) {
    && |rs| == |batch|
    && forall i :: 0 <= i < |batch| ==> RequestMatches(rs[i], batch[i], local, folderIds)
  }

  ghost predicate RequestMatches(r: Request, a: PlanAction, local: LocalManifest, folderIds: map<string, nat>) {
    && !a.Conflict?
    && (NeedsParent(a) ==> ParentPath(a.path) in folderIds)
    && r == RequestFor(a, if NeedsParent(a) then folderIds[ParentPath(a.path)] else 0, LocalHash(local, a.path))
  }

  predicate NeedsParent(a: PlanAction) {
    a.CreateDirectory? || a.UploadFile? || a.ReplaceFile?
  }

  /** `folder_ids` after one action. */
  function RecordFolder(folderIds: map<string, nat>, a: PlanAction, id: nat): map<string, nat> {
    if a.CreateDirectory? then folderIds[a.path := id]
    else if a.DeleteDirectory? then folderIds - {a.path}
    else folderIds
  }

  function RecordFolders(folderIds: map<string, nat>, batch: seq<PlanAction>, replies: seq<Reply>): map<string, nat>
    requires |replies| == |batch| && forall i :: 0 <= i < |replies| ==> replies[i].Ok?
  {
    if batch == [] then folderIds
    else
      var n := |batch| - 1;
      RecordFolder(RecordFolders(folderIds, batch[..n], replies[..n]), batch[n], replies[n].value)
  }

  /** The state of a run after the first `k` actions of its order. */
  ghost predicate AtAction(job: Job, order: seq<PlanAction>, k: nat, s: BucketState, served: seq<string>) {
    && k <= |order|
    && ValidState(s)
    && Reached(job, s.tree, PathsOf(order[..k]))
    && s.served == served + PathSeq(order[..k])
  }

  /** The bucket stands between two actions. */
  ghost predicate InBetween(job: Job, order: seq<PlanAction>, s: BucketState, served: seq<string>) {
    exists k :: AtAction(job, order, k, s, served)
  }

  lemma NextDone(order: seq<PlanAction>, k: nat)
    requires k < |order|
    ensures PathsOf(order[..k + 1]) == PathsOf(order[..k]) + {order[k].path}
    ensures PathSeq(order[..k + 1]) == PathSeq(order[..k]) + [order[k].path]
  {
    assert order[..k + 1] == order[..k] + [order[k]];
  }

  lemma OrderRunnable(job: Job, actions: seq<PlanAction>, order: seq<PlanAction>, k: nat, s: BucketState, served: seq<string>)
    requires PlanOf(job, actions) && ValidOrder(actions, order) && k < |order| && AtAction(job, order, k, s, served)
    ensures Runnable(job, s.tree, PathsOf(order[..k]), order[k])
  {
    PlanMembers(job, actions, order);
    OrderIsReady(job, actions, order, k);
    assert order[k] in order;
    forall a | a in order[..k] ensures a.path != order[k].path {
    }
  }

  /** The request of a runnable action is accepted. */
  lemma MatchingAccepted(job: Job, t: Tree, done: set<string>, a: PlanAction, r: Request)
    requires Runnable(job, t, done, a) && RequestMatches(r, a, job.local, FolderIds(t))
    ensures Accepts(t, r, a.path)
  {
    if a.CreateDirectory? || a.UploadFile? {
      CreationAccepted(job, t, done, a);
    } else if a.ReplaceFile? {
      ReplacementAccepted(job, t, done, a);
    } else {
      DeletionAccepted(job, t, done, a, 0);
    }
  }

  lemma MatchingRequest(r: Request, a: PlanAction, local: LocalManifest, folderIds: map<string, nat>)
    requires RequestMatches(r, a, local, folderIds)
    ensures !a.Conflict? && exists parent :: r == RequestFor(a, parent, LocalHash(local, a.path))
  {
  }

  lemma NextIdIsFresh(s: BucketState)
    requires ValidState(s)
    ensures FreshId(s.tree, s.nextId)
  {
  }

  lemma OrderPathNotEmpty(job: Job, actions: seq<PlanAction>, order: seq<PlanAction>, k: nat)
    requires PlanOf(job, actions) && ValidOrder(actions, order) && k < |order|
    ensures order[k].path != ""
  {
    SameMembers(actions, order);
    assert order[k] in order;
    PlanPathsValid(job, actions, order[k]);
  }

  /** Serving the request of the next action advances the run and keeps `folder_ids` exact. */
  lemma ServeNext(
    job: Job, actions: seq<PlanAction>, order: seq<PlanAction>, k: nat, s: BucketState, served: seq<string>, r: Request)
    requires PlanOf(job, actions) && ValidOrder(actions, order) && k < |order| && AtAction(job, order, k, s, served)
    requires RequestMatches(r, order[k], job.local, FolderIds(s.tree))
    ensures Accepts(s.tree, r, order[k].path)
    ensures Serve(s, r).1.Ok? && AtAction(job, order, k + 1, Serve(s, r).0, served)
    ensures FolderIds(Serve(s, r).0.tree) == RecordFolder(FolderIds(s.tree), order[k], Serve(s, r).1.value)
  {
    hide PlanOf, ValidOrder, Runnable, Reached, Accepts, PathsOf, RequestMatches, Serve, Effect, ValidState, FolderIds,
         RequestFor, FreshId, RecordFolder;
    var a, done := order[k], PathsOf(order[..k]);
    OrderRunnable(job, actions, order, k, s, served);
    MatchingAccepted(job, s.tree, done, a, r);
    ServeAccepted(s, r, a.path);
    MatchingRequest(r, a, job.local, FolderIds(s.tree));
    NextIdIsFresh(s);
    StepReached(job, s.tree, Effect(s.tree, r, a.path, s.nextId), done, a, r, s.nextId);
    NextDone(order, k);
    OrderPathNotEmpty(job, actions, order, k);
    FolderIdsAfter(s, r, a, job.local);
  }

  lemma FolderIdsPut(t: Tree, path: string, e: RemoteEntry)
    requires path != ""
    ensures FolderIds(t.(entries := t.entries[path := e]))
            == if e.kind == Directory then FolderIds(t)[path := e.id] else FolderIds(t) - {path}
  {
  }

  lemma FolderIdsDrop(t: Tree, path: string)
    requires path != ""
    ensures FolderIds(t.(entries := t.entries - {path})) == FolderIds(t) - {path}
  {
  }

  lemma FolderIdsAfter(s: BucketState, r: Request, a: PlanAction, local: LocalManifest)
    requires RequestMatches(r, a, local, FolderIds(s.tree)) && Accepts(s.tree, r, a.path)
    requires a.path != ""
    ensures FolderIds(Effect(s.tree, r, a.path, s.nextId)) == RecordFolder(FolderIds(s.tree), a, AffectedId(s, r))
  {
    var t := s.tree;
    assert a.path in FolderIds(t) ==> FolderAt(t, a.path);
    match r {
      case CreateFolder(parent, _) =>
        FolderIdsPut(t, a.path, RemoteEntry(s.nextId, parent, Directory, 0, 0, None, 0));
      case CreateFile(parent, _, size, hash) =>
        FolderIdsPut(t, a.path, RemoteEntry(s.nextId, parent, File, size, size, hash, 0));
      case ReplaceContent(_, _, _, size, hash) =>
        FolderIdsPut(t, a.path, t.entries[a.path].(size := size, filled := size, hash := hash));
      case RemoveFile(_) => FolderIdsDrop(t, a.path);
      case RemoveFolder(_) => FolderIdsDrop(t, a.path);
    }
  }

  // ---- Batches within the order -----------------------------------------------------------------

  /** A run: the job, its conflict-free plan, the order in which it is executed, and what the bucket
      had served before. */
  datatype RawRun = Run(job: Job, actions: seq<PlanAction>, order: seq<PlanAction>, served: seq<string>)
  {
    ghost predicate Valid() {
      PlanOf(job, actions) && ValidOrder(actions, order)
    }

    ghost predicate At(k: nat, s: BucketState) {
      AtAction(job, order, k, s, served)
    }

    /** The bucket stands between two actions of the run. */
    ghost predicate Between(s: BucketState) {
      InBetween(job, order, s, served)
    }

    /** One action, or several that all create something. */
    ghost predicate Creations(i: nat, j: nat) {
      && i < j <= |order|
      && (j == i + 1 || forall k :: i <= k < j ==> order[k].CreateDirectory? || order[k].UploadFile?)
    }

    /** The actions `order[i..j]` can be sent in one call: none of them waits for another. */
    ghost predicate OneCall(i: nat, j: nat) {
      Creations(i, j) && forall k :: i <= k < j ==> Ready(job, order[k], PathsOf(order[..i]))
    }
  }

  const EMPTY_JOB :=
    Job(LocalManifest(map[], {}, []), Tree(map[], 0, 0), RemoteManifest(map[], 0, [], []), PlanOptions(false, false))

  type Run = r: RawRun | r.Valid() ghost witness Run(EMPTY_JOB, [], [], [])

  lemma SingleCall(run: Run, k: nat)
    requires k < |run.order|
    ensures run.OneCall(k, k + 1)
  {
    OrderIsReady(run.job, run.actions, run.order, k);
  }

  lemma ReadyBeforeBatch(run: Run, i: nat, k: nat)
    requires i <= k < |run.order|
    requires forall m :: i <= m < k ==> run.order[m].path != ParentPath(run.order[k].path)
    requires run.order[k].CreateDirectory? || run.order[k].UploadFile?
    ensures Ready(run.job, run.order[k], PathsOf(run.order[..i]))
  {
    OrderIsReady(run.job, run.actions, run.order, k);
    var parent := ParentPath(run.order[k].path);
    if parent in PathsOf(run.order[..k]) {
      var a :| a in run.order[..k] && a.path == parent;
      var m :| 0 <= m < k && run.order[m] == a;
      assert m < i && run.order[..i][m] == a;
    }
  }

  lemma OrderPathsValid(run: Run, k: nat)
    requires k < |run.order|
    ensures ValidPath(run.order[k].path)
    ensures NeedsParent(run.order[k]) ==>
              run.order[k].path in run.job.local.entries && HasLocalParent(run.job.local, run.order[k].path)
    ensures run.order[k].UploadFile? ==> run.job.local.entries[run.order[k].path].kind == File
  {
    SameMembers(run.actions, run.order);
    assert run.order[k] in run.order;
    PlanPathsValid(run.job, run.actions, run.order[k]);
    PlanElements(run.actions, run.job.local, run.job.remote, run.job.o);
    if NeedsParent(run.order[k]) {
      PlannedLocally(run.job, run.order[k]);
    }
  }

  lemma PlannedLocally(job: Job, a: PlanAction)
    requires job.Valid() && a.path in job.Paths() && job.Decision(a.path) == Some(a) && NeedsParent(a)
    ensures a.path in job.local.entries && HasLocalParent(job.local, a.path)
    ensures a.UploadFile? ==> job.local.entries[a.path].kind == File
  {
    assert a.path in job.local.entries;
    assert HasLocalParent(job.local, a.path);
  }

  lemma DirectoryBatchIsOneCall(run: Run, i: nat, j: nat)
    requires i < j <= |run.order| && DirectoryBatch(run.order[i..j])
    ensures run.OneCall(i, j)
  {
    var batch := run.order[i..j];
    forall k | i <= k < j
      ensures run.order[k].CreateDirectory? && Ready(run.job, run.order[k], PathsOf(run.order[..i]))
    {
      assert run.order[k] == batch[k - i];
      OrderPathsValid(run, k);
      forall m | i <= m < k ensures run.order[m].path != ParentPath(run.order[k].path) {
        assert run.order[m] == batch[m - i];
        BatchHoldsNoParent(batch, run.order[m], run.order[k]);
      }
      ReadyBeforeBatch(run, i, k);
    }
  }

  lemma UploadBatchIsOneCall(run: Run, i: nat, j: nat)
    requires i < j <= |run.order| && forall k :: i <= k < j ==> run.order[k].UploadFile?
    ensures run.OneCall(i, j)
  {
    forall k | i <= k < j ensures Ready(run.job, run.order[k], PathsOf(run.order[..i])) {
      OrderPathsValid(run, k);
      forall m | i <= m < k ensures run.order[m].path != ParentPath(run.order[k].path) {
        OrderPathsValid(run, m);
      }
      ReadyBeforeBatch(run, i, k);
    }
  }

  /** Every action of a call finds its parent's id in `folder_ids`. */
  lemma ParentIsKnown(run: Run, i: nat, j: nat, k: nat, s: BucketState)
    requires run.OneCall(i, j) && i <= k < j && run.At(i, s)
    ensures NeedsParent(run.order[k]) ==> ParentPath(run.order[k].path) in FolderIds(s.tree)
    ensures !run.order[k].Conflict?
  {
    var done, a := PathsOf(run.order[..i]), run.order[k];
    PlanMembers(run.job, run.actions, run.order);
    assert a in run.order;
    forall b | b in run.order[..i] ensures b.path != a.path {
    }
    assert Runnable(run.job, s.tree, done, a);
    if NeedsParent(a) {
      ParentAvailable(run.job, s.tree, done, a);
    }
  }

  ghost predicate Known(before: map<string, nat>, after: map<string, nat>) {
    forall p :: p in before ==> p in after && after[p] == before[p]
  }

  lemma RecordMore(ids: map<string, nat>, batch: seq<PlanAction>, replies: seq<Reply>, a: PlanAction, reply: Reply)
    requires |replies| == |batch| && reply.Ok? && forall m :: 0 <= m < |replies| ==> replies[m].Ok?
    ensures RecordFolders(ids, batch + [a], replies + [reply]) == RecordFolder(RecordFolders(ids, batch, replies), a, reply.value)
  {
    assert (batch + [a])[..|batch|] == batch && (replies + [reply])[..|replies|] == replies;
  }

  /** One request of a call, built from folder ids that are still good. */
  lemma StepServed(run: Run, k: nat, s: BucketState, ids: map<string, nat>, r: Request)
    requires k < |run.order| && run.At(k, s)
    requires RequestMatches(r, run.order[k], run.job.local, ids) && Known(ids, FolderIds(s.tree))
    ensures Serve(s, r).1.Ok? && run.At(k + 1, Serve(s, r).0)
    ensures FolderIds(Serve(s, r).0.tree) == RecordFolder(FolderIds(s.tree), run.order[k], Serve(s, r).1.value)
    ensures run.order[k].CreateDirectory? || run.order[k].UploadFile? ==> Known(ids, FolderIds(Serve(s, r).0.tree))
  {
    ServeNext(run.job, run.actions, run.order, k, s, run.served, r);
    if run.order[k].CreateDirectory? || run.order[k].UploadFile? {
      CreationKeepsFolders(s, run.order[k], r);
    }
  }

  /** Induction over the requests of a call. */
  lemma {:induction false} ServeAllInduction(
    inv: (nat, BucketState, seq<Reply>) -> bool, s: BucketState, rs: seq<Request>, n: nat)
    requires n <= |rs| && inv(0, s, [])
    requires forall m: nat, s1, replies {:trigger inv(m, s1, replies), Serve(s1, rs[m])} ::
      m < |rs| && inv(m, s1, replies) ==> inv(m + 1, Serve(s1, rs[m]).0, replies + [Serve(s1, rs[m]).1])
    ensures inv(n, ServeAll(s, rs[..n]).0, ServeAll(s, rs[..n]).1)
  {
    if n == 0 {
      assert rs[..0] == [];
    } else {
      ServeAllInduction(inv, s, rs, n - 1);
      assert rs[..n][..n - 1] == rs[..n - 1];
    }
  }

  lemma CreationKeepsFolders(s: BucketState, a: PlanAction, r: Request)
    requires ValidState(s) && Accepts(s.tree, r, a.path) && (r.CreateFolder? || r.CreateFile?)
    ensures Known(FolderIds(s.tree), FolderIds(Serve(s, r).0.tree))
  {
    ServeAccepted(s, r, a.path);
    var t, t' := s.tree, Serve(s, r).0.tree;
    assert forall p :: p in t.entries ==> p in t'.entries && t'.entries[p] == t.entries[p];
  }

  /** The client's view after `m` requests of the call `order[i..j]`: all replies are positive, and
      `now` is `folder_ids` with the replies recorded. Creations do not disturb the folder ids from
      which the remaining requests were built. */
  ghost predicate Recorded(
    order: seq<PlanAction>, i: nat, j: nat, ids: map<string, nat>, m: nat, now: map<string, nat>, replies: seq<Reply>)
  {
    && i + m <= j <= |order| && |replies| == m
    && (forall r :: 0 <= r < |replies| ==> replies[r].Ok?)
    && now == RecordFolders(ids, order[i..i + m], replies)
    && (i + m < j ==> Known(ids, now))
  }

  lemma RecordedStep(
    order: seq<PlanAction>, i: nat, j: nat, ids: map<string, nat>, m: nat, now: map<string, nat>, replies: seq<Reply>,
    next: map<string, nat>, reply: Reply)
    requires i + m < j && Recorded(order, i, j, ids, m, now, replies) && reply.Ok?
    requires next == RecordFolder(now, order[i + m], reply.value)
    requires i + m + 1 < j ==> Known(ids, next)
    ensures Recorded(order, i, j, ids, m + 1, next, replies + [reply])
  {
    assert order[i..i + m + 1] == order[i..i + m] + [order[i + m]];
    RecordMore(ids, order[i..i + m], replies, order[i + m], reply);
  }

  ghost predicate Midway(run: Run, i: nat, j: nat, ids: map<string, nat>, m: nat, s: BucketState, replies: seq<Reply>) {
    && Recorded(run.order, i, j, ids, m, FolderIds(s.tree), replies)
    && run.At(i + m, s)
  }

  /** One call, served from beginning to end: every request is accepted, the run advances by the whole
      batch, and recording the replies keeps `folder_ids` exact. */
  lemma CallServed(run: Run, i: nat, j: nat, s: BucketState, ids: map<string, nat>, rs: seq<Request>)
    requires run.Creations(i, j) && run.At(i, s) && ids == FolderIds(s.tree)
    requires RequestsFor(rs, run.order[i..j], run.job.local, ids)
    ensures run.At(j, ServeAll(s, rs).0)
    ensures Recorded(run.order, i, j, ids, j - i, FolderIds(ServeAll(s, rs).0.tree), ServeAll(s, rs).1)
  {
    hide AtAction, FolderIds, Serve, ServeAll, RequestMatches;
    var inv := (m: nat, s1: BucketState, replies: seq<Reply>) => Midway(run, i, j, ids, m, s1, replies);
    assert run.order[i..i] == [];
    forall m: nat, s1, replies | m < |rs| && inv(m, s1, replies)
      ensures inv(m + 1, Serve(s1, rs[m]).0, replies + [Serve(s1, rs[m]).1])
    {
      assert run.order[i..j][m] == run.order[i + m];
      assert RequestMatches(rs[m], run.order[i..j][m], run.job.local, ids);
      StepServed(run, i + m, s1, ids, rs[m]);
      RecordedStep(run.order, i, j, ids, m, FolderIds(s1.tree), replies, FolderIds(Serve(s1, rs[m]).0.tree), Serve(s1, rs[m]).1);
    }
    ServeAllInduction(inv, s, rs, |rs|);
    assert rs[..|rs|] == rs;
  }
}

/** The bucket's limit on the number of children of a folder. The local scan checks it for local entries
    only (src/sync/local.rs:253-258), whereas the folders of the bucket also hold what a push retains, and
    until the end of the run what it deletes. */
module ChildLimit {
  import opened Collections
  import opened Paths
  import opened Manifests
  import opened ActionOrder
  import opened Planner
  import opened Convergence
  import opened Execution
  import opened Orders
  import opened Server
  import opened Calls
  import opened Executor

  predicate IsCreation(a: PlanAction) {
    a.CreateDirectory? || a.UploadFile?
  }

  predicate IsDeletion(a: PlanAction) {
    a.DeleteFile? || a.DeleteDirectory?
  }

  ghost function Children(t: Tree, folder: string): set<string> {
    set p | p in t.entries && ParentPath(p) == folder
  }

  /** The children of a folder in the union of both trees. */
  ghost function Siblings(job: Job, folder: string): set<string> {
    set p | p in job.Paths() && ParentPath(p) == folder
  }

  // ---- Deletions come last ---------------------------------------------------------------------

  ghost predicate CreationsFirst(order: seq<PlanAction>) {
    forall i, j {:trigger order[i], order[j]} :: 0 <= i < j < |order| ==> !(IsDeletion(order[i]) && IsCreation(order[j]))
  }

  lemma SortedCreationsFirst(actions: seq<PlanAction>)
    requires SortedActions(actions)
    ensures CreationsFirst(actions)
  {
    forall i, j | 0 <= i < j < |actions| ensures !(IsDeletion(actions[i]) && IsCreation(actions[j])) {
      assert !ActionLess(actions[j], actions[i]);
    }
  }

  lemma ExecutionCreatesFirst(actions: seq<PlanAction>, batched: bool)
    requires SortedActions(actions)
    ensures CreationsFirst(ExecutionOrder(actions, batched))
  {
    SortedCreationsFirst(actions);
    if batched {
      var d, s, r := Select(actions, Directories), Select(actions, SmallFiles), Select(actions, Others);
      SelectElements(actions, Directories);
      SelectElements(actions, SmallFiles);
      SelectSorted(actions, Others);
      SortedCreationsFirst(r);
      var order := d + s + r;
      forall i, j | 0 <= i < j < |order| ensures !(IsDeletion(order[i]) && IsCreation(order[j])) {
        if i < |d| {
          assert order[i] in d;
        } else if i < |d| + |s| {
          assert order[i] == s[i - |d|] && order[i] in s;
        } else {
          assert order[i] == r[i - |d| - |s|] && order[j] == r[j - |d| - |s|];
        }
      }
    }
  }

  // ---- How many children a folder has ----------------------------------------------------------

  /** What is still to be created in a folder from the `k`-th action on. */
  ghost function Pending(order: seq<PlanAction>, k: nat, folder: string): set<string> {
    set i | k <= i < |order| && IsCreation(order[i]) && ParentPath(order[i].path) == folder :: order[i].path
  }

  lemma PrefixDone(order: seq<PlanAction>, k: nat)
    requires k <= |order|
    ensures forall i :: 0 <= i < k ==> order[i].path in PathsOf(order[..k])
  {
    forall i | 0 <= i < k ensures order[i].path in PathsOf(order[..k]) {
      assert order[..k][i] in order[..k];
    }
  }

  lemma CreationsAreNew(run: Run)
    ensures forall i :: 0 <= i < |run.order| && IsCreation(run.order[i]) ==>
              run.order[i].path in run.job.Paths() && run.order[i].path !in run.job.start.entries
  {
    PlanMembers(run.job, run.actions, run.order);
    forall i | 0 <= i < |run.order| && IsCreation(run.order[i])
      ensures run.order[i].path in run.job.Paths() && run.order[i].path !in run.job.start.entries
    {
      assert run.order[i] in run.order;
    }
  }

  /** Until the first deletion, everything is there but what is still to be created. */
  lemma PresentIffNotPending(run: Run, k: nat, t: Tree, p: string)
    requires k < |run.order| && CreationsFirst(run.order) && IsCreation(run.order[k])
    requires Reached(run.job, t, PathsOf(run.order[..k])) && p in run.job.Paths()
    ensures p in t.entries <==> p !in Pending(run.order, k, ParentPath(p))
  {
    var job, order, done := run.job, run.order, PathsOf(run.order[..k]);
    PlanMembers(job, run.actions, order);
    CreationsAreNew(run);
    PrefixDone(order, k);
    assert PathReached(job, t, done, p);
    DecisionKeepsPath(job.local, job.remote, job.o, p);
    if p in done {
      var i :| 0 <= i < k && order[i].path == p;
      assert order[i] in order && job.Decision(p) == Some(order[i]);
      assert !IsDeletion(order[i]);
      assert p in t.entries;
    } else if p !in job.start.entries {
      var a := job.Decision(p).value;
      assert a in order;
      assert p in Pending(order, k, ParentPath(p));
    }
  }

  lemma ChildrenBefore(run: Run, k: nat, t: Tree, folder: string)
    requires k < |run.order| && CreationsFirst(run.order) && IsCreation(run.order[k])
    requires Reached(run.job, t, PathsOf(run.order[..k]))
    ensures Children(t, folder) == Siblings(run.job, folder) - Pending(run.order, k, folder)
    ensures Pending(run.order, k, folder) <= Siblings(run.job, folder)
  {
    CreationsAreNew(run);
    forall p ensures p in Children(t, folder) <==> p in Siblings(run.job, folder) - Pending(run.order, k, folder) {
      if p in run.job.Paths() {
        PresentIffNotPending(run, k, t, p);
      }
    }
  }

  // ---- When the limit is kept ------------------------------------------------------------------

  /** The bucket's root folder itself is not limited. */
  predicate Limited(parentDepth: nat, folder: string) {
    parentDepth > 0 || folder != ""
  }

  /** When the turn of the `k`-th action comes, its folder has room for another child. */
  ghost predicate HasRoom(run: Run, k: nat, maxChildren: nat)
    requires k < |run.order|
  {
    forall t {:trigger Reached(run.job, t, PathsOf(run.order[..k]))} :: Reached(run.job, t, PathsOf(run.order[..k])) ==>
      |Children(t, ParentPath(run.order[k].path))| < maxChildren
  }

  predicate CreatesInLimited(a: PlanAction, parentDepth: nat) {
    IsCreation(a) && Limited(parentDepth, ParentPath(a.path))
  }

  ghost predicate NeverFull(run: Run, parentDepth: nat, maxChildren: nat) {
    forall k {:trigger HasRoom(run, k, maxChildren)} ::
      0 <= k < |run.order| && CreatesInLimited(run.order[k], parentDepth) ==> HasRoom(run, k, maxChildren)
  }

  /** Counting both trees, no folder in which something is created has too many children. */
  ghost predicate UnionFits(run: Run, parentDepth: nat, maxChildren: nat) {
    forall a :: a in run.actions && (a.CreateDirectory? || a.UploadFile?) && (ParentPath(a.path) != "" || parentDepth > 0) ==>
      |Siblings(run.job, ParentPath(a.path))| <= maxChildren
  }

  lemma RoomIfFits(run: Run, k: nat, maxChildren: nat)
    requires k < |run.order| && CreationsFirst(run.order) && IsCreation(run.order[k])
    requires |Siblings(run.job, ParentPath(run.order[k].path))| <= maxChildren
    ensures HasRoom(run, k, maxChildren)
  {
    var folder := ParentPath(run.order[k].path);
    forall t | Reached(run.job, t, PathsOf(run.order[..k])) ensures |Children(t, folder)| < maxChildren {
      ChildrenBefore(run, k, t, folder);
      assert run.order[k].path in Pending(run.order, k, folder);
      SubsetSize(Children(t, folder), Siblings(run.job, folder) - {run.order[k].path});
    }
  }

  lemma {:induction false} LastCreation(order: seq<PlanAction>, k: nat, folder: string) returns (last: nat)
    requires k < |order| && IsCreation(order[k]) && ParentPath(order[k].path) == folder
    ensures k <= last < |order| && IsCreation(order[last]) && ParentPath(order[last].path) == folder
    ensures Pending(order, last, folder) == {order[last].path}
    decreases |order| - k
  {
    if i :| k < i < |order| && IsCreation(order[i]) && ParentPath(order[i].path) == folder {
      last := LastCreation(order, i, folder);
    } else {
      last := k;
    }
  }

  /** Each point of a run is reached. */
  lemma {:induction false} PointReached(run: Run, start: BucketState, k: nat) returns (s: BucketState)
    requires run.At(0, start) && k <= |run.order|
    ensures run.At(k, s)
  {
    if k == 0 {
      s := start;
    } else {
      var before := PointReached(run, start, k - 1);
      SingleCall(run, k - 1);
      ParentIsKnown(run, k - 1, k, k - 1, before);
      var a := run.order[k - 1];
      var parent := if NeedsParent(a) then FolderIds(before.tree)[ParentPath(a.path)] else 0;
      var r := RequestFor(a, parent, LocalHash(run.job.local, a.path));
      ServeNext(run.job, run.actions, run.order, k - 1, before, run.served, r);
      s := Serve(before, r).0;
    }
  }

  lemma FitsIfRoom(run: Run, start: BucketState, k: nat, parentDepth: nat, maxChildren: nat)
    requires run.At(0, start) && CreationsFirst(run.order) && NeverFull(run, parentDepth, maxChildren)
    requires k < |run.order| && CreatesInLimited(run.order[k], parentDepth)
    ensures |Siblings(run.job, ParentPath(run.order[k].path))| <= maxChildren
  {
    var folder := ParentPath(run.order[k].path);
    var last := LastCreation(run.order, k, folder);
    var s := PointReached(run, start, last);
    assert HasRoom(run, last, maxChildren);
    ChildrenBefore(run, last, s.tree, folder);
    assert Siblings(run.job, folder) == Children(s.tree, folder) + {run.order[last].path};
  }

  /** A push never meets a full folder if and only if, counting the entries of both trees, no folder in
      which it creates something has more children than the bucket allows. What the push is going to
      delete counts as well, because deletions come last. */
  lemma NeverFullIff(run: Run, batched: bool, start: BucketState, parentDepth: nat, maxChildren: nat)
    requires run.order == ExecutionOrder(run.actions, batched) && run.At(0, start)
    ensures NeverFull(run, parentDepth, maxChildren) <==> UnionFits(run, parentDepth, maxChildren)
  {
    PlanIsSorted(run);
    ExecutionCreatesFirst(run.actions, batched);
    SameMembers(run.actions, run.order);
    if UnionFits(run, parentDepth, maxChildren) {
      forall k | 0 <= k < |run.order| && CreatesInLimited(run.order[k], parentDepth)
        ensures HasRoom(run, k, maxChildren)
      {
        assert run.order[k] in run.actions;
        RoomIfFits(run, k, maxChildren);
      }
    }
    if NeverFull(run, parentDepth, maxChildren) {
      forall a | a in run.actions && CreatesInLimited(a, parentDepth)
        ensures |Siblings(run.job, ParentPath(a.path))| <= maxChildren
      {
        assert a in run.order;
        var k :| 0 <= k < |run.order| && run.order[k] == a;
        FitsIfRoom(run, start, k, parentDepth, maxChildren);
      }
    }
  }
}

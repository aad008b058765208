/** Orders in which the actions of a plan can be executed: the planner's own order, and the order
    produced by batching (src/sync/mod.rs:208-219). */
module Orders {
  import opened ActionOrder
  import opened Collections
  import opened FileChunks
  import opened Paths
  import opened Manifests
  import opened Planner
  import opened Convergence
  import opened Execution

  /** `a` has to be executed before `b`. */
  predicate Precedes(a: PlanAction, b: PlanAction) {
    || (a.CreateDirectory? && (b.CreateDirectory? || b.UploadFile?) && a.path == ParentPath(b.path))
    || ((a.DeleteFile? || a.DeleteDirectory?) && b.DeleteDirectory? && ParentPath(a.path) == b.path)
  }

  /** A rearrangement of the plan in which nothing is executed before something it needs. */
  ghost predicate ValidOrder(actions: seq<PlanAction>, order: seq<PlanAction>) {
    && multiset(order) == multiset(actions)
    && forall i, j {:trigger Precedes(order[j], order[i])} :: 0 <= i < j < |order| ==> !Precedes(order[j], order[i])
  }

  ghost predicate PlanOf(job: Job, actions: seq<PlanAction>) {
    job.Valid() && IsPlan(actions, job.local, job.remote, job.o) && ConflictFree(actions)
  }

  lemma PlanMembers(job: Job, actions: seq<PlanAction>, order: seq<PlanAction>)
    requires PlanOf(job, actions) && multiset(order) == multiset(actions)
    ensures forall a :: a in order <==> a.path in job.Paths() && job.Decision(a.path) == Some(a)
    ensures forall i, j :: 0 <= i < j < |order| ==> order[i].path != order[j].path
    ensures ConflictFree(order) && job.NoConflicts()
  {
    PlanElements(actions, job.local, job.remote, job.o);
    NoConflictsInPlan(job, actions);
    assert forall a :: a in order <==> a in multiset(order);
    assert forall a :: a in actions <==> a in multiset(actions);
    forall i, j | 0 <= i < j < |order| ensures order[i].path != order[j].path {
      assert order[i] in order && order[j] in order;
      RepeatedElement(order, i, j);
    }
  }

  lemma SameMembers(a: seq<PlanAction>, b: seq<PlanAction>)
    requires multiset(a) == multiset(b)
    ensures forall x :: x in a <==> x in b
  {
    assert forall x :: x in a <==> x in multiset(a);
    assert forall x :: x in b <==> x in multiset(b);
  }

  /** In a valid order every action is ready when its turn comes. */
  lemma OrderIsReady(job: Job, actions: seq<PlanAction>, order: seq<PlanAction>, k: nat)
    requires PlanOf(job, actions) && ValidOrder(actions, order) && k < |order|
    ensures Ready(job, order[k], PathsOf(order[..k]))
  {
    PlanMembers(job, actions, order);
    var a, done := order[k], PathsOf(order[..k]);
    assert a in order;
    SameMembers(actions, order);
    if a.CreateDirectory? || a.UploadFile? {
      var parent := ParentPath(a.path);
      if parent != "" && parent !in job.remote.entries {
        MissingParentIsCreated(job, a.path);
        assert CreateDirectory(parent) in order;
        PlanPathsValid(job, actions, a);
        PlanPathsValid(job, actions, CreateDirectory(parent));
        EarlierPath(order, CreateDirectory(parent), k);
      }
    }
    if a.DeleteDirectory? {
      forall q | q in job.remote.entries && ParentPath(q) == a.path ensures q in done {
        ChildIsDeletedToo(job, a.path, q);
        DecisionKeepsPath(job.local, job.remote, job.o, q);
        assert !job.Decision(q).value.Conflict?;
        assert job.Decision(q).value in order;
        PlanPathsValid(job, actions, a);
        PlanPathsValid(job, actions, job.Decision(q).value);
        EarlierPath(order, job.Decision(q).value, k);
      }
    }
  }

  lemma MissingParentIsCreated(job: Job, path: string)
    requires job.Valid() && job.NoConflicts()
    requires path in job.local.entries && path !in job.remote.entries
    requires ParentPath(path) != "" && ParentPath(path) !in job.remote.entries
    ensures ParentPath(path) in job.Paths() && job.Decision(ParentPath(path)) == Some(CreateDirectory(ParentPath(path)))
  {
    assert HasLocalParent(job.local, path);
    var decision := job.Decision(ParentPath(path));
    assert !decision.value.Conflict?;
  }

  lemma EarlierPath(order: seq<PlanAction>, a: PlanAction, k: nat)
    requires a in order && k < |order| && Precedes(a, order[k])
    requires ValidPath(a.path) && ValidPath(order[k].path)
    requires forall i, j :: 0 <= i < j < |order| ==> !Precedes(order[j], order[i])
    ensures a.path in PathsOf(order[..k])
  {
    ParentValid(a.path);
    ParentValid(order[k].path);
    var i :| 0 <= i < |order| && order[i] == a;
    assert i < k;
    assert order[..k][i] == a;
  }

  /** Prerequisites sort first. */
  lemma PrerequisiteSortsFirst(a: PlanAction, b: PlanAction)
    requires Precedes(a, b) && ValidPath(a.path) && ValidPath(b.path)
    ensures ActionLess(a, b)
  {
    ParentDepth(a.path);
    ParentDepth(b.path);
  }

  lemma PlanPathsValid(job: Job, actions: seq<PlanAction>, a: PlanAction)
    requires PlanOf(job, actions) && a in actions
    ensures ValidPath(a.path)
  {
    PlanElements(actions, job.local, job.remote, job.o);
    assert a.path in job.local.entries ==> HasLocalParent(job.local, a.path);
    assert a.path in job.start.entries ==> EntryPlaced(job.start, a.path);
  }

  lemma SortedIsValidOrder(job: Job, actions: seq<PlanAction>)
    requires PlanOf(job, actions)
    ensures ValidOrder(actions, actions)
  {
    forall i, j | 0 <= i < j < |actions| ensures !Precedes(actions[j], actions[i]) {
      PlanPathsValid(job, actions, actions[i]);
      PlanPathsValid(job, actions, actions[j]);
      if Precedes(actions[j], actions[i]) {
        PrerequisiteSortsFirst(actions[j], actions[i]);
      }
    }
  }

  // ---- Batched order ---------------------------------------------------------------------------

  const MAX_BATCH_ITEMS: nat := 32
  const MAX_BATCH_INLINE_BYTES: nat := 6 * CHUNK_SIZE
  const MAX_BATCH_FILE_BYTES: nat := CHUNK_SIZE

  predicate IsSmallUpload(a: PlanAction) {
    a.UploadFile? && a.size <= MAX_BATCH_FILE_BYTES
  }

  /** The test with which the main loop skips what the batches have done. */
  predicate SkippedByMainLoop(a: PlanAction) {
    a.CreateDirectory? || IsSmallUpload(a)
  }

  datatype Group = Directories | SmallFiles | Others

  function GroupOf(a: PlanAction): Group {
    if a.CreateDirectory? then Directories else if IsSmallUpload(a) then SmallFiles else Others
  }

  /** The actions of one group, in order. */
  function Select(actions: seq<PlanAction>, g: Group): seq<PlanAction> {
    if actions == [] then []
    else
      var last := actions[|actions| - 1];
      Select(actions[..|actions| - 1], g) + if GroupOf(last) == g then [last] else []
  }

  /** Directories by depth, then small files, then everything else. */
  function BatchedOrder(actions: seq<PlanAction>): seq<PlanAction> {
    Select(actions, Directories) + Select(actions, SmallFiles) + Select(actions, Others)
  }

  lemma {:induction false} SelectElements(actions: seq<PlanAction>, g: Group)
    ensures forall a :: a in Select(actions, g) <==> a in actions && GroupOf(a) == g
  {
    if actions != [] {
      SelectElements(actions[..|actions| - 1], g);
      assert actions == actions[..|actions| - 1] + [actions[|actions| - 1]];
    }
  }

  lemma {:induction false} SelectSorted(actions: seq<PlanAction>, g: Group)
    requires SortedActions(actions)
    ensures SortedActions(Select(actions, g))
  {
    if actions != [] {
      var init, last := actions[..|actions| - 1], actions[|actions| - 1];
      SelectSorted(init, g);
      SelectElements(init, g);
      var rest := Select(init, g);
      forall i | 0 <= i < |rest| ensures !ActionLess(last, rest[i]) {
        assert rest[i] in init;
      }
    }
  }

  lemma {:induction false} GroupsCover(actions: seq<PlanAction>)
    ensures multiset(BatchedOrder(actions)) == multiset(actions)
  {
    if actions != [] {
      var init, last := actions[..|actions| - 1], actions[|actions| - 1];
      GroupsCover(init);
      assert actions == init + [last];
      MergeMultiset(Select(init, Directories), Select(init, SmallFiles), Select(init, Others), last, GroupOf(last));
    }
  }

  lemma MergeMultiset(d: seq<PlanAction>, s: seq<PlanAction>, r: seq<PlanAction>, a: PlanAction, g: Group)
    ensures multiset((d + if g == Directories then [a] else []) + (s + if g == SmallFiles then [a] else [])
                     + (r + if g == Others then [a] else []))
            == multiset(d + s + r) + multiset([a])
  {
    assert multiset(d + s + r) == multiset(d) + multiset(s) + multiset(r);
  }

  /** Batching rearranges the plan without executing anything too early. */
  lemma BatchedIsValidOrder(job: Job, actions: seq<PlanAction>)
    requires PlanOf(job, actions)
    ensures ValidOrder(actions, BatchedOrder(actions))
  {
    GroupsCover(actions);
    var d, s, r := Select(actions, Directories), Select(actions, SmallFiles), Select(actions, Others);
    SelectElements(actions, Directories);
    SelectElements(actions, SmallFiles);
    SelectElements(actions, Others);
    SelectedInOrder(job, actions, Directories);
    SelectedInOrder(job, actions, SmallFiles);
    SelectedInOrder(job, actions, Others);
    ConcatInOrder(d, s);
    ConcatInOrder(d + s, r);
  }

  ghost predicate InOrder(s: seq<PlanAction>) {
    forall i, j :: 0 <= i < j < |s| ==> !Precedes(s[j], s[i])
  }

  lemma SelectedInOrder(job: Job, actions: seq<PlanAction>, g: Group)
    requires PlanOf(job, actions)
    ensures InOrder(Select(actions, g))
  {
    SelectSorted(actions, g);
    SelectElements(actions, g);
    var s := Select(actions, g);
    forall i, j | 0 <= i < j < |s| ensures !Precedes(s[j], s[i]) {
      assert s[i] in s && s[j] in s;
      PlanPathsValid(job, actions, s[i]);
      PlanPathsValid(job, actions, s[j]);
      if Precedes(s[j], s[i]) {
        PrerequisiteSortsFirst(s[j], s[i]);
      }
    }
  }

  lemma ConcatInOrder(a: seq<PlanAction>, b: seq<PlanAction>)
    requires InOrder(a) && InOrder(b)
    requires forall x, y :: x in a && y in b ==> !Precedes(y, x)
    ensures InOrder(a + b)
  {
    var s := a + b;
    forall i, j | 0 <= i < j < |s| ensures !Precedes(s[j], s[i]) {
      if i < |a| && |a| <= j {
        assert s[i] in a && s[j] in b;
      }
    }
  }
}

/** Executing a conflict-free push plan on the bucket's tree: no step gets stuck, and planning again
    after any part of the run yields exactly the rest of the plan. */
module Convergence {
  import opened Collections
  import opened Paths
  import opened Manifests
  import opened Planner

  /** The synchronized subtree of the bucket, keyed by path. File ids and folder ids are separate
      number spaces; the root folder is the sync target. */
  datatype Tree = Tree(entries: map<string, RemoteEntry>, rootId: nat, rootStatus: int)

  predicate FolderAt(t: Tree, path: string) {
    path == "" || (path in t.entries && t.entries[path].kind == Directory)
  }

  function FolderId(t: Tree, path: string): nat
    requires FolderAt(t, path)
  {
    if path == "" then t.rootId else t.entries[path].id
  }

  function FolderStatus(t: Tree, path: string): int
    requires FolderAt(t, path)
  {
    if path == "" then t.rootStatus else t.entries[path].status
  }

  /** The structure the bucket keeps: every entry hangs below a folder and ids are unique. */
  ghost predicate ValidTree(t: Tree) {
    && (forall p {:trigger EntryPlaced(t, p)} :: p in t.entries ==> EntryPlaced(t, p))
    && (forall p, q {:trigger SameObject(t.entries[p], t.entries[q])} ::
          p in t.entries && q in t.entries && SameObject(t.entries[p], t.entries[q]) ==> p == q)
    && (forall p :: p in t.entries && t.entries[p].kind == Directory ==> t.entries[p].id != t.rootId)
  }

  predicate SameObject(a: RemoteEntry, b: RemoteEntry) {
    a.kind == b.kind && a.id == b.id
  }

  ghost predicate EntryPlaced(t: Tree, path: string)
    requires path in t.entries
  {
    ValidPath(path) && FolderAt(t, ParentPath(path)) && t.entries[path].parent == FolderId(t, ParentPath(path))
  }

  ghost predicate Complete(t: Tree) {
    forall p :: p in t.entries && t.entries[p].kind == File ==> t.entries[p].filled == t.entries[p].size
  }

  ghost function ConflictPaths(conflicts: seq<(string, string)>): set<string> {
    set c | c in conflicts :: c.0
  }

  ghost function IncompletePaths(entries: map<string, RemoteEntry>): set<string> {
    set p | p in entries && entries[p].kind == File && entries[p].filled != entries[p].size
  }

  /** What a remote scan reports about a tree (src/sync/remote.rs): its entries, and conflicts for
      exactly the incomplete files. */
  ghost predicate Scanned(m: RemoteManifest, t: Tree) {
    && m.entries == t.entries
    && m.rootStatus == t.rootStatus
    && ConflictPaths(m.conflicts) == IncompletePaths(t.entries)
  }

  lemma NoConflictsIffComplete(m: RemoteManifest, t: Tree)
    requires Scanned(m, t)
    ensures m.conflicts == [] <==> Complete(t)
  {
    if m.conflicts == [] {
      assert IncompletePaths(t.entries) == {};
      forall p | p in t.entries && t.entries[p].kind == File ensures t.entries[p].filled == t.entries[p].size {
        assert p !in IncompletePaths(t.entries);
      }
    } else {
      assert m.conflicts[0].0 in ConflictPaths(m.conflicts);
      assert m.conflicts[0].0 in IncompletePaths(t.entries);
    }
  }

  lemma OneMoreConflict(conflicts: seq<(string, string)>, c: (string, string))
    ensures ConflictPaths(conflicts + [c]) == ConflictPaths(conflicts) + {c.0}
  {
    assert (conflicts + [c])[|conflicts|] == c;
    forall d | d in conflicts ensures d in conflicts + [c] {
    }
  }

  // ---- How far a run has come ------------------------------------------------------------------

  /** The whole setting of a run: the scanned local tree, the remote tree at planning time with its
      scan, and the options. */
  datatype Job = Job(local: LocalManifest, start: Tree, remote: RemoteManifest, o: PlanOptions)
  {
    ghost function Paths(): set<string> {
      PathUnion(local, remote)
    }

    ghost function Decision(path: string): Option<PlanAction>
      requires path in Paths()
    {
      ActionFor(local, remote, o, path)
    }

    ghost predicate Valid() {
      && ScannedLocal(local)
      && ValidTree(start)
      && Scanned(remote, start)
    }

    /** `plan.has_conflicts()` is false. */
    ghost predicate NoConflicts() {
      && remote.conflicts == []
      && forall p {:trigger Decision(p)} :: p in Paths() && Decision(p).Some? ==> !Decision(p).value.Conflict?
    }
  }

  /** The entry at `path` once its action has been executed; new ids are the bucket's choice. */
  ghost predicate Executed(job: Job, t: Tree, path: string, a: PlanAction)
    requires path in job.Paths() && job.Decision(path) == Some(a)
  {
    match a
    case Conflict(_, _) => true
    case CreateDirectory(_) =>
      path in t.entries && t.entries[path].kind == Directory && t.entries[path].status == 0
    case UploadFile(_, size) =>
      && path in t.entries && path in job.local.entries
      && t.entries[path].kind == File && t.entries[path].status == 0
      && t.entries[path].size == t.entries[path].filled == size
      && t.entries[path].hash == job.local.entries[path].hash
    case ReplaceFile(_, id, size) =>
      && path in t.entries && path in job.local.entries && path in job.start.entries
      && t.entries[path] == job.start.entries[path].(size := size, filled := size, hash := job.local.entries[path].hash)
    case DeleteFile(_, _) => path !in t.entries
    case DeleteDirectory(_, _) => path !in t.entries
  }

  ghost predicate Untouched(job: Job, t: Tree, path: string) {
    && (path in t.entries <==> path in job.start.entries)
    && (path in t.entries ==> t.entries[path] == job.start.entries[path])
  }

  ghost predicate PathReached(job: Job, t: Tree, done: set<string>, path: string)
    requires path in job.Paths()
  {
    if path in done && job.Decision(path).Some? then Executed(job, t, path, job.Decision(path).value)
    else Untouched(job, t, path)
  }

  /** `t` is a tree in which the decisions for exactly the paths in `done` have been executed. */
  ghost predicate Reached(job: Job, t: Tree, done: set<string>) {
    && ValidTree(t)
    && t.rootId == job.start.rootId && t.rootStatus == job.start.rootStatus
    && (forall p :: p in t.entries ==> p in job.Paths())
    && (forall p {:trigger PathReached(job, t, done, p)} :: p in job.Paths() ==> PathReached(job, t, done, p))
  }

  lemma StartReached(job: Job)
    requires job.Valid()
    ensures Reached(job, job.start, {})
  {
  }

  // ---- Replanning ------------------------------------------------------------------------------

  lemma ParentStaysWritable(job: Job, t: Tree, done: set<string>, m: RemoteManifest, path: string)
    requires job.Valid() && job.NoConflicts() && Reached(job, t, done) && Scanned(m, t)
    requires path in job.local.entries && ParentIsWritable(job.remote, path)
    ensures ParentIsWritable(m, path)
  {
    var parent := ParentPath(path);
    if parent != "" {
      assert HasLocalParent(job.local, path);
      assert parent in job.Paths() && PathReached(job, t, done, parent);
    }
  }

  lemma ReplanExecuted(job: Job, t: Tree, done: set<string>, m: RemoteManifest, path: string)
    requires job.Valid() && job.NoConflicts() && Reached(job, t, done) && Scanned(m, t)
    requires path in job.Paths() && path in done && job.Decision(path).Some?
    ensures path in PathUnion(job.local, m) ==> ActionFor(job.local, m, job.o, path) == None
  {
    assert PathReached(job, t, done, path);
    var a := job.Decision(path).value;
    assert !a.Conflict?;
  }

  lemma ReplanPending(job: Job, t: Tree, done: set<string>, m: RemoteManifest, path: string)
    requires job.Valid() && job.NoConflicts() && Reached(job, t, done) && Scanned(m, t)
    requires path in job.Paths() && (path in done ==> job.Decision(path) == None)
    ensures path in PathUnion(job.local, m)
    ensures ActionFor(job.local, m, job.o, path) == job.Decision(path)
  {
    assert PathReached(job, t, done, path);
    var decision := job.Decision(path);
    assert decision.Some? ==> !decision.value.Conflict?;
    if path in job.local.entries {
      if ParentIsWritable(job.remote, path) {
        ParentStaysWritable(job, t, done, m, path);
      } else {
        assert path in job.remote.entries;
      }
    }
  }

  /** One path: its decision is gone once it has been executed and unchanged before. */
  lemma ReplanPath(job: Job, t: Tree, done: set<string>, m: RemoteManifest, path: string)
    requires job.Valid() && job.NoConflicts() && Reached(job, t, done) && Scanned(m, t)
    requires path in PathUnion(job.local, m)
    ensures path in job.Paths()
    ensures ActionFor(job.local, m, job.o, path) == if path in done then None else job.Decision(path)
  {
    if path in done && job.Decision(path).Some? {
      ReplanExecuted(job, t, done, m, path);
    } else {
      ReplanPending(job, t, done, m, path);
    }
  }

  ghost function PathsOf(actions: seq<PlanAction>): set<string> {
    set a | a in actions :: a.path
  }

  /** The actions whose paths are not done yet, in plan order. */
  function Remaining(actions: seq<PlanAction>, done: set<string>): seq<PlanAction> {
    if actions == [] then []
    else
      var last := actions[|actions| - 1];
      Remaining(actions[..|actions| - 1], done) + if last.path in done then [] else [last]
  }

  lemma {:induction false} RemainingElements(actions: seq<PlanAction>, done: set<string>)
    ensures forall a :: a in Remaining(actions, done) <==> a in actions && a.path !in done
  {
    if actions != [] {
      var init := actions[..|actions| - 1];
      RemainingElements(init, done);
      assert actions == init + [actions[|actions| - 1]];
    }
  }

  lemma {:induction false} RemainingSorted(actions: seq<PlanAction>, done: set<string>)
    requires SortedActions(actions)
    ensures SortedActions(Remaining(actions, done))
  {
    if actions != [] {
      var init, last := actions[..|actions| - 1], actions[|actions| - 1];
      RemainingSorted(init, done);
      RemainingElements(init, done);
      var rest := Remaining(init, done);
      forall i | 0 <= i < |rest| ensures !ActionLess(last, rest[i]) {
        assert rest[i] in init;
      }
    }
  }

  lemma {:induction false} RemainingMultiset(actions: seq<PlanAction>, all: set<PlanAction>, done: set<string>)
    requires multiset(actions) == multiset(all)
    ensures multiset(Remaining(actions, done)) == multiset(set a | a in all && a.path !in done)
  {
    var kept := set a | a in all && a.path !in done;
    if actions == [] {
      assert forall a :: a in all ==> a in multiset(all);
      assert kept == {};
    } else {
      var init, last := actions[..|actions| - 1], actions[|actions| - 1];
      assert actions == init + [last];
      assert last in multiset(all);
      FreshElement(all - {last}, last);
      assert all - {last} + {last} == all;
      assert multiset(actions) == multiset(init) + multiset([last]);
      SameSummand(multiset(init), multiset(all - {last}), multiset([last]));
      RemainingMultiset(init, all - {last}, done);
      var keptInit := set a | a in all - {last} && a.path !in done;
      if last.path in done {
        assert kept == keptInit;
      } else {
        assert kept == keptInit + {last};
      }
    }
  }

  lemma {:induction false} RemainingEmpty(actions: seq<PlanAction>, done: set<string>)
    requires forall a :: a in actions ==> a.path in done
    ensures Remaining(actions, done) == []
  {
    if actions != [] {
      RemainingEmpty(actions[..|actions| - 1], done);
    }
  }

  lemma NoConflictsInPlan(job: Job, actions: seq<PlanAction>)
    requires IsPlan(actions, job.local, job.remote, job.o) && ConflictFree(actions)
    ensures job.NoConflicts()
  {
    PlanElements(actions, job.local, job.remote, job.o);
    forall p | p in job.Paths() && job.Decision(p).Some? ensures !job.Decision(p).value.Conflict? {
      DecisionKeepsPath(job.local, job.remote, job.o, p);
      assert job.Decision(p).value in actions;
    }
  }

  lemma ReplanDecided(job: Job, t: Tree, done: set<string>, m: RemoteManifest, actions: seq<PlanAction>)
    requires job.Valid() && job.NoConflicts() && Reached(job, t, done) && Scanned(m, t)
    ensures DecidedActions(job.local, m, job.o, PathUnion(job.local, m))
            == set a | a in DecidedActions(job.local, job.remote, job.o, job.Paths()) && a.path !in done
  {
    var before := DecidedActions(job.local, job.remote, job.o, job.Paths());
    var after := DecidedActions(job.local, m, job.o, PathUnion(job.local, m));
    forall a | a in after ensures a in before && a.path !in done {
      var p :| p in PathUnion(job.local, m) && ActionFor(job.local, m, job.o, p) == Some(a);
      ReplanPath(job, t, done, m, p);
      DecisionKeepsPath(job.local, job.remote, job.o, p);
    }
    forall a | a in before && a.path !in done ensures a in after {
      var p :| p in job.Paths() && job.Decision(p) == Some(a);
      DecisionKeepsPath(job.local, job.remote, job.o, p);
      ReplanPending(job, t, done, m, p);
    }
  }

  lemma ReachedIsComplete(job: Job, t: Tree, done: set<string>)
    requires job.Valid() && job.NoConflicts() && Reached(job, t, done)
    ensures Complete(t)
  {
    NoConflictsIffComplete(job.remote, job.start);
    forall p | p in t.entries && t.entries[p].kind == File ensures t.entries[p].filled == t.entries[p].size {
      assert PathReached(job, t, done, p);
      var decision := job.Decision(p);
      assert decision.Some? ==> !decision.value.Conflict?;
    }
  }

  /** Resuming an interrupted run: whatever part of the plan has been executed, planning again from
      a rescan is conflict-free and yields exactly the remaining actions in the same order. */
  lemma ReplanIsRemaining(job: Job, actions: seq<PlanAction>, t: Tree, done: set<string>, m: RemoteManifest)
    requires job.Valid() && IsPlan(actions, job.local, job.remote, job.o) && ConflictFree(actions)
    requires Reached(job, t, done) && Scanned(m, t)
    ensures IsPlan(Remaining(actions, done), job.local, m, job.o) && ConflictFree(Remaining(actions, done))
  {
    NoConflictsInPlan(job, actions);
    PlanElements(actions, job.local, job.remote, job.o);
    ReachedIsComplete(job, t, done);
    NoConflictsIffComplete(m, t);
    hide IncompletePaths, ConflictPaths, Complete;
    RemainingSorted(actions, done);
    RemainingElements(actions, done);
    RemainingMultiset(actions, DecidedActions(job.local, job.remote, job.o, job.Paths()), done);
    ReplanDecided(job, t, done, m, actions);
  }

  /** Once every action has been executed, planning again finds nothing to do. */
  lemma ReplanAfterAllIsEmpty(job: Job, actions: seq<PlanAction>, t: Tree, m: RemoteManifest)
    requires job.Valid() && IsPlan(actions, job.local, job.remote, job.o) && ConflictFree(actions)
    requires Reached(job, t, PathsOf(actions)) && Scanned(m, t)
    ensures IsPlan([], job.local, m, job.o)
  {
    ReplanIsRemaining(job, actions, t, PathsOf(actions), m);
    RemainingEmpty(actions, PathsOf(actions));
  }

  /** A conflict-free plan is determined by the two manifests. */
  lemma {:induction false} PlanUnique(
    a: seq<PlanAction>, b: seq<PlanAction>, local: LocalManifest, m: RemoteManifest, o: PlanOptions)
    requires IsPlan(a, local, m, o) && IsPlan(b, local, m, o) && ConflictFree(a)
    ensures a == b
  {
    assert forall x :: x in b ==> x in multiset(b);
    assert forall x :: x in multiset(a) ==> x in a;
    assert ConflictFree(b);
    forall i, j | 0 <= i < j < |a| ensures a[i].path != a[j].path { PlanPathsDistinct(a, local, m, o, i, j); }
    SortedUnique(a, b);
  }

  lemma {:induction false} SortedUnique(a: seq<PlanAction>, b: seq<PlanAction>)
    requires SortedActions(a) && SortedActions(b) && multiset(a) == multiset(b)
    requires forall i, j :: 0 <= i < j < |a| ==> a[i].path != a[j].path
    ensures a == b
  {
    assert |multiset(a)| == |a| && |multiset(b)| == |b|;
    if a != [] {
      SortedHeadsEqual(a, b);
      TailMultiset(a);
      TailMultiset(b);
      SortedUnique(a[1..], b[1..]);
      assert a == [a[0]] + a[1..] && b == [b[0]] + b[1..];
    }
  }

  lemma SortedHeadsEqual(a: seq<PlanAction>, b: seq<PlanAction>)
    requires SortedActions(a) && SortedActions(b) && multiset(a) == multiset(b)
    requires forall i, j :: 0 <= i < j < |a| ==> a[i].path != a[j].path
    requires a != [] && b != []
    ensures a[0] == b[0]
  {
    assert a[0] in multiset(b) && b[0] in multiset(a);
    assert a[0] in b && b[0] in a;
    var i :| 0 <= i < |a| && a[i] == b[0];
    var j :| 0 <= j < |b| && b[j] == a[0];
    ActionLessTotal(a[0], b[0]);
  }

  // ---- The outcome -----------------------------------------------------------------------------

  /** Equal up to the ids that the bucket hands out for new entries. */
  predicate SameContent(a: RemoteEntry, b: RemoteEntry) {
    && a.kind == b.kind && a.status == b.status
    && (a.kind == File ==> a.size == b.size && a.filled == b.filled && a.hash == b.hash)
  }

  ghost predicate SameTree(a: Tree, b: Tree) {
    && a.entries.Keys == b.entries.Keys
    && forall p :: p in a.entries && p in b.entries ==> SameContent(a.entries[p], b.entries[p])
  }

  ghost predicate AllDone(job: Job, done: set<string>) {
    forall p {:trigger job.Decision(p)} :: p in job.Paths() && job.Decision(p).Some? ==> p in done
  }

  /** The tree at the end of a run mirrors the local tree; everything else that is still there was
      retained and has not been touched. */
  lemma FinalTree(job: Job, t: Tree, done: set<string>)
    requires job.Valid() && job.NoConflicts() && Reached(job, t, done) && AllDone(job, done)
    ensures forall p :: p in job.local.entries ==>
      && p in t.entries && t.entries[p].kind == job.local.entries[p].kind
      && (t.entries[p].kind == File ==> t.entries[p].hash == job.local.entries[p].hash)
    ensures forall p :: p in t.entries && p !in job.local.entries ==>
      p in job.start.entries && t.entries[p] == job.start.entries[p] && (!job.o.delete || job.local.Protects(p))
  {
    forall p | p in job.local.entries
      ensures && p in t.entries && t.entries[p].kind == job.local.entries[p].kind
              && (t.entries[p].kind == File ==> t.entries[p].hash == job.local.entries[p].hash)
    {
      assert PathReached(job, t, done, p);
      var decision := job.Decision(p);
      assert decision.Some? ==> !decision.value.Conflict?;
    }
    forall p | p in t.entries && p !in job.local.entries
      ensures p in job.start.entries && t.entries[p] == job.start.entries[p] && (!job.o.delete || job.local.Protects(p))
    {
      assert PathReached(job, t, done, p);
      var decision := job.Decision(p);
      assert decision.Some? ==> p in done;
    }
  }

  /** Which paths a run leaves behind and with what content does not depend on the order in which the
      plan was executed: batched and sequential runs agree. */
  lemma OutcomesAgree(job: Job, a: Tree, b: Tree, doneA: set<string>, doneB: set<string>)
    requires job.Valid() && job.NoConflicts()
    requires Reached(job, a, doneA) && AllDone(job, doneA)
    requires Reached(job, b, doneB) && AllDone(job, doneB)
    ensures SameTree(a, b)
  {
    forall p | p in job.Paths()
      ensures p in a.entries <==> p in b.entries
      ensures p in a.entries && p in b.entries ==> SameContent(a.entries[p], b.entries[p])
    {
      assert PathReached(job, a, doneA, p) && PathReached(job, b, doneB, p);
      var decision := job.Decision(p);
      assert decision.Some? ==> !decision.value.Conflict? && p in doneA && p in doneB;
    }
  }

  /** An interrupted run that is planned and executed again ends like an uninterrupted one. */
  lemma ResumedRunAgrees(
    job: Job, t: Tree, done: set<string>, m: RemoteManifest, resumed: Tree, doneAfter: set<string>,
    straight: Tree, doneStraight: set<string>)
    requires job.Valid() && job.NoConflicts() && Reached(job, t, done) && Scanned(m, t)
    requires Reached(Job(job.local, t, m, job.o), resumed, doneAfter)
    requires AllDone(Job(job.local, t, m, job.o), doneAfter)
    requires Reached(job, straight, doneStraight) && AllDone(job, doneStraight)
    ensures SameTree(resumed, straight)
  {
    var again := Job(job.local, t, m, job.o);
    forall p | p in job.Paths()
      ensures p in resumed.entries <==> p in straight.entries
      ensures p in resumed.entries && p in straight.entries ==> SameContent(resumed.entries[p], straight.entries[p])
    {
      ResumedPathAgrees(job, t, done, m, resumed, doneAfter, straight, doneStraight, p);
    }
    forall p | p in resumed.entries ensures p in job.Paths() {
      assert p in again.Paths();
      ReplanPath(job, t, done, m, p);
    }
  }

  lemma ResumedPathAgrees(
    job: Job, t: Tree, done: set<string>, m: RemoteManifest, resumed: Tree, doneAfter: set<string>,
    straight: Tree, doneStraight: set<string>, p: string)
    requires job.Valid() && job.NoConflicts() && Reached(job, t, done) && Scanned(m, t)
    requires Reached(Job(job.local, t, m, job.o), resumed, doneAfter)
    requires AllDone(Job(job.local, t, m, job.o), doneAfter)
    requires Reached(job, straight, doneStraight) && AllDone(job, doneStraight) && p in job.Paths()
    ensures p in resumed.entries <==> p in straight.entries
    ensures p in resumed.entries && p in straight.entries ==> SameContent(resumed.entries[p], straight.entries[p])
  {
    var again := Job(job.local, t, m, job.o);
    assert PathReached(job, t, done, p) && PathReached(job, straight, doneStraight, p);
    var decision := job.Decision(p);
    assert decision.Some? ==> !decision.value.Conflict? && p in doneStraight;
    if p in again.Paths() {
      ReplanPath(job, t, done, m, p);
      assert PathReached(again, resumed, doneAfter, p);
      assert again.Decision(p).Some? ==> p in doneAfter;
    }
  }
}

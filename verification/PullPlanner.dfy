/** The pull planner (src/sync/pull.rs:201-372). */
module PullPlanner {
  import opened ActionOrder
  import opened Collections
  import opened LocalTree
  import opened Manifests
  import opened Paths

  datatype PullOptions = PullOptions(delete: bool, overwrite: bool)

  /** The texts of the planner's conflict reasons, one constructor per format string. */
  datatype PullReason =
    | Reported(text: string)
    | InvalidPath
    | UnsafeComponent(component: string)
    | KindMismatch(remoteKind: EntryKind, localKind: EntryKind)
    | FileDiffers(id: nat)

  datatype PullAction =
    | Conflict(path: string, reason: PullReason)
    | CreateDirectory(path: string)
    | DownloadFile(path: string, remoteId: nat, size: nat)
    | ReplaceFile(path: string, remoteId: nat, size: nat)
    | DeleteFile(path: string)
    | DeleteDirectory(path: string)

  /** `is_excluded`: the path or a directory above it matches. */
  predicate IsExcluded(ex: Excludes, path: string)
    decreases |path|
  {
    || Matches(ex, path)
    || (LastSlash(path) >= 0 && IsExcluded(ex, path[..LastSlash(path)]))
  }

  predicate SafeName(name: string) {
    name != "" && name != "." && name != ".." && '\\' !in name && '\0' !in name
  }

  /** The first component that must not be used as a local file name. */
  function FirstUnsafe(path: string): Option<string>
    decreases |path|
  {
    var i := LastSlash(path);
    var above := if i < 0 then None else FirstUnsafe(path[..i]);
    if above.Some? then above
    else if SafeName(path[i + 1..]) then None
    else Some(path[i + 1..])
  }

  /** `validate_relative_path`; `None` when the path is fine. */
  function PathProblem(path: string): Option<PullReason> {
    if path == "" || path[0] == '/' || path[|path| - 1] == '/' then Some(InvalidPath)
    else match FirstUnsafe(path)
         case Some(component) => Some(UnsafeComponent(component))
         case None => None
  }

  /** `is_path_protected`: a protected path, one below it, or one above it. */
  predicate PathProtected(local: LocalManifest, path: string) {
    exists p :: p in local.protectedPaths && (p == path || Under(path, p) || Under(p, path))
  }

  // ---- The decision for one path ---------------------------------------------------------------

  function RemoteDecision(local: LocalManifest, remote: RemoteManifest, o: PullOptions, ex: Excludes, path: string)
    : Option<PullAction>
    requires path in remote.entries
  {
    var r := remote.entries[path];
    if IsExcluded(ex, path) then None
    else if PathProblem(path).Some? then Some(Conflict(path, PathProblem(path).value))
    else if path !in local.entries then
      if r.kind == Directory then Some(CreateDirectory(path)) else Some(DownloadFile(path, r.id, r.size))
    else
      var l := local.entries[path];
      if l.kind != r.kind then Some(Conflict(path, KindMismatch(r.kind, l.kind)))
      else if r.kind == Directory then None
      else if r.hash.Some? && r.hash == l.hash then None
      else if !o.overwrite then Some(Conflict(path, FileDiffers(r.id)))
      else Some(ReplaceFile(path, r.id, r.size))
  }

  function LocalDecision(local: LocalManifest, o: PullOptions, ex: Excludes, path: string): Option<PullAction>
    requires path in local.entries
  {
    if IsExcluded(ex, path) || !o.delete || PathProtected(local, path) then None
    else if local.entries[path].kind == File then Some(DeleteFile(path))
    else Some(DeleteDirectory(path))
  }

  function Decision(local: LocalManifest, remote: RemoteManifest, o: PullOptions, ex: Excludes, path: string)
    : Option<PullAction>
  {
    if path in remote.entries then RemoteDecision(local, remote, o, ex, path)
    else if path in local.entries then LocalDecision(local, o, ex, path)
    else None
  }

  lemma DecisionKeepsPath(local: LocalManifest, remote: RemoteManifest, o: PullOptions, ex: Excludes, path: string)
    ensures var d := Decision(local, remote, o, ex, path); d.Some? ==> d.value.path == path
  {
  }

  function Rank(a: PullAction): nat {
    match a
    case Conflict(_, _) => 0
    case CreateDirectory(_) => 1
    case DownloadFile(_, _, _) => 2
    case ReplaceFile(_, _, _) => 3
    case DeleteFile(_) => 4
    case DeleteDirectory(_) => 5
  }

  function PullKey(a: PullAction): Key {
    KeyOf(Rank(a), a.path)
  }

  // ---- The plan as a set of decisions ----------------------------------------------------------

  ghost function AllPaths(local: LocalManifest, remote: RemoteManifest): set<string> {
    local.entries.Keys + remote.entries.Keys
  }

  ghost function Decided(local: LocalManifest, remote: RemoteManifest, o: PullOptions, ex: Excludes, paths: set<string>)
    : set<PullAction>
  {
    set p | p in paths && Decision(local, remote, o, ex, p).Some? :: Decision(local, remote, o, ex, p).value
  }

  function ReportedConflicts(conflicts: seq<(string, string)>, ex: Excludes): seq<PullAction> {
    if conflicts == [] then []
    else
      var (path, text) := conflicts[|conflicts| - 1];
      ReportedConflicts(conflicts[..|conflicts| - 1], ex)
      + if IsExcluded(ex, path) then [] else [Conflict(path, Reported(text))]
  }

  /** What `plan_pull` promises: the scan's conflicts outside of excluded paths plus one decision per
      path, in `compare_actions` order. */
  ghost predicate IsPullPlan(
    actions: seq<PullAction>, local: LocalManifest, remote: RemoteManifest, o: PullOptions, ex: Excludes)
  {
    && SortedBy(PullKey, actions)
    && multiset(actions)
       == multiset(ReportedConflicts(remote.conflicts, ex)) + multiset(Decided(local, remote, o, ex, AllPaths(local, remote)))
  }

  ghost predicate ConflictFree(actions: seq<PullAction>) {
    forall a :: a in actions ==> !a.Conflict?
  }

  function AsList(a: Option<PullAction>): seq<PullAction> {
    match a case None => [] case Some(action) => [action]
  }

  lemma DecidedOneMore(
    local: LocalManifest, remote: RemoteManifest, o: PullOptions, ex: Excludes, paths: set<string>, path: string)
    requires path !in paths
    ensures multiset(Decided(local, remote, o, ex, paths + {path}))
            == multiset(Decided(local, remote, o, ex, paths)) + multiset(AsList(Decision(local, remote, o, ex, path)))
  {
    var before := Decided(local, remote, o, ex, paths);
    var decision := Decision(local, remote, o, ex, path);
    if decision == None {
      assert Decided(local, remote, o, ex, paths + {path}) == before;
    } else {
      DecisionKeepsPath(local, remote, o, ex, path);
      forall b | b in before ensures b.path != path {
        var p :| p in paths && Decision(local, remote, o, ex, p) == Some(b);
        DecisionKeepsPath(local, remote, o, ex, p);
      }
      assert decision.value !in before;
      assert Decided(local, remote, o, ex, paths + {path}) == before + {decision.value};
      assert multiset(AsList(decision)) == multiset{decision.value};
    }
  }

  /** A conflict-free plan holds exactly the decisions of the single paths, each once. */
  lemma PlanElements(actions: seq<PullAction>, local: LocalManifest, remote: RemoteManifest, o: PullOptions, ex: Excludes)
    requires IsPullPlan(actions, local, remote, o, ex) && ConflictFree(actions)
    ensures ReportedConflicts(remote.conflicts, ex) == []
    ensures forall a :: a in actions <==> Decision(local, remote, o, ex, a.path) == Some(a)
  {
    var decided := Decided(local, remote, o, ex, AllPaths(local, remote));
    var reported := ReportedConflicts(remote.conflicts, ex);
    ReportedReachPlan(actions, remote.conflicts, ex, multiset(decided));
    forall a ensures a in actions <==> Decision(local, remote, o, ex, a.path) == Some(a) {
      assert a in actions <==> a in multiset(actions);
      assert a in decided <==> a in multiset(decided);
      if a in decided {
        var p :| p in AllPaths(local, remote) && Decision(local, remote, o, ex, p) == Some(a);
        DecisionKeepsPath(local, remote, o, ex, p);
      }
    }
  }

  lemma {:induction false} ReportedAreConflicts(conflicts: seq<(string, string)>, ex: Excludes)
    ensures forall a :: a in ReportedConflicts(conflicts, ex)
                        <==> a.Conflict? && a.reason.Reported? && (a.path, a.reason.text) in conflicts && !IsExcluded(ex, a.path)
  {
    if conflicts != [] {
      var init, last := conflicts[..|conflicts| - 1], conflicts[|conflicts| - 1];
      ReportedAreConflicts(init, ex);
      assert conflicts == init + [last];
      var (path, text) := last;
      assert forall c :: c in conflicts <==> c in init || c == (path, text);
    }
  }

  lemma ReportedReachPlan(
    actions: seq<PullAction>, conflicts: seq<(string, string)>, ex: Excludes, rest: multiset<PullAction>)
    requires multiset(actions) == multiset(ReportedConflicts(conflicts, ex)) + rest
    ensures ReportedConflicts(conflicts, ex) != [] ==> exists a :: a in actions && a.Conflict?
  {
    if ReportedConflicts(conflicts, ex) != [] {
      var first := ReportedConflicts(conflicts, ex)[0];
      ReportedAreConflicts(conflicts, ex);
      assert first in multiset(actions);
      assert first in actions;
    }
  }

  /** No path occurs in two actions of a conflict-free plan. */
  lemma PlanPathsDistinct(
    actions: seq<PullAction>, local: LocalManifest, remote: RemoteManifest, o: PullOptions, ex: Excludes, i: nat, j: nat)
    requires IsPullPlan(actions, local, remote, o, ex) && ConflictFree(actions) && i < j < |actions|
    ensures actions[i].path != actions[j].path
  {
    PlanElements(actions, local, remote, o, ex);
    RepeatedElement(actions, i, j);
    assert actions[i] in actions && actions[j] in actions;
  }

  /** A plan holds the scan's conflicts outside of excluded paths and, apart from them, the decisions. */
  lemma PlannedOrReported(
    actions: seq<PullAction>, local: LocalManifest, remote: RemoteManifest, o: PullOptions, ex: Excludes, a: PullAction)
    requires IsPullPlan(actions, local, remote, o, ex)
    ensures a in actions <==>
              || (a.Conflict? && a.reason.Reported? && (a.path, a.reason.text) in remote.conflicts && !IsExcluded(ex, a.path))
              || Decision(local, remote, o, ex, a.path) == Some(a)
  {
    hide Decision, ReportedConflicts, IsExcluded;
    var decided := Decided(local, remote, o, ex, AllPaths(local, remote));
    var reported := ReportedConflicts(remote.conflicts, ex);
    ReportedAreConflicts(remote.conflicts, ex);
    assert a in actions <==> a in multiset(actions);
    assert a in reported <==> a in multiset(reported);
    assert a in decided <==> a in multiset(decided);
    DecidedPath(local, remote, o, ex, a);
  }

  lemma DecidedPath(local: LocalManifest, remote: RemoteManifest, o: PullOptions, ex: Excludes, a: PullAction)
    ensures a in Decided(local, remote, o, ex, AllPaths(local, remote)) <==> Decision(local, remote, o, ex, a.path) == Some(a)
  {
    if p :| p in AllPaths(local, remote) && Decision(local, remote, o, ex, p) == Some(a) {
      DecisionKeepsPath(local, remote, o, ex, p);
    }
  }

  /** Nothing local is replaced or deleted without the corresponding option, and neither excluded nor
      protected paths, nor directories that hold one, are touched. */
  lemma DestructiveOnlyOnRequest(
    actions: seq<PullAction>, local: LocalManifest, remote: RemoteManifest, o: PullOptions, ex: Excludes, a: PullAction)
    requires IsPullPlan(actions, local, remote, o, ex) && a in actions
    ensures !IsExcluded(ex, a.path)
    ensures a.ReplaceFile? ==> o.overwrite && a.path in local.entries && a.path in remote.entries
    ensures a.DeleteFile? || a.DeleteDirectory? ==>
              o.delete && !PathProtected(local, a.path) && a.path in local.entries && a.path !in remote.entries
  {
    PlannedOrReported(actions, local, remote, o, ex, a);
    if Decision(local, remote, o, ex, a.path) == Some(a) {
      assert a.path in remote.entries || a.path in local.entries;
    }
  }

  // ---- The planner as written ------------------------------------------------------------------

  lemma AddToBoth(
    actions: seq<PullAction>, more: seq<PullAction>, seen: set<PullAction>, before: seq<PullAction>, done: set<PullAction>)
    requires multiset(actions) + multiset(seen) == multiset(before) + multiset(done)
    ensures multiset(actions + more) + multiset(seen) == multiset(before) + (multiset(done) + multiset(more))
  {
    var a, m, s, b, d := multiset(actions), multiset(more), multiset(seen), multiset(before), multiset(done);
    assert multiset(actions + more) == a + m;
    assert a + m + s == (a + s) + m == (b + d) + m == b + (d + m);
  }

  /** The plan being built. The order of the visits only matters until the final sort. */
  class PullPlan {
    var actions: seq<PullAction>

    constructor ()
      ensures actions == []
    {
      actions := [];
    }

    method VisitConflicts(conflicts: seq<(string, string)>, ex: Excludes)
      requires actions == []
      modifies this
      ensures actions == ReportedConflicts(conflicts, ex)
    {
      for i := 0 to |conflicts|
        invariant actions == ReportedConflicts(conflicts[..i], ex)
      {
        assert conflicts[..i + 1][..i] == conflicts[..i];
        var (path, text) := conflicts[i];
        if !IsExcluded(ex, path) {
          actions := actions + [Conflict(path, Reported(text))];
        }
      }
      assert conflicts[..|conflicts|] == conflicts;
    }

    /** One of the two loops over entries. */
    method VisitPaths(
      local: LocalManifest, remote: RemoteManifest, o: PullOptions, ex: Excludes, paths: set<string>, ghost seen: set<string>)
      requires paths !! seen
      modifies this
      ensures multiset(actions) + multiset(Decided(local, remote, o, ex, seen))
              == multiset(old(actions)) + multiset(Decided(local, remote, o, ex, seen + paths))
    {
      var todo := paths;
      while todo != {}
        invariant todo <= paths
        invariant multiset(actions) + multiset(Decided(local, remote, o, ex, seen))
                  == multiset(old(actions)) + multiset(Decided(local, remote, o, ex, seen + (paths - todo)))
        decreases todo
      {
        var path :| path in todo;
        DecidedOneMore(local, remote, o, ex, seen + (paths - todo), path);
        assert seen + (paths - (todo - {path})) == seen + (paths - todo) + {path};
        var decision := AsList(Decision(local, remote, o, ex, path));
        AddToBoth(actions, decision, Decided(local, remote, o, ex, seen), old(actions),
                  Decided(local, remote, o, ex, seen + (paths - todo)));
        actions := actions + decision;
        todo := todo - {path};
      }
      assert seen + (paths - {}) == seen + paths;
    }
  }

  lemma VisitsCoverAll(local: LocalManifest, remote: RemoteManifest, o: PullOptions, ex: Excludes)
    ensures Decided(local, remote, o, ex, {}) == {}
    ensures {} + remote.entries.Keys == remote.entries.Keys
    ensures remote.entries.Keys + (local.entries.Keys - remote.entries.Keys) == AllPaths(local, remote)
  {
  }

  lemma VisitsAddUp(reported: multiset<PullAction>, first: multiset<PullAction>, both: multiset<PullAction>,
                    wanted: multiset<PullAction>, all: multiset<PullAction>)
    requires first == reported + wanted && both + wanted == first + all
    ensures both == reported + all
  {
    assert both + wanted == reported + all + wanted;
    SameSummand(both, reported + all, wanted);
  }

  /** `plan_pull`. */
  method PlanPull(local: LocalManifest, remote: RemoteManifest, o: PullOptions, ex: Excludes) returns (plan: PullPlan)
    ensures fresh(plan) && IsPullPlan(plan.actions, local, remote, o, ex)
  {
    hide Decided, ReportedConflicts;
    plan := new PullPlan();
    plan.VisitConflicts(remote.conflicts, ex);
    VisitsCoverAll(local, remote, o, ex);
    plan.VisitPaths(local, remote, o, ex, remote.entries.Keys, {});
    ghost var wanted := multiset(plan.actions);
    plan.VisitPaths(local, remote, o, ex, local.entries.Keys - remote.entries.Keys, remote.entries.Keys);
    VisitsAddUp(multiset(ReportedConflicts(remote.conflicts, ex)), wanted, multiset(plan.actions),
                multiset(Decided(local, remote, o, ex, remote.entries.Keys)),
                multiset(Decided(local, remote, o, ex, AllPaths(local, remote))));
    SortBySorts(PullKey, plan.actions);
    plan.actions := SortBy(PullKey, plan.actions);
  }
}

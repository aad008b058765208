/** The push planner (src/sync/planner.rs). */
module Planner {
  import opened ActionOrder
  import opened Collections
  import opened Paths
  import opened Manifests

  datatype PlanOptions = PlanOptions(delete: bool, overwrite: bool)

  /** The texts of the planner's conflict reasons, one constructor per format string. */
  datatype Reason =
    | Reported(text: string)
    | ParentNotWritable
    | KindMismatch(localKind: EntryKind, remoteKind: EntryKind, id: nat)
    | ArchivedDirectory
    | FileDiffers(id: nat)
    | FileNotWritable
    | RemoteNotDeletable

  datatype PlanAction =
    | Conflict(path: string, reason: Reason)
    | CreateDirectory(path: string)
    | UploadFile(path: string, size: nat)
    | ReplaceFile(path: string, remoteId: nat, size: nat)
    | DeleteFile(path: string, remoteId: nat)
    | DeleteDirectory(path: string, remoteId: nat)

  predicate ParentIsWritable(remote: RemoteManifest, path: string) {
    var parent := ParentPath(path);
    if parent == "" then remote.rootStatus == 0
    else parent in remote.entries ==>
           remote.entries[parent].kind == Directory && remote.entries[parent].status == 0
  }

  // ---- The decision for one path -----------------------------------------------------------

  /** The action planned for a local path; `None` when nothing has to be done. */
  function LocalAction(local: LocalManifest, remote: RemoteManifest, o: PlanOptions, path: string)
    : Option<PlanAction>
    requires path in local.entries
  {
    var l := local.entries[path];
    if path !in remote.entries then
      if !ParentIsWritable(remote, path) then Some(Conflict(path, ParentNotWritable))
      else if l.kind == Directory then Some(CreateDirectory(path))
      else Some(UploadFile(path, l.size))
    else
      var r := remote.entries[path];
      if l.kind != r.kind then Some(Conflict(path, KindMismatch(l.kind, r.kind, r.id)))
      else if l.kind == Directory then
        if r.status < 0 then Some(Conflict(path, ArchivedDirectory)) else None
      else if l.hash.Some? && l.hash == r.hash then None
      else if !o.overwrite then Some(Conflict(path, FileDiffers(r.id)))
      else if r.status != 0 || !ParentIsWritable(remote, path) then Some(Conflict(path, FileNotWritable))
      else Some(ReplaceFile(path, r.id, l.size))
  }

  /** Paths counted as unchanged; an archived directory is counted and reported as a conflict. */
  predicate CountsUnchanged(local: LocalManifest, remote: RemoteManifest, path: string) {
    && path in local.entries && path in remote.entries
    && var l, r := local.entries[path], remote.entries[path];
       l.kind == r.kind && (l.kind == Directory || (l.hash.Some? && l.hash == r.hash))
  }

  predicate Retains(local: LocalManifest, o: PlanOptions, path: string) {
    local.Protects(path) || !o.delete
  }

  /** The action planned for a path that exists only remotely. */
  function RemoteAction(local: LocalManifest, remote: RemoteManifest, o: PlanOptions, path: string)
    : Option<PlanAction>
    requires path in remote.entries
  {
    var r := remote.entries[path];
    if Retains(local, o, path) then None
    else if r.status != 0 then Some(Conflict(path, RemoteNotDeletable))
    else if r.kind == File then Some(DeleteFile(path, r.id))
    else Some(DeleteDirectory(path, r.id))
  }

  function ActionFor(local: LocalManifest, remote: RemoteManifest, o: PlanOptions, path: string)
    : Option<PlanAction>
    requires path in local.entries || path in remote.entries
  {
    if path in local.entries then LocalAction(local, remote, o, path)
    else RemoteAction(local, remote, o, path)
  }

  // ---- Order -------------------------------------------------------------------------------

  function ActionRank(a: PlanAction): (rank: nat)
    ensures rank < 6
  {
    match a
    case Conflict(_, _) => 0
    case CreateDirectory(_) => 1
    case UploadFile(_, _) => 2
    case ReplaceFile(_, _, _) => 3
    case DeleteFile(_, _) => 4
    case DeleteDirectory(_, _) => 5
  }

  function ActionKey(a: PlanAction): Key {
    KeyOf(ActionRank(a), a.path)
  }

  /** compare_actions(a, b) is Less. */
  predicate ActionLess(a: PlanAction, b: PlanAction) {
    KeyLess(ActionKey(a), ActionKey(b))
  }

  /** Two actions compare equal exactly when rank and path agree. */
  lemma ActionLessTotal(a: PlanAction, b: PlanAction)
    ensures ActionLess(a, b) || ActionLess(b, a) || (ActionRank(a) == ActionRank(b) && a.path == b.path)
    ensures !(ActionLess(a, b) && ActionLess(b, a))
  {
    KeyLessTotal(ActionKey(a), ActionKey(b));
  }

  ghost predicate SortedActions(actions: seq<PlanAction>) {
    forall i, j {:trigger ActionLess(actions[j], actions[i])} :: 0 <= i < j < |actions| ==>
      !ActionLess(actions[j], actions[i])
  }

  function SortActions(s: seq<PlanAction>): (r: seq<PlanAction>)
    ensures multiset(r) == multiset(s)
  {
    SortBy(ActionKey, s)
  }

  lemma SortActionsSorts(s: seq<PlanAction>)
    ensures SortedActions(SortActions(s))
  {
    SortBySorts(ActionKey, s);
    var r := SortActions(s);
    forall i, j | 0 <= i < j < |r| ensures !ActionLess(r[j], r[i]) {
      assert !KeyLess(ActionKey(r[j]), ActionKey(r[i]));
    }
  }

  // ---- The plan as a set of decisions --------------------------------------------------------

  ghost function PathUnion(local: LocalManifest, remote: RemoteManifest): set<string> {
    local.entries.Keys + remote.entries.Keys
  }

  /** The actions decided for the given paths; each path contributes at most one. */
  ghost function DecidedActions(local: LocalManifest, remote: RemoteManifest, o: PlanOptions, paths: set<string>)
    : set<PlanAction>
    requires paths <= PathUnion(local, remote)
  {
    set p | p in paths && ActionFor(local, remote, o, p).Some? :: ActionFor(local, remote, o, p).value
  }

  function ReportedConflicts(conflicts: seq<(string, string)>): (r: seq<PlanAction>)
    ensures |r| == |conflicts|
  {
    if conflicts == [] then []
    else ReportedConflicts(conflicts[..|conflicts| - 1])
         + [Conflict(conflicts[|conflicts| - 1].0, Reported(conflicts[|conflicts| - 1].1))]
  }

  /** What `plan_sync` promises about its action list: the scan's conflicts plus one decision per
      path, in `compare_actions` order. */
  ghost predicate IsPlan(actions: seq<PlanAction>, local: LocalManifest, remote: RemoteManifest, o: PlanOptions) {
    && SortedActions(actions)
    && multiset(actions)
       == multiset(ReportedConflicts(remote.conflicts))
          + multiset(DecidedActions(local, remote, o, PathUnion(local, remote)))
  }

  ghost predicate ConflictFree(actions: seq<PlanAction>) {
    forall a :: a in actions ==> !a.Conflict?
  }

  ghost function UnchangedPaths(local: LocalManifest, remote: RemoteManifest, paths: set<string>): set<string> {
    set p | p in paths && p in local.entries && p in remote.entries
            && local.entries[p].kind == remote.entries[p].kind
            && (local.entries[p].kind == Directory
                || (local.entries[p].hash.Some? && local.entries[p].hash == remote.entries[p].hash))
  }

  ghost function RetainedPaths(local: LocalManifest, o: PlanOptions, paths: set<string>): set<string> {
    set p | p in paths && p !in local.entries && (!o.delete || local.Protects(p))
  }

  function Count(actions: seq<PlanAction>, rank: nat): nat {
    if actions == [] then 0
    else Count(actions[..|actions| - 1], rank) + if ActionRank(actions[|actions| - 1]) == rank then 1 else 0
  }

  function TransferSize(a: PlanAction): nat {
    if a.UploadFile? || a.ReplaceFile? then a.size else 0
  }

  function UploadBytes(actions: seq<PlanAction>): nat {
    if actions == [] then 0
    else UploadBytes(actions[..|actions| - 1]) + TransferSize(actions[|actions| - 1])
  }

  lemma {:induction false} CountFirst(a: PlanAction, s: seq<PlanAction>, rank: nat)
    ensures Count([a] + s, rank) == Count([a], rank) + Count(s, rank)
    ensures UploadBytes([a] + s) == TransferSize(a) + UploadBytes(s)
  {
    if s == [] {
      assert [a] + s == [a];
    } else {
      assert ([a] + s)[..|[a] + s| - 1] == [a] + s[..|s| - 1];
      CountFirst(a, s[..|s| - 1], rank);
    }
  }

  lemma {:induction false} CountInsert(a: PlanAction, s: seq<PlanAction>, rank: nat)
    ensures Count(InsertBy(ActionKey, a, s), rank) == Count([a] + s, rank)
    ensures UploadBytes(InsertBy(ActionKey, a, s)) == UploadBytes([a] + s)
  {
    CountFirst(a, s, rank);
    if s != [] && ActionLess(s[0], a) {
      CountInsert(a, s[1..], rank);
      CountFirst(s[0], InsertBy(ActionKey, a, s[1..]), rank);
      CountFirst(a, s[1..], rank);
      CountFirst(s[0], s[1..], rank);
      assert s == [s[0]] + s[1..];
    }
  }

  /** Sorting leaves every counter as it was. */
  lemma {:induction false} CountSort(s: seq<PlanAction>, rank: nat)
    ensures Count(SortActions(s), rank) == Count(s, rank)
    ensures UploadBytes(SortActions(s)) == UploadBytes(s)
  {
    if s != [] {
      CountSort(s[1..], rank);
      CountInsert(s[0], SortActions(s[1..]), rank);
      CountFirst(s[0], SortActions(s[1..]), rank);
      CountFirst(s[0], s[1..], rank);
      assert s == [s[0]] + s[1..];
    }
  }

  lemma CountAppend(s: seq<PlanAction>, a: PlanAction)
    ensures forall rank {:trigger Count(s + [a], rank)} ::
              Count(s + [a], rank) == Count(s, rank) + if ActionRank(a) == rank then 1 else 0
    ensures UploadBytes(s + [a]) == UploadBytes(s) + TransferSize(a)
  {
    assert (s + [a])[..|s|] == s;
  }

  // ---- The planner as written ----------------------------------------------------------------

  function AsList(a: Option<PlanAction>): seq<PlanAction> {
    match a case None => [] case Some(action) => [action]
  }

  class Plan {
    var actions: seq<PlanAction>
    var warnings: seq<string>
    var createDirectories: nat
    var uploadFiles: nat
    var replaceFiles: nat
    var deleteFiles: nat
    var deleteDirectories: nat
    var conflicts: nat
    var unchangedEntries: nat
    var retainedRemote: nat
    var uploadBytes: nat

    /** Every counter agrees with the action list. */
    ghost predicate Valid()
      reads this
    {
      && conflicts == Count(actions, 0)
      && createDirectories == Count(actions, 1)
      && uploadFiles == Count(actions, 2)
      && replaceFiles == Count(actions, 3)
      && deleteFiles == Count(actions, 4)
      && deleteDirectories == Count(actions, 5)
      && uploadBytes == UploadBytes(actions)
    }

    constructor ()
      ensures Valid()
      ensures actions == [] && warnings == [] && unchangedEntries == 0 && retainedRemote == 0
    {
      actions, warnings := [], [];
      createDirectories, uploadFiles, replaceFiles := 0, 0, 0;
      deleteFiles, deleteDirectories, conflicts := 0, 0, 0;
      unchangedEntries, retainedRemote, uploadBytes := 0, 0, 0;
    }

    predicate HasConflicts()
      reads this
    {
      conflicts > 0
    }

    method Push(action: PlanAction)
      requires Valid()
      modifies this
      ensures Valid()
      ensures actions == old(actions) + [action]
      ensures warnings == old(warnings) && unchangedEntries == old(unchangedEntries) && retainedRemote == old(retainedRemote)
    {
      hide Count, UploadBytes;
      CountAppend(actions, action);
      match action {
        case Conflict(_, _) => conflicts := conflicts + 1;
        case CreateDirectory(_) => createDirectories := createDirectories + 1;
        case UploadFile(_, size) =>
          uploadFiles := uploadFiles + 1;
          uploadBytes := uploadBytes + size;
        case ReplaceFile(_, _, size) =>
          replaceFiles := replaceFiles + 1;
          uploadBytes := uploadBytes + size;
        case DeleteFile(_, _) => deleteFiles := deleteFiles + 1;
        case DeleteDirectory(_, _) => deleteDirectories := deleteDirectories + 1;
      }
      actions := actions + [action];
    }

    method PushDecision(decision: Option<PlanAction>)
      requires Valid()
      modifies this
      ensures Valid()
      ensures actions == old(actions) + AsList(decision)
      ensures warnings == old(warnings) && unchangedEntries == old(unchangedEntries) && retainedRemote == old(retainedRemote)
    {
      if decision.Some? {
        Push(decision.value);
      }
    }

    /** `actions.sort_by(compare_actions)`. */
    method SortInPlace()
      requires Valid()
      modifies this
      ensures Valid()
      ensures actions == SortActions(old(actions))
      ensures warnings == old(warnings) && unchangedEntries == old(unchangedEntries) && retainedRemote == old(retainedRemote)
    {
      CountSort(actions, 0);
      CountSort(actions, 1);
      CountSort(actions, 2);
      CountSort(actions, 3);
      CountSort(actions, 4);
      CountSort(actions, 5);
      actions := SortActions(actions);
    }
  }

  // ---- The visits in key order -----------------------------------------------------------------

  /** The pushes of the loop over the local manifest. */
  function LocalPushes(local: LocalManifest, remote: RemoteManifest, o: PlanOptions, keys: seq<string>): seq<PlanAction> {
    if keys == [] then []
    else LocalPushes(local, remote, o, keys[..|keys| - 1]) + LocalStep(local, remote, o, keys[|keys| - 1])
  }

  function LocalStep(local: LocalManifest, remote: RemoteManifest, o: PlanOptions, path: string): seq<PlanAction> {
    if path in local.entries then AsList(LocalAction(local, remote, o, path)) else []
  }

  /** The pushes of the loop over the remote manifest, which skips paths that exist locally. */
  function RemotePushes(local: LocalManifest, remote: RemoteManifest, o: PlanOptions, keys: seq<string>): seq<PlanAction> {
    if keys == [] then []
    else RemotePushes(local, remote, o, keys[..|keys| - 1]) + RemoteStep(local, remote, o, keys[|keys| - 1])
  }

  function RemoteStep(local: LocalManifest, remote: RemoteManifest, o: PlanOptions, path: string): seq<PlanAction> {
    if path in remote.entries && path !in local.entries then AsList(RemoteAction(local, remote, o, path)) else []
  }

  function UnchangedCount(local: LocalManifest, remote: RemoteManifest, keys: seq<string>): nat {
    if keys == [] then 0
    else UnchangedCount(local, remote, keys[..|keys| - 1])
         + if CountsUnchanged(local, remote, keys[|keys| - 1]) then 1 else 0
  }

  function RetainedCount(local: LocalManifest, o: PlanOptions, keys: seq<string>): nat {
    if keys == [] then 0
    else RetainedCount(local, o, keys[..|keys| - 1])
         + if keys[|keys| - 1] !in local.entries && Retains(local, o, keys[|keys| - 1]) then 1 else 0
  }

  lemma {:induction false} UnchangedCountIsSize(local: LocalManifest, remote: RemoteManifest, keys: seq<string>)
    requires KeyOrder(keys)
    ensures UnchangedCount(local, remote, keys) == |UnchangedPaths(local, remote, Elements(keys))|
  {
    if keys == [] {
      assert UnchangedPaths(local, remote, Elements(keys)) == {};
    } else {
      var init, last := keys[..|keys| - 1], keys[|keys| - 1];
      LastKeyIsNew(keys);
      hide KeyOrder, PathLess;
      UnchangedCountIsSize(local, remote, init);
      var before := UnchangedPaths(local, remote, Elements(init));
      if CountsUnchanged(local, remote, last) {
        assert UnchangedPaths(local, remote, Elements(keys)) == before + {last};
      } else {
        assert UnchangedPaths(local, remote, Elements(keys)) == before;
      }
    }
  }

  lemma {:induction false} RetainedCountIsSize(local: LocalManifest, o: PlanOptions, keys: seq<string>)
    requires KeyOrder(keys)
    ensures RetainedCount(local, o, keys) == |RetainedPaths(local, o, Elements(keys))|
  {
    if keys == [] {
      assert RetainedPaths(local, o, Elements(keys)) == {};
    } else {
      var init, last := keys[..|keys| - 1], keys[|keys| - 1];
      LastKeyIsNew(keys);
      hide RetainedPaths, Retains, KeyOrder, PathLess, LocalManifest.Protects;
      RetainedCountIsSize(local, o, init);
      OneMoreRetained(local, o, Elements(init), last);
    }
  }

  lemma OneMoreRetained(local: LocalManifest, o: PlanOptions, paths: set<string>, path: string)
    requires path !in paths
    ensures |RetainedPaths(local, o, paths + {path})|
            == |RetainedPaths(local, o, paths)| + if path !in local.entries && Retains(local, o, path) then 1 else 0
  {
    hide LocalManifest.Protects;
    if path !in local.entries && Retains(local, o, path) {
      assert RetainedPaths(local, o, paths + {path}) == RetainedPaths(local, o, paths) + {path};
    } else {
      assert RetainedPaths(local, o, paths + {path}) == RetainedPaths(local, o, paths);
    }
  }

  lemma DecisionKeepsPath(local: LocalManifest, remote: RemoteManifest, o: PlanOptions, path: string)
    requires path in PathUnion(local, remote)
    ensures var decision := ActionFor(local, remote, o, path); decision.Some? ==> decision.value.path == path
  {
  }

  lemma FreshElement(s: set<PlanAction>, a: PlanAction)
    requires a !in s
    ensures multiset(s + {a}) == multiset(s) + multiset([a])
  {
  }

  lemma DecidedOneMore(
    local: LocalManifest, remote: RemoteManifest, o: PlanOptions, paths: set<string>, path: string)
    requires paths <= PathUnion(local, remote) && path in PathUnion(local, remote) && path !in paths
    ensures multiset(DecidedActions(local, remote, o, paths + {path}))
            == multiset(DecidedActions(local, remote, o, paths)) + multiset(AsList(ActionFor(local, remote, o, path)))
  {
    var before := DecidedActions(local, remote, o, paths);
    var decision := ActionFor(local, remote, o, path);
    if decision == None {
      assert DecidedActions(local, remote, o, paths + {path}) == before;
    } else {
      DecisionKeepsPath(local, remote, o, path);
      forall b | b in before ensures b.path != path {
        var p :| p in paths && ActionFor(local, remote, o, p) == Some(b);
        DecisionKeepsPath(local, remote, o, p);
      }
      assert DecidedActions(local, remote, o, paths + {path}) == before + {decision.value};
      FreshElement(before, decision.value);
    }
  }

  ghost function Elements(keys: seq<string>): set<string> {
    set k | k in keys
  }

  lemma LastKeyIsNew(keys: seq<string>)
    requires keys != [] && KeyOrder(keys)
    ensures keys[|keys| - 1] !in keys[..|keys| - 1]
    ensures Elements(keys) == Elements(keys[..|keys| - 1]) + {keys[|keys| - 1]}
    ensures KeyOrder(keys[..|keys| - 1])
  {
    var last := |keys| - 1;
    assert keys == keys[..last] + [keys[last]];
    if keys[last] in keys[..last] {
      var i :| 0 <= i < last && keys[i] == keys[last];
      PathLessIrreflexive(keys[i]);
    }
  }

  lemma {:induction false} LocalPushesDecide(local: LocalManifest, remote: RemoteManifest, o: PlanOptions, keys: seq<string>)
    requires KeyOrder(keys) && forall k :: k in keys ==> k in local.entries
    ensures Elements(keys) <= PathUnion(local, remote)
    ensures multiset(LocalPushes(local, remote, o, keys)) == multiset(DecidedActions(local, remote, o, Elements(keys)))
  {
    if keys == [] {
      assert DecidedActions(local, remote, o, Elements(keys)) == {};
    } else {
      var init := keys[..|keys| - 1];
      LastKeyIsNew(keys);
      LocalPushesDecide(local, remote, o, init);
      DecidedOneMore(local, remote, o, Elements(init), keys[|keys| - 1]);
    }
  }

  lemma {:induction false} RemotePushesDecide(local: LocalManifest, remote: RemoteManifest, o: PlanOptions, keys: seq<string>)
    requires KeyOrder(keys) && forall k :: k in keys ==> k in remote.entries
    ensures local.entries.Keys + Elements(keys) <= PathUnion(local, remote)
    ensures multiset(DecidedActions(local, remote, o, local.entries.Keys)) + multiset(RemotePushes(local, remote, o, keys))
            == multiset(DecidedActions(local, remote, o, local.entries.Keys + Elements(keys)))
  {
    if keys == [] {
      assert local.entries.Keys + Elements(keys) == local.entries.Keys;
    } else {
      var init, last := keys[..|keys| - 1], keys[|keys| - 1];
      LastKeyIsNew(keys);
      RemotePushesDecide(local, remote, o, init);
      var paths := local.entries.Keys + Elements(init);
      if last in local.entries {
        assert local.entries.Keys + Elements(keys) == paths;
      } else {
        DecidedOneMore(local, remote, o, paths, last);
        assert local.entries.Keys + Elements(keys) == paths + {last};
      }
    }
  }

  lemma ConcatMultiset(a: seq<PlanAction>, b: seq<PlanAction>, c: seq<PlanAction>)
    ensures multiset(a + b + c) == multiset(a) + (multiset(b) + multiset(c))
  {
  }

  lemma PushesMakePlan(
    local: LocalManifest, remote: RemoteManifest, o: PlanOptions, localKeys: seq<string>, remoteKeys: seq<string>)
    requires KeyOrder(localKeys) && KeyOrder(remoteKeys)
    requires forall k :: k in localKeys <==> k in local.entries
    requires forall k :: k in remoteKeys <==> k in remote.entries
    ensures IsPlan(SortActions(ReportedConflicts(remote.conflicts) + LocalPushes(local, remote, o, localKeys)
                               + RemotePushes(local, remote, o, remoteKeys)), local, remote, o)
  {
    hide LocalPushes, RemotePushes, ReportedConflicts, DecidedActions, SortActions, SortedActions;
    var reported, fromLocal, fromRemote :=
      ReportedConflicts(remote.conflicts), LocalPushes(local, remote, o, localKeys), RemotePushes(local, remote, o, remoteKeys);
    SortActionsSorts(reported + fromLocal + fromRemote);
    assert Elements(localKeys) == local.entries.Keys;
    assert local.entries.Keys + Elements(remoteKeys) == PathUnion(local, remote);
    var decided := multiset(DecidedActions(local, remote, o, PathUnion(local, remote)));
    assert multiset(fromLocal) + multiset(fromRemote) == decided by {
      LocalPushesDecide(local, remote, o, localKeys);
      RemotePushesDecide(local, remote, o, remoteKeys);
    }
    ConcatMultiset(reported, fromLocal, fromRemote);
  }

  lemma LastReported(conflicts: seq<(string, string)>, i: nat)
    requires i < |conflicts|
    ensures ReportedConflicts(conflicts[..i + 1])
            == ReportedConflicts(conflicts[..i]) + [Conflict(conflicts[i].0, Reported(conflicts[i].1))]
  {
    assert conflicts[..i + 1][..i] == conflicts[..i];
  }

  lemma LastLocalPush(local: LocalManifest, remote: RemoteManifest, o: PlanOptions, keys: seq<string>, i: nat)
    requires i < |keys|
    ensures LocalPushes(local, remote, o, keys[..i + 1])
            == LocalPushes(local, remote, o, keys[..i]) + LocalStep(local, remote, o, keys[i])
    ensures UnchangedCount(local, remote, keys[..i + 1])
            == UnchangedCount(local, remote, keys[..i]) + if CountsUnchanged(local, remote, keys[i]) then 1 else 0
  {
    assert keys[..i + 1][..i] == keys[..i];
  }

  lemma LastRemotePush(local: LocalManifest, remote: RemoteManifest, o: PlanOptions, keys: seq<string>, i: nat)
    requires i < |keys|
    ensures RemotePushes(local, remote, o, keys[..i + 1])
            == RemotePushes(local, remote, o, keys[..i]) + RemoteStep(local, remote, o, keys[i])
    ensures RetainedCount(local, o, keys[..i + 1])
            == RetainedCount(local, o, keys[..i]) + if keys[i] !in local.entries && Retains(local, o, keys[i]) then 1 else 0
  {
    assert keys[..i + 1][..i] == keys[..i];
  }

  lemma NoPushes(local: LocalManifest, remote: RemoteManifest, o: PlanOptions)
    ensures LocalPushes(local, remote, o, []) == [] && UnchangedCount(local, remote, []) == 0
    ensures RemotePushes(local, remote, o, []) == [] && RetainedCount(local, o, []) == 0
  {
  }

  /** The loop over the conflicts found by the remote scan. */
  method VisitConflicts(plan: Plan, conflicts: seq<(string, string)>)
    requires plan.Valid() && plan.actions == []
    modifies plan
    ensures plan.Valid() && plan.actions == ReportedConflicts(conflicts)
    ensures plan.unchangedEntries == old(plan.unchangedEntries) && plan.retainedRemote == old(plan.retainedRemote)
    ensures plan.warnings == old(plan.warnings)
  {
    for i := 0 to |conflicts|
      invariant plan.Valid() && plan.actions == ReportedConflicts(conflicts[..i])
      invariant plan.unchangedEntries == old(plan.unchangedEntries) && plan.retainedRemote == old(plan.retainedRemote)
      invariant plan.warnings == old(plan.warnings)
    {
      LastReported(conflicts, i);
      plan.Push(Conflict(conflicts[i].0, Reported(conflicts[i].1)));
    }
    assert conflicts[..|conflicts|] == conflicts;
  }

  method VisitLocalPath(plan: Plan, local: LocalManifest, remote: RemoteManifest, o: PlanOptions, path: string)
    requires plan.Valid() && path in local.entries
    modifies plan
    ensures plan.Valid() && plan.retainedRemote == old(plan.retainedRemote) && plan.warnings == old(plan.warnings)
    ensures plan.unchangedEntries == old(plan.unchangedEntries) + if CountsUnchanged(local, remote, path) then 1 else 0
    ensures plan.actions == old(plan.actions) + LocalStep(local, remote, o, path)
  {
    if CountsUnchanged(local, remote, path) {
      plan.unchangedEntries := plan.unchangedEntries + 1;
    }
    plan.PushDecision(LocalAction(local, remote, o, path));
  }

  /** The first loop over entries: what has to be created, uploaded or replaced. */
  method VisitLocal(plan: Plan, local: LocalManifest, remote: RemoteManifest, o: PlanOptions, keys: seq<string>)
    requires plan.Valid() && plan.unchangedEntries == 0
    requires forall k :: k in keys ==> k in local.entries
    modifies plan
    ensures plan.Valid() && plan.retainedRemote == old(plan.retainedRemote) && plan.warnings == old(plan.warnings)
    ensures plan.unchangedEntries == UnchangedCount(local, remote, keys)
    ensures plan.actions == old(plan.actions) + LocalPushes(local, remote, o, keys)
  {
    hide LocalPushes, LocalStep, UnchangedCount, CountsUnchanged, Plan.Valid;
    NoPushes(local, remote, o);
    for i := 0 to |keys|
      invariant plan.Valid() && plan.retainedRemote == old(plan.retainedRemote) && plan.warnings == old(plan.warnings)
      invariant plan.unchangedEntries == UnchangedCount(local, remote, keys[..i])
      invariant plan.actions == old(plan.actions) + LocalPushes(local, remote, o, keys[..i])
    {
      LastLocalPush(local, remote, o, keys, i);
      VisitLocalPath(plan, local, remote, o, keys[i]);
    }
    assert keys[..|keys|] == keys;
  }

  method VisitRemotePath(plan: Plan, local: LocalManifest, remote: RemoteManifest, o: PlanOptions, path: string)
    requires plan.Valid() && path in remote.entries
    modifies plan
    ensures plan.Valid() && plan.unchangedEntries == old(plan.unchangedEntries) && plan.warnings == old(plan.warnings)
    ensures plan.retainedRemote
            == old(plan.retainedRemote) + if path !in local.entries && Retains(local, o, path) then 1 else 0
    ensures plan.actions == old(plan.actions) + RemoteStep(local, remote, o, path)
  {
    if path !in local.entries {
      if Retains(local, o, path) {
        plan.retainedRemote := plan.retainedRemote + 1;
      }
      plan.PushDecision(RemoteAction(local, remote, o, path));
    }
  }

  /** The second loop over entries: what exists only remotely. */
  method VisitRemote(plan: Plan, local: LocalManifest, remote: RemoteManifest, o: PlanOptions, keys: seq<string>)
    requires plan.Valid() && plan.retainedRemote == 0
    requires forall k :: k in keys ==> k in remote.entries
    modifies plan
    ensures plan.Valid() && plan.unchangedEntries == old(plan.unchangedEntries) && plan.warnings == old(plan.warnings)
    ensures plan.retainedRemote == RetainedCount(local, o, keys)
    ensures plan.actions == old(plan.actions) + RemotePushes(local, remote, o, keys)
  {
    hide RemotePushes, RemoteStep, RetainedCount, Retains, Plan.Valid;
    NoPushes(local, remote, o);
    for i := 0 to |keys|
      invariant plan.Valid() && plan.unchangedEntries == old(plan.unchangedEntries) && plan.warnings == old(plan.warnings)
      invariant plan.retainedRemote == RetainedCount(local, o, keys[..i])
      invariant plan.actions == old(plan.actions) + RemotePushes(local, remote, o, keys[..i])
    {
      LastRemotePush(local, remote, o, keys, i);
      VisitRemotePath(plan, local, remote, o, keys[i]);
    }
    assert keys[..|keys|] == keys;
  }

  /** `plan_sync`. */
  method PlanSync(local: LocalManifest, remote: RemoteManifest, o: PlanOptions) returns (plan: Plan)
    ensures fresh(plan) && plan.Valid()
    ensures IsPlan(plan.actions, local, remote, o)
    ensures plan.warnings == local.warnings + remote.warnings
    ensures plan.unchangedEntries == |UnchangedPaths(local, remote, local.entries.Keys)|
    ensures plan.retainedRemote == |RetainedPaths(local, o, remote.entries.Keys)|
  {
    hide IsPlan, LocalPushes, RemotePushes, ReportedConflicts, UnchangedCount, RetainedCount, UnchangedPaths,
         RetainedPaths, KeyOrder, Plan.Valid, SortActions;
    plan := new Plan();
    plan.warnings := local.warnings + remote.warnings;
    VisitConflicts(plan, remote.conflicts);
    var localKeys := SortedKeys(local.entries.Keys);
    VisitLocal(plan, local, remote, o, localKeys);
    var remoteKeys := SortedKeys(remote.entries.Keys);
    VisitRemote(plan, local, remote, o, remoteKeys);
    plan.SortInPlace();
    UnchangedCountIsSize(local, remote, localKeys);
    RetainedCountIsSize(local, o, remoteKeys);
    assert Elements(localKeys) == local.entries.Keys && Elements(remoteKeys) == remote.entries.Keys;
    PushesMakePlan(local, remote, o, localKeys, remoteKeys);
  }

  // ---- Conservation ----------------------------------------------------------------------------

  lemma {:induction false} ReportedAreConflicts(conflicts: seq<(string, string)>)
    ensures forall a :: a in ReportedConflicts(conflicts)
                        <==> a.Conflict? && a.reason.Reported? && (a.path, a.reason.text) in conflicts
  {
    if conflicts != [] {
      var init, last := conflicts[..|conflicts| - 1], conflicts[|conflicts| - 1];
      ReportedAreConflicts(init);
      assert conflicts == init + [last];
    }
  }

  /** A plan holds the scan's conflicts and, apart from them, the decisions. */
  lemma PlannedOrReported(
    actions: seq<PlanAction>, local: LocalManifest, remote: RemoteManifest, o: PlanOptions, a: PlanAction)
    requires IsPlan(actions, local, remote, o)
    ensures a in actions <==>
              || (a.Conflict? && a.reason.Reported? && (a.path, a.reason.text) in remote.conflicts)
              || (a.path in PathUnion(local, remote) && ActionFor(local, remote, o, a.path) == Some(a))
  {
    hide ActionFor;
    var reported, decided := ReportedConflicts(remote.conflicts), DecidedActions(local, remote, o, PathUnion(local, remote));
    ReportedAreConflicts(remote.conflicts);
    assert a in actions <==> a in multiset(actions);
    assert a in reported <==> a in multiset(reported);
    assert a in decided <==> a in multiset(decided);
    if a in decided {
      var p :| p in PathUnion(local, remote) && ActionFor(local, remote, o, p) == Some(a);
      DecisionKeepsPath(local, remote, o, p);
    }
  }

  lemma ReportedReachPlan(actions: seq<PlanAction>, conflicts: seq<(string, string)>, rest: multiset<PlanAction>)
    requires multiset(actions) == multiset(ReportedConflicts(conflicts)) + rest
    ensures conflicts != [] ==> exists a :: a in actions && a.Conflict?
  {
    if conflicts != [] {
      var first := ReportedConflicts(conflicts)[0];
      ReportedAreConflicts(conflicts);
      assert first in multiset(actions);
      assert first in actions;
    }
  }

  /** A conflict-free plan holds exactly the decisions of the single paths, each once. */
  lemma PlanElements(actions: seq<PlanAction>, local: LocalManifest, remote: RemoteManifest, o: PlanOptions)
    requires IsPlan(actions, local, remote, o) && ConflictFree(actions)
    ensures remote.conflicts == []
    ensures multiset(actions) == multiset(DecidedActions(local, remote, o, PathUnion(local, remote)))
    ensures forall a :: a in actions
                        <==> a.path in PathUnion(local, remote) && ActionFor(local, remote, o, a.path) == Some(a)
  {
    var decided := DecidedActions(local, remote, o, PathUnion(local, remote));
    ReportedReachPlan(actions, remote.conflicts, multiset(decided));
    forall a ensures a in actions <==> a.path in PathUnion(local, remote) && ActionFor(local, remote, o, a.path) == Some(a) {
      assert a in actions <==> a in multiset(actions);
      assert a in decided <==> a in multiset(decided);
      if a in decided {
        var p :| p in PathUnion(local, remote) && ActionFor(local, remote, o, p) == Some(a);
        DecisionKeepsPath(local, remote, o, p);
      }
    }
  }

  /** No path occurs in two actions of a conflict-free plan, so looking an action up by kind and
      path is unambiguous. */
  lemma {:induction false} PlanPathsDistinct(
    actions: seq<PlanAction>, local: LocalManifest, remote: RemoteManifest, o: PlanOptions, i: nat, j: nat)
    requires IsPlan(actions, local, remote, o) && ConflictFree(actions)
    requires i < j < |actions|
    ensures actions[i].path != actions[j].path
  {
    PlanElements(actions, local, remote, o);
    RepeatedElement(actions, i, j);
    assert actions[i] in actions && actions[j] in actions;
  }

  /** Nothing remote is overwritten or deleted unless the corresponding option is set, and protected
      paths are never deleted. */
  lemma DestructiveOnlyOnRequest(
    actions: seq<PlanAction>, local: LocalManifest, remote: RemoteManifest, o: PlanOptions, a: PlanAction)
    requires IsPlan(actions, local, remote, o) && a in actions
    ensures a.ReplaceFile? ==> o.overwrite && a.path in local.entries && a.path in remote.entries
    ensures a.DeleteFile? || a.DeleteDirectory? ==>
              o.delete && !local.Protects(a.path) && a.path !in local.entries && a.path in remote.entries
  {
    ReportedAreConflicts(remote.conflicts);
    var reported := ReportedConflicts(remote.conflicts);
    var decided := DecidedActions(local, remote, o, PathUnion(local, remote));
    assert a in multiset(actions);
    assert a in multiset(reported) || a in multiset(decided);
    if a in multiset(reported) {
      assert a in reported;
    }
  }

  lemma {:induction false} CountsCoverActions(actions: seq<PlanAction>)
    ensures Count(actions, 0) + Count(actions, 1) + Count(actions, 2) + Count(actions, 3) + Count(actions, 4)
            + Count(actions, 5) == |actions|
  {
    if actions != [] {
      CountsCoverActions(actions[..|actions| - 1]);
    }
  }

  ghost function ActivePaths(local: LocalManifest, remote: RemoteManifest, o: PlanOptions, paths: set<string>): set<string>
    requires paths <= PathUnion(local, remote)
  {
    set p | p in paths && ActionFor(local, remote, o, p).Some?
  }

  lemma {:induction false} ActiveSize(local: LocalManifest, remote: RemoteManifest, o: PlanOptions, paths: set<string>)
    requires paths <= PathUnion(local, remote)
    ensures |multiset(DecidedActions(local, remote, o, paths))| == |ActivePaths(local, remote, o, paths)|
  {
    if paths == {} {
      assert DecidedActions(local, remote, o, paths) == {};
      assert ActivePaths(local, remote, o, paths) == {};
    } else {
      var p :| p in paths;
      var rest := paths - {p};
      assert paths == rest + {p};
      ActiveSize(local, remote, o, rest);
      DecidedOneMore(local, remote, o, rest, p);
      if ActionFor(local, remote, o, p).Some? {
        assert ActivePaths(local, remote, o, paths) == ActivePaths(local, remote, o, rest) + {p};
      } else {
        assert ActivePaths(local, remote, o, paths) == ActivePaths(local, remote, o, rest);
      }
    }
  }

  /** Every path of the two trees is accounted for exactly once by the counters of a conflict-free
      plan. */
  lemma PlanConservation(actions: seq<PlanAction>, local: LocalManifest, remote: RemoteManifest, o: PlanOptions)
    requires IsPlan(actions, local, remote, o) && ConflictFree(actions)
    ensures Count(actions, 1) + Count(actions, 2) + Count(actions, 3) + Count(actions, 4) + Count(actions, 5)
            + |UnchangedPaths(local, remote, local.entries.Keys)| + |RetainedPaths(local, o, remote.entries.Keys)|
            == |PathUnion(local, remote)|
  {
    PlanElements(actions, local, remote, o);
    ActiveSize(local, remote, o, PathUnion(local, remote));
    assert |multiset(actions)| == |actions|;
    CountsCoverActions(actions);
    NoneHasRank(actions, 0);
    PathClasses(actions, local, remote, o);
  }

  lemma PathClass(actions: seq<PlanAction>, local: LocalManifest, remote: RemoteManifest, o: PlanOptions, p: string)
    requires IsPlan(actions, local, remote, o) && ConflictFree(actions) && p in PathUnion(local, remote)
    ensures p in ActivePaths(local, remote, o, PathUnion(local, remote)) <==>
              p !in UnchangedPaths(local, remote, local.entries.Keys) && p !in RetainedPaths(local, o, remote.entries.Keys)
  {
    PlanElements(actions, local, remote, o);
    DecisionKeepsPath(local, remote, o, p);
    hide LocalManifest.Protects, ParentIsWritable, SortedActions, DecidedActions, ReportedConflicts;
  }

  /** Acted upon, unchanged and retained paths partition the union of the two trees. */
  lemma PathClasses(actions: seq<PlanAction>, local: LocalManifest, remote: RemoteManifest, o: PlanOptions)
    requires IsPlan(actions, local, remote, o) && ConflictFree(actions)
    ensures |ActivePaths(local, remote, o, PathUnion(local, remote))|
            + |UnchangedPaths(local, remote, local.entries.Keys)| + |RetainedPaths(local, o, remote.entries.Keys)|
            == |PathUnion(local, remote)|
  {
    var paths := PathUnion(local, remote);
    var active := ActivePaths(local, remote, o, paths);
    var same := UnchangedPaths(local, remote, local.entries.Keys);
    var retained := RetainedPaths(local, o, remote.entries.Keys);
    forall p | p in paths
      ensures p in active <==> p !in same && p !in retained
    {
      PathClass(actions, local, remote, o, p);
    }
    assert same !! retained;
    hide IsPlan, ConflictFree, ActivePaths, UnchangedPaths, RetainedPaths, PathUnion;
    PartitionSize(paths, active, same, retained);
  }

  lemma PartitionSize(all: set<string>, a: set<string>, b: set<string>, c: set<string>)
    requires a <= all && b <= all && c <= all && b !! c
    requires forall p :: p in all ==> (p in a <==> p !in b && p !in c)
    ensures |a| + |b| + |c| == |all|
  {
    assert all == a + b + c;
    assert |a + b| == |a| + |b|;
    assert |a + b + c| == |a + b| + |c|;
  }

  lemma {:induction false} NoneHasRank(actions: seq<PlanAction>, rank: nat)
    requires forall a :: a in actions ==> ActionRank(a) != rank
    ensures Count(actions, rank) == 0
  {
    if actions != [] {
      NoneHasRank(actions[..|actions| - 1], rank);
    }
  }
}

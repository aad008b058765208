/** What a pull plan means (src/sync/pull.rs:201-372): which actions are called for by the two trees, the
    options and the exclude patterns, which remote paths are refused, and in which order the actions
    stand. */
module PullMeaning {
  import opened ActionOrder
  import opened FileNames
  import opened LocalTree
  import opened Manifests
  import opened Paths
  import opened PullPlanner
  import opened Splitting

  // ---- Excluded paths --------------------------------------------------------------------------

  /** The path or a directory above it matches a pattern, as a file or as a directory. */
  predicate Skipped(ex: Excludes, path: string) {
    exists k :: 0 <= k <= |path| && (k == |path| || path[k] == '/') && (ex(path[..k]) || ex(path[..k] + "/"))
  }

  lemma {:induction false} ExcludedIff(ex: Excludes, path: string)
    ensures IsExcluded(ex, path) <==> Skipped(ex, path)
    decreases |path|
  {
    var i := LastSlash(path);
    assert path[..|path|] == path;
    if i >= 0 {
      var above := path[..i];
      ExcludedIff(ex, above);
      forall k | 0 <= k <= i ensures above[..k] == path[..k] {
      }
      forall k | i < k < |path| ensures path[k] != '/' {
        NoLaterSlash(path, k);
      }
    } else {
      forall k | 0 <= k < |path| ensures path[k] != '/' {
        NoLaterSlash(path, k);
      }
    }
  }

  // ---- Unsafe paths ----------------------------------------------------------------------------

  /** One step of following a path from a directory, given by the names that lead to it. */
  function Walk(directory: seq<string>, component: string): seq<string> {
    if component == "" || component == "." then directory
    else if component == ".." then (if directory == [] then [] else directory[..|directory| - 1])
    else directory + [component]
  }

  /** Following the component leads one directory further down, whatever the system's separator is. */
  ghost predicate LeadsDown(component: string) {
    && (forall directory: seq<string> {:trigger Walk(directory, component)} ::
          Walk(directory, component) == directory + [component])
    && '\\' !in component && '\0' !in component
  }

  lemma SafeLeadsDown(name: string)
    ensures SafeName(name) <==> LeadsDown(name)
  {
    if !SafeName(name) {
      assert Walk([], name) != [name] || '\\' in name || '\0' in name;
      assert [] + [name] == [name];
    }
  }

  /** A name that the bucket accepts is only ever refused for a backslash or a null character. */
  lemma AcceptedLeadsDown(name: string)
    requires ValidFileName(name)
    ensures LeadsDown(name) <==> '\\' !in name && '\0' !in name
  {
    AcceptedNameIff(name);
    SafeLeadsDown(name);
  }

  ghost predicate AllLeadDown(components: seq<string>) {
    LeadDownBefore(components, |components|)
  }

  ghost predicate LeadDownBefore(components: seq<string>, n: nat)
    requires n <= |components|
  {
    forall i :: 0 <= i < n ==> LeadsDown(components[i])
  }

  /** The first component that does not lead down. */
  ghost predicate FirstBad(components: seq<string>, component: string) {
    exists i: nat :: FirstBadAt(components, component, i)
  }

  ghost predicate FirstBadAt(components: seq<string>, component: string, i: nat) {
    i < |components| && components[i] == component && !LeadsDown(component) && LeadDownBefore(components, i)
  }

  lemma OneComponent(name: string)
    ensures AllLeadDown([name]) <==> LeadsDown(name)
    ensures !LeadsDown(name) ==> FirstBad([name], name)
  {
    hide LeadsDown;
    assert [name][0] == name;
    assert !LeadsDown(name) ==> FirstBadAt([name], name, 0);
  }

  lemma OneMoreComponent(components: seq<string>, name: string, bad: string)
    ensures AllLeadDown(components + [name]) <==> AllLeadDown(components) && LeadsDown(name)
    ensures AllLeadDown(components) && !LeadsDown(name) ==> FirstBad(components + [name], name)
    ensures FirstBad(components, bad) ==> FirstBad(components + [name], bad) && !AllLeadDown(components)
  {
    hide LeadsDown;
    var all := components + [name];
    assert all[|components|] == name;
    assert forall i :: 0 <= i < |components| ==> all[i] == components[i];
    if AllLeadDown(components) && !LeadsDown(name) {
      assert FirstBadAt(all, name, |components|);
    }
    if i: nat :| FirstBadAt(components, bad, i) {
      assert FirstBadAt(all, bad, i);
    }
  }

  lemma {:induction false} FirstUnsafeIff(path: string)
    ensures FirstUnsafe(path) == None <==> AllLeadDown(Split(path, '/'))
    ensures FirstUnsafe(path).Some? ==> FirstBad(Split(path, '/'), FirstUnsafe(path).value)
    decreases |path|
  {
    hide LeadsDown, AllLeadDown, FirstBad;
    var last := LastSlash(path);
    var name := path[last + 1..];
    EntryNameWithoutSlash(path);
    SafeLeadsDown(name);
    if last < 0 {
      SplitFirst(path, "", '/');
      assert path == name;
      OneComponent(name);
    } else {
      var above := path[..last];
      FirstUnsafeIff(above);
      SplitLast(above, name, '/');
      assert path == above + ['/'] + name;
      var bad := FirstUnsafe(above);
      OneMoreComponent(Split(above, '/'), name, if bad.Some? then bad.value else "");
    }
  }

  lemma FirstBadUnique(components: seq<string>, a: string, b: string)
    requires FirstBad(components, a) && FirstBad(components, b)
    ensures a == b && !AllLeadDown(components)
  {
    hide LeadsDown;
    var i: nat :| FirstBadAt(components, a, i);
    var k: nat :| FirstBadAt(components, b, k);
  }

  // ---- What is called for ----------------------------------------------------------------------

  predicate StraySlash(path: string) {
    path == "" || path[0] == '/' || path[|path| - 1] == '/'
  }

  /** A remote entry that is neither excluded nor refused for its path. */
  ghost predicate Pulled(remote: RemoteManifest, ex: Excludes, path: string, kind: EntryKind) {
    && path in remote.entries && remote.entries[path].kind == kind && !Skipped(ex, path)
    && !StraySlash(path) && AllLeadDown(Split(path, '/'))
  }

  predicate LocalIs(local: LocalManifest, path: string, kind: EntryKind) {
    path in local.entries && local.entries[path].kind == kind
  }

  ghost predicate FilesDiffer(local: LocalManifest, remote: RemoteManifest, ex: Excludes, path: string) {
    && Pulled(remote, ex, path, File) && LocalIs(local, path, File)
    && (remote.entries[path].hash.None? || remote.entries[path].hash != local.entries[path].hash)
  }

  ghost predicate Unwanted(local: LocalManifest, remote: RemoteManifest, o: PullOptions, ex: Excludes, path: string, kind: EntryKind) {
    && LocalIs(local, path, kind) && path !in remote.entries && !Skipped(ex, path) && o.delete
    && forall p :: p in local.protectedPaths ==> p != path && !Under(path, p) && !Under(p, path)
  }

  /** The two trees, the options and the patterns call for this action. */
  ghost predicate CalledFor(local: LocalManifest, remote: RemoteManifest, o: PullOptions, ex: Excludes, a: PullAction) {
    var path := a.path;
    match a
    case CreateDirectory(_) => Pulled(remote, ex, path, Directory) && path !in local.entries
    case DownloadFile(_, id, size) =>
      Pulled(remote, ex, path, File) && path !in local.entries && Describes(remote.entries[path], id, size)
    case ReplaceFile(_, id, size) =>
      FilesDiffer(local, remote, ex, path) && o.overwrite && Describes(remote.entries[path], id, size)
    case DeleteFile(_) => Unwanted(local, remote, o, ex, path, File)
    case DeleteDirectory(_) => Unwanted(local, remote, o, ex, path, Directory)
    case Conflict(_, reason) =>
      match reason
      case Reported(text) => (path, text) in remote.conflicts && !Skipped(ex, path)
      case InvalidPath => path in remote.entries && !Skipped(ex, path) && StraySlash(path)
      case UnsafeComponent(c) => path in remote.entries && !Skipped(ex, path) && !StraySlash(path) && FirstBad(Split(path, '/'), c)
      case KindMismatch(remoteKind, localKind) =>
        Pulled(remote, ex, path, remoteKind) && LocalIs(local, path, localKind) && remoteKind != localKind
      case FileDiffers(id) => FilesDiffer(local, remote, ex, path) && !o.overwrite && remote.entries[path].id == id
  }

  predicate Describes(e: RemoteEntry, id: nat, size: nat) {
    e.id == id && e.size == size
  }

  lemma DecisionIsCalledFor(
    local: LocalManifest, remote: RemoteManifest, o: PullOptions, ex: Excludes, a: PullAction)
    requires !(a.Conflict? && a.reason.Reported?)
    ensures CalledFor(local, remote, o, ex, a) <==> Decision(local, remote, o, ex, a.path) == Some(a)
  {
    hide FirstUnsafe, AllLeadDown, FirstBad, Skipped, IsExcluded;
    var path := a.path;
    ExcludedIff(ex, path);
    FirstUnsafeIff(path);
    if FirstUnsafe(path).Some? {
      forall c | FirstBad(Split(path, '/'), c) ensures FirstUnsafe(path) == Some(c) {
        FirstBadUnique(Split(path, '/'), c, FirstUnsafe(path).value);
      }
    } else {
      NoneBad(path);
    }
  }

  lemma NoneBad(path: string)
    requires AllLeadDown(Split(path, '/'))
    ensures forall c :: !FirstBad(Split(path, '/'), c)
  {
    forall c ensures !FirstBad(Split(path, '/'), c) {
      if FirstBad(Split(path, '/'), c) { FirstBadUnique(Split(path, '/'), c, c); }
    }
  }

  /** A plan holds an action if and only if the trees, the options and the patterns call for it: in
      particular, with `overwrite` a conflict that the scan has not reported means differing kinds or
      a path that does not lead down from the root step by step. */
  lemma PlannedIffCalledFor(
    actions: seq<PullAction>, local: LocalManifest, remote: RemoteManifest, o: PullOptions, ex: Excludes, a: PullAction)
    requires IsPullPlan(actions, local, remote, o, ex)
    ensures a in actions <==> CalledFor(local, remote, o, ex, a)
  {
    hide Decision, CalledFor;
    PlannedOrReported(actions, local, remote, o, ex, a);
    if a.Conflict? && a.reason.Reported? {
      ReportedIsNotDecided(local, remote, o, ex, a);
    } else {
      DecisionIsCalledFor(local, remote, o, ex, a);
    }
  }

  lemma ReportedIsNotDecided(local: LocalManifest, remote: RemoteManifest, o: PullOptions, ex: Excludes, a: PullAction)
    requires a.Conflict? && a.reason.Reported?
    ensures CalledFor(local, remote, o, ex, a) <==> (a.path, a.reason.text) in remote.conflicts && !IsExcluded(ex, a.path)
    ensures Decision(local, remote, o, ex, a.path) != Some(a)
  {
    ExcludedIff(ex, a.path);
  }

  // ---- The order of a plan -----------------------------------------------------------------------

  /** Conflicts, then what is created from the top down, then downloads and replacements, then
      deletions of files and of directories from the bottom up; by path where that leaves a choice. */
  predicate InOrder(a: PullAction, b: PullAction) {
    && (b.Conflict? ==> a.Conflict?)
    && (b.CreateDirectory? ==> a.Conflict? || a.CreateDirectory?)
    && (b.DownloadFile? ==> !a.ReplaceFile? && !a.DeleteFile? && !a.DeleteDirectory?)
    && (b.ReplaceFile? ==> !a.DeleteFile? && !a.DeleteDirectory?)
    && (b.DeleteFile? ==> !a.DeleteDirectory?)
    && (SameSort(a, b) ==>
          var up, down := PathDepth(a.path), PathDepth(b.path);
          && (if a.DeleteFile? || a.DeleteDirectory? then up >= down else up <= down)
          && (up == down ==> !PathLess(b.path, a.path)))
  }

  predicate SameSort(a: PullAction, b: PullAction) {
    match a
    case Conflict(_, _) => b.Conflict?
    case CreateDirectory(_) => b.CreateDirectory?
    case DownloadFile(_, _, _) => b.DownloadFile?
    case ReplaceFile(_, _, _) => b.ReplaceFile?
    case DeleteFile(_) => b.DeleteFile?
    case DeleteDirectory(_) => b.DeleteDirectory?
  }

  lemma PlanOrder(
    actions: seq<PullAction>, local: LocalManifest, remote: RemoteManifest, o: PullOptions, ex: Excludes, i: nat, j: nat)
    requires IsPullPlan(actions, local, remote, o, ex) && i < j < |actions|
    ensures InOrder(actions[i], actions[j])
  {
    hide PathDepth, PathLess;
    assert !KeyLess(PullKey(actions[j]), PullKey(actions[i]));
  }
}

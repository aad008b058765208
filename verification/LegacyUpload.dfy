/** Uploading a file to a bucket without atomic uploads (src/sync/mod.rs:263-270, src/file.rs:16-143,
    crates/ic-oss/src/bucket.rs:668-727): a file that does not fit into one call is created empty,
    filled chunk by chunk and completed by setting its hash. */
module LegacyUpload {
  import opened Collections
  import opened FileChunks
  import opened Paths
  import opened Manifests
  import opened Planner
  import opened Convergence
  import opened Execution
  import opened Orders
  import opened Server
  import opened Calls
  import ChunkUploader

  const MAX_FILE_SIZE_PER_CALL: nat := 1024 * 2048

  predicate IsLargeUpload(a: PlanAction) {
    a.UploadFile? && a.size > MAX_FILE_SIZE_PER_CALL
  }

  function Without(t: Tree, path: string): Tree {
    t.(entries := t.entries - {path})
  }

  /** The bucket stands after the first `k` actions of the order, and the file of the next one exists
      with `filled` of its bytes and with this hash. */
  ghost predicate Uploading(job: Job, order: seq<PlanAction>, k: nat, s: BucketState, served: seq<string>,
                            filled: nat, hash: Option<Digest>)
  {
    && k < |order| && order[k].UploadFile?
    && var path := order[k].path;
    && ValidState(s) && s.served == served + PathSeq(order[..k + 1])
    && Reached(job, Without(s.tree, path), PathsOf(order[..k]))
    && path in s.tree.entries
    && var e := s.tree.entries[path];
    && e.kind == File && e.status == 0 && e.size == order[k].size
    && e.filled == filled <= e.size && e.hash == hash
    && (hash == None || hash == LocalHash(job.local, path))
  }

  /** Part of a file that is not finished. */
  ghost predicate MidUpload(job: Job, order: seq<PlanAction>, s: BucketState, served: seq<string>) {
    exists k, filled, hash :: Uploading(job, order, k, s, served, filled, hash)
  }

  // ---- The steps of an upload ------------------------------------------------------------------

  lemma UploadIsDecided(run: Run, k: nat)
    requires k < |run.order| && run.order[k].UploadFile?
    ensures run.job.NoConflicts()
    ensures run.order[k].path in run.job.Paths() && run.job.Decision(run.order[k].path) == Some(run.order[k])
    ensures run.order[k].path in run.job.local.entries && run.order[k].path !in run.job.remote.entries
    ensures run.job.local.entries[run.order[k].path].hash.Some?
    ensures run.job.local.entries[run.order[k].path].size == run.order[k].size
  {
    PlanMembers(run.job, run.actions, run.order);
    assert run.order[k] in run.order;
  }

  lemma EmptyFileAccepted(run: Run, k: nat, s: BucketState, hash: Option<Digest>)
    requires k < |run.order| && run.order[k].UploadFile? && run.At(k, s)
    ensures FolderAt(s.tree, ParentPath(run.order[k].path))
    ensures Accepts(s.tree, CreateFile(FolderId(s.tree, ParentPath(run.order[k].path)), EntryName(run.order[k].path),
                                       run.order[k].size, hash), run.order[k].path)
  {
    OrderRunnable(run.job, run.actions, run.order, k, s, run.served);
    CreationAccepted(run.job, s.tree, PathsOf(run.order[..k]), run.order[k]);
  }

  lemma EmptyFileValid(s: BucketState, path: string, parent: nat, name: string, size: nat, hash: Option<Digest>)
    requires ValidState(s) && Accepts(s.tree, CreateFile(parent, name, size, hash), path)
    ensures ValidState(WithEmptyFile(s, path, parent, size, hash)) && path !in s.tree.entries
    ensures FolderIds(WithEmptyFile(s, path, parent, size, hash).tree) == FolderIds(s.tree)
  {
    var e := RemoteEntry(s.nextId, parent, File, size, 0, hash, 0);
    FreePlaceValid(s.tree, parent, name, path);
    AddedValid(s.tree, path, e);
    FolderIdsPut(s.tree, path, e);
    assert FolderIds(s.tree) - {path} == FolderIds(s.tree);
  }

  lemma WithoutAdded(s: BucketState, path: string, parent: nat, size: nat, hash: Option<Digest>)
    requires path !in s.tree.entries
    ensures path in WithEmptyFile(s, path, parent, size, hash).tree.entries
    ensures Without(WithEmptyFile(s, path, parent, size, hash).tree, path) == s.tree
  {
  }

  lemma ServedOneMore(order: seq<PlanAction>, k: nat, s: BucketState, served: seq<string>)
    requires k < |order| && s.served == served + PathSeq(order[..k])
    ensures s.served + [order[k].path] == served + PathSeq(order[..k + 1])
  {
    NextDone(order, k);
  }

  lemma UploadStarts(run: Run, k: nat, s: BucketState, parent: nat, hash: Option<Digest>)
    requires k < |run.order| && run.order[k].UploadFile? && run.At(k, s)
    requires FolderAt(s.tree, ParentPath(run.order[k].path)) && parent == FolderId(s.tree, ParentPath(run.order[k].path))
    requires hash == None || hash == LocalHash(run.job.local, run.order[k].path)
    ensures Uploading(run.job, run.order, k, WithEmptyFile(s, run.order[k].path, parent, run.order[k].size, hash),
                      run.served, 0, hash)
    ensures FolderIds(WithEmptyFile(s, run.order[k].path, parent, run.order[k].size, hash).tree) == FolderIds(s.tree)
  {
    var path := run.order[k].path;
    EmptyFileAccepted(run, k, s, hash);
    ServedOneMore(run.order, k, s, run.served);
    hide Reached, PathsOf, PathSeq, ValidOrder, PlanOf, FolderIds, ValidTree, ValidState, Accepts, FolderAt, FolderId,
         ParentPath, EntryName, LocalHash, Without;
    EmptyFileValid(s, path, parent, EntryName(path), run.order[k].size, hash);
    WithoutAdded(s, path, parent, run.order[k].size, hash);
    NewEntry(s, path, parent, run.order[k].size, hash);
    hide WithEmptyFile;
  }

  lemma NewEntry(s: BucketState, path: string, parent: nat, size: nat, hash: Option<Digest>)
    ensures var s' := WithEmptyFile(s, path, parent, size, hash);
            && s'.served == s.served + [path] && path in s'.tree.entries
            && s'.tree.entries[path] == RemoteEntry(s.nextId, parent, File, size, 0, hash, 0)
  {
  }

  lemma UploadGoesOn(run: Run, k: nat, s: BucketState, filled: nat, hash: Option<Digest>, filled': nat, hash': Option<Digest>)
    requires Uploading(run.job, run.order, k, s, run.served, filled, hash)
    requires filled' <= run.order[k].size && (hash' == None || hash' == LocalHash(run.job.local, run.order[k].path))
    ensures run.order[k].path in s.tree.entries
    ensures var e := s.tree.entries[run.order[k].path].(filled := filled', hash := hash');
            && Uploading(run.job, run.order, k, WithEntry(s, run.order[k].path, e), run.served, filled', hash')
            && FolderIds(WithEntry(s, run.order[k].path, e).tree) == FolderIds(s.tree)
  {
    var path := run.order[k].path;
    var e := s.tree.entries[path].(filled := filled', hash := hash');
    OrderPathNotEmpty(run.job, run.actions, run.order, k);
    hide Reached, PathsOf, PathSeq;
    WithEntryValid(s, path, e);
    FolderIdsPut(s.tree, path, e);
    assert FolderIds(s.tree) - {path} == FolderIds(s.tree);
    assert Without(WithEntry(s, path, e).tree, path) == Without(s.tree, path);
  }

  lemma UploadEnds(run: Run, k: nat, s: BucketState)
    requires k < |run.order| && run.order[k].UploadFile?
    requires Uploading(run.job, run.order, k, s, run.served, run.order[k].size, LocalHash(run.job.local, run.order[k].path))
    ensures run.At(k + 1, s)
  {
    var path, done := run.order[k].path, PathsOf(run.order[..k]);
    UploadIsDecided(run, k);
    NextDone(run.order, k);
    forall p | p in run.job.Paths() ensures PathReached(run.job, s.tree, done + {path}, p) {
      if p != path {
        assert PathReached(run.job, Without(s.tree, path), done, p);
      }
    }
    forall p | p in s.tree.entries ensures p in run.job.Paths() {
      if p != path {
        assert p in Without(s.tree, path).entries;
      }
    }
  }

  /** An unfinished file is neither untouched nor uploaded: the bucket does not stand between two actions. */
  lemma UnfinishedIsNotBetween(run: Run, k: nat, s: BucketState, filled: nat, hash: Option<Digest>)
    requires Uploading(run.job, run.order, k, s, run.served, filled, hash)
    ensures run.Between(s) <==> filled == run.order[k].size && hash == LocalHash(run.job.local, run.order[k].path)
  {
    UploadIsDecided(run, k);
    var path := run.order[k].path;
    forall j: nat | AtAction(run.job, run.order, j, s, run.served)
      ensures filled == run.order[k].size && hash == LocalHash(run.job.local, path)
    {
      assert PathReached(run.job, s.tree, PathsOf(run.order[..j]), path);
    }
    if filled == run.order[k].size && hash == LocalHash(run.job.local, path) {
      UploadEnds(run, k, s);
    }
  }

  // ---- The upload ------------------------------------------------------------------------------

  /** Calls made in the course of one upload, each with a fate of its own. */
  type Fates = nat -> Delivery

  ghost predicate AllLost(fates: Fates) {
    forall c :: fates(c).RequestLost?
  }

  /** Every call that does not get through both ways is one of these. */
  ghost predicate LostAmong(fates: Fates, lost: set<nat>) {
    forall c :: !fates(c).Delivered? ==> c in lost
  }

  /** At most `n` calls do not get through both ways. */
  ghost predicate FewLost(fates: Fates, n: nat) {
    exists lost {:trigger LostAmong(fates, lost)} :: |lost| <= n && LostAmong(fates, lost)
  }

  /** More failures than that cannot be. */
  lemma TooManyLost(fates: Fates, n: nat, failed: set<nat>)
    requires |failed| > n && forall c :: c in failed ==> !fates(c).Delivered?
    ensures !FewLost(fates, n)
  {
    if FewLost(fates, n) {
      var lost :| |lost| <= n && LostAmong(fates, lost);
      SubsetSize(failed, lost);
    }
  }

  /** The file of `order[k]` has this id, and its stored chunks account for its filled bytes. */
  ghost predicate Filling(run: Run, k: nat, bucket: Bucket, id: nat, hash: Option<Digest>)
    reads bucket
  {
    && k < |run.order| && run.order[k].UploadFile?
    && id in bucket.chunks && FileWithId(bucket.state, run.order[k].path, id)
    && Uploading(run.job, run.order, k, bucket.state, run.served, Filled(run.order[k].size, bucket.chunks[id]), hash)
  }

  /** The chunks among the first `n` that are not known to be stored. */
  ghost function Unknown(uploaded: set<nat>, n: nat): set<nat> {
    set i: nat | i < n && i !in uploaded
  }

  lemma OneMoreUnknown(uploaded: set<nat>, n: nat)
    ensures |Unknown(uploaded, n + 1)| == |Unknown(uploaded, n)| + if n in uploaded then 0 else 1
  {
    if n in uploaded {
      assert Unknown(uploaded, n + 1) == Unknown(uploaded, n);
    } else {
      assert Unknown(uploaded, n + 1) == Unknown(uploaded, n) + {n};
    }
  }

  /** The chunk calls of one attempt. They are sent concurrently, so a failed call does not keep the
      others from the bucket: each chunk that is not known to be stored has a fate of its own. */
  method SendChunks(bucket: Bucket, id: nat, uploaded: set<nat>, fates: Fates, calls: nat,
                    ghost hash: Option<Digest>, ghost run: Run, ghost k: nat)
    returns (uploaded': set<nat>, ok: bool, calls': nat)
    requires Filling(run, k, bucket, id, hash) && uploaded <= bucket.chunks[id]
    modifies bucket
    ensures Filling(run, k, bucket, id, hash) && uploaded <= uploaded' <= bucket.chunks[id]
    ensures bucket.replies == old(bucket.replies) && FolderIds(bucket.state.tree) == FolderIds(old(bucket.state).tree)
    ensures ok ==> forall i: nat :: i < ChunkCount(run.order[k].size) ==> i in uploaded'
    ensures AllLost(fates) ==> bucket.chunks == old(bucket.chunks) && uploaded' == uploaded
    ensures calls' == calls + |Unknown(uploaded, ChunkCount(run.order[k].size))|
    ensures ok <==> forall c :: calls <= c < calls' ==> fates(c).Delivered?
  {
    hide Filled, FolderIds, ValidState, Reached;
    uploaded', ok, calls' := uploaded, true, calls;
    var size := FileSize(bucket, run.order[k].path, id);
    assert Unknown(uploaded, 0) == {};
    for i := 0 to ChunkCount(size)
      invariant Filling(run, k, bucket, id, hash) && uploaded <= uploaded' <= bucket.chunks[id]
      invariant bucket.replies == old(bucket.replies)
      invariant FolderIds(bucket.state.tree) == FolderIds(old(bucket.state).tree)
      invariant ok ==> forall j: nat :: j < i ==> j in uploaded'
      invariant AllLost(fates) ==> bucket.chunks == old(bucket.chunks) && uploaded' == uploaded
      invariant calls' == calls + |Unknown(uploaded, i)| && forall j :: j >= i ==> (j in uploaded' <==> j in uploaded)
      invariant ok <==> forall c :: calls <= c < calls' ==> fates(c).Delivered?
    {
      OneMoreUnknown(uploaded, i);
      if i !in uploaded' {
        var fate := fates(calls');
        calls' := calls' + 1;
        if !fate.RequestLost? {
          FilledIffAllStored(size, bucket.chunks[id] + {i});
          UploadGoesOn(run, k, bucket.state, Filled(size, bucket.chunks[id]), hash, Filled(size, bucket.chunks[id] + {i}), hash);
          bucket.StoreChunk(id, i);
        }
        if fate.Delivered? {
          uploaded' := uploaded' + {i};
        } else {
          ok := false;
        }
      }
    }
  }

  method FileSize(bucket: Bucket, ghost path: string, id: nat) returns (size: nat)
    requires ValidState(bucket.state) && FileWithId(bucket.state, path, id)
    ensures size == bucket.state.tree.entries[path].size
  {
    var found := bucket.FindFile(id);
    size := bucket.state.tree.entries[found.value].size;
  }

  /** One attempt: the missing chunks, and if they all get through the call that sets the hash. */
  method FillOnce(bucket: Bucket, id: nat, hash: Option<Digest>, uploaded: set<nat>, fates: Fates, calls: nat,
                  ghost before: Option<Digest>, ghost run: Run, ghost k: nat)
    returns (uploaded': set<nat>, done: bool, calls': nat, ghost current: Option<Digest>)
    requires Filling(run, k, bucket, id, before) && uploaded <= bucket.chunks[id]
    requires hash == LocalHash(run.job.local, run.order[k].path)
    modifies bucket
    ensures bucket.replies == old(bucket.replies) && FolderIds(bucket.state.tree) == FolderIds(old(bucket.state).tree)
    ensures Filling(run, k, bucket, id, current) && uploaded <= uploaded' <= bucket.chunks[id] && calls <= calls'
    ensures done ==> run.At(k + 1, bucket.state) && calls < calls' && fates(calls' - 1).Delivered?
    ensures done <==> forall c :: calls <= c < calls' ==> fates(c).Delivered?
    ensures AllLost(fates) ==>
              && !done && bucket.chunks == old(bucket.chunks) && uploaded' == uploaded
              && (uploaded == {} && run.order[k].size > 0 ==> current == before)
  {
    hide FolderIds, Reached, Filled, PathsOf, PathSeq, ValidTree;
    current := before;
    uploaded', done, calls' := SendChunks(bucket, id, uploaded, fates, calls, before, run, k);
    if done {
      ghost var size := run.order[k].size;
      assert size > 0 ==> 0 < ChunkCount(size) && 0 in uploaded';
      FilledIffAllStored(size, bucket.chunks[id]);
      var fate := fates(calls');
      calls' := calls' + 1;
      if !fate.RequestLost? {
        UploadGoesOn(run, k, bucket.state, size, before, size, hash);
        bucket.SetHash(id, hash);
        current := hash;
      }
      done := fate.Delivered?;
      if done {
        UploadEnds(run, k, bucket.state);
      }
    }
  }

  /** Attempts that skip what is known to be stored, each ended by the call that sets the hash. */
  method FillFile(bucket: Bucket, id: nat, hash: Option<Digest>, retry: nat, fates: Fates,
                  ghost given: Option<Digest>, ghost run: Run, ghost k: nat)
    returns (r: Result<nat, SyncError>, calls: nat)
    requires Filling(run, k, bucket, id, given) && bucket.chunks[id] == {}
    requires hash == LocalHash(run.job.local, run.order[k].path)
    modifies bucket
    ensures bucket.replies == old(bucket.replies) && FolderIds(bucket.state.tree) == FolderIds(old(bucket.state).tree)
    ensures if r.Ok? then run.At(k + 1, bucket.state) else r == Err(Transient)
    ensures run.Between(bucket.state) || MidUpload(run.job, run.order, bucket.state, run.served)
    ensures FewLost(fates, retry) ==> r.Ok?
    ensures r.Ok? ==> r.value == id && calls > 0 && fates(calls - 1).Delivered?
    ensures AllLost(fates) && run.order[k].size > 0 ==> r.Err? && !run.Between(bucket.state)
    ensures AllLost(fates) && run.order[k].size > 0 ==>
              Uploading(run.job, run.order, k, bucket.state, run.served, 0, given)
  {
    hide FolderIds, Filled, Uploading;
    var uploaded := {};
    calls := 0;
    ghost var current, failed: set<nat> := given, {};
    for attempt := 0 to retry + 1
      invariant Filling(run, k, bucket, id, current) && uploaded <= bucket.chunks[id]
      invariant bucket.replies == old(bucket.replies)
      invariant FolderIds(bucket.state.tree) == FolderIds(old(bucket.state).tree)
      invariant |failed| == attempt && forall c :: c in failed ==> c < calls && !fates(c).Delivered?
      invariant AllLost(fates) ==> bucket.chunks[id] == {} == uploaded && (run.order[k].size > 0 ==> current == given)
    {
      ghost var before := calls;
      var done;
      uploaded, done, calls, current := FillOnce(bucket, id, hash, uploaded, fates, calls, current, run, k);
      if done {
        return Ok(id), calls;
      }
      ghost var c :| before <= c < calls && !fates(c).Delivered?;
      failed := failed + {c};
    }
    r := Err(Transient);
    TooManyLost(fates, retry, failed);
    NothingFilledYet(run.order[k].size);
    UnfinishedIsNotBetween(run, k, bucket.state, Filled(run.order[k].size, bucket.chunks[id]), current);
  }

  /** A file that does not fit into one call. The call that creates it carries no request id and is
      not repeated. */
  method UploadInChunks(bucket: Bucket, action: PlanAction, parent: nat, hash: Option<Digest>, hashIndex: bool,
                        retry: nat, creation: Delivery, fates: Fates, ghost run: Run, ghost k: nat)
    returns (r: Result<nat, SyncError>)
    requires k < |run.order| && run.order[k] == action && action.UploadFile? && run.At(k, bucket.state)
    requires FolderAt(bucket.state.tree, ParentPath(action.path)) && parent == FolderId(bucket.state.tree, ParentPath(action.path))
    requires hash == LocalHash(run.job.local, action.path)
    modifies bucket
    ensures bucket.replies == old(bucket.replies) && FolderIds(bucket.state.tree) == FolderIds(old(bucket.state).tree)
    ensures if r.Ok? then run.At(k + 1, bucket.state) else r == Err(Transient)
    ensures run.Between(bucket.state) || MidUpload(run.job, run.order, bucket.state, run.served)
    ensures r.Ok? ==> creation.Delivered?
    ensures creation.Delivered? && FewLost(fates, retry) ==> r.Ok?
    ensures !creation.RequestLost? && AllLost(fates) && action.size > 0 ==> r.Err? && !run.Between(bucket.state)
    ensures !creation.RequestLost? && AllLost(fates) && action.size > 0 ==>
              Uploading(run.job, run.order, k, bucket.state, run.served, 0, if hashIndex then hash else None)
    ensures creation.RequestLost? ==> bucket.state == old(bucket.state)
  {
    hide FolderIds, Reached, Filled, PathsOf, PathSeq, ValidTree;
    if creation.RequestLost? {
      return Err(Transient);
    }
    var given := if hashIndex then hash else None;
    EmptyFileAccepted(run, k, bucket.state, given);
    UploadStarts(run, k, bucket.state, parent, given);
    var id := bucket.state.nextId;
    var reply := bucket.CreateEmptyFile(parent, EntryName(action.path), action.size, given);
    NothingFilledYet(action.size);
    UnfinishedIsNotBetween(run, k, bucket.state, 0, given);
    r := Err(Transient);
    if creation.Delivered? {
      var calls;
      r, calls := FillFile(bucket, id, hash, retry, fates, given, run, k);
    }
  }

  lemma NothingFilledYet(size: nat)
    ensures Filled(size, {}) == 0
  {
    NothingFilled(size, ChunkCount(size));
  }

  // ---- Planning again after an unfinished upload -------------------------------------------------

  lemma ScanWithout(run: Run, k: nat, s: BucketState, filled: nat, hash: Option<Digest>)
    requires Uploading(run.job, run.order, k, s, run.served, filled, hash)
    ensures Scanned(RemoteManifest(Without(s.tree, run.order[k].path).entries, s.tree.rootStatus, [], []),
                    Without(s.tree, run.order[k].path))
  {
    UploadIsDecided(run, k);
    var rest := Without(s.tree, run.order[k].path);
    ReachedIsComplete(run.job, rest, PathsOf(run.order[..k]));
    assert IncompletePaths(rest.entries) == {};
  }

  /** The unfinished file does not affect what is decided for other paths. */
  lemma OthersAreDecidedAsBefore(run: Run, k: nat, s: BucketState, filled: nat, hash: Option<Digest>, m: RemoteManifest, p: string)
    requires Uploading(run.job, run.order, k, s, run.served, filled, hash) && Scanned(m, s.tree)
    requires p in PathUnion(run.job.local, m) && p != run.order[k].path
    ensures p in run.job.Paths()
    ensures ActionFor(run.job.local, m, run.job.o, p)
            == if p in PathsOf(run.order[..k]) then None else run.job.Decision(p)
  {
    var path := run.order[k].path;
    var rest := Without(s.tree, path);
    var scan := RemoteManifest(rest.entries, s.tree.rootStatus, [], []);
    UploadIsDecided(run, k);
    OrderPathsValid(run, k);
    ScanWithout(run, k, s, filled, hash);
    ReplanPath(run.job, rest, PathsOf(run.order[..k]), scan, p);
    assert p in run.job.local.entries ==> HasLocalParent(run.job.local, p);
  }

  lemma UnfinishedIsDecided(run: Run, k: nat, s: BucketState, filled: nat, hash: Option<Digest>, m: RemoteManifest)
    requires Uploading(run.job, run.order, k, s, run.served, filled, hash) && Scanned(m, s.tree)
    ensures run.order[k].path in PathUnion(run.job.local, m)
    ensures var path := run.order[k].path;
            ActionFor(run.job.local, m, run.job.o, path)
            == if hash == LocalHash(run.job.local, path) then None
               else if !run.job.o.overwrite then Some(Conflict(path, FileDiffers(s.tree.entries[path].id)))
               else Some(ReplaceFile(path, s.tree.entries[path].id, run.order[k].size))
  {
    var path := run.order[k].path;
    var rest := Without(s.tree, path);
    UploadIsDecided(run, k);
    OrderPathsValid(run, k);
    ScanWithout(run, k, s, filled, hash);
    ParentStaysWritable(run.job, rest, PathsOf(run.order[..k]), RemoteManifest(rest.entries, s.tree.rootStatus, [], []), path);
    assert HasLocalParent(run.job.local, path);
  }

  lemma {:induction false} ReportedMember(conflicts: seq<(string, string)>, c: (string, string))
    requires c in conflicts
    ensures Conflict(c.0, Reported(c.1)) in ReportedConflicts(conflicts)
  {
    var last := |conflicts| - 1;
    if c != conflicts[last] {
      assert conflicts == conflicts[..last] + [conflicts[last]];
      ReportedMember(conflicts[..last], c);
    }
  }

  lemma PlanReports(actions: seq<PlanAction>, local: LocalManifest, m: RemoteManifest, o: PlanOptions, path: string)
    requires IsPlan(actions, local, m, o) && path in ConflictPaths(m.conflicts)
    ensures exists text :: Conflict(path, Reported(text)) in actions
  {
    var c :| c in m.conflicts && c.0 == path;
    ReportedMember(m.conflicts, c);
    assert Conflict(path, Reported(c.1)) in multiset(ReportedConflicts(m.conflicts));
    assert Conflict(path, Reported(c.1)) in multiset(actions);
  }

  lemma DecidedConflictFree(actions: seq<PlanAction>, local: LocalManifest, m: RemoteManifest, o: PlanOptions)
    requires IsPlan(actions, local, m, o) && m.conflicts == []
    requires forall p {:trigger ActionFor(local, m, o, p)} :: p in PathUnion(local, m) ==>
      ActionFor(local, m, o, p).None? || !ActionFor(local, m, o, p).value.Conflict?
    ensures ConflictFree(actions)
  {
    var decided := DecidedActions(local, m, o, PathUnion(local, m));
    assert ReportedConflicts(m.conflicts) == [];
    forall a | a in actions ensures !a.Conflict? {
      assert a in multiset(actions);
      assert a in multiset(decided);
    }
  }

  /** A push that has been interrupted in the middle of such an upload cannot be resumed by planning
      again. An incomplete file is a conflict; a complete one without its hash is a conflict as well
      unless overwriting is allowed, and then it is to be replaced. */
  lemma ReplanUnfinished(run: Run, k: nat, s: BucketState, filled: nat, hash: Option<Digest>, m: RemoteManifest,
                         again: seq<PlanAction>)
    requires Uploading(run.job, run.order, k, s, run.served, filled, hash) && !run.Between(s)
    requires Scanned(m, s.tree) && IsPlan(again, run.job.local, m, run.job.o)
    ensures filled < run.order[k].size ==> exists text :: Conflict(run.order[k].path, Reported(text)) in again
    ensures ConflictFree(again) <==> filled == run.order[k].size && run.job.o.overwrite
    ensures ConflictFree(again) ==>
              ReplaceFile(run.order[k].path, s.tree.entries[run.order[k].path].id, run.order[k].size) in again
  {
    var path := run.order[k].path;
    UnfinishedIsNotBetween(run, k, s, filled, hash);
    UnfinishedIsDecided(run, k, s, filled, hash, m);
    if filled < run.order[k].size {
      assert path in IncompletePaths(s.tree.entries);
      PlanReports(again, run.job.local, m, run.job.o, path);
    } else {
      ReplanComplete(run, k, s, filled, hash, m, again);
    }
  }

  lemma ReplanComplete(run: Run, k: nat, s: BucketState, filled: nat, hash: Option<Digest>, m: RemoteManifest,
                       again: seq<PlanAction>)
    requires Uploading(run.job, run.order, k, s, run.served, filled, hash) && hash != LocalHash(run.job.local, run.order[k].path)
    requires Scanned(m, s.tree) && IsPlan(again, run.job.local, m, run.job.o) && filled == run.order[k].size
    ensures ConflictFree(again) <==> run.job.o.overwrite
    ensures ConflictFree(again) ==>
              ReplaceFile(run.order[k].path, s.tree.entries[run.order[k].path].id, run.order[k].size) in again
  {
    var path, job := run.order[k].path, run.job;
    UnfinishedIsDecided(run, k, s, filled, hash, m);
    if ConflictFree(again) {
      PlanElements(again, job.local, m, job.o);
      assert ActionFor(job.local, m, job.o, path).value in again;
    }
    if job.o.overwrite {
      NothingIncomplete(run, k, s, filled, hash, m);
      UploadIsDecided(run, k);
      forall p | p in PathUnion(job.local, m)
        ensures ActionFor(job.local, m, job.o, p).None? || !ActionFor(job.local, m, job.o, p).value.Conflict?
      {
        if p != path {
          OthersAreDecidedAsBefore(run, k, s, filled, hash, m, p);
        }
      }
      DecidedConflictFree(again, job.local, m, job.o);
    }
  }

  lemma NothingIncomplete(run: Run, k: nat, s: BucketState, filled: nat, hash: Option<Digest>, m: RemoteManifest)
    requires Uploading(run.job, run.order, k, s, run.served, filled, hash) && filled == run.order[k].size
    requires Scanned(m, s.tree)
    ensures m.conflicts == []
  {
    var path := run.order[k].path;
    ScanWithout(run, k, s, filled, hash);
    forall p | p in s.tree.entries && s.tree.entries[p].kind == File
      ensures s.tree.entries[p].filled == s.tree.entries[p].size
    {
      if p != path {
        assert p !in IncompletePaths(Without(s.tree, path).entries);
      }
    }
    NoConflictsIffComplete(m, s.tree);
  }

  // ---- The calls behind it -----------------------------------------------------------------------

  /** However the concurrent uploader's calls interleave, fail and are retried, the hash is only sent
      when the file is filled. */
  lemma HashFollowsContent(content: Bytes, limit: nat, retry: nat, given: Option<nat>, states: seq<ChunkUploader.State>,
                           steps: seq<ChunkUploader.Step>, k: nat)
    requires ChunkUploader.IsRun(ChunkUploader.Setting(ChunksOf(content), limit, retry), given, states, steps)
    requires k < |states| && states[k].commits != {}
    ensures Filled(|content|, states[k].stored.Keys) == |content|
  {
    var h :| h in states[k].commits;
    ChunkUploader.CommitIsWholeFile(content, limit, retry, given, states, steps, k, h);
    FilledIffAllStored(|content|, states[k].stored.Keys);
  }
}

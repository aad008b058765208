/** Executing a prepared push (src/sync/mod.rs:166-486). */
module Executor {
  import opened Paths
  import opened Manifests
  import opened Planner
  import opened Convergence
  import opened Execution
  import opened Orders
  import opened Batches
  import opened Server
  import opened Calls
  import opened LegacyUpload

  datatype SyncFailure =
    | HasConflicts
    | DeletesUnsupported
    | ReplacesUnsupported
    | MissingParent(path: string)
    | CallFailed(error: SyncError)
    | ItemFailed(path: string)
    | RemainingDifferences

  /** What the bucket supports, and whether it keeps an index of hashes. */
  datatype Capabilities =
    Capabilities(atomicUpload: bool, incrementalDelete: bool, batchOperations: bool, hashIndex: bool)

  /** What happens to the calls of a run, in order, and, for each file that is uploaded chunk by chunk,
      to the chunk calls and hash calls of that file. */
  datatype Network = Network(calls: nat -> Delivery, chunkCalls: string -> Fates)

  /** The executor's own state: `folder_ids`, the next unused request id and the number of calls. */
  datatype Client = Client(folderIds: map<string, nat>, nextRequest: nat, calls: nat)

  /** The bucket stands after `k` actions of the run and the client knows its folders. */
  ghost predicate InStep(run: Run, k: nat, bucket: Bucket, client: Client)
    reads bucket
  {
    && run.At(k, bucket.state)
    && client.folderIds == FolderIds(bucket.state.tree)
    && forall id :: id in bucket.replies ==> id < client.nextRequest
  }

  /** One of the calls from the `c`-th on is delivered, at the latest after `retry` others. */
  ghost predicate Answered(calls: nat -> Delivery, c: nat, retry: nat) {
    exists k :: c <= k <= c + retry && calls(k).Delivered?
  }

  /** Among any `retry + 1` successive calls one is delivered. */
  ghost predicate Answering(calls: nat -> Delivery, retry: nat) {
    forall c {:trigger Answered(calls, c, retry)} :: Answered(calls, c, retry)
  }

  /** Of the chunk calls and hash calls of each file at most `retry` do not get through. */
  ghost predicate ChunksAnswering(network: Network, retry: nat) {
    forall path {:trigger network.chunkCalls(path)} :: FewLost(network.chunkCalls(path), retry)
  }

  ghost predicate ChunksLost(network: Network) {
    forall path :: AllLost(network.chunkCalls(path))
  }

  lemma NoRequests(local: LocalManifest, folderIds: map<string, nat>)
    ensures RequestsFor([], [], local, folderIds)
  {
  }

  lemma OneMoreRequest(rs: seq<Request>, batch: seq<PlanAction>, i: nat, r: Request, local: LocalManifest,
                       folderIds: map<string, nat>)
    requires i < |batch| && RequestsFor(rs, batch[..i], local, folderIds) && RequestMatches(r, batch[i], local, folderIds)
    ensures RequestsFor(rs + [r], batch[..i + 1], local, folderIds)
  {
    hide RequestMatches;
    assert batch[..i + 1] == batch[..i] + [batch[i]];
  }

  method BuildRequests(batch: seq<PlanAction>, local: LocalManifest, folderIds: map<string, nat>)
    returns (r: Result<seq<Request>, SyncFailure>)
    requires forall a :: a in batch ==> !a.Conflict?
    ensures r.Ok? ==> RequestsFor(r.value, batch, local, folderIds)
    ensures (forall a :: a in batch && NeedsParent(a) ==> ParentPath(a.path) in folderIds) ==> r.Ok?
  {
    hide RequestsFor;
    var requests := [];
    NoRequests(local, folderIds);
    for i := 0 to |batch|
      invariant RequestsFor(requests, batch[..i], local, folderIds)
    {
      var a := batch[i];
      assert a in batch;
      var parent := 0;
      if NeedsParent(a) {
        if ParentPath(a.path) !in folderIds {
          return Err(MissingParent(a.path));
        }
        parent := folderIds[ParentPath(a.path)];
      }
      OneMoreRequest(requests, batch, i, RequestFor(a, parent, LocalHash(local, a.path)), local, folderIds);
      requests := requests + [RequestFor(a, parent, LocalHash(local, a.path))];
    }
    assert batch[..|batch|] == batch;
    return Ok(requests);
  }

  /** Takes over the replies of one call; the first failed item fails the whole call. */
  method TakeReplies(batch: seq<PlanAction>, replies: seq<Reply>, folderIds: map<string, nat>)
    returns (r: Result<map<string, nat>, SyncFailure>)
    requires |replies| == |batch|
    ensures r.Ok? <==> forall i :: 0 <= i < |replies| ==> replies[i].Ok?
    ensures r.Ok? ==> r.value == RecordFolders(folderIds, batch, replies)
    ensures r.Err? ==> exists i :: 0 <= i < |replies| && replies[i].Err? && (forall m :: 0 <= m < i ==> replies[m].Ok?)
                                   && r.error == ItemFailed(batch[i].path)
  {
    var known := folderIds;
    var firstError: Option<SyncFailure> := None;
    for i := 0 to |batch|
      invariant firstError.None? <==> forall m :: 0 <= m < i ==> replies[m].Ok?
      invariant firstError.Some? ==> exists m :: 0 <= m < i && replies[m].Err? && (forall n :: 0 <= n < m ==> replies[n].Ok?)
                                                 && firstError.value == ItemFailed(batch[m].path)
      invariant firstError.None? ==> known == RecordFolders(folderIds, batch[..i], replies[..i])
    {
      assert batch[..i + 1][..i] == batch[..i] && replies[..i + 1][..i] == replies[..i];
      match replies[i] {
        case Ok(id) => known := RecordFolder(known, batch[i], id);
        case Err(_) =>
          if firstError.None? {
            firstError := Some(ItemFailed(batch[i].path));
          }
      }
    }
    assert batch[..|batch|] == batch && replies[..|replies|] == replies;
    if firstError.Some? {
      return Err(firstError.value);
    }
    return Ok(known);
  }

  /** One call: every failure leaves the bucket before or after the whole call, never in between. */
  method Send(bucket: Bucket, batch: seq<PlanAction>, local: LocalManifest, retry: nat, network: nat -> Delivery,
              client: Client, ghost run: Run, ghost i: nat, ghost j: nat)
    returns (r: Result<Client, SyncFailure>)
    requires InStep(run, i, bucket, client) && local == run.job.local
    requires run.OneCall(i, j) && batch == run.order[i..j]
    modifies bucket
    ensures if r.Ok? then InStep(run, j, bucket, r.value) else r == Err(CallFailed(Transient))
    ensures run.At(i, bucket.state) || run.At(j, bucket.state)
    ensures r.Ok? <==> Answered(network, client.calls, retry)
    ensures r.Ok? ==> client.calls < r.value.calls && network(r.value.calls - 1).Delivered?
                      && NoneDelivered(network, client.calls, r.value.calls - 1)
  {
    hide Reached, FolderIds, ValidState;
    forall a | a in batch ensures !a.Conflict? && (NeedsParent(a) ==> ParentPath(a.path) in client.folderIds) {
      var m :| 0 <= m < |batch| && batch[m] == a;
      ParentIsKnown(run, i, j, i + m, bucket.state);
    }
    var requests := BuildRequests(batch, local, client.folderIds);
    match requests {
      case Err(e) => return Err(e);
      case Ok(rs) =>
        CallServed(run, i, j, bucket.state, client.folderIds, rs);
        assert run.order[i..i + (j - i)] == batch;
        var reply, calls := RetryCall(bucket, client.nextRequest, rs, retry, network, client.calls);
        match reply {
          case Err(e) => return Err(CallFailed(e));
          case Ok(replies) =>
            var known := TakeReplies(batch, replies, client.folderIds);
            match known {
              case Err(e) => return Err(e);
              case Ok(folderIds) => return Ok(Client(folderIds, client.nextRequest + 1, calls));
            }
        }
    }
  }

  /** What both batch loops send: directories of one depth, or small files. */
  ghost predicate IndependentBatch(batch: seq<PlanAction>) {
    batch != [] && (DirectoryBatch(batch) || forall a :: a in batch ==> a.UploadFile?)
  }

  lemma BatchInOrder(run: Run, batches: seq<seq<PlanAction>>, offset: nat, b: nat)
    requires b < |batches| && Placed(run, batches, offset)
    ensures Covered(batches, b) + |batches[b]| == Covered(batches, b + 1) <= |Flatten(batches)|
    ensures run.order[offset + Covered(batches, b)..offset + Covered(batches, b + 1)] == batches[b]
    ensures run.OneCall(offset + Covered(batches, b), offset + Covered(batches, b + 1))
  {
    BatchPosition(batches, b);
    var i, j := offset + Covered(batches, b), offset + Covered(batches, b + 1);
    PartOfPart(run.order, offset, offset + |Flatten(batches)|, i, j);
    assert run.order[i..j] == batches[b];
    if DirectoryBatch(batches[b]) {
      DirectoryBatchIsOneCall(run, i, j);
    } else {
      forall k | i <= k < j ensures run.order[k].UploadFile? {
        assert run.order[k] == batches[b][k - i];
      }
      UploadBatchIsOneCall(run, i, j);
    }
  }

  /** The batches fill the order from `offset` on. */
  ghost predicate Placed(run: Run, batches: seq<seq<PlanAction>>, offset: nat) {
    && offset + |Flatten(batches)| <= |run.order|
    && run.order[offset..offset + |Flatten(batches)|] == Flatten(batches)
    && forall b :: 0 <= b < |batches| ==> IndependentBatch(batches[b])
  }

  method SendBatch(bucket: Bucket, batches: seq<seq<PlanAction>>, b: nat, local: LocalManifest, retry: nat,
                   network: nat -> Delivery, client: Client, ghost run: Run, ghost offset: nat)
    returns (r: Result<Client, SyncFailure>)
    requires b < |batches| && Placed(run, batches, offset) && local == run.job.local
    requires InStep(run, offset + Covered(batches, b), bucket, client)
    modifies bucket
    ensures if r.Ok? then InStep(run, offset + Covered(batches, b + 1), bucket, r.value) else r == Err(CallFailed(Transient))
    ensures run.Between(bucket.state)
    ensures Answering(network, retry) ==> r.Ok?
  {
    hide AtAction, FolderIds, DirectoryBatch;
    BatchInOrder(run, batches, offset, b);
    r := Send(bucket, batches[b], local, retry, network, client, run,
              offset + Covered(batches, b), offset + Covered(batches, b + 1));
  }

  /** `batch_create_directories` and `batch_upload_small_files`. */
  method SendBatches(bucket: Bucket, batches: seq<seq<PlanAction>>, local: LocalManifest, retry: nat,
                     network: nat -> Delivery, client: Client, ghost run: Run, ghost offset: nat)
    returns (r: Result<Client, SyncFailure>)
    requires InStep(run, offset + Covered(batches, 0), bucket, client) && local == run.job.local
    requires Placed(run, batches, offset)
    modifies bucket
    ensures if r.Ok? then InStep(run, offset + Covered(batches, |batches|), bucket, r.value) else r == Err(CallFailed(Transient))
    ensures run.Between(bucket.state)
    ensures Answering(network, retry) ==> r.Ok?
  {
    hide AtAction, FolderIds;
    r := Ok(client);
    var b := 0;
    while b < |batches| && r.Ok?
      invariant b <= |batches| && run.Between(bucket.state)
      invariant if r.Ok? then InStep(run, offset + Covered(batches, b), bucket, r.value) else r == Err(CallFailed(Transient))
      invariant Answering(network, retry) ==> r.Ok?
    {
      r := SendBatch(bucket, batches, b, local, retry, network, r.value, run, offset);
      b := b + 1;
    }
  }

  // ---- The main loop ---------------------------------------------------------------------------

  function ExecutionOrder(actions: seq<PlanAction>, batched: bool): seq<PlanAction> {
    if batched then BatchedOrder(actions) else actions
  }

  lemma ExecutionOrderValid(job: Job, actions: seq<PlanAction>, batched: bool)
    requires PlanOf(job, actions)
    ensures ValidOrder(actions, ExecutionOrder(actions, batched))
  {
    if batched {
      BatchedIsValidOrder(job, actions);
    } else {
      SortedIsValidOrder(job, actions);
    }
  }

  /** How many actions have been executed when the main loop has looked at the first `i`. */
  function MainLoopPosition(actions: seq<PlanAction>, batched: bool, i: nat): nat
    requires i <= |actions|
  {
    if batched then
      |Select(actions, Directories)| + |Select(actions, SmallFiles)| + |Select(actions[..i], Others)|
    else i
  }

  lemma {:induction false} SelectPrefix(actions: seq<PlanAction>, i: nat, g: Group)
    requires i <= |actions|
    ensures |Select(actions[..i], g)| <= |Select(actions, g)|
    ensures Select(actions, g)[..|Select(actions[..i], g)|] == Select(actions[..i], g)
    decreases |actions|
  {
    if i == |actions| {
      assert actions[..i] == actions;
    } else {
      SelectPrefix(actions[..|actions| - 1], i, g);
      assert actions[..|actions| - 1][..i] == actions[..i];
    }
  }

  lemma MainLoopStep(actions: seq<PlanAction>, batched: bool, i: nat)
    requires i < |actions|
    ensures MainLoopPosition(actions, batched, i + 1) <= |ExecutionOrder(actions, batched)|
    ensures batched && SkippedByMainLoop(actions[i]) ==>
              MainLoopPosition(actions, batched, i + 1) == MainLoopPosition(actions, batched, i)
    ensures !(batched && SkippedByMainLoop(actions[i])) ==>
              MainLoopPosition(actions, batched, i + 1) == MainLoopPosition(actions, batched, i) + 1
              && ExecutionOrder(actions, batched)[MainLoopPosition(actions, batched, i)] == actions[i]
  {
    assert actions[..i + 1][..i] == actions[..i];
    SelectPrefix(actions, i, Others);
    SelectPrefix(actions, i + 1, Others);
  }

  /** Calls that are sent once: they carry no request id. */
  predicate SentOnce(a: PlanAction, caps: Capabilities) {
    a.CreateDirectory? || (a.UploadFile? && !caps.atomicUpload)
  }

  /** How many lost calls in a row a run puts up with: `retry`, unless something is sent once. */
  function Patience(actions: seq<PlanAction>, caps: Capabilities, retry: nat): nat {
    if exists a :: a in actions && SentOnce(a, caps) && !(caps.batchOperations && SkippedByMainLoop(a)) then 0
    else retry
  }

  /** No run of lost calls is longer than the client puts up with. */
  ghost predicate Responsive(network: Network, actions: seq<PlanAction>, caps: Capabilities, retry: nat) {
    Answering(network.calls, Patience(actions, caps, retry))
  }

  lemma TurnAnswered(network: Network, actions: seq<PlanAction>, caps: Capabilities, retry: nat, a: PlanAction, c: nat)
    requires Responsive(network, actions, caps, retry) && a in actions
    requires !(caps.batchOperations && SkippedByMainLoop(a))
    ensures Answered(network.calls, c, if SentOnce(a, caps) then 0 else retry)
  {
    assert Answered(network.calls, c, Patience(actions, caps, retry));
  }

  lemma BatchesAnswered(network: Network, actions: seq<PlanAction>, caps: Capabilities, retry: nat)
    requires Responsive(network, actions, caps, retry)
    ensures Answering(network.calls, retry)
  {
    forall c ensures Answered(network.calls, c, retry) {
      assert Answered(network.calls, c, Patience(actions, caps, retry));
    }
  }

  /** Uploads that take more than one call to a bucket without upload sessions. */
  predicate InChunks(a: PlanAction, caps: Capabilities) {
    IsLargeUpload(a) && !caps.atomicUpload
  }

  method SendOne(bucket: Bucket, action: PlanAction, local: LocalManifest, caps: Capabilities, retry: nat,
                 network: Network, client: Client, ghost run: Run, ghost k: nat)
    returns (r: Result<Client, SyncFailure>)
    requires InStep(run, k, bucket, client) && local == run.job.local
    requires k < |run.order| && run.order[k] == action && !InChunks(action, caps)
    modifies bucket
    ensures if r.Ok? then InStep(run, k + 1, bucket, r.value) else r == Err(CallFailed(Transient))
    ensures run.At(k, bucket.state) || run.At(k + 1, bucket.state)
    ensures r.Ok? <==>
              Answered(network.calls, client.calls,
                       if action.CreateDirectory? || (action.UploadFile? && !caps.atomicUpload) then 0 else retry)
  {
    SingleCall(run, k);
    r := Send(bucket, [action], local, if SentOnce(action, caps) then 0 else retry, network.calls, client, run, k, k + 1);
  }

  /** A large file for a bucket without atomic uploads. */
  method SendInChunks(bucket: Bucket, action: PlanAction, local: LocalManifest, caps: Capabilities, retry: nat,
                      network: Network, client: Client, ghost run: Run, ghost k: nat)
    returns (r: Result<Client, SyncFailure>)
    requires InStep(run, k, bucket, client) && local == run.job.local
    requires k < |run.order| && run.order[k] == action && InChunks(action, caps)
    modifies bucket
    ensures if r.Ok? then InStep(run, k + 1, bucket, r.value) else r == Err(CallFailed(Transient))
    ensures run.Between(bucket.state) || MidUpload(run.job, run.order, bucket.state, run.served)
    ensures r.Ok? ==> network.calls(client.calls).Delivered? && r.value.calls == client.calls + 1
    ensures network.calls(client.calls).Delivered? && ChunksAnswering(network, retry) ==> r.Ok?
    ensures !network.calls(client.calls).RequestLost? && ChunksLost(network) ==> r.Err? && !run.Between(bucket.state)
  {
    hide AtAction, MidUpload, Reached, ValidState;
    SingleCall(run, k);
    ParentIsKnown(run, k, k + 1, k, bucket.state);
    ParentFolder(bucket.state.tree, ParentPath(action.path));
    if ParentPath(action.path) !in client.folderIds {
      return Err(MissingParent(action.path));
    }
    var done := UploadInChunks(bucket, action, client.folderIds[ParentPath(action.path)], LocalHash(local, action.path),
                               caps.hashIndex, retry, network.calls(client.calls), network.chunkCalls(action.path), run, k);
    match done {
      case Err(e) => return Err(CallFailed(e));
      case Ok(_) => return Ok(client.(calls := client.calls + 1));
    }
  }

  lemma ParentFolder(t: Tree, path: string)
    ensures path in FolderIds(t) <==> FolderAt(t, path)
    ensures path in FolderIds(t) ==> FolderIds(t)[path] == FolderId(t, path)
  {
  }

  method MainLoop(bucket: Bucket, actions: seq<PlanAction>, local: LocalManifest, caps: Capabilities, retry: nat,
                  network: Network, client: Client, ghost run: Run)
    returns (r: Result<Client, SyncFailure>)
    requires actions == run.actions && run.order == ExecutionOrder(actions, caps.batchOperations) && local == run.job.local
    requires InStep(run, MainLoopPosition(actions, caps.batchOperations, 0), bucket, client)
    modifies bucket
    ensures if r.Ok? then InStep(run, |run.order|, bucket, r.value) else r == Err(CallFailed(Transient))
    ensures run.Between(bucket.state) || MidUpload(run.job, run.order, bucket.state, run.served)
    ensures (forall a :: a in actions ==> !InChunks(a, caps)) ==> run.Between(bucket.state)
    ensures Responsive(network, actions, caps, retry) && ChunksAnswering(network, retry) ==> r.Ok?
    ensures Responsive(network, actions, caps, retry) && ChunksLost(network) && (exists a :: a in actions && InChunks(a, caps)) ==>
              r.Err? && !run.Between(bucket.state)
  {
    hide MainLoopPosition, AtAction, ExecutionOrder, MidUpload, Responsive, ChunksAnswering, ChunksLost;
    FirstPosition(actions, caps.batchOperations);
    var current := client;
    for i := 0 to |actions|
      invariant InStep(run, MainLoopPosition(actions, caps.batchOperations, i), bucket, current) && run.Between(bucket.state)
      invariant Responsive(network, actions, caps, retry) && ChunksLost(network) ==> forall a :: a in actions[..i] ==> !InChunks(a, caps)
    {
      MainLoopStep(actions, caps.batchOperations, i);
      assert actions[..i + 1] == actions[..i] + [actions[i]];
      assert actions[i] in actions;
      if !(caps.batchOperations && SkippedByMainLoop(actions[i])) {
        ghost var k := MainLoopPosition(actions, caps.batchOperations, i);
        var sent;
        if Responsive(network, actions, caps, retry) {
          TurnAnswered(network, actions, caps, retry, actions[i], current.calls);
        }
        if InChunks(actions[i], caps) {
          sent := SendInChunks(bucket, actions[i], local, caps, retry, network, current, run, k);
        } else {
          sent := SendOne(bucket, actions[i], local, caps, retry, network, current, run, k);
        }
        match sent {
          case Err(e) => return Err(e);
          case Ok(next) => current := next;
        }
      }
    }
    assert actions[..|actions|] == actions;
    return Ok(current);
  }

  // ---- The whole run ----------------------------------------------------------------------------

  /** A fresh scan of the bucket: all entries, and a conflict for every incomplete file. */
  method Rescan(bucket: Bucket) returns (m: RemoteManifest)
    ensures Scanned(m, bucket.state.tree)
  {
    var t := bucket.state.tree;
    var conflicts := [];
    var todo := t.entries.Keys;
    while todo != {}
      invariant todo <= t.entries.Keys
      invariant ConflictPaths(conflicts) == IncompletePaths(t.entries) - todo
      decreases todo
    {
      var path :| path in todo;
      todo := todo - {path};
      if t.entries[path].kind == File && t.entries[path].filled != t.entries[path].size {
        OneMoreConflict(conflicts, (path, "incomplete"));
        conflicts := conflicts + [(path, "incomplete")];
      }
    }
    m := RemoteManifest(t.entries, t.rootStatus, [], conflicts);
  }

  lemma FirstPosition(actions: seq<PlanAction>, batched: bool)
    ensures MainLoopPosition(actions, batched, 0)
            == if batched then |Select(actions, Directories)| + |Select(actions, SmallFiles)| else 0
    ensures MainLoopPosition(actions, batched, |actions|) == |ExecutionOrder(actions, batched)|
  {
    assert actions[..0] == [] && actions[..|actions|] == actions;
  }

  lemma BatchesPlaced(run: Run, directories: seq<seq<PlanAction>>, smallFiles: seq<seq<PlanAction>>)
    requires run.order == BatchedOrder(run.actions)
    requires Flatten(directories) == Select(run.actions, Directories)
    requires Flatten(smallFiles) == Select(run.actions, SmallFiles)
    requires forall b :: b in directories ==> DirectoryBatch(b)
    requires forall b :: b in smallFiles ==> b != []
    ensures Placed(run, directories, 0)
    ensures Placed(run, smallFiles, |Select(run.actions, Directories)|)
  {
    forall b | 0 <= b < |smallFiles| ensures IndependentBatch(smallFiles[b]) {
      assert smallFiles[b] in smallFiles;
      BatchPosition(smallFiles, b);
      SelectElements(run.actions, SmallFiles);
      forall a | a in smallFiles[b] ensures a.UploadFile? {
        assert a in Flatten(smallFiles)[Covered(smallFiles, b)..Covered(smallFiles, b + 1)];
        assert a in Select(run.actions, SmallFiles);
      }
    }
    forall b | 0 <= b < |directories| ensures IndependentBatch(directories[b]) {
      assert directories[b] in directories;
    }
  }

  /** The two batch phases; afterwards only the actions left to the main loop remain. */
  method BatchPhase(bucket: Bucket, actions: seq<PlanAction>, local: LocalManifest, retry: nat,
                    network: nat -> Delivery, client: Client, ghost run: Run)
    returns (r: Result<Client, SyncFailure>)
    requires actions == run.actions && run.order == BatchedOrder(actions) && local == run.job.local
    requires InStep(run, 0, bucket, client)
    modifies bucket
    ensures if r.Ok? then InStep(run, |Select(actions, Directories)| + |Select(actions, SmallFiles)|, bucket, r.value) else r == Err(CallFailed(Transient))
    ensures run.Between(bucket.state)
    ensures Answering(network, retry) ==> r.Ok?
  {
    hide AtAction, FolderIds, Placed, Select, Flatten;
    var directories, smallFiles := FormBatches(actions, run);
    r := SendBatches(bucket, directories, local, retry, network, client, run, 0);
    if r.Ok? {
      r := SendBatches(bucket, smallFiles, local, retry, network, r.value, run, |Flatten(directories)|);
    }
  }

  lemma PlanIsSorted(run: Run)
    ensures SortedActions(run.actions)
  {
  }

  lemma CoveredEnds(batches: seq<seq<PlanAction>>)
    ensures Covered(batches, 0) == 0 && Covered(batches, |batches|) == |Flatten(batches)|
  {
    assert batches[..0] == [] && batches[..|batches|] == batches;
  }

  method FormBatches(actions: seq<PlanAction>, ghost run: Run)
    returns (directories: seq<seq<PlanAction>>, smallFiles: seq<seq<PlanAction>>)
    requires actions == run.actions && run.order == BatchedOrder(actions)
    ensures Placed(run, directories, 0) && Placed(run, smallFiles, |Flatten(directories)|)
    ensures Covered(directories, 0) == 0 == Covered(smallFiles, 0)
    ensures Covered(directories, |directories|) == |Flatten(directories)| == |Select(actions, Directories)|
    ensures |Flatten(directories)| + Covered(smallFiles, |smallFiles|)
            == |Select(actions, Directories)| + |Select(actions, SmallFiles)|
  {
    hide Placed, BatchedOrder, DirectoryBatch, FitsBatch, Maximal, Flatten, Covered, BelowDepth, Select, SortedActions;
    directories := DirectoryBatches(actions);
    smallFiles := SmallFileBatches(actions);
    PlanIsSorted(run);
    BatchesPlaced(run, directories, smallFiles);
    CoveredEnds(directories);
    CoveredEnds(smallFiles);
  }

  /** All actions, with or without batches. */
  method RunPlan(bucket: Bucket, actions: seq<PlanAction>, local: LocalManifest, caps: Capabilities, retry: nat,
                 network: Network, client: Client, ghost run: Run)
    returns (r: Result<Client, SyncFailure>)
    requires actions == run.actions && run.order == ExecutionOrder(actions, caps.batchOperations) && local == run.job.local
    requires InStep(run, 0, bucket, client)
    modifies bucket
    ensures if r.Ok? then InStep(run, |run.order|, bucket, r.value) else r == Err(CallFailed(Transient))
    ensures run.Between(bucket.state) || MidUpload(run.job, run.order, bucket.state, run.served)
    ensures (forall a :: a in actions ==> !InChunks(a, caps)) ==> run.Between(bucket.state)
    ensures Responsive(network, actions, caps, retry) && ChunksAnswering(network, retry) ==> r.Ok?
    ensures Responsive(network, actions, caps, retry) && ChunksLost(network) && (exists a :: a in actions && InChunks(a, caps)) ==>
              r.Err? && !run.Between(bucket.state)
  {
    hide MidUpload, AtAction, Responsive, ChunksAnswering, ChunksLost, Answering;
    FirstPosition(actions, caps.batchOperations);
    r := Ok(client);
    if Responsive(network, actions, caps, retry) {
      BatchesAnswered(network, actions, caps, retry);
    }
    if caps.batchOperations {
      r := BatchPhase(bucket, actions, local, retry, network.calls, client, run);
    }
    if r.Ok? {
      r := MainLoop(bucket, actions, local, caps, retry, network, r.value, run);
    }
  }

  lemma {:induction false} CountZero(actions: seq<PlanAction>, rank: nat)
    ensures Count(actions, rank) == 0 <==> forall a :: a in actions ==> ActionRank(a) != rank
  {
    if actions != [] {
      CountZero(actions[..|actions| - 1], rank);
      assert actions == actions[..|actions| - 1] + [actions[|actions| - 1]];
    }
  }

  /** The bucket supports everything the plan needs. */
  predicate Supported(caps: Capabilities, actions: seq<PlanAction>) {
    && (caps.incrementalDelete || forall a :: a in actions ==> !a.DeleteFile? && !a.DeleteDirectory?)
    && (caps.atomicUpload || forall a :: a in actions ==> !a.ReplaceFile?)
  }

  lemma RunBegins(job: Job, actions: seq<PlanAction>, batched: bool, s: BucketState)
    requires PlanOf(job, actions) && ValidState(s) && s.tree == job.start
    ensures Run(job, actions, ExecutionOrder(actions, batched), s.served).Valid()
    ensures AtAction(job, ExecutionOrder(actions, batched), 0, s, s.served)
  {
    ExecutionOrderValid(job, actions, batched);
    StartReached(job);
    var order := ExecutionOrder(actions, batched);
    assert PathsOf(order[..0]) == {} && PathSeq(order[..0]) == [];
  }

  /** After a complete run the verification pass finds nothing left to do. */
  lemma VerificationPasses(run: Run, s: BucketState, m: RemoteManifest, again: seq<PlanAction>)
    requires run.At(|run.order|, s) && Scanned(m, s.tree)
    requires IsPlan(again, run.job.local, m, run.job.o)
    ensures again == []
  {
    SameMembers(run.actions, run.order);
    assert run.order[..|run.order|] == run.order;
    assert PathsOf(run.order) == PathsOf(run.actions);
    ReplanAfterAllIsEmpty(run.job, run.actions, s.tree, m);
    PlanUnique([], again, run.job.local, m, run.job.o);
  }

  method ExecutePlan(bucket: Bucket, actions: seq<PlanAction>, local: LocalManifest, o: PlanOptions, caps: Capabilities,
                     retry: nat, network: Network, client: Client, ghost run: Run)
    returns (r: Result<(), SyncFailure>)
    requires actions == run.actions && run.order == ExecutionOrder(actions, caps.batchOperations)
    requires local == run.job.local && o == run.job.o
    requires InStep(run, 0, bucket, client)
    modifies bucket
    ensures if r.Ok? then run.At(|run.order|, bucket.state) else r == Err(CallFailed(Transient))
    ensures run.Between(bucket.state) || MidUpload(run.job, run.order, bucket.state, run.served)
    ensures (forall a :: a in actions ==> !InChunks(a, caps)) ==> run.Between(bucket.state)
    ensures Responsive(network, actions, caps, retry) && ChunksAnswering(network, retry) ==> r.Ok?
    ensures Responsive(network, actions, caps, retry) && ChunksLost(network) && (exists a :: a in actions && InChunks(a, caps)) ==>
              r.Err? && !run.Between(bucket.state)
  {
    var executed := RunPlan(bucket, actions, local, caps, retry, network, client, run);
    match executed {
      case Err(e) => return Err(e);
      case Ok(_) =>
    }
    var rescanned := Rescan(bucket);
    var verification := PlanSync(local, rescanned, o);
    VerificationPasses(run, bucket.state, rescanned, verification.actions);
    if verification.HasConflicts() || verification.actions != [] {
      return Err(RemainingDifferences);
    }
    return Ok(());
  }

  /** The checks before anything is sent. */
  method Refusal(plan: Plan, caps: Capabilities) returns (refused: Option<SyncFailure>)
    requires plan.Valid()
    ensures refused.None? <==> ConflictFree(plan.actions) && Supported(caps, plan.actions)
    ensures refused == Some(HasConflicts) <==> !ConflictFree(plan.actions)
    ensures refused == Some(ReplacesUnsupported) <==>
              && ConflictFree(plan.actions) && Supported(caps.(atomicUpload := true), plan.actions)
              && !caps.atomicUpload && exists a :: a in plan.actions && a.ReplaceFile?
    ensures refused == Some(DeletesUnsupported) <==>
              && ConflictFree(plan.actions)
              && !caps.incrementalDelete && exists a :: a in plan.actions && (a.DeleteFile? || a.DeleteDirectory?)
  {
    CountZero(plan.actions, 0);
    CountZero(plan.actions, 3);
    if plan.HasConflicts() {
      return Some(HasConflicts);
    }
    if !caps.incrementalDelete && exists a :: a in plan.actions && (a.DeleteFile? || a.DeleteDirectory?) {
      return Some(DeletesUnsupported);
    }
    if plan.replaceFiles > 0 && !caps.atomicUpload {
      return Some(ReplacesUnsupported);
    }
    return None;
  }

  /** The initial `folder_ids`: the sync target and every remote directory. */
  function InitialFolderIds(remoteParent: nat, remote: RemoteManifest): map<string, nat> {
    map["" := remoteParent]
    + map p | p in remote.entries && remote.entries[p].kind == Directory :: remote.entries[p].id
  }

  lemma InitialFolderIdsExact(t: Tree, remote: RemoteManifest)
    requires ValidTree(t) && Scanned(remote, t)
    ensures InitialFolderIds(t.rootId, remote) == FolderIds(t)
  {
    assert "" in t.entries ==> EntryPlaced(t, "");
    var ids, exact := InitialFolderIds(t.rootId, remote), FolderIds(t);
    forall p ensures p in ids <==> p in exact {
    }
  }

  /** `execute_sync`. A conflict-free plan is executed in its order, with or without batches, under any
      loss of messages: the bucket is left between two actions of the plan or within the upload of one
      large file, success means that every action has been executed exactly once and the verification
      pass is clean, and if among any `retry + 1` successive calls one gets through, nothing can go wrong. */
  method ExecuteSync(bucket: Bucket, plan: Plan, remoteParent: nat, local: LocalManifest, remote: RemoteManifest,
                     o: PlanOptions, caps: Capabilities, retry: nat, network: Network, firstRequest: nat)
    returns (r: Result<(), SyncFailure>)
    requires plan.Valid() && IsPlan(plan.actions, local, remote, o)
    requires ValidState(bucket.state) && bucket.state.tree.rootId == remoteParent
    requires ScannedLocal(local) && Scanned(remote, bucket.state.tree)
    requires forall id :: id in bucket.replies ==> id < firstRequest
    modifies bucket
    ensures r == Err(HasConflicts) <==> !ConflictFree(plan.actions)
    ensures r == Err(DeletesUnsupported) <==>
              && ConflictFree(plan.actions)
              && !caps.incrementalDelete && exists a :: a in plan.actions && (a.DeleteFile? || a.DeleteDirectory?)
    ensures r == Err(ReplacesUnsupported) <==>
              && ConflictFree(plan.actions) && Supported(caps.(atomicUpload := true), plan.actions)
              && !caps.atomicUpload && exists a :: a in plan.actions && a.ReplaceFile?
    ensures !ConflictFree(plan.actions) || !Supported(caps, plan.actions) ==>
              r.Err? && bucket.state == old(bucket.state) && bucket.replies == old(bucket.replies)
    ensures ConflictFree(plan.actions) ==>
              var job, order := Job(local, old(bucket.state.tree), remote, o), ExecutionOrder(plan.actions, caps.batchOperations);
              && (InBetween(job, order, bucket.state, old(bucket.state.served))
                  || MidUpload(job, order, bucket.state, old(bucket.state.served)))
              && (caps.atomicUpload || (forall a :: a in plan.actions && a.UploadFile? ==> a.size <= MAX_FILE_SIZE_PER_CALL) ==>
                    InBetween(job, order, bucket.state, old(bucket.state.served)))
              && (r.Ok? ==> AtAction(job, order, |order|, bucket.state, old(bucket.state.served)))
              && (r.Err? && Supported(caps, plan.actions) ==> r == Err(CallFailed(Transient)))
              && (Supported(caps, plan.actions) && Responsive(network, plan.actions, caps, retry)
                  && ChunksAnswering(network, retry) ==>
                    r.Ok?)
              && (Supported(caps, plan.actions) && Responsive(network, plan.actions, caps, retry)
                  && ChunksLost(network)
                  && !caps.atomicUpload && (exists a :: a in plan.actions && a.UploadFile? && a.size > MAX_FILE_SIZE_PER_CALL) ==>
                    r.Err? && !InBetween(job, order, bucket.state, old(bucket.state.served)))
  {
    ghost var job := Job(local, bucket.state.tree, remote, o);
    ghost var order := ExecutionOrder(plan.actions, caps.batchOperations);
    if ConflictFree(plan.actions) {
      RunBegins(job, plan.actions, caps.batchOperations, bucket.state);
      assert AtAction(job, order, 0, bucket.state, bucket.state.served);
    }
    var refused := Refusal(plan, caps);
    match refused {
      case Some(e) => return Err(e);
      case None =>
    }
    InitialFolderIdsExact(bucket.state.tree, remote);
    ghost var run: Run := Run(job, plan.actions, order, bucket.state.served);
    r := ExecutePlan(bucket, plan.actions, local, o, caps, retry, network,
                     Client(InitialFolderIds(remoteParent, remote), firstRequest, 0), run);
  }

  /** After a push that was interrupted in the middle of an upload, the next push of the same tree is
      refused, unless the bucket has learnt atomic uploads and overwriting is allowed. */
  lemma UnfinishedBlocksPush(run: Run, k: nat, s: BucketState, filled: nat, hash: Option<Digest>, m: RemoteManifest,
                             again: seq<PlanAction>, caps: Capabilities)
    requires Uploading(run.job, run.order, k, s, run.served, filled, hash) && !run.Between(s)
    requires Scanned(m, s.tree) && IsPlan(again, run.job.local, m, run.job.o) && !caps.atomicUpload
    ensures !ConflictFree(again) || !Supported(caps, again)
  {
    ReplanUnfinished(run, k, s, filled, hash, m, again);
  }
}

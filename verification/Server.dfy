/** The bucket as the client sees it: requests carry an id, a repeated id gets the recorded reply,
    and messages can get lost in either direction. */
module Server {
  import opened FileChunks
  import opened Paths
  import opened Manifests
  import opened Convergence
  import opened Execution

  datatype SyncError = Rejected | Transient
  type Reply = Result<nat, SyncError>

  /** What the network does to one call. */
  datatype Delivery = Delivered | RequestLost | ReplyLost

  /** `served` lists the affected paths of all accepted requests, in order. */
  datatype BucketState = BucketState(tree: Tree, nextId: nat, served: seq<string>)

  ghost predicate ValidState(s: BucketState) {
    && ValidTree(s.tree)
    && s.tree.rootId < s.nextId
    && forall p :: p in s.tree.entries ==> s.tree.entries[p].id < s.nextId
  }

  function AffectedId(s: BucketState, r: Request): nat {
    match r
    case CreateFolder(_, _) => s.nextId
    case CreateFile(_, _, _, _) => s.nextId
    case ReplaceContent(id, _, _, _, _) => id
    case RemoveFile(id) => id
    case RemoveFolder(id) => id
  }

  /** An accepted request takes effect; any other is rejected without effect. */
  ghost function Serve(s: BucketState, r: Request): (BucketState, Reply) {
    if exists path :: Accepts(s.tree, r, path) then
      var path :| Accepts(s.tree, r, path);
      (BucketState(Effect(s.tree, r, path, s.nextId), s.nextId + 1, s.served + [path]), Ok(AffectedId(s, r)))
    else (s, Err(Rejected))
  }

  /** The requests of one batch call are served one after the other, each with its own result. */
  ghost function ServeAll(s: BucketState, rs: seq<Request>): (BucketState, seq<Reply>) {
    if rs == [] then (s, [])
    else
      var (s1, replies) := ServeAll(s, rs[..|rs| - 1]);
      var (s2, reply) := Serve(s1, rs[|rs| - 1]);
      (s2, replies + [reply])
  }

  lemma ServeAccepted(s: BucketState, r: Request, path: string)
    requires ValidState(s) && Accepts(s.tree, r, path)
    ensures Serve(s, r) == (BucketState(Effect(s.tree, r, path, s.nextId), s.nextId + 1, s.served + [path]),
                            Ok(AffectedId(s, r)))
    ensures ValidState(Serve(s, r).0)
  {
    forall p | Accepts(s.tree, r, p) ensures p == path {
      AcceptedPathUnique(s.tree, r, p, path);
    }
    EffectValid(s.tree, r, path, s.nextId);
  }

  // ---- Files that are filled chunk by chunk ----------------------------------------------------

  /** How many bytes of a file of `size` bytes the stored chunks among the first `n` make up. */
  ghost function FilledUpTo(size: nat, stored: set<nat>, n: nat): nat {
    if n == 0 then 0
    else FilledUpTo(size, stored, n - 1) + if n - 1 in stored then ChunkEnd(size, n) - ChunkEnd(size, n - 1) else 0
  }

  ghost function Filled(size: nat, stored: set<nat>): nat {
    FilledUpTo(size, stored, ChunkCount(size))
  }

  lemma {:induction false} FilledUpToBound(size: nat, stored: set<nat>, n: nat)
    requires n <= ChunkCount(size)
    ensures FilledUpTo(size, stored, n) <= ChunkEnd(size, n)
    ensures FilledUpTo(size, stored, n) == ChunkEnd(size, n) <==> forall i: nat :: i < n ==> i in stored
  {
    if n > 0 {
      FilledUpToBound(size, stored, n - 1);
      assert ChunkEnd(size, n - 1) < ChunkEnd(size, n);
    }
  }

  /** A file is filled exactly when all its chunks are stored. */
  lemma FilledIffAllStored(size: nat, stored: set<nat>)
    ensures Filled(size, stored) <= size
    ensures Filled(size, stored) == size <==> forall i: nat :: i < ChunkCount(size) ==> i in stored
  {
    FilledUpToBound(size, stored, ChunkCount(size));
    assert ChunkEnd(size, ChunkCount(size)) == size;
  }

  lemma {:induction false} NothingFilled(size: nat, n: nat)
    ensures FilledUpTo(size, {}, n) == 0
  {
    if n > 0 {
      NothingFilled(size, n - 1);
    }
  }

  function WithEntry(s: BucketState, path: string, e: RemoteEntry): BucketState {
    s.(tree := s.tree.(entries := s.tree.entries[path := e]))
  }

  /** A new file of which nothing has been stored yet. */
  function WithEmptyFile(s: BucketState, path: string, parent: nat, size: nat, hash: Option<Digest>): BucketState {
    BucketState(s.tree.(entries := s.tree.entries[path := RemoteEntry(s.nextId, parent, File, size, 0, hash, 0)]),
                s.nextId + 1, s.served + [path])
  }

  predicate FileWithId(s: BucketState, path: string, id: nat) {
    path in s.tree.entries && s.tree.entries[path].kind == File && s.tree.entries[path].id == id
  }

  lemma WithEntryValid(s: BucketState, path: string, e: RemoteEntry)
    requires ValidState(s) && path in s.tree.entries && SameObject(e, s.tree.entries[path])
    requires e.parent == s.tree.entries[path].parent
    ensures ValidState(WithEntry(s, path, e))
  {
    UpdatedValid(s.tree, path, e);
  }

  /** `chunks` are the stored chunks of the files that are filled chunk by chunk, by file id. */
  class Bucket {
    var state: BucketState
    var replies: map<nat, seq<Reply>>
    var chunks: map<nat, set<nat>>

    constructor (tree: Tree, nextId: nat)
      requires ValidState(BucketState(tree, nextId, []))
      ensures state == BucketState(tree, nextId, []) && replies == map[]
    {
      state, replies, chunks := BucketState(tree, nextId, []), map[], map[];
    }

    /** Looks the target of a request up by id. */
    method FindTarget(r: Request) returns (target: Option<string>)
      requires ValidState(state)
      ensures target.Some? ==> Accepts(state.tree, r, target.value)
      ensures target.None? ==> forall path :: !Accepts(state.tree, r, path)
    {
      var t := state.tree;
      if r.CreateFolder? || r.CreateFile? {
        target := None;
        if folder :| folder in t.entries.Keys + {""} && FolderAt(t, folder) && FolderId(t, folder) == r.parent {
          var path := JoinPath(folder, r.name);
          if ValidName(r.name) {
            SplitJoin(folder, r.name);
            if path !in t.entries && FolderStatus(t, folder) == 0 {
              target := Some(path);
            }
          }
          if target.None? {
            forall p ensures !Accepts(t, r, p) {
              if Accepts(t, r, p) {
                SameFolder(t, folder, ParentPath(p));
              }
            }
          }
        }
      } else {
        target := None;
        var kind := if r.RemoveFolder? then Directory else File;
        if path :| path in t.entries && t.entries[path].kind == kind && t.entries[path].id == r.id {
          forall p ensures Accepts(t, r, p) ==> p == path {
            assert p in t.entries && Accepts(t, r, p) ==> SameObject(t.entries[p], t.entries[path]);
          }
          if Accepts(t, r, path) {
            target := Some(path);
          }
        }
      }
    }

    /** One request, without regard to its id. */
    method Perform(r: Request) returns (reply: Reply)
      requires ValidState(state)
      modifies this
      ensures (state, reply) == Serve(old(state), r)
      ensures ValidState(state) && replies == old(replies)
    {
      var target := FindTarget(r);
      hide Accepts, Effect, ValidTree;
      if target.Some? {
        ServeAccepted(state, r, target.value);
        reply := Ok(AffectedId(state, r));
        state := BucketState(Effect(state.tree, r, target.value, state.nextId), state.nextId + 1,
                             state.served + [target.value]);
      } else {
        reply := Err(Rejected);
      }
    }

    /** `create_file` without content. */
    method CreateEmptyFile(parent: nat, name: string, size: nat, hash: Option<Digest>) returns (reply: Reply)
      requires ValidState(state)
      modifies this
      ensures ValidState(state) && replies == old(replies)
      ensures forall path :: Accepts(old(state).tree, CreateFile(parent, name, size, hash), path) ==>
                && reply == Ok(old(state).nextId)
                && state == WithEmptyFile(old(state), path, parent, size, hash)
                && chunks == old(chunks)[old(state).nextId := {}]
      ensures (forall path :: !Accepts(old(state).tree, CreateFile(parent, name, size, hash), path)) ==>
                reply == Err(Rejected) && state == old(state) && chunks == old(chunks)
    {
      var r := CreateFile(parent, name, size, hash);
      var target := FindTarget(r);
      if target.Some? {
        var path := target.value;
        forall p | Accepts(state.tree, r, p) ensures p == path {
          AcceptedPathUnique(state.tree, r, p, path);
        }
        FreePlaceValid(state.tree, parent, name, path);
        AddedValid(state.tree, path, RemoteEntry(state.nextId, parent, File, size, 0, hash, 0));
        reply, chunks := Ok(state.nextId), chunks[state.nextId := {}];
        state := WithEmptyFile(state, path, parent, size, hash);
      } else {
        reply := Err(Rejected);
      }
    }

    method FindFile(id: nat) returns (found: Option<string>)
      requires ValidState(state)
      ensures found.None? ==> forall path :: !FileWithId(state, path, id)
      ensures found.Some? ==> FileWithId(state, found.value, id)
      ensures forall path :: FileWithId(state, path, id) ==> found == Some(path)
    {
      if path :| path in state.tree.entries && FileWithId(state, path, id) {
        forall p | FileWithId(state, p, id) ensures p == path {
          assert SameObject(state.tree.entries[p], state.tree.entries[path]);
        }
        found := Some(path);
      } else {
        found := None;
      }
    }

    /** `update_file_chunk`; storing a chunk again changes nothing. */
    method StoreChunk(id: nat, index: nat)
      requires ValidState(state)
      modifies this
      ensures ValidState(state) && replies == old(replies)
      ensures forall path :: FileWithId(old(state), path, id) && id in old(chunks) ==>
                && chunks == old(chunks)[id := old(chunks)[id] + {index}]
                && var e := old(state).tree.entries[path];
                   state == WithEntry(old(state), path, e.(filled := Filled(e.size, chunks[id])))
      ensures (forall path :: !FileWithId(old(state), path, id)) || id !in old(chunks) ==>
                state == old(state) && chunks == old(chunks)
    {
      var found := FindFile(id);
      if found.Some? && id in chunks {
        chunks := chunks[id := chunks[id] + {index}];
        var e := state.tree.entries[found.value];
        var filled := CountFilled(e.size, chunks[id]);
        WithEntryValid(state, found.value, e.(filled := filled));
        state := WithEntry(state, found.value, e.(filled := filled));
      }
    }

    method CountFilled(size: nat, stored: set<nat>) returns (filled: nat)
      ensures filled == Filled(size, stored)
    {
      filled := 0;
      for n := 0 to ChunkCount(size)
        invariant filled == FilledUpTo(size, stored, n)
      {
        if n in stored {
          filled := filled + (ChunkEnd(size, n + 1) - ChunkEnd(size, n));
        }
      }
    }

    /** `update_file_info` with a hash. */
    method SetHash(id: nat, hash: Option<Digest>)
      requires ValidState(state)
      modifies this
      ensures ValidState(state) && replies == old(replies) && chunks == old(chunks)
      ensures forall path :: FileWithId(old(state), path, id) ==>
                state == WithEntry(old(state), path, old(state).tree.entries[path].(hash := hash))
      ensures (forall path :: !FileWithId(old(state), path, id)) ==> state == old(state)
    {
      var found := FindFile(id);
      if found.Some? {
        var e := state.tree.entries[found.value];
        WithEntryValid(state, found.value, e.(hash := hash));
        state := WithEntry(state, found.value, e.(hash := hash));
      }
    }

    /** A call: a new request id is executed and its result recorded, a known one is only answered. */
    method Handle(requestId: nat, rs: seq<Request>) returns (out: seq<Reply>)
      requires ValidState(state)
      modifies this
      ensures ValidState(state)
      ensures requestId in old(replies) ==>
                state == old(state) && replies == old(replies) && out == old(replies)[requestId]
      ensures requestId !in old(replies) ==>
                (state, out) == ServeAll(old(state), rs) && replies == old(replies)[requestId := out]
    {
      if requestId in replies {
        return replies[requestId];
      }
      out := [];
      for i := 0 to |rs|
        invariant ValidState(state) && replies == old(replies)
        invariant (state, out) == ServeAll(old(state), rs[..i])
      {
        assert rs[..i + 1][..i] == rs[..i];
        var reply := Perform(rs[i]);
        out := out + [reply];
      }
      assert rs[..|rs|] == rs;
      replies := replies[requestId := out];
    }
  }

  /** None of the calls from `from` up to `to` got through both ways; none even reached the bucket. */
  ghost predicate NoneDelivered(network: nat -> Delivery, from: nat, to: nat) {
    forall c :: from <= c < to ==> !network(c).Delivered?
  }

  ghost predicate NoneReceived(network: nat -> Delivery, from: nat, to: nat) {
    forall c :: from <= c < to ==> network(c).RequestLost?
  }

  /** `retry_sync_call`: transport failures are retried with the same request id. It makes calls until
      one is delivered, and gives up exactly when `retry + 1` calls have failed. However often a reply
      gets lost, the requests take effect at most once, and they do as soon as one call has reached the
      bucket. */
  method RetryCall(bucket: Bucket, requestId: nat, rs: seq<Request>, retry: nat, network: nat -> Delivery, calls: nat)
    returns (r: Result<seq<Reply>, SyncError>, calls': nat)
    requires ValidState(bucket.state) && requestId !in bucket.replies
    modifies bucket
    ensures ValidState(bucket.state) && calls < calls' <= calls + retry + 1
    ensures NoneDelivered(network, calls, calls' - 1)
    ensures if NoneReceived(network, calls, calls')
            then bucket.state == old(bucket.state) && bucket.replies == old(bucket.replies)
            else bucket.state == ServeAll(old(bucket.state), rs).0
                 && bucket.replies == old(bucket.replies)[requestId := ServeAll(old(bucket.state), rs).1]
    ensures r.Ok? ==> network(calls' - 1).Delivered? && (bucket.state, r.value) == ServeAll(old(bucket.state), rs)
    ensures r.Err? ==> r == Err(Transient) && calls' == calls + retry + 1 && NoneDelivered(network, calls, calls')
  {
    var attempt := 0;
    calls' := calls;
    while true
      invariant ValidState(bucket.state) && attempt <= retry && calls' == calls + attempt
      invariant NoneDelivered(network, calls, calls')
      invariant if NoneReceived(network, calls, calls')
                then bucket.state == old(bucket.state) && bucket.replies == old(bucket.replies)
                else bucket.state == ServeAll(old(bucket.state), rs).0
                     && bucket.replies == old(bucket.replies)[requestId := ServeAll(old(bucket.state), rs).1]
      decreases retry - attempt
    {
      var delivery := network(calls');
      calls' := calls' + 1;
      match delivery {
        case Delivered =>
          assert network(calls' - 1).Delivered?;
          var out := bucket.Handle(requestId, rs);
          return Ok(out), calls';
        case RequestLost =>
        case ReplyLost =>
          assert network(calls' - 1).ReplyLost?;
          var _ := bucket.Handle(requestId, rs);
      }
      if attempt < retry {
        attempt := attempt + 1;
      } else {
        return Err(Transient), calls';
      }
    }
  }
}

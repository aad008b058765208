/** The verified download of one file (src/sync/pull.rs:490-700). */
module Download {
  import opened Collections
  import opened FileChunks
  import opened LocalTree
  import opened Manifests
  import opened Paths

  datatype FileInfo = FileInfo(
    id: nat, size: nat, filled: nat, chunks: nat, hash: Option<Digest>, revision: nat, generation: nat)

  datatype Chunk = Chunk(index: nat, body: Bytes)

  /** The calls of one download are numbered in the order in which they are made: the reply to the n-th
      call if it asks for the chunks from an index on; `None` is a failed call. Nothing else is assumed
      about it. */
  type ChunkServer = (nat, nat) -> Option<seq<Chunk>>

  /** Calls from number `from` up to number `to`. */
  datatype Calls = Calls(from: nat, to: nat)

  datatype DownloadError =
    | InfoFailed | CallFailed | NoChunk | UnexpectedChunk | InvalidChunk | LengthMismatch | HashMismatch
    | RemoteChanged | Incomplete | TemporaryExists | DestinationRefused

  const U32: nat := 0x1_0000_0000

  // ---- The order of the chunks in a reply ------------------------------------------------------

  ghost predicate SortedByIndex(s: seq<Chunk>) {
    forall i, j :: 0 <= i < j < |s| ==> s[i].index <= s[j].index
  }

  function InsertByIndex(c: Chunk, s: seq<Chunk>): (r: seq<Chunk>)
    ensures multiset(r) == multiset{c} + multiset(s)
  {
    if s == [] || c.index <= s[0].index then [c] + s
    else
      assert s == [s[0]] + s[1..];
      [s[0]] + InsertByIndex(c, s[1..])
  }

  /** `chunks.sort_by_key(|chunk| chunk.0)`, a stable sort. */
  function SortByIndex(s: seq<Chunk>): (r: seq<Chunk>)
    ensures multiset(r) == multiset(s)
  {
    if s == [] then []
    else
      assert s == [s[0]] + s[1..];
      InsertByIndex(s[0], SortByIndex(s[1..]))
  }

  lemma {:induction false} InsertKeepsOrder(c: Chunk, s: seq<Chunk>)
    requires SortedByIndex(s)
    ensures SortedByIndex(InsertByIndex(c, s))
  {
    if s != [] && c.index > s[0].index {
      InsertKeepsOrder(c, s[1..]);
      var r := InsertByIndex(c, s[1..]);
      forall j | 0 <= j < |r| ensures s[0].index <= r[j].index {
        assert r[j] in multiset{c} + multiset(s[1..]);
      }
    }
  }

  lemma {:induction false} SortByIndexSorts(s: seq<Chunk>)
    ensures SortedByIndex(SortByIndex(s))
  {
    if s != [] {
      SortByIndexSorts(s[1..]);
      InsertKeepsOrder(s[0], SortByIndex(s[1..]));
    }
  }

  /** The file's chunks `from`, ..., `from + count - 1`. */
  ghost function Slice(content: Bytes, from: nat, count: nat): seq<Chunk>
    requires from + count <= ChunkCount(|content|)
  {
    seq(count, k requires 0 <= k < count => Chunk(from + k, ChunkAt(content, from + k)))
  }

  lemma SortedFirst(a: seq<Chunk>, b: seq<Chunk>)
    requires SortedByIndex(a) && multiset(a) == multiset(b) && a != [] && b != []
    requires forall i, j :: 0 <= i < j < |b| ==> b[i].index < b[j].index
    ensures a[0] == b[0]
  {
    assert a[0] in multiset(b) && b[0] in multiset(a);
    var i :| 0 <= i < |b| && b[i] == a[0];
    var j :| 0 <= j < |a| && a[j] == b[0];
    assert a[0].index <= a[j].index;
  }

  /** However a reply lists chunks with different indices, sorting puts them in order. */
  lemma {:induction false} SortedOnce(a: seq<Chunk>, b: seq<Chunk>)
    requires SortedByIndex(a) && multiset(a) == multiset(b)
    requires forall i, j :: 0 <= i < j < |b| ==> b[i].index < b[j].index
    ensures a == b
  {
    assert |multiset(a)| == |a| && |multiset(b)| == |b|;
    if a != [] {
      SortedFirst(a, b);
      TailMultiset(a);
      TailMultiset(b);
      SortedOnce(a[1..], b[1..]);
      assert a == [a[0]] + a[1..] && b == [b[0]] + b[1..];
    }
  }

  lemma SortedReply(reply: seq<Chunk>, content: Bytes, from: nat, count: nat)
    requires from + count <= ChunkCount(|content|) && multiset(reply) == multiset(Slice(content, from, count))
    ensures SortByIndex(reply) == Slice(content, from, count)
  {
    SortByIndexSorts(reply);
    SortedOnce(SortByIndex(reply), Slice(content, from, count));
  }

  // ---- What a download may rely on and what it promises ----------------------------------------

  ghost predicate InReply(server: ChunkServer, index: nat, body: Bytes, call: nat, start: nat) {
    server(call, start).Some? && Chunk(index, body) in server(call, start).value
  }

  /** The reply to one of the calls contained this chunk. */
  ghost predicate Served(server: ChunkServer, calls: Calls, index: nat, body: Bytes) {
    exists call, start :: calls.from <= call < calls.to && InReply(server, index, body, call, start)
  }

  /** `content` is put together from chunks 0, 1, ..., each as some reply had it. */
  ghost predicate Assembled(server: ChunkServer, calls: Calls, info: FileInfo, bodies: seq<Bytes>, content: Bytes) {
    && |bodies| == info.chunks
    && content == Concat(bodies)
    && |content| == info.size
    && (forall i :: 0 <= i < |bodies| ==> Served(server, calls, i, bodies[i]))
    && (forall i :: 0 <= i < |bodies| - 1 ==> |bodies[i]| % U32 == CHUNK_SIZE)
  }

  ghost predicate Verified(server: ChunkServer, calls: Calls, sha3: Bytes -> Digest, info: FileInfo, content: Bytes) {
    && (exists bodies :: Assembled(server, calls, info, bodies, content))
    && (info.hash.Some? ==> info.hash.value == sha3(content))
  }

  /** Every answered query returns some chunks of the file from the asked index on, in any order. */
  ghost predicate Honest(server: ChunkServer, content: Bytes) {
    forall call, index {:trigger server(call, index)} :: server(call, index).Some? ==>
      exists count :: HonestReply(server(call, index).value, content, index, count)
  }

  ghost predicate HonestReply(reply: seq<Chunk>, content: Bytes, index: nat, count: nat) {
    && index + count <= ChunkCount(|content|)
    && (index < ChunkCount(|content|) ==> count > 0)
    && multiset(reply) == multiset(Slice(content, index, count))
  }

  ghost predicate Fits(info: FileInfo, content: Bytes) {
    info.size == |content| && info.chunks == ChunkCount(|content|)
  }

  ghost predicate Describes(info: FileInfo, sha3: Bytes -> Digest, content: Bytes) {
    && Fits(info, content)
    && (info.hash.Some? ==> info.hash.value == sha3(content))
  }

  // ---- Alignment -------------------------------------------------------------------------------

  ghost predicate Aligned(bodies: seq<Bytes>) {
    forall i :: 0 <= i < |bodies| ==> |Concat(bodies[..i])| == i * CHUNK_SIZE
  }

  lemma {:induction false} AlignedLengths(bodies: seq<Bytes>, k: nat)
    requires k <= |bodies|
    requires forall i :: 0 <= i < k ==> |bodies[i]| == CHUNK_SIZE
    ensures |Concat(bodies[..k])| == k * CHUNK_SIZE
  {
    if k > 0 {
      AlignedLengths(bodies, k - 1);
      assert bodies[..k][..k - 1] == bodies[..k - 1];
    }
  }

  /** The length test looks at the low 32 bits only, so chunk i sits at offset i * CHUNK_SIZE exactly
      when no chunk before the last is 2^32 bytes or longer. */
  lemma AlignedIffShort(server: ChunkServer, calls: Calls, info: FileInfo, bodies: seq<Bytes>, content: Bytes)
    requires Assembled(server, calls, info, bodies, content)
    ensures Aligned(bodies) <==> forall i :: 0 <= i < |bodies| - 1 ==> |bodies[i]| < U32
  {
    if forall i :: 0 <= i < |bodies| - 1 ==> |bodies[i]| < U32 {
      forall i | 0 <= i < |bodies| ensures |Concat(bodies[..i])| == i * CHUNK_SIZE {
        AlignedLengths(bodies, i);
      }
    }
    if Aligned(bodies) {
      forall i | 0 <= i < |bodies| - 1 ensures |bodies[i]| < U32 {
        assert bodies[..i + 1][..i] == bodies[..i];
        assert |Concat(bodies[..i + 1])| == (i + 1) * CHUNK_SIZE;
      }
    }
  }

  lemma {:induction false} PrefixesAgree(bodies: seq<Bytes>, chunks: seq<Bytes>)
    requires |bodies| == |chunks| && forall i :: 0 <= i < |bodies| ==> bodies[i] == chunks[i]
    ensures Concat(bodies) == Concat(chunks)
  {
    assert bodies == chunks;
  }

  lemma ServedIsChunk(server: ChunkServer, calls: Calls, truth: Bytes, index: nat, body: Bytes)
    requires Honest(server, truth) && Served(server, calls, index, body)
    ensures index < ChunkCount(|truth|) && body == ChunkAt(truth, index)
  {
    var call, start :| calls.from <= call < calls.to && InReply(server, index, body, call, start);
    var reply := server(call, start).value;
    var count :| HonestReply(reply, truth, start, count);
    assert Chunk(index, body) in multiset(reply);
    assert Chunk(index, body) in Slice(truth, start, count);
  }

  /** From an honest server, what passes the tests is the file, whether or not a hash is known. */
  lemma HonestIsExact(
    server: ChunkServer, calls: Calls, sha3: Bytes -> Digest, info: FileInfo, content: Bytes, truth: Bytes)
    requires Honest(server, truth) && info.chunks == ChunkCount(|truth|)
    requires Verified(server, calls, sha3, info, content)
    ensures content == truth
  {
    var bodies :| Assembled(server, calls, info, bodies, content);
    forall i | 0 <= i < |bodies| ensures bodies[i] == ChunksOf(truth)[i] {
      ServedIsChunk(server, calls, truth, i, bodies[i]);
    }
    PrefixesAgree(bodies, ChunksOf(truth));
    ChunksRebuild(truth);
  }

  // ---- Retried queries -------------------------------------------------------------------------

  ghost predicate AllFail(server: ChunkServer, index: nat, from: nat, count: nat) {
    forall k {:trigger server(k, index)} :: from <= k < from + count ==> server(k, index).None?
  }

  /** `get_file_chunks_retry`: the first answer among `retry + 1` queries. */
  method GetFileChunks(server: ChunkServer, call: nat, index: nat, retry: nat)
    returns (reply: Option<seq<Chunk>>, next: nat)
    ensures call < next <= call + retry + 1
    ensures reply == server(next - 1, index) && AllFail(server, index, call, next - 1 - call)
    ensures reply.None? ==> next == call + retry + 1
  {
    next := call;
    var attempt := 0;
    while true
      invariant attempt <= retry && next == call + attempt
      invariant AllFail(server, index, call, attempt)
      decreases retry - attempt
    {
      reply := server(next, index);
      next := next + 1;
      if reply.Some? || attempt >= retry {
        return;
      }
      attempt := attempt + 1;
    }
  }

  // ---- The disk --------------------------------------------------------------------------------

  class Disk {
    var files: Files
    /** All states of the disk so far, oldest first: what a crash may leave behind. */
    ghost var trace: seq<Files>

    ghost predicate Valid()
      reads this
    {
      trace != [] && trace[|trace| - 1] == files
    }

    constructor (files: Files)
      ensures Valid() && this.files == files && trace == [files]
    {
      this.files, trace := files, [files];
    }

    /** One atomic change. */
    method Change(files': Files)
      requires Valid()
      modifies this
      ensures Valid() && files == files' && trace == old(trace) + [files']
    {
      files, trace := files', trace + [files'];
    }

    /** `remove_file`, whose outcome is ignored. */
    method RemoveFile(path: string)
      requires Valid()
      modifies this
      ensures Valid()
      ensures files == if path in old(files) && !old(files)[path].Folder? then old(files) - {path} else old(files)
      ensures Confined(old(trace), trace, old(files), path)
    {
      if path in files && !files[path].Folder? {
        Change(files - {path});
      }
    }
  }

  /** The states added to the trace agree with `files` outside of `path`; a regular file there is the
      only change. */
  ghost predicate Confined(before: seq<Files>, after: seq<Files>, files: Files, path: string) {
    && before <= after
    && forall i :: |before| <= i < |after| ==>
         after[i] - {path} == files - {path} && AsBeforeOrRegular(files, after[i], path)
  }

  predicate AsBeforeOrRegular(before: Files, after: Files, path: string) {
    path in after ==> after[path].Regular? || (path in before && after[path] == before[path])
  }

  // ---- The download loop -----------------------------------------------------------------------

  /** How far a download has come. */
  datatype Progress = Progress(next: nat, downloaded: nat, hashed: Bytes)

  ghost predicate Partial(server: ChunkServer, calls: Calls, info: FileInfo, bodies: seq<Bytes>, p: Progress) {
    && |bodies| == p.next
    && p.hashed == Concat(bodies)
    && p.downloaded == |p.hashed| <= info.size
    && (forall i :: 0 <= i < |bodies| ==> Served(server, calls, i, bodies[i]))
    && (forall i :: 0 <= i < |bodies| && i + 1 < info.chunks ==> |bodies[i]| % U32 == CHUNK_SIZE)
  }

  predicate Acceptable(info: FileInfo, p: Progress, chunk: Chunk) {
    && chunk.index == p.next
    && |chunk.body| <= info.size - p.downloaded
    && (|chunk.body| % U32 == CHUNK_SIZE || p.next + 1 >= info.chunks)
  }

  lemma PartialGrows(server: ChunkServer, calls: Calls, info: FileInfo, bodies: seq<Bytes>, p: Progress, chunk: Chunk)
    requires Partial(server, calls, info, bodies, p) && Acceptable(info, p, chunk) && Served(server, calls, chunk.index, chunk.body)
    ensures Partial(server, calls, info, bodies + [chunk.body],
                    Progress(p.next + 1, p.downloaded + |chunk.body|, p.hashed + chunk.body))
  {
    assert (bodies + [chunk.body])[..|bodies|] == bodies;
  }

  ghost predicate Expected(info: FileInfo, sha3: Bytes -> Digest, server: ChunkServer, truth: Bytes) {
    Honest(server, truth) && Describes(info, sha3, truth)
  }

  /** The next chunks of the file have been taken. */
  ghost predicate OnTrack(truth: Bytes, p: Progress) {
    && p.next <= ChunkCount(|truth|)
    && p.hashed == truth[..ChunkEnd(|truth|, p.next)]
  }

  lemma TruthIsAcceptable(info: FileInfo, truth: Bytes, p: Progress)
    requires Fits(info, truth)
    requires OnTrack(truth, p) && p.next < info.chunks && p.downloaded == |p.hashed|
    ensures var chunk := Chunk(p.next, ChunkAt(truth, p.next));
            Acceptable(info, p, chunk)
            && OnTrack(truth, Progress(p.next + 1, p.downloaded + |chunk.body|, p.hashed + chunk.body))
  {
    ChunkBounds(truth, p.next);
    ChunkSizes(truth, p.next);
  }

  lemma TruthAtEnd(truth: Bytes, p: Progress)
    requires OnTrack(truth, p) && p.next >= ChunkCount(|truth|)
    ensures p.hashed == truth && p.next == ChunkCount(|truth|)
  {
  }

  /** The body of the loop over the chunks of one reply. */
  method TakeChunk(disk: Disk, temporary: string, info: FileInfo, chunk: Chunk, start: Progress)
    returns (r: Result<Progress, DownloadError>)
    requires disk.Valid() && start.downloaded <= info.size
    modifies disk
    ensures disk.Valid()
    ensures r.Ok? <==> Acceptable(info, start, chunk)
    ensures r.Ok? ==> r.value == Progress(start.next + 1, start.downloaded + |chunk.body|, start.hashed + chunk.body)
    ensures r.Ok? ==> disk.files == old(disk.files)[temporary := Regular(r.value.hashed)]
                      && disk.trace == old(disk.trace) + [disk.files]
    ensures r.Err? ==> disk.trace == old(disk.trace)
    ensures r == Err(UnexpectedChunk) <==> chunk.index != start.next
    ensures r.Err? ==> r.error.UnexpectedChunk? || r.error.InvalidChunk?
  {
    if chunk.index != start.next {
      return Err(UnexpectedChunk);
    }
    if |chunk.body| > info.size - start.downloaded
       || (|chunk.body| % U32 != CHUNK_SIZE && start.next + 1 < info.chunks) {
      return Err(InvalidChunk);
    }
    r := Ok(Progress(start.next + 1, start.downloaded + |chunk.body|, start.hashed + chunk.body));
    disk.Change(disk.files[temporary := Regular(r.value.hashed)]);
  }

  /** What taking all chunks in order comes to; `None` if one of them is refused. */
  function TakeAll(info: FileInfo, p: Progress, chunks: seq<Chunk>): Option<Progress> {
    if chunks == [] then Some(p)
    else
      match TakeAll(info, p, chunks[..|chunks| - 1])
      case None => None
      case Some(q) =>
        var chunk := chunks[|chunks| - 1];
        if Acceptable(info, q, chunk)
        then Some(Progress(q.next + 1, q.downloaded + |chunk.body|, q.hashed + chunk.body))
        else None
  }

  lemma {:induction false} TakenPrefix(info: FileInfo, p: Progress, chunks: seq<Chunk>, k: nat)
    requires k <= |chunks| && TakeAll(info, p, chunks).Some?
    ensures TakeAll(info, p, chunks[..k]).Some?
    decreases |chunks|
  {
    if k < |chunks| {
      assert chunks[..|chunks| - 1][..k] == chunks[..k];
      TakenPrefix(info, p, chunks[..|chunks| - 1], k);
    } else {
      assert chunks[..k] == chunks;
    }
  }

  /** A reply that the loop takes in full, after which it ends with the size and the number of chunks that
      the file should have, although the second chunk is at the wrong offset. */
  lemma OverlongChunkAccepted(long: Bytes) returns (info: FileInfo, reply: seq<Chunk>, end: Progress)
    requires |long| == U32 + CHUNK_SIZE
    ensures reply == [Chunk(0, long), Chunk(1, [7])] && info.hash == None
    ensures TakeAll(info, Progress(0, 0, []), SortByIndex(reply)) == Some(end)
    ensures end.next == info.chunks && end.downloaded == info.size && end.hashed == Concat([long, [7]])
    ensures !Aligned([long, [7]])
  {
    reply := [Chunk(0, long), Chunk(1, [7])];
    info := FileInfo(1, U32 + CHUNK_SIZE + 1, U32 + CHUNK_SIZE + 1, 2, None, 0, 0);
    SortedPair(reply[0], reply[1]);
    TakePair(info, Progress(0, 0, []), reply[0], reply[1]);
    ConcatPair(long, [7]);
    end := Progress(2, |long| + 1, long + [7]);
    assert [long, [7]][..1] == [long];
    assert |Concat([long, [7]][..1])| != 1 * CHUNK_SIZE;
  }

  lemma SortedPair(c: Chunk, d: Chunk)
    requires c.index <= d.index
    ensures SortByIndex([c, d]) == [c, d]
  {
    assert [c, d][1..] == [d] && [d][1..] == [];
    assert SortByIndex([d]) == [d];
  }

  lemma TakePair(info: FileInfo, p: Progress, c: Chunk, d: Chunk)
    requires Acceptable(info, p, c)
    requires Acceptable(info, Progress(p.next + 1, p.downloaded + |c.body|, p.hashed + c.body), d)
    ensures TakeAll(info, p, [c, d])
            == Some(Progress(p.next + 2, p.downloaded + |c.body| + |d.body|, p.hashed + c.body + d.body))
  {
    assert [c, d][..1] == [c] && [c][..0] == [];
    assert TakeAll(info, p, [c]) == Some(Progress(p.next + 1, p.downloaded + |c.body|, p.hashed + c.body));
  }

  lemma ConcatPair(a: Bytes, b: Bytes)
    ensures Concat([a]) == a && Concat([a, b]) == a + b
  {
    assert [a, b][..1] == [a] && [a][..0] == [];
  }

  /** The next chunks of the file are all taken. */
  lemma {:induction false} TruthIsTaken(info: FileInfo, truth: Bytes, p: Progress, count: nat)
    requires Fits(info, truth) && OnTrack(truth, p) && p.downloaded == |p.hashed| && p.next + count <= info.chunks
    ensures var r := TakeAll(info, p, Slice(truth, p.next, count));
            && r.Some? && OnTrack(truth, r.value)
            && r.value.next == p.next + count && r.value.downloaded == |r.value.hashed|
    decreases count
  {
    if count > 0 {
      TruthIsTaken(info, truth, p, count - 1);
      var slice := Slice(truth, p.next, count);
      assert slice[..count - 1] == Slice(truth, p.next, count - 1);
      TruthIsAcceptable(info, truth, TakeAll(info, p, slice[..count - 1]).value);
    }
  }

  function BodiesOf(chunks: seq<Chunk>): (bodies: seq<Bytes>)
    ensures |bodies| == |chunks|
  {
    if chunks == [] then [] else BodiesOf(chunks[..|chunks| - 1]) + [chunks[|chunks| - 1].body]
  }

  lemma {:induction false} TakenIsPartial(
    server: ChunkServer, calls: Calls, info: FileInfo, before: seq<Bytes>, p: Progress, chunks: seq<Chunk>)
    requires Partial(server, calls, info, before, p) && TakeAll(info, p, chunks).Some?
    requires forall c :: c in chunks ==> Served(server, calls, c.index, c.body)
    ensures Partial(server, calls, info, before + BodiesOf(chunks), TakeAll(info, p, chunks).value)
    ensures TakeAll(info, p, chunks).value.next == p.next + |chunks|
  {
    if chunks == [] {
      assert before + BodiesOf(chunks) == before;
    } else {
      var init, last := chunks[..|chunks| - 1], chunks[|chunks| - 1];
      TakenIsPartial(server, calls, info, before, p, init);
      PartialGrows(server, calls, info, before + BodiesOf(init), TakeAll(info, p, init).value, last);
      assert before + BodiesOf(chunks) == before + BodiesOf(init) + [last.body];
    }
  }

  /** The loop over the chunks of one reply. */
  method TakeChunks(disk: Disk, temporary: string, info: FileInfo, chunks: seq<Chunk>, start: Progress)
    returns (r: Result<Progress, DownloadError>)
    requires disk.Valid() && disk.files == disk.files[temporary := Regular(start.hashed)]
    requires start.downloaded <= info.size
    modifies disk
    ensures disk.Valid() && Confined(old(disk.trace), disk.trace, old(disk.files), temporary)
    ensures temporary in disk.files && disk.files[temporary].Regular?
    ensures r.Ok? <==> TakeAll(info, start, chunks).Some?
    ensures r.Ok? ==> Some(r.value) == TakeAll(info, start, chunks)
    ensures r.Ok? ==> disk.files == old(disk.files)[temporary := Regular(r.value.hashed)]
    ensures r.Err? ==> r.error.UnexpectedChunk? || r.error.InvalidChunk?
  {
    var p := start;
    for i := 0 to |chunks|
      invariant disk.Valid() && Confined(old(disk.trace), disk.trace, old(disk.files), temporary)
      invariant TakeAll(info, start, chunks[..i]) == Some(p) && p.downloaded <= info.size
      invariant disk.files == old(disk.files)[temporary := Regular(p.hashed)]
    {
      assert chunks[..i + 1][..i] == chunks[..i];
      var taken := TakeChunk(disk, temporary, info, chunks[i], p);
      match taken {
        case Err(e) =>
          if TakeAll(info, start, chunks).Some? { TakenPrefix(info, start, chunks, i + 1); }
          return Err(e);
        case Ok(progress) => p := progress;
      }
    }
    assert chunks[..|chunks|] == chunks;
    r := Ok(p);
  }

  lemma HonestSorted(server: ChunkServer, truth: Bytes, call: nat, index: nat)
    requires Honest(server, truth) && server(call, index).Some? && index < ChunkCount(|truth|)
    ensures var reply := server(call, index).value;
            && reply != [] && index + |reply| <= ChunkCount(|truth|)
            && SortByIndex(reply) == Slice(truth, index, |reply|)
  {
    var reply := server(call, index).value;
    var count :| HonestReply(reply, truth, index, count);
    assert |reply| == |multiset(reply)| == |Slice(truth, index, count)|;
    SortedReply(reply, truth, index, count);
  }

  lemma SortedIsServed(server: ChunkServer, calls: Calls, call: nat, index: nat)
    requires server(call, index).Some? && calls.from <= call < calls.to
    ensures forall c :: c in SortByIndex(server(call, index).value) ==> Served(server, calls, c.index, c.body)
  {
    var reply := server(call, index).value;
    forall c | c in SortByIndex(reply) ensures Served(server, calls, c.index, c.body) {
      assert c in multiset(reply);
      assert InReply(server, c.index, c.body, call, index);
    }
  }

  ghost predicate Unanswered(server: ChunkServer, call: nat, index: nat, retry: nat) {
    AllFail(server, index, call, retry + 1)
  }

  /** Some query has been tried once and then `retry` times more, each time without an answer. */
  ghost predicate GaveUp(server: ChunkServer, retry: nat) {
    exists call, index :: Unanswered(server, call, index, retry)
  }

  /** A reply of an honest bucket is taken in full. */
  lemma HonestIsTaken(server: ChunkServer, info: FileInfo, sha3: Bytes -> Digest, truth: Bytes, start: Progress, call: nat)
    requires Expected(info, sha3, server, truth) && OnTrack(truth, start) && start.downloaded == |start.hashed|
    requires server(call, start.next).Some? && start.next < info.chunks
    ensures var reply := server(call, start.next).value;
            && reply != [] && TakeAll(info, start, SortByIndex(reply)).Some?
            && OnTrack(truth, TakeAll(info, start, SortByIndex(reply)).value)
  {
    HonestSorted(server, truth, call, start.next);
    TruthIsTaken(info, truth, start, |server(call, start.next).value|);
  }

  lemma ReplyIsPartial(
    server: ChunkServer, calls: Calls, info: FileInfo, before: seq<Bytes>, start: Progress, call: nat)
    requires server(call, start.next).Some? && calls.from <= call < calls.to
    requires Partial(server, calls, info, before, start)
    ensures var chunks := SortByIndex(server(call, start.next).value);
            TakeAll(info, start, chunks).Some? ==>
              && Partial(server, calls, info, before + BodiesOf(chunks), TakeAll(info, start, chunks).value)
              && TakeAll(info, start, chunks).value.next == start.next + |server(call, start.next).value|
  {
    var reply := server(call, start.next).value;
    SortedIsServed(server, calls, call, start.next);
    assert |SortByIndex(reply)| == |multiset(reply)| == |reply|;
    if TakeAll(info, start, SortByIndex(reply)).Some? {
      TakenIsPartial(server, calls, info, before, start, SortByIndex(reply));
    }
  }

  /** One round of the loop: a reply, put in order and taken. */
  method TakeReply(
    disk: Disk, temporary: string, info: FileInfo, server: ChunkServer, call: nat, retry: nat, start: Progress,
    sha3: Bytes -> Digest, ghost first: nat, ghost before: seq<Bytes>, ghost truth: Bytes)
    returns (r: Result<Progress, DownloadError>, next: nat, ghost bodies: seq<Bytes>)
    requires disk.Valid() && start.next < info.chunks && first <= call
    requires Partial(server, Calls(first, call), info, before, start) && disk.files == disk.files[temporary := Regular(start.hashed)]
    modifies disk
    ensures disk.Valid() && Confined(old(disk.trace), disk.trace, old(disk.files), temporary)
    ensures temporary in disk.files && disk.files[temporary].Regular?
    ensures call < next && (r.Ok? ==> Partial(server, Calls(first, next), info, bodies, r.value) && r.value.next > start.next)
    ensures r.Ok? ==> disk.files == old(disk.files)[temporary := Regular(r.value.hashed)]
    ensures r.Err? && r.error.CallFailed? ==> GaveUp(server, retry)
    ensures r.Err? ==> !r.error.TemporaryExists? && !r.error.InfoFailed?
    ensures Expected(info, sha3, server, truth) && OnTrack(truth, start) ==>
              if r.Ok? then OnTrack(truth, r.value) else r.error.CallFailed?
  {
    hide Partial, Honest, Describes, OnTrack, TakeAll, BodiesOf, SortByIndex, AllFail, GaveUp, Confined;
    bodies := before;
    PartialBound(server, Calls(first, call), info, before, start);
    Unconfined(disk.trace, disk.files, temporary);
    var reply;
    reply, next := GetFileChunks(server, call, start.next, retry);
    match reply {
      case None =>
        NoAnswer(server, call, start.next, retry);
        return Err(CallFailed), next, bodies;
      case Some(chunks) =>
        if Expected(info, sha3, server, truth) && OnTrack(truth, start) {
          HonestIsTaken(server, info, sha3, truth, start, next - 1);
        }
        MoreCalls(server, Calls(first, call), Calls(first, next), info, before, start);
        ReplyIsPartial(server, Calls(first, next), info, before, start, next - 1);
        if chunks == [] {
          return Err(NoChunk), next, bodies;
        }
        r := TakeChunks(disk, temporary, info, SortByIndex(chunks), start);
        bodies := before + BodiesOf(SortByIndex(chunks));
    }
  }

  lemma NoAnswer(server: ChunkServer, call: nat, index: nat, retry: nat)
    requires AllFail(server, index, call, retry) && server(call + retry, index).None?
    ensures GaveUp(server, retry)
  {
    assert Unanswered(server, call, index, retry);
  }

  lemma Unconfined(trace: seq<Files>, files: Files, path: string)
    ensures Confined(trace, trace, files, path)
  {
  }

  lemma MoreCalls(server: ChunkServer, calls: Calls, more: Calls, info: FileInfo, bodies: seq<Bytes>, p: Progress)
    requires Partial(server, calls, info, bodies, p) && more.from <= calls.from && calls.to <= more.to
    ensures Partial(server, more, info, bodies, p)
  {
    forall i | 0 <= i < |bodies| ensures Served(server, more, i, bodies[i]) {
      assert Served(server, calls, i, bodies[i]);
    }
  }

  lemma PartialBound(server: ChunkServer, calls: Calls, info: FileInfo, bodies: seq<Bytes>, p: Progress)
    requires Partial(server, calls, info, bodies, p)
    ensures p.downloaded == |p.hashed| <= info.size
  {
  }

  /** `download_to_temporary`. */
  method DownloadToTemporary(
    disk: Disk, temporary: string, info: FileInfo, server: ChunkServer, sha3: Bytes -> Digest, first: nat,
    retry: nat, ghost truth: Bytes)
    returns (r: Result<(), DownloadError>, next: nat, ghost content: Bytes)
    requires disk.Valid()
    modifies disk
    ensures disk.Valid() && Confined(old(disk.trace), disk.trace, old(disk.files), temporary)
    ensures r.Ok? ==> temporary !in old(disk.files) && disk.files == old(disk.files)[temporary := Regular(content)]
    ensures first <= next && (r.Ok? ==> Verified(server, Calls(first, next), sha3, info, content))
    ensures temporary !in old(disk.files) && temporary in disk.files ==> disk.files[temporary].Regular?
    ensures disk.files - {temporary} == old(disk.files) - {temporary}
    ensures r.Err? && r.error.TemporaryExists? <==> temporary in old(disk.files)
    ensures r.Err? && r.error.CallFailed? ==> GaveUp(server, retry)
    ensures r.Err? ==> !r.error.InfoFailed?
    ensures Expected(info, sha3, server, truth) ==> r.Ok? || r.error.TemporaryExists? || r.error.CallFailed?
  {
    content, next := [], first;
    if temporary in disk.files {
      return Err(TemporaryExists), next, content;
    }
    disk.Change(disk.files[temporary := Regular([])]);
    var p := Progress(0, 0, []);
    ghost var bodies: seq<Bytes> := [];
    while p.next < info.chunks
      invariant disk.Valid() && Confined(old(disk.trace), disk.trace, old(disk.files), temporary)
      invariant first <= next && Partial(server, Calls(first, next), info, bodies, p)
      invariant disk.files == old(disk.files)[temporary := Regular(p.hashed)]
      invariant Expected(info, sha3, server, truth) ==> OnTrack(truth, p)
      decreases info.chunks - p.next
    {
      var taken;
      taken, next, bodies := TakeReply(disk, temporary, info, server, next, retry, p, sha3, first, bodies, truth);
      match taken {
        case Err(e) => return Err(e), next, content;
        case Ok(progress) => p := progress;
      }
    }
    if Expected(info, sha3, server, truth) {
      TruthAtEnd(truth, p);
    }
    if p.downloaded != info.size || p.next != info.chunks {
      return Err(LengthMismatch), next, content;
    }
    if info.hash.Some? && info.hash.value != sha3(p.hashed) {
      return Err(HashMismatch), next, content;
    }
    content := p.hashed;
    assert Assembled(server, Calls(first, next), info, bodies, content);
    r := Ok(());
  }

  // ---- Publishing ------------------------------------------------------------------------------

  /** The reply to the n-th call of the download if it asks for the file's info; `None` is a failed call. */
  type InfoServer = nat -> Option<FileInfo>

  /** `get_file_info_retry`. */
  method GetFileInfo(infos: InfoServer, call: nat, retry: nat) returns (info: Option<FileInfo>, next: nat)
    ensures call < next <= call + retry + 1 && info == infos(next - 1)
    ensures info.None? ==> InfosFail(infos, call, retry)
  {
    next := call;
    var attempt := 0;
    while true
      invariant attempt <= retry && next == call + attempt
      invariant forall k :: call <= k < next ==> infos(k).None?
      decreases retry - attempt
    {
      info := infos(next);
      next := next + 1;
      if info.Some? || attempt >= retry {
        return;
      }
      attempt := attempt + 1;
    }
  }

  /** Some info query has been tried once and then `retry` times more, each time without an answer. */
  ghost predicate InfosGaveUp(infos: InfoServer, retry: nat) {
    exists call :: InfosFail(infos, call, retry)
  }

  /** If the error is a query without an answer, all tries have failed. */
  ghost predicate TriedEnough(infos: InfoServer, server: ChunkServer, retry: nat, e: DownloadError) {
    && (e.InfoFailed? ==> InfosGaveUp(infos, retry))
    && (e.CallFailed? ==> GaveUp(server, retry))
  }

  ghost predicate InfosFail(infos: InfoServer, call: nat, retry: nat) {
    forall k :: call <= k < call + retry + 1 ==> infos(k).None?
  }

  ghost predicate FoldersAbove(files: Files, path: string)
    decreases |path|
  {
    var parent := ParentPath(path);
    parent == "" || (|parent| < |path| && parent in files && files[parent].Folder? && FoldersAbove(files, parent))
  }

  /** `ensure_secure_parent`: every directory above `path` is a real one; missing ones are created. */
  method EnsureParent(disk: Disk, path: string) returns (ok: bool)
    requires disk.Valid() && ValidPath(path)
    modifies disk
    ensures disk.Valid() && old(disk.trace) <= disk.trace
    ensures FoldersAbove(old(disk.files), path) ==> ok && disk.trace == old(disk.trace)
    ensures ok ==> FoldersAbove(disk.files, path)
    ensures forall i {:trigger disk.trace[i]} :: |old(disk.trace)| <= i < |disk.trace| ==>
              OnlyFoldersAdded(old(disk.files), disk.trace[i], path)
    ensures OnlyFoldersAdded(old(disk.files), disk.files, path)
    decreases |path|
  {
    var parent := ParentPath(path);
    if parent == "" {
      return true;
    }
    ParentValid(path);
    ok := EnsureParent(disk, parent);
    UnderParent(parent, path);
    AddedFurtherUp(old(disk.files), path);
    if !ok {
      return;
    }
    if parent !in disk.files {
      ghost var before := disk.files;
      disk.Change(disk.files[parent := Folder]);
      FoldersStay(before, disk.files, parent);
    } else {
      ok := disk.files[parent].Folder?;
    }
  }

  /** Nothing is lost or changed, and what is new is a folder above `path`. */
  ghost predicate OnlyFoldersAdded(before: Files, after: Files, path: string) {
    && (forall q :: q in before ==> q in after && after[q] == before[q])
    && (forall q :: q in after && q !in before ==> after[q] == Folder && Under(q, path))
  }

  lemma AddedFurtherUp(before: Files, path: string)
    requires ValidPath(path) && ParentPath(path) != ""
    ensures forall after {:trigger OnlyFoldersAdded(before, after, ParentPath(path))} ::
              OnlyFoldersAdded(before, after, ParentPath(path)) ==> OnlyFoldersAdded(before, after, path)
  {
    forall q ensures Under(q, ParentPath(path)) ==> Under(q, path) {
      UnderParent(q, path);
    }
  }

  lemma {:induction false} FoldersStay(before: Files, after: Files, path: string)
    requires FoldersAbove(before, path) && forall q :: q in before ==> q in after && after[q] == before[q]
    ensures FoldersAbove(after, path)
    decreases |path|
  {
    if ParentPath(path) != "" {
      FoldersStay(before, after, ParentPath(path));
    }
  }

  /** `validate_destination`. */
  predicate DestinationFree(files: Files, path: string, replace: bool) {
    if path in files then files[path].Regular? && replace else !replace
  }

  /** `validate_remote_file`. */
  predicate AsPlanned(info: FileInfo, expected: RemoteEntry) {
    && info.id == expected.id && info.size == expected.size && info.filled == expected.filled
    && info.hash == expected.hash
  }

  predicate SameVersion(a: FileInfo, b: FileInfo) {
    && a.revision == b.revision && a.generation == b.generation
    && a.size == b.size && a.filled == b.filled && a.hash == b.hash
  }

  /** What may be published: content put together from the replies between two info replies that agree. */
  ghost predicate Publishable(
    server: ChunkServer, infos: InfoServer, sha3: Bytes -> Digest, expected: RemoteEntry, content: Bytes)
  {
    exists i, j :: PublishableBetween(server, infos, sha3, expected, content, i, j)
  }

  ghost predicate PublishableBetween(
    server: ChunkServer, infos: InfoServer, sha3: Bytes -> Digest, expected: RemoteEntry, content: Bytes, i: nat, j: nat)
  {
    && SeenUnchanged(infos, i, j) && AsPlanned(infos(i).value, expected)
    && infos(i).value.size == infos(i).value.filled
    && Verified(server, Calls(i + 1, j), sha3, infos(i).value, content)
  }

  ghost predicate SeenUnchanged(infos: InfoServer, i: nat, j: nat) {
    i < j && infos(i).Some? && infos(j).Some? && SameVersion(infos(i).value, infos(j).value)
  }

  /** The destination is as it was, or holds publishable content in full. */
  ghost predicate OldOrVerified(
    before: Files, after: Files, destination: string, server: ChunkServer, infos: InfoServer, sha3: Bytes -> Digest,
    expected: RemoteEntry)
  {
    if destination in after
    then (destination in before && after[destination] == before[destination])
         || (after[destination].Regular? && Publishable(server, infos, sha3, expected, after[destination].content))
    else destination !in before
  }

  ghost predicate TraceSafe(
    before: Files, trace: seq<Files>, from: nat, destination: string, server: ChunkServer, infos: InfoServer,
    sha3: Bytes -> Digest, expected: RemoteEntry)
  {
    forall i {:trigger trace[i]} :: from <= i < |trace| ==>
      OldOrVerified(before, trace[i], destination, server, infos, sha3, expected)
  }

  /** Both answers to the info queries describe the planned version of the remote file. */
  ghost predicate Unchanging(infos: InfoServer, expected: RemoteEntry, sha3: Bytes -> Digest, server: ChunkServer, truth: Bytes) {
    && expected.size == expected.filled
    && (forall i {:trigger infos(i)} :: infos(i).Some? ==>
          AsPlanned(infos(i).value, expected) && Expected(infos(i).value, sha3, server, truth))
    && (forall i, j {:trigger infos(i), infos(j)} :: infos(i).Some? && infos(j).Some? ==>
          SameVersion(infos(i).value, infos(j).value))
  }

  lemma ConfinedIsSafe(
    before: seq<Files>, after: seq<Files>, files: Files, temporary: string, destination: string,
    server: ChunkServer, infos: InfoServer, sha3: Bytes -> Digest, expected: RemoteEntry)
    requires Confined(before, after, files, temporary) && temporary != destination
    ensures TraceSafe(files, after, |before|, destination, server, infos, sha3, expected)
  {
    forall i | |before| <= i < |after|
      ensures OldOrVerified(files, after[i], destination, server, infos, sha3, expected)
    {
      assert destination in after[i] <==> destination in after[i] - {temporary};
      assert destination in files <==> destination in files - {temporary};
    }
  }

  lemma Removed(files: Files, before: Files, path: string)
    requires files - {path} == before - {path} && path !in before
    ensures (if path in files then files - {path} else files) == before
  {
    assert before - {path} == before;
    assert path !in files ==> files - {path} == files;
  }

  /** The download into the temporary file and the check that the remote file has not changed
      meanwhile; the temporary file is removed when either fails. */
  method Fetch(
    disk: Disk, temporary: string, expected: RemoteEntry, infos: InfoServer, server: ChunkServer,
    sha3: Bytes -> Digest, retry: nat, ghost truth: Bytes)
    returns (r: Result<(), DownloadError>, ghost content: Bytes)
    requires disk.Valid()
    modifies disk
    ensures disk.Valid() && Confined(old(disk.trace), disk.trace, old(disk.files), temporary)
    ensures r.Ok? ==> disk.files == old(disk.files)[temporary := Regular(content)] && temporary !in old(disk.files)
    ensures r.Ok? ==> Publishable(server, infos, sha3, expected, content)
    ensures r.Err? ==> TriedEnough(infos, server, retry, r.error)
    ensures r.Err? ==> disk.files - {temporary} == old(disk.files) - {temporary}
    ensures r.Err? && temporary !in old(disk.files) ==> disk.files == old(disk.files)
    ensures Unchanging(infos, expected, sha3, server, truth) && temporary !in old(disk.files) ==>
              r.Ok? || r.error.InfoFailed? || r.error.CallFailed?
  {
    content := [];
    var before, call := GetFileInfo(infos, 0, retry);
    ghost var i := call - 1;
    match before {
      case None =>
        assert InfosFail(infos, 0, retry);
        return Err(InfoFailed), content;
      case Some(info) =>
        if !AsPlanned(info, expected) {
          return Err(RemoteChanged), content;
        }
        if info.size != info.filled {
          return Err(Incomplete), content;
        }
        r, call, content := DownloadToTemporary(disk, temporary, info, server, sha3, call, retry, truth);
        if r.Err? {
          assert !r.error.InfoFailed?;
          if temporary !in old(disk.files) { Removed(disk.files, old(disk.files), temporary); }
          disk.RemoveFile(temporary);
          return;
        }
        var after, next := GetFileInfo(infos, call, retry);
        match after {
          case None =>
            assert InfosFail(infos, call, retry);
            disk.RemoveFile(temporary);
            return Err(InfoFailed), content;
          case Some(again) =>
            if !SameVersion(info, again) {
              disk.RemoveFile(temporary);
              return Err(RemoteChanged), content;
            }
            assert SeenUnchanged(infos, i, next - 1);
            StillVerified(server, Calls(i + 1, call), Calls(i + 1, next - 1), sha3, info, content);
            assert PublishableBetween(server, infos, sha3, expected, content, i, next - 1);
        }
    }
  }

  lemma StillVerified(
    server: ChunkServer, calls: Calls, more: Calls, sha3: Bytes -> Digest, info: FileInfo, content: Bytes)
    requires Verified(server, calls, sha3, info, content) && more.from <= calls.from && calls.to <= more.to
    ensures Verified(server, more, sha3, info, content)
  {
    var bodies :| Assembled(server, calls, info, bodies, content);
    forall i | 0 <= i < |bodies| ensures Served(server, more, i, bodies[i]) {
      assert Served(server, calls, i, bodies[i]);
    }
    assert Assembled(server, more, info, bodies, content);
  }

  /** What may be published for a file that does not change is the file. */
  lemma PublishableIsTruth(
    server: ChunkServer, infos: InfoServer, sha3: Bytes -> Digest, expected: RemoteEntry, content: Bytes, truth: Bytes)
    requires Publishable(server, infos, sha3, expected, content)
    requires Unchanging(infos, expected, sha3, server, truth)
    ensures content == truth
  {
    var i: nat, j: nat :| PublishableBetween(server, infos, sha3, expected, content, i, j);
    HonestIsExact(server, Calls(i + 1, j), sha3, infos(i).value, content, truth);
  }

  /** The second check of the destination and the rename. */
  method Publish(disk: Disk, temporary: string, destination: string, replace: bool, ghost content: Bytes)
    returns (r: Result<(), DownloadError>)
    requires disk.Valid() && temporary != destination
    requires temporary in disk.files && disk.files[temporary] == Regular(content)
    modifies disk
    ensures disk.Valid()
    ensures r.Ok? <==> if replace then destination in old(disk.files) && old(disk.files)[destination].Regular?
                       else destination !in old(disk.files)
    ensures r.Ok? ==> disk.files == old(disk.files)[destination := Regular(content)] - {temporary}
                      && disk.trace == old(disk.trace) + [disk.files]
    ensures r.Err? ==> r.error.DestinationRefused?
    ensures r.Err? ==> disk.files == old(disk.files) - {temporary}
                       && Confined(old(disk.trace), disk.trace, old(disk.files), temporary)
  {
    if !DestinationFree(disk.files, destination, replace) {
      disk.RemoveFile(temporary);
      return Err(DestinationRefused);
    }
    disk.Change(disk.files[destination := disk.files[temporary]] - {temporary});
    r := Ok(());
  }

  /** Up to a final rename, nothing but the temporary file changes. */
  ghost predicate OnlyPublishes(before: seq<Files>, after: seq<Files>, files: Files, temporary: string, published: bool) {
    if published then after != [] && Confined(before, after[..|after| - 1], files, temporary)
    else Confined(before, after, files, temporary)
  }

  /** `download_file` from the first check of the destination on. */
  method FetchAndPublish(
    disk: Disk, destination: string, temporary: string, expected: RemoteEntry, replace: bool, infos: InfoServer,
    server: ChunkServer, sha3: Bytes -> Digest, retry: nat, ghost truth: Bytes)
    returns (r: Result<(), DownloadError>)
    requires disk.Valid() && temporary != destination
    modifies disk
    ensures disk.Valid() && old(disk.trace) <= disk.trace
    ensures TraceSafe(old(disk.files), disk.trace, |old(disk.trace)|, destination, server, infos, sha3, expected)
    ensures r.Ok? ==> exists content :: Publishable(server, infos, sha3, expected, content)
                                        && disk.files == old(disk.files)[destination := Regular(content)]
    ensures r.Ok? ==> DestinationFree(old(disk.files), destination, replace)
    ensures r.Err? ==> TriedEnough(infos, server, retry, r.error)
    ensures r.Err? && temporary !in old(disk.files) ==> disk.files == old(disk.files)
    ensures OnlyPublishes(old(disk.trace), disk.trace, old(disk.files), temporary, r.Ok?)
    ensures Unchanging(infos, expected, sha3, server, truth) && temporary !in old(disk.files)
            && DestinationFree(old(disk.files), destination, replace)
            ==> r.Ok? || r.error.InfoFailed? || r.error.CallFailed?
  {
    if !DestinationFree(disk.files, destination, replace) {
      return Err(DestinationRefused);
    }
    ghost var trace := disk.trace;
    ghost var content;
    r, content := Fetch(disk, temporary, expected, infos, server, sha3, retry, truth);
    ConfinedIsSafe(trace, disk.trace, old(disk.files), temporary, destination, server, infos, sha3, expected);
    if r.Ok? {
      ghost var fetched := disk.trace;
      r := Publish(disk, temporary, destination, replace, content);
      assert disk.trace[..|disk.trace| - 1] == fetched;
      assert disk.files == old(disk.files)[destination := Regular(content)];
    }
  }

  /** A published file, or what was there before: nothing else is ever at the destination, at any
      point at which the client may die. */
  method DownloadFile(
    disk: Disk, destination: string, temporary: string, expected: RemoteEntry, replace: bool, infos: InfoServer,
    server: ChunkServer, sha3: Bytes -> Digest, retry: nat, ghost truth: Bytes)
    returns (r: Result<(), DownloadError>)
    requires disk.Valid() && ValidPath(destination) && temporary != destination
    modifies disk
    ensures disk.Valid() && old(disk.trace) <= disk.trace
    ensures TraceSafe(old(disk.files), disk.trace, |old(disk.trace)|, destination, server, infos, sha3, expected)
    ensures r.Ok? ==> destination in disk.files && disk.files[destination].Regular?
                      && Publishable(server, infos, sha3, expected, disk.files[destination].content)
    ensures r.Ok? && FoldersAbove(old(disk.files), destination) ==>
              disk.files == old(disk.files)[destination := disk.files[destination]]
    ensures r.Ok? && FoldersAbove(old(disk.files), destination) ==>
              if replace then destination in old(disk.files) && old(disk.files)[destination].Regular?
              else destination !in old(disk.files)
    ensures r.Err? ==> TriedEnough(infos, server, retry, r.error)
    ensures r.Err? && FoldersAbove(old(disk.files), destination) && temporary !in old(disk.files) ==>
              disk.files == old(disk.files)
    ensures FoldersAbove(old(disk.files), destination) ==>
              OnlyPublishes(old(disk.trace), disk.trace, old(disk.files), temporary, r.Ok?)
    ensures Unchanging(infos, expected, sha3, server, truth) && temporary !in old(disk.files)
            && FoldersAbove(old(disk.files), destination) && DestinationFree(old(disk.files), destination, replace)
            ==> r.Ok? || r.error.InfoFailed? || r.error.CallFailed?
  {
    ghost var trace, files := disk.trace, disk.files;
    var ok := EnsureParent(disk, destination);
    ghost var between, placed := disk.trace, disk.files;
    FoldersAreSafe(files, between, |trace|, destination, server, infos, sha3, expected);
    if !ok {
      return Err(DestinationRefused);
    }
    r := FetchAndPublish(disk, destination, temporary, expected, replace, infos, server, sha3, retry, truth);
    assert destination in files <==> destination in placed;
    forall i | |trace| <= i < |disk.trace|
      ensures OldOrVerified(files, disk.trace[i], destination, server, infos, sha3, expected)
    {
      if i < |between| {
        assert disk.trace[i] == between[i];
      }
    }
  }

  lemma FoldersAreSafe(
    before: Files, trace: seq<Files>, from: nat, destination: string, server: ChunkServer, infos: InfoServer,
    sha3: Bytes -> Digest, expected: RemoteEntry)
    requires forall i {:trigger trace[i]} :: from <= i < |trace| ==> OnlyFoldersAdded(before, trace[i], destination)
    ensures TraceSafe(before, trace, from, destination, server, infos, sha3, expected)
  {
  }
}

/** File content cut into chunks of the protocol's fixed size (crates/ic-oss-types/src/file.rs:10). */
module FileChunks {
  type Byte = b: int | 0 <= b < 256
  type Bytes = seq<Byte>

  const CHUNK_SIZE: nat := 256 * 1024

  /** `size.div_ceil(CHUNK_SIZE)`. */
  function ChunkCount(size: nat): nat {
    (size + CHUNK_SIZE - 1) / CHUNK_SIZE
  }

  /** The bytes the client reads for one chunk: at most CHUNK_SIZE from the chunk's offset. */
  function ChunkAt(content: Bytes, index: nat): Bytes
    requires index < ChunkCount(|content|)
  {
    var offset := index * CHUNK_SIZE;
    content[offset..offset + if |content| - offset < CHUNK_SIZE then |content| - offset else CHUNK_SIZE]
  }

  function Concat(chunks: seq<Bytes>): Bytes {
    if chunks == [] then [] else Concat(chunks[..|chunks| - 1]) + chunks[|chunks| - 1]
  }

  function ChunksOf(content: Bytes): (chunks: seq<Bytes>)
    ensures |chunks| == ChunkCount(|content|)
  {
    seq(ChunkCount(|content|), i requires 0 <= i < ChunkCount(|content|) => ChunkAt(content, i))
  }

  /** Where the first `k` chunks end. */
  function ChunkEnd(size: nat, k: nat): (end: nat)
    ensures end <= size
  {
    if k * CHUNK_SIZE < size then k * CHUNK_SIZE else size
  }

  lemma ChunkBounds(content: Bytes, k: nat)
    requires k < ChunkCount(|content|)
    ensures ChunkEnd(|content|, k) <= ChunkEnd(|content|, k + 1)
    ensures ChunkAt(content, k) == content[ChunkEnd(|content|, k)..ChunkEnd(|content|, k + 1)]
  {
  }

  lemma {:induction false} ChunksPrefix(content: Bytes, k: nat)
    requires k <= ChunkCount(|content|)
    ensures Concat(ChunksOf(content)[..k]) == content[..ChunkEnd(|content|, k)]
  {
    var chunks := ChunksOf(content);
    if k == 0 {
      assert chunks[..0] == [];
    } else {
      ChunksPrefix(content, k - 1);
      assert chunks[..k][..k - 1] == chunks[..k - 1];
      ChunkBounds(content, k - 1);
      assert chunks[k - 1] == ChunkAt(content, k - 1);
    }
  }

  /** The chunks of a file, put together in order, are the file. */
  lemma ChunksRebuild(content: Bytes)
    ensures Concat(ChunksOf(content)) == content
  {
    var n := ChunkCount(|content|);
    ChunksPrefix(content, n);
    assert ChunksOf(content)[..n] == ChunksOf(content);
    assert content[..|content|] == content;
  }

  /** Every chunk but the last is full, and no chunk is empty. */
  lemma ChunkSizes(content: Bytes, index: nat)
    requires index < ChunkCount(|content|)
    ensures 0 < |ChunkAt(content, index)| <= CHUNK_SIZE
    ensures index + 1 < ChunkCount(|content|) ==> |ChunkAt(content, index)| == CHUNK_SIZE
  {
  }
}

/** The journal's compact list of uploaded chunks (src/sync/journal.rs:24-28, 315-351). */
module ChunkRanges {

  const U32_MAX: int := 0xFFFF_FFFF
  type u32 = x: int | 0 <= x <= U32_MAX

  function SaturatingAdd(x: u32, y: u32): u32 {
    if x + y > U32_MAX then U32_MAX else x + y
  }

  /** Both ends are inclusive. */
  datatype ChunkRange = ChunkRange(start: u32, end: u32)

  predicate Within(r: ChunkRange, c: int) {
    r.start <= c <= r.end
  }

  ghost predicate Covers(ranges: seq<ChunkRange>, c: int) {
    exists i :: 0 <= i < |ranges| && Within(ranges[i], c)
  }

  /** Sorted, non-empty, disjoint and not even adjacent. */
  ghost predicate Canonical(ranges: seq<ChunkRange>) {
    && (forall i :: 0 <= i < |ranges| ==> ranges[i].start <= ranges[i].end)
    && (forall i, j :: 0 <= i < j < |ranges| ==> ranges[i].end + 1 < ranges[j].start)
  }

  /** The list denotes exactly this set. */
  ghost predicate Denotes(ranges: seq<ChunkRange>, chunks: set<u32>) {
    forall c: u32 :: Covers(ranges, c) <==> c in chunks
  }

  // ---- A set has one canonical list -------------------------------------------------------------

  lemma CoversInside(a: seq<ChunkRange>, c: u32)
    requires a != []
    ensures Within(a[0], c) ==> Covers(a, c)
  {
  }

  lemma GapAfterFirst(a: seq<ChunkRange>)
    requires Canonical(a) && a != []
    ensures !Covers(a, a[0].end + 1)
  {
  }

  lemma FirstRange(a: seq<ChunkRange>, b: seq<ChunkRange>)
    requires Canonical(a) && Canonical(b) && a != [] && b != []
    requires forall c: u32 :: Covers(a, c) <==> Covers(b, c)
    ensures a[0].start >= b[0].start
    ensures a[0].start == b[0].start ==> a[0].end <= b[0].end
  {
    CoversInside(a, a[0].start);
    GapAfterFirst(b);
    if b[0].end < U32_MAX {
      CoversInside(a, b[0].end + 1);
    }
  }

  lemma {:induction false} CanonicalUnique(a: seq<ChunkRange>, b: seq<ChunkRange>)
    requires Canonical(a) && Canonical(b)
    requires forall c: u32 :: Covers(a, c) <==> Covers(b, c)
    ensures a == b
  {
    if a == [] {
      if b != [] { CoversInside(b, b[0].start); }
    } else if b == [] {
      CoversInside(a, a[0].start);
    } else {
      FirstRange(a, b);
      FirstRange(b, a);
      assert a[0] == b[0];
      forall c: u32 ensures Covers(a[1..], c) <==> Covers(b[1..], c) {
        CoversTail(a, c);
        CoversTail(b, c);
      }
      CanonicalUnique(a[1..], b[1..]);
      assert a == [a[0]] + a[1..] && b == [b[0]] + b[1..];
    }
  }

  lemma CoversTail(a: seq<ChunkRange>, c: u32)
    requires Canonical(a) && a != []
    ensures Covers(a[1..], c) <==> Covers(a, c) && a[0].end < c
  {
    if Covers(a, c) && a[0].end < c {
      var i :| 0 <= i < |a| && Within(a[i], c);
      assert Within(a[1..][i - 1], c);
    }
    if Covers(a[1..], c) {
      var i :| 0 <= i < |a[1..]| && Within(a[1..][i], c);
      assert Within(a[i + 1], c);
    }
  }

  // ---- Building the list from a set ------------------------------------------------------------

  /** The iteration order of a BTreeSet. */
  method Ascending(chunks: set<u32>) returns (order: seq<u32>)
    ensures forall i, j :: 0 <= i < j < |order| ==> order[i] < order[j]
    ensures forall c :: c in order <==> c in chunks
  {
    order := [];
    var todo := chunks;
    while todo != {}
      invariant todo <= chunks
      invariant forall i, j :: 0 <= i < j < |order| ==> order[i] < order[j]
      invariant forall c :: c in order <==> c in chunks && c !in todo
      invariant forall i, d :: 0 <= i < |order| && d in todo ==> order[i] < d
      decreases todo
    {
      var least := Least(todo);
      order := order + [least];
      todo := todo - {least};
    }
  }

  method Least(chunks: set<u32>) returns (least: u32)
    requires chunks != {}
    ensures least in chunks && forall c :: c in chunks ==> least <= c
  {
    least :| least in chunks;
    var todo := chunks - {least};
    while todo != {}
      invariant todo <= chunks && least in chunks
      invariant forall c :: c in chunks && c !in todo ==> least <= c
      decreases todo
    {
      var c :| c in todo;
      if c < least {
        least := c;
      }
      todo := todo - {c};
    }
  }

  /** `chunk_ranges`. */
  method FromSet(chunks: set<u32>) returns (ranges: seq<ChunkRange>)
    ensures Canonical(ranges) && Denotes(ranges, chunks)
  {
    var order := Ascending(chunks);
    ranges := [];
    for i := 0 to |order|
      invariant Canonical(ranges)
      invariant forall c: u32 :: Covers(ranges, c) <==> c in order[..i]
      invariant i == 0 <==> ranges == []
      invariant i > 0 ==> ranges[|ranges| - 1].end == order[i - 1]
    {
      var chunk := order[i];
      var n := |ranges|;
      if n > 0 && SaturatingAdd(ranges[n - 1].end, 1) == chunk {
        ExtendLast(ranges, chunk);
        ranges := ranges[n - 1 := ranges[n - 1].(end := chunk)];
      } else {
        AppendSingle(ranges, chunk);
        ranges := ranges + [ChunkRange(chunk, chunk)];
      }
      assert order[..i + 1] == order[..i] + [chunk];
    }
    assert order[..|order|] == order;
  }

  lemma ExtendLast(ranges: seq<ChunkRange>, chunk: u32)
    requires Canonical(ranges) && ranges != [] && ranges[|ranges| - 1].end + 1 == chunk
    ensures Canonical(ranges[|ranges| - 1 := ranges[|ranges| - 1].(end := chunk)])
    ensures forall c: u32 :: Covers(ranges[|ranges| - 1 := ranges[|ranges| - 1].(end := chunk)], c)
                             <==> Covers(ranges, c) || c == chunk
  {
    var last := |ranges| - 1;
    var longer := ranges[last := ranges[last].(end := chunk)];
    forall c: u32 ensures Covers(longer, c) <==> Covers(ranges, c) || c == chunk {
      assert Within(longer[last], c) <==> Within(ranges[last], c) || c == chunk;
      if Covers(ranges, c) {
        var i :| 0 <= i < |ranges| && Within(ranges[i], c);
        assert Within(longer[i], c);
      }
      if Covers(longer, c) && c != chunk {
        var i :| 0 <= i < |longer| && Within(longer[i], c);
        assert Within(ranges[i], c);
      }
    }
  }

  lemma AppendSingle(ranges: seq<ChunkRange>, chunk: u32)
    ensures forall c: u32 :: Covers(ranges + [ChunkRange(chunk, chunk)], c) <==> Covers(ranges, c) || c == chunk
  {
    var longer := ranges + [ChunkRange(chunk, chunk)];
    forall c: u32 ensures Covers(longer, c) <==> Covers(ranges, c) || c == chunk {
      assert Within(longer[|ranges|], c) <==> c == chunk;
      if Covers(ranges, c) {
        var i :| 0 <= i < |ranges| && Within(ranges[i], c);
        assert Within(longer[i], c);
      }
    }
  }

  // ---- Inserting one chunk ---------------------------------------------------------------------

  /** `insert_chunk`: merges every range that touches the chunk, for all values up to the end of the
      integer range. */
  method InsertChunk(ranges: seq<ChunkRange>, chunk: u32) returns (out: seq<ChunkRange>)
    requires Canonical(ranges)
    ensures Canonical(out)
    ensures forall c: u32 :: Covers(out, c) <==> Covers(ranges, c) || c == chunk
  {
    out := ranges;
    var merged := ChunkRange(chunk, chunk);
    var index := 0;
    while index < |out|
      invariant 0 <= index <= |out| && Canonical(out) && merged.start <= merged.end
      invariant forall i :: 0 <= i < index ==> out[i].end + 1 < merged.start
      invariant forall c: u32 :: Covers(out, c) || Within(merged, c) <==> Covers(ranges, c) || c == chunk
      decreases |out| - index
    {
      if SaturatingAdd(out[index].end, 1) < merged.start {
        index := index + 1;
        continue;
      }
      if SaturatingAdd(merged.end, 1) < out[index].start {
        break;
      }
      var existing := out[index];
      MergeCovers(out, index, merged);
      out := out[..index] + out[index + 1..];
      merged := Merged(merged, existing);
    }
    InsertCovers(out, index, merged);
    out := out[..index] + [merged] + out[index..];
  }

  function Merged(a: ChunkRange, b: ChunkRange): ChunkRange {
    ChunkRange(if a.start < b.start then a.start else b.start, if a.end > b.end then a.end else b.end)
  }

  lemma CoversWithout(out: seq<ChunkRange>, index: nat, c: u32)
    requires index < |out|
    ensures Covers(out, c) <==> Covers(out[..index] + out[index + 1..], c) || Within(out[index], c)
  {
    var rest := out[..index] + out[index + 1..];
    if Covers(rest, c) {
      var i :| 0 <= i < |rest| && Within(rest[i], c);
      assert Within(out[if i < index then i else i + 1], c);
    }
    if Covers(out, c) && !Within(out[index], c) {
      var i :| 0 <= i < |out| && Within(out[i], c);
      assert Within(rest[if i < index then i else i - 1], c);
    }
  }

  lemma MergeCovers(out: seq<ChunkRange>, index: nat, merged: ChunkRange)
    requires index < |out| && Canonical(out) && merged.start <= merged.end
    requires out[index].end + 1 >= merged.start && merged.end + 1 >= out[index].start
    ensures forall c: u32 :: Covers(out[..index] + out[index + 1..], c) || Within(Merged(merged, out[index]), c)
                             <==> Covers(out, c) || Within(merged, c)
  {
    var rest := out[..index] + out[index + 1..];
    forall c: u32
      ensures Covers(rest, c) || Within(Merged(merged, out[index]), c) <==> Covers(out, c) || Within(merged, c)
    {
      hide Covers;
      assert Within(Merged(merged, out[index]), c) <==> Within(merged, c) || Within(out[index], c);
      CoversWithout(out, index, c);
    }
  }

  lemma InsertCovers(out: seq<ChunkRange>, index: nat, merged: ChunkRange)
    requires index <= |out|
    ensures forall c: u32 :: Covers(out[..index] + [merged] + out[index..], c) <==> Covers(out, c) || Within(merged, c)
  {
    var longer := out[..index] + [merged] + out[index..];
    forall c: u32 ensures Covers(longer, c) <==> Covers(out, c) || Within(merged, c) {
      assert Within(longer[index], c) <==> Within(merged, c);
      if Covers(longer, c) {
        var i :| 0 <= i < |longer| && Within(longer[i], c);
        assert i < index ==> Within(out[i], c);
        assert i > index ==> Within(out[i - 1], c);
      }
      if Covers(out, c) {
        var i :| 0 <= i < |out| && Within(out[i], c);
        assert Within(longer[if i < index then i else i + 1], c);
      }
    }
  }

  // ---- Inserting refines adding to the set -----------------------------------------------------

  /** Inserting into the list of a set gives the list of the larger set, and nothing else would do. */
  lemma InsertRefinesAdd(before: seq<ChunkRange>, chunks: set<u32>, chunk: u32, after: seq<ChunkRange>, rebuilt: seq<ChunkRange>)
    requires Canonical(before) && Denotes(before, chunks)
    requires Canonical(after) && forall c: u32 :: Covers(after, c) <==> Covers(before, c) || c == chunk
    requires Canonical(rebuilt) && Denotes(rebuilt, chunks + {chunk})
    ensures after == rebuilt
  {
    CanonicalUnique(after, rebuilt);
  }

  /** `uploaded_chunks.extend(range.start..=range.end)` for every range of a page. */
  ghost function Expand(ranges: seq<ChunkRange>): set<u32> {
    set c: u32 | 0 <= c <= U32_MAX && Covers(ranges, c)
  }

  function RangeSet(r: ChunkRange): set<u32> {
    set c: u32 | r.start <= c <= r.end && Within(r, c)
  }

  method ExpandRanges(ranges: seq<ChunkRange>, known: set<u32>) returns (chunks: set<u32>)
    ensures chunks == known + Expand(ranges)
  {
    chunks := known;
    for i := 0 to |ranges|
      invariant chunks == known + Expand(ranges[..i])
    {
      ExpandOneMore(ranges, i);
      chunks := chunks + RangeSet(ranges[i]);
    }
    assert ranges[..|ranges|] == ranges;
  }

  lemma ExpandOneMore(ranges: seq<ChunkRange>, i: nat)
    requires i < |ranges|
    ensures Expand(ranges[..i + 1]) == Expand(ranges[..i]) + RangeSet(ranges[i])
  {
    var longer, shorter := ranges[..i + 1], ranges[..i];
    forall c: u32 ensures Covers(longer, c) <==> Covers(shorter, c) || Within(ranges[i], c) {
      assert Within(longer[i], c) <==> Within(ranges[i], c);
      if Covers(shorter, c) {
        var k :| 0 <= k < |shorter| && Within(shorter[k], c);
        assert Within(longer[k], c);
      }
      if Covers(longer, c) && !Within(ranges[i], c) {
        var k :| 0 <= k < |longer| && Within(longer[k], c);
        assert Within(shorter[k], c);
      }
    }
  }

  /** Expansion undoes compaction. */
  lemma ExpandInverse(ranges: seq<ChunkRange>, chunks: set<u32>)
    requires Denotes(ranges, chunks)
    ensures Expand(ranges) == chunks
  {
  }
}

/** Reading the chunk set of an upload session page by page (src/sync/mod.rs:804-834). */
module UploadStatus {
  import opened ChunkRanges
  import opened Manifests

  datatype Page = Page(ranges: seq<ChunkRange>, next: Option<u32>)

  /** The bucket's answer for a cursor; `None` is a failed call. */
  type StatusServer = Option<u32> -> Option<Page>

  function Concatenated(pages: seq<Page>): seq<ChunkRange> {
    if pages == [] then [] else Concatenated(pages[..|pages| - 1]) + pages[|pages| - 1].ranges
  }

  /** Following the cursors leads through these pages, and the last one has no successor; every call
      may fail instead. */
  ghost predicate Chain(server: StatusServer, cursor: Option<u32>, pages: seq<Page>)
    decreases |pages|
  {
    && pages != []
    && (server(cursor).Some? ==>
          && server(cursor).value == pages[0]
          && if |pages| == 1 then pages[0].next == None
             else pages[0].next.Some? && Chain(server, pages[0].next, pages[1..]))
  }

  /** The cursor that asks for the i-th page. */
  function CursorOf(pages: seq<Page>, i: nat): Option<u32>
    requires i <= |pages|
  {
    if i == 0 then None else pages[i - 1].next
  }

  lemma {:induction false} ConcatenatedStep(pages: seq<Page>, i: nat)
    requires i < |pages|
    ensures Concatenated(pages[..i + 1]) == Concatenated(pages[..i]) + pages[i].ranges
  {
    assert pages[..i + 1][..i] == pages[..i];
  }

  lemma ExpandBoth(a: seq<ChunkRange>, b: seq<ChunkRange>)
    ensures Expand(a + b) == Expand(a) + Expand(b)
  {
    forall c: u32 ensures Covers(a + b, c) <==> Covers(a, c) || Covers(b, c) {
      if Covers(a, c) {
        var k :| 0 <= k < |a| && Within(a[k], c);
        assert Within((a + b)[k], c);
      }
      if Covers(b, c) {
        var k :| 0 <= k < |b| && Within(b[k], c);
        assert Within((a + b)[|a| + k], c);
      }
      if Covers(a + b, c) {
        var k :| 0 <= k < |a + b| && Within((a + b)[k], c);
        assert if k < |a| then Within(a[k], c) else Within(b[k - |a|], c);
      }
    }
  }

  /** `get_all_upload_status`: the first page, and the chunks of all pages together. When the pages
      list a session's chunk set in canonical form, exactly that set is read. */
  method GetAllUploadStatus(server: StatusServer, ghost pages: seq<Page>, ghost stored: set<u32>)
    returns (r: Option<(Page, set<u32>)>)
    requires Chain(server, None, pages)
    ensures r.Some? ==> r.value == (pages[0], Expand(Concatenated(pages)))
    ensures r.Some? && Denotes(Concatenated(pages), stored) ==> r.value.1 == stored
    ensures r.None? <==> exists i :: 0 <= i < |pages| && server(CursorOf(pages, i)).None?
  {
    var cursor: Option<u32> := None;
    var first: Option<Page> := None;
    var chunks: set<u32> := {};
    ghost var i := 0;
    assert pages[0..] == pages;
    while true
      invariant i < |pages| && Chain(server, cursor, pages[i..]) && cursor == CursorOf(pages, i)
      invariant forall k :: 0 <= k < i ==> server(CursorOf(pages, k)).Some?
      invariant chunks == Expand(Concatenated(pages[..i]))
      invariant if i == 0 then first == None else first == Some(pages[0])
      decreases |pages| - i
    {
      match server(cursor) {
        case None =>
          assert server(CursorOf(pages, i)).None?;
          return None;
        case Some(page) =>
          ConcatenatedStep(pages, i);
          ExpandBoth(Concatenated(pages[..i]), page.ranges);
          chunks := ExpandRanges(page.ranges, chunks);
          if first.None? {
            first := Some(page);
          }
          i := i + 1;
          match page.next {
            case None =>
              assert pages[..i] == pages;
              if Denotes(Concatenated(pages), stored) { ExpandInverse(Concatenated(pages), stored); }
              return Some((first.value, chunks));
            case Some(next) =>
              assert pages[i - 1..][1..] == pages[i..];
              cursor := Some(next);
          }
      }
    }
  }
}

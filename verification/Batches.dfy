/** Grouping plan actions into batch calls (src/sync/mod.rs:488-537) and the limits a batch call has
    to satisfy (crates/ic-oss-types/src/batch.rs). */
module Batches {
  import opened FileChunks
  import opened FileNames
  import opened Paths
  import opened Manifests
  import opened Planner
  import opened Convergence
  import opened Orders

  function Flatten(batches: seq<seq<PlanAction>>): seq<PlanAction> {
    if batches == [] then [] else Flatten(batches[..|batches| - 1]) + batches[|batches| - 1]
  }

  lemma {:induction false} FlattenConcat(a: seq<seq<PlanAction>>, b: seq<seq<PlanAction>>)
    ensures Flatten(a + b) == Flatten(a) + Flatten(b)
  {
    if b == [] {
      assert a + b == a;
    } else {
      assert (a + b)[..|a + b| - 1] == a + b[..|b| - 1];
      FlattenConcat(a, b[..|b| - 1]);
    }
  }

  // ---- Directories -----------------------------------------------------------------------------

  /** The directories of one depth, in plan order. */
  function AtDepth(actions: seq<PlanAction>, depth: nat): seq<PlanAction> {
    if actions == [] then []
    else
      var last := actions[|actions| - 1];
      AtDepth(actions[..|actions| - 1], depth)
      + if last.CreateDirectory? && PathDepth(last.path) == depth then [last] else []
  }

  function BelowDepth(actions: seq<PlanAction>, depth: nat): seq<PlanAction> {
    if depth == 0 then [] else BelowDepth(actions, depth - 1) + AtDepth(actions, depth - 1)
  }

  /** One more than the greatest depth of a directory. */
  function DepthBound(actions: seq<PlanAction>): nat {
    if actions == [] then 0
    else
      var bound, last := DepthBound(actions[..|actions| - 1]), actions[|actions| - 1];
      if last.CreateDirectory? && PathDepth(last.path) >= bound then PathDepth(last.path) + 1 else bound
  }

  lemma {:induction false} DepthBounded(actions: seq<PlanAction>)
    ensures forall a :: a in actions && a.CreateDirectory? ==> PathDepth(a.path) < DepthBound(actions)
  {
    if actions != [] {
      DepthBounded(actions[..|actions| - 1]);
      assert actions == actions[..|actions| - 1] + [actions[|actions| - 1]];
    }
  }

  /** A batch of directories of one depth, within the item limit. */
  predicate DirectoryBatch(batch: seq<PlanAction>) {
    && 0 < |batch| <= MAX_BATCH_ITEMS
    && forall a :: a in batch ==> a.CreateDirectory? && PathDepth(a.path) == PathDepth(batch[0].path)
  }

  lemma {:induction false} AtDepthElements(actions: seq<PlanAction>, depth: nat)
    ensures forall a :: a in AtDepth(actions, depth)
                        <==> a in actions && a.CreateDirectory? && PathDepth(a.path) == depth
  {
    if actions != [] {
      AtDepthElements(actions[..|actions| - 1], depth);
      assert actions == actions[..|actions| - 1] + [actions[|actions| - 1]];
    }
  }

  /** `chunks` cuts the first `end` elements into parts of `size`, of which only the last may be shorter,
      and only at the end. */
  ghost predicate Cut(chunks: seq<seq<PlanAction>>, s: seq<PlanAction>, size: nat, end: nat) {
    && end <= |s| && Flatten(chunks) == s[..end]
    && (forall c :: c in chunks ==> 0 < |c| <= size && forall a :: a in c ==> a in s)
    && (forall i :: 0 <= i < |chunks| - 1 ==> |chunks[i]| == size)
    && (chunks != [] && |chunks[|chunks| - 1]| < size ==> end == |s|)
  }

  lemma CutFurther(chunks: seq<seq<PlanAction>>, s: seq<PlanAction>, size: nat, start: nat, end: nat)
    requires Cut(chunks, s, size, start) && start < end <= |s| && end - start <= size
    requires end - start < size ==> end == |s|
    ensures Cut(chunks + [s[start..end]], s, size, end)
  {
    var more := chunks + [s[start..end]];
    FlattenAppend(chunks, s[start..end]);
    hide Flatten;
    assert s[..end] == s[..start] + s[start..end];
    assert forall c :: c in more <==> c in chunks || c == s[start..end];
    assert more[|more| - 1] == s[start..end];
  }

  /** `slice::chunks`. */
  method Chunks(s: seq<PlanAction>, size: nat) returns (chunks: seq<seq<PlanAction>>)
    requires size > 0
    ensures Flatten(chunks) == s
    ensures forall c :: c in chunks ==> 0 < |c| <= size && forall a :: a in c ==> a in s
    ensures forall i :: 0 <= i < |chunks| - 1 ==> |chunks[i]| == size
  {
    chunks := [];
    var start := 0;
    while start < |s|
      invariant start <= |s| && Cut(chunks, s, size, start)
    {
      var end := if start + size <= |s| then start + size else |s|;
      CutFurther(chunks, s, size, start, end);
      chunks := chunks + [s[start..end]];
      start := end;
    }
    assert s[..start] == s;
  }

  /** Collects the directories by depth. */
  method GroupByDepth(actions: seq<PlanAction>) returns (byDepth: map<nat, seq<PlanAction>>, deepest: nat)
    ensures deepest == DepthBound(actions)
    ensures forall d :: d in byDepth ==> byDepth[d] == AtDepth(actions, d)
    ensures forall d :: d !in byDepth ==> AtDepth(actions, d) == []
  {
    byDepth, deepest := map[], 0;
    for i := 0 to |actions|
      invariant deepest == DepthBound(actions[..i])
      invariant forall d :: d in byDepth ==> byDepth[d] == AtDepth(actions[..i], d)
      invariant forall d :: d !in byDepth ==> AtDepth(actions[..i], d) == []
    {
      assert actions[..i + 1][..i] == actions[..i];
      if actions[i].CreateDirectory? {
        var depth := PathDepth(actions[i].path);
        byDepth := byDepth[depth := (if depth in byDepth then byDepth[depth] else []) + [actions[i]]];
        deepest := if depth < deepest then deepest else depth + 1;
      }
    }
    assert actions[..|actions|] == actions;
  }

  method DepthBatches(group: seq<PlanAction>, ghost actions: seq<PlanAction>, ghost depth: nat)
    returns (chunks: seq<seq<PlanAction>>)
    requires group == AtDepth(actions, depth)
    ensures Flatten(chunks) == AtDepth(actions, depth)
    ensures forall c :: c in chunks ==> DirectoryBatch(c) && BatchDepth(c) == depth
    ensures forall i :: 0 <= i < |chunks| - 1 ==> |chunks[i]| == MAX_BATCH_ITEMS
  {
    chunks := Chunks(group, MAX_BATCH_ITEMS);
    ChunkIsDirectoryBatch(actions, depth, chunks);
  }

  function BatchDepth(batch: seq<PlanAction>): nat {
    if batch == [] then 0 else PathDepth(batch[0].path)
  }

  /** A batch is only followed by one of the same depth if it is full. */
  ghost predicate FullBatches(batches: seq<seq<PlanAction>>) {
    forall i, j :: 0 <= i < |batches| && j == i + 1 < |batches| && BatchDepth(batches[i]) == BatchDepth(batches[j]) ==>
      |batches[i]| == MAX_BATCH_ITEMS
  }

  lemma FullConcat(a: seq<seq<PlanAction>>, b: seq<seq<PlanAction>>, depth: nat)
    requires FullBatches(a) && forall c :: c in a ==> BatchDepth(c) < depth
    requires forall c :: c in b ==> BatchDepth(c) == depth
    requires forall i :: 0 <= i < |b| - 1 ==> |b[i]| == MAX_BATCH_ITEMS
    ensures FullBatches(a + b)
  {
    var all := a + b;
    forall i, j | 0 <= i < |all| && j == i + 1 < |all|
      ensures BatchDepth(all[i]) == BatchDepth(all[j]) ==> |all[i]| == MAX_BATCH_ITEMS
    {
      if j < |a| {
        assert all[i] == a[i] && all[j] == a[j];
      } else {
        assert all[j] == b[j - |a|] && b[j - |a|] in b;
        if i < |a| {
          assert a[i] in a;
        }
      }
    }
  }

  /** Shallower directories come in earlier batches; on a sorted plan batching keeps the order. */
  method DirectoryBatches(actions: seq<PlanAction>) returns (batches: seq<seq<PlanAction>>)
    ensures (forall b :: b in batches ==> DirectoryBatch(b)) && FullBatches(batches)
    ensures Flatten(batches) == BelowDepth(actions, DepthBound(actions))
    ensures SortedActions(actions) ==> Flatten(batches) == Select(actions, Directories)
  {
    var byDepth, deepest := GroupByDepth(actions);
    batches := [];
    for depth := 0 to deepest
      invariant forall b :: b in batches ==> DirectoryBatch(b) && BatchDepth(b) < depth
      invariant FullBatches(batches) && Flatten(batches) == BelowDepth(actions, depth)
    {
      var chunks := DepthBatches(if depth in byDepth then byDepth[depth] else [], actions, depth);
      FlattenConcat(batches, chunks);
      FullConcat(batches, chunks, depth);
      batches := batches + chunks;
    }
    if SortedActions(actions) {
      DepthBounded(actions);
      SortedByDepth(actions, deepest);
    }
  }

  lemma ChunkIsDirectoryBatch(actions: seq<PlanAction>, depth: nat, chunks: seq<seq<PlanAction>>)
    requires forall c :: c in chunks ==> 0 < |c| <= MAX_BATCH_ITEMS && forall a :: a in c ==> a in AtDepth(actions, depth)
    ensures forall c :: c in chunks ==> DirectoryBatch(c) && BatchDepth(c) == depth
  {
    AtDepthElements(actions, depth);
    forall c | c in chunks ensures DirectoryBatch(c) && BatchDepth(c) == depth {
      assert c[0] in c;
    }
  }

  /** In a sorted plan directories already appear by depth. */
  lemma {:induction false} SortedByDepth(actions: seq<PlanAction>, depth: nat)
    requires SortedActions(actions)
    requires forall a :: a in actions && a.CreateDirectory? ==> PathDepth(a.path) < depth
    ensures BelowDepth(actions, depth) == Select(actions, Directories)
  {
    if actions == [] {
      NothingBelowDepth(depth);
    } else {
      var init, last := actions[..|actions| - 1], actions[|actions| - 1];
      SortedByDepth(init, depth);
      assert actions == init + [last];
      hide ActionLess, BelowDepth;
      if last.CreateDirectory? {
        LastIsDeepest(init, last);
        BelowDepthAppend(init, last, depth);
      } else {
        BelowDepthSkip(init, last, depth);
      }
    }
  }

  lemma LastIsDeepest(init: seq<PlanAction>, last: PlanAction)
    requires SortedActions(init + [last]) && last.CreateDirectory?
    ensures forall a :: a in init && a.CreateDirectory? ==> PathDepth(a.path) <= PathDepth(last.path)
  {
    var actions := init + [last];
    forall a | a in init && a.CreateDirectory? ensures PathDepth(a.path) <= PathDepth(last.path) {
      var i :| 0 <= i < |init| && init[i] == a;
      assert !ActionLess(actions[|init|], actions[i]);
    }
  }

  lemma {:induction false} NothingBelowDepth(depth: nat)
    ensures BelowDepth([], depth) == []
  {
    if depth > 0 {
      NothingBelowDepth(depth - 1);
    }
  }

  lemma AtDepthLast(init: seq<PlanAction>, last: PlanAction, depth: nat)
    ensures AtDepth(init + [last], depth)
            == AtDepth(init, depth) + if last.CreateDirectory? && PathDepth(last.path) == depth then [last] else []
  {
    assert (init + [last])[..|init|] == init;
  }

  lemma {:induction false} BelowDepthSkip(init: seq<PlanAction>, last: PlanAction, depth: nat)
    requires !last.CreateDirectory? || depth <= PathDepth(last.path)
    ensures BelowDepth(init + [last], depth) == BelowDepth(init, depth)
  {
    if depth > 0 {
      BelowDepthSkip(init, last, depth - 1);
      AtDepthLast(init, last, depth - 1);
    }
  }

  lemma {:induction false} BelowDepthAppend(init: seq<PlanAction>, last: PlanAction, depth: nat)
    requires last.CreateDirectory? && PathDepth(last.path) < depth
    requires forall a :: a in init && a.CreateDirectory? ==> PathDepth(a.path) <= PathDepth(last.path)
    ensures BelowDepth(init + [last], depth) == BelowDepth(init, depth) + [last]
  {
    hide AtDepth, PathDepth;
    AtDepthLast(init, last, depth - 1);
    if PathDepth(last.path) == depth - 1 {
      BelowDepthSkip(init, last, depth - 1);
    } else {
      BelowDepthAppend(init, last, depth - 1);
      NoneAtDepth(init, depth - 1);
    }
  }

  lemma {:induction false} NoneAtDepth(actions: seq<PlanAction>, depth: nat)
    requires forall a :: a in actions && a.CreateDirectory? ==> PathDepth(a.path) != depth
    ensures AtDepth(actions, depth) == []
  {
    if actions != [] {
      NoneAtDepth(actions[..|actions| - 1], depth);
    }
  }

  /** No batch holds a directory together with its parent. */
  lemma BatchHoldsNoParent(batch: seq<PlanAction>, a: PlanAction, b: PlanAction)
    requires DirectoryBatch(batch) && a in batch && b in batch && ValidPath(b.path)
    ensures a.path != ParentPath(b.path)
  {
    ParentDepth(b.path);
  }

  // ---- Small files -----------------------------------------------------------------------------

  function BatchBytes(batch: seq<PlanAction>): nat {
    if batch == [] then 0 else BatchBytes(batch[..|batch| - 1]) + TransferSize(batch[|batch| - 1])
  }

  /** What one batch call may carry. */
  predicate FitsBatch(batch: seq<PlanAction>) {
    |batch| <= MAX_BATCH_ITEMS && BatchBytes(batch) <= MAX_BATCH_INLINE_BYTES
  }

  /** `batches` splits `items` into non-empty batches that fit. */
  ghost predicate Splits(batches: seq<seq<PlanAction>>, items: seq<PlanAction>) {
    && Flatten(batches) == items
    && forall b :: b in batches ==> b != [] && FitsBatch(b)
  }

  /** Each batch but the last would overflow with the first file of the next one. */
  ghost predicate Maximal(batches: seq<seq<PlanAction>>) {
    var n := |batches|;
    n < 2 || (Maximal(batches[..n - 1]) && batches[n - 1] != []
              && !FitsBatch(batches[n - 2] + [batches[n - 1][0]]))
  }

  lemma AppendToBatch(batch: seq<PlanAction>, a: PlanAction)
    ensures BatchBytes(batch + [a]) == BatchBytes(batch) + TransferSize(a)
  {
    assert (batch + [a])[..|batch|] == batch;
  }

  lemma FlattenAppend(batches: seq<seq<PlanAction>>, batch: seq<PlanAction>)
    ensures Flatten(batches + [batch]) == Flatten(batches) + batch
  {
    assert (batches + [batch])[..|batches|] == batches;
  }

  /** The batches closed so far and the batch being filled. */
  ghost predicate Pending(closed: seq<seq<PlanAction>>, current: seq<PlanAction>, items: seq<PlanAction>) {
    && Flatten(closed) + current == items
    && (forall b :: b in closed ==> b != [] && FitsBatch(b))
    && FitsBatch(current) && (closed != [] ==> current != [])
    && Maximal(closed + [current])
  }

  /** `batches.push(take(current))` before the next file. */
  lemma Flush(closed: seq<seq<PlanAction>>, current: seq<PlanAction>, a: PlanAction, items: seq<PlanAction>)
    requires Pending(closed, current, items) && IsSmallUpload(a) && current != []
    requires |current| == MAX_BATCH_ITEMS || BatchBytes(current) + a.size > MAX_BATCH_INLINE_BYTES
    ensures Pending(closed + [current], [a], items + [a])
  {
    AppendToBatch(current, a);
    AppendToBatch([], a);
    assert [] + [a] == [a];
    FlattenAppend(closed, current);
    var all := closed + [current] + [[a]];
    assert all[..|all| - 1] == closed + [current];
  }

  lemma SameConcat(a: seq<PlanAction>, b: seq<PlanAction>, c: seq<PlanAction>)
    ensures a + (b + c) == a + b + c
  {
  }

  lemma MaximalExtended(closed: seq<seq<PlanAction>>, current: seq<PlanAction>, a: PlanAction)
    requires Maximal(closed + [current]) && (closed != [] ==> current != [])
    ensures Maximal(closed + [current + [a]])
  {
    hide FitsBatch;
    var before, after := closed + [current], closed + [current + [a]];
    assert before[..|closed|] == closed && after[..|closed|] == closed;
    if closed != [] {
      assert (current + [a])[0] == current[0];
    }
  }

  lemma Extend(closed: seq<seq<PlanAction>>, current: seq<PlanAction>, a: PlanAction, items: seq<PlanAction>)
    requires Pending(closed, current, items) && IsSmallUpload(a)
    requires |current| < MAX_BATCH_ITEMS && BatchBytes(current) + a.size <= MAX_BATCH_INLINE_BYTES
    ensures Pending(closed, current + [a], items + [a])
  {
    hide Maximal, Flatten, BatchBytes;
    AppendToBatch(current, a);
    assert FitsBatch(current + [a]);
    hide FitsBatch;
    MaximalExtended(closed, current, a);
    SameConcat(Flatten(closed), current, [a]);
  }

  /** `small_file_action_batches`. The byte counter never comes near the end of its integer range,
      so its saturating addition is exact. */
  method SmallFileBatches(actions: seq<PlanAction>) returns (batches: seq<seq<PlanAction>>)
    ensures Splits(batches, Select(actions, SmallFiles)) && Maximal(batches)
    ensures forall a :: a in Flatten(batches) <==> a in actions && a.UploadFile? && a.size <= CHUNK_SIZE
  {
    SelectElements(actions, SmallFiles);
    batches := [];
    var current: seq<PlanAction> := [];
    var currentBytes := 0;
    for i := 0 to |actions|
      invariant currentBytes == BatchBytes(current)
      invariant Pending(batches, current, Select(actions[..i], SmallFiles))
    {
      ghost var items := Select(actions[..i], SmallFiles);
      assert actions[..i + 1][..i] == actions[..i];
      var action := actions[i];
      if IsSmallUpload(action) {
        if current != []
           && (|current| == MAX_BATCH_ITEMS || currentBytes + action.size > MAX_BATCH_INLINE_BYTES)
        {
          Flush(batches, current, action, items);
          batches, current, currentBytes := batches + [current], [], 0;
          assert [] + [action] == [action];
        } else {
          Extend(batches, current, action, items);
        }
        AppendToBatch(current, action);
        current, currentBytes := current + [action], currentBytes + action.size;
      }
    }
    assert actions[..|actions|] == actions;
    FlattenAppend(batches, current);
    if current != [] {
      batches := batches + [current];
    }
  }

  // ---- No split uses fewer batches -------------------------------------------------------------

  lemma {:induction false} BytesOfPart(s: seq<PlanAction>, from: nat, to: nat)
    requires from <= to <= |s|
    ensures BatchBytes(s[from..to]) <= BatchBytes(s)
  {
    if to < |s| {
      BytesOfPart(s[..|s| - 1], from, to);
      assert s[..|s| - 1][from..to] == s[from..to];
    } else if from < to {
      BytesOfPart(s[..|s| - 1], from, to - 1);
      assert s[from..to][..to - from - 1] == s[from..to - 1];
      assert s[..|s| - 1][from..to - 1] == s[from..to - 1];
    }
  }

  lemma PartFits(s: seq<PlanAction>, from: nat, to: nat)
    requires from <= to <= |s| && FitsBatch(s)
    ensures FitsBatch(s[from..to])
  {
    BytesOfPart(s, from, to);
  }

  function Covered(batches: seq<seq<PlanAction>>, k: nat): nat
    requires k <= |batches|
  {
    |Flatten(batches[..k])|
  }

  lemma {:induction false} BatchPosition(batches: seq<seq<PlanAction>>, k: nat)
    requires k < |batches|
    ensures Covered(batches, k) + |batches[k]| == Covered(batches, k + 1) <= |Flatten(batches)|
    ensures Flatten(batches)[Covered(batches, k)..Covered(batches, k + 1)] == batches[k]
  {
    assert batches[..k + 1][..k] == batches[..k];
    assert batches == batches[..k + 1] + batches[k + 1..];
    FlattenConcat(batches[..k + 1], batches[k + 1..]);
    var head := Flatten(batches[..k]);
    assert Flatten(batches[..k + 1]) == head + batches[k];
    assert Flatten(batches) == head + batches[k] + Flatten(batches[k + 1..]);
  }

  lemma {:induction false} MaximalAt(batches: seq<seq<PlanAction>>, k: nat)
    requires Maximal(batches) && k + 1 < |batches|
    ensures batches[k + 1] != [] && !FitsBatch(batches[k] + [batches[k + 1][0]])
  {
    if k + 2 < |batches| {
      MaximalAt(batches[..|batches| - 1], k);
    }
  }

  lemma PartOfPart(s: seq<PlanAction>, a: nat, b: nat, c: nat, d: nat)
    requires a <= c <= d <= b <= |s|
    ensures s[a..b][c - a..d - a] == s[c..d]
  {
    var part := s[a..b];
    forall i | 0 <= i < d - c ensures part[c - a..d - a][i] == s[c..d][i] {
      assert part[c - a + i] == s[c + i];
    }
  }

  lemma StaysWithin(items: seq<PlanAction>, from: nat, to: nat, start: nat, end: nat)
    requires start <= from <= to < |items| && start <= end <= |items|
    requires FitsBatch(items[start..end]) && !FitsBatch(items[from..to + 1])
    ensures end <= to
  {
    if to < end {
      PartOfPart(items, start, end, from, to + 1);
      PartFits(items[start..end], from - start, to + 1 - start);
    }
  }

  lemma OneMore(items: seq<PlanAction>, from: nat, to: nat, first: seq<PlanAction>, second: seq<PlanAction>)
    requires from <= to && to + |second| <= |items| && second != []
    requires items[from..to] == first && items[to..to + |second|] == second
    ensures items[from..to + 1] == first + [second[0]]
  {
    assert items[to] == items[to..to + |second|][0];
    assert items[from..to + 1] == items[from..to] + [items[to]];
  }

  /** One more action would not have fitted into a greedy batch. */
  lemma GreedyBatchIsFull(greedy: seq<seq<PlanAction>>, items: seq<PlanAction>, k: nat)
    requires Splits(greedy, items) && Maximal(greedy) && k + 1 < |greedy|
    ensures Covered(greedy, k) <= Covered(greedy, k + 1) < |items|
    ensures !FitsBatch(items[Covered(greedy, k)..Covered(greedy, k + 1) + 1])
  {
    hide FitsBatch, Maximal, Flatten, Covered;
    BatchPosition(greedy, k);
    BatchPosition(greedy, k + 1);
    MaximalAt(greedy, k);
    OneMore(items, Covered(greedy, k), Covered(greedy, k + 1), greedy[k], greedy[k + 1]);
  }

  lemma BatchFitsInPlace(batches: seq<seq<PlanAction>>, items: seq<PlanAction>, k: nat)
    requires Splits(batches, items) && k < |batches|
    ensures Covered(batches, k) <= Covered(batches, k + 1) <= |items|
    ensures FitsBatch(items[Covered(batches, k)..Covered(batches, k + 1)])
  {
    BatchPosition(batches, k);
    assert batches[k] in batches;
  }

  /** After the same number of batches no split is ahead of the greedy one. */
  lemma {:induction false} GreedyStaysAhead(greedy: seq<seq<PlanAction>>, other: seq<seq<PlanAction>>, items: seq<PlanAction>, k: nat)
    requires Splits(greedy, items) && Maximal(greedy) && Splits(other, items)
    requires k < |greedy| && k <= |other|
    ensures Covered(other, k) <= Covered(greedy, k)
  {
    if k == 0 {
      assert other[..0] == [] && greedy[..0] == [];
    } else {
      GreedyStaysAhead(greedy, other, items, k - 1);
      GreedyBatchIsFull(greedy, items, k - 1);
      BatchFitsInPlace(other, items, k - 1);
      hide FitsBatch, Maximal, Flatten, Covered;
      StaysWithin(items, Covered(greedy, k - 1), Covered(greedy, k), Covered(other, k - 1), Covered(other, k));
    }
  }

  /** The client's batches are as few as the limits allow. */
  lemma GreedyIsOptimal(greedy: seq<seq<PlanAction>>, other: seq<seq<PlanAction>>, items: seq<PlanAction>)
    requires Splits(greedy, items) && Maximal(greedy) && Splits(other, items)
    ensures |greedy| <= |other|
  {
    var k := |other|;
    assert other[..k] == other;
    assert forall i :: 0 <= i < |greedy| ==> greedy[i] in greedy;
    if k < |greedy| {
      GreedyStaysAhead(greedy, other, items, k);
      BatchPosition(greedy, k);
    }
  }

  // ---- Validation of a batch call --------------------------------------------------------------

  /** The parts of `CreateFileInput` that validation looks at. */
  datatype FileInput = FileInput(
    name: string, contentType: string, size: Option<nat>, content: Option<Bytes>, status: Option<int>, hash: Option<Digest>)

  datatype BatchError = BadRequestId | BadCount | BadName | BadFile | SizeMismatch | FileTooLarge | HashRequired | BatchTooLarge

  function ContentLength(file: FileInput): nat {
    if file.content.Some? then |file.content.value| else 0
  }

  /** What the bucket demands of one file of a batch call. */
  predicate AcceptableFile(file: FileInput) {
    && ValidFileName(file.name) && file.contentType != ""
    && (file.content.Some? ==> file.content.value != [])
    && (file.status.None? || file.status.value == 0 || (file.status.value == 1 && file.hash.Some?))
    && (file.size.Some? ==> file.size.value == ContentLength(file))
    && ContentLength(file) <= MAX_BATCH_FILE_BYTES
  }

  function TotalLength(files: seq<FileInput>): nat {
    if files == [] then 0 else TotalLength(files[..|files| - 1]) + ContentLength(files[|files| - 1])
  }

  predicate ValidRequest(requestId: Bytes, count: nat) {
    1 <= |requestId| <= 64 && 1 <= count <= MAX_BATCH_ITEMS
  }

  predicate AcceptableFiles(requestId: Bytes, files: seq<FileInput>) {
    && ValidRequest(requestId, |files|) && TotalLength(files) <= MAX_BATCH_INLINE_BYTES
    && forall f :: f in files ==> AcceptableFile(f)
  }

  predicate AcceptableFolders(requestId: Bytes, names: seq<string>) {
    ValidRequest(requestId, |names|) && forall name :: name in names ==> ValidFileName(name)
  }

  /** `CreateFileInput::validate`. */
  method ValidateInput(file: FileInput) returns (r: Result<(), BatchError>)
    ensures r.Ok? <==>
              && ValidFileName(file.name) && file.contentType != "" && file.content != Some([])
              && file.status in {None, Some(0), Some(1)}
    ensures r.Err? ==> r.error == if ValidFileName(file.name) then BadFile else BadName
  {
    if !ValidFileName(file.name) { return Err(BadName); }
    if file.contentType == "" { return Err(BadFile); }
    if file.content.Some? && file.content.value == [] { return Err(BadFile); }
    if file.status.Some? && !(0 <= file.status.value <= 1) { return Err(BadFile); }
    return Ok(());
  }

  /** The body of the loop over the files of a call. */
  method ValidateFile(file: FileInput) returns (r: Result<(), BatchError>)
    ensures r.Ok? <==> AcceptableFile(file)
    ensures r.Err? ==> r.error in {BadName, BadFile, SizeMismatch, FileTooLarge, HashRequired}
  {
    hide ValidFileName;
    r := ValidateInput(file);
    if r.Err? { return; }
    var contentLength := ContentLength(file);
    var size := if file.size.Some? then file.size.value else contentLength;
    if size != contentLength { return Err(SizeMismatch); }
    if contentLength > MAX_BATCH_FILE_BYTES { return Err(FileTooLarge); }
    if file.status == Some(1) && file.hash.None? { return Err(HashRequired); }
  }

  /** `BatchCreateSmallFilesInput::validate`. */
  method ValidateSmallFiles(requestId: Bytes, files: seq<FileInput>) returns (r: Result<(), BatchError>)
    ensures r.Ok? <==> AcceptableFiles(requestId, files)
    ensures r == Err(BadRequestId) <==> |requestId| == 0 || |requestId| > 64
    ensures r == Err(BadCount) <==> 1 <= |requestId| <= 64 && (files == [] || |files| > MAX_BATCH_ITEMS)
    ensures r == Err(BatchTooLarge) <==>
              && ValidRequest(requestId, |files|) && TotalLength(files) > MAX_BATCH_INLINE_BYTES
              && forall f :: f in files ==> AcceptableFile(f)
  {
    hide AcceptableFile;
    if |requestId| == 0 || |requestId| > 64 { return Err(BadRequestId); }
    if |files| == 0 || |files| > MAX_BATCH_ITEMS { return Err(BadCount); }
    var total := 0;
    for i := 0 to |files|
      invariant forall f :: f in files[..i] ==> AcceptableFile(f)
      invariant total == TotalLength(files[..i])
    {
      var file := files[i];
      assert files[..i + 1][..i] == files[..i];
      assert file in files;
      var checked := ValidateFile(file);
      if checked.Err? { return checked; }
      total := total + ContentLength(file);
    }
    assert files[..|files|] == files;
    if total > MAX_BATCH_INLINE_BYTES { return Err(BatchTooLarge); }
    return Ok(());
  }

  /** `BatchEnsureFoldersInput::validate`. */
  method ValidateFolders(requestId: Bytes, names: seq<string>) returns (r: Result<(), BatchError>)
    ensures r.Ok? <==> AcceptableFolders(requestId, names)
  {
    if |requestId| == 0 || |requestId| > 64 { return Err(BadRequestId); }
    if |names| == 0 || |names| > MAX_BATCH_ITEMS { return Err(BadCount); }
    if exists name :: name in names && !ValidFileName(name) { return Err(BadName); }
    return Ok(());
  }

  /** What the client reads from the disk for one file. */
  datatype Source = Source(content: Bytes, hash: Digest, contentType: string)

  /** The input `batch_upload_small_files` builds for one file whose content has the planned size. */
  function InputFor(a: PlanAction, source: Source): FileInput {
    FileInput(EntryName(a.path), source.contentType, Some(|source.content|),
              if source.content == [] then None else Some(source.content), None, Some(source.hash))
  }

  function BatchInputs(batch: seq<PlanAction>, sources: string -> Source): (files: seq<FileInput>)
    ensures |files| == |batch|
  {
    if batch == [] then []
    else BatchInputs(batch[..|batch| - 1], sources) + [InputFor(batch[|batch| - 1], sources(batch[|batch| - 1].path))]
  }

  /** The file has a name that the scan accepts, and has not changed since. */
  predicate Readable(a: PlanAction, sources: string -> Source) {
    && ValidFileName(EntryName(a.path)) && sources(a.path).contentType != ""
    && |sources(a.path).content| == TransferSize(a)
  }

  lemma InputAcceptable(a: PlanAction, sources: string -> Source)
    requires IsSmallUpload(a) && Readable(a, sources)
    ensures AcceptableFile(InputFor(a, sources(a.path))) && ContentLength(InputFor(a, sources(a.path))) == TransferSize(a)
  {
    hide ValidFileName;
  }

  lemma {:induction false} InputsLength(batch: seq<PlanAction>, sources: string -> Source)
    requires forall a :: a in batch ==> IsSmallUpload(a) && Readable(a, sources)
    ensures TotalLength(BatchInputs(batch, sources)) == BatchBytes(batch)
  {
    hide Readable, InputFor;
    if batch != [] {
      var n := |batch| - 1;
      InputsLength(batch[..n], sources);
      InputAcceptable(batch[n], sources);
    }
  }

  lemma {:induction false} InputsAcceptable(batch: seq<PlanAction>, sources: string -> Source)
    requires forall a :: a in batch ==> IsSmallUpload(a) && Readable(a, sources)
    ensures forall f :: f in BatchInputs(batch, sources) ==> AcceptableFile(f)
  {
    hide AcceptableFile, Readable, InputFor;
    if batch != [] {
      var n := |batch| - 1;
      InputsAcceptable(batch[..n], sources);
      InputAcceptable(batch[n], sources);
    }
  }

  lemma {:induction false} BatchMembers(batches: seq<seq<PlanAction>>, b: seq<PlanAction>)
    requires b in batches
    ensures forall a :: a in b ==> a in Flatten(batches)
  {
    var last := |batches| - 1;
    if b != batches[last] {
      assert batches == batches[..last] + [batches[last]];
      BatchMembers(batches[..last], b);
    }
  }

  lemma {:induction false} InputAt(batch: seq<PlanAction>, sources: string -> Source, i: nat)
    requires i < |batch|
    ensures BatchInputs(batch, sources)[i] == InputFor(batch[i], sources(batch[i].path))
  {
    hide InputFor;
    var n := |batch| - 1;
    if i < n {
      InputAt(batch[..n], sources, i);
    }
  }

  /** Each input carries the name, the content and the hash of its file. */
  lemma InputsAreFiles(batch: seq<PlanAction>, sources: string -> Source, i: nat)
    requires i < |batch|
    ensures var file, source := BatchInputs(batch, sources)[i], sources(batch[i].path);
            && file.name == EntryName(batch[i].path) && file.contentType == source.contentType
            && (if file.content.Some? then file.content.value else []) == source.content
            && file.size == Some(|source.content|) && file.hash == Some(source.hash) && file.status == None
  {
    hide BatchInputs;
    InputAt(batch, sources, i);
  }

  /** The bucket accepts every batch of small files that the client forms, under any proper request id. */
  lemma FileBatchesAccepted(actions: seq<PlanAction>, batches: seq<seq<PlanAction>>, b: seq<PlanAction>,
                            requestId: Bytes, sources: string -> Source)
    requires Splits(batches, Select(actions, SmallFiles)) && b in batches
    requires forall a :: a in actions && a.UploadFile? ==> Readable(a, sources)
    ensures AcceptableFiles(requestId, BatchInputs(b, sources)) <==> 1 <= |requestId| <= 64
  {
    BatchMembers(batches, b);
    SelectElements(actions, SmallFiles);
    InputsAcceptable(b, sources);
    InputsLength(b, sources);
  }

  function NamesOf(batch: seq<PlanAction>): seq<string> {
    seq(|batch|, i requires 0 <= i < |batch| => EntryName(batch[i].path))
  }

  /** It accepts every batch of directories as well. */
  lemma FolderBatchesAccepted(batch: seq<PlanAction>, requestId: Bytes)
    requires DirectoryBatch(batch)
    requires forall a :: a in batch ==> ValidFileName(EntryName(a.path))
    ensures AcceptableFolders(requestId, NamesOf(batch)) <==> 1 <= |requestId| <= 64
  {
    forall name | name in NamesOf(batch) ensures ValidFileName(name) {
      var i :| 0 <= i < |batch| && NamesOf(batch)[i] == name;
      assert batch[i] in batch;
    }
  }
}

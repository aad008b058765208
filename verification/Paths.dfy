/** Relative slash-separated paths (src/sync/types.rs) and their byte order. */
module Paths {

  /** Position of the last '/', or -1. */
  function LastSlash(path: string): (i: int)
    ensures -1 <= i < |path|
    ensures i >= 0 ==> path[i] == '/'
  {
    if path == "" then -1
    else if path[|path| - 1] == '/' then |path| - 1
    else LastSlash(path[..|path| - 1])
  }

  /** The part before the last '/', empty for a top-level name. */
  function ParentPath(path: string): string {
    var i := LastSlash(path);
    if i < 0 then "" else path[..i]
  }

  /** The part after the last '/'. */
  function EntryName(path: string): string {
    path[LastSlash(path) + 1..]
  }

  function JoinPath(parent: string, name: string): string {
    if parent == "" then name else parent + "/" + name
  }

  function SlashCount(path: string): nat {
    if path == "" then 0
    else SlashCount(path[..|path| - 1]) + if path[|path| - 1] == '/' then 1 else 0
  }

  function PathDepth(path: string): nat {
    if path == "" then 0 else SlashCount(path) + 1
  }

  /** `path.strip_prefix(ancestor)` leaves a suffix that starts with '/'. */
  predicate Under(ancestor: string, path: string) {
    |ancestor| < |path| && path[..|ancestor|] == ancestor && path[|ancestor|] == '/'
  }

  /** What a valid file name guarantees about separators. */
  predicate ValidName(name: string) {
    name != "" && '/' !in name
  }

  /** Non-empty names joined by single slashes. */
  ghost predicate ValidPath(path: string) {
    && path != ""
    && path[0] != '/' && path[|path| - 1] != '/'
    && (forall i, k :: 0 <= i < |path| && 0 <= k < |path| && k == i + 1 && path[i] == '/' ==> path[k] != '/')
  }

  lemma {:induction false} LastSlashUnique(path: string, i: int)
    requires -1 <= i < |path|
    requires i >= 0 ==> path[i] == '/'
    requires forall k :: i < k < |path| ==> path[k] != '/'
    ensures LastSlash(path) == i
  {
    var j := LastSlash(path);
    if j < i {
      NoLaterSlash(path, i);
    }
  }

  lemma {:induction false} NoLaterSlash(path: string, k: nat)
    requires LastSlash(path) < k < |path|
    ensures path[k] != '/'
  {
    if k < |path| - 1 {
      NoLaterSlash(path[..|path| - 1], k);
    }
  }

  /** Splitting a joined path gives back the two parts. */
  lemma {:induction false} SplitJoin(parent: string, name: string)
    requires ValidName(name)
    ensures ParentPath(JoinPath(parent, name)) == parent
    ensures EntryName(JoinPath(parent, name)) == name
  {
    var path := JoinPath(parent, name);
    var i := if parent == "" then -1 else |parent|;
    forall k | i < k < |path| ensures path[k] != '/' {
      assert path[k] == name[k - i - 1];
    }
    LastSlashUnique(path, i);
  }

  lemma JoinValid(parent: string, name: string)
    requires ValidName(name)
    requires parent == "" || ValidPath(parent)
    ensures ValidPath(JoinPath(parent, name))
  {
    if parent != "" {
      var path := JoinPath(parent, name);
      assert forall k :: 0 <= k < |parent| ==> path[k] == parent[k];
      assert forall k :: |parent| < k < |path| ==> path[k] == name[k - |parent| - 1];
    }
  }

  lemma {:induction false} ParentValid(path: string)
    requires ValidPath(path)
    ensures ParentPath(path) == "" || ValidPath(ParentPath(path))
    ensures |ParentPath(path)| < |path|
  {
  }

  lemma {:induction false} EntryNameWithoutSlash(path: string)
    ensures '/' !in EntryName(path)
  {
    forall k | LastSlash(path) < k < |path| ensures path[k] != '/' {
      NoLaterSlash(path, k);
    }
  }

  /** Joining the two parts of a valid path gives it back. */
  lemma {:induction false} JoinSplit(path: string)
    requires ValidPath(path)
    ensures JoinPath(ParentPath(path), EntryName(path)) == path
  {
    var i := LastSlash(path);
    if i >= 0 {
      assert path[..i] != "";
      assert path == path[..i] + "/" + path[i + 1..];
    }
  }

  lemma {:induction false} EntryNameValid(path: string)
    requires ValidPath(path)
    ensures ValidName(EntryName(path))
  {
    EntryNameWithoutSlash(path);
    assert LastSlash(path) < |path| - 1;
  }

  lemma {:induction false} SlashCountConcat(a: string, b: string)
    ensures SlashCount(a + b) == SlashCount(a) + SlashCount(b)
  {
    if b == "" {
      assert a + b == a;
    } else {
      assert (a + b)[..|a + b| - 1] == a + b[..|b| - 1];
      SlashCountConcat(a, b[..|b| - 1]);
    }
  }

  lemma {:induction false} NoSlashes(s: string)
    requires '/' !in s
    ensures SlashCount(s) == 0
  {
    if s != "" {
      NoSlashes(s[..|s| - 1]);
    }
  }

  lemma {:induction false} JoinedDepth(parent: string, name: string)
    requires '/' !in name
    ensures SlashCount(parent + "/" + name) == SlashCount(parent) + 1
  {
    SlashCountConcat(parent + "/", name);
    NoSlashes(name);
    assert (parent + "/")[..|parent|] == parent;
  }

  /** A child is exactly one level deeper than its parent. */
  lemma {:induction false} ParentDepth(path: string)
    requires ValidPath(path)
    ensures PathDepth(path) == PathDepth(ParentPath(path)) + 1
  {
    var i := LastSlash(path);
    EntryNameWithoutSlash(path);
    if i < 0 {
      NoSlashes(path);
    } else {
      JoinedDepth(path[..i], path[i + 1..]);
      assert path == path[..i] + "/" + path[i + 1..];
    }
  }

  /** The textual prefix test is the transitive closure of the parent relation. */
  lemma {:induction false} UnderParent(ancestor: string, path: string)
    requires ValidPath(path)
    ensures Under(ancestor, path) <==>
            ParentPath(path) != "" && (ancestor == ParentPath(path) || Under(ancestor, ParentPath(path)))
  {
    var i := LastSlash(path);
    if Under(ancestor, path) && i < |ancestor| {
      NoLaterSlash(path, |ancestor|);
    }
    if i < 0 {
      assert !Under(ancestor, path);
    } else {
      var parent := path[..i];
      assert parent != "";
      if Under(ancestor, path) {
        assert |ancestor| <= i;
        if |ancestor| < i {
          assert parent[..|ancestor|] == path[..|ancestor|];
        }
      }
      if Under(ancestor, parent) {
        assert parent[..|ancestor|] == path[..|ancestor|];
      }
    }
  }

  /** Lexicographic order of the underlying text. */
  predicate PathLess(a: string, b: string) {
    b != "" && (a == "" || a[0] < b[0] || (a[0] == b[0] && PathLess(a[1..], b[1..])))
  }

  /** A proper beginning comes before the whole; otherwise the first difference decides. */
  lemma {:induction false} PathLessIff(a: string, b: string)
    ensures PathLess(a, b) <==>
              exists i :: 0 <= i <= |a| && i < |b| && a[..i] == b[..i] && (i == |a| || a[i] < b[i])
  {
    if b != "" && a != "" && a[0] == b[0] {
      PathLessIff(a[1..], b[1..]);
      assert a == [a[0]] + a[1..] && b == [b[0]] + b[1..];
      if i :| 0 <= i <= |a[1..]| && i < |b[1..]| && a[1..][..i] == b[1..][..i] && (i == |a[1..]| || a[1..][i] < b[1..][i]) {
        assert a[..i + 1] == [a[0]] + a[1..][..i] && b[..i + 1] == [b[0]] + b[1..][..i];
      }
      if i :| 0 <= i <= |a| && i < |b| && a[..i] == b[..i] && (i == |a| || a[i] < b[i]) {
        assert i > 0;
        assert a[1..][..i - 1] == a[..i][1..] && b[1..][..i - 1] == b[..i][1..];
      }
    } else if b != "" {
      assert a[..0] == b[..0];
      if i :| 0 <= i <= |a| && i < |b| && a[..i] == b[..i] && (i == |a| || a[i] < b[i]) {
        assert i > 0 ==> a[0] == a[..i][0] && b[0] == b[..i][0];
      }
    }
  }

  lemma PathLessIrreflexive(a: string)
    ensures !PathLess(a, a)
  {
  }

  lemma {:induction false} PathLessTransitive(a: string, b: string, c: string)
    requires PathLess(a, b) && PathLess(b, c)
    ensures PathLess(a, c)
  {
    if a != "" && a[0] == b[0] && b[0] == c[0] {
      PathLessTransitive(a[1..], b[1..], c[1..]);
    }
  }

  lemma {:induction false} PathLessTotal(a: string, b: string)
    ensures PathLess(a, b) || a == b || PathLess(b, a)
  {
    if a != "" && b != "" && a[0] == b[0] {
      PathLessTotal(a[1..], b[1..]);
      if a[1..] == b[1..] {
        assert a == [a[0]] + a[1..] && b == [b[0]] + b[1..];
      }
    }
  }

  // ---- Iteration in path order -----------------------------------------------------------------

  ghost predicate KeyOrder(keys: seq<string>) {
    forall i, j :: 0 <= i < j < |keys| ==> PathLess(keys[i], keys[j])
  }

  function InsertKey(key: string, keys: seq<string>): seq<string> {
    if keys == [] || PathLess(key, keys[0]) then [key] + keys
    else [keys[0]] + InsertKey(key, keys[1..])
  }

  lemma {:induction false} InsertKeyOrdered(key: string, keys: seq<string>)
    requires KeyOrder(keys) && key !in keys
    ensures KeyOrder(InsertKey(key, keys))
    ensures forall k :: k in InsertKey(key, keys) <==> k == key || k in keys
  {
    if keys != [] {
      PathLessTotal(key, keys[0]);
      if PathLess(key, keys[0]) {
        forall j | 0 <= j < |keys| ensures PathLess(key, keys[j]) {
          if j > 0 { PathLessTransitive(key, keys[0], keys[j]); }
        }
      } else {
        InsertKeyOrdered(key, keys[1..]);
        var rest := InsertKey(key, keys[1..]);
        assert forall k :: k in rest <==> k == key || k in keys[1..];
        forall j | 0 <= j < |rest| ensures PathLess(keys[0], rest[j]) {
          assert rest[j] in rest;
        }
      }
    }
  }

  /** The iteration order of a BTreeMap with these keys. */
  method SortedKeys(keys: set<string>) returns (order: seq<string>)
    ensures KeyOrder(order)
    ensures forall k :: k in order <==> k in keys
  {
    order := [];
    var todo := keys;
    while todo != {}
      invariant KeyOrder(order) && todo <= keys
      invariant forall k :: k in order <==> k in keys && k !in todo
      decreases todo
    {
      var key :| key in todo;
      InsertKeyOrdered(key, order);
      order := InsertKey(key, order);
      todo := todo - {key};
    }
  }
}

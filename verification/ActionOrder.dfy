/** The order in which sync plans list their actions (src/sync/planner.rs:190-208 and
    src/sync/pull.rs:301-319): by rank, then signed depth, then path. */
module ActionOrder {
  import opened Paths

  datatype Key = Key(rank: nat, depth: int, path: string)

  /** Directories are created from the top down and everything is deleted from the bottom up. */
  function KeyOf(rank: nat, path: string): Key {
    Key(rank, if rank < 4 then PathDepth(path) as int else -(PathDepth(path) as int), path)
  }

  predicate KeyLess(a: Key, b: Key) {
    || a.rank < b.rank
    || (a.rank == b.rank && (a.depth < b.depth || (a.depth == b.depth && PathLess(a.path, b.path))))
  }

  lemma KeyLessTransitive(a: Key, b: Key, c: Key)
    requires KeyLess(a, b) && KeyLess(b, c)
    ensures KeyLess(a, c)
  {
    if PathLess(a.path, b.path) && PathLess(b.path, c.path) {
      PathLessTransitive(a.path, b.path, c.path);
    }
  }

  lemma KeyLessTotal(a: Key, b: Key)
    ensures KeyLess(a, b) || KeyLess(b, a) || a == b
    ensures !(KeyLess(a, b) && KeyLess(b, a))
  {
    PathLessTotal(a.path, b.path);
    if KeyLess(a, b) && KeyLess(b, a) {
      PathLessTransitive(a.path, b.path, a.path);
      PathLessIrreflexive(a.path);
    }
  }

  ghost predicate SortedBy<T>(key: T -> Key, s: seq<T>) {
    forall i, j {:trigger KeyLess(key(s[j]), key(s[i]))} :: 0 <= i < j < |s| ==> !KeyLess(key(s[j]), key(s[i]))
  }

  function InsertBy<T>(key: T -> Key, a: T, s: seq<T>): (r: seq<T>)
    ensures multiset(r) == multiset{a} + multiset(s)
  {
    if s == [] || !KeyLess(key(s[0]), key(a)) then [a] + s
    else
      assert s == [s[0]] + s[1..];
      [s[0]] + InsertBy(key, a, s[1..])
  }

  /** The standard library's stable sort. */
  function SortBy<T>(key: T -> Key, s: seq<T>): (r: seq<T>)
    ensures multiset(r) == multiset(s)
  {
    if s == [] then []
    else
      assert s == [s[0]] + s[1..];
      InsertBy(key, s[0], SortBy(key, s[1..]))
  }

  lemma {:induction false} InsertKeepsSorted<T>(key: T -> Key, a: T, s: seq<T>)
    requires SortedBy(key, s)
    ensures SortedBy(key, InsertBy(key, a, s))
  {
    if s != [] {
      if KeyLess(key(s[0]), key(a)) {
        InsertKeepsSorted(key, a, s[1..]);
        var r := InsertBy(key, a, s[1..]);
        forall j | 0 <= j < |r| ensures !KeyLess(key(r[j]), key(s[0])) {
          assert r[j] in multiset{a} + multiset(s[1..]);
          KeyLessTotal(key(s[0]), key(a));
        }
      } else {
        forall j | 0 <= j < |s| ensures !KeyLess(key(s[j]), key(a)) {
          if KeyLess(key(s[j]), key(a)) {
            KeyLessTotal(key(s[0]), key(s[j]));
            if KeyLess(key(s[0]), key(s[j])) { KeyLessTransitive(key(s[0]), key(s[j]), key(a)); }
          }
        }
      }
    }
  }

  lemma {:induction false} SortBySorts<T>(key: T -> Key, s: seq<T>)
    ensures SortedBy(key, SortBy(key, s))
  {
    if s != [] {
      SortBySorts(key, s[1..]);
      InsertKeepsSorted(key, s[0], SortBy(key, s[1..]));
    }
  }
}

/** What `manifest_hash` feeds to the hash function (src/sync/mod.rs:882-902). */
module ManifestHash {
  import opened FileChunks
  import opened Manifests
  import opened Paths
  import opened Utf8

  const U64: nat := 0x1_0000_0000_0000_0000

  /** `n.to_be_bytes()` for an integer of `width` bytes. */
  function BigEndian(n: nat, width: nat): (bytes: Bytes)
    ensures |bytes| == width
  {
    if width == 0 then [] else BigEndian(n / 256, width - 1) + [n % 256]
  }

  function Limit(width: nat): nat {
    if width == 0 then 1 else 256 * Limit(width - 1)
  }

  lemma {:induction false} BigEndianInjective(m: nat, n: nat, width: nat)
    requires m < Limit(width) && n < Limit(width) && BigEndian(m, width) == BigEndian(n, width)
    ensures m == n
  {
    if width > 0 {
      var a, b := BigEndian(m, width), BigEndian(n, width);
      assert a[width - 1] == m % 256 && b[width - 1] == n % 256;
      assert a[..width - 1] == BigEndian(m / 256, width - 1) && b[..width - 1] == BigEndian(n / 256, width - 1);
      BigEndianInjective(m / 256, n / 256, width - 1);
    }
  }

  lemma LimitOf8()
    ensures Limit(8) == U64
  {
    assert Limit(4) == 0x1_0000_0000;
  }

  lemma U64Injective(m: nat, n: nat, a: Bytes, b: Bytes)
    requires m < U64 && n < U64 && BigEndian(m, 8) + a == BigEndian(n, 8) + b
    ensures m == n && a == b
  {
    LimitOf8();
    assert BigEndian(m, 8) == (BigEndian(m, 8) + a)[..8] && BigEndian(n, 8) == (BigEndian(n, 8) + b)[..8];
    assert a == (BigEndian(m, 8) + a)[8..] && b == (BigEndian(n, 8) + b)[8..];
    BigEndianInjective(m, n, 8);
  }

  function HashBytes(hash: Option<Digest>): Bytes {
    match hash case Some(h) => [1] + h case None => [0]
  }

  function KindByte(kind: EntryKind): Byte {
    if kind == File then 0 else 1
  }

  /** What follows the path. */
  function DetailBytes(e: LocalEntry): Bytes {
    [KindByte(e.kind)] + (BigEndian(e.size, 8) + HashBytes(e.hash))
  }

  function EntryBytes(path: string, e: LocalEntry): Bytes {
    BigEndian(|Encode(path)|, 8) + (Encode(path) + DetailBytes(e))
  }

  /** Lengths and sizes fit the 64-bit fields. */
  ghost predicate Fits(path: string, e: LocalEntry) {
    |Encode(path)| < U64 && e.size < U64
  }

  lemma HashInjective(h: Option<Digest>, k: Option<Digest>, a: Bytes, b: Bytes)
    requires HashBytes(h) + a == HashBytes(k) + b
    ensures h == k && a == b
  {
    var x, y := HashBytes(h), HashBytes(k);
    assert x[0] == (x + a)[0] == (y + b)[0] == y[0];
    assert x == (x + a)[..|x|] && y == (y + b)[..|y|];
    assert a == (x + a)[|x|..] && b == (y + b)[|y|..];
    assert h.Some? ==> x[1..] == h.value;
    assert k.Some? ==> y[1..] == k.value;
  }

  lemma SameLengthParts(x: Bytes, y: Bytes, a: Bytes, b: Bytes)
    requires |x| == |y| && x + a == y + b
    ensures x == y && a == b
  {
    assert x == (x + a)[..|x|] && y == (y + b)[..|y|];
    assert a == (x + a)[|x|..] && b == (y + b)[|y|..];
  }

  lemma DetailsInjective(e: LocalEntry, f: LocalEntry, a: Bytes, b: Bytes)
    requires e.size < U64 && f.size < U64 && DetailBytes(e) + a == DetailBytes(f) + b
    ensures e == f && a == b
  {
    hide BigEndian, HashBytes;
    var sizeE, sizeF := BigEndian(e.size, 8) + HashBytes(e.hash), BigEndian(f.size, 8) + HashBytes(f.hash);
    assert DetailBytes(e) + a == [KindByte(e.kind)] + (sizeE + a);
    assert DetailBytes(f) + b == [KindByte(f.kind)] + (sizeF + b);
    SameLengthParts([KindByte(e.kind)], [KindByte(f.kind)], sizeE + a, sizeF + b);
    assert [KindByte(e.kind)][0] == [KindByte(f.kind)][0];
    assert sizeE + a == BigEndian(e.size, 8) + (HashBytes(e.hash) + a);
    assert sizeF + b == BigEndian(f.size, 8) + (HashBytes(f.hash) + b);
    U64Injective(e.size, f.size, HashBytes(e.hash) + a, HashBytes(f.hash) + b);
    HashInjective(e.hash, f.hash, a, b);
  }

  /** The number that big-endian bytes stand for. */
  function Value(bytes: Bytes): nat {
    if bytes == [] then 0 else 256 * Value(bytes[..|bytes| - 1]) + bytes[|bytes| - 1]
  }

  lemma {:induction false} ValueOfBigEndian(n: nat, width: nat)
    requires n < Limit(width)
    ensures Value(BigEndian(n, width)) == n
  {
    if width > 0 {
      ValueOfBigEndian(n / 256, width - 1);
      assert BigEndian(n, width)[..width - 1] == BigEndian(n / 256, width - 1);
    }
  }

  /** What the bytes of an entry are, field by field: length of the path, path, kind, size, and the hash
      behind a byte that says whether there is one. */
  lemma EntryLayout(path: string, e: LocalEntry, rest: Bytes)
    requires Fits(path, e)
    ensures var bytes, n := EntryBytes(path, e) + rest, |Encode(path)|;
            && |bytes| == 18 + n + (if e.hash.Some? then 32 else 0) + |rest|
            && Value(bytes[..8]) == n && bytes[8..8 + n] == Encode(path)
            && bytes[8 + n] == (if e.kind == Directory then 1 else 0)
            && Value(bytes[9 + n..17 + n]) == e.size
            && bytes[17 + n] == (if e.hash.Some? then 1 else 0)
            && (e.hash.Some? ==> bytes[18 + n..50 + n] == e.hash.value)
  {
    LimitOf8();
    ValueOfBigEndian(|Encode(path)|, 8);
    ValueOfBigEndian(e.size, 8);
    FiveFields(BigEndian(|Encode(path)|, 8), Encode(path), [KindByte(e.kind)], BigEndian(e.size, 8), HashBytes(e.hash), rest);
    hide BigEndian, Value, Encode, EncodeChar;
    var bytes, n := EntryBytes(path, e) + rest, |Encode(path)|;
    if e.hash.Some? {
      assert bytes[18 + n..50 + n] == bytes[17 + n..50 + n][1..] == e.hash.value;
    }
  }

  /** Where the fields are, if the first and the fourth have eight bytes and the third has one. */
  lemma FiveFields(a: Bytes, b: Bytes, c: Bytes, d: Bytes, e: Bytes, rest: Bytes)
    requires |a| == 8 == |d| && |c| == 1 && e != []
    ensures var all, n := a + (b + (c + (d + e))) + rest, |b|;
            && |all| == 17 + n + |e| + |rest|
            && all[..8] == a && all[8..8 + n] == b && all[8 + n] == c[0] && all[9 + n..17 + n] == d
            && all[17 + n] == e[0] && all[17 + n..17 + n + |e|] == e
  {
    var all, n := a + (b + (c + (d + e))) + rest, |b|;
    assert all == a + b + c + d + e + rest;
    assert all[17 + n..17 + n + |e|] == e;
    assert all[17 + n] == e[0];
  }

  /** The fields delimit themselves: nothing of one entry can be taken for part of the next. */
  lemma EntryInjective(p: string, e: LocalEntry, q: string, f: LocalEntry, a: Bytes, b: Bytes)
    requires Fits(p, e) && Fits(q, f) && EntryBytes(p, e) + a == EntryBytes(q, f) + b
    ensures p == q && e == f && a == b
  {
    hide DetailBytes, BigEndian, Encode;
    var restP, restQ := Encode(p) + (DetailBytes(e) + a), Encode(q) + (DetailBytes(f) + b);
    assert EntryBytes(p, e) + a == BigEndian(|Encode(p)|, 8) + restP;
    assert EntryBytes(q, f) + b == BigEndian(|Encode(q)|, 8) + restQ;
    U64Injective(|Encode(p)|, |Encode(q)|, restP, restQ);
    SameLengthParts(Encode(p), Encode(q), DetailBytes(e) + a, DetailBytes(f) + b);
    EncodeInjective(p, q);
    DetailsInjective(e, f, a, b);
  }

  function StreamOf(keys: seq<string>, entries: map<string, LocalEntry>): Bytes
    requires forall k :: k in keys ==> k in entries
  {
    if keys == [] then [] else EntryBytes(keys[0], entries[keys[0]]) + StreamOf(keys[1..], entries)
  }

  ghost predicate AllFit(entries: map<string, LocalEntry>) {
    forall p :: p in entries ==> Fits(p, entries[p])
  }

  lemma {:induction false} StreamInjective(
    j: seq<string>, k: seq<string>, m: map<string, LocalEntry>, n: map<string, LocalEntry>)
    requires (forall p :: p in j ==> p in m) && (forall p :: p in k ==> p in n) && AllFit(m) && AllFit(n)
    requires StreamOf(j, m) == StreamOf(k, n)
    ensures j == k && forall p :: p in j ==> m[p] == n[p]
  {
    if j != [] && k != [] {
      hide EntryBytes, Fits;
      EntryInjective(j[0], m[j[0]], k[0], n[k[0]], StreamOf(j[1..], m), StreamOf(k[1..], n));
      StreamInjective(j[1..], k[1..], m, n);
      assert j == [j[0]] + j[1..] && k == [k[0]] + k[1..];
    }
  }

  lemma {:induction false} StreamAppend(keys: seq<string>, key: string, entries: map<string, LocalEntry>)
    requires key in entries && forall k :: k in keys ==> k in entries
    ensures StreamOf(keys + [key], entries) == StreamOf(keys, entries) + EntryBytes(key, entries[key])
  {
    if keys == [] {
      assert [key][1..] == [];
    } else {
      assert (keys + [key])[1..] == keys[1..] + [key];
      StreamAppend(keys[1..], key, entries);
    }
  }

  ghost predicate InMapOrder(keys: seq<string>, entries: map<string, LocalEntry>) {
    KeyOrder(keys) && forall k :: k in keys <==> k in entries
  }

  /** The bytes that are hashed for these entries: theirs, in map order. */
  ghost predicate IsHashInput(bytes: Bytes, entries: map<string, LocalEntry>) {
    exists keys :: InMapOrder(keys, entries) && bytes == StreamOf(keys, entries)
  }

  method HashInput(m: LocalManifest) returns (bytes: Bytes)
    ensures IsHashInput(bytes, m.entries)
  {
    var order := SortedKeys(m.entries.Keys);
    bytes := [];
    for i := 0 to |order|
      invariant bytes == StreamOf(order[..i], m.entries)
    {
      assert order[i] in order;
      assert order[..i + 1] == order[..i] + [order[i]];
      StreamAppend(order[..i], order[i], m.entries);
      bytes := bytes + EntryBytes(order[i], m.entries[order[i]]);
    }
    assert order[..|order|] == order;
    assert InMapOrder(order, m.entries);
  }

  lemma EmptyIff(s: seq<string>)
    ensures s == [] <==> forall p :: p !in s
  {
    if s != [] {
      assert s[0] in s;
    }
  }

  lemma {:induction false} KeyOrderUnique(j: seq<string>, k: seq<string>)
    requires KeyOrder(j) && KeyOrder(k) && forall p :: p in j <==> p in k
    ensures j == k
  {
    if j != [] && k != [] {
      assert j[0] in k && k[0] in j;
      var x :| 0 <= x < |k| && k[x] == j[0];
      var y :| 0 <= y < |j| && j[y] == k[0];
      SameFirst(j, k, x, y);
      forall p ensures p in j[1..] <==> p in k[1..] {
        RestLacksFirst(j);
        RestLacksFirst(k);
        assert p in j <==> p == j[0] || p in j[1..];
        assert p in k <==> p == k[0] || p in k[1..];
      }
      KeyOrderUnique(j[1..], k[1..]);
      assert j == [j[0]] + j[1..] && k == [k[0]] + k[1..];
    } else {
      EmptyIff(j);
      EmptyIff(k);
    }
  }

  lemma SameFirst(j: seq<string>, k: seq<string>, x: nat, y: nat)
    requires KeyOrder(j) && KeyOrder(k) && x < |k| && y < |j| && k[x] == j[0] && j[y] == k[0]
    ensures j[0] == k[0]
  {
    if x > 0 && y > 0 {
      PathLessTransitive(j[0], j[y], j[0]);
      PathLessIrreflexive(j[0]);
    }
  }

  lemma RestLacksFirst(k: seq<string>)
    requires k != [] && KeyOrder(k)
    ensures k[0] !in k[1..]
  {
    forall i | 0 <= i < |k[1..]| ensures k[1..][i] != k[0] {
      PathLessIrreflexive(k[0]);
    }
  }

  /** Two local manifests feed the same bytes to the hash function exactly when they have the same
      entries: same paths, kinds, sizes and hashes. */
  lemma SameInputIffSameEntries(a: LocalManifest, b: LocalManifest, x: Bytes, y: Bytes)
    requires AllFit(a.entries) && AllFit(b.entries) && IsHashInput(x, a.entries) && IsHashInput(y, b.entries)
    ensures x == y <==> a.entries == b.entries
  {
    hide StreamOf, KeyOrder, Fits;
    var j :| InMapOrder(j, a.entries) && x == StreamOf(j, a.entries);
    var k :| InMapOrder(k, b.entries) && y == StreamOf(k, b.entries);
    if x == y {
      StreamInjective(j, k, a.entries, b.entries);
    }
    if a.entries == b.entries {
      KeyOrderUnique(j, k);
    }
  }
}

/** Byte-lexicographic key order of a bucket, and the due-index keys that rely on it. */
module BucketOrder {
  import opened Common

  type Key = seq<byte>

  predicate Before(a: Key, b: Key) {
    if b == [] then false
    else if a == [] then true
    else a[0] < b[0] || (a[0] == b[0] && Before(a[1..], b[1..]))
  }

  lemma {:induction false} BeforeIsStrict(a: Key, b: Key)
    ensures !(Before(a, b) && Before(b, a))
    ensures !Before(a, a)
  {
    if a != [] {
      BeforeIsStrict(a[1..], if b != [] then b[1..] else []);
    }
  }

  lemma {:induction false} BeforeIsTotal(a: Key, b: Key)
    ensures a == b || Before(a, b) || Before(b, a)
  {
    if a != [] && b != [] {
      BeforeIsTotal(a[1..], b[1..]);
      if a[0] == b[0] && a[1..] == b[1..] {
        assert a == [a[0]] + a[1..] && b == [b[0]] + b[1..];
      }
    }
  }

  lemma {:induction false} BeforeIsTransitive(a: Key, b: Key, c: Key)
    requires Before(a, b) && Before(b, c)
    ensures Before(a, c)
  {
    if a != [] && a[0] == b[0] == c[0] {
      BeforeIsTransitive(a[1..], b[1..], c[1..]);
    }
  }

  predicate IsLeast(k: Key, keys: set<Key>) {
    k in keys && forall j | j in keys && j != k :: Before(k, j)
  }

  lemma {:induction false} LeastExists(keys: set<Key>)
    requires keys != {}
    ensures exists k :: IsLeast(k, keys)
    decreases |keys|
  {
    var x :| x in keys;
    if keys == {x} {
      assert IsLeast(x, keys);
    } else {
      LeastExists(keys - {x});
      var k :| IsLeast(k, keys - {x});
      BeforeIsTotal(x, k);
      if Before(x, k) {
        forall j | j in keys && j != x ensures Before(x, j) {
          if j != k {
            BeforeIsTransitive(x, k, j);
          }
        }
        assert IsLeast(x, keys);
      } else {
        assert IsLeast(k, keys);
      }
    }
  }

  /** Where a bucket cursor's First lands. */
  function First(keys: set<Key>): (k: Key)
    requires keys != {}
    ensures k in keys && IsLeast(k, keys)
  {
    LeastExists(keys);
    assert forall i, j | IsLeast(i, keys) && IsLeast(j, keys) :: i == j by {
      forall i, j | IsLeast(i, keys) && IsLeast(j, keys) ensures i == j {
        BeforeIsStrict(i, j);
      }
    }
    var k :| k in keys && IsLeast(k, keys);
    k
  }

  /** The order in which a bucket cursor or ForEach visits the keys. */
  function Ascending(keys: set<Key>): (r: seq<Key>)
    ensures forall k :: k in r <==> k in keys
    decreases |keys|
  {
    if keys == {} then [] else
      var k := First(keys);
      [k] + Ascending(keys - {k})
  }

  lemma {:induction false} AscendingIsSorted(keys: set<Key>)
    ensures forall i, j | 0 <= i < j < |Ascending(keys)| :: Before(Ascending(keys)[i], Ascending(keys)[j])
    decreases |keys|
  {
    if keys != {} {
      AscendingIsSorted(keys - {First(keys)});
    }
  }

  // Big-endian integers

  function Pow256(k: nat): (p: nat)
    ensures p > 0
  {
    if k == 0 then 1 else 256 * Pow256(k - 1)
  }

  /** The low k bytes of n, most significant first. */
  function BigEndian(n: nat, k: nat): (r: seq<byte>)
    ensures |r| == k
    decreases k, n
  {
    if k == 0 then [] else BigEndian(n / 256, k - 1) + [n % 256]
  }

  function FromBigEndian(s: seq<byte>): nat {
    if s == [] then 0 else 256 * FromBigEndian(s[..|s| - 1]) + s[|s| - 1]
  }

  lemma {:induction false} BigEndianRoundTrip(n: nat, k: nat)
    requires n < Pow256(k)
    ensures FromBigEndian(BigEndian(n, k)) == n
  {
    if k > 0 {
      BigEndianRoundTrip(n / 256, k - 1);
      assert BigEndian(n, k)[..k - 1] == BigEndian(n / 256, k - 1);
    }
  }

  /** Appending fixed-width big-endian integers compares them before the suffixes. */
  lemma {:induction false} BigEndianKeepsOrder(a: nat, b: nat, k: nat, s: Key, t: Key)
    requires a < Pow256(k) && b < Pow256(k)
    ensures Before(BigEndian(a, k) + s, BigEndian(b, k) + t) <==> a < b || (a == b && Before(s, t))
    decreases k
  {
    if k == 0 {
      assert BigEndian(a, 0) + s == s && BigEndian(b, 0) + t == t;
    } else {
      var s' := [a % 256] + s;
      var t' := [b % 256] + t;
      assert BigEndian(a, k) + s == BigEndian(a / 256, k - 1) + s';
      assert BigEndian(b, k) + t == BigEndian(b / 256, k - 1) + t';
      BigEndianKeepsOrder(a / 256, b / 256, k - 1, s', t');
      assert s'[1..] == s && t'[1..] == t;
    }
  }

  // Due-index keys

  const SEQUENCE_LIMIT: nat := 0x1_0000_0000_0000_0000

  function Pack(k: nat, a: nat, m: nat, id: Key): Key {
    BigEndian(a, k) + BigEndian(m, k) + id
  }

  /** Bytes in a 64-bit integer. */
  const WIDTH: nat := 8

  function DueKey(at: Timestamp, sequence: nat, id: Key): Key {
    Pack(WIDTH, at, sequence % SEQUENCE_LIMIT, id)
  }

  /** The signed 64-bit reading of a key's first eight bytes; shorter keys read as the zero time. */
  function DueTimestamp(key: Key): int {
    if |key| < 8 then 0 else
      var n := FromBigEndian(key[..8]);
      if n < TIME_LIMIT then n else n - SEQUENCE_LIMIT
  }

  lemma Pow256Of8() returns (k: nat)
    ensures k == WIDTH && Pow256(k) == SEQUENCE_LIMIT
  {
    k := 8;
    assert Pow256(1) == 256;
    assert Pow256(2) == 0x1_0000;
    assert Pow256(4) == 0x1_0000_0000 by { assert Pow256(3) == 0x100_0000; }
    assert Pow256(6) == 0x1_0000_0000_0000 by { assert Pow256(5) == 0x100_0000_0000; }
    assert Pow256(7) == 0x100_0000_0000_0000;
  }

  lemma DueTimestampOfKey(at: Timestamp, sequence: nat, id: Key)
    ensures DueTimestamp(DueKey(at, sequence, id)) == at
  {
    var k := Pow256Of8();
    BigEndianRoundTrip(at, k);
    assert DueKey(at, sequence, id)[..8] == BigEndian(at, k);
  }

  lemma PackOrder(k: nat, a: nat, m: nat, id: Key, a': nat, m': nat, id': Key)
    requires a < Pow256(k) && m < Pow256(k) && a' < Pow256(k) && m' < Pow256(k)
    ensures Before(Pack(k, a, m, id), Pack(k, a', m', id'))
        <==> a < a' || (a == a' && (m < m' || (m == m' && Before(id, id'))))
  {
    var s := BigEndian(m, k) + id;
    var s' := BigEndian(m', k) + id';
    assert Pack(k, a, m, id) == BigEndian(a, k) + s;
    assert Pack(k, a', m', id') == BigEndian(a', k) + s';
    BigEndianKeepsOrder(a, a', k, s, s');
    BigEndianKeepsOrder(m, m', k, id, id');
  }

  lemma DueKeyIsPacked(at: Timestamp, sequence: nat, id: Key) returns (k: nat)
    requires sequence < SEQUENCE_LIMIT
    ensures k == WIDTH && at < Pow256(k) && sequence < Pow256(k)
    ensures DueKey(at, sequence, id) == Pack(k, at, sequence, id)
  {
    k := Pow256Of8();
  }

  /** Byte order of due keys is exactly the order on (time, sequence, id). */
  lemma DueKeyOrder(at: Timestamp, sequence: nat, id: Key, at': Timestamp, sequence': nat, id': Key)
    requires sequence < SEQUENCE_LIMIT && sequence' < SEQUENCE_LIMIT
    ensures Before(DueKey(at, sequence, id), DueKey(at', sequence', id'))
        <==> at < at' || (at == at' && (sequence < sequence' || (sequence == sequence' && Before(id, id'))))
  {
    var k := DueKeyIsPacked(at, sequence, id);
    var k' := DueKeyIsPacked(at', sequence', id');
    PackOrder(k, at, sequence, id, at', sequence', id');
  }

  /** Whatever the integers, the identifier suffix keeps the keys of two deliveries apart. */
  lemma DueKeyNamesDelivery(at: Timestamp, sequence: nat, id: Key, at': Timestamp, sequence': nat, id': Key)
    requires DueKey(at, sequence, id) == DueKey(at', sequence', id')
    ensures id == id'
  {
    assert DueKey(at, sequence, id)[16..] == id;
    assert DueKey(at', sequence', id')[16..] == id';
  }
}

/**
 * The order of sled tree keys. sled compares keys as byte strings
 * (lexicographically); the meal trees use `i64::to_be_bytes` as keys. This
 * module proves which numeric order that byte order is.
 */
module ByteOrder {
  import opened Numbers

  /** 256^n */
  function Pow256(n: nat): (p: nat)
    ensures p >= 1
  {
    if n == 0 then 1 else 256 * Pow256(n - 1)
  }

  /** Byte strings as sequences of values below 256. */
  predicate IsBytes(b: seq<nat>) {
    forall i | 0 <= i < |b| :: b[i] < 256
  }

  /** The `n`-byte big-endian encoding of `u`: the low byte comes last. */
  function BeBytes(u: nat, n: nat): (b: seq<nat>)
    requires u < Pow256(n)
    ensures |b| == n && IsBytes(b)
  {
    if n == 0 then [] else BeBytes(u / 256, n - 1) + [u % 256]
  }

  /** Lexicographic order of byte strings (a proper prefix comes first), as `[u8]`'s `Ord`. */
  predicate LexLess(a: seq<nat>, b: seq<nat>) {
    if a == [] then b != []
    else if b == [] then false
    else a[0] < b[0] || (a[0] == b[0] && LexLess(a[1..], b[1..]))
  }

  /** Two strings of equal length with one more byte each: the prefixes decide, then the last byte. */
  lemma {:induction false} LexLessAppend(a: seq<nat>, b: seq<nat>, x: nat, y: nat)
    requires |a| == |b|
    ensures LexLess(a + [x], b + [y]) <==> LexLess(a, b) || (a == b && x < y)
  {
    if a == [] {
      assert a + [x] == [x] && b + [y] == [y];
      assert [x][1..] == [] && [y][1..] == [];
    } else {
      assert (a + [x])[0] == a[0] && (a + [x])[1..] == a[1..] + [x];
      assert (b + [y])[0] == b[0] && (b + [y])[1..] == b[1..] + [y];
      LexLessAppend(a[1..], b[1..], x, y);
      assert a == b <==> a[0] == b[0] && a[1..] == b[1..] by {
        if a[0] == b[0] && a[1..] == b[1..] {
          assert a == [a[0]] + a[1..] && b == [b[0]] + b[1..];
        }
      }
    }
  }

  /** Equal-width big-endian encodings are equal only for equal numbers. */
  lemma {:induction false} BeBytesInjective(u: nat, v: nat, n: nat)
    requires u < Pow256(n) && v < Pow256(n)
    ensures BeBytes(u, n) == BeBytes(v, n) <==> u == v
  {
    if n > 0 {
      BeBytesInjective(u / 256, v / 256, n - 1);
      var bu, bv := BeBytes(u, n), BeBytes(v, n);
      if bu == bv {
        assert bu[..n - 1] == BeBytes(u / 256, n - 1);
        assert bv[..n - 1] == BeBytes(v / 256, n - 1);
        assert bu[n - 1] == u % 256 && bv[n - 1] == v % 256;
      }
    }
  }

  /** Big-endian encodings of equal width compare as the numbers do. */
  lemma {:induction false} BeBytesOrder(u: nat, v: nat, n: nat)
    requires u < Pow256(n) && v < Pow256(n)
    ensures LexLess(BeBytes(u, n), BeBytes(v, n)) <==> u < v
  {
    if n == 0 {
      assert BeBytes(u, n) == [] && BeBytes(v, n) == [];
    } else {
      BeBytesOrder(u / 256, v / 256, n - 1);
      BeBytesInjective(u / 256, v / 256, n - 1);
      LexLessAppend(BeBytes(u / 256, n - 1), BeBytes(v / 256, n - 1), u % 256, v % 256);
    }
  }

  lemma Pow256Is64Bits()
    ensures Pow256(8) == TWO_64
  {
  }

  /** `k.to_be_bytes()` for an `i64`: the big-endian bytes of its two's complement bits. */
  function ToBeBytes(k: I64): (b: seq<nat>)
    ensures |b| == 8 && IsBytes(b)
  {
    Pow256Is64Bits();
    BeBytes(AsU64(k), 8)
  }

  /** sled's `range(start.to_be_bytes()..end.to_be_bytes())` admits key `k`. */
  predicate InByteRange(k: I64, start: I64, end: I64) {
    !LexLess(ToBeBytes(k), ToBeBytes(start)) && LexLess(ToBeBytes(k), ToBeBytes(end))
  }

  /** Keys in the byte order compare as their unsigned (`as u64`) readings. */
  lemma KeyOrder(a: I64, b: I64)
    ensures LexLess(ToBeBytes(a), ToBeBytes(b)) <==> AsU64(a) < AsU64(b)
  {
    Pow256Is64Bits();
    BeBytesOrder(AsU64(a), AsU64(b), 8);
  }

  /** The byte range is the half-open range of unsigned readings. */
  lemma ByteRangeIsUnsignedRange(k: I64, start: I64, end: I64)
    ensures InByteRange(k, start, end) <==> AsU64(start) <= AsU64(k) < AsU64(end)
  {
    KeyOrder(k, start);
    KeyOrder(k, end);
  }

  /** For non-negative timestamps the byte range is the ordinary half-open range. */
  lemma ByteRangeNonNegative(k: I64, start: I64, end: I64)
    requires 0 <= k && 0 <= start && 0 <= end
    ensures InByteRange(k, start, end) <==> start <= k < end
  {
    ByteRangeIsUnsignedRange(k, start, end);
  }

  /** A negative bound sorts after every non-negative key: `-1..10` admits no non-negative key. */
  lemma NegativeStartAdmitsNoNonNegativeKey(k: I64, start: I64, end: I64)
    requires start < 0 && 0 <= k && 0 <= end
    ensures !InByteRange(k, start, end)
  {
    ByteRangeIsUnsignedRange(k, start, end);
  }
}

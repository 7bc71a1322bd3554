/** Bytes, 64-bit words, and the big-endian integers both wire formats use. */
module Bytes {
  type byte = x: int | 0 <= x < 256

  const TWO_64 := 0x1_0000_0000_0000_0000
  const TWO_63 := 0x8000_0000_0000_0000

  datatype Option<+T> = None | Some(value: T)

  /** The newest n bytes of s. */
  function LastN(s: seq<byte>, n: nat): (r: seq<byte>)
  {
    if |s| <= n then s else s[|s| - n..]
  }

  /** q, q + 1, … , n of them. */
  function Range(q: nat, n: nat): seq<nat> { seq(n, i requires 0 <= i < n => q + i) }

  lemma SliceOfSlice<T>(s: seq<T>, from: nat, to: nat, a: nat, b: nat)
    requires from <= to <= |s| && a <= b <= to - from
    ensures s[from..to][a..b] == s[from + a..from + b]
  {
    var x, y := s[from..to][a..b], s[from + a..from + b];
    assert forall i :: 0 <= i < b - a ==> x[i] == y[i];
  }

  function Min(a: int, b: int): int { if a < b then a else b }

  function Max(a: int, b: int): int { if a < b then b else a }

  function Distance(n: int, lo: int, hi: int): nat {
    if lo <= n < hi then 0 else if n < 0 then -n else n
  }

  /** An arbitrary integer as Go's uint64: shifted by 2^64 until it fits. */
  function ToUint64(n: int): (r: int)
    ensures 0 <= r < TWO_64
    decreases Distance(n, 0, TWO_64)
  {
    if n < 0 then ToUint64(n + TWO_64) else if n >= TWO_64 then ToUint64(n - TWO_64) else n
  }

  predicate IsInt64(n: int) { -TWO_63 <= n < TWO_63 }

  /** An arbitrary integer as Go's int64 (two's complement). */
  function ToInt64(n: int): (r: int)
    ensures IsInt64(r)
    decreases Distance(n, -TWO_63, TWO_63)
  {
    if n < -TWO_63 then ToInt64(n + TWO_64) else if n >= TWO_63 then ToInt64(n - TWO_64) else n
  }

  lemma ToInt64OfInt64(n: int)
    requires IsInt64(n)
    ensures ToInt64(n) == n
    ensures ToInt64(ToUint64(n)) == n
  {
    if n < 0 {
      assert ToUint64(n) == ToUint64(n + TWO_64) == n + TWO_64;
    }
  }

  lemma {:induction false} ToInt64Absorbs(a: int, b: int)
    ensures ToInt64(ToInt64(a) + b) == ToInt64(a + b)
    decreases Distance(a, -TWO_63, TWO_63)
  {
    if a < -TWO_63 {
      ToInt64Absorbs(a + TWO_64, b);
      ToInt64Period(a + b);
    } else if a >= TWO_63 {
      ToInt64Absorbs(a - TWO_64, b);
      ToInt64Period(a - TWO_64 + b);
    }
  }

  lemma ToInt64Period(n: int)
    ensures ToInt64(n + TWO_64) == ToInt64(n)
  {
  }

  /** Wrapped sums do not depend on the order of the terms, nor on when they are wrapped. */
  lemma WrappedSums(c: int, a: int, b: int)
    ensures ToInt64(ToInt64(c + a) + b) == ToInt64(c + (a + b)) == ToInt64(ToInt64(c + b) + a)
  {
    ToInt64Absorbs(c + a, b);
    ToInt64Absorbs(c + b, a);
    assert c + a + b == c + (a + b) == c + b + a;
  }

  /** binary.BigEndian.PutUint32 after the conversion uint32(n). */
  function U32(n: nat): (r: seq<byte>)
    ensures |r| == 4
  {
    [n / 0x100_0000 % 256, n / 0x1_0000 % 256, n / 0x100 % 256, n % 256]
  }

  function FromU32(b: seq<byte>): (n: nat)
    requires |b| == 4
    ensures n < 0x1_0000_0000
  {
    var b0: int, b1: int, b2: int := b[0], b[1], b[2];
    b0 * 0x100_0000 + b1 * 0x1_0000 + b2 * 0x100 + b[3]
  }

  lemma U32RoundTrip(n: nat)
    requires n < 0x1_0000_0000
    ensures FromU32(U32(n)) == n
  {
    var n1, n2, n3 := n / 0x100, n / 0x1_0000, n / 0x100_0000;
    assert n1 / 0x100 == n2 && n2 / 0x100 == n3 < 0x100;
    assert n == n1 * 0x100 + n % 0x100 && n1 == n2 * 0x100 + n1 % 0x100 && n2 == n3 * 0x100 + n2 % 0x100;
  }

  lemma FromU32RoundTrip(b: seq<byte>)
    requires |b| == 4
    ensures U32(FromU32(b)) == b
  {
    var b0: int, b1: int, b2: int, n := b[0], b[1], b[2], FromU32(b);
    var q2, q1 := b0 * 0x100 + b1, (b0 * 0x100 + b1) * 0x100 + b2;
    Divided(n, q1, b[3], 0x100);
    Divided(n, q2, b2 * 0x100 + b[3], 0x1_0000);
    Divided(n, b0, b1 * 0x1_0000 + b2 * 0x100 + b[3], 0x100_0000);
    Divided(q1, q2, b2, 0x100);
    Divided(q2, b0, b1, 0x100);
    Divided(b0, 0, b0, 0x100);
  }

  /** Division with remainder has one answer. */
  lemma Divided(x: int, q: int, r: nat, n: nat)
    requires x == q * n + r && r < n
    ensures x / n == q && x % n == r
  {
    var q', r' := x / n, x % n;
    assert n * (q - q') == r' - r;
    if q > q' {
      AtLeast(n, q - q');
    } else if q < q' {
      assert n * (q' - q) == r - r';
      AtLeast(n, q' - q);
    }
  }

  lemma {:induction false} AtLeast(n: nat, k: nat)
    requires k > 0
    ensures n * k >= n
  {
    if k > 1 {
      AtLeast(n, k - 1);
      assert n * k == n * (k - 1) + n;
    }
  }

  /** binary.BigEndian.AppendUint16. */
  function U16(n: nat): (r: seq<byte>)
    ensures |r| == 2
  {
    [n / 0x100 % 256, n % 256]
  }

  function FromU16(b: seq<byte>): (n: nat)
    requires |b| == 2
    ensures n < 0x1_0000
  {
    var b0: int := b[0];
    b0 * 0x100 + b[1]
  }

  /** What bytes mean in network order: the most significant first. */
  function BigEndian(b: seq<byte>): nat {
    if b == [] then 0 else BigEndian(b[..|b| - 1]) * 256 + b[|b| - 1]
  }

  lemma FourAreBigEndian(b: seq<byte>)
    requires |b| == 4
    ensures FromU32(b) == BigEndian(b)
  {
    assert b[..3][..2] == b[..2] && b[..2][..1] == b[..1] && b[..1][..0] == [];
    assert BigEndian(b[..1]) == b[0];
    assert BigEndian(b[..2]) == BigEndian(b[..1]) * 256 + b[1];
    assert BigEndian(b[..3]) == BigEndian(b[..2]) * 256 + b[2];
  }

  lemma TwoAreBigEndian(b: seq<byte>)
    requires |b| == 2
    ensures FromU16(b) == BigEndian(b)
  {
    assert b[..1][..0] == [];
    assert BigEndian(b[..1]) == b[0];
  }

  /** Both length prefixes are big-endian, and the whole number when it fits. */
  lemma PrefixesAreBigEndian(n: nat)
    ensures n < 0x1_0000_0000 ==> BigEndian(U32(n)) == n
    ensures n < 0x1_0000 ==> BigEndian(U16(n)) == n
  {
    FourAreBigEndian(U32(n));
    TwoAreBigEndian(U16(n));
    if n < 0x1_0000_0000 {
      U32RoundTrip(n);
    }
  }
}

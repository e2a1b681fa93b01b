/** Byte strings, big-endian integers and the sequence facts shared by every other module. */
module Bytes {
  type byte = x: int | 0 <= x < 0x100

  const U16: nat := 0x1_0000
  const U32: nat := 0x1_0000_0000
  const U64: nat := 0x1_0000_0000_0000_0000

  datatype Option<+T> = None | Some(value: T)

  function Min(a: int, b: int): int { if a <= b then a else b }

  function Max(a: int, b: int): int { if a >= b then a else b }

  /** The value a 64-bit counter is left with. */
  function Saturating(n: nat): nat
  {
    Min(n, U64 - 1)
  }

  // ---- Division -----------------------------------------------------------

  /** Quotient and remainder are the only ones there are. */
  lemma Division(n: int, d: nat, q: int, r: nat)
    requires r < d && n == d * q + r
    ensures n / d == q && n % d == r
  {
    assert n == d * (n / d) + n % d;
    if n / d < q {
      AtLeast(d, q, n / d);
    } else if n / d > q {
      AtLeast(d, n / d, q);
    }
  }

  lemma {:induction false} AtLeast(d: nat, more: int, less: int)
    requires more > less
    ensures d * more >= d * less + d
    decreases more - less
  {
    if more > less + 1 {
      AtLeast(d, more - 1, less);
    }
    assert d * (more - 1) == d * more - d;
  }

  // ---- Suffixes ----------------------------------------------------------

  /** The last `n` elements, or everything when there are fewer. */
  function LastN<T>(s: seq<T>, n: nat): (r: seq<T>)
    ensures |r| == Min(n, |s|)
  {
    if |s| <= n then s else s[|s| - n..]
  }

  ghost predicate IsSuffix<T>(a: seq<T>, b: seq<T>)
  {
    |a| <= |b| && b[|b| - |a|..] == a
  }

  lemma LastNIsSuffix<T>(s: seq<T>, n: nat)
    ensures IsSuffix(LastN(s, n), s)
  {
  }

  lemma SuffixAppend<T>(a: seq<T>, b: seq<T>, c: seq<T>)
    requires IsSuffix(a, b)
    ensures IsSuffix(a + c, b + c)
  {
    var d := |b| - |a|;
    assert (b + c)[d..] == b[d..] + c;
  }

  lemma SuffixTrans<T>(a: seq<T>, b: seq<T>, c: seq<T>)
    requires IsSuffix(a, b) && IsSuffix(b, c)
    ensures IsSuffix(a, c)
  {
    assert c[|c| - |a|..] == c[|c| - |b|..][|b| - |a|..];
  }

  /** A bounded window forgets nothing that a later window of the same size would still show. */
  lemma LastNAbsorbs<T>(a: seq<T>, b: seq<T>, n: nat)
    ensures LastN(LastN(a, n) + b, n) == LastN(a + b, n)
  {
    if |a| > n {
      var cut := |a| - n;
      var kept := a[cut..];
      LastNCuts(a, n);
      LastNCuts(kept + b, n);
      LastNCuts(a + b, n);
      hide LastN;
      assert LastN(kept + b, n) == (kept + b)[|b|..] && LastN(a + b, n) == (a + b)[cut + |b|..];
      TailOfTail(a + b, cut, |b|);
      TailOfAppend(a, b, cut);
    }
  }

  lemma TailOfAppend<T>(a: seq<T>, b: seq<T>, i: nat)
    requires i <= |a|
    ensures (a + b)[i..] == a[i..] + b
  {
  }

  lemma LastNCuts<T>(s: seq<T>, n: nat)
    requires n <= |s|
    ensures LastN(s, n) == s[|s| - n..]
  {
  }

  lemma TailOfTail<T>(s: seq<T>, i: nat, j: nat)
    requires i + j <= |s|
    ensures s[i..][j..] == s[i + j..]
  {
  }

  /** A window of a window. */
  lemma LastNOfLastN<T>(s: seq<T>, m: nat, n: nat)
    ensures LastN(LastN(s, m), n) == LastN(s, Min(m, n))
  {
  }

  lemma InitOfAppend<T>(a: seq<T>, b: seq<T>)
    requires b != []
    ensures (a + b)[..|a + b| - 1] == a + b[..|b| - 1]
    ensures (a + b)[|a + b| - 1] == b[|b| - 1]
  {
  }

  lemma SliceOfSlice<T>(s: seq<T>, lo: nat, hi: nat, i: nat, j: nat)
    requires lo <= hi <= |s| && i <= j <= hi - lo
    ensures s[lo..hi][i..j] == s[lo + i..lo + j]
  {
    var t := s[lo..hi];
    assert |t[i..j]| == |s[lo + i..lo + j]|;
    assert forall k :: 0 <= k < j - i ==> t[i..j][k] == t[i + k] == s[lo + i + k] == s[lo + i..lo + j][k];
  }

  lemma Associate<T>(a: seq<T>, b: seq<T>, c: seq<T>)
    ensures a + b + c == a + (b + c)
  {
  }

  // ---- Concatenation -----------------------------------------------------

  function Concat<T>(parts: seq<seq<T>>): seq<T>
  {
    if parts == [] then [] else parts[0] + Concat(parts[1..])
  }

  lemma {:induction false} ConcatAppend<T>(a: seq<seq<T>>, b: seq<seq<T>>)
    ensures Concat(a + b) == Concat(a) + Concat(b)
  {
    if a == [] {
      assert a + b == b;
      assert [] + Concat(b) == Concat(b);
    } else {
      var rest := a[1..];
      assert (a + b)[0] == a[0] && (a + b)[1..] == rest + b;
      ConcatAppend(rest, b);
      Associate(a[0], Concat(rest), Concat(b));
    }
  }

  lemma ConcatSnoc<T>(a: seq<seq<T>>, x: seq<T>)
    ensures Concat(a + [x]) == Concat(a) + x
  {
    ConcatAppend(a, [x]);
    assert Concat([x]) == x + Concat([]);
  }

  // ---- Big-endian integers -------------------------------------------------

  /** `width` bytes of `n`, most significant first; high bits beyond the width are cut off. */
  function BigEndian(n: nat, width: nat): (r: seq<byte>)
    ensures |r| == width
  {
    if width == 0 then [] else BigEndian(n / 0x100, width - 1) + [n % 0x100]
  }

  function FromBigEndian(s: seq<byte>): nat
  {
    if s == [] then 0 else FromBigEndian(s[..|s| - 1]) * 0x100 + s[|s| - 1]
  }

  function Pow256(width: nat): (r: nat)
    ensures r > 0
  {
    if width == 0 then 1 else 0x100 * Pow256(width - 1)
  }

  lemma Widths()
    ensures Pow256(1) == 0x100 && Pow256(2) == U16 && Pow256(4) == U32 && Pow256(8) == U64
  {
    assert Pow256(3) == 0x100_0000;
    assert Pow256(4) == U32;
    assert Pow256(6) == 0x1_0000_0000_0000;
  }

  lemma {:induction false} BigEndianRoundTrip(n: nat, width: nat)
    requires n < Pow256(width)
    ensures FromBigEndian(BigEndian(n, width)) == n
  {
    if width > 0 {
      BigEndianRoundTrip(n / 0x100, width - 1);
      assert BigEndian(n, width)[..width - 1] == BigEndian(n / 0x100, width - 1);
    }
  }

  lemma {:induction false} BigEndianInverse(s: seq<byte>)
    ensures FromBigEndian(s) < Pow256(|s|)
    ensures BigEndian(FromBigEndian(s), |s|) == s
  {
    if s != [] {
      BigEndianInverse(s[..|s| - 1]);
    }
  }

  function U16Bytes(n: nat): (r: seq<byte>) ensures |r| == 2 { BigEndian(n, 2) }

  function U32Bytes(n: nat): (r: seq<byte>) ensures |r| == 4 { BigEndian(n, 4) }

  function U64Bytes(n: nat): (r: seq<byte>) ensures |r| == 8 { BigEndian(n, 8) }

  lemma U16RoundTrip(n: nat)
    requires n < U16
    ensures FromBigEndian(U16Bytes(n)) == n
  {
    Widths();
    BigEndianRoundTrip(n, 2);
  }

  lemma U32RoundTrip(n: nat)
    requires n < U32
    ensures FromBigEndian(U32Bytes(n)) == n
  {
    Widths();
    BigEndianRoundTrip(n, 4);
  }

  lemma U64RoundTrip(n: nat)
    requires n < U64
    ensures FromBigEndian(U64Bytes(n)) == n
  {
    Widths();
    BigEndianRoundTrip(n, 8);
  }
}

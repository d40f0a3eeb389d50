/** Bitwise `and` on machine words, as arithmetic on naturals, and contiguous high-bit masks. */
module Bits {
  import opened Wire

  function Pow2(n: nat): (p: nat)
    ensures p >= 1
  {
    if n == 0 then 1 else 2 * Pow2(n - 1)
  }

  /** Conjunction of two bits. */
  function Both(i: nat, j: nat): nat { if i == 1 && j == 1 then 1 else 0 }

  /** Bitwise and: bit by bit from the low end. */
  function And(x: nat, y: nat): (r: nat)
    ensures r <= x && r <= y
  {
    if x == 0 || y == 0 then 0
    else 2 * And(x / 2, y / 2) + Both(x % 2, y % 2)
  }

  lemma PowSum(a: nat, b: nat)
    ensures Pow2(a + b) == Pow2(a) * Pow2(b)
  {
    if a > 0 {
      PowSum(a - 1, b);
      assert Pow2(a) * Pow2(b) == 2 * (Pow2(a - 1) * Pow2(b));
    }
  }

  lemma PowPlus8(k: nat)
    ensures Pow2(k + 8) == 256 * Pow2(k)
  {
    assert Pow2(8) == 256;
    PowSum(k, 8);
  }

  lemma Pow32()
    ensures Pow2(32) == 0x1_0000_0000
  {
    assert Pow2(8) == 256;
    PowPlus8(8);
    PowPlus8(16);
    PowPlus8(24);
  }

  lemma {:induction false} PowMonotone(a: nat, b: nat)
    requires a <= b
    ensures Pow2(a) <= Pow2(b)
    decreases b
  {
    if a < b { PowMonotone(a, b - 1); }
  }

  /** x with its low k bits cleared. */
  function Floor(x: nat, k: nat): nat {
    if k == 0 then x else 2 * Floor(x / 2, k - 1)
  }

  /** That is, x rounded down to a multiple of 2^k. */
  lemma {:induction false} FloorRoundsDown(x: nat, k: nat)
    ensures Floor(x, k) == x / Pow2(k) * Pow2(k)
  {
    if k > 0 {
      FloorRoundsDown(x / 2, k - 1);
      DivStep(x, k);
      Associate(x / Pow2(k), Pow2(k - 1));
    }
  }

  lemma DivMod(x: nat, d: nat)
    requires d > 0
    ensures x == x / d * d + x % d
  {
  }

  lemma MulSplit(b: int, c: int, d: int)
    ensures (2 * b + c) * d == b * (2 * d) + c * d
  {
  }

  lemma DivThenHalve(x: nat, d: nat)
    requires d > 0
    ensures x / d / 2 == x / (2 * d)
  {
    var a := x / d;
    DivMod(x, d);
    MulSplit(a / 2, a % 2, d);
    if a % 2 == 0 {
      DivUnique(x, 2 * d, a / 2, x % d);
    } else {
      DivUnique(x, 2 * d, a / 2, d + x % d);
    }
  }

  lemma HalveThenDiv(x: nat, d: nat)
    requires d > 0
    ensures x / 2 / d == x / (2 * d)
  {
    var h := x / 2;
    DivMod(h, d);
    Associate(h / d, d);
    DivUnique(x, 2 * d, h / d, 2 * (h % d) + x % 2);
  }

  lemma DivStep(x: nat, k: nat)
    requires k > 0
    ensures x / Pow2(k) == x / 2 / Pow2(k - 1)
  {
    HalveThenDiv(x, Pow2(k - 1));
  }

  lemma MulAtLeast(k: nat, d: nat)
    requires k >= 1
    ensures k * d >= d
  {
    assert k * d == (k - 1) * d + d;
    assert (k - 1) * d >= 0;
  }

  lemma DivUnique(x: nat, d: nat, q: nat, r: nat)
    requires r < d && x == q * d + r
    ensures x / d == q && x % d == r
  {
    var q', r' := x / d, x % d;
    Distribute(q', q, d);
    if q < q' {
      MulAtLeast(q' - q, d);
    } else if q' < q {
      Distribute(q, q', d);
      MulAtLeast(q - q', d);
    }
  }

  lemma Distribute(a: int, b: int, d: int)
    ensures (a - b) * d == a * d - b * d
  {
  }

  lemma AndDouble(a: nat, i: nat, b: nat, j: nat)
    requires i < 2 && j < 2
    ensures And(2 * a + i, 2 * b + j) == 2 * And(a, b) + Both(i, j)
  {
    AndUnfold(2 * a + i, 2 * b + j);
  }

  lemma {:induction false} AndAllOnes(x: nat, w: nat)
    requires x < Pow2(w)
    ensures And(x, Pow2(w) - 1) == x
  {
    if w > 0 {
      AndAllOnes(x / 2, w - 1);
      AndDouble(x / 2, x % 2, Pow2(w - 1) - 1, 1);
    }
  }

  lemma AndEven(x: nat, y: nat)
    ensures And(x, 2 * y) == 2 * And(x / 2, y)
  {
    AndDouble(x / 2, x % 2, y, 0);
  }

  /** Anding with w-k one bits followed by k zero bits clears the low k bits. */
  lemma {:induction false} AndHighMask(x: nat, w: nat, k: nat)
    requires k <= w && x < Pow2(w)
    ensures Pow2(k) <= Pow2(w)
    ensures And(x, Pow2(w) - Pow2(k)) == Floor(x, k)
  {
    PowMonotone(k, w);
    if k == 0 {
      AndAllOnes(x, w);
    } else {
      AndHighMask(x / 2, w - 1, k - 1);
      AndEven(x, Pow2(w - 1) - Pow2(k - 1));
    }
  }

  lemma Associate(q: int, p: int)
    ensures q * (2 * p) == 2 * (q * p)
  {
  }

  /** x followed by k zero bits. */
  function Shl(x: nat, k: nat): nat {
    if k == 0 then x else 2 * Shl(x, k - 1)
  }

  lemma {:induction false} ShlIsProduct(x: nat, k: nat)
    ensures Shl(x, k) == x * Pow2(k)
  {
    if k > 0 {
      ShlIsProduct(x, k - 1);
      Associate(x, Pow2(k - 1));
    }
  }

  lemma ShlHalves(x: nat, u: nat, k: nat)
    requires k > 0
    ensures (Shl(x, k) + u) / 2 == Shl(x, k - 1) + u / 2 && (Shl(x, k) + u) % 2 == u % 2
  {
  }

  lemma AndNextBit(x: nat, y: nat, u: nat, v: nat, high: nat)
    requires x % 2 == u % 2 && y % 2 == v % 2 && And(x / 2, y / 2) == high + And(u / 2, v / 2)
    ensures And(x, y) == 2 * high + And(u, v)
  {
    AndUnfold(x, y);
    AndUnfold(u, v);
  }

  /** And works on the high and low parts of a word independently. */
  lemma {:induction false} AndSplit(x: nat, u: nat, y: nat, v: nat, k: nat)
    requires u < Pow2(k) && v < Pow2(k)
    ensures And(Shl(x, k) + u, Shl(y, k) + v) == Shl(And(x, y), k) + And(u, v)
  {
    if k > 0 {
      AndSplit(x, u / 2, y, v / 2, k - 1);
      ShlHalves(x, u, k);
      ShlHalves(y, v, k);
      AndNextBit(Shl(x, k) + u, Shl(y, k) + v, u, v, Shl(And(x, y), k - 1));
    }
  }

  lemma AndUnfold(x: nat, y: nat)
    ensures And(x, y) == 2 * And(x / 2, y / 2) + Both(x % 2, y % 2)
  {
  }

  /** The number a byte string denotes in network order. */
  function BigEndian(s: seq<byte>): (n: nat) {
    if s == [] then 0 else BigEndian(s[..|s| - 1]) * 256 + s[|s| - 1]
  }

  lemma {:induction false} BigEndianBound(s: seq<byte>)
    ensures BigEndian(s) < Pow2(8 * |s|)
  {
    if s != [] {
      BigEndianBound(s[..|s| - 1]);
      PowSum(8 * (|s| - 1), 8);
      assert Pow2(8) == 256;
    }
  }

  lemma {:induction false} BigEndianInjective(s: seq<byte>, t: seq<byte>)
    requires |s| == |t| && BigEndian(s) == BigEndian(t)
    ensures s == t
  {
    if s != [] {
      var n := |s| - 1;
      assert s[n] == BigEndian(s) % 256 == t[n];
      BigEndianInjective(s[..n], t[..n]);
      assert s == s[..n] + [s[n]] && t == t[..n] + [t[n]];
    }
  }

  function AndByte(x: byte, y: byte): byte { And(x, y) }

  function AndBytes(s: seq<byte>, t: seq<byte>): (r: seq<byte>)
    requires |s| == |t|
  {
    seq(|s|, i requires 0 <= i < |s| => AndByte(s[i], t[i]))
  }

  lemma AndLastByte(x: nat, u: byte, y: nat, v: byte)
    ensures And(x * 256 + u, y * 256 + v) == And(x, y) * 256 + And(u, v)
  {
    assert Pow2(8) == 256;
    ShlIsProduct(x, 8);
    ShlIsProduct(y, 8);
    ShlIsProduct(And(x, y), 8);
    AndSplit(x, u, y, v, 8);
  }

  /** Byte-wise and word-wise masking denote the same number. */
  lemma {:induction false} AndBytesBigEndian(s: seq<byte>, t: seq<byte>)
    requires |s| == |t|
    ensures BigEndian(AndBytes(s, t)) == And(BigEndian(s), BigEndian(t))
  {
    if s != [] {
      var n := |s| - 1;
      AndBytesBigEndian(s[..n], t[..n]);
      assert AndBytes(s, t)[..n] == AndBytes(s[..n], t[..n]);
      AndLastByte(BigEndian(s[..n]), s[n], BigEndian(t[..n]), t[n]);
    }
  }

  // ---- Bits counted from the front of an address

  /** Bit i of a byte string, most significant first. */
  function Bit(s: seq<byte>, i: nat): nat
    requires i < 8 * |s|
  {
    s[i / 8] / Pow2(7 - i % 8) % 2
  }

  /** The two addresses have the same first m bits. */
  ghost predicate SamePrefix(s: seq<byte>, t: seq<byte>, m: nat)
    requires |s| == |t| && m <= 8 * |s|
  {
    forall i: nat :: i < m ==> Bit(s, i) == Bit(t, i)
  }

  lemma BitFromFront(s: seq<byte>, i: nat)
    requires i < 8 * |s|
    ensures Bit(s, i) == BigEndian(s) / Pow2(8 * |s| - 1 - i) % 2
    decreases |s|
  {
    var n := |s| - 1;
    var x := BigEndian(s[..n]);
    if i / 8 == n {
      LowByteBit(x, s[n], 7 - i % 8);
    } else {
      BitFromFront(s[..n], i);
      DropByte(x, s[n], 8 * n - 1 - i);
    }
  }

  lemma {:induction false} LowByteQuotient(x: nat, b: byte, k: nat)
    requires k <= 8
    ensures x * Pow2(8 - k) >= 0
    ensures (x * 256 + b) / Pow2(k) == x * Pow2(8 - k) + b / Pow2(k)
  {
    assert Pow2(8) == 256;
    if k > 0 {
      LowByteQuotient(x, b, k - 1);
      DivHalf(x * 256 + b, k - 1);
      DivHalf(b, k - 1);
      Associate(x, Pow2(8 - k));
    }
  }

  lemma LowByteBit(x: nat, b: byte, k: nat)
    requires k < 8
    ensures (x * 256 + b) / Pow2(k) % 2 == b / Pow2(k) % 2
  {
    LowByteQuotient(x, b, k);
    Associate(x, Pow2(7 - k));
    EvenPlus(x * Pow2(7 - k), b / Pow2(k));
  }

  lemma EvenPlus(h: int, q: int)
    ensures (2 * h + q) % 2 == q % 2
  {
  }

  lemma {:induction false} DropByte(x: nat, b: byte, k: nat)
    ensures (x * 256 + b) / Pow2(k + 8) == x / Pow2(k)
  {
    if k == 0 {
      LowByteQuotient(x, b, 8);
      assert b / 256 == 0;
    } else {
      DropByte(x, b, k - 1);
      DivHalf(x * 256 + b, k + 7);
      DivHalf(x, k - 1);
    }
  }

  /** Equal leading bits is equality of the quotients. */
  lemma {:induction false} SamePrefixQuotient(s: seq<byte>, t: seq<byte>, m: nat)
    requires |s| == |t| && m <= 8 * |s|
    ensures SamePrefix(s, t, m) <==> SameQuotient(BigEndian(s), BigEndian(t), 8 * |s| - m)
  {
    if m == 0 {
      BigEndianBound(s);
      BigEndianBound(t);
      SmallQuotients(BigEndian(s), BigEndian(t), 8 * |s|);
    } else {
      SamePrefixQuotient(s, t, m - 1);
      BitFromFront(s, m - 1);
      BitFromFront(t, m - 1);
      QuotientStep(BigEndian(s), BigEndian(t), 8 * |s| - m);
      SamePrefixStep(s, t, m);
    }
  }

  predicate SameQuotient(x: nat, y: nat, k: nat) {
    x / Pow2(k) == y / Pow2(k)
  }

  lemma SmallQuotients(x: nat, y: nat, k: nat)
    requires x < Pow2(k) && y < Pow2(k)
    ensures SameQuotient(x, y, k)
  {
    DivUnique(x, Pow2(k), 0, x);
    DivUnique(y, Pow2(k), 0, y);
  }

  lemma QuotientStep(x: nat, y: nat, k: nat)
    ensures SameQuotient(x, y, k) <==> SameQuotient(x, y, k + 1) && x / Pow2(k) % 2 == y / Pow2(k) % 2
  {
    DivHalf(x, k);
    DivHalf(y, k);
    HalvesAndParity(x / Pow2(k), y / Pow2(k));
  }

  lemma SamePrefixStep(s: seq<byte>, t: seq<byte>, m: nat)
    requires |s| == |t| && 0 < m <= 8 * |s|
    ensures SamePrefix(s, t, m) <==> SamePrefix(s, t, m - 1) && Bit(s, m - 1) == Bit(t, m - 1)
  {
  }

  lemma HalvesAndParity(a: nat, b: nat)
    ensures a == b <==> a / 2 == b / 2 && a % 2 == b % 2
  {
  }

  lemma DivHalf(x: nat, k: nat)
    ensures x / Pow2(k) / 2 == x / Pow2(k + 1)
  {
    DivThenHalve(x, Pow2(k));
  }

  lemma FloorSame(x: nat, y: nat, k: nat)
    ensures Floor(x, k) == Floor(y, k) <==> SameQuotient(x, y, k)
  {
    FloorRoundsDown(x, k);
    FloorRoundsDown(y, k);
    DivUnique(Floor(x, k), Pow2(k), x / Pow2(k), 0);
    DivUnique(Floor(y, k), Pow2(k), y / Pow2(k), 0);
  }

  lemma MaskIsFloor(s: seq<byte>, m: nat, mask: nat)
    requires m <= 8 * |s| && mask == Pow2(8 * |s|) - Pow2(8 * |s| - m)
    ensures And(BigEndian(s), mask) == Floor(BigEndian(s), 8 * |s| - m)
  {
    BigEndianBound(s);
    AndHighMask(BigEndian(s), 8 * |s|, 8 * |s| - m);
  }

  /** Masked values agree exactly when the first m bits do. */
  lemma MaskedEqual(s: seq<byte>, t: seq<byte>, m: nat, mask: nat)
    requires |s| == |t| && m <= 8 * |s|
    requires mask == Pow2(8 * |s|) - Pow2(8 * |s| - m)
    ensures And(BigEndian(s), mask) == And(BigEndian(t), mask) <==> SamePrefix(s, t, m)
  {
    MaskIsFloor(s, m, mask);
    MaskIsFloor(t, m, mask);
    FloorSame(BigEndian(s), BigEndian(t), 8 * |s| - m);
    SamePrefixQuotient(s, t, m);
  }

  lemma {:induction false} FloorIdempotent(x: nat, k: nat)
    ensures Floor(Floor(x, k), k) == Floor(x, k)
  {
    if k > 0 { FloorIdempotent(x / 2, k - 1); }
  }
}

/**
 * The JavaScript primitives the codec is built from, on Dafny's unbounded integers:
 * `Number.prototype.toString(2)`, `String.prototype.padStart`, `parseInt(_, 2)` and the
 * bitwise operators `&`, `|`, `<<`, `>>`.
 */
module Bits {

  function Pow2(n: nat): (r: nat)
    ensures r >= 1
  {
    if n == 0 then 1 else 2 * Pow2(n - 1)
  }

  /** A string made only of the characters '0' and '1'. */
  predicate IsBits(s: string) {
    forall i :: 0 <= i < |s| ==> s[i] == '0' || s[i] == '1'
  }

  function Digit(d: nat): char
    requires d < 2
  {
    if d == 0 then '0' else '1'
  }

  /** `v.toString(2)` for a non-negative integer: most significant digit first, "0" for zero. */
  function Binary(v: nat): (s: string)
    ensures |s| >= 1 && IsBits(s)
    decreases v
  {
    if v < 2 then [Digit(v)] else Binary(v / 2) + [Digit(v % 2)]
  }

  function Zeros(n: nat): (s: string)
    ensures |s| == n && forall i :: 0 <= i < n ==> s[i] == '0'
  {
    seq(n, _ => '0')
  }

  /** `s.padStart(n, '0')`: prefixes zeros up to length n and never truncates. */
  function PadStart(s: string, n: nat): (r: string)
    ensures |r| == if |s| >= n then |s| else n
    ensures r[|r| - |s|..] == s
    ensures forall i :: 0 <= i < |r| - |s| ==> r[i] == '0'
  {
    if |s| >= n then s else Zeros(n - |s|) + s
  }

  /**
   * `toBitString(data, length)`: the binary digits of data, left-padded with '0'; nothing
   * is masked, so the string is never shorter than width and always reads back as v.
   */
  function ToBitString(v: nat, width: nat): (r: string)
    ensures IsBits(r) && |r| >= width && BitValue(r) == v
  {
    BinaryValue(v);
    PadValue(Binary(v), width);
    PadStart(Binary(v), width)
  }

  /** Leading zeros change neither the digits nor their value. */
  lemma PadValue(s: string, n: nat)
    requires IsBits(s)
    ensures IsBits(PadStart(s, n)) && BitValue(PadStart(s, n)) == BitValue(s)
  {
    if |s| < n {
      BitValueZeros(n - |s|);
      BitValueConcat(Zeros(n - |s|), s);
    }
  }

  /** `parseInt(s, 2)` of a string of binary digits (most significant first). */
  function BitValue(s: string): nat
    requires IsBits(s)
  {
    if s == [] then 0 else 2 * BitValue(s[..|s| - 1]) + (if s[|s| - 1] == '1' then 1 else 0)
  }

  lemma {:induction false} BitValueConcat(a: string, b: string)
    requires IsBits(a) && IsBits(b)
    ensures IsBits(a + b)
    ensures BitValue(a + b) == BitValue(a) * Pow2(|b|) + BitValue(b)
    decreases |b|
  {
    if b == [] {
      assert a + b == a;
    } else {
      var b' := b[..|b| - 1];
      assert (a + b)[..|a + b| - 1] == a + b';
      BitValueConcat(a, b');
      var ab := a + b;
      assert ab[|ab| - 1] == b[|b| - 1];
      var va, vb', c := BitValue(a), BitValue(b'), if b[|b| - 1] == '1' then 1 else 0;
      var p := Pow2(|b'|);
      assert Pow2(|b|) == 2 * p;
      assert BitValue(ab) == 2 * (va * p + vb') + c;
      assert BitValue(b) == 2 * vb' + c;
      MulAssoc2(va, p);
    }
  }

  lemma MulAssoc2(x: int, p: int)
    ensures 2 * (x * p) == x * (2 * p)
  {
  }

  lemma {:induction false} BitValueBound(s: string)
    requires IsBits(s)
    ensures BitValue(s) < Pow2(|s|)
    decreases |s|
  {
    if s != [] {
      BitValueBound(s[..|s| - 1]);
    }
  }

  lemma {:induction false} BitValueZeros(n: nat)
    ensures IsBits(Zeros(n)) && BitValue(Zeros(n)) == 0
    decreases n
  {
    if n > 0 {
      assert Zeros(n)[..n - 1] == Zeros(n - 1);
      BitValueZeros(n - 1);
    }
  }

  /** The digits `toString(2)` produces read back as v. */
  lemma {:induction false} BinaryValue(v: nat)
    ensures BitValue(Binary(v)) == v
    decreases v
  {
    if v >= 2 {
      var s := Binary(v);
      assert s[..|s| - 1] == Binary(v / 2);
      BinaryValue(v / 2);
    }
  }

  /** `toString(2)` needs at most w digits exactly when v fits in w bits. */
  lemma {:induction false} BinaryWidth(v: nat, w: nat)
    requires w >= 1
    ensures |Binary(v)| <= w <==> v < Pow2(w)
    decreases v
  {
    if v >= 2 {
      if w == 1 {
        assert Pow2(1) == 2;
      } else {
        BinaryWidth(v / 2, w - 1);
      }
    } else {
      PowAtLeastTwo(w);
    }
  }

  lemma PowAtLeastTwo(w: nat)
    requires w >= 1
    ensures Pow2(w) >= 2
  {
  }

  /** A value that fits its width becomes exactly width digits whose value is v. */
  lemma ToBitStringFits(v: nat, width: nat)
    requires width >= 1 && v < Pow2(width)
    ensures |ToBitString(v, width)| == width
    ensures IsBits(ToBitString(v, width)) && BitValue(ToBitString(v, width)) == v
  {
    BinaryWidth(v, width);
  }

  /** A value that does not fit is not masked: the string grows past its width. */
  lemma ToBitStringOverflows(v: nat, width: nat)
    requires width >= 1 && v >= Pow2(width)
    ensures |ToBitString(v, width)| > width
  {
    BinaryWidth(v, width);
  }

  // ---------------------------------------------------------------------------
  // Bitwise operators. On non-negative operands below 2^31, JavaScript's `&`, `|`,
  // `<<` and `>>` act on the binary digits as below.
  // ---------------------------------------------------------------------------

  /** `a & b` on non-negative integers, digit by digit. */
  function And(a: nat, b: nat): nat
    decreases a
  {
    if a == 0 || b == 0 then 0
    else 2 * And(a / 2, b / 2) + (if a % 2 == 1 && b % 2 == 1 then 1 else 0)
  }

  /** `a | b` on non-negative integers, digit by digit. */
  function Or(a: nat, b: nat): nat
    decreases a + b
  {
    if a == 0 then b
    else if b == 0 then a
    else 2 * Or(a / 2, b / 2) + (if a % 2 == 1 || b % 2 == 1 then 1 else 0)
  }

  /** `x << n` (no overflow for the operands used here). */
  function ShiftLeft(x: nat, n: nat): nat {
    x * Pow2(n)
  }

  /** `x >> n` for a non-negative x. */
  function ShiftRight(x: nat, n: nat): int {
    x / Pow2(n)
  }

  const TwoTo32: nat := 0x1_0000_0000

  /** ECMAScript ToInt32 of an integral Number: wrap into [-2^31, 2^31). */
  function ToInt32(x: int): int {
    (x + 0x8000_0000) % TwoTo32 - 0x8000_0000
  }

  /** `x & mask` for any integral x and a non-negative int32 mask: the two's-complement bits of x. */
  function AndInt(x: int, mask: nat): nat {
    And(x % TwoTo32, mask)
  }

  /** `x >> n` for any integral x: arithmetic shift of ToInt32(x), i.e. floor division. */
  function ShiftRightInt(x: int, n: nat): int {
    ToInt32(x) / Pow2(n)
  }

  lemma ModDouble(u: nat, p: nat)
    requires p >= 1
    ensures 2 * ((u / 2) % p) + u % 2 == u % (2 * p)
  {
    var q, r := u / 2, u % 2;
    var s, t := q / p, q % p;
    assert u == 2 * p * s + (2 * t + r);
    assert 0 <= 2 * t + r < 2 * p;
    DivUnique(u, 2 * p, s, 2 * t + r);
  }

  lemma DivUnique(u: int, d: int, s: int, z: int)
    requires d >= 1 && u == d * s + z && 0 <= z < d
    ensures u % d == z && u / d == s
  {
    var s', z' := u / d, u % d;
    assert d * (s' - s) == z - z';
    if s' > s {
      MulAtLeast(d, s' - s);
    } else if s' < s {
      MulAtLeast(d, s - s');
    }
  }

  lemma {:induction false} MulAtLeast(d: int, k: int)
    requires d >= 1 && k >= 1
    ensures d * k >= d
    decreases k
  {
    if k > 1 {
      MulAtLeast(d, k - 1);
    }
  }

  /** Masking with 2^k - 1 keeps the low k digits. */
  lemma {:induction false} AndLowMask(u: nat, k: nat)
    ensures And(u, Pow2(k) - 1) == u % Pow2(k)
    decreases k
  {
    if k == 0 || u == 0 {
      AndLowMaskBase(u, k);
    } else {
      AndLowMask(u / 2, k - 1);
      AndLowMaskStep(u, k);
    }
  }

  lemma AndLowMaskBase(u: nat, k: nat)
    requires k == 0 || u == 0
    ensures And(u, Pow2(k) - 1) == u % Pow2(k)
  {
    if k == 0 {
      assert Pow2(k) == 1;
    }
  }

  /** The inductive step: from the low k - 1 digits of u / 2 to the low k digits of u. */
  lemma AndLowMaskStep(u: nat, k: nat)
    requires k > 0 && u > 0 && And(u / 2, Pow2(k - 1) - 1) == (u / 2) % Pow2(k - 1)
    ensures And(u, Pow2(k) - 1) == u % Pow2(k)
  {
    var m := Pow2(k) - 1;
    assert m / 2 == Pow2(k - 1) - 1 && m % 2 == 1;
    ModDouble(u, Pow2(k - 1));
  }

  /** Masking with 2^k keeps digit k alone. */
  lemma {:induction false} AndSingleBit(u: nat, k: nat)
    ensures And(u, Pow2(k)) == if (u / Pow2(k)) % 2 == 1 then Pow2(k) else 0
    decreases k
  {
    if u > 0 {
      if k == 0 {
        assert And(u / 2, 0) == 0;
      } else {
        assert Pow2(k) / 2 == Pow2(k - 1) && Pow2(k) % 2 == 0;
        AndSingleBit(u / 2, k - 1);
        DivDiv(u, Pow2(k - 1));
      }
    }
  }

  lemma DivDiv(u: nat, p: nat)
    requires p >= 1
    ensures (u / 2) / p == u / (2 * p)
  {
    var q := u / 2;
    var s, t := q / p, q % p;
    assert u == 2 * p * s + (2 * t + u % 2);
    DivUnique(u, 2 * p, s, 2 * t + u % 2);
  }

  /** Or-ing a shifted value with one that fits below the shift is addition. */
  lemma {:induction false} OrShifted(a: nat, b: nat, k: nat)
    requires b < Pow2(k)
    ensures Or(a * Pow2(k), b) == a * Pow2(k) + b
    decreases k
  {
    if k > 0 && a > 0 && b > 0 {
      var x := a * Pow2(k);
      assert x == 2 * (a * Pow2(k - 1));
      assert x / 2 == a * Pow2(k - 1) && x % 2 == 0;
      OrShifted(a, b / 2, k - 1);
    } else if k == 0 {
      assert b == 0;
    }
  }

  lemma ModOfMod(x: int)
    ensures (x % TwoTo32) % 64 == x % 64
  {
  }

  /** `x & 0x3F` is x modulo 64, for negative x too. */
  lemma AndInt3F(x: int)
    ensures AndInt(x, 0x3F) == x % 64
  {
    var u: nat := x % TwoTo32;
    assert Pow2(6) == 64;
    AndLowMask(u, 6);
    ModOfMod(x);
  }
}

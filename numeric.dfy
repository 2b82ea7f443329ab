/** Integer helpers that stand for Python built-ins used throughout the firmware:
    shifts and masks, `round` on a ratio of integers, and `str`/`int` on
    decimal digits. */
module Numeric {

  function Pow2(n: nat): (r: nat)
    ensures r >= 1
  {
    if n == 0 then 1 else 2 * Pow2(n - 1)
  }

  /** Python's `v >> k & 1 == 1`. Dafny's `/` by a positive divisor rounds
      toward negative infinity, as `>>` does, so this holds for negative `v` too. */
  predicate BitAt(v: int, k: nat) {
    (v / Pow2(k)) % 2 == 1
  }

  /** One byte as read from a bus. */
  type Byte = b: int | 0 <= b < 256

  /** Euclidean division has one quotient and remainder. */
  lemma DivModUnique(v: int, d: int, q: int, m: int)
    requires d > 0 && v == d * q + m && 0 <= m < d
    ensures v / d == q && v % d == m
  {
    var q0 := v / d;
    assert v == d * q0 + v % d;
    if q0 < q {
      MulStrict(d, q0, q);
    } else if q < q0 {
      MulStrict(d, q, q0);
    }
  }

  /** Shifting right by `k + 1` is halving, then shifting right by `k`. */
  lemma HalfSplit(v: int, p: int)
    requires p > 0
    ensures v / (2 * p) == (v / 2) / p
    ensures v % (2 * p) == 2 * ((v / 2) % p) + v % 2
  {
    var a, b, r := (v / 2) / p, (v / 2) % p, v % 2;
    assert v / 2 == p * a + b;
    assert v == 2 * (v / 2) + r;
    assert v == (2 * p) * a + (2 * b + r);
    DivModUnique(v, 2 * p, a, 2 * b + r);
  }

  /** Bit `k + 1` of `b + 2 * w` is bit `k` of `w`; bit 0 is `b`. */
  lemma BitStep(b: int, w: int, k: nat)
    requires 0 <= b < 2
    ensures BitAt(b + 2 * w, 0) <==> b == 1
    ensures BitAt(b + 2 * w, k + 1) <==> BitAt(w, k)
  {
    DivModUnique(b + 2 * w, 2, w, b);
    HalfSplit(b + 2 * w, Pow2(k));
  }

  /** Below bit `n`, reducing modulo `2^n` keeps every bit. */
  lemma {:induction false} BitAtMod(v: int, n: nat, k: nat)
    requires k < n
    ensures BitAt(v % Pow2(n), k) <==> BitAt(v, k)
    decreases n
  {
    var p := Pow2(n - 1);
    HalfSplit(v, p);
    assert v == v % 2 + 2 * (v / 2);
    if k == 0 {
      BitStep(v % 2, (v / 2) % p, 0);
    } else {
      BitStep(v % 2, (v / 2) % p, k - 1);
      BitStep(v % 2, v / 2, k - 1);
      BitAtMod(v / 2, n - 1, k - 1);
    }
  }

  /** Multiplying by `2^j` moves bit `k` to bit `k + j`. */
  lemma BitShift(x: int, j: nat, k: nat)
    ensures BitAt(x * Pow2(j), k + j) <==> BitAt(x, k)
  {
    PowAdd(k, j);
    MulDivCancel(x, Pow2(k), Pow2(j));
  }

  /** `(x * q) / (p * q) == x / p` for positive `p` and `q`. */
  lemma MulDivCancel(x: int, p: int, q: int)
    requires p > 0 && q > 0
    ensures (x * q) / (p * q) == x / p
  {
    var d, r := x / p, x % p;
    assert x == p * d + r;
    assert x * q == (p * q) * d + q * r by {
      assert x * q == (p * d + r) * q;
    }
    MulStrict(q, r, p - 1);
    assert q * (p - 1) == p * q - q;
    DivModUnique(x * q, p * q, d, q * r);
  }

  /** Shifting right by `j` moves bit `k + j` to bit `k`. */
  lemma BitAtDiv(v: int, j: nat, k: nat)
    ensures BitAt(v / Pow2(j), k) <==> BitAt(v, k + j)
  {
    PowAdd(k, j);
    DivDiv(v, Pow2(j), Pow2(k));
    assert Pow2(j) * Pow2(k) == Pow2(k) * Pow2(j);
  }

  /** `(v / q) / p == v / (q * p)` for positive `p` and `q`. */
  lemma DivDiv(v: int, q: int, p: int)
    requires p > 0 && q > 0
    ensures (v / q) / p == v / (q * p)
  {
    var a, r := v / q, v % q;
    var b, s := a / p, a % p;
    assert v == q * a + r;
    assert a == p * b + s;
    assert q * a == (q * p) * b + q * s by {
      Distrib(q, p * b, s);
      MulAssoc(q, p, b);
    }
    assert q * s <= q * p - q by {
      MulStrict(q, s, p - 1);
      Distrib(q, p, -1);
    }
    DivModUnique(v, q * p, b, q * s + r);
  }

  lemma Distrib(x: int, y: int, z: int)
    ensures x * (y + z) == x * y + x * z
  {
  }

  lemma MulAssoc(x: int, y: int, z: int)
    ensures x * (y * z) == (x * y) * z
  {
  }

  lemma {:induction false} PowAdd(k: nat, j: nat)
    ensures Pow2(k + j) == Pow2(k) * Pow2(j)
    decreases j
  {
    if j > 0 {
      PowAdd(k, j - 1);
    }
  }

  /** Bits `n - 1` down to 0 of `v`, most significant first. */
  function MsbBits(v: int, n: nat): (r: seq<bool>)
    ensures |r| == n
    ensures forall i :: 0 <= i < n ==> r[i] == BitAt(v, n - 1 - i)
  {
    seq(n, i requires 0 <= i < n => BitAt(v, n - 1 - i))
  }

  /** The number a bit string spells, most significant bit first. */
  function BitsValue(bits: seq<bool>): nat
  {
    if bits == [] then 0 else 2 * BitsValue(bits[..|bits| - 1]) + (if bits[|bits| - 1] then 1 else 0)
  }

  /** `n` bits spell a number below `2^n`. */
  lemma {:induction false} BitsValueBound(bits: seq<bool>)
    ensures BitsValue(bits) < Pow2(|bits|)
    decreases |bits|
  {
    if bits != [] {
      BitsValueBound(bits[..|bits| - 1]);
    }
  }

  /** The bits of `v` spell `v` modulo `2^n`. */
  lemma {:induction false} MsbBitsValue(v: int, n: nat)
    ensures BitsValue(MsbBits(v, n)) == v % Pow2(n)
    decreases n
  {
    if n > 0 {
      var bits := MsbBits(v, n);
      forall k | 0 <= k < n - 1
        ensures BitAt(v, k + 1) == BitAt(v / 2, k)
      {
        HalfSplit(v, Pow2(k));
      }
      assert bits[..n - 1] == MsbBits(v / 2, n - 1);
      MsbBitsValue(v / 2, n - 1);
      HalfSplit(v, Pow2(n - 1));
    }
  }

  /** A leading bit adds `2^|bits|`. */
  lemma {:induction false} BitsValueLead(b: bool, bits: seq<bool>)
    ensures BitsValue([b] + bits) == (if b then Pow2(|bits|) else 0) + BitsValue(bits)
    decreases |bits|
  {
    if bits != [] {
      var init := bits[..|bits| - 1];
      assert ([b] + bits)[..|bits|] == [b] + init;
      BitsValueLead(b, init);
    }
  }

  /** `BitsValue` of a concatenation. */
  lemma {:induction false} BitsValueAppend(a: seq<bool>, b: seq<bool>)
    ensures BitsValue(a + b) == BitsValue(a) * Pow2(|b|) + BitsValue(b)
    decreases |b|
  {
    if b == [] {
      assert a + b == a;
    } else {
      var init := b[..|b| - 1];
      var last := if b[|b| - 1] then 1 else 0;
      assert (a + b)[..|a + b| - 1] == a + init && (a + b)[|a + b| - 1] == b[|b| - 1];
      assert BitsValue(a + b) == 2 * BitsValue(a + init) + last;
      assert BitsValue(b) == 2 * BitsValue(init) + last;
      BitsValueAppend(a, init);
      var va, p := BitsValue(a), Pow2(|init|);
      assert va * Pow2(|b|) == 2 * (va * p) by {
        assert Pow2(|b|) == 2 * p;
        MulAssoc(va, 2, p);
        MulAssoc(2, va, p);
      }
      Distrib(2, va * p, BitsValue(init));
    }
  }

  /** The powers of two the byte and frame layouts use. */
  lemma PowersOfTwo()
    ensures Pow2(8) == 0x100 && Pow2(16) == 0x1_0000 && Pow2(24) == 0x100_0000
    ensures Pow2(32) == 0x1_0000_0000 && Pow2(40) == 0x100_0000_0000
  {
    assert Pow2(4) == 16;
    assert Pow2(8) == 256;
    assert Pow2(16) == 0x1_0000 by { PowAdd(8, 8); }
    assert Pow2(24) == 0x100_0000 by { PowAdd(16, 8); }
    assert Pow2(32) == 0x1_0000_0000 by { PowAdd(16, 16); }
    assert Pow2(40) == 0x100_0000_0000 by { PowAdd(32, 8); }
  }

  /** ASCII `str.lower()`. */
  function Lower(s: string): (r: string)
    ensures |r| == |s|
    ensures forall i :: 0 <= i < |s| ==> r[i] == if 'A' <= s[i] <= 'Z' then (s[i] as int + 32) as char else s[i]
  {
    seq(|s|, i requires 0 <= i < |s| => if 'A' <= s[i] <= 'Z' then (s[i] as int + 32) as char else s[i])
  }

  /** The number a bit string spells, least significant bit first. */
  function LsbValue(bits: seq<bool>): nat
  {
    if bits == [] then 0 else (if bits[0] then 1 else 0) + 2 * LsbValue(bits[1..])
  }

  /** `n` entries spell a number below `2^n`. */
  lemma {:induction false} LsbValueBound(bits: seq<bool>)
    ensures LsbValue(bits) < Pow2(|bits|)
    decreases |bits|
  {
    if bits != [] {
      LsbValueBound(bits[1..]);
    }
  }

  /** Bit `k` of the number is the `k`-th entry of the string, and clear past its end. */
  lemma {:induction false} LsbValueBits(bits: seq<bool>, k: nat)
    ensures BitAt(LsbValue(bits), k) <==> k < |bits| && bits[k]
    decreases |bits|
  {
    if bits == [] {
      assert 0 / Pow2(k) == 0;
    } else {
      var b := if bits[0] then 1 else 0;
      BitStep(b, LsbValue(bits[1..]), if k == 0 then 0 else k - 1);
      if k > 0 {
        LsbValueBits(bits[1..], k - 1);
      }
    }
  }

  /** The number a concatenation spells: the second part starts at bit `|a|`. */
  lemma {:induction false} LsbValueConcat(a: seq<bool>, b: seq<bool>)
    ensures LsbValue(a + b) == LsbValue(a) + Pow2(|a|) * LsbValue(b)
    decreases |a|
  {
    if a == [] {
      assert a + b == b;
    } else {
      var x := if a[0] then 1 else 0;
      assert (a + b)[0] == a[0] && (a + b)[1..] == a[1..] + b;
      assert LsbValue(a + b) == x + 2 * LsbValue(a[1..] + b);
      LsbValueConcat(a[1..], b);
      var p, lb := Pow2(|a| - 1), LsbValue(b);
      assert LsbValue(a) == x + 2 * LsbValue(a[1..]);
      assert Pow2(|a|) * lb == 2 * (p * lb) by {
        assert Pow2(|a|) == 2 * p;
        MulAssoc(2, p, lb);
      }
      assert 2 * (LsbValue(a[1..]) + p * lb) == 2 * LsbValue(a[1..]) + 2 * (p * lb) by {
        Distrib(2, LsbValue(a[1..]), p * lb);
      }
    }
  }

  /** Appending an entry adds it at the next power of two. */
  lemma {:induction false} LsbValueAppend(bits: seq<bool>, b: bool)
    ensures LsbValue(bits + [b]) == LsbValue(bits) + (if b then Pow2(|bits|) else 0)
    decreases |bits|
  {
    if bits != [] {
      assert (bits + [b])[1..] == bits[1..] + [b];
      LsbValueAppend(bits[1..], b);
    }
  }

  /** Python's `round(n / d)`: the nearest integer, ties to the even one.
      (The exact rational is meant; see README for the floating point caveat.) */
  function RoundHalfEven(n: int, d: int): (r: int)
    requires d > 0
    ensures 2 * (n - d * r) <= d && 2 * (d * r - n) <= d
    ensures (2 * (n - d * r) == d || 2 * (d * r - n) == d) ==> r % 2 == 0
  {
    var q, m := n / d, n % d;
    assert n == d * q + m;
    if 2 * m < d then q
    else if 2 * m > d then (assert d * (q + 1) == d * q + d; q + 1)
    else if q % 2 == 0 then q
    else (assert d * (q + 1) == d * q + d; q + 1)
  }

  /** Rounding to nearest never reverses the order of its arguments. */
  lemma RoundHalfEvenMonotonic(n1: int, n2: int, d: int)
    requires d > 0 && n1 <= n2
    ensures RoundHalfEven(n1, d) <= RoundHalfEven(n2, d)
  {
    var r1, r2 := RoundHalfEven(n1, d), RoundHalfEven(n2, d);
    if r1 > r2 {
      // d * r1 - d/2 <= n1 <= n2 <= d * r2 + d/2 with d * r1 >= d * r2 + d leaves no room
      MulStrict(d, r2, r1);
    }
  }

  lemma MulStrict(d: int, a: int, b: int)
    requires d > 0 && a <= b
    ensures d * a <= d * b
    ensures a < b ==> d * a + d <= d * b
  {
    var k := b - a;
    assert d * b == d * a + d * k;
  }

  /** `round(n / d)` is exact when `d` divides `n`. */
  lemma RoundHalfEvenExact(k: int, d: int)
    requires d > 0
    ensures RoundHalfEven(k * d, d) == k
  {
    var r := RoundHalfEven(k * d, d);
    assert d * k == k * d;
    if r > k {
      MulStrict(d, k, r);
    } else if r < k {
      MulStrict(d, r, k);
    }
  }

  predicate IsDigit(c: char) {
    '0' <= c <= '9'
  }

  predicate AllDigits(s: string) {
    forall i :: 0 <= i < |s| ==> IsDigit(s[i])
  }

  /** Python's `str(n)` for a natural number: its shortest decimal digits. */
  function NatToString(n: nat): (s: string)
    ensures |s| >= 1 && AllDigits(s)
    ensures n < 10 <==> |s| == 1
    decreases n
  {
    if n < 10 then [DigitChar(n)] else NatToString(n / 10) + [DigitChar(n % 10)]
  }

  function DigitChar(d: nat): (c: char)
    requires d < 10
    ensures IsDigit(c) && c as int - '0' as int == d
  {
    (d + '0' as int) as char
  }

  /** A lower-case hexadecimal digit, as `repr` writes it in `\xNN`. */
  function HexDigit(d: nat): (c: char)
    requires d < 16
    ensures c != ' ' && c != '%'
  {
    if d < 10 then ('0' as int + d) as char else ('a' as int + d - 10) as char
  }

  /** Python's `int(s)` on a string of decimal digits. */
  function DigitsValue(s: string): (n: nat)
    requires AllDigits(s)
    decreases |s|
  {
    if s == [] then 0 else 10 * DigitsValue(s[..|s| - 1]) + (s[|s| - 1] as int - '0' as int)
  }

  /** `int(str(n)) == n`. */
  lemma {:induction false} DigitsValueOfNatToString(n: nat)
    ensures DigitsValue(NatToString(n)) == n
    decreases n
  {
    var s := NatToString(n);
    if n >= 10 {
      DigitsValueOfNatToString(n / 10);
      assert s[..|s| - 1] == NatToString(n / 10);
    }
  }

  /** Python's `str(i)` for any integer. */
  function IntToString(i: int): (s: string)
    ensures |s| >= 1
    ensures i >= 0 ==> s == NatToString(i)
    ensures i < 0 ==> s == "-" + NatToString(-i)
  {
    if i < 0 then "-" + NatToString(-i) else NatToString(i)
  }
}

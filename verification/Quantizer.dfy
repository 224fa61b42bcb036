/** The block quantizer: one power-of-two scale per block and 8-bit codes with four exponent and
    three mantissa bits, over exact real arithmetic. A value is its sign and its magnitude, so that
    minus zero is kept. Rounding is to nearest, ties to even (section 4.3.1 of IEEE 754-2019). */
module Quantizer {
  import opened Basics

  /** A signed value: `-0` and `0` differ. */
  datatype Signed = Signed(neg: bool, mag: real)

  /** The 32-bit float nearest 1e-4, and the largest finite one. */
  const FLOOR: real := 13743895.0 / 137438953472.0
  const LARGEST: real := 340282346638528859811704183484516925440.0

  // ---- Scaling by powers of two.

  /** `x` times two to the `n`. */
  function Ldexp(x: real, n: int): real
    decreases if n < 0 then -n else n
  {
    if n == 0 then x else if n > 0 then Ldexp(2.0 * x, n - 1) else Ldexp(x / 2.0, n + 1)
  }

  lemma {:induction false} LdexpNext(x: real, n: int)
    ensures Ldexp(x, n + 1) == Ldexp(2.0 * x, n)
  {
    if n < 0 {
      assert Ldexp(2.0 * x, n) == Ldexp(x, n + 1);
    }
  }

  lemma {:induction false} LdexpTwice(x: real, a: int, b: int)
    ensures Ldexp(Ldexp(x, a), b) == Ldexp(x, a + b)
    decreases if a < 0 then -a else a
  {
    if a > 0 {
      LdexpTwice(2.0 * x, a - 1, b);
      LdexpNext(x, a + b - 1);
    } else if a < 0 {
      LdexpTwice(x / 2.0, a + 1, b);
      LdexpNext(x / 2.0, a + b);
    }
  }

  /** Scaling keeps order, and keeps sums. */
  lemma {:induction false} LdexpOrder(x: real, y: real, n: int)
    ensures (x <= y <==> Ldexp(x, n) <= Ldexp(y, n)) && (x < y <==> Ldexp(x, n) < Ldexp(y, n))
    decreases if n < 0 then -n else n
  {
    if n > 0 {
      LdexpOrder(2.0 * x, 2.0 * y, n - 1);
    } else if n < 0 {
      LdexpOrder(x / 2.0, y / 2.0, n + 1);
    }
  }

  lemma {:induction false} LdexpSum(x: real, y: real, n: int)
    ensures Ldexp(x, n) - Ldexp(y, n) == Ldexp(x - y, n) && Ldexp(0.0, n) == 0.0
    decreases if n < 0 then -n else n
  {
    if n > 0 {
      LdexpSum(2.0 * x, 2.0 * y, n - 1);
    } else if n < 0 {
      LdexpSum(x / 2.0, y / 2.0, n + 1);
    }
  }

  lemma LdexpBack(x: real, n: int)
    ensures Ldexp(Ldexp(x, n), -n) == x && Ldexp(Ldexp(x, -n), n) == x
  {
    LdexpTwice(x, n, -n);
    LdexpTwice(x, -n, n);
  }

  lemma LdexpSmall(x: real)
    ensures Ldexp(x, 0) == x && Ldexp(x, 1) == 2.0 * x
  {
  }

  lemma Up4(x: real, n: int)
    ensures Ldexp(x, n + 4) == Ldexp(16.0 * x, n)
  {
    LdexpNext(x, n + 3);
    LdexpNext(2.0 * x, n + 2);
    LdexpNext(4.0 * x, n + 1);
    LdexpNext(8.0 * x, n);
  }

  lemma Up3(x: real, n: int)
    ensures Ldexp(x, n + 3) == Ldexp(8.0 * x, n)
  {
    LdexpNext(x, n + 2);
    LdexpNext(2.0 * x, n + 1);
    LdexpNext(4.0 * x, n);
  }

  lemma Up16(x: real, n: int)
    ensures Ldexp(x, n + 16) == Ldexp(65536.0 * x, n)
  {
    Up4(x, n + 12);
    Up4(16.0 * x, n + 8);
    Up4(256.0 * x, n + 4);
    Up4(4096.0 * x, n);
  }

  /** Larger exponents give larger powers. */
  lemma {:induction false} PowerOrder(a: int, b: int)
    requires a <= b
    ensures Ldexp(1.0, a) <= Ldexp(1.0, b)
    decreases b - a
  {
    if a < b {
      PowerOrder(a, b - 1);
      LdexpNext(1.0, b - 1);
      LdexpOrder(1.0, 2.0, b - 1);
    }
  }

  /** Mantissa and exponent: the exponent is the least `e` with `a < 2^e`, searched from `e` down. */
  function Exponent(a: real, e: int, low: int): (r: int)
    requires low <= e && Ldexp(1.0, low) <= a < Ldexp(1.0, e)
    ensures low < r <= e && Ldexp(1.0, r - 1) <= a < Ldexp(1.0, r)
    decreases e - low
  {
    if a >= Ldexp(1.0, e - 1) then e else Exponent(a, e - 1, low)
  }

  // ---- The scale.

  /** What a block's largest magnitude can be, the floor included. */
  predicate InRange(a: real) {
    FLOOR <= a <= LARGEST
  }

  lemma Bounds(a: real)
    requires InRange(a)
    ensures Ldexp(1.0, -14) <= a < Ldexp(1.0, 128)
  {
    Small();
    Large();
  }

  lemma Small()
    ensures Ldexp(1.0, -14) == 1.0 / 16384.0 && Ldexp(448.0, -23) == 448.0 / 8388608.0
  {
    var c, d := 1.0 / 16384.0, 448.0 / 8388608.0;
    Up4(c, -4);
    Up4(16.0 * c, -8);
    Up4(256.0 * c, -12);
    LdexpNext(4096.0 * c, -13);
    LdexpNext(8192.0 * c, -14);
    Up16(d, -16);
    Up4(65536.0 * d, -20);
    Up3(1048576.0 * d, -23);
    assert Ldexp(c, 0) == c && Ldexp(d, 0) == d;
  }

  lemma Large()
    ensures Ldexp(1.0, 128) == 340282366920938463463374607431768211456.0
    ensures Ldexp(448.0, 120) == 448.0 * 1329227995784915872903807060280344576.0
  {
    Up64(1.0, 64);
    Up64(18446744073709551616.0, 0);
    Up64(448.0, 56);
    Up16(448.0 * 18446744073709551616.0, 40);
    Up16(448.0 * 18446744073709551616.0 * 65536.0, 24);
    Up16(448.0 * 18446744073709551616.0 * 4294967296.0, 8);
    Up4(448.0 * 18446744073709551616.0 * 281474976710656.0, 4);
    Up4(448.0 * 18446744073709551616.0 * 281474976710656.0 * 16.0, 0);
  }

  lemma Up64(x: real, n: int)
    ensures Ldexp(x, n + 64) == Ldexp(18446744073709551616.0 * x, n)
  {
    Up16(x, n + 48);
    Up16(65536.0 * x, n + 32);
    Up16(4294967296.0 * x, n + 16);
    Up16(281474976710656.0 * x, n);
  }

  /** The block's scale exponent, from the mantissa and exponent of its largest magnitude. */
  function ScaleExponent(a: real): int
    requires InRange(a)
  {
    Bounds(a);
    var e := Exponent(a, 128, -14);
    if Ldexp(a, -e) <= 0.875 then e - 9 else e - 8
  }

  lemma Eighths(e: int)
    ensures Ldexp(448.0, e - 9) == Ldexp(0.875, e)
  {
    Up4(0.875, e - 4);
    Up4(14.0, e - 8);
    LdexpNext(224.0, e - 9);
  }

  /** It is the least integer `k` with `a <= 448 * 2^k`. */
  lemma ScaleIsLeast(a: real)
    requires InRange(a)
    ensures a <= Ldexp(448.0, ScaleExponent(a)) && a > Ldexp(448.0, ScaleExponent(a) - 1)
  {
    hide Ldexp;
    Bounds(a);
    var e := Exponent(a, 128, -14);
    LdexpBack(a, e);
    LdexpBack(a, -e);
    LdexpOrder(Ldexp(a, -e), 0.875, e);
    Eighths(e);
    Eighths(e - 1);
    Eighths(e + 1);
    LdexpNext(0.875, e);
    LdexpNext(0.875, e - 1);
    LdexpNext(1.0, e - 1);
    LdexpOrder(1.0, 1.75, e);
    LdexpOrder(0.875, 1.0, e - 1);
  }

  /** No other integer is. */
  lemma ScaleUnique(a: real, k: int)
    requires InRange(a) && a <= Ldexp(448.0, k) && a > Ldexp(448.0, k - 1)
    ensures k == ScaleExponent(a)
  {
    hide Ldexp, ScaleExponent;
    ScaleIsLeast(a);
    var s := ScaleExponent(a);
    if k < s {
      GridOrder(k, s - 1);
    } else if s < k {
      GridOrder(s, k - 1);
    }
  }

  lemma {:induction false} GridOrder(a: int, b: int)
    requires a <= b
    ensures Ldexp(448.0, a) <= Ldexp(448.0, b)
    decreases b - a
  {
    if a < b {
      GridOrder(a, b - 1);
      LdexpNext(448.0, b - 1);
      LdexpOrder(448.0, 896.0, b - 1);
    }
  }

  /** The scale byte is within 105..247. */
  lemma ScaleByteRange(a: real)
    requires InRange(a)
    ensures 105 <= ScaleExponent(a) + 127 <= 247
  {
    hide Ldexp, ScaleExponent;
    ScaleIsLeast(a);
    var k := ScaleExponent(a);
    Small();
    Large();
    if k < -22 {
      GridOrder(k, -23);
    } else if k > 120 {
      GridOrder(120, k - 1);
    }
  }

  // ---- The codes.

  /** The magnitude a code stands for (its low seven bits). */
  function Mag(c: nat): real
    requires c < 127
  {
    if c / 8 == 0 then Ldexp((c % 8) as real, -9) else Ldexp(1.0 + (c % 8) as real / 8.0, c / 8 - 7)
  }

  /** Every code above the lowest range as a multiple of its binade's quantum. */
  lemma MagIs(c: nat)
    requires c < 127
    ensures c < 8 ==> Mag(c) == Ldexp(c as real, -9)
    ensures c >= 8 ==> Mag(c) == Ldexp((c % 8 + 8) as real, c / 8 - 10)
  {
    if c >= 8 {
      Up3(1.0 + (c % 8) as real / 8.0, c / 8 - 10);
    }
  }

  lemma MagStep(c: nat)
    requires c < 126
    ensures Mag(c) < Mag(c + 1)
  {
    hide Ldexp, Mag;
    MagIs(c);
    MagIs(c + 1);
    if c < 8 {
      LdexpOrder(c as real, (c + 1) as real, -9);
    } else if c % 8 == 7 {
      assert (c + 1) / 8 == c / 8 + 1 && (c + 1) % 8 == 0;
      LdexpNext(8.0, c / 8 - 10);
      LdexpOrder(15.0, 16.0, c / 8 - 10);
    } else {
      assert (c + 1) / 8 == c / 8 && (c + 1) % 8 == c % 8 + 1;
      LdexpOrder((c % 8 + 8) as real, (c % 8 + 9) as real, c / 8 - 10);
    }
  }

  /** Larger codes stand for larger magnitudes. */
  lemma {:induction false} MagOrder(c: nat, d: nat)
    requires c <= d < 127
    ensures Mag(c) <= Mag(d) && (c < d ==> Mag(c) < Mag(d))
    decreases d - c
  {
    hide Mag;
    if c < d {
      MagOrder(c, d - 1);
      MagStep(d - 1);
    }
  }

  function Abs(x: real): real { if x < 0.0 then -x else x }

  /** The nearest integer, the even one of two. */
  function Rint(x: real): int {
    var f := x.Floor;
    var d := x - f as real;
    if d < 0.5 then f else if d > 0.5 then f + 1 else if f % 2 == 0 then f else f + 1
  }

  /** Above the lowest range: the binade and the eighths, rounded, with the carry into the next binade. */
  function Carried(ay: real): (r: (int, int))
    requires Ldexp(1.0, -6) <= ay < Ldexp(1.0, 128)
    ensures r.0 >= -6 && 8 <= r.1 < 16
  {
    PowerOrder(-6, 128);
    var e := Exponent(ay, 128, -6) - 1;
    HighRange(ay, e);
    var r := Rint(Ldexp(ay, 3 - e));
    (if r == 16 then e + 1 else e, if r == 16 then 8 else r)
  }

  /** The guard of the defensive clamp at 448. */
  predicate Saturates(ay: real)
    requires 0.0 <= ay < Ldexp(1.0, 128)
  {
    ay >= Ldexp(1.0, -6) && (Carried(ay).0 > 8 || (Carried(ay).0 == 8 && Carried(ay).1 > 14))
  }

  /** The code of a magnitude: in the lowest range a multiple of `2^-9`, elsewhere a multiple of an
      eighth of its binade. */
  function Encode(ay: real): nat
    requires 0.0 <= ay < Ldexp(1.0, 128)
  {
    if ay < Ldexp(1.0, -6) then
      LowRange(ay);
      Rint(Ldexp(ay, 9))
    else if Saturates(ay) then 126
    else (Carried(ay).0 + 7) * 8 + (Carried(ay).1 - 8)
  }

  lemma LowRange(ay: real)
    requires 0.0 <= ay < Ldexp(1.0, -6)
    ensures 0 <= Ldexp(ay, 9).Floor < 8 && 0 <= Rint(Ldexp(ay, 9)) <= 8
  {
    hide Ldexp;
    LdexpTwice(1.0, -6, 9);
    LdexpOrder(ay, Ldexp(1.0, -6), 9);
    LdexpSum(0.0, 0.0, 9);
    LdexpOrder(0.0, ay, 9);
    Up3(1.0, 0);
    LdexpSmall(8.0);
  }

  /** In a binade the scaled magnitude lies in `[8, 16)`. */
  lemma HighRange(ay: real, e: int)
    requires Ldexp(1.0, e) <= ay < Ldexp(1.0, e + 1)
    ensures 8.0 <= Ldexp(ay, 3 - e) < 16.0
    ensures 8 <= Ldexp(ay, 3 - e).Floor < 16 && 8 <= Rint(Ldexp(ay, 3 - e)) <= 16
  {
    hide Ldexp;
    LdexpTwice(1.0, e, 3 - e);
    LdexpTwice(1.0, e + 1, 3 - e);
    LdexpOrder(Ldexp(1.0, e), ay, 3 - e);
    LdexpOrder(ay, Ldexp(1.0, e + 1), 3 - e);
    Up3(1.0, 0);
    Up4(1.0, 0);
    LdexpSmall(8.0);
    LdexpSmall(16.0);
  }

  /** The magnitude lies between two neighbouring codes, at `x` multiples of the quantum `2^q`;
      its code is the lower one or the upper one as `x` rounds. */
  ghost predicate Between(ay: real, lo: nat, q: int, x: real) {
    && 0.0 <= ay < Ldexp(1.0, 128) && lo < 126 && ay == Ldexp(x, q) && lo % 2 == x.Floor % 2
    && Mag(lo) == Ldexp(x.Floor as real, q) && Mag(lo + 1) == Ldexp((x.Floor + 1) as real, q)
    && Encode(ay) == lo + (Rint(x) - x.Floor)
    && ((q == -9 && x < 8.0) || x >= 8.0)
  }

  lemma Limit()
    ensures Mag(126) == 448.0 && Mag(126) == Ldexp(14.0, 5) && Ldexp(1.0, 9) == 512.0 && Mag(118) == 224.0
  {
    hide Ldexp;
    MagIs(126);
    MagIs(118);
    LdexpNext(14.0, 4);
    Up4(28.0, 0);
    Up4(14.0, 0);
    Up4(1.0, 5);
    Up4(16.0, 1);
    LdexpNext(256.0, 0);
    LdexpSmall(448.0);
    LdexpSmall(224.0);
    LdexpSmall(512.0);
  }

  lemma PlacedLow(ay: real) returns (lo: nat, q: int, x: real)
    requires 0.0 <= ay < Ldexp(1.0, -6) && ay < Ldexp(1.0, 128)
    ensures Between(ay, lo, q, x)
  {
    hide Ldexp, Mag;
    LowRange(ay);
    LdexpBack(ay, 9);
    q, x := -9, Ldexp(ay, 9);
    lo := x.Floor;
    MagIs(lo);
    MagIs(lo + 1);
    LdexpTwice(1.0, -6, 9);
    LdexpOrder(ay, Ldexp(1.0, -6), 9);
    Up3(1.0, 0);
    LdexpSmall(8.0);
  }

  lemma PlacedHigh(ay: real) returns (lo: nat, q: int, x: real)
    requires Ldexp(1.0, -6) <= ay < 448.0 && ay < Ldexp(1.0, 128)
    ensures Between(ay, lo, q, x)
  {
    hide Ldexp, Mag;
    var e := Exponent(ay, 128, -6) - 1;
    HighRange(ay, e);
    LdexpBack(ay, 3 - e);
    q, x := e - 3, Ldexp(ay, 3 - e);
    Limit();
    if e > 8 {
      PowerOrder(9, e);
    }
    if e == 8 {
      LdexpOrder(x, 14.0, 5);
    }
    lo := (e + 7) * 8 + (x.Floor - 8);
    assert lo / 8 == e + 7 && lo % 8 == x.Floor - 8;
    MagIs(lo);
    MagIs(lo + 1);
    if x.Floor == 15 {
      assert (lo + 1) / 8 == e + 8 && (lo + 1) % 8 == 0;
      LdexpNext(8.0, e - 3);
    } else {
      assert (lo + 1) / 8 == e + 7 && (lo + 1) % 8 == x.Floor - 7;
    }
    LdexpSum(0.0, 0.0, -6);
    LdexpOrder(0.0, 1.0, -6);
  }

  lemma Placed(ay: real) returns (lo: nat, q: int, x: real)
    requires 0.0 <= ay < 448.0 && ay < Ldexp(1.0, 128)
    ensures Between(ay, lo, q, x)
  {
    hide Between;
    if ay < Ldexp(1.0, -6) {
      lo, q, x := PlacedLow(ay);
    } else {
      lo, q, x := PlacedHigh(ay);
    }
  }

  lemma Below448()
    ensures 448.0 < Ldexp(1.0, 128)
  {
    Large();
  }

  lemma EncodeLimit()
    ensures 448.0 < Ldexp(1.0, 128) && Encode(448.0) == 126
  {
    hide Ldexp;
    Below448();
    Limit();
    PowerOrder(-6, 9);
    LdexpOrder(1.0, 14.0, 5);
    PowerOrder(-6, 5);
    var e := Exponent(448.0, 128, -6) - 1;
    LdexpNext(1.0, 8);
    LdexpNext(1.0, 7);
    assert Ldexp(1.0, 8) == 256.0 by {
      LdexpSum(2.0, 1.0, 8);
    }
    if e > 8 {
      PowerOrder(9, e);
    } else if e < 8 {
      PowerOrder(e + 1, 8);
    }
    LdexpTwice(14.0, 5, -5);
    LdexpSmall(14.0);
  }

  lemma Tie()
    ensures Ldexp(14.5, 5) == 464.0 && Ldexp(16.0, 5) == 512.0 && Ldexp(1.0, 8) == 256.0
  {
    hide Ldexp, Mag;
    Limit();
    LdexpSum(14.5, 14.0, 5);
    LdexpNext(0.5, 4);
    LdexpSum(2.0, 1.0, 8);
    LdexpNext(1.0, 8);
    Up4(1.0, 5);
    Up4(1.0, 0);
    LdexpSmall(16.0);
  }

  lemma CarriedAt(ay: real) returns (e: int, r: int)
    requires Ldexp(1.0, -6) <= ay < Ldexp(1.0, 128)
    ensures e >= -6 && Ldexp(1.0, e) <= ay < Ldexp(1.0, e + 1) && r == Rint(Ldexp(ay, 3 - e)) && 8 <= r <= 16
    ensures Carried(ay) == if r == 16 then (e + 1, 8) else (e, r)
  {
    hide Ldexp, Rint;
    PowerOrder(-6, 128);
    e := Exponent(ay, 128, -6) - 1;
    HighRange(ay, e);
    r := Rint(Ldexp(ay, 3 - e));
  }

  /** In the top binade 14.5 steps are 464, and round to 14. */
  lemma TopBinade(ay: real)
    ensures Rint(Ldexp(ay, -5)) > 14 <==> ay > 464.0
  {
    hide Ldexp;
    var x := Ldexp(ay, -5);
    LdexpBack(ay, -5);
    Tie();
    LdexpOrder(x, 14.5, 5);
    assert Rint(x) > 14 <==> x > 14.5;
  }

  /** The clamp is taken exactly past the tie between 448 and the next step. */
  lemma SaturatesAt(ay: real)
    requires 0.0 <= ay < Ldexp(1.0, 128)
    ensures Saturates(ay) <==> ay > 464.0
  {
    hide Ldexp, Mag, Carried, Rint;
    Limit();
    PowerOrder(-6, 8);
    Tie();
    if ay >= Ldexp(1.0, -6) {
      var e, r := CarriedAt(ay);
      if e > 8 {
        PowerOrder(9, e);
      } else if e < 8 {
        PowerOrder(e + 1, 8);
      } else {
        TopBinade(ay);
      }
    }
  }

  /** The code's magnitude is a nearest one on the grid; of two nearest it is the even code. Codes
      stay below the not-a-number ones. */
  lemma Nearest(ay: real, d: nat)
    requires 0.0 <= ay <= 448.0 && d < 127
    ensures ay < Ldexp(1.0, 128) && Encode(ay) < 127
    ensures Abs(Mag(Encode(ay)) - ay) <= Abs(Mag(d) - ay)
    ensures Abs(Mag(Encode(ay)) - ay) == Abs(Mag(d) - ay) && d != Encode(ay) ==> Encode(ay) % 2 == 0
  {
    hide Ldexp, Mag, Encode;
    Below448();
    if ay == 448.0 {
      EncodeLimit();
      Limit();
      MagOrder(d, 126);
    } else {
      var lo, q, x := Placed(ay);
      var f := x.Floor;
      Gaps(x, q);
      if d <= lo {
        MagOrder(d, lo);
      } else {
        MagOrder(lo + 1, d);
      }
    }
  }

  /** Distances to the two neighbours, scaled. */
  lemma Gaps(x: real, q: int)
    ensures var f, ay := x.Floor as real, Ldexp(x, q);
      && ay - Ldexp(f, q) >= 0.0 && Ldexp(f + 1.0, q) - ay > 0.0
      && (Rint(x) == x.Floor ==> ay - Ldexp(f, q) <= Ldexp(f + 1.0, q) - ay)
      && (Rint(x) == x.Floor + 1 ==> ay - Ldexp(f, q) >= Ldexp(f + 1.0, q) - ay)
      && (ay - Ldexp(f, q) == Ldexp(f + 1.0, q) - ay ==> Rint(x) % 2 == 0)
  {
    hide Ldexp;
    var f := x.Floor as real;
    LdexpSum(x, f, q);
    LdexpSum(f + 1.0, x, q);
    LdexpSum(0.0, 0.0, q);
    LdexpOrder(0.0, x - f, q);
    LdexpOrder(0.0, f + 1.0 - x, q);
    LdexpOrder(x - f, f + 1.0 - x, q);
    LdexpOrder(f + 1.0 - x, x - f, q);
  }

  /** A magnitude on the grid is its own code's. */
  lemma ExactOnGrid(c: nat)
    requires c < 127
    ensures 0.0 <= Mag(c) <= 448.0 && Mag(c) < Ldexp(1.0, 128) && Encode(Mag(c)) == c
  {
    hide Ldexp, Mag, Encode;
    Limit();
    MagOrder(c, 126);
    MagOrder(0, c);
    MagIs(0);
    LdexpSum(0.0, 0.0, -9);
    Nearest(Mag(c), c);
    var d := Encode(Mag(c));
    if d < c {
      MagOrder(d, c);
    } else {
      MagOrder(c, d);
    }
  }

  lemma LdexpDouble(x: real, n: int)
    ensures Ldexp(2.0 * x, n) == 2.0 * Ldexp(x, n)
  {
    LdexpSum(2.0 * x, x, n);
  }

  /** The error is at most a sixteenth of the magnitude, or half the lowest quantum. */
  lemma ErrorBound(ay: real)
    requires 0.0 <= ay <= 448.0
    ensures ay < Ldexp(1.0, 128) && Encode(ay) < 127
    ensures Abs(Mag(Encode(ay)) - ay) <= ay / 16.0 || Abs(Mag(Encode(ay)) - ay) <= Ldexp(1.0, -10)
  {
    hide Ldexp, Mag, Encode;
    Below448();
    if ay == 448.0 {
      EncodeLimit();
      Limit();
    } else {
      var lo, q, x := Placed(ay);
      var r := Rint(x) as real;
      assert Mag(Encode(ay)) == Ldexp(r, q);
      LdexpSum(r, x, q);
      LdexpSum(x, r, q);
      LdexpOrder(r - x, 0.5, q);
      LdexpOrder(x - r, 0.5, q);
      if x >= 8.0 {
        LdexpDouble(0.5, q);
        LdexpDouble(1.0, q);
        LdexpDouble(2.0, q);
        LdexpDouble(4.0, q);
        LdexpOrder(8.0, x, q);
      } else {
        LdexpNext(0.5, -10);
      }
    }
  }

  // ---- Blocks.

  function MaxMag(h: seq<Signed>): (a: real)
    ensures a >= 0.0 && forall i :: 0 <= i < |h| ==> h[i].mag <= a
    ensures a > 0.0 ==> exists i :: 0 <= i < |h| && h[i].mag == a
  {
    if h == [] then 0.0
    else
      var k := |h| - 1;
      var a := MaxMag(h[..k]);
      assert forall i :: 0 <= i < k ==> h[..k][i] == h[i];
      if h[k].mag > a then h[k].mag else a
  }

  /** A block of finite floats. */
  predicate Finite(h: seq<Signed>) {
    forall i :: 0 <= i < |h| ==> 0.0 <= h[i].mag <= LARGEST
  }

  function Largest(h: seq<Signed>): (a: real)
    requires Finite(h)
    ensures InRange(a)
  {
    if MaxMag(h) > FLOOR then MaxMag(h) else FLOOR
  }

  function BlockExponent(h: seq<Signed>): int
    requires Finite(h)
  {
    ScaleExponent(Largest(h))
  }

  /** Scaled to its block a magnitude is on the grid's range: saturation is unreachable. */
  lemma ScaledFits(h: seq<Signed>, i: nat)
    requires Finite(h) && i < |h|
    ensures 0.0 <= Ldexp(h[i].mag, -BlockExponent(h)) <= 448.0 && 448.0 < Ldexp(1.0, 128)
    ensures !Saturates(Ldexp(h[i].mag, -BlockExponent(h)))
  {
    hide Ldexp, ScaleExponent, Saturates;
    var k := BlockExponent(h);
    ScaleIsLeast(Largest(h));
    Below448();
    LdexpOrder(h[i].mag, Ldexp(448.0, k), -k);
    LdexpBack(448.0, k);
    LdexpSum(0.0, 0.0, -k);
    LdexpOrder(0.0, h[i].mag, -k);
    SaturatesAt(Ldexp(h[i].mag, -k));
  }

  /** One value through the quantizer and back, in its block. */
  function Requantized(h: seq<Signed>, i: nat): Signed
    requires Finite(h) && i < |h|
  {
    var k := BlockExponent(h);
    ScaledFits(h, i);
    Nearest(Ldexp(h[i].mag, -k), 0);
    Signed(h[i].neg, Ldexp(Mag(Encode(Ldexp(h[i].mag, -k))), k))
  }

  /** A block through the quantizer and back; a value outside the floats is a fault. */
  function Rebuilt(h: seq<Signed>): (r: Option<seq<Signed>>)
    requires Finite(h)
    ensures r.Some? ==> |r.value| == |h| && Finite(r.value) && forall i :: 0 <= i < |h| ==> r.value[i] == Requantized(h, i)
  {
    var r := seq(|h|, i requires 0 <= i < |h| => Requantized(h, i));
    forall i | 0 <= i < |h|
      ensures r[i].mag >= 0.0
    {
      NotNegative(h, i);
    }
    if forall i :: 0 <= i < |r| ==> r[i].mag <= LARGEST then Some(r) else None
  }

  lemma NotNegative(h: seq<Signed>, i: nat)
    requires Finite(h) && i < |h|
    ensures Requantized(h, i).mag >= 0.0
  {
    hide Ldexp, Encode, ScaleExponent;
    var k := BlockExponent(h);
    ScaledFits(h, i);
    Nearest(Ldexp(h[i].mag, -k), 0);
    var c := Encode(Ldexp(h[i].mag, -k));
    ExactOnGrid(c);
    hide Mag;
    LdexpOrder(0.0, Mag(c), k);
    LdexpSum(0.0, 0.0, k);
  }

  /** Each value keeps its sign and is off by at most a sixteenth of it, or by half the block's
      lowest quantum. */
  lemma BlockError(h: seq<Signed>, i: nat)
    requires Finite(h) && i < |h|
    ensures var r, k := Requantized(h, i), BlockExponent(h);
      && r.neg == h[i].neg
      && (Abs(r.mag - h[i].mag) <= h[i].mag / 16.0 || Abs(r.mag - h[i].mag) <= Ldexp(1.0, k - 10))
  {
    hide Ldexp, Mag, Encode, ScaleExponent;
    var k := BlockExponent(h);
    ScaledFits(h, i);
    var y := Ldexp(h[i].mag, -k);
    ErrorBound(y);
    var g := Mag(Encode(y));
    LdexpBack(h[i].mag, k);
    ScaledBound(g, y, y / 16.0, k);
    ScaledBound(g, y, Ldexp(1.0, -10), k);
    LdexpTwice(1.0, -10, k);
    Sixteenth(y, k);
  }

  lemma Sixteenth(y: real, k: int)
    ensures Ldexp(y / 16.0, k) == Ldexp(y, k) / 16.0
  {
    LdexpDouble(y / 16.0, k);
    LdexpDouble(y / 8.0, k);
    LdexpDouble(y / 4.0, k);
    LdexpDouble(y / 2.0, k);
  }

  lemma ScaledBound(g: real, y: real, b: real, k: int)
    ensures Abs(g - y) <= b ==> Abs(Ldexp(g, k) - Ldexp(y, k)) <= Ldexp(b, k)
  {
    hide Ldexp;
    LdexpSum(g, y, k);
    LdexpSum(y, g, k);
    LdexpOrder(g - y, b, k);
    LdexpOrder(y - g, b, k);
  }

  lemma TopHalf(c: nat)
    requires c < 127 && Mag(c) <= 224.0
    ensures c <= 118
  {
    hide Mag;
    Limit();
    MagOrder(if c < 118 then c else 118, if c < 118 then 118 else c);
  }

  /** Twice a grid magnitude that still fits is a grid magnitude. */
  lemma DoubleOnGrid(c: nat) returns (d: nat)
    requires c < 127 && 2.0 * Mag(c) <= 448.0
    ensures d < 127 && Mag(d) == 2.0 * Mag(c)
  {
    hide Ldexp, Mag;
    Limit();
    TopHalf(c);
    MagIs(c);
    if c < 8 {
      LdexpDouble(c as real, -9);
      d := 2 * c;
      MagIs(d);
      if c >= 4 {
        assert d / 8 == 1 && d % 8 + 8 == d;
      }
    } else {
      d := c + 8;
      assert d / 8 == c / 8 + 1 && d % 8 == c % 8;
      MagIs(d);
      LdexpNext((c % 8 + 8) as real, c / 8 - 10);
      LdexpDouble((c % 8 + 8) as real, c / 8 - 10);
    }
  }

  /** The scale of a rebuilt block is the block's, or one less. */
  lemma ScaleDropsAtMostOne(h: seq<Signed>)
    requires Finite(h) && Rebuilt(h).Some?
    ensures BlockExponent(h) - 1 <= BlockExponent(Rebuilt(h).value) <= BlockExponent(h)
  {
    hide Ldexp, Mag, Encode, ScaleExponent, Requantized, Rebuilt;
    var r := Rebuilt(h).value;
    var k, a, b := BlockExponent(h), Largest(h), Largest(r);
    ScaleIsLeast(a);
    MaxBelow(h, r, k);
    if a == FLOOR {
      ScaleUnique(b, k);
    } else {
      var j :| 0 <= j < |h| && h[j].mag == a;
      TopStays(h, j);
      assert r[j] == Requantized(h, j);
      LdexpNext(224.0, k - 1);
      if b > Ldexp(448.0, k - 1) {
        ScaleUnique(b, k);
      } else {
        GridStrict(k - 2);
        ScaleUnique(b, k - 1);
      }
    }
  }

  lemma GridStrict(n: int)
    ensures Ldexp(448.0, n) < Ldexp(448.0, n + 1)
  {
    hide Ldexp;
    LdexpNext(448.0, n);
    LdexpOrder(448.0, 896.0, n);
  }

  /** No rebuilt magnitude passes the block's limit. */
  lemma MaxBelow(h: seq<Signed>, r: seq<Signed>, k: int)
    requires Finite(h) && k == BlockExponent(h) && Finite(r) && |r| == |h| && forall i :: 0 <= i < |h| ==> r[i] == Requantized(h, i)
    ensures Largest(r) <= Ldexp(448.0, k)
  {
    hide Ldexp, Mag, Encode, ScaleExponent;
    ScaleIsLeast(Largest(h));
    forall i | 0 <= i < |r|
      ensures r[i].mag <= Ldexp(448.0, k)
    {
      ScaledFits(h, i);
      Nearest(Ldexp(h[i].mag, -k), 0);
      var c := Encode(Ldexp(h[i].mag, -k));
      ExactOnGrid(c);
      LdexpOrder(Mag(c), 448.0, k);
    }
  }

  /** The largest magnitude stays in the upper half of the block's range. */
  lemma TopStays(h: seq<Signed>, j: nat)
    requires Finite(h) && j < |h| && h[j].mag == Largest(h)
    ensures Requantized(h, j).mag >= Ldexp(224.0, BlockExponent(h))
  {
    hide Ldexp, Mag, Encode, ScaleExponent;
    var k, a := BlockExponent(h), Largest(h);
    ScaleIsLeast(a);
    ScaledFits(h, j);
    LdexpNext(224.0, k - 1);
    LdexpOrder(Ldexp(224.0, k), a, -k);
    LdexpBack(224.0, k);
    var y := Ldexp(a, -k);
    Limit();
    Nearest(y, 118);
    LdexpOrder(224.0, Mag(Encode(y)), k);
  }

  /** Quantizing a rebuilt block changes nothing, whichever scale it gets. */
  lemma Idempotent(h: seq<Signed>, i: nat)
    requires Finite(h) && Rebuilt(h).Some? && i < |h|
    ensures |Rebuilt(h).value| == |h| && Requantized(Rebuilt(h).value, i) == Rebuilt(h).value[i]
  {
    hide Ldexp, Mag, Encode, ScaleExponent, Rebuilt, Largest;
    var r := Rebuilt(h).value;
    var k, n := BlockExponent(h), BlockExponent(r);
    ScaleDropsAtMostOne(h);
    hide BlockExponent;
    var y := Ldexp(h[i].mag, -k);
    CodeOf(h, i);
    var c := Encode(y);
    assert r[i] == Signed(h[i].neg, Ldexp(Mag(c), k));
    LdexpTwice(Mag(c), k, -n);
    ScaledFits(r, i);
    if n == k {
      LdexpBack(Mag(c), k);
      ExactOnGrid(c);
    } else {
      LdexpNext(Mag(c), 0);
      LdexpSmall(Mag(c));
      var d := DoubleOnGrid(c);
      ExactOnGrid(d);
      LdexpNext(Mag(c), k - 1);
    }
  }

  lemma CodeOf(h: seq<Signed>, i: nat)
    requires Finite(h) && i < |h|
    ensures var k := BlockExponent(h); var y := Ldexp(h[i].mag, -k);
      0.0 <= y < Ldexp(1.0, 128) && Encode(y) < 127 && Requantized(h, i) == Signed(h[i].neg, Ldexp(Mag(Encode(y)), k))
  {
    ScaledFits(h, i);
    Nearest(Ldexp(h[i].mag, -BlockExponent(h)), 0);
  }
}

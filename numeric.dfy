/** Python's numeric conversions, written out over Dafny's exact reals. */
module Numeric {

  /** Python's int() on a float: truncation toward zero. */
  function Trunc(x: real): (r: int)
    ensures 0.0 <= x ==> r as real <= x < r as real + 1.0
    ensures x < 0.0 ==> r as real - 1.0 < x <= r as real
  {
    if x >= 0.0 then x.Floor else -((-x).Floor)
  }

  /** Python 2's round(): to the nearest integer, halves away from zero. */
  function Round(x: real): (r: int)
    ensures x - 0.5 <= r as real <= x + 0.5
    ensures 0.0 <= x ==> 0 <= r
    ensures x <= 0.0 ==> r <= 0
  {
    if x >= 0.0 then (x + 0.5).Floor else -((-x + 0.5).Floor)
  }

  /** Python's `x % 1` on a float: the fractional part, always in [0, 1). */
  function Frac(x: real): (r: real)
    ensures 0.0 <= r < 1.0
  {
    x - x.Floor as real
  }

  function Min(a: int, b: int): (r: int)
    ensures r <= a && r <= b && (r == a || r == b)
  {
    if a <= b then a else b
  }

  function Max(a: int, b: int): (r: int)
    ensures a <= r && b <= r && (r == a || r == b)
  {
    if a <= b then b else a
  }

  /** 2 to the n. */
  function Pow2(n: nat): (r: nat)
    ensures r >= 1
  {
    if n == 0 then 1 else 2 * Pow2(n - 1)
  }

  /** Bit i of x. */
  function Bit(x: nat, i: nat): (b: nat)
    ensures b < 2
  {
    (x / Pow2(i)) % 2
  }

  /** Python's | on non-negative integers. */
  function Or(a: nat, b: nat): (r: nat)
    decreases a + b
  {
    if a == 0 then b else if b == 0 then a else 2 * Or(a / 2, b / 2) + Max(a % 2, b % 2)
  }

  /** Euclidean division is unique: a quotient and a remainder in [0, m)
      that rebuild v are v / m and v % m. */
  lemma DivUnique(v: int, m: nat, q: int, t: int)
    requires m > 0 && 0 <= t < m && v == m * q + t
    ensures v / m == q && v % m == t
  {
    var q', t' := v / m, v % m;
    assert m * (q - q') == t' - t;
    if q - q' >= 1 {
      MulAtLeast(m, q - q');
    } else if q - q' <= -1 {
      MulAtLeast(m, q' - q);
    }
  }

  lemma MulAtLeast(m: nat, d: int)
    requires d >= 1
    ensures m * d >= m
  {
  }

  lemma DivDiv(x: nat, a: nat, b: nat)
    requires a > 0 && b > 0
    ensures x / a / b == x / (a * b)
  {
    var u, t := x / a, x % a;
    var q, r := u / b, u % b;
    assert x == a * u + t;
    assert u == b * q + r;
    MulAddRegroup(a, b, q, r);
    MulBelow(a, r, b);
    DivUnique(x, a * b, q, a * r + t);
  }

  /** a(bq + r) regrouped as (ab)q + ar. */
  lemma MulAddRegroup(a: int, b: int, q: int, r: int)
    ensures a * (b * q + r) == (a * b) * q + a * r
  {
  }

  /** ar + t stays below ab for a remainder r below b and t below a. */
  lemma MulBelow(a: nat, r: nat, b: nat)
    requires r < b
    ensures a * r + a <= a * b
  {
    assert a * b == a * r + a * (b - r);
    MulAtLeast(a, b - r);
  }

  /** Bit i of a | b is set when it is set in a or in b. */
  lemma {:induction false} OrBit(a: nat, b: nat, i: nat)
    ensures Bit(Or(a, b), i) == Max(Bit(a, i), Bit(b, i))
    decreases i
  {
    if a == 0 {
      assert Bit(a, i) == 0;
    } else if b == 0 {
      assert Bit(b, i) == 0;
    } else if i > 0 {
      var r := Or(a, b);
      assert r == 2 * Or(a / 2, b / 2) + Max(a % 2, b % 2);
      assert r / 2 == Or(a / 2, b / 2);
      DivDiv(r, 2, Pow2(i - 1));
      DivDiv(a, 2, Pow2(i - 1));
      DivDiv(b, 2, Pow2(i - 1));
      OrBit(a / 2, b / 2, i - 1);
    }
  }

  /** A bit set in a is set in a | b. */
  lemma OrSetsLeft(a: nat, b: nat, i: nat)
    requires Bit(a, i) == 1
    ensures Bit(Or(a, b), i) == 1
  {
    OrBit(a, b, i);
  }

  /** A bit set in b is set in a | b. */
  lemma OrSetsRight(a: nat, b: nat, i: nat)
    requires Bit(b, i) == 1
    ensures Bit(Or(a, b), i) == 1
  {
    OrBit(a, b, i);
  }

  /** Where b's bit is clear, a | b has a's bit. */
  lemma OrKeeps(a: nat, b: nat, i: nat)
    requires Bit(b, i) == 0
    ensures Bit(Or(a, b), i) == Bit(a, i)
  {
    OrBit(a, b, i);
  }

  /** 1 << k when c holds, else 0: a flag at bit k. */
  function Flag(c: bool, k: nat): (r: nat)
    ensures c ==> r == Pow2(k)
    ensures !c ==> r == 0
  {
    if c then Pow2(k) else 0
  }

  lemma FlagBit(c: bool, k: nat, i: nat)
    ensures Bit(Flag(c, k), i) == (if c && i == k then 1 else 0)
  {
    if c {
      BitOfPow(k, i);
    } else {
      assert Bit(0, i) == 0;
    }
  }

  lemma FlagBound(c: bool, k: nat, n: nat)
    requires k < n
    ensures Flag(c, k) < Pow2(n)
  {
    PowMonotone(k + 1, n);
  }

  /** When a fits below bit k, a | (b << k) is a plain sum. */
  lemma {:induction false} OrDisjoint(a: nat, b: nat, k: nat)
    requires a < Pow2(k)
    ensures Or(a, b * Pow2(k)) == a + b * Pow2(k)
  {
    if a != 0 && b != 0 {
      assert k > 0;
      var c := b * Pow2(k);
      assert c == 2 * (b * Pow2(k - 1));
      assert c / 2 == b * Pow2(k - 1) && c % 2 == 0;
      OrDisjoint(a / 2, b, k - 1);
    }
  }

  /** A | of two values below 2^n stays below 2^n. */
  lemma {:induction false} OrBound(a: nat, b: nat, n: nat)
    requires a < Pow2(n) && b < Pow2(n)
    ensures Or(a, b) < Pow2(n)
  {
    if a != 0 && b != 0 {
      OrBound(a / 2, b / 2, n - 1);
    }
  }
  lemma {:induction false} OrComm(a: nat, b: nat)
    ensures Or(a, b) == Or(b, a)
    decreases a + b
  {
    if a != 0 && b != 0 {
      OrComm(a / 2, b / 2);
    }
  }

  /** Setting bits never makes a value smaller. */
  lemma {:induction false} OrAtLeast(a: nat, b: nat)
    ensures a <= Or(a, b) && b <= Or(a, b)
    decreases a + b
  {
    if a != 0 && b != 0 {
      OrAtLeast(a / 2, b / 2);
    }
  }

  /** A value with bit i set is at least 2^i. */
  lemma BitSetAtLeast(x: nat, i: nat)
    requires Bit(x, i) == 1
    ensures x >= Pow2(i)
  {
    var p := Pow2(i);
    var q := x / p;
    assert q % 2 == 1;
    assert x == p * q + x % p;
    MulAtLeast(p, q);
  }

  lemma {:induction false} Pow2Add(a: nat, b: nat)
    ensures Pow2(a + b) == Pow2(a) * Pow2(b)
  {
    if b > 0 {
      Pow2Add(a, b - 1);
      assert Pow2(a + b) == 2 * Pow2(a + b - 1);
    }
  }

  lemma {:induction false} PowMonotone(a: nat, b: nat)
    requires a <= b
    ensures Pow2(a) <= Pow2(b)
  {
    if a < b {
      PowMonotone(a, b - 1);
    }
  }

  /** The bits of b << k below k are clear. */
  lemma BitBelowShift(b: nat, k: nat, i: nat)
    requires i < k
    ensures Bit(b * Pow2(k), i) == 0
  {
    var p := Pow2(i);
    var m := Pow2(k - i - 1);
    Pow2Add(i, k - i);
    assert Pow2(k - i) == 2 * m;
    var q := 2 * (b * m);
    assert b * Pow2(k) == p * q by {
      assert Pow2(k) == p * (2 * m);
    }
    DivUnique(b * Pow2(k), p, q, 0);
    assert q % 2 == 0;
  }

  /** 2^k has exactly bit k set. */
  lemma BitOfPow(k: nat, i: nat)
    ensures Bit(Pow2(k), i) == (if i == k then 1 else 0)
  {
    if i < k {
      BitBelowShift(1, k, i);
    } else if i == k {
      DivUnique(Pow2(k), Pow2(k), 1, 0);
    } else {
      PowMonotone(k + 1, i);
      DivUnique(Pow2(k), Pow2(i), 0, Pow2(k));
    }
  }
  /** 2^k is 2^i times an even number, for i below k. */
  lemma Pow2Even(k: nat, i: nat)
    requires i < k
    ensures Pow2(k) == Pow2(i) * (2 * Pow2(k - i - 1))
  {
    Pow2Add(i, k - i);
  }

  /** Adding a multiple of 2p to a leaves the parity of a / p alone. */
  lemma QuotientParity(a: nat, b: nat, p: nat, n: nat, big: nat)
    requires p > 0 && big == p * (2 * n)
    ensures (a + b * big) / p % 2 == (a / p) % 2
  {
    var u, t := a / p, a % p;
    var y := b * n;
    assert b * big == p * (2 * y) by {
      MulSwap(b, p, 2 * n);
    }
    var q := u + 2 * y;
    assert a + b * big == p * q + t;
    DivUnique(a + b * big, p, q, t);
    DivUnique(q, 2, u / 2 + y, u % 2);
  }

  lemma MulSwap(x: int, y: int, z: int)
    ensures x * (y * z) == y * (x * z)
  {
  }

  /** The bits of a + (b << k) below k are a's. */
  lemma BitSplitLow(a: nat, b: nat, k: nat, i: nat)
    requires i < k
    ensures Bit(a + b * Pow2(k), i) == Bit(a, i)
  {
    Pow2Even(k, i);
    QuotientParity(a, b, Pow2(i), Pow2(k - i - 1), Pow2(k));
  }

  /** The bits of a + (b << k) from k on are b's, for a below 2^k. */
  lemma BitSplitHigh(a: nat, b: nat, k: nat, i: nat)
    requires a < Pow2(k) && k <= i
    ensures Bit(a + b * Pow2(k), i) == Bit(b, i - k)
  {
    var big := Pow2(k);
    var m := Pow2(i - k);
    assert Pow2(i) == big * m by {
      Pow2Add(k, i - k);
    }
    var x := a + b * big;
    DivUnique(x, big, b, a);
    DivDiv(x, big, m);
  }

  lemma BitSplit(a: nat, b: nat, k: nat, i: nat)
    requires a < Pow2(k)
    ensures Bit(a + b * Pow2(k), i) == if i < k then Bit(a, i) else Bit(b, i - k)
  {
    if i < k {
      BitSplitLow(a, b, k, i);
    } else {
      BitSplitHigh(a, b, k, i);
    }
  }
}

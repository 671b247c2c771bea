/** Bitwise operations on natural numbers, digit by digit. */
module Bits {
  function Pow2(k: nat): (r: nat)
    ensures r >= 1
  {
    if k == 0 then 1 else 2 * Pow2(k - 1)
  }

  function Xor(a: nat, b: nat): nat
    decreases a + b
  {
    if a == 0 && b == 0 then 0 else 2 * Xor(a / 2, b / 2) + if a % 2 != b % 2 then 1 else 0
  }

  function Or(a: nat, b: nat): nat
    decreases a + b
  {
    if a == 0 && b == 0 then 0
    else 2 * Or(a / 2, b / 2) + if a % 2 == 1 || b % 2 == 1 then 1 else 0
  }

  function And(a: nat, b: nat): nat
    decreases a + b
  {
    if a == 0 && b == 0 then 0
    else 2 * And(a / 2, b / 2) + if a % 2 == 1 && b % 2 == 1 then 1 else 0
  }

  /** The shift to the right by `j`. */
  function Shr(x: nat, j: nat): nat {
    if j == 0 then x else Shr(x / 2, j - 1)
  }

  lemma {:induction false} Pow2Adds(j: nat, k: nat)
    ensures Pow2(j + k) == Pow2(j) * Pow2(k)
  {
    if j > 0 {
      Pow2Adds(j - 1, k);
      assert Pow2(j + k) == 2 * Pow2(j - 1 + k);
    }
  }

  lemma {:induction false} Pow2Monotone(j: nat, k: nat)
    requires j <= k
    ensures Pow2(j) <= Pow2(k)
  {
    if j < k {
      Pow2Monotone(j, k - 1);
    }
  }

  lemma {:induction false} XorSelf(a: nat)
    ensures Xor(a, a) == 0
  {
    if a > 0 {
      XorSelf(a / 2);
    }
  }

  lemma XorUnfold(a: nat, b: nat)
    ensures Xor(a, b) == 2 * Xor(a / 2, b / 2) + if a % 2 != b % 2 then 1 else 0
  {
  }

  lemma Halves(x: nat, digit: nat)
    requires digit < 2
    ensures (2 * x + digit) / 2 == x && (2 * x + digit) % 2 == digit
  {
  }

  lemma {:induction false} XorCancels(a: nat, b: nat)
    ensures Xor(Xor(a, b), b) == a
    decreases a + b
  {
    hide Xor;
    XorUnfold(a, b);
    XorUnfold(Xor(a, b), b);
    Halves(Xor(a / 2, b / 2), if a % 2 != b % 2 then 1 else 0);
    if a + b > 0 {
      XorCancels(a / 2, b / 2);
    }
  }

  lemma {:induction false} XorCommutes(a: nat, b: nat)
    ensures Xor(a, b) == Xor(b, a)
    decreases a + b
  {
    if a + b > 0 {
      XorCommutes(a / 2, b / 2);
    }
  }

  lemma {:induction false} XorZero(a: nat)
    ensures Xor(a, 0) == a
  {
    if a > 0 {
      XorZero(a / 2);
    }
  }

  lemma {:induction false} XorBound(a: nat, b: nat, k: nat)
    requires a < Pow2(k) && b < Pow2(k)
    ensures Xor(a, b) < Pow2(k)
  {
    if k > 0 && a + b > 0 {
      XorBound(a / 2, b / 2, k - 1);
    }
  }

  lemma Double(a: nat, p: nat)
    ensures 2 * (a * p) == a * (2 * p)
  {
  }

  /** The digits of `a` followed by `k` digits of `b`. */
  function Append(a: nat, b: nat, k: nat): nat {
    if k == 0 then a else 2 * Append(a, b / 2, k - 1) + b % 2
  }

  lemma {:induction false} AppendIs(a: nat, b: nat, k: nat)
    requires b < Pow2(k)
    ensures Append(a, b, k) == a * Pow2(k) + b
  {
    if k > 0 {
      AppendIs(a, b / 2, k - 1);
      Double(a, Pow2(k - 1));
    }
  }

  lemma XorDigits(x: nat, p: nat, y: nat, q: nat)
    requires p < 2 && q < 2
    ensures Xor(2 * x + p, 2 * y + q) == 2 * Xor(x, y) + if p != q then 1 else 0
  {
    hide Xor;
    Halves(x, p);
    Halves(y, q);
    XorUnfold(2 * x + p, 2 * y + q);
  }

  lemma {:induction false} XorAppend(a: nat, b: nat, c: nat, d: nat, k: nat)
    ensures Xor(Append(a, b, k), Append(c, d, k)) == Append(Xor(a, c), Xor(b, d), k)
  {
    hide Xor;
    if k > 0 {
      XorAppend(a, b / 2, c, d / 2, k - 1);
      XorDigits(Append(a, b / 2, k - 1), b % 2, Append(c, d / 2, k - 1), d % 2);
      XorUnfold(b, d);
      Halves(Xor(b / 2, d / 2), if b % 2 != d % 2 then 1 else 0);
    }
  }

  lemma OrUnfold(a: nat, b: nat)
    ensures Or(a, b) == 2 * Or(a / 2, b / 2) + if a % 2 == 1 || b % 2 == 1 then 1 else 0
  {
  }

  lemma OrDigits(x: nat, p: nat, y: nat, q: nat)
    requires p < 2 && q < 2
    ensures Or(2 * x + p, 2 * y + q) == 2 * Or(x, y) + if p == 1 || q == 1 then 1 else 0
  {
    hide Or;
    Halves(x, p);
    Halves(y, q);
    OrUnfold(2 * x + p, 2 * y + q);
  }

  lemma {:induction false} OrAppend(a: nat, b: nat, c: nat, d: nat, k: nat)
    ensures Or(Append(a, b, k), Append(c, d, k)) == Append(Or(a, c), Or(b, d), k)
  {
    hide Or;
    if k > 0 {
      OrAppend(a, b / 2, c, d / 2, k - 1);
      OrDigits(Append(a, b / 2, k - 1), b % 2, Append(c, d / 2, k - 1), d % 2);
      OrUnfold(b, d);
      Halves(Or(b / 2, d / 2), if b % 2 == 1 || d % 2 == 1 then 1 else 0);
    }
  }

  /** Low and high digits combine separately. */
  lemma XorSplit(a: nat, b: nat, c: nat, d: nat, k: nat)
    requires b < Pow2(k) && d < Pow2(k)
    ensures Xor(b, d) < Pow2(k)
    ensures Xor(a * Pow2(k) + b, c * Pow2(k) + d) == Xor(a, c) * Pow2(k) + Xor(b, d)
  {
    XorBound(b, d, k);
    XorAppend(a, b, c, d, k);
    AppendIs(a, b, k);
    AppendIs(c, d, k);
    AppendIs(Xor(a, c), Xor(b, d), k);
  }

  lemma OrSplit(a: nat, b: nat, c: nat, d: nat, k: nat)
    requires b < Pow2(k) && d < Pow2(k) && Or(b, d) < Pow2(k)
    ensures Or(a * Pow2(k) + b, c * Pow2(k) + d) == Or(a, c) * Pow2(k) + Or(b, d)
  {
    OrAppend(a, b, c, d, k);
    AppendIs(a, b, k);
    AppendIs(c, d, k);
    AppendIs(Or(a, c), Or(b, d), k);
  }

  lemma {:induction false} OrOnes(b: nat, k: nat)
    requires b < Pow2(k)
    ensures Or(b, Pow2(k) - 1) == Pow2(k) - 1
    ensures Or(Pow2(k) - 1, b) == Pow2(k) - 1
  {
    if k > 0 {
      var p := Pow2(k - 1);
      assert Pow2(k) == 2 * p;
      hide Or, Pow2;
      OrOnes(b / 2, k - 1);
      OrUnfold(b, 2 * p - 1);
      OrUnfold(2 * p - 1, b);
      assert (2 * p - 1) / 2 == p - 1;
    }
  }

  lemma {:induction false} OrZero(a: nat)
    ensures Or(a, 0) == a && Or(0, a) == a
  {
    if a > 0 {
      OrZero(a / 2);
    }
  }

  lemma AndUnfold(a: nat, b: nat)
    ensures And(a, b) == 2 * And(a / 2, b / 2) + if a % 2 == 1 && b % 2 == 1 then 1 else 0
  {
  }

  lemma AndOnes(a: nat, p: nat)
    requires p > 0
    ensures And(a, 2 * p - 1) == 2 * And(a / 2, p - 1) + a % 2
  {
    hide And;
    AndUnfold(a, 2 * p - 1);
  }

  lemma MaskStep(a: nat, p: nat, m: nat)
    requires p > 0 && m == 2 * p && And(a / 2, p - 1) == a / 2 % p
    ensures And(a, m - 1) == a % m
  {
    hide And;
    AndOnes(a, p);
    HalfModulo(a, p);
  }

  /** Masking with a power of two less one is the remainder. */
  lemma {:induction false} AndMask(a: nat, k: nat)
    ensures And(a, Pow2(k) - 1) == a % Pow2(k)
  {
    if k == 0 {
      AndZero(a);
    } else {
      AndMask(a / 2, k - 1);
      MaskStep(a, Pow2(k - 1), Pow2(k));
    }
  }

  lemma {:induction false} AndZero(a: nat)
    ensures And(a, 0) == 0
  {
    if a > 0 {
      AndZero(a / 2);
    }
  }

  lemma HalfModulo(a: nat, p: nat)
    requires p > 0
    ensures a % (2 * p) == 2 * (a / 2 % p) + a % 2
  {
    var q := a / 2 / p;
    var r := 2 * (a / 2 % p) + a % 2;
    assert a / 2 == q * p + a / 2 % p;
    Double(q, p);
    assert a == q * (2 * p) + r;
    Quotient(a, q, r, 2 * p);
  }

  lemma AtLeast(k: int, m: nat)
    requires k >= 1
    ensures k * m >= m
  {
    assert k * m == (k - 1) * m + m;
  }

  /** A quotient and a remainder in range are the quotient and the remainder. */
  lemma Quotient(a: int, q: int, r: int, m: nat)
    requires m > 0 && a == q * m + r && 0 <= r < m
    ensures a / m == q && a % m == r
  {
    var d := a / m - q;
    assert d * m == r - a % m;
    if d >= 1 {
      AtLeast(d, m);
    } else if d <= -1 {
      AtLeast(-d, m);
    }
  }

  lemma MulMonotone(a: int, b: int, m: nat)
    requires a <= b
    ensures a * m <= b * m
  {
    assert b * m - a * m == (b - a) * m;
  }

  lemma Scaled(r: nat, q: nat, s: nat, p: nat)
    requires r < q && s < p
    ensures r * p + s < p * q
  {
    AtLeast(q - r, p);
  }

  lemma DivMod(x: nat, p: nat)
    requires p > 0
    ensures x == x / p * p + x % p && x % p < p
  {
  }

  lemma DivDiv(x: nat, p: nat, q: nat)
    requires p > 0 && q > 0
    ensures p * q > 0 && x / p / q == x / (p * q)
  {
    var a := x / p / q;
    var r := x / p % q;
    var s := x % p;
    assert x == (a * q + r) * p + s;
    assert (a * q + r) * p + s == a * (p * q) + (r * p + s);
    Scaled(r, q, s, p);
    Quotient(x, a, r * p + s, p * q);
  }

  lemma {:induction false} ShrIs(x: nat, j: nat)
    ensures Shr(x, j) == x / Pow2(j)
  {
    if j > 0 {
      ShrIs(x / 2, j - 1);
      DivDiv(x, 2, Pow2(j - 1));
    }
  }

  lemma {:induction false} ShrTwice(x: nat, j: nat, k: nat)
    ensures Shr(Shr(x, j), k) == Shr(x, j + k)
  {
    if j > 0 {
      ShrTwice(x / 2, j - 1, k);
    }
  }

  lemma {:induction false} ShrXor(x: nat, y: nat, j: nat)
    ensures Shr(Xor(x, y), j) == Xor(Shr(x, j), Shr(y, j))
  {
    if j > 0 {
      XorUnfold(x, y);
      ShrXor(x / 2, y / 2, j - 1);
    }
  }

  lemma {:induction false} ShrZero(x: nat, j: nat)
    requires x < Pow2(j)
    ensures Shr(x, j) == 0
  {
    if j > 0 {
      ShrZero(x / 2, j - 1);
    }
  }

  lemma {:induction false} ShrOr(x: nat, y: nat, j: nat)
    ensures Shr(Or(x, y), j) == Or(Shr(x, j), Shr(y, j))
  {
    if j > 0 {
      OrUnfold(x, y);
      ShrOr(x / 2, y / 2, j - 1);
    }
  }

  lemma {:induction false} ShrAppend(a: nat, b: nat, k: nat)
    ensures Shr(Append(a, b, k), k) == a
  {
    if k > 0 {
      ShrAppend(a, b / 2, k - 1);
    }
  }

  lemma {:induction false} MaskAppend(a: nat, b: nat, k: nat)
    requires b < Pow2(k)
    ensures And(Append(a, b, k), Pow2(k) - 1) == b
  {
    hide And;
    if k == 0 {
      AndZero(a);
    } else {
      MaskAppend(a, b / 2, k - 1);
      AndUnfold(Append(a, b, k), Pow2(k) - 1);
      Halves(Append(a, b / 2, k - 1), b % 2);
      Halves(Pow2(k - 1) - 1, 1);
    }
  }

  /** Any number is its high digits followed by its low digits. */
  lemma {:induction false} Rejoin(x: nat, k: nat)
    ensures And(x, Pow2(k) - 1) < Pow2(k)
    ensures x == Append(Shr(x, k), And(x, Pow2(k) - 1), k)
  {
    hide And;
    if k == 0 {
      AndZero(x);
    } else {
      Rejoin(x / 2, k - 1);
      Halves(Pow2(k - 1) - 1, 1);
      AndUnfold(x, Pow2(k) - 1);
      Halves(And(x / 2, Pow2(k - 1) - 1), x % 2);
    }
  }

  /** High digits alone decide whether a number is below a power of two. */
  lemma {:induction false} AppendBelow(a: nat, b: nat, k: nat, j: nat)
    requires b < Pow2(k)
    ensures Append(a, b, k) < Pow2(k + j) <==> a < Pow2(j)
  {
    if k > 0 {
      AppendBelow(a, b / 2, k - 1, j);
    }
  }
}

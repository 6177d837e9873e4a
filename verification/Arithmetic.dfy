/** Division and multiplication of natural numbers, one step at a time. */
module Arithmetic {
  /** Division by repeated subtraction: the quotient, kept out of the nonlinear arithmetic of the prover. */
  function Quotient(a: nat, b: nat): nat
    requires b > 0
  {
    if a < b then 0 else 1 + Quotient(a - b, b)
  }

  /** Multiplication by repeated addition, for the same reason. */
  function Times(a: nat, b: nat): nat {
    if a == 0 then 0 else b + Times(a - 1, b)
  }

  lemma Spread(a: nat, b: nat, c: nat)
    ensures a * (b + c) == a * b + a * c
  {
  }

  lemma {:induction false} TimesIs(a: nat, b: nat)
    ensures Times(a, b) == a * b
  {
    if a > 0 {
      TimesIs(a - 1, b);
      Spread(b, a - 1, 1);
    }
  }

  lemma Floor(a: nat, b: nat)
    requires b > 0
    ensures b * (a / b) <= a < b * (a / b) + b
  {
  }

  lemma Remainder(a: nat, b: nat)
    requires b > 0
    ensures a == b * (a / b) + a % b && a % b < b
  {
  }

  lemma Natural(a: nat, b: nat)
    ensures 0 <= a * b
  {
  }

  lemma MulLe(a: nat, b: nat, c: nat)
    requires a <= b
    ensures c * a <= c * b && a * c <= b * c
  {
  }

  lemma Regroup(a: nat, b: nat, c: nat)
    ensures a * (b * c) == a * b * c
  {
  }

  lemma Difference(k: nat, a: nat, b: nat)
    requires a <= b
    ensures k * (b - a) == k * b - k * a
  {
  }

  /** The quotient is the only number whose multiple is that close. */
  lemma FloorIs(a: nat, b: nat, q: nat)
    requires b > 0 && b * q <= a < b * q + b
    ensures a / b == q
  {
    Floor(a, b);
    if a / b < q {
      MulLe(a / b + 1, q, b);
    } else if a / b > q {
      MulLe(q + 1, a / b, b);
    }
  }

  lemma {:induction false} QuotientIs(a: nat, b: nat)
    requires b > 0
    ensures Quotient(a, b) == a / b
  {
    if a < b {
      FloorIs(a, b, 0);
    } else {
      QuotientIs(a - b, b);
      Floor(a - b, b);
      Spread(b, (a - b) / b, 1);
      FloorIs(a, b, 1 + (a - b) / b);
    }
  }

  lemma QuotientFloor(a: nat, b: nat)
    requires b > 0
    ensures b * Quotient(a, b) <= a < b * Quotient(a, b) + b
  {
    QuotientIs(a, b);
    Floor(a, b);
  }

  /** Quotient and remainder are determined by their defining equation. */
  lemma DivMod(a: nat, b: nat, q: nat, r: nat)
    requires a == b * q + r && r < b
    ensures a / b == q && a % b == r
  {
    FloorIs(a, b, q);
    Remainder(a, b);
  }

  lemma Below(k: nat, x: nat, z: nat)
    requires k * x < k * z + k
    ensures x <= z
  {
    Spread(k, z, 1);
    if x > z {
      MulLe(z + 1, x, k);
    }
  }

  lemma QuotientOrder(a: nat, b: nat, k: nat)
    requires k > 0 && a <= b
    ensures Quotient(a, k) <= Quotient(b, k)
  {
    QuotientFloor(a, k);
    QuotientFloor(b, k);
    Below(k, Quotient(a, k), Quotient(b, k));
  }

  lemma AtLeast(a: nat, k: nat, n: nat)
    requires k > 0 && n * k <= a
    ensures n <= Quotient(a, k)
  {
    QuotientFloor(a, k);
    Below(k, n, Quotient(a, k));
  }

  lemma QuotientUnique(a: nat, b: nat, q: nat)
    requires b > 0 && b * q <= a < b * q + b
    ensures Quotient(a, b) == q
  {
    QuotientFloor(a, b);
    Below(b, q, Quotient(a, b));
    Below(b, Quotient(a, b), q);
  }

  lemma Nested(a: nat, b: nat, c: nat, x: nat, q: nat)
    requires b * x <= a < b * x + b && c * q <= x < c * q + c
    ensures b * (c * q) <= a < b * (c * q) + b * c
  {
    MulLe(c * q, x, b);
    MulLe(x + 1, c * q + c, b);
    Spread(b, c * q, c);
    Spread(b, x, 1);
  }

  /** Two divisions in a row are one. */
  lemma QuotientTwice(a: nat, b: nat, c: nat)
    requires b > 0 && c > 0
    ensures b * c > 0 && Quotient(Quotient(a, b), c) == Quotient(a, b * c)
  {
    var x := Quotient(a, b);
    var q := Quotient(x, c);
    QuotientFloor(a, b);
    QuotientFloor(x, c);
    Nested(a, b, c, x, q);
    Regroup(b, c, q);
    MulLe(1, c, b);
    QuotientUnique(a, b * c, q);
  }
}

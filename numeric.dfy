/** Integer arithmetic as Go performs it on the target: division that
    truncates toward zero, and 16-bit signed wrap-around. Dafny's own `/`
    on `int` is Euclidean, so every Go `/` in the model goes through Quot. */
module Numeric {

  /** The machine width of Go's `int16`. */
  newtype int16 = i: int | -0x8000 <= i < 0x8000

  function Abs(a: int): (r: nat)
    ensures r == a || r == -a
  {
    if a < 0 then -a else a
  }

  function Min(a: int, b: int): (r: int)
    ensures r <= a && r <= b && (r == a || r == b)
  {
    if a < b then a else b
  }

  /** Go's `a / b` on signed integers: the quotient truncated toward zero.
      Its remainder is smaller than the divisor and carries the sign of
      the dividend, which is what sets it apart from Euclidean division. */
  function Quot(a: int, b: int): (q: int)
    requires b != 0
    ensures Abs(a - q * b) < Abs(b)
    ensures a - q * b == 0 || (a - q * b < 0 <==> a < 0)
  {
    var m := Abs(a) / Abs(b);
    QuotientParts(Abs(a), Abs(b));
    if a < 0 && b < 0 then
      assert a - m * b == -(Abs(a) - m * Abs(b));
      m
    else if a < 0 then
      assert a - (-m) * b == -(Abs(a) - m * Abs(b));
      -m
    else if b < 0 then
      assert a - (-m) * b == Abs(a) - m * Abs(b);
      -m
    else
      m
  }

  /** Euclidean division of a natural leaves a remainder below the divisor. */
  lemma QuotientParts(n: nat, d: nat)
    requires d > 0
    ensures 0 <= n - (n / d) * d < d
  {
  }

  /** Euclidean division of naturals by a positive divisor is monotone. */
  lemma {:induction false} DivMonotone(x: nat, y: nat, b: int)
    requires b > 0 && x <= y
    ensures x / b <= y / b
  {
    QuotientParts(x, b);
    QuotientParts(y, b);
    if x / b > y / b {
      MulMonotone(y / b + 1, x / b, b);
    }
  }

  lemma MulMonotone(i: int, j: int, b: int)
    requires i <= j && b > 0
    ensures i * b <= j * b
  {
  }

  /** Dividing by a positive divisor with truncation never reverses order. */
  lemma {:induction false} QuotMonotone(a1: int, a2: int, b: int)
    requires b > 0 && a1 <= a2
    ensures Quot(a1, b) <= Quot(a2, b)
  {
    QuotByPositive(a1, b);
    QuotByPositive(a2, b);
    if 0 <= a1 {
      DivMonotone(a1, a2, b);
    } else if a2 < 0 {
      DivMonotone(-a2, -a1, b);
    } else {
      DivNonNegative(-a1, b);
      DivNonNegative(a2, b);
    }
  }

  /** A natural divided by a positive divisor is a natural. */
  lemma DivNonNegative(n: nat, b: int)
    requires b > 0
    ensures n / b >= 0
  {
  }

  /** With a positive divisor, truncation is floor division of the magnitude. */
  lemma QuotByPositive(a: int, b: int)
    requires b > 0
    ensures Quot(a, b) == if a < 0 then -((-a) / b) else a / b
  {
  }

  /** A multiple divided by its factor gives the other factor back, with
      either sign: there is no remainder, so truncation does not matter. */
  lemma {:induction false} QuotOfMultiple(k: int, b: int)
    requires b != 0
    ensures Quot(k * b, b) == k
  {
    var q := Quot(k * b, b);
    var d := k - q;
    MulSub(k, q, b);
    if d != 0 {
      AbsProduct(d, b);
      MulMonotone(1, Abs(d), Abs(b));
    }
  }

  lemma MulSub(k: int, q: int, b: int)
    ensures k * b - q * b == (k - q) * b
  {
  }

  lemma AbsProduct(x: int, y: int)
    ensures Abs(x * y) == Abs(x) * Abs(y)
  {
    if x < 0 && y < 0 {
      assert x * y == (-x) * (-y);
    } else if x < 0 {
      assert x * y == -((-x) * y);
    } else if y < 0 {
      assert x * y == -(x * (-y));
    }
  }

  /** Go's `int16` addition: the mathematical sum brought back into range
      modulo 2^16. */
  function Wrap16(a: int): (r: int16)
    ensures (r as int - a) % 0x1_0000 == 0
    ensures -0x8000 <= a < 0x8000 ==> r as int == a
  {
    ((a + 0x8000) % 0x1_0000 - 0x8000) as int16
  }
}

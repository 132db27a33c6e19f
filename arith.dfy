/** Facts about integer multiplication and Euclidean division that the
    solver does not find by itself. */
module Arith {

  lemma MulMonotone(a: int, b: int, c: int)
    requires a > 0 && b <= c
    ensures a * b <= a * c
  {
    assert a * c - a * b == a * (c - b);
  }

  /** Euclidean division by a positive number is the unique q with
      den * q <= num < den * (q + 1). */
  lemma DivUnique(num: int, den: int, q: int)
    requires den > 0 && den * q <= num < den * (q + 1)
    ensures num / den == q
  {
    var d := num / den;
    assert den * d <= num < den * (d + 1);
    if d < q {
      MulMonotone(den, d + 1, q);
    } else if d > q {
      MulMonotone(den, q + 1, d);
    }
  }

  /** The quotient of Euclidean division brackets the dividend. */
  lemma DivBounds(num: int, den: int)
    requires den > 0
    ensures den * (num / den) <= num < den * (num / den + 1)
  {
    assert num == den * (num / den) + num % den;
  }

  /** `(a * b) / b == a` and `(a * b) % b == 0` for a positive `b`. */
  lemma MulDiv(a: int, b: int)
    requires b > 0
    ensures (a * b) / b == a && (a * b) % b == 0
  {
    assert b * (a + 1) == b * a + b;
    DivUnique(a * b, b, a);
  }
}

/** Integer facts the layout planner relies on: ceiling division,
    uniqueness of Euclidean division and mixed-radix numerals. */
module Arith {

  /** Ceiling division of naturals, `(a + b - 1) / b`, as the layout
      library's `ceil_div` computes it on integers. */
  function CeilDiv(a: nat, b: nat): (q: nat)
    requires b > 0
    ensures q * b >= a
    ensures q * b < a + b
  {
    (a + b - 1) / b
  }

  lemma MulAtLeast(b: int, k: int)
    requires b > 0 && k >= 1
    ensures b * k >= b
  {}

  lemma MulMonoRight(b: nat, x: nat, y: nat)
    requires x <= y
    ensures b * x <= b * y
  {}

  /** Quotient and remainder are determined by any decomposition
      `x == b * q + r` with `0 <= r < b`. */
  lemma DivModUnique(x: int, b: int, q: int, r: int)
    requires b > 0 && 0 <= r < b && x == b * q + r
    ensures x / b == q && x % b == r
  {
    var q', r' := x / b, x % b;
    assert x == b * q' + r';
    if q > q' {
      MulAtLeast(b, q - q');
      assert false;
    } else if q < q' {
      MulAtLeast(b, q' - q);
      assert false;
    }
  }

  /** One digit of a mixed-radix numeral: `a < b` is recovered by `% b`,
      the higher digits `q` by `/ b`. */
  lemma DigitSplit(a: nat, b: nat, q: nat)
    requires a < b
    ensures (a + b * q) % b == a
    ensures (a + b * q) / b == q
  {
    DivModUnique(a + b * q, b, q, a);
  }

  /** A low digit below its radix and a high part below `n` make a
      numeral below `b * n`. */
  lemma DigitBound(a: nat, b: nat, q: nat, n: nat)
    requires a < b && q < n
    ensures a + b * q < b * n
  {
    MulMonoRight(b, q + 1, n);
    assert b * (q + 1) == b * q + b;
  }

  /** Any `x` splits into a digit `x % b` below `b` and a high part
      `x / b`; the high part is below `n` exactly when `x < b * n`. */
  lemma DigitDecompose(x: nat, b: nat, n: nat)
    requires b > 0
    ensures x == x % b + b * (x / b)
    ensures x / b < n <==> x < b * n
  {
    if x / b < n {
      DigitBound(x % b, b, x / b, n);
    } else {
      MulMonoRight(b, n, x / b);
    }
  }

  /** Dividing a product by 8 when the width is a whole number of bytes. */
  lemma BytesOfBits(a: nat, w: nat)
    requires w % 8 == 0
    ensures a * w / 8 == a * (w / 8)
  {
    assert a * w == 8 * (a * (w / 8));
    DivModUnique(a * w, 8, a * (w / 8), 0);
  }

  /** Floor division by a positive divisor is monotone in the dividend. */
  lemma DivMonotone(a: nat, b: nat, k: nat)
    requires k > 0 && a <= b
    ensures a / k <= b / k
  {
    DigitDecompose(b, k, b / k + 1);
    DigitDecompose(a, k, b / k + 1);
  }

  /** Ceiling division is monotone in the dividend. */
  lemma CeilDivMonotone(a: nat, b: nat, k: nat)
    requires k > 0 && a <= b
    ensures CeilDiv(a, k) <= CeilDiv(b, k)
  {
    DivMonotone(a + k - 1, b + k - 1, k);
  }

  /** Regrouping a product of four factors. */
  lemma MulRegroup(a: nat, b: nat, c: nat, d: nat)
    ensures a * b * c * d == a * (b * (c * d))
    ensures a * b * c * d == (a * d) * (b * c)
    ensures a * b * c * d == (b * c * a) * d
    ensures a * b * c * d == (a * c * d) * b
    ensures a * b * c * d == (a * b * d) * c
  {
  }

  /** Scaling a ceiling bound `m <= q < m + k` by `v`. */
  lemma ScaleBounds(v: nat, m: nat, q: nat, k: nat)
    requires m <= q < m + k
    ensures v * m <= v * q <= v * m + v * k
    ensures v > 0 ==> v * q < v * m + v * k
  {
    MulMonoRight(v, m, q);
    MulMonoRight(v, q, m + k);
    if v > 0 {
      MulMonoRight(v, q + 1, m + k);
    }
  }

  /** A multiple `u * q` that overshoots `n` by less than `u` uses the
      fewest copies of `u` that reach `n`. */
  lemma LeastCover(u: nat, q: nat, b: nat, n: nat)
    requires u * q < n + u && u * b >= n
    ensures q <= b
  {
    if b < q {
      MulMonoRight(u, b + 1, q);
      assert false;
    }
  }
}

/**
  Small facts about products and quotients of bounded reals, which the
  solver does not find on its own once both factors are variables.
 */
module RealArith {

  /** `[a, b].min` for two reals. */
  function Min(a: real, b: real): (m: real)
    ensures m <= a && m <= b
    ensures m == a || m == b
  {
    if a <= b then a else b
  }

  /** A product of two non-negative reals stays below the product of their strict bounds. */
  lemma MulStrictUpper(a: real, b: real, hiA: real, hiB: real)
    requires 0.0 <= a < hiA && 0.0 <= b < hiB
    ensures a * b < hiA * hiB
  {
    assert a * b <= hiA * b;
    assert hiA * b < hiA * hiB;
  }

  /** A product of two reals stays at or above the product of their non-negative lower bounds. */
  lemma MulLower(a: real, b: real, loA: real, loB: real)
    requires 0.0 <= loA <= a && 0.0 <= loB <= b
    ensures loA * loB <= a * b
  {
    assert loA * loB <= loA * b;
    assert loA * b <= a * b;
  }

  /** Dividing by a positive real below `hi` gives a quotient above `lo` when `lo * hi <= s`. */
  lemma QuotientLower(s: real, c: real, hi: real, lo: real)
    requires 0.0 < c < hi && 0.0 < lo && lo * hi <= s
    ensures lo < s / c
  {
    var q := s / c;
    assert q * c == s;
    assert lo * c < lo * hi;
  }

  /** A non-negative square root of a value above `lo * lo` lies above `lo`. */
  lemma RootLower(x: real, root: real, lo: real)
    requires 0.0 <= root && root * root == x && 0.0 <= lo && lo * lo < x
    ensures lo < root
  {
    if root <= lo {
      MulLower(lo, lo, root, root);
    }
  }
}

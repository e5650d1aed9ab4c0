/** What NUMERIC(18,6) keeps of a price. */
module Rounding {
  import opened Tables

  /** The real number a stored price stands for. */
  function Stored(price: real): real {
    ToNumeric(price) as real / 1000000.0
  }

  function Abs(x: real): real { if x >= 0.0 then x else -x }

  const HALF: real := 0.0000005

  /** Half a millionth at most is lost. */
  lemma StoredWithin(x: real)
    ensures Abs(Stored(x) - x) <= 0.0000005
  {
    var n := ToNumeric(x) as real;
    if x >= 0.0 {
      assert n <= x * 1000000.0 + 0.5 < n + 1.0;
    } else {
      assert -n <= 0.5 - x * 1000000.0 < -n + 1.0;
    }
  }

  /** Of all six-decimal prices the stored one is nearest: no other millionth is closer. */
  lemma StoredIsNearest(x: real, m: int)
    ensures Abs(Stored(x) - x) <= Abs(m as real / 1000000.0 - x)
  {
    StoredWithin(x);
    var n := ToNumeric(x);
    if m != n {
      assert m as real / 1000000.0 - n as real / 1000000.0 == (m - n) as real / 1000000.0;
      assert Abs((m - n) as real / 1000000.0) >= 0.000001;
    }
  }

  /** Storing a stored price changes nothing. */
  lemma StoredTwice(x: real)
    ensures ToNumeric(Stored(x)) == ToNumeric(x)
  {
    var n := ToNumeric(x);
    assert Stored(x) * 1000000.0 == n as real;
  }

  lemma MulBound(a: real, b: real, bound: real)
    requires Abs(b) <= bound
    ensures Abs(a * b) <= Abs(a) * bound
  {
    assert Abs(a * b) == Abs(a) * Abs(b);
    assert Abs(a) * Abs(b) <= Abs(a) * bound;
  }

  lemma Expand(x: real, y: real, a: real, b: real)
    ensures (x + a) * (y + b) == x * y + x * b + y * a + a * b
  {
  }

  lemma SumBound(p: real, q: real, r: real)
    ensures Abs(p + q + r) <= Abs(p) + Abs(q) + Abs(r)
  {
  }

  lemma RoundedProduct(x: real, y: real, a: real, b: real)
    requires Abs(a) <= HALF && Abs(b) <= HALF
    ensures Abs((x + a) * (y + b) - x * y) <= (Abs(x) + Abs(y)) * HALF + HALF * HALF
  {
    Expand(x, y, a, b);
    MulBound(x, b, HALF);
    MulBound(y, a, HALF);
    MulBound(a, b, HALF);
    SumBound(x * b, y * a, a * b);
  }

  lemma NearProduct(x: real, y: real, s: real, t: real)
    requires Abs(s - x) <= HALF && Abs(t - y) <= HALF
    ensures Abs(s * t - x * y) <= (Abs(x) + Abs(y)) * HALF + HALF * HALF
  {
    var a, b := s - x, t - y;
    RoundedProduct(x, y, a, b);
    var s', t' := x + a, y + b;
    assert s' == s && t' == t;
    assert s' * t' == s * t;
  }

  /** Two prices, both stored, multiply to the product of the prices up to the rounding of each. */
  lemma StoredProduct(x: real, y: real)
    ensures Abs(Stored(x) * Stored(y) - x * y) <= (Abs(x) + Abs(y)) * HALF + HALF * HALF
  {
    StoredWithin(x);
    StoredWithin(y);
    NearProduct(x, y, Stored(x), Stored(y));
  }
}

/**
 * Sums and products of real sequences, folded left to right the way the capacity loops
 * accumulate them, with the algebra the formula's properties rest on.
 */
module Folds {
  /** `xs[0] + xs[1] + …`, starting at 0. */
  function Sum(xs: seq<real>): real {
    if xs == [] then 0.0 else Sum(xs[..|xs| - 1]) + xs[|xs| - 1]
  }

  /** `xs[0] * xs[1] * …`, starting at 1. */
  function Product(xs: seq<real>): real {
    if xs == [] then 1.0 else Product(xs[..|xs| - 1]) * xs[|xs| - 1]
  }

  /** x to the n-th. */
  function Power(x: real, n: nat): real {
    if n == 0 then 1.0 else Power(x, n - 1) * x
  }

  /** One more accumulation step of a sum. */
  lemma SumSnoc(xs: seq<real>, x: real)
    ensures Sum(xs + [x]) == Sum(xs) + x
  {
    assert (xs + [x])[..|xs|] == xs;
  }

  /** One more accumulation step of a product. */
  lemma ProductSnoc(xs: seq<real>, x: real)
    ensures Product(xs + [x]) == Product(xs) * x
  {
    assert (xs + [x])[..|xs|] == xs;
  }

  lemma MulAssoc(x: real, y: real, z: real)
    ensures (x * y) * z == x * (y * z)
  {
  }

  lemma MulPositive(x: real, y: real)
    requires x > 0.0 && y > 0.0
    ensures x * y > 0.0
  {
  }

  /** Sums split over concatenation. */
  lemma {:induction false} SumAppend(a: seq<real>, b: seq<real>)
    ensures Sum(a + b) == Sum(a) + Sum(b)
  {
    if b == [] {
      assert a + b == a;
    } else {
      var b', last := b[..|b| - 1], b[|b| - 1];
      assert a + b == (a + b') + [last];
      SumSnoc(a + b', last);
      SumAppend(a, b');
      assert b == b' + [last];
      SumSnoc(b', last);
    }
  }

  /** Products split over concatenation. */
  lemma {:induction false} ProductAppend(a: seq<real>, b: seq<real>)
    ensures Product(a + b) == Product(a) * Product(b)
  {
    if b == [] {
      assert a + b == a;
    } else {
      var b', last := b[..|b| - 1], b[|b| - 1];
      assert a + b == (a + b') + [last];
      ProductSnoc(a + b', last);
      ProductAppend(a, b');
      assert b == b' + [last];
      ProductSnoc(b', last);
      MulAssoc(Product(a), Product(b'), last);
    }
  }

  /** A sum of non-negative terms is non-negative, and positive when the terms are and there is one. */
  lemma {:induction false} SumNonNegative(xs: seq<real>)
    requires forall i :: 0 <= i < |xs| ==> xs[i] >= 0.0
    ensures Sum(xs) >= 0.0
    ensures xs != [] && (forall i :: 0 <= i < |xs| ==> xs[i] > 0.0) ==> Sum(xs) > 0.0
  {
    if xs != [] {
      SumNonNegative(xs[..|xs| - 1]);
    }
  }

  /** A product of positive factors is positive. */
  lemma {:induction false} ProductPositive(xs: seq<real>)
    requires forall i :: 0 <= i < |xs| ==> xs[i] > 0.0
    ensures Product(xs) > 0.0
  {
    if xs != [] {
      ProductPositive(xs[..|xs| - 1]);
      MulPositive(Product(xs[..|xs| - 1]), xs[|xs| - 1]);
    }
  }

  /** n equal factors multiply to the n-th power. */
  lemma {:induction false} ProductConstant(x: real, n: nat)
    ensures Product(seq(n, _ => x)) == Power(x, n)
  {
    if n > 0 {
      assert seq(n, _ => x) == seq(n - 1, _ => x) + [x];
      ProductSnoc(seq(n - 1, _ => x), x);
      ProductConstant(x, n - 1);
    }
  }

  /** A product of factors in [0, 1] stays in [0, 1]. */
  lemma {:induction false} ProductAtMostOne(xs: seq<real>)
    requires forall i :: 0 <= i < |xs| ==> 0.0 <= xs[i] <= 1.0
    ensures 0.0 <= Product(xs) <= 1.0
  {
    if xs != [] {
      var front, last := xs[..|xs| - 1], xs[|xs| - 1];
      ProductAtMostOne(front);
      ScaleDown(Product(front), last);
    }
  }

  lemma ScaleDown(x: real, y: real)
    requires 0.0 <= x <= 1.0 && 0.0 <= y <= 1.0
    ensures 0.0 <= x * y <= y
  {
    assert y - x * y == y * (1.0 - x);
  }
}

/** Evaluation metrics (`metrics.py`): the Wilson interval, on unrounded values. */
module Metrics {
  import opened Wrappers
  import opened Numbers

  // ---------------------------------------------------------------- Wilson interval

  datatype Interval = Interval(lower: real, upper: real)

  /** What the square root is taken of. */
  function Spread(k: nat, n: nat, z: real): real
    requires n > 0
  {
    var p := k as real / n as real;
    (p * (1.0 - p) + z * z / (4.0 * n as real)) / n as real
  }

  function Centre(k: nat, n: nat, z: real): real
    requires n > 0
  {
    var p := k as real / n as real;
    (p + z * z / (2.0 * n as real)) / (1.0 + z * z / n as real)
  }

  /** `root` is the square root of the spread. */
  function Margin(n: nat, z: real, root: real): real
    requires n > 0
  {
    z * root / (1.0 + z * z / n as real)
  }

  function WilsonInterval(k: nat, n: nat, z: real, root: real): Option<Interval> {
    if n == 0 then None
    else Some(Interval(MaxReal(0.0, Centre(k, n, z) - Margin(n, z, root)), MinReal(1.0, Centre(k, n, z) + Margin(n, z, root))))
  }

  predicate IsRoot(root: real, x: real) {
    root >= 0.0 && root * root == x
  }

  /** The score test accepts the proportion `x`: the observed one is within `z` standard errors of it. */
  predicate Plausible(k: nat, n: nat, z: real, x: real)
    requires n > 0
  {
    var p := k as real / n as real;
    n as real * ((p - x) * (p - x)) <= z * z * (x * (1.0 - x))
  }

  // Real arithmetic, one product at a time.

  lemma PositiveProduct(x: real, y: real)
    requires x > 0.0 && y > 0.0
    ensures x * y > 0.0
  {}

  lemma PositiveMultipleOfSquare(m: real, x: real, product: real)
    requires m > 0.0 && x != 0.0 && product == m * (x * x)
    ensures product > 0.0
  {
    if x > 0.0 {
      PositiveProduct(m, x);
      PositiveProduct(m * x, x);
    } else {
      PositiveProduct(m, -x);
      PositiveProduct(m * -x, -x);
    }
  }

  lemma NotNegativeProduct(x: real, y: real)
    requires x >= 0.0 && y >= 0.0
    ensures x * y >= 0.0
  {}

  lemma Cancel(a: real, x: real, y: real)
    requires a > 0.0 && a * x == a * y
    ensures x == y
  {}

  lemma SignOfMultiple(a: real, x: real)
    requires a > 0.0
    ensures a * x <= 0.0 <==> x <= 0.0
  {}

  lemma SquareOfProduct(z: real, r: real)
    ensures (z * r) * (z * r) == (z * z) * (r * r)
  {}

  lemma SquareOfSum(x: real, y: real)
    ensures (x + y / 2.0) * (x + y / 2.0) == x * x + x * y + y * y / 4.0
  {}

  lemma SquaresOfMultiples(a: real, c: real, w: real)
    ensures (a * c) * (a * c) - (a * w) * (a * w) == a * (a * (c * c - w * w))
  {}

  lemma WithinSquared(d: real, w: real)
    requires w >= 0.0
    ensures d * d <= w * w <==> -w <= d <= w
  {
    if d > w {
      PositiveProduct(d - w, d + w);
    } else if -d > w {
      PositiveProduct(-d - w, -d + w);
    } else if -w < d < w {
      PositiveProduct(w - d, w + d);
    } else if d == w {
    } else {
      assert d == -w;
    }
  }

  /** The middle and half-width of the interval, and the root, cleared of their denominators. */
  lemma CentreCleared(k: nat, n: nat, z: real, a: real)
    requires n > 0 && a == n as real + z * z
    ensures a * Centre(k, n, z) == k as real + z * z / 2.0
  {
    var m, zz, c := n as real, z * z, Centre(k, n, z);
    var p := k as real / m;
    var d := 1.0 + zz / m;
    assert zz / m >= 0.0;
    assert c * d == p + zz / (2.0 * m);
    assert m * d == a;
    assert m * (zz / (2.0 * m)) == zz / 2.0;
    assert m * (c * d) == m * p + zz / 2.0;
    assert m * (c * d) == (m * d) * c;
  }

  lemma MarginCleared(n: nat, z: real, root: real, a: real)
    requires n > 0 && a == n as real + z * z
    ensures a * Margin(n, z, root) == z * (root * n as real)
  {
    var m, zz, w := n as real, z * z, Margin(n, z, root);
    var d := 1.0 + zz / m;
    assert zz / m >= 0.0;
    assert w * d == z * root;
    assert m * d == a;
    assert m * (w * d) == (m * d) * w;
  }

  lemma SpreadCleared(k: nat, n: nat, z: real, root: real)
    requires n > 0 && IsRoot(root, Spread(k, n, z))
    ensures (root * n as real) * (root * n as real) == k as real * (1.0 - k as real / n as real) + z * z / 4.0
  {
    var m, zz := n as real, z * z;
    var p := k as real / m;
    var inner := p * (1.0 - p) + zz / (4.0 * m);
    assert Spread(k, n, z) * m == inner;
    assert m * (zz / (4.0 * m)) == zz / 4.0;
    assert m * (p * (1.0 - p)) == (m * p) * (1.0 - p);
    assert m * inner == k as real * (1.0 - p) + zz / 4.0;
    assert (root * m) * (root * m) == (root * root * m) * m;
  }

  lemma ScoreTerms(a: real, m: real, zz: real, kk: real, p: real)
    requires kk == m * p && a == m + zz
    ensures kk * kk + kk * zz + zz * zz / 4.0 - zz * (kk * (1.0 - p) + zz / 4.0) == a * (kk * p)
  {
    assert kk * kk == m * (kk * p);
    assert a * (kk * p) == m * (kk * p) + zz * (kk * p);
  }

  /** The product of the two ends, from the cleared forms. */
  lemma ProductOfEnds(a: real, m: real, zz: real, kk: real, p: real, z: real, r: real, c: real, w: real)
    requires a > 0.0 && a == m + zz && kk == m * p && zz == z * z
    requires a * c == kk + zz / 2.0 && a * w == z * r && r * r == kk * (1.0 - p) + zz / 4.0
    ensures a * (c * c - w * w) == kk * p
  {
    var ac, aw := a * c, a * w;
    SquareOfSum(kk, zz);
    SquareOfProduct(z, r);
    assert aw * aw == zz * (r * r);
    ScoreTerms(a, m, zz, kk, p);
    SquaresOfMultiples(a, c, w);
    Cancel(a, a * (c * c - w * w), kk * p);
  }

  lemma Expand(a: real, m: real, zz: real, kk: real, p: real, x: real)
    requires a == m + zz && kk == m * p
    ensures m * ((p - x) * (p - x)) - zz * (x * (1.0 - x)) == a * (x * x) - x * (2.0 * kk + zz) + kk * p
  {
    assert m * (p * x) == kk * x && m * (p * p) == kk * p;
    assert a * (x * x) == m * (x * x) + zz * (x * x);
  }

  lemma ExpandRoots(a: real, c: real, w: real, x: real)
    ensures a * ((x - c) * (x - c) - w * w) == a * (x * x) - x * (2.0 * (a * c)) + a * (c * c - w * w)
  {}

  lemma SameLinearTerm(x: real, ac: real, kk: real, zz: real)
    requires ac == kk + zz / 2.0
    ensures x * (2.0 * ac) == x * (2.0 * kk + zz)
  {}

  /** The score polynomial factors over the two ends. */
  lemma ScoreIdentity(a: real, m: real, zz: real, kk: real, p: real, c: real, w: real, x: real)
    requires a == m + zz && kk == m * p && a * c == kk + zz / 2.0 && a * (c * c - w * w) == kk * p
    ensures m * ((p - x) * (p - x)) - zz * (x * (1.0 - x)) == a * ((x - c) * (x - c) - w * w)
  {
    Expand(a, m, zz, kk, p, x);
    ExpandRoots(a, c, w, x);
    SameLinearTerm(x, a * c, kk, zz);
  }

  // ---------------------------------------------------------------- the interval and the score test

  /** The score equation in terms of the two ends, which are its roots. */
  lemma ScoreFactors(k: nat, n: nat, z: real, root: real, a: real, x: real)
    requires n > 0 && IsRoot(root, Spread(k, n, z)) && a == n as real + z * z
    ensures var (p, c, w) := (k as real / n as real, Centre(k, n, z), Margin(n, z, root));
      n as real * ((p - x) * (p - x)) - z * z * (x * (1.0 - x)) == a * ((x - c) * (x - c) - w * w)
  {
    var m, zz, kk, c, w := n as real, z * z, k as real, Centre(k, n, z), Margin(n, z, root);
    var p := kk / m;
    CentreCleared(k, n, z, a);
    MarginCleared(n, z, root, a);
    SpreadCleared(k, n, z, root);
    ProductOfEnds(a, m, zz, kk, p, z, root * m, c, w);
    ScoreIdentity(a, m, zz, kk, p, c, w, x);
  }

  lemma MarginNotNegative(n: nat, z: real, root: real)
    requires n > 0 && z >= 0.0 && root >= 0.0
    ensures Margin(n, z, root) >= 0.0
  {
    assert z * z / n as real >= 0.0;
    NotNegativeProduct(z, root);
  }

  /** The interval holds exactly the proportions that the score test does not reject. */
  lemma IntervalInvertsScoreTest(k: nat, n: nat, z: real, root: real, x: real)
    requires n > 0 && z >= 0.0 && IsRoot(root, Spread(k, n, z))
    ensures Plausible(k, n, z, x) <==> Centre(k, n, z) - Margin(n, z, root) <= x <= Centre(k, n, z) + Margin(n, z, root)
  {
    var a, c, w := n as real + z * z, Centre(k, n, z), Margin(n, z, root);
    NotNegativeProduct(z, z);
    ScoreFactors(k, n, z, root, a, x);
    MarginNotNegative(n, z, root);
    SignOfMultiple(a, (x - c) * (x - c) - w * w);
    WithinSquared(x - c, w);
  }

  lemma OutsideIsImplausible(d: real, m: real, zz: real, x: real)
    requires d != 0.0 && m > 0.0 && zz >= 0.0 && (x < 0.0 || x > 1.0)
    ensures m * (d * d) > zz * (x * (1.0 - x))
  {
    var distance, variance := m * (d * d), zz * (x * (1.0 - x));
    PositiveMultipleOfSquare(m, d, distance);
    OutsideVariance(zz, x, variance);
    assert distance > variance;
  }

  lemma OutsideVariance(zz: real, x: real, product: real)
    requires zz >= 0.0 && (x < 0.0 || x > 1.0) && product == zz * (x * (1.0 - x))
    ensures product <= 0.0
  {
    if x < 0.0 {
      NotNegativeProduct(zz, -x);
      NotNegativeProduct(zz * -x, 1.0 - x);
    } else {
      NotNegativeProduct(zz, x);
      NotNegativeProduct(zz * x, x - 1.0);
    }
  }

  /** Every plausible proportion is one... */
  lemma PlausibleIsProportion(k: nat, n: nat, z: real, x: real)
    requires n > 0 && k <= n && Plausible(k, n, z, x)
    ensures 0.0 <= x <= 1.0
  {
    var m, p := n as real, k as real / n as real;
    assert 0.0 <= p <= 1.0;
    assert z * z >= 0.0;
    if x < 0.0 || x > 1.0 {
      OutsideIsImplausible(p - x, m, z * z, x);
    }
  }

  /** ...and the observed one is plausible. */
  lemma ObservedIsPlausible(k: nat, n: nat, z: real)
    requires n > 0 && k <= n
    ensures Plausible(k, n, z, k as real / n as real)
  {
    var p := k as real / n as real;
    assert 0.0 <= p <= 1.0;
    NotNegativeProduct(p, 1.0 - p);
    assert z * z >= 0.0;
    NotNegativeProduct(z * z, p * (1.0 - p));
  }

  /** The clamps never act, and the interval holds the observed proportion. */
  lemma IntervalHoldsProportion(k: nat, n: nat, z: real, root: real)
    requires n > 0 && k <= n && z >= 0.0 && IsRoot(root, Spread(k, n, z))
    ensures var r := WilsonInterval(k, n, z, root).value;
      && r == Interval(Centre(k, n, z) - Margin(n, z, root), Centre(k, n, z) + Margin(n, z, root))
      && 0.0 <= r.lower <= k as real / n as real <= r.upper <= 1.0
  {
    var lower, upper := Centre(k, n, z) - Margin(n, z, root), Centre(k, n, z) + Margin(n, z, root);
    ObservedIsPlausible(k, n, z);
    IntervalInvertsScoreTest(k, n, z, root, k as real / n as real);
    IntervalInvertsScoreTest(k, n, z, root, lower);
    IntervalInvertsScoreTest(k, n, z, root, upper);
    PlausibleIsProportion(k, n, z, lower);
    PlausibleIsProportion(k, n, z, upper);
  }
}

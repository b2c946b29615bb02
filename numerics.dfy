/**
  The numerical primitives the engine borrows from Python's `statistics.NormalDist`,
  `math` and numpy.

  The library routines (the normal CDF and its inverse, square root, exponential, evenly
  and geometrically spaced grids) are fields of a record `Lib`, and the only facts the
  model uses about them are collected in `Lawful`. Every member that needs them takes a
  `Lib` and requires `Lawful`. Clipping is exact over the reals and is defined here.
*/
module Numerics {

  /** The foreign routines the engine calls. */
  datatype Lib = Lib(
    cdf: (real, real, real) -> real,          // (mu, sigma, x) |-> NormalDist(mu, sigma).cdf(x)
    invCdf: real -> real,                     // NormalDist(0, 1).inv_cdf, used on (0, 1)
    sqrt: real -> real,                       // math.sqrt / numpy.sqrt
    exp: real -> real,                        // math.exp
    linspace: (real, real, nat) -> seq<real>, // numpy.linspace(start, stop, num)
    geomspace: (real, real, nat) -> seq<real> // numpy.geomspace(start, stop, num)
  )

  /**
    The laws the model takes of the foreign routines, and nothing more. The laws that
    relate several values (monotonicity, squaring a root, equal grid steps) are stated
    point by point through `CdfMonotoneAt`, `SqrtAt` and `LinspaceEvenAt`, so that a proof
    uses them only where it names them.
  */
  ghost predicate Lawful(m: Lib) {
    && (forall mu, sigma, x :: 0.0 <= m.cdf(mu, sigma, x) <= 1.0)
    && (forall mu, sigma, x, y :: CdfMonotoneAt(m, mu, sigma, x, y))
    && m.invCdf(0.5) == 0.0
    && (forall p :: 0.5 < p < 1.0 ==> m.invCdf(p) > 0.0)
    && (forall x :: SqrtAt(m, x))
    && (forall x :: 0.0 < m.exp(x))
    && (forall a, b, k :: |m.linspace(a, b, k)| == k)
    && (forall a, b, k :: 1 <= k ==> m.linspace(a, b, k)[0] == a)
    && (forall a, b, k :: 2 <= k ==> m.linspace(a, b, k)[k - 1] == b)
    && (forall a, b, k, i :: LinspaceEvenAt(m, a, b, k, i))
    && (forall a, b, k :: |m.geomspace(a, b, k)| == k)
    && (forall a, b, k, i :: 0.0 < a <= b && 0 <= i < |m.geomspace(a, b, k)| ==>
          a <= m.geomspace(a, b, k)[i] <= b)
  }

  /** The CDF of N(mu, sigma^2) does not decrease from x to y. */
  ghost predicate CdfMonotoneAt(m: Lib, mu: real, sigma: real, x: real, y: real) {
    x <= y ==> m.cdf(mu, sigma, x) <= m.cdf(mu, sigma, y)
  }

  /** Points i and i + 1 of linspace(a, b, k) are one step (b - a) / (k - 1) apart. */
  ghost predicate LinspaceEvenAt(m: Lib, a: real, b: real, k: nat, i: int) {
    2 <= k && 0 <= i && i + 1 < |m.linspace(a, b, k)| ==>
      m.linspace(a, b, k)[i + 1] - m.linspace(a, b, k)[i] == (b - a) / ((k - 1) as real)
  }

  /** sqrt(x) is the non-negative root of a non-negative x. */
  ghost predicate SqrtAt(m: Lib, x: real) {
    0.0 <= x ==> 0.0 <= m.sqrt(x) && m.sqrt(x) * m.sqrt(x) == x
  }

  /** math.pi */
  const Pi: real := 3.141592653589793

  lemma SqrtPositive(m: Lib, x: real)
    requires Lawful(m) && 0.0 < x
    ensures 0.0 < m.sqrt(x)
  {
    assert SqrtAt(m, x);
  }

  lemma SqrtSquares(m: Lib, x: real)
    requires Lawful(m) && 0.0 <= x
    ensures 0.0 <= m.sqrt(x) && m.sqrt(x) * m.sqrt(x) == x
  {
    assert SqrtAt(m, x);
  }

  /** `NormalDist(mu, sigma).cdf(x)` for a proper (positive) sigma: a probability. */
  function NormalCdf(m: Lib, mu: real, sigma: real, x: real): (p: real)
    requires Lawful(m) && 0.0 < sigma
    ensures 0.0 <= p <= 1.0
  {
    m.cdf(mu, sigma, x)
  }

  /** A normal CDF is non-decreasing in the point it is evaluated at. */
  lemma NormalCdfMonotone(m: Lib, mu: real, sigma: real, x: real, y: real)
    requires Lawful(m) && 0.0 < sigma && x <= y
    ensures NormalCdf(m, mu, sigma, x) <= NormalCdf(m, mu, sigma, y)
  {
    assert CdfMonotoneAt(m, mu, sigma, x, y);
  }

  /** The density of N(mu, sigma^2) at x, as the engine writes it out. */
  function NormalPdf(m: Lib, mu: real, sigma: real, x: real): (d: real)
    requires Lawful(m) && 0.0 < sigma
    ensures 0.0 < d
  {
    SqrtPositive(m, 2.0 * Pi);
    var z := (x - mu) / sigma;
    var scale := 1.0 / (sigma * m.sqrt(2.0 * Pi));
    assert 0.0 < sigma * m.sqrt(2.0 * Pi);
    scale * m.exp(-0.5 * (z * z))
  }

  /** numpy.clip(v, lo, hi) */
  function Clip(v: real, lo: real, hi: real): (c: real)
    requires lo <= hi
    ensures lo <= c <= hi
    ensures lo <= v <= hi ==> c == v
    ensures v < lo ==> c == lo
    ensures hi < v ==> c == hi
  {
    if v < lo then lo else if hi < v then hi else v
  }

  /**
    numpy.linspace(a, b, k) for a <= b keeps every point within [a, b], and for a < b the
    points strictly increase from first to last, not only from neighbour to neighbour.
  */
  lemma LinspaceOrdered(m: Lib, a: real, b: real, k: nat)
    requires Lawful(m) && a <= b
    ensures forall i :: 0 <= i < k ==> a <= m.linspace(a, b, k)[i] <= b
    ensures a < b ==> forall i, j :: 0 <= i < j < k ==> m.linspace(a, b, k)[i] < m.linspace(a, b, k)[j]
  {
    var xs := m.linspace(a, b, k);
    forall i | 0 <= i < k ensures a <= xs[i] <= b {
      if 0 < i {
        LinspaceRises(m, a, b, k, 0, i);
      }
      if i < k - 1 {
        LinspaceRises(m, a, b, k, i, k - 1);
      }
    }
    if a < b {
      forall i, j | 0 <= i < j < k ensures xs[i] < xs[j] {
        LinspaceRises(m, a, b, k, i, j);
      }
    }
  }

  /**
    Chaining equal steps: for a <= b point i lies at or below every later point j, and
    strictly below it when a < b.
  */
  lemma {:induction false} LinspaceRises(m: Lib, a: real, b: real, k: nat, i: nat, j: nat)
    requires Lawful(m) && a <= b && i < j < k
    ensures m.linspace(a, b, k)[i] <= m.linspace(a, b, k)[j]
    ensures a < b ==> m.linspace(a, b, k)[i] < m.linspace(a, b, k)[j]
    decreases j - i
  {
    var step := (b - a) / ((k - 1) as real);
    assert 0.0 <= step && (a < b ==> 0.0 < step);
    assert LinspaceEvenAt(m, a, b, k, j - 1);
    if i < j - 1 {
      LinspaceRises(m, a, b, k, i, j - 1);
    }
  }
}

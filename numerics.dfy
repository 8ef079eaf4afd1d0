/** The floating-point library the motion patterns and the detection geometry
    call, and the degree arithmetic they share.

    Python's `math` functions have no exact real counterpart, so the model takes
    them as a parameter: a value of type `Math` bundles one function per library
    call, and `Laws` lists the only facts the proofs rely on. Every such fact holds
    of the real-valued functions the library approximates. */
module Numerics {

  /** One field per library operation used by the source. */
  datatype Math = Math(
    sin: real -> real,
    cos: real -> real,
    asin: real -> real,
    sqrt: real -> real,
    atan2: (real, real) -> real,
    radians: real -> real,
    degrees: real -> real,
    // theta % (2 * math.pi)
    wrapAngle: real -> real,
    // (dlon, lat) |-> dlon / math.cos(math.radians(lat)): metres-per-degree
    // scaling of a longitude offset at a latitude
    lonScale: (real, real) -> real,
    // round(x, 2)
    round2: real -> real)

  function Sq(x: real): real { x * x }

  function Abs(x: real): (r: real)
    ensures 0.0 <= r && (r == x || r == -x)
  {
    if x < 0.0 then -x else x
  }

  /** The facts about the library that the proofs use, and no more. */
  ghost predicate Laws(m: Math) {
    && m.sin(0.0) == 0.0
    && m.cos(0.0) == 1.0
    && m.asin(0.0) == 0.0
    && m.sqrt(0.0) == 0.0
    && m.wrapAngle(0.0) == 0.0
    // sine is odd
    && (forall x :: m.sin(-x) == -m.sin(x))
    // the Pythagorean identity
    && (forall x :: Sq(m.sin(x)) + Sq(m.cos(x)) == 1.0)
    // the square root of a non-negative number is non-negative
    && (forall x :: 0.0 <= x ==> 0.0 <= m.sqrt(x))
    // the square root of a square is the absolute value
    && (forall x :: m.sqrt(Sq(x)) == Abs(x))
    // a zero longitude offset stays zero at every latitude
    && (forall lat :: m.lonScale(0.0, lat) == 0.0)
  }

  /** The Pythagorean identity at one angle. */
  lemma Pythagoras(m: Math, x: real)
    requires Laws(m)
    ensures Sq(m.sin(x)) + Sq(m.cos(x)) == 1.0
  {
  }

  lemma SqNonNegative(x: real)
    ensures 0.0 <= Sq(x)
  {
    if x < 0.0 {
      assert Sq(x) == (-x) * (-x);
    }
  }

  /** Python's `x % 360` on floats: the floored remainder, which lies in [0, 360)
      and differs from `x` by a whole number of turns. */
  function Mod360(x: real): (r: real)
    ensures 0.0 <= r < 360.0
  {
    x - 360.0 * (x / 360.0).Floor as real
  }

  /** Adding whole turns does not change the reduced angle. */
  lemma Mod360Turns(x: real, n: int)
    ensures Mod360(x + 360.0 * n as real) == Mod360(x)
  {
    var y := x + 360.0 * n as real;
    assert y / 360.0 == x / 360.0 + n as real;
    assert (y / 360.0).Floor == (x / 360.0).Floor + n;
  }

  /** An angle already in [0, 360) is its own reduction. */
  lemma Mod360OfReduced(x: real)
    requires 0.0 <= x < 360.0
    ensures Mod360(x) == x
  {
    assert 0.0 <= x / 360.0 < 1.0;
    assert (x / 360.0).Floor == 0;
  }

  /** Reducing before or after a shift gives the same angle. */
  lemma Mod360Absorbs(x: real, d: real)
    ensures Mod360(Mod360(x) + d) == Mod360(x + d)
  {
    var n := (x / 360.0).Floor;
    assert Mod360(x) + d == (x + d) + 360.0 * (-n) as real;
    Mod360Turns(x + d, -n);
  }

  // Ordered-field facts the solver does not find unaided.

  lemma MulLess(a: real, b: real, c: real)
    requires a < b && 0.0 < c
    ensures a * c < b * c
  {
    assert (b - a) * c > 0.0;
  }

  /** A number whose square is at most 1 is at most 1 in magnitude. */
  lemma UnitBound(k: real)
    requires Sq(k) <= 1.0
    ensures Abs(k) <= 1.0
  {
    var a := Abs(k);
    assert a * a == Sq(k);
    assert (a - 1.0) * (a + 1.0) == a * a - 1.0;
    ProductSign(a - 1.0, a + 1.0);
  }

  /** A non-positive product with a positive factor has a non-positive other
      factor. */
  lemma ProductSign(x: real, y: real)
    requires x * y <= 0.0 && 0.0 < y
    ensures x <= 0.0
  {
    if 0.0 < x {
      MulLess(0.0, x, y);
      assert false;
    }
  }

  lemma AbsMul(x: real, y: real)
    ensures Abs(x * y) == Abs(x) * Abs(y)
  {
    if x < 0.0 {
      if y < 0.0 {
        assert x * y == (-x) * (-y);
      } else {
        assert -(x * y) == (-x) * y;
      }
    } else if y < 0.0 {
      assert -(x * y) == x * (-y);
    }
  }

  lemma AbsMulRight(x: real, y: real, b: real)
    requires Abs(y) <= b
    ensures Abs(x * y) <= Abs(x) * b
  {
    AbsMul(x, y);
    assert Abs(x) * b - Abs(x) * Abs(y) == Abs(x) * (b - Abs(y));
  }

  lemma AbsMulLeft(x: real, b: real, y: real)
    requires Abs(x) <= b
    ensures Abs(x * y) <= b * Abs(y)
  {
    AbsMul(x, y);
    assert b * Abs(y) - Abs(x) * Abs(y) == (b - Abs(x)) * Abs(y);
  }

  lemma AbsDivBound(x: real, b: real, c: real)
    requires Abs(x) <= b && 0.0 < c
    ensures Abs(x / c) <= b / c
  {
    assert b / c - Abs(x / c) == (b - Abs(x)) / c;
  }
}

/** The angle value type of the antenna model (src/antenna/model/angles.cc):
    degree/radian conversions, the azimuth/inclination pair `Angles`, its
    normalisation of the azimuth, and its stream operators.

    Everything is over `real`: floating-point rounding is not modelled.
    M_PI is `Pi`, an arbitrary positive real, so that no proof relies on
    its digits. The C library functions atan2, acos and sqrt are fields of
    a `MathLib` value that callers supply; nothing is assumed about them. */
module Antenna {

  type PositiveReal = r: real | r > 0.0 witness 1.0

  /** M_PI. Only its positivity is known. */
  const MPi: PositiveReal

  /** M_PI as a plain real, so that -Pi and the like stay reals. */
  const Pi: real := MPi

  // ---------------------------------------------------------------------
  // Unit conversions
  // ---------------------------------------------------------------------

  function DegreesToRadians(degrees: real): real
  {
    degrees * Pi / 180.0
  }

  function RadiansToDegrees(radians: real): real
  {
    radians * 180.0 / Pi
  }

  /** Converting to radians and back gives the original number of degrees. */
  lemma RadiansToDegreesOfDegreesToRadians(degrees: real)
    ensures RadiansToDegrees(DegreesToRadians(degrees)) == degrees
  {
  }

  /** Converting to degrees and back gives the original number of radians. */
  lemma DegreesToRadiansOfRadiansToDegrees(radians: real)
    ensures DegreesToRadians(RadiansToDegrees(radians)) == radians
  {
  }

  /** Half a turn: 180 degrees is Pi radians, and the other way round. */
  lemma HalfTurn()
    ensures DegreesToRadians(180.0) == Pi
    ensures RadiansToDegrees(Pi) == 180.0
  {
    assert 180.0 * Pi / 180.0 == Pi;
    assert Pi * 180.0 / Pi == 180.0;
  }

  /** The vector overload of DegreesToRadians: one converted element per
      input element, in the same order. */
  method DegreesToRadiansSeq(degrees: seq<real>) returns (radians: seq<real>)
    ensures |radians| == |degrees|
    ensures forall i :: 0 <= i < |degrees| ==> radians[i] == DegreesToRadians(degrees[i])
  {
    radians := [];
    for i := 0 to |degrees|
      invariant |radians| == i
      invariant forall k :: 0 <= k < i ==> radians[k] == DegreesToRadians(degrees[k])
    {
      radians := radians + [DegreesToRadians(degrees[i])];
    }
  }

  /** The vector overload of RadiansToDegrees. */
  method RadiansToDegreesSeq(radians: seq<real>) returns (degrees: seq<real>)
    ensures |degrees| == |radians|
    ensures forall i :: 0 <= i < |radians| ==> degrees[i] == RadiansToDegrees(radians[i])
  {
    degrees := [];
    for i := 0 to |radians|
      invariant |degrees| == i
      invariant forall k :: 0 <= k < i ==> degrees[k] == RadiansToDegrees(radians[k])
    {
      degrees := degrees + [RadiansToDegrees(radians[i])];
    }
  }

  // ---------------------------------------------------------------------
  // fmod and the normalisation of the azimuth
  // ---------------------------------------------------------------------

  /** Conversion of a real to an integer by truncation toward zero, as C does. */
  function Trunc(r: real): int
  {
    if r >= 0.0 then r.Floor else -((-r).Floor)
  }

  /** C's fmod over the reals: x - y * trunc(x / y). The result has the sign
      of the dividend x. */
  function FMod(x: real, y: real): real
    requires y != 0.0
  {
    x - y * (Trunc(x / y) as real)
  }

  /** Multiplying by a positive factor keeps order. */
  lemma ScaleMonotonic(a: real, b: real, y: real)
    requires y > 0.0
    ensures a <= b ==> a * y <= b * y
    ensures a < b ==> a * y < b * y
  {
    assert (b - a) * y == b * y - a * y;
    if a < b {
      assert (b - a) * y > 0.0;
    }
  }

  /** A remainder r = y * d with a fractional d keeps the sign of d and stays
      below y in magnitude. */
  lemma ScaleFraction(r: real, d: real, y: real)
    requires y > 0.0 && r == y * d
    ensures 0.0 <= d < 1.0 ==> 0.0 <= r < y
    ensures -1.0 < d <= 0.0 ==> -y < r <= 0.0
  {
    assert y * d == d * y;
    if 0.0 <= d < 1.0 {
      ScaleMonotonic(0.0, d, y);
      ScaleMonotonic(d, 1.0, y);
      assert 0.0 * y == 0.0 && 1.0 * y == y;
    }
    if -1.0 < d <= 0.0 {
      ScaleMonotonic(-1.0, d, y);
      ScaleMonotonic(d, 0.0, y);
      assert 0.0 * y == 0.0 && -1.0 * y == -y;
    }
  }

  /** fmod by a positive divisor lies in [0, y) for a non-negative dividend
      and in (-y, 0] for a negative one. */
  lemma FModBounds(x: real, y: real)
    requires y > 0.0
    ensures x >= 0.0 ==> 0.0 <= FMod(x, y) < y
    ensures x < 0.0 ==> -y < FMod(x, y) <= 0.0
  {
    var q := x / y;
    var n := Trunc(q) as real;
    assert x >= 0.0 <==> q >= 0.0;
    assert FMod(x, y) == y * (q - n);
    assert q >= 0.0 ==> 0.0 <= q - n < 1.0;
    assert q < 0.0 ==> -1.0 < q - n <= 0.0;
    ScaleFraction(FMod(x, y), q - n, y);
  }

  /** Angles::NormalizeAngles on the azimuth: shift by Pi, take fmod by 2 Pi,
      and shift back up or down by Pi according to the sign of the remainder. */
  function Normalize(phi: real): real
  {
    var r := FMod(phi + Pi, 2.0 * Pi);
    if r < 0.0 then r + Pi else r - Pi
  }

  /** The normalised azimuth lies in [-Pi, Pi): Pi itself is excluded, -Pi is not. */
  lemma NormalizeRange(phi: real)
    ensures -Pi <= Normalize(phi) < Pi
  {
    FModBounds(phi + Pi, 2.0 * Pi);
  }

  /** An azimuth already in [-Pi, Pi) is left exactly as it is. */
  lemma NormalizeFixesRange(phi: real)
    requires -Pi <= phi < Pi
    ensures Normalize(phi) == phi
  {
    var x, y := phi + Pi, 2.0 * Pi;
    var q := x / y;
    assert q * y == x;
    if q < 0.0 {
      ScaleMonotonic(q, 0.0, y);
      assert false;
    }
    if q >= 1.0 {
      ScaleMonotonic(1.0, q, y);
      assert false;
    }
    assert Trunc(q) == 0;
  }

  /** Normalising twice is the same as normalising once. */
  lemma NormalizeIdempotent(phi: real)
    ensures Normalize(Normalize(phi)) == Normalize(phi)
  {
    NormalizeRange(phi);
    NormalizeFixesRange(Normalize(phi));
  }

  /** The normalised azimuth differs from the input by a whole number k of
      turns. */
  lemma NormalizeTurns(phi: real) returns (k: int)
    ensures Normalize(phi) == phi + 2.0 * Pi * (k as real)
  {
    var n := Trunc((phi + Pi) / (2.0 * Pi));
    var r := FMod(phi + Pi, 2.0 * Pi);
    assert r == phi + Pi - 2.0 * Pi * (n as real);
    if r < 0.0 {
      k := 1 - n;
      assert 2.0 * Pi * (k as real) == 2.0 * Pi - 2.0 * Pi * (n as real);
    } else {
      k := -n;
      assert 2.0 * Pi * (k as real) == -(2.0 * Pi * (n as real));
    }
  }

  /** Two azimuths in [-Pi, Pi) that differ by whole turns are equal. */
  lemma CongruentInRangeEqual(a: real, b: real, m: int)
    requires -Pi <= a < Pi && -Pi <= b < Pi
    requires a == b + 2.0 * Pi * (m as real)
    ensures a == b
  {
    if m >= 1 {
      ScaleMonotonic(1.0, m as real, 2.0 * Pi);
      assert false;
    } else if m <= -1 {
      ScaleMonotonic(m as real, -1.0, 2.0 * Pi);
      assert false;
    }
  }

  /** Bookkeeping of whole turns: shifting by k turns and then by k2 turns,
      against k1 turns, is a shift by k + k2 - k1 turns. */
  lemma TurnsCombine(phi: real, turn: real, k: int, k1: int, k2: int, a: real, b: real)
    requires a == (phi + turn * (k as real)) + turn * (k2 as real)
    requires b == phi + turn * (k1 as real)
    ensures a == b + turn * ((k + k2 - k1) as real)
  {
  }

  /** Adding whole turns to the azimuth does not change its normalised value:
      Normalize depends only on the direction. */
  lemma NormalizePeriodic(phi: real, k: int)
    ensures Normalize(phi + 2.0 * Pi * (k as real)) == Normalize(phi)
  {
    var shifted := phi + 2.0 * Pi * (k as real);
    var k1 := NormalizeTurns(phi);
    var k2 := NormalizeTurns(shifted);
    NormalizeRange(phi);
    NormalizeRange(shifted);
    TurnsCombine(phi, 2.0 * Pi, k, k1, k2, Normalize(shifted), Normalize(phi));
    CongruentInRangeEqual(Normalize(shifted), Normalize(phi), k + k2 - k1);
  }

  /** The upper end of the range wraps: Pi becomes -Pi. */
  lemma NormalizeWrapsPi()
    ensures Normalize(Pi) == -Pi
  {
    assert (Pi + Pi) / (2.0 * Pi) == 1.0;
    assert Trunc(1.0) == 1;
  }

  // ---------------------------------------------------------------------
  // Vectors and the foreign math the constructors call
  // ---------------------------------------------------------------------

  /** ns-3's Vector (x, y, z). */
  datatype Vector = Vector(x: real, y: real, z: real)

  /** Component-wise difference v - o. */
  function Sub(v: Vector, o: Vector): Vector
  {
    Vector(v.x - o.x, v.y - o.y, v.z - o.z)
  }

  /** The C library functions the constructors call; nothing is known of them. */
  datatype MathLib = MathLib(atan2: (real, real) -> real, acos: real -> real, sqrt: real -> real)

  /** The sum of the squared components of v. */
  function SquaredNorm(v: Vector): real
  {
    v.x * v.x + v.y * v.y + v.z * v.z
  }

  /** Vector::GetLength: the square root of the sum of squared components. */
  function GetLength(m: MathLib, v: Vector): real
  {
    m.sqrt(SquaredNorm(v))
  }

  /** ns-3's CalculateDistance(a, b): the length of b - a. */
  function CalculateDistance(m: MathLib, a: Vector, b: Vector): real
  {
    GetLength(m, Sub(b, a))
  }

  /** The distance between v and o is the length of the displacement v - o,
      whatever sqrt computes. */
  lemma DistanceIsDisplacementLength(m: MathLib, v: Vector, o: Vector)
    ensures CalculateDistance(m, v, o) == GetLength(m, Sub(v, o))
  {
    var d, e := Sub(o, v), Sub(v, o);
    assert d.x * d.x == e.x * e.x;
    assert d.y * d.y == e.y * e.y;
    assert d.z * d.z == e.z * e.z;
    assert SquaredNorm(d) == SquaredNorm(e);
  }

  // ---------------------------------------------------------------------
  // The Angles class
  // ---------------------------------------------------------------------

  /** A direction as azimuth phi and inclination theta, in radians. Every
      constructor normalises phi; theta is stored as given. */
  class Angles {
    var phi: real
    var theta: real

    /** Angles(): the broadside direction phi = 0, theta = Pi/2. */
    constructor Default()
      ensures phi == 0.0 && theta == Pi / 2.0
    {
      phi := 0.0;
      theta := Pi / 2.0;
      new;
      NormalizeAngles();
      NormalizeFixesRange(0.0);
    }

    /** Angles(p, t): phi is normalised, theta is kept verbatim. */
    constructor (p: real, t: real)
      ensures phi == Normalize(p) && theta == t
      ensures -Pi <= phi < Pi
    {
      phi := p;
      theta := t;
      new;
      NormalizeAngles();
    }

    /** Angles(v): the direction of v. A zero-length v is a caller error. */
    constructor FromVector(m: MathLib, v: Vector)
      requires GetLength(m, v) != 0.0
      ensures phi == Normalize(m.atan2(v.y, v.x))
      ensures theta == m.acos(v.z / GetLength(m, v))
      ensures -Pi <= phi < Pi
    {
      phi := m.atan2(v.y, v.x);
      theta := m.acos(v.z / GetLength(m, v));
      new;
      NormalizeAngles();
    }

    /** Angles(v, o): the direction of v seen from o. Its fields are those
        Angles(v - o) would have. Coincident points are a caller error. */
    constructor FromVectors(m: MathLib, v: Vector, o: Vector)
      requires GetLength(m, Sub(v, o)) != 0.0
      ensures phi == Normalize(m.atan2(Sub(v, o).y, Sub(v, o).x))
      ensures theta == m.acos(Sub(v, o).z / GetLength(m, Sub(v, o)))
      ensures -Pi <= phi < Pi
    {
      DistanceIsDisplacementLength(m, v, o);
      phi := m.atan2(v.y - o.y, v.x - o.x);
      theta := m.acos((v.z - o.z) / CalculateDistance(m, v, o));
      new;
      NormalizeAngles();
    }

    /** Angles::NormalizeAngles, in place: phi moves into [-Pi, Pi) and
        theta is untouched. */
    method NormalizeAngles()
      modifies this
      ensures phi == Normalize(old(phi)) && theta == old(theta)
      ensures -Pi <= phi < Pi
    {
      NormalizeRange(phi);
      phi := FMod(phi + Pi, 2.0 * Pi);
      if phi < 0.0 {
        phi := phi + Pi;
      } else {
        phi := phi - Pi;
      }
    }
  }

  // ---------------------------------------------------------------------
  // Stream operators
  // ---------------------------------------------------------------------

  /** The text operator<< writes for an angle whose fields print as
      phiText and thetaText. */
  function Formatted(phiText: string, thetaText: string): string
  {
    "(" + phiText + ", " + thetaText + ")"
  }

  /** The formatted text is parenthesised, the fields can be cut back out of
      it at known positions, and the character after phi is a comma, so
      operator>> (which wants ':') would not accept it. */
  lemma FormattedFields(phiText: string, thetaText: string)
    ensures var s := Formatted(phiText, thetaText);
      && |s| == |phiText| + |thetaText| + 4
      && s[0] == '(' && s[|s| - 1] == ')'
      && s[1..1 + |phiText|] == phiText
      && s[1 + |phiText|] == ',' && s[2 + |phiText|] == ' '
      && s[3 + |phiText|..3 + |phiText| + |thetaText|] == thetaText
  {
    var s := Formatted(phiText, thetaText);
    assert s == ['('] + phiText + [',', ' '] + thetaText + [')'];
    var p := |phiText|;
    assert s[1..1 + p] == phiText by {
      forall i | 0 <= i < p ensures s[1 + i] == phiText[i] { }
    }
    assert s[3 + p..3 + p + |thetaText|] == thetaText by {
      forall i | 0 <= i < |thetaText| ensures s[3 + p + i] == thetaText[i] { }
    }
  }

  /** An output stream, reduced to the text written to it so far. */
  class OutputStream {
    var text: string

    constructor ()
      ensures text == []
    {
      text := [];
    }
  }

  /** operator<<: appends "(phi, theta)"; show renders a double as text. */
  method WriteAngles(os: OutputStream, a: Angles, show: real -> string)
    modifies os
    ensures os.text == old(os.text) + Formatted(show(a.phi), show(a.theta))
  {
    os.text := os.text + "(" + show(a.phi) + ", " + show(a.theta) + ")";
  }

  /** An input stream, reduced to its failbit. */
  class InputStream {
    var failed: bool

    constructor ()
      ensures !failed
    {
      failed := false;
    }
  }

  /** What operator>> extracts from the stream: a number, a single
      separator character, a number. */
  datatype AnglesText = AnglesText(phi: real, separator: char, theta: real)

  /** operator>>: on a good stream, both fields are assigned verbatim (phi is
      NOT normalised) and the failbit is set exactly when the separator is not
      ':'. On a stream that has already failed, extraction does nothing. */
  method ReadAngles(stream: InputStream, a: Angles, tokens: AnglesText)
    modifies stream, a
    ensures old(stream.failed) ==> stream.failed && a.phi == old(a.phi) && a.theta == old(a.theta)
    ensures !old(stream.failed) ==> a.phi == tokens.phi && a.theta == tokens.theta
    ensures !old(stream.failed) ==> (stream.failed <==> tokens.separator != ':')
  {
    if !stream.failed {
      a.phi := tokens.phi;
      var c := tokens.separator;
      a.theta := tokens.theta;
      if c != ':' {
        stream.failed := true;
      }
    }
  }
}

/**
  The parts of UnityEngine's Vector2, Vector3 and Mathf that the boids core uses,
  over exact reals. Square root, cosine and sine cannot be defined here, so they
  are supplied as a `Numerics` value whose laws `Lawful` states; every property
  that depends on them assumes `Lawful`.
 */
module UnityMath {

  datatype Option<T> = None | Some(value: T)

  /** A Vector3; a Vector2 is represented by a Vec3 whose z is 0 (see Flatten). */
  datatype Vec3 = Vec3(x: real, y: real, z: real)

  /** A Vector2 used as a plain pair of numbers (BoidSettings.SqrDistanceRange). */
  datatype Vec2 = Vec2(x: real, y: real)

  const Zero: Vec3 := Vec3(0.0, 0.0, 0.0)

  /** Vector3.kEpsilon and Vector2.kEpsilon: below this magnitude `normalized` is the zero vector. */
  const Epsilon: real := 0.00001

  function Add(a: Vec3, b: Vec3): Vec3 { Vec3(a.x + b.x, a.y + b.y, a.z + b.z) }

  function Sub(a: Vec3, b: Vec3): Vec3 { Vec3(a.x - b.x, a.y - b.y, a.z - b.z) }

  function Neg(a: Vec3): Vec3 { Vec3(-a.x, -a.y, -a.z) }

  /** `v * k` in Unity. */
  function Scale(k: real, v: Vec3): Vec3 { Vec3(k * v.x, k * v.y, k * v.z) }

  /** `v / k` in Unity; the model refuses k == 0, where floats give infinities or NaN. */
  function DivBy(v: Vec3, k: real): Vec3
    requires k != 0.0
  {
    Vec3(v.x / k, v.y / k, v.z / k)
  }

  /** Vector3.sqrMagnitude. */
  function SqrMag(v: Vec3): (r: real)
    ensures 0.0 <= r
  {
    v.x * v.x + v.y * v.y + v.z * v.z
  }

  /** The implicit conversion Vector3 -> Vector2 -> Vector3: z is dropped. */
  function Flatten(v: Vec3): (r: Vec3)
    ensures r.x == v.x && r.y == v.y && r.z == 0.0
  {
    Vec3(v.x, v.y, 0.0)
  }

  /** Square root and the trigonometric functions (in degrees, i.e. Mathf.Cos(a * Mathf.Deg2Rad)). */
  datatype Numerics = Numerics(sqrt: real -> real, cosDeg: real -> real, sinDeg: real -> real)

  /**
    The laws the model relies on: sqrt is the non-negative square root on non-negative
    arguments, cos^2 + sin^2 == 1, cos 0 == 1 and sin 0 == 0, and cosine is even and
    sine odd (angles a and -a).
   */
  ghost predicate Lawful(m: Numerics) {
    && (forall x: real :: 0.0 <= x ==> 0.0 <= m.sqrt(x) && m.sqrt(x) * m.sqrt(x) == x)
    && (forall a: real :: m.cosDeg(a) * m.cosDeg(a) + m.sinDeg(a) * m.sinDeg(a) == 1.0)
    && m.cosDeg(0.0) == 1.0 && m.sinDeg(0.0) == 0.0
    && (forall a: real, b: real :: a + b == 0.0 ==> m.cosDeg(a) == m.cosDeg(b) && m.sinDeg(a) == -m.sinDeg(b))
  }

  lemma MulPositive(a: real, b: real)
    requires 0.0 < a && 0.0 < b
    ensures 0.0 < a * b
  {
  }

  lemma MulNonNegative(a: real, b: real)
    requires 0.0 <= a && 0.0 <= b
    ensures 0.0 <= a * b
  {
  }

  lemma SquareNonNegative(a: real)
    ensures 0.0 <= a * a
  {
    if a < 0.0 {
      MulNonNegative(-a, -a);
    } else {
      MulNonNegative(a, a);
    }
  }

  /** Rewriting one factor of a product by an equal value (kept explicit for the solver). */
  lemma MulCongruence(q: real, a: real, b: real)
    requires a == b
    ensures q * a == q * b
  {
  }

  /** Two non-negative numbers with equal squares are equal. */
  lemma SquareRootUnique(r: real, c: real)
    requires 0.0 <= r && 0.0 <= c && r * r == c * c
    ensures r == c
  {
    if r < c {
      MulPositive(c - r, c + r);
    } else if r > c {
      MulPositive(r - c, c + r);
    }
  }

  lemma SqrtOfSquare(m: Numerics, c: real)
    requires Lawful(m) && 0.0 <= c
    ensures m.sqrt(c * c) == c
  {
    SquareNonNegative(c);
    SquareRootUnique(m.sqrt(c * c), c);
  }

  lemma SqrMagScale(k: real, v: Vec3)
    ensures SqrMag(Scale(k, v)) == (k * k) * SqrMag(v)
  {
    calc {
      SqrMag(Scale(k, v));
      (k * v.x) * (k * v.x) + (k * v.y) * (k * v.y) + (k * v.z) * (k * v.z);
      (k * k) * (v.x * v.x) + (k * k) * (v.y * v.y) + (k * k) * (v.z * v.z);
      (k * k) * SqrMag(v);
    }
  }

  lemma InverseSquareCancels(k: real)
    requires k != 0.0
    ensures ((1.0 / k) * (1.0 / k)) * (k * k) == 1.0
  {
    var i := 1.0 / k;
    assert i * k == 1.0;
    calc {
      (i * i) * (k * k);
      (i * k) * (i * k);
      1.0;
    }
  }

  /** Dividing v by a positive k whose square is |v|^2 gives a unit vector. */
  lemma UnitAfterDivision(v: Vec3, k: real)
    requires 0.0 < k && k * k == SqrMag(v)
    ensures SqrMag(DivBy(v, k)) == 1.0
  {
    var i := 1.0 / k;
    assert DivBy(v, k) == Scale(i, v);
    SqrMagScale(i, v);
    MulCongruence(i * i, SqrMag(v), k * k);
    InverseSquareCancels(k);
  }

  /** Vector3.magnitude. */
  function Magnitude(m: Numerics, v: Vec3): (r: real)
    ensures Lawful(m) ==> 0.0 <= r && r * r == SqrMag(v)
  {
    m.sqrt(SqrMag(v))
  }

  /** Under lawful numerics a vector has magnitude 0 exactly when its squared magnitude is 0. */
  lemma MagnitudeZero(m: Numerics, v: Vec3)
    requires Lawful(m)
    ensures Magnitude(m, v) == 0.0 <==> SqrMag(v) == 0.0
  {
    var k := Magnitude(m, v);
    if SqrMag(v) == 0.0 {
      SquareRootUnique(k, 0.0);
    }
  }

  /** A unit vector scaled by c >= 0 has magnitude c. */
  lemma MagnitudeOfScaledUnit(m: Numerics, c: real, u: Vec3)
    requires Lawful(m) && 0.0 <= c && SqrMag(u) == 1.0
    ensures SqrMag(Scale(c, u)) == c * c
    ensures Magnitude(m, Scale(c, u)) == c
  {
    SqrMagScale(c, u);
    MulCongruence(c * c, SqrMag(u), 1.0);
    SqrtOfSquare(m, c);
  }

  /** Vector3.normalized (and Vector2.normalized): zero at or below Epsilon, otherwise v / |v|. */
  function Normalized(m: Numerics, v: Vec3): (r: Vec3)
    ensures Lawful(m) && Magnitude(m, v) > Epsilon ==> SqrMag(r) == 1.0
    ensures Magnitude(m, v) <= Epsilon ==> r == Zero
    ensures Lawful(m) && SqrMag(v) == 0.0 ==> r == Zero
  {
    var mag := Magnitude(m, v);
    if mag > Epsilon then
      DivByMagnitudeIsUnit(m, v);
      DivBy(v, mag)
    else
      Zero
  }

  lemma DivByMagnitudeIsUnit(m: Numerics, v: Vec3)
    requires Magnitude(m, v) > 0.0
    ensures Lawful(m) ==> SqrMag(DivBy(v, Magnitude(m, v))) == 1.0
  {
    if Lawful(m) {
      UnitAfterDivision(v, Magnitude(m, v));
    }
  }

  /** Dividing by a non-zero factor undoes scaling by it. */
  lemma ScaleThenDivide(c: real, v: Vec3)
    requires c != 0.0
    ensures DivBy(Scale(c, v), c) == v
  {
    assert (c * v.x) / c == v.x && (c * v.y) / c == v.y && (c * v.z) / c == v.z;
  }

  /** Dividing by a non-zero c and scaling back by c gives the vector back. */
  lemma DivideThenScale(c: real, v: Vec3)
    requires c != 0.0
    ensures Scale(c, DivBy(v, c)) == v
  {
    assert c * (v.x / c) == v.x && c * (v.y / c) == v.y && c * (v.z / c) == v.z;
  }

  /** The length bound of ClampMagnitude's first branch. */
  lemma ScaledNormalizedBound(m: Numerics, maxLength: real, v: Vec3)
    ensures Lawful(m) ==> SqrMag(Scale(maxLength, Normalized(m, v))) <= maxLength * maxLength
    ensures Lawful(m) && Magnitude(m, v) > Epsilon ==>
      SqrMag(Scale(maxLength, Normalized(m, v))) == maxLength * maxLength
  {
    var n := Normalized(m, v);
    SqrMagScale(maxLength, n);
    SquareNonNegative(maxLength);
    if Lawful(m) && Magnitude(m, v) > Epsilon {
      MulCongruence(maxLength * maxLength, SqrMag(n), 1.0);
    } else if Magnitude(m, v) <= Epsilon {
      MulCongruence(maxLength * maxLength, SqrMag(n), 0.0);
    }
  }

  /** Vector3.ClampMagnitude: a vector longer than maxLength is shortened to it, others are kept. */
  function ClampMagnitude(m: Numerics, v: Vec3, maxLength: real): (r: Vec3)
    ensures Lawful(m) ==> SqrMag(r) <= maxLength * maxLength
    ensures SqrMag(v) <= maxLength * maxLength ==> r == v
    ensures Lawful(m) && SqrMag(v) > maxLength * maxLength && Magnitude(m, v) > Epsilon ==>
      SqrMag(r) == maxLength * maxLength
  {
    if SqrMag(v) > maxLength * maxLength then
      ScaledNormalizedBound(m, maxLength, v);
      Scale(maxLength, Normalized(m, v))
    else
      v
  }

  /** Mathf.Clamp (checks the lower bound first). */
  function Clamp(value: real, min: real, max: real): (r: real)
    ensures min <= max ==> min <= r <= max
    ensures min <= value <= max ==> r == value
  {
    if value < min then min else if value > max then max else value
  }

  /** Mathf.Clamp01. */
  function Clamp01(value: real): (r: real)
    ensures 0.0 <= r <= 1.0
    ensures 0.0 <= value <= 1.0 ==> r == value
  {
    if value < 0.0 then 0.0 else if value > 1.0 then 1.0 else value
  }

  lemma QuotientBounds(num: real, den: real)
    requires 0.0 < den
    ensures num <= 0.0 ==> num / den <= 0.0
    ensures den <= num ==> 1.0 <= num / den
  {
    var q := num / den;
    assert q * den == num;
    if num <= 0.0 && q > 0.0 {
      MulPositive(q, den);
    }
    if den <= num && q < 1.0 {
      MulPositive(1.0 - q, den);
    }
  }

  /** Mathf.InverseLerp: where `value` lies between a and b, as a fraction in [0, 1]; 0 for a == b. */
  function InverseLerp(a: real, b: real, value: real): (r: real)
    ensures 0.0 <= r <= 1.0
    ensures a == b ==> r == 0.0
    ensures a < b && value <= a ==> r == 0.0
    ensures a < b && b <= value ==> r == 1.0
  {
    if a != b then
      (if a < b then QuotientBounds(value - a, b - a); Clamp01((value - a) / (b - a)) else Clamp01((value - a) / (b - a)))
    else 0.0
  }

  /** Mathf.Lerp: the point a fraction t (clamped to [0, 1]) of the way from a to b. */
  function Lerp(a: real, b: real, t: real): real {
    a + (b - a) * Clamp01(t)
  }

  /** Lerp stays between its end points and reaches them at t <= 0 and t >= 1. */
  lemma LerpFacts(a: real, b: real, t: real)
    ensures a <= b ==> a <= Lerp(a, b, t) <= b
    ensures b <= a ==> b <= Lerp(a, b, t) <= a
    ensures t <= 0.0 ==> Lerp(a, b, t) == a
    ensures 1.0 <= t ==> Lerp(a, b, t) == b
  {
    var u := Clamp01(t);
    var d := b - a;
    assert Lerp(a, b, t) == a + d * u;
    if t <= 0.0 {
      assert u == 0.0 && d * u == 0.0;
    } else if 1.0 <= t {
      assert u == 1.0 && d * u == d;
    } else {
      LerpBetween(a, b, u);
    }
  }

  /** a + (b - a) * u lies between a and b for u in [0, 1]. */
  lemma LerpBetween(a: real, b: real, u: real)
    requires 0.0 <= u <= 1.0
    ensures a <= b ==> a <= a + (b - a) * u <= b
    ensures b <= a ==> b <= a + (b - a) * u <= a
  {
    var d := b - a;
    assert d * u + d * (1.0 - u) == d;
    if a <= b {
      MulNonNegative(d, u);
      MulNonNegative(d, 1.0 - u);
    } else {
      MulNonNegative(-d, u);
      MulNonNegative(-d, 1.0 - u);
    }
  }
}

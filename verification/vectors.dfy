/** `Vector3`: three real components with the component-wise operators of
    the source. Floating point is not modelled: the components are exact
    reals. The square root behind `magnitude` and the sine/cosine behind the
    Euler matrices are not expressible here; the modules that need them take
    them as function parameters. */
module Vectors {
  import opened Failures
  import opened Wire

  datatype Vector3 = Vector3(x: real, y: real, z: real)

  /** The right-hand operand of `==`/`!=`: any Python object. */
  datatype Operand = Vec(v: Vector3) | Foreign

  const Zero := Vector3(0.0, 0.0, 0.0)
  const One := Vector3(1.0, 1.0, 1.0)

  /** `a + b` */
  function Add(a: Vector3, b: Vector3): Vector3 {
    Vector3(a.x + b.x, a.y + b.y, a.z + b.z)
  }

  /** `a - b` */
  function Sub(a: Vector3, b: Vector3): Vector3 {
    Vector3(a.x - b.x, a.y - b.y, a.z - b.z)
  }

  /** `-a` */
  function Neg(a: Vector3): Vector3 {
    Vector3(-a.x, -a.y, -a.z)
  }

  /** `a * k` */
  function Scale(a: Vector3, k: real): Vector3 {
    Vector3(a.x * k, a.y * k, a.z * k)
  }

  /** `a / k`: `ZeroDivisionError` for a zero divisor, otherwise the
      component-wise quotient, which `Scale` by `k` undoes. */
  function Div(a: Vector3, k: real): (r: Result<Vector3>)
    ensures r.Raise? <==> k == 0.0
    ensures r.Raise? ==> r.error == ZeroDivisionError
    ensures r.Ok? ==> Scale(r.value, k) == a
  {
    if k == 0.0 then Raise(ZeroDivisionError)
    else Ok(Vector3(a.x / k, a.y / k, a.z / k))
  }

  /** Python's `%` on floats: the remainder differs from `a` by a whole
      multiple of the divisor, takes the sign of the divisor and is smaller
      than it in magnitude. */
  function PyMod(a: real, d: real): (r: real)
    requires d != 0.0
    ensures IsInt((a - r) / d)
    ensures d > 0.0 ==> 0.0 <= r < d
    ensures d < 0.0 ==> d < r <= 0.0
  {
    var q := (a / d).Floor;
    FloorDivBounds(a, d);
    assert (q as real * d) / d == q as real;
    a - (q as real) * d
  }

  /** `x` is a whole number. */
  predicate IsInt(x: real) {
    x.Floor as real == x
  }

  /** The remainder is the only value in its range that differs from `a`
      by a whole multiple of `d`. */
  lemma PyModUnique(a: real, d: real, q: int, r: real)
    requires d != 0.0 && a == (q as real) * d + r
    requires d > 0.0 ==> 0.0 <= r < d
    requires d < 0.0 ==> d < r <= 0.0
    ensures PyMod(a, d) == r
  {
    DivSplit(q as real, r, d);
    if d > 0.0 {
      FractionBelowOne(r, d);
    } else {
      assert r / d == (-r) / (-d);
      FractionBelowOne(-r, -d);
    }
    assert (a / d).Floor == q;
  }

  /** Dividing `x * d + r` by `d` gives `x` plus the fraction `r / d`. */
  lemma DivSplit(x: real, r: real, d: real)
    requires d != 0.0
    ensures (x * d + r) / d == x + r / d
  {
    var t := r / d;
    var e := (x * d + r) / d;
    assert t * d == r;
    assert e * d == x * d + r;
    assert (x + t) * d == x * d + t * d;
    MulCancel(e, x + t, d);
  }

  lemma MulCancel(x: real, y: real, d: real)
    requires d != 0.0 && x * d == y * d
    ensures x == y
  {
    assert (x - y) * d == 0.0;
  }

  lemma FractionBelowOne(x: real, y: real)
    requires 0.0 <= x < y
    ensures 0.0 <= x / y < 1.0
  {
    var t := x / y;
    assert t * y == x;
    if t >= 1.0 {
      MulLeft(1.0, t, y);
    }
  }

  /** The floor of `a / d` brackets `a` between consecutive multiples of `d`. */
  lemma FloorDivBounds(a: real, d: real)
    requires d != 0.0
    ensures d > 0.0 ==> (a / d).Floor as real * d <= a < (a / d).Floor as real * d + d
    ensures d < 0.0 ==> (a / d).Floor as real * d + d < a <= (a / d).Floor as real * d
  {
    var e := a / d;
    var q := e.Floor as real;
    assert q <= e < q + 1.0;
    assert e * d == a;
    assert (q + 1.0) * d == q * d + d;
    if d > 0.0 {
      MulLeft(q, e, d);
      MulStrict(e, q + 1.0, d);
      assert e * d < (q + 1.0) * d;
      assert a < q * d + d;
    } else {
      MulLeft(q, e, -d);
      MulStrict(e, q + 1.0, -d);
      MulNeg(q, d);
      MulNeg(e, d);
      MulNeg(q + 1.0, d);
      assert -(e * d) < -((q + 1.0) * d);
      assert q * d + d < a;
    }
  }

  lemma MulLeft(x: real, y: real, d: real)
    requires x <= y && d > 0.0
    ensures x * d <= y * d
  {
  }

  lemma MulNeg(x: real, d: real)
    ensures x * (-d) == -(x * d)
  {
  }

  lemma MulStrict(x: real, y: real, d: real)
    requires x < y && d > 0.0
    ensures x * d < y * d
  {
  }

  /** `divmod(a, k)` as the source defines it: Python `%` on each component,
      `ZeroDivisionError` for a zero divisor. */
  function DivMod(a: Vector3, k: real): (r: Result<Vector3>)
    ensures r.Raise? <==> k == 0.0
    ensures r.Raise? ==> r.error == ZeroDivisionError
    ensures r.Ok? ==> r.value == Vector3(PyMod(a.x, k), PyMod(a.y, k), PyMod(a.z, k))
    ensures r.Ok? && k > 0.0 ==> 0.0 <= r.value.x < k && 0.0 <= r.value.y < k && 0.0 <= r.value.z < k
    ensures r.Ok? && k < 0.0 ==> k < r.value.x <= 0.0 && k < r.value.y <= 0.0 && k < r.value.z <= 0.0
  {
    if k == 0.0 then Raise(ZeroDivisionError)
    else Ok(Vector3(PyMod(a.x, k), PyMod(a.y, k), PyMod(a.z, k)))
  }

  /** `to_radians()`: each component times `radiansPerDegree` (pi/180, which
      is irrational and so a parameter here). */
  function ToRadians(a: Vector3, radiansPerDegree: real): Vector3 {
    Scale(a, radiansPerDegree)
  }

  /** `to_degrees()`: each component divided by `radiansPerDegree`. */
  function ToDegrees(a: Vector3, radiansPerDegree: real): Vector3
    requires radiansPerDegree > 0.0
  {
    Vector3(a.x / radiansPerDegree, a.y / radiansPerDegree, a.z / radiansPerDegree)
  }

  /** `a == other` and `a != other`: component-wise, `TypeError` against any
      other class. */
  function Equals(a: Vector3, other: Operand, negate: bool): (r: Result<bool>)
    ensures r.Raise? <==> other.Foreign?
    ensures r.Raise? ==> r.error == TypeError
    ensures other.Vec? ==> r == Ok((a == other.v) != negate)
  {
    match other
    case Foreign => Raise(TypeError)
    case Vec(b) => Ok((a.x == b.x && a.y == b.y && a.z == b.z) != negate)
  }

  /** The zero vector is an identity of `+`, `-` undoes `+`, `v - v` is
      zero, negation is scaling by -1 and subtraction is adding the
      negation. */
  lemma {:induction false} AdditiveGroup(a: Vector3, b: Vector3)
    ensures Add(a, Zero) == a && Add(Zero, a) == a && Sub(a, Zero) == a
    ensures Sub(a, a) == Zero && Add(a, Neg(a)) == Zero
    ensures Sub(Add(a, b), b) == a && Add(Sub(a, b), b) == a
    ensures Add(a, b) == Add(b, a)
    ensures Sub(a, b) == Add(a, Neg(b)) && Neg(a) == Scale(a, -1.0)
    ensures Scale(a, 1.0) == a && Scale(a, 0.0) == Zero
  {
  }

  /** Converting to radians and back gives the original angles, and the other
      way round. */
  lemma RadiansRoundTrip(a: Vector3, radiansPerDegree: real)
    requires radiansPerDegree > 0.0
    ensures ToDegrees(ToRadians(a, radiansPerDegree), radiansPerDegree) == a
    ensures ToRadians(ToDegrees(a, radiansPerDegree), radiansPerDegree) == a
  {
  }

  /** `to_obj()`: `{"x": x, "y": y, "z": z}`. */
  function ToObj(v: Vector3): Json {
    JObj([("x", JReal(v.x)), ("y", JReal(v.y)), ("z", JReal(v.z))])
  }

  /** Reads an `{x, y, z}` object back. */
  function FromObj(j: Json): Option<Vector3> {
    if j.JObj? && |j.fields| == 3
      && j.fields[0].0 == "x" && j.fields[0].1.JReal?
      && j.fields[1].0 == "y" && j.fields[1].1.JReal?
      && j.fields[2].0 == "z" && j.fields[2].1.JReal?
    then
      Some(Vector3(j.fields[0].1.r, j.fields[1].1.r, j.fields[2].1.r))
    else
      None
  }

  /** `to_obj()` loses nothing: the vector is read back from it. */
  lemma ObjRoundTrip(v: Vector3)
    ensures FromObj(ToObj(v)) == Some(v)
  {
  }
}

/**
 * Three-component vectors, planes and the mean of a point list, over exact reals.
 * Square roots are not available on Dafny's reals: where the program takes a
 * vector's length, the model is handed the length function as a parameter.
 */
module Vectors {
  datatype Vec3 = Vec3(x: real, y: real, z: real)
  datatype Vec2 = Vec2(x: real, y: real)

  const Zero := Vec3(0.0, 0.0, 0.0)
  const ZAxis := Vec3(0.0, 0.0, 1.0)

  function Add(a: Vec3, b: Vec3): Vec3 { Vec3(a.x + b.x, a.y + b.y, a.z + b.z) }
  function Sub(a: Vec3, b: Vec3): Vec3 { Vec3(a.x - b.x, a.y - b.y, a.z - b.z) }
  function Div(a: Vec3, k: real): Vec3 requires k != 0.0 { Vec3(a.x / k, a.y / k, a.z / k) }
  function Dot(a: Vec3, b: Vec3): real { a.x * b.x + a.y * b.y + a.z * b.z }
  function Cross(a: Vec3, b: Vec3): Vec3 {
    Vec3(a.y * b.z - a.z * b.y, a.z * b.x - a.x * b.z, a.x * b.y - a.y * b.x)
  }
  /** A plane as the points q with Dot(normal, q) + d == 0. */
  datatype Plane = Plane(normal: Vec3, d: real)

  predicate OnPlane(p: Plane, q: Vec3) { Dot(p.normal, q) + p.d == 0.0 }

  /** The plane through `point` with normal `normal`. */
  function FromPointAndNormal(point: Vec3, normal: Vec3): Plane {
    Plane(normal, -Dot(normal, point))
  }

  /**
   * The plane through three points, its normal the cross product of the two edges
   * leaving `p0` (left unnormalised: the set of points on the plane is the same).
   */
  function FromPoints(p0: Vec3, p1: Vec3, p2: Vec3): (r: Plane)
    ensures OnPlane(r, p0) && OnPlane(r, p1) && OnPlane(r, p2)
    ensures Dot(r.normal, Sub(p1, p0)) == 0.0 && Dot(r.normal, Sub(p2, p0)) == 0.0
    ensures r.normal == Zero <==> Collinear(p0, p1, p2)
  {
    var n := PolygonNormal(p0, p1, p2);
    NormalZeroIffCollinear(p0, p1, p2);
    CrossOrthogonal(Sub(p1, p0), Sub(p2, p0));
    DotSub(n, p1, p0);
    DotSub(n, p2, p0);
    FromPointAndNormal(p0, n)
  }

  /** The (unnormalised) normal of the triangle p0, p1, p2. */
  function PolygonNormal(p0: Vec3, p1: Vec3, p2: Vec3): Vec3 {
    Cross(Sub(p1, p0), Sub(p2, p0))
  }

  /** The three points lie on one line: p1 is p0, or p2 - p0 is a multiple of p1 - p0. */
  ghost predicate Collinear(p0: Vec3, p1: Vec3, p2: Vec3) {
    p1 == p0 || exists k :: Sub(p2, p0) == Scale(k, Sub(p1, p0))
  }

  /** From a * d == c * b with a != 0: d is c times the ratio b / a. */
  lemma Ratio(a: real, c: real, b: real, d: real)
    requires a != 0.0 && a * d == c * b
    ensures (b / a) * c == d
  {
    var k := b / a;
    assert k * a == b;
    assert (k * c) * a == (k * a) * c;
    assert (k * c) * a == d * a;
  }

  /** A vanishing cross product with a non-zero `a` makes `b` a multiple of `a`. */
  lemma CrossZeroParallel(a: Vec3, b: Vec3) returns (k: real)
    requires a != Zero && Cross(a, b) == Zero
    ensures b == Scale(k, a)
  {
    if a.x != 0.0 {
      k := b.x / a.x;
      Parallel(a.x, a.y, a.z, b.x, b.y, b.z);
    } else if a.y != 0.0 {
      k := b.y / a.y;
      Parallel(a.y, a.x, a.z, b.y, b.x, b.z);
    } else {
      k := b.z / a.z;
      Parallel(a.z, a.x, a.y, b.z, b.x, b.y);
    }
  }

  /** (u, v, w) is a multiple of (p, q, r) with p != 0 when the cross terms through p vanish. */
  lemma Parallel(p: real, q: real, r: real, u: real, v: real, w: real)
    requires p != 0.0 && p * v == q * u && p * w == r * u
    ensures (u / p) * p == u && (u / p) * q == v && (u / p) * r == w
  {
    Ratio(p, p, u, u);
    Ratio(p, q, u, v);
    Ratio(p, r, u, w);
  }

  /** A vector is parallel to its own multiples. */
  lemma CrossParallel(k: real, a: Vec3)
    ensures Cross(a, Scale(k, a)) == Zero
  {
    assert a.y * (k * a.z) == a.z * (k * a.y);
    assert a.z * (k * a.x) == a.x * (k * a.z);
    assert a.x * (k * a.y) == a.y * (k * a.x);
  }

  /** The triangle has no normal exactly when its corners are collinear. */
  lemma NormalZeroIffCollinear(p0: Vec3, p1: Vec3, p2: Vec3)
    ensures PolygonNormal(p0, p1, p2) == Zero <==> Collinear(p0, p1, p2)
  {
    var a, b := Sub(p1, p0), Sub(p2, p0);
    if PolygonNormal(p0, p1, p2) == Zero && p1 != p0 {
      assert a != Zero;
      var k := CrossZeroParallel(a, b);
    }
    if Collinear(p0, p1, p2) {
      if p1 == p0 {
        assert a == Zero;
      } else {
        var k :| b == Scale(k, a);
        CrossParallel(k, a);
      }
    }
  }

  lemma CrossOrthogonal(a: Vec3, b: Vec3)
    ensures Dot(Cross(a, b), a) == 0.0 && Dot(Cross(a, b), b) == 0.0
  {
  }

  lemma DotSub(n: Vec3, a: Vec3, b: Vec3)
    ensures Dot(n, Sub(a, b)) == Dot(n, a) - Dot(n, b)
  {
  }

  /** The component-wise sum of a point list, accumulated front to back. */
  function Sum(ps: seq<Vec3>): Vec3 {
    if ps == [] then Zero else Add(Sum(ps[..|ps| - 1]), ps[|ps| - 1])
  }

  /** The arithmetic mean of a non-empty point list. */
  function Centroid(ps: seq<Vec3>): Vec3
    requires ps != []
  {
    Div(Sum(ps), |ps| as real)
  }

  /** Each point of `ps` relative to `c`. */
  function Deviations(ps: seq<Vec3>, c: Vec3): (r: seq<Vec3>)
    ensures |r| == |ps| && forall i :: 0 <= i < |ps| ==> r[i] == Sub(ps[i], c)
  {
    seq(|ps|, i requires 0 <= i < |ps| => Sub(ps[i], c))
  }

  /** `c` multiplied by the number `k`. */
  function Scale(k: real, c: Vec3): Vec3 { Vec3(k * c.x, k * c.y, k * c.z) }

  lemma ScaleSucc(k: real, c: Vec3)
    ensures Scale(k + 1.0, c) == Add(Scale(k, c), c)
  {
  }

  lemma ScaleDiv(k: real, c: Vec3)
    requires k != 0.0
    ensures Div(Scale(k, c), k) == c && Scale(k, Div(c, k)) == c
  {
    MulDiv(k, c.x);
    MulDiv(k, c.y);
    MulDiv(k, c.z);
  }

  lemma MulDiv(k: real, a: real)
    requires k != 0.0
    ensures (k * a) / k == a && k * (a / k) == a
  {
  }

  lemma DivSub(a: Vec3, b: Vec3, k: real)
    requires k != 0.0
    ensures Div(Sub(a, b), k) == Sub(Div(a, k), Div(b, k))
  {
  }

  /** Summing deviations from `c` is summing the points and subtracting |ps| copies of `c`. */
  lemma {:induction false} SumDeviations(ps: seq<Vec3>, c: Vec3)
    ensures Sum(Deviations(ps, c)) == Sub(Sum(ps), Scale(|ps| as real, c))
  {
    if ps != [] {
      var n := |ps|;
      assert Deviations(ps, c)[..n - 1] == Deviations(ps[..n - 1], c);
      SumDeviations(ps[..n - 1], c);
      ScaleSucc((n - 1) as real, c);
    }
  }

  /** The centroid is the point the list balances on: the deviations from it sum to zero. */
  lemma CentroidBalances(ps: seq<Vec3>)
    requires ps != []
    ensures Sum(Deviations(ps, Centroid(ps))) == Zero
  {
    SumDeviations(ps, Centroid(ps));
    ScaleDiv(|ps| as real, Sum(ps));
  }

  /** Moving every point by `t` moves the centroid by `t`. */
  lemma CentroidTranslates(ps: seq<Vec3>, t: Vec3)
    requires ps != []
    ensures Centroid(Deviations(ps, t)) == Sub(Centroid(ps), t)
  {
    SumDeviations(ps, t);
    DivSub(Sum(ps), Scale(|ps| as real, t), |ps| as real);
    ScaleDiv(|ps| as real, t);
  }
}

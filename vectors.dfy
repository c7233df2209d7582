/** Three-component real vectors: the part of three.js's `Vector3` that the
    particle sketches use (`add`, `negate`, `lengthSq`, `distanceToSquared`),
    as values. */
module Vectors {

  datatype Vec3 = Vec3(x: real, y: real, z: real)

  const Origin := Vec3(0.0, 0.0, 0.0)

  function Add(a: Vec3, b: Vec3): Vec3 { Vec3(a.x + b.x, a.y + b.y, a.z + b.z) }

  function Negate(a: Vec3): Vec3 { Vec3(-a.x, -a.y, -a.z) }

  function Scale(a: Vec3, k: real): Vec3 { Vec3(a.x * k, a.y * k, a.z * k) }

  /** `Vector3.lengthSq`: the squared distance from the origin. */
  function LengthSq(a: Vec3): real { a.x * a.x + a.y * a.y + a.z * a.z }

  /** `a.distanceToSquared(b)`. */
  function DistSq(a: Vec3, b: Vec3): real {
    (a.x - b.x) * (a.x - b.x) + (a.y - b.y) * (a.y - b.y) + (a.z - b.z) * (a.z - b.z)
  }

  /** Each component lies in [-s/2, s/2), as a speed drawn by SpeedComponent does. */
  predicate InSpeedBox(v: Vec3, s: real) {
    && -s / 2.0 <= v.x < s / 2.0
    && -s / 2.0 <= v.y < s / 2.0
    && -s / 2.0 <= v.z < s / 2.0
  }

  function Coords(a: Vec3): seq<real> { [a.x, a.y, a.z] }

  /** Componentwise sum of a list of points. */
  function Sum(ps: seq<Vec3>): Vec3
    decreases |ps|
  {
    if ps == [] then Origin else Add(Sum(ps[..|ps| - 1]), ps[|ps| - 1])
  }

  /** The centroid of a non-empty list of points: each coordinate sum divided by the count. */
  function Mean(ps: seq<Vec3>): Vec3
    requires |ps| > 0
  {
    var s, n := Sum(ps), |ps| as real;
    Vec3(s.x / n, s.y / n, s.z / n)
  }

  /** Negating a vector keeps its length. */
  lemma NegateLengthSq(a: Vec3)
    ensures LengthSq(Negate(a)) == LengthSq(a)
  {
  }

  /** A point moved `d` along a unit direction is at squared distance d*d from where it started. */
  lemma OffsetDistSq(c: Vec3, dir: Vec3, d: real)
    requires LengthSq(dir) == 1.0
    ensures DistSq(Add(c, Scale(dir, d)), c) == d * d
  {
    var p := Add(c, Scale(dir, d));
    assert p.x - c.x == dir.x * d && p.y - c.y == dir.y * d && p.z - c.z == dir.z * d;
    calc {
      DistSq(p, c);
      (dir.x * d) * (dir.x * d) + (dir.y * d) * (dir.y * d) + (dir.z * d) * (dir.z * d);
      (dir.x * dir.x + dir.y * dir.y + dir.z * dir.z) * (d * d);
      d * d;
    }
  }

  /** Summing pointwise sums: the sum of the `a[i] + b[i]` is the sum of the `a`s plus the sum of the `b`s. */
  lemma {:induction false} SumOfSums(a: seq<Vec3>, b: seq<Vec3>, s: seq<Vec3>)
    requires |a| == |b| == |s|
    requires forall i :: 0 <= i < |s| ==> s[i] == Add(a[i], b[i])
    ensures Sum(s) == Add(Sum(a), Sum(b))
    decreases |s|
  {
    if s != [] {
      var n := |s| - 1;
      SumOfSums(a[..n], b[..n], s[..n]);
    }
  }

  /** The centroid of the moved points `a[i] + b[i]` is the centroid of the `a`s moved by the mean of the `b`s. */
  lemma MeanOfSums(a: seq<Vec3>, b: seq<Vec3>, s: seq<Vec3>)
    requires |a| == |b| == |s| > 0
    requires forall i :: 0 <= i < |s| ==> s[i] == Add(a[i], b[i])
    ensures Mean(s) == Add(Mean(a), Mean(b))
  {
    SumOfSums(a, b, s);
    var n := |s| as real;
    var sa, sb := Sum(a), Sum(b);
    DivAdd(sa.x, sb.x, n);
    DivAdd(sa.y, sb.y, n);
    DivAdd(sa.z, sb.z, n);
  }

  lemma MulPos(p: real, q: real)
    requires p > 0.0 && q > 0.0
    ensures p * q > 0.0
  {
  }

  lemma SquareBelow(d: real, r: real)
    ensures 0.0 <= d < r ==> d * d < r * r
  {
    if 0.0 <= d < r {
      MulPos(r - d, r + d);
      assert r * r - d * d == (r - d) * (r + d);
    }
  }

  lemma DivAdd(p: real, q: real, n: real)
    requires n > 0.0
    ensures (p + q) / n == p / n + q / n
  {
  }
}

/** The "box particles" sketch: a random number of particles in a cube, random
    edges between them, and the per-frame update that moves the particles in
    place, bounces them off the faces of a box and copies the edge end points
    into a line buffer.

    The two lists the JavaScript module keeps at top level, `particleData` and
    `lineData`, are the fields of one `Shared` object: every mounted component
    reads and replaces the same two lists. */
module BoxParticles {
  import opened Random
  import opened Vectors
  import opened Collections

  /** One entry of `particleData`: `{ velocity, numConnections }`. */
  datatype ParticleRecord = ParticleRecord(velocity: Vec3, numConnections: int)

  /** A value read from a `Float32Array`: a number, or NaN for a read past its end
      (`undefined`, which becomes NaN when stored in another `Float32Array`). */
  datatype Number = Num(value: real) | NaN

  /** The outcome of `generatepositionsCube`: the array and the draws left over, the
      `RangeError` that `new Float32Array` throws for a negative count, or too few draws. */
  datatype CubeResult = Cube(positions: array<real>, rest: seq<real>) | RangeError | CubeOutOfDraws

  // ------------------------------------------------------------ positions

  /** One coordinate `(Math.random() - 0.5) * dim`: for a positive `dim` it lies in
      [-dim/2, dim/2). */
  function CubeCoordinate(u: real, dim: real): (r: real)
    ensures IsDraw(u) && dim > 0.0 ==> -dim / 2.0 <= r < dim / 2.0
  {
    ScaledDraw(u, dim);
    (u - 0.5) * dim
  }

  /** `generatepositionsCube`: `count = getRandomInt(countMin, countMax)` from the first
      draw, then a fresh array of `3 * count` coordinates, x, y, z per particle, from the
      following draws in order. */
  method GeneratePositionsCube(countMin: real, countMax: real, dim: real, draws: seq<real>)
    returns (r: CubeResult)
    ensures draws == [] ==> r.CubeOutOfDraws?
    ensures draws != [] ==>
      var count := RandomInt(countMin, countMax, draws[0]);
      && (r.RangeError? <==> count < 0)
      && (r.CubeOutOfDraws? <==> 0 <= count && |draws| < 1 + 3 * count)
      && (r.Cube? ==>
            && fresh(r.positions) && r.positions.Length == 3 * count
            && r.rest == draws[1 + 3 * count..]
            && forall k :: 0 <= k < 3 * count ==> r.positions[k] == CubeCoordinate(draws[1 + k], dim))
  {
    if draws == [] {
      return CubeOutOfDraws;
    }
    var count := RandomInt(countMin, countMax, draws[0]);
    if count < 0 {
      return RangeError;
    }
    var positions := new real[count * 3];
    var rest := draws[1..];
    for i := 0 to count
      invariant 1 + 3 * i <= |draws| && rest == draws[1 + 3 * i..]
      invariant forall k :: 0 <= k < 3 * i ==> positions[k] == CubeCoordinate(draws[1 + k], dim)
    {
      if |rest| < 3 {
        return CubeOutOfDraws;
      }
      WriteCubePoint(positions, i, rest[0], rest[1], rest[2], dim);
      rest := rest[3..];
    }
    return Cube(positions, rest);
  }

  /** The three writes `positions[i * 3 + d] = (Math.random() - 0.5) * dim` of point `i`. */
  method WriteCubePoint(positions: array<real>, i: nat, u0: real, u1: real, u2: real, dim: real)
    requires 3 * i + 3 <= positions.Length
    modifies positions
    ensures forall k :: 0 <= k < 3 * i ==> positions[k] == old(positions[k])
    ensures positions[3 * i] == CubeCoordinate(u0, dim)
    ensures positions[3 * i + 1] == CubeCoordinate(u1, dim)
    ensures positions[3 * i + 2] == CubeCoordinate(u2, dim)
    ensures forall k :: 3 * i + 3 <= k < positions.Length ==> positions[k] == old(positions[k])
  {
    positions[i * 3] := CubeCoordinate(u0, dim);
    positions[i * 3 + 1] := CubeCoordinate(u1, dim);
    positions[i * 3 + 2] := CubeCoordinate(u2, dim);
  }

  /** The count getRandomInt draws is never negative, for any draw, exactly when
      countMin > -1 and countMax >= -1; otherwise some draw makes `new Float32Array`
      throw. */
  lemma CountNonNegative(countMin: real, countMax: real)
    ensures (forall u :: IsDraw(u) ==> RandomInt(countMin, countMax, u) >= 0) <==>
            (countMin > -1.0 && countMax >= -1.0)
  {
    var lo, hi := Ceil(countMin), countMax.Floor;
    if countMin > -1.0 && countMax >= -1.0 {
      assert lo >= 0 && hi >= -1;
    } else if lo < 0 {
      assert RandomInt(countMin, countMax, 0.0) == lo;
    } else {
      var n := hi - lo + 1;
      assert n <= -1;
      var m := (-n) as real;
      var half := 1.0 / (2.0 * m);
      assert 0.0 < half <= 0.5;
      var u := 1.0 - half;
      assert half * m == 0.5;
      assert u * n as real == n as real + 0.5 by {
        assert u * n as real == -(u * m);
        assert u * m == m - half * m;
      }
      assert RandomInt(countMin, countMax, u) == n + lo;
    }
  }

  /** For integer bounds 0 <= countMin <= countMax the array holds between countMin and
      countMax particles, each coordinate in [-dim/2, dim/2). */
  lemma CubeInRange(countMin: nat, countMax: nat, dim: real, draws: seq<real>, k: nat)
    requires countMin <= countMax && |draws| > 0 && AllDraws(draws) && dim > 0.0
    requires 1 + k < |draws|
    ensures countMin <= RandomInt(countMin as real, countMax as real, draws[0]) <= countMax
    ensures -dim / 2.0 <= CubeCoordinate(draws[1 + k], dim) < dim / 2.0
  {
    RandomIntInRange(countMin, countMax, draws[0]);
  }

  // ------------------------------------------------------------ line buffer

  /** `positions[k]` of a `Float32Array`: NaN past its end. */
  function Read(positions: seq<real>, k: int): (r: Number)
    ensures r.NaN? <==> !(0 <= k < |positions|)
    ensures r.Num? ==> r.value == positions[k]
  {
    if 0 <= k < |positions| then Num(positions[k]) else NaN
  }

  /** The six values one edge copies: the start particle's x, y, z, then the end particle's. */
  function BoxSegment(positions: seq<real>, e: Edge): seq<Number> {
    [Read(positions, 3 * e.start), Read(positions, 3 * e.start + 1), Read(positions, 3 * e.start + 2),
     Read(positions, 3 * e.end), Read(positions, 3 * e.end + 1), Read(positions, 3 * e.end + 2)]
  }

  /** The line buffer of the frame callback: the segments of all edges, in order. */
  function BoxLineCoords(positions: seq<real>, lineData: seq<Edge>): (r: seq<Number>)
    ensures |r| == 6 * |lineData|
    decreases |lineData|
  {
    if lineData == [] then []
    else BoxLineCoords(positions, lineData[..|lineData| - 1]) + BoxSegment(positions, lineData[|lineData| - 1])
  }

  /** Slots 6i..6i+5 of the line buffer hold the segment of edge i. */
  lemma {:induction false} BoxLineCoordsAt(positions: seq<real>, lineData: seq<Edge>, i: nat)
    requires i < |lineData|
    ensures 6 * i + 6 <= |BoxLineCoords(positions, lineData)|
    ensures BoxLineCoords(positions, lineData)[6 * i..6 * i + 6] == BoxSegment(positions, lineData[i])
    decreases |lineData|
  {
    var n := |lineData| - 1;
    if i < n {
      BoxLineCoordsAt(positions, lineData[..n], i);
      assert lineData[..n][i] == lineData[i];
    }
  }

  /** An edge between two of the `|positions| / 3` particles copies only numbers; an edge
      with an end at index |positions| / 3, one past the last particle, copies NaN. */
  lemma SegmentNaN(positions: seq<real>, e: Edge)
    requires |positions| % 3 == 0
    ensures (3 * e.start < |positions| && 3 * e.end < |positions|) <==>
            forall d :: 0 <= d < 6 ==> BoxSegment(positions, e)[d].Num?
  {
    if !(3 * e.start < |positions| && 3 * e.end < |positions|) {
      if 3 * e.start >= |positions| {
        assert BoxSegment(positions, e)[0].NaN?;
      } else {
        assert BoxSegment(positions, e)[3].NaN?;
      }
    }
  }

  /** The six writes `lineCoords[i * 6 + d] = positions[...]` of edge `i`. */
  method WriteBoxSegment(coords: array<Number>, i: nat, segment: seq<Number>)
    requires |segment| == 6 && 6 * i + 6 <= coords.Length
    modifies coords
    ensures coords[..6 * i + 6] == old(coords[..6 * i]) + segment
    ensures coords[6 * i + 6..] == old(coords[6 * i + 6..])
  {
    coords[i * 6] := segment[0];
    coords[i * 6 + 1] := segment[1];
    coords[i * 6 + 2] := segment[2];
    coords[i * 6 + 3] := segment[3];
    coords[i * 6 + 4] := segment[4];
    coords[i * 6 + 5] := segment[5];
    assert coords[..6 * i] == old(coords[..6 * i]);
  }

  /** The loop that fills `lineCoords`, `new Float32Array(lineData.length * 6)`, slot by
      slot from the particle coordinates the edges name. */
  method FillLineCoords(positions: array<real>, lineData: seq<Edge>) returns (lineCoords: seq<Number>)
    ensures lineCoords == BoxLineCoords(positions[..], lineData)
  {
    var coords := new Number[|lineData| * 6](_ => Num(0.0));
    for i := 0 to |lineData|
      invariant coords[..6 * i] == BoxLineCoords(positions[..], lineData[..i])
    {
      assert lineData[..i + 1][..i] == lineData[..i];
      var start := lineData[i].start;
      var end := lineData[i].end;
      WriteBoxSegment(coords, i, BoxSegment(positions[..], Edge(start, end)));
    }
    assert lineData[..|lineData|] == lineData;
    assert coords[..] == coords[..6 * |lineData|];
    lineCoords := coords[..];
  }

  // ------------------------------------------------------------ frame update

  /** Particle `i` of a flat coordinate array. */
  function Point(positions: seq<real>, i: nat): Vec3
    requires 3 * i + 2 < |positions|
  {
    Vec3(positions[3 * i], positions[3 * i + 1], positions[3 * i + 2])
  }

  /** Coordinate `p` is outside the interval [c - rHalf, c + rHalf]. */
  predicate Outside(p: real, c: real, rHalf: real) { p < c - rHalf || p > c + rHalf }

  /** One velocity component after the bounce test: negated when the moved coordinate is
      outside the box along that axis, else unchanged. */
  function Bounce(v: real, p: real, c: real, rHalf: real): (r: real)
    ensures r == v || r == -v
    ensures r == -v <== Outside(p, c, rHalf)
    ensures Outside(p, c, rHalf) || r == v
  {
    if Outside(p, c, rHalf) then -v else v
  }

  /** The velocity after the bounce test, axis by axis: the speed is kept, a component
      along an axis on which the particle is inside the box is kept, and one along an axis
      on which it has left the box through a face while moving outwards now points back. */
  function Reflect(v: Vec3, p: Vec3, center: Vec3, rHalf: real): (r: Vec3)
    ensures LengthSq(r) == LengthSq(v)
    ensures !Outside(p.x, center.x, rHalf) ==> r.x == v.x
    ensures !Outside(p.y, center.y, rHalf) ==> r.y == v.y
    ensures !Outside(p.z, center.z, rHalf) ==> r.z == v.z
    ensures (p.x > center.x + rHalf && v.x > 0.0 ==> r.x < 0.0) && (p.x < center.x - rHalf && v.x < 0.0 ==> r.x > 0.0)
    ensures (p.y > center.y + rHalf && v.y > 0.0 ==> r.y < 0.0) && (p.y < center.y - rHalf && v.y < 0.0 ==> r.y > 0.0)
    ensures (p.z > center.z + rHalf && v.z > 0.0 ==> r.z < 0.0) && (p.z < center.z - rHalf && v.z < 0.0 ==> r.z > 0.0)
  {
    Vec3(Bounce(v.x, p.x, center.x, rHalf), Bounce(v.y, p.y, center.y, rHalf), Bounce(v.z, p.z, center.z, rHalf))
  }

  /** A particle that left the box through a face while moving outwards is now moving
      back towards the box along that axis. */
  lemma BounceTurnsBack(v: real, p: real, c: real, rHalf: real)
    ensures p > c + rHalf && v > 0.0 ==> Bounce(v, p, c, rHalf) < 0.0
    ensures p < c - rHalf && v < 0.0 ==> Bounce(v, p, c, rHalf) > 0.0
  {
  }

  /** The box is not a trap for a particle outside it: when a coordinate and its moved
      value are both outside the box, the velocity flips every frame and the particle
      moves back and forth between the two values. */
  lemma OutsideOscillates(p0: real, v: real, c: real, rHalf: real)
    requires Outside(p0, c, rHalf) && Outside(p0 + v, c, rHalf)
    ensures var v1 := Bounce(v, p0 + v, c, rHalf);
            var p2 := p0 + v + v1;
            p2 == p0 && Bounce(v1, p2, c, rHalf) == v
  {
  }

  /** The module-level `particleData` and `lineData` lists. */
  class Shared {
    var particleData: seq<ParticleRecord>
    var lineData: seq<Edge>

    /** Both lists start empty. */
    constructor ()
      ensures particleData == [] && lineData == []
    {
      particleData := [];
      lineData := [];
    }

    /** `LinesBetweenPoints`: `lineData` is emptied and then receives the edges BoxEdges
        draws for `ptCount = positions.length / 3`, pushed one by one by DrawBoxEdges. */
    method LinesBetweenPoints(positions: array<real>, draws: seq<real>) returns (r: Drawn<()>)
      requires AllDraws(draws)
      modifies this`lineData
      ensures r.Drawn? <==> BoxEdges(positions.Length as real / 3.0, draws).Drawn?
      ensures r.Drawn? ==>
        && r.rest == BoxEdges(positions.Length as real / 3.0, draws).rest
        && lineData == BoxEdges(positions.Length as real / 3.0, draws).value
      ensures r.Drawn? ==> EdgesDrawable(lineData, positions.Length as real / 3.0, positions.Length as real / 3.0)
      ensures r.Drawn? ==> EdgeCountInRange(positions.Length as real / 3.0, |lineData|)
    {
      lineData := [];
      var edges := DrawBoxEdges(positions.Length as real / 3.0, draws);
      if edges.OutOfDraws? {
        return OutOfDraws;
      }
      lineData := edges.value;
      return Drawn((), edges.rest);
    }

    /** The velocity set-up loop of the component: `particleData` becomes one record per
        element of the coordinate array (three per particle), each with a velocity of three
        drawn speed components and no connections. */
    method InitParticleData(positions: array<real>, particleSpeed: real, draws: seq<real>)
      returns (r: Drawn<()>)
      requires AllDraws(draws)
      modifies this`particleData
      ensures r.Drawn? <==> |draws| >= 3 * positions.Length
      ensures r.Drawn? ==> r.rest == draws[3 * positions.Length..] && |particleData| == positions.Length
      ensures r.Drawn? ==> forall k :: 0 <= k < positions.Length ==>
        && particleData[k].velocity == Vec3(SpeedComponent(draws[3 * k], particleSpeed),
                                            SpeedComponent(draws[3 * k + 1], particleSpeed),
                                            SpeedComponent(draws[3 * k + 2], particleSpeed))
        && particleData[k].numConnections == 0
        && (particleSpeed > 0.0 ==> InSpeedBox(particleData[k].velocity, particleSpeed))
    {
      particleData := [];
      var rest := draws;
      for k := 0 to positions.Length
        invariant 3 * k <= |draws| && rest == draws[3 * k..] && |particleData| == k
        invariant forall j :: 0 <= j < k ==>
          && particleData[j].velocity == Vec3(SpeedComponent(draws[3 * j], particleSpeed),
                                              SpeedComponent(draws[3 * j + 1], particleSpeed),
                                              SpeedComponent(draws[3 * j + 2], particleSpeed))
          && particleData[j].numConnections == 0
          && (particleSpeed > 0.0 ==> InSpeedBox(particleData[j].velocity, particleSpeed))
      {
        if |rest| < 3 {
          return OutOfDraws;
        }
        assert IsDraw(rest[0]) && IsDraw(rest[1]) && IsDraw(rest[2]) by {
          assert rest[0] == draws[3 * k] && rest[1] == draws[3 * k + 1] && rest[2] == draws[3 * k + 2];
        }
        var velocity := Vec3(SpeedComponent(rest[0], particleSpeed), SpeedComponent(rest[1], particleSpeed),
                             SpeedComponent(rest[2], particleSpeed));
        particleData := particleData + [ParticleRecord(velocity, 0)];
        rest := rest[3..];
      }
      return Drawn((), rest);
    }

    /** The body of the frame loop for particle `i`: three `+=` on its coordinates, then
        the three bounce tests (y, x, z) on the moved coordinates. */
    method MoveParticle(positions: array<real>, i: nat, center: Vec3, rHalf: real)
      requires 3 * i + 2 < positions.Length && i < |particleData|
      modifies positions, this`particleData
      ensures Point(positions[..], i) == Add(Point(old(positions[..]), i), old(particleData[i].velocity))
      ensures forall k :: 0 <= k < positions.Length && !(3 * i <= k < 3 * i + 3) ==> positions[k] == old(positions[k])
      ensures particleData == old(particleData)[i := old(particleData[i]).(velocity :=
                Reflect(old(particleData[i].velocity), Point(positions[..], i), center, rHalf))]
    {
      var pData := particleData[i];
      positions[i * 3] := positions[i * 3] + pData.velocity.x;
      positions[i * 3 + 1] := positions[i * 3 + 1] + pData.velocity.y;
      positions[i * 3 + 2] := positions[i * 3 + 2] + pData.velocity.z;
      var v := pData.velocity;
      if positions[i * 3 + 1] < center.y - rHalf || positions[i * 3 + 1] > center.y + rHalf {
        v := v.(y := -v.y);
      }
      if positions[i * 3] < center.x - rHalf || positions[i * 3] > center.x + rHalf {
        v := v.(x := -v.x);
      }
      if positions[i * 3 + 2] < center.z - rHalf || positions[i * 3 + 2] > center.z + rHalf {
        v := v.(z := -v.z);
      }
      particleData := particleData[i := pData.(velocity := v)];
    }

    /** The `useFrame` callback: particle `i`, for each of the `positions.length / 3`
        particles, moves by the velocity of `particleData[i]` in place, and each velocity
        component is negated when the moved coordinate is outside
        [center - dim/2, center + dim/2] on that axis (the position is not clamped). Then the
        line buffer is filled from the moved positions. */
    method Frame(positions: array<real>, center: Vec3, dim: real) returns (lineCoords: seq<Number>)
      requires positions.Length % 3 == 0 && positions.Length / 3 <= |particleData|
      modifies positions, this`particleData
      ensures |particleData| == old(|particleData|)
      ensures forall i :: 0 <= i < positions.Length / 3 ==>
        Point(positions[..], i) == Add(Point(old(positions[..]), i), old(particleData[i].velocity))
      ensures forall i :: 0 <= i < |particleData| ==>
        particleData[i] == if i < positions.Length / 3
                           then old(particleData[i]).(velocity := Reflect(old(particleData[i].velocity),
                                                                          Point(positions[..], i), center, dim / 2.0))
                           else old(particleData[i])
      ensures lineCoords == BoxLineCoords(positions[..], lineData)
    {
      var rHalf := dim / 2.0;
      var n := positions.Length / 3;
      for i := 0 to n
        invariant |particleData| == old(|particleData|)
        invariant forall j :: 0 <= j < i ==>
          Point(positions[..], j) == Add(Point(old(positions[..]), j), old(particleData[j].velocity))
        invariant forall k :: 3 * i <= k < positions.Length ==> positions[k] == old(positions[k])
        invariant forall j :: 0 <= j < |particleData| ==>
          particleData[j] == if j < i
                             then old(particleData[j]).(velocity := Reflect(old(particleData[j].velocity),
                                                                            Point(positions[..], j), center, rHalf))
                             else old(particleData[j])
      {
        MoveParticle(positions, i, center, rHalf);
      }
      lineCoords := FillLineCoords(positions, lineData);
    }
  }

  /** For a whole number n of particles, the count of edges lies between n - 1 and
      2n - 1. */
  predicate EdgeCountInRange(ptCount: real, count: nat) {
    var n := ptCount.Floor;
    ptCount == n as real ==> Max(n - 1, 0) <= count <= Max(2 * n - 1, 0)
  }

  /** LinesBetweenPoints draws between n - 1 and 2n - 1 edges for n particles. */
  lemma BoxEdgeCount(ptCount: real, draws: seq<real>)
    requires AllDraws(draws) && ptCount >= 0.0
    ensures BoxEdges(ptCount, draws).Drawn? ==> EdgeCountInRange(ptCount, |BoxEdges(ptCount, draws).value|)
  {
    if BoxEdges(ptCount, draws).Drawn? {
      LineCount(ptCount, draws[0]);
    }
  }

  /** `lineCount = getRandomInt(n, 2n)` for a whole n gives between n - 1 and 2n - 1
      edges (none for n = 0). */
  lemma LineCount(ptCount: real, u: real)
    requires IsDraw(u) && ptCount >= 0.0
    ensures EdgeCountInRange(ptCount, Max(RandomInt(ptCount, ptCount * 2.0, u) - 1, 0))
  {
    var n := ptCount.Floor;
    if ptCount == n as real {
      assert ptCount * 2.0 == (2 * n) as real;
      RandomIntInRange(n, 2 * n, u);
    }
  }

  /** The edges `LinesBetweenPoints` draws for `ptCount = positions.length / 3`:
      `lineCount = getRandomInt(ptCount, 2 * ptCount)` from the first draw, then
      lineCount - 1 edges, each end drawn by getRandomInt(0, ptCount), so from 0 to
      ptCount inclusive, the end redrawn until it differs from the start. There is no
      check for repeated edges. */
  function BoxEdges(ptCount: real, draws: seq<real>): (r: Drawn<seq<Edge>>)
    requires AllDraws(draws) && ptCount >= 0.0
    ensures r.Drawn? ==> draws != [] && |r.value| == Max(RandomInt(ptCount, ptCount * 2.0, draws[0]) - 1, 0)
    ensures r.Drawn? ==> Suffix(r.rest, draws) && AllDraws(r.rest)
    ensures r.Drawn? ==> EdgesDrawable(r.value, ptCount, ptCount)
  {
    if draws == [] then OutOfDraws
    else
      DropDraws(draws, 1);
      var edges := DrawEdges(RandomInt(ptCount, ptCount * 2.0, draws[0]) - 1, ptCount, ptCount, draws[1..]);
      if edges.Drawn? then SuffixTrans(edges.rest, draws[1..], draws); edges else edges
  }

  /** The loop of `LinesBetweenPoints`, as the source writes it: `lineCount - 1` edges, each
      pushed without a check for repeats. */
  method DrawBoxEdges(ptCount: real, draws: seq<real>) returns (r: Drawn<seq<Edge>>)
    requires AllDraws(draws) && ptCount >= 0.0
    ensures r == BoxEdges(ptCount, draws)
    ensures r.Drawn? ==> EdgeCountInRange(ptCount, |r.value|)
  {
    BoxEdgeCount(ptCount, draws);
    if draws == [] {
      return OutOfDraws;
    }
    DropDraws(draws, 1);
    var lines := NextEdges(RandomInt(ptCount, ptCount * 2.0, draws[0]) - 1, ptCount, ptCount, draws[1..]);
    if lines.OutOfDraws? {
      return OutOfDraws;
    }
    SuffixTrans(lines.rest, draws[1..], draws);
    return lines;
  }

  /** Every end of a box edge is a value getRandomInt(0, ptCount) can return, and the ends
      differ: what EdgesDrawable(_, ptCount, ptCount) says of each edge. */
  predicate BoxEdgeOk(e: Edge, ptCount: real) {
    e.start != e.end && IndexDrawable(e.start, ptCount) && IndexDrawable(e.end, ptCount)
  }

  /** The edge ends run from 0 to ptCount inclusive: index ptCount, one past the last
      particle, is drawn by some draw, and an edge ending there copies NaN. */
  lemma EndPastLastParticle(positions: seq<real>, u0: real)
    requires |positions| % 3 == 0 && |positions| >= 3 && IsDraw(u0)
    ensures var n := |positions| / 3;
      && (exists u :: IsDraw(u) && RandomInt(0.0, n as real, u) == n)
      && BoxEdgeOk(Edge(0, n), n as real)
      && BoxSegment(positions, Edge(0, n))[3] == NaN
  {
    var n := |positions| / 3;
    assert Ceil(0.0) == 0 && (n as real).Floor == n;
    RandomIntCovers(0.0, n as real, n);
  }
}

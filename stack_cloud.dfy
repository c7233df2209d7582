/** The "stack cloud" sketch: clusters of particles ("stacks") placed in a
    cone, random edges inside each cluster and between clusters that are
    consecutive in distance from the origin, the flat coordinate buffers drawn
    from them, and the per-frame update that moves the particles. */
module StackCloud {
  import opened Random
  import opened Vectors
  import opened Collections

  /** One particle of a cluster: `{ location, speed }`. */
  datatype Particle = Particle(location: Vec3, speed: Vec3)

  /** An edge between particle `start` of cluster `startCluster` and particle
      `end` of cluster `endCluster`. */
  datatype SpanEdge = SpanEdge(startCluster: nat, endCluster: nat, start: nat, end: nat)

  /** The colour of a vertex, as `hsvToRgb` returns it. */
  datatype Rgb = Rgb(r: real, g: real, b: real)

  /** `cluster.map((obj) => obj.location)`. */
  function Locations(cluster: seq<Particle>): (r: seq<Vec3>)
    ensures |r| == |cluster| && forall i :: 0 <= i < |cluster| ==> r[i] == cluster[i].location
  {
    seq(|cluster|, i requires 0 <= i < |cluster| => cluster[i].location)
  }

  function Speeds(cluster: seq<Particle>): (r: seq<Vec3>)
    ensures |r| == |cluster| && forall i :: 0 <= i < |cluster| ==> r[i] == cluster[i].speed
  {
    seq(|cluster|, i requires 0 <= i < |cluster| => cluster[i].speed)
  }

  // ---------------------------------------------------------------- centroid

  /** `centroid`: accumulates the three coordinate sums and divides each by the
      number of points. */
  method Centroid(points: seq<Vec3>) returns (c: Vec3)
    requires |points| > 0
    ensures c == Mean(points)
  {
    var x, y, z := 0.0, 0.0, 0.0;
    for i := 0 to |points|
      invariant Vec3(x, y, z) == Sum(points[..i])
    {
      assert points[..i + 1][..i] == points[..i];
      x := x + points[i].x;
      y := y + points[i].y;
      z := z + points[i].z;
    }
    assert points[..|points|] == points;
    var n := |points| as real;
    c := Vec3(x / n, y / n, z / n);
  }

  // ------------------------------------------------------- particles in stacks

  /** What `positionsInStack` promises of each particle it makes around `center`:
      it starts within `stackRad` of the center, and each speed component lies
      in [-particleSpeed/2, particleSpeed/2). */
  predicate StartsInStack(p: Particle, center: Vec3, stackRad: real, particleSpeed: real) {
    && (stackRad > 0.0 ==> DistSq(p.location, center) < stackRad * stackRad)
    && (particleSpeed > 0.0 ==> InSpeedBox(p.speed, particleSpeed))
  }

  /** The particle `positionsInStack` makes from six consecutive draws: two angles,
      a distance `u * stackRad` along the direction they give, and three speed
      components. `direction(u0, u1)` stands for the unit vector
      (sin φ cos θ, sin φ sin θ, cos φ) with θ = 2π·u0 and φ = acos(2·u1 - 1). */
  function NewParticle(center: Vec3, stackRad: real, particleSpeed: real, direction: (real, real) -> Vec3,
                       u: seq<real>): (p: Particle)
    requires |u| >= 6 && AllDraws(u[..6])
    requires LengthSq(direction(u[0], u[1])) == 1.0
    ensures StartsInStack(p, center, stackRad, particleSpeed)
  {
    var distance := u[2] * stackRad;
    assert IsDraw(u[2]) && IsDraw(u[3]) && IsDraw(u[4]) && IsDraw(u[5]);
    OffsetDistSq(center, direction(u[0], u[1]), distance);
    ScaledDraw(u[2], stackRad);
    SquareBelow(distance, stackRad);
    Particle(Add(center, Scale(direction(u[0], u[1]), distance)),
             Vec3(SpeedComponent(u[3], particleSpeed), SpeedComponent(u[4], particleSpeed),
                  SpeedComponent(u[5], particleSpeed)))
  }

  /** The particles of one cluster of `nPts` around `center`, as the inner loop of
      `positionsInStack` draws them: OutOfDraws unless there are six draws per particle;
      otherwise particle j is the NewParticle of draws 6j..6j+5 and the draws after the
      last particle's are left (no particle for nPts <= 0). */
  function ClusterParticles(center: Vec3, nPts: int, stackRad: real, particleSpeed: real,
                            direction: (real, real) -> Vec3, draws: seq<real>): (r: Drawn<seq<Particle>>)
    requires AllDraws(draws)
    requires forall a, b {:trigger direction(a, b)} :: IsDraw(a) && IsDraw(b) ==> LengthSq(direction(a, b)) == 1.0
    ensures r.Drawn? ==> AllDraws(r.rest) && |r.value| == Max(nPts, 0)
    ensures r.Drawn? ==> forall j :: 0 <= j < |r.value| ==> StartsInStack(r.value[j], center, stackRad, particleSpeed)
  {
    var n := Max(nPts, 0);
    if |draws| < 6 * n then OutOfDraws
    else
      Drawn(seq(n, j requires 0 <= j < n => NewParticle(center, stackRad, particleSpeed, direction, draws[6 * j..])),
            draws[6 * n..])
  }

  /** `positionsInStack`: for each stack position in order, `nPts = getRandomInt(minPts,
      maxPts)` from one draw, then the cluster of nPts particles around it. */
  function StackParticles(stackPositions: seq<Vec3>, stackRad: real, minPts: real, maxPts: real,
                          particleSpeed: real, direction: (real, real) -> Vec3, draws: seq<real>)
    : (r: Drawn<seq<seq<Particle>>>)
    requires AllDraws(draws)
    requires forall a, b {:trigger direction(a, b)} :: IsDraw(a) && IsDraw(b) ==> LengthSq(direction(a, b)) == 1.0
    ensures r.Drawn? ==> Suffix(r.rest, draws) && AllDraws(r.rest) && |r.value| == |stackPositions|
    decreases |stackPositions|
  {
    if stackPositions == [] then Drawn([], draws)
    else if draws == [] then OutOfDraws
    else
      DropDraws(draws, 1);
      var nPts := RandomInt(minPts, maxPts, draws[0]);
      match ClusterParticles(stackPositions[0], nPts, stackRad, particleSpeed, direction, draws[1..])
      case OutOfDraws => OutOfDraws
      case Drawn(cluster, rest) =>
        SuffixTrans(rest, draws[1..], draws);
        var tail := StackParticles(stackPositions[1..], stackRad, minPts, maxPts, particleSpeed, direction, rest);
        if tail.Drawn? then
          SuffixTrans(tail.rest, rest, draws);
          Prepend([cluster], tail)
        else OutOfDraws
  }

  /** One cluster per stack position: each cluster size in [ceil(minPts), floor(maxPts)]
      when that range is non-negative and non-empty, and every particle starting in its
      own stack. */
  lemma StackParticlesInStacks(stackPositions: seq<Vec3>, stackRad: real, minPts: real,
                               maxPts: real, particleSpeed: real,
                               direction: (real, real) -> Vec3, draws: seq<real>)
    requires AllDraws(draws)
    requires forall a, b {:trigger direction(a, b)} :: IsDraw(a) && IsDraw(b) ==> LengthSq(direction(a, b)) == 1.0
    ensures var r := StackParticles(stackPositions, stackRad, minPts, maxPts, particleSpeed, direction, draws);
      && (r.Drawn? && 0 <= Ceil(minPts) <= maxPts.Floor ==>
            forall i :: 0 <= i < |r.value| ==> Ceil(minPts) <= |r.value[i]| <= maxPts.Floor)
      && (r.Drawn? ==> forall i, j :: 0 <= i < |r.value| && 0 <= j < |r.value[i]| ==>
            StartsInStack(r.value[i][j], stackPositions[i], stackRad, particleSpeed))
  {
    ClusterSizes(stackPositions, stackRad, minPts, maxPts, particleSpeed, direction, draws);
    ClustersInStacks(stackPositions, stackRad, minPts, maxPts, particleSpeed, direction, draws);
  }

  /** Each cluster size lies in [ceil(minPts), floor(maxPts)] when that range is
      non-negative and non-empty, by induction on the stack positions. */
  lemma {:induction false} ClusterSizes(stackPositions: seq<Vec3>, stackRad: real, minPts: real,
                                        maxPts: real, particleSpeed: real,
                                        direction: (real, real) -> Vec3, draws: seq<real>)
    requires AllDraws(draws)
    requires forall a, b {:trigger direction(a, b)} :: IsDraw(a) && IsDraw(b) ==> LengthSq(direction(a, b)) == 1.0
    ensures var r := StackParticles(stackPositions, stackRad, minPts, maxPts, particleSpeed, direction, draws);
      r.Drawn? && 0 <= Ceil(minPts) <= maxPts.Floor ==> SizesIn(r.value, Ceil(minPts), maxPts.Floor)
    decreases |stackPositions|
  {
    var r := StackParticles(stackPositions, stackRad, minPts, maxPts, particleSpeed, direction, draws);
    if r.Drawn? && stackPositions != [] && 0 <= Ceil(minPts) <= maxPts.Floor {
      DropDraws(draws, 1);
      var nPts := RandomInt(minPts, maxPts, draws[0]);
      assert IsDraw(draws[0]);
      assert Ceil(minPts) <= nPts <= maxPts.Floor;
      var c := ClusterParticles(stackPositions[0], nPts, stackRad, particleSpeed, direction, draws[1..]);
      var tail := StackParticles(stackPositions[1..], stackRad, minPts, maxPts, particleSpeed, direction, c.rest);
      ClusterSizes(stackPositions[1..], stackRad, minPts, maxPts, particleSpeed, direction, c.rest);
      PrependAt(c.value, tail, 0);
      SizesInCons(c.value, tail.value, Ceil(minPts), maxPts.Floor);
    }
  }

  /** Every cluster of `clusters` has between `lo` and `hi` particles. */
  predicate SizesIn(clusters: seq<seq<Particle>>, lo: int, hi: int) {
    forall i :: 0 <= i < |clusters| ==> lo <= |clusters[i]| <= hi
  }

  lemma SizesInCons(c: seq<Particle>, cs: seq<seq<Particle>>, lo: int, hi: int)
    requires lo <= |c| <= hi && SizesIn(cs, lo, hi)
    ensures SizesIn([c] + cs, lo, hi)
  {
    var all := [c] + cs;
    forall i | 0 < i < |all| ensures all[i] == cs[i - 1] {}
  }

  /** Every particle starts in its own stack, by induction on the stack positions. */
  lemma {:induction false} ClustersInStacks(stackPositions: seq<Vec3>, stackRad: real, minPts: real,
                                            maxPts: real, particleSpeed: real,
                                            direction: (real, real) -> Vec3, draws: seq<real>)
    requires AllDraws(draws)
    requires forall a, b {:trigger direction(a, b)} :: IsDraw(a) && IsDraw(b) ==> LengthSq(direction(a, b)) == 1.0
    ensures var r := StackParticles(stackPositions, stackRad, minPts, maxPts, particleSpeed, direction, draws);
      r.Drawn? ==> InStacks(r.value, stackPositions, stackRad, particleSpeed)
    decreases |stackPositions|
  {
    var r := StackParticles(stackPositions, stackRad, minPts, maxPts, particleSpeed, direction, draws);
    if r.Drawn? && stackPositions != [] {
      DropDraws(draws, 1);
      var nPts := RandomInt(minPts, maxPts, draws[0]);
      var c := ClusterParticles(stackPositions[0], nPts, stackRad, particleSpeed, direction, draws[1..]);
      var tail := StackParticles(stackPositions[1..], stackRad, minPts, maxPts, particleSpeed, direction, c.rest);
      ClustersInStacks(stackPositions[1..], stackRad, minPts, maxPts, particleSpeed, direction, c.rest);
      PrependAt(c.value, tail, 0);
      InStacksCons(c.value, tail.value, stackPositions, stackRad, particleSpeed);
    }
  }

  /** Every particle of cluster i starts in stack i. */
  predicate InStacks(clusters: seq<seq<Particle>>, stackPositions: seq<Vec3>, stackRad: real, particleSpeed: real) {
    forall i, j :: 0 <= i < |clusters| && i < |stackPositions| && 0 <= j < |clusters[i]| ==>
      StartsInStack(clusters[i][j], stackPositions[i], stackRad, particleSpeed)
  }

  lemma InStacksCons(c: seq<Particle>, cs: seq<seq<Particle>>, stackPositions: seq<Vec3>,
                     stackRad: real, particleSpeed: real)
    requires stackPositions != []
    requires forall j :: 0 <= j < |c| ==> StartsInStack(c[j], stackPositions[0], stackRad, particleSpeed)
    requires InStacks(cs, stackPositions[1..], stackRad, particleSpeed)
    ensures InStacks([c] + cs, stackPositions, stackRad, particleSpeed)
  {
    var all := [c] + cs;
    forall i | 0 < i < |all| && i < |stackPositions|
      ensures all[i] == cs[i - 1] && stackPositions[i] == stackPositions[1..][i - 1]
    {
    }
  }

  /** The loops of `positionsInStack`, as the source writes them. */
  method PositionsInStack(stackPositions: seq<Vec3>, stackRad: real, minPts: real, maxPts: real,
                          particleSpeed: real, direction: (real, real) -> Vec3, draws: seq<real>)
    returns (r: Drawn<seq<seq<Particle>>>)
    requires AllDraws(draws)
    requires forall a, b {:trigger direction(a, b)} :: IsDraw(a) && IsDraw(b) ==> LengthSq(direction(a, b)) == 1.0
    ensures r == StackParticles(stackPositions, stackRad, minPts, maxPts, particleSpeed, direction, draws)
  {
    var positions: seq<seq<Particle>> := [];
    var rest := draws;
    assert stackPositions[0..] == stackPositions;
    PrependPrepend([], [], StackParticles(stackPositions, stackRad, minPts, maxPts, particleSpeed, direction, draws), rest);
    for i := 0 to |stackPositions|
      invariant AllDraws(rest)
      invariant StackParticles(stackPositions, stackRad, minPts, maxPts, particleSpeed, direction, draws) ==
        Prepend(positions, StackParticles(stackPositions[i..], stackRad, minPts, maxPts, particleSpeed, direction, rest))
    {
      StackParticlesStep(stackPositions, i, stackRad, minPts, maxPts, particleSpeed, direction, rest);
      if rest == [] {
        return OutOfDraws;
      }
      var nPts := RandomInt(minPts, maxPts, rest[0]);
      DropDraws(rest, 1);
      var cluster := NewCluster(stackPositions[i], nPts, stackRad, particleSpeed, direction, rest[1..]);
      if cluster.OutOfDraws? {
        return OutOfDraws;
      }
      PrependPrepend(positions, [cluster.value],
        StackParticles(stackPositions[i + 1..], stackRad, minPts, maxPts, particleSpeed, direction, cluster.rest), rest);
      positions := positions + [cluster.value];
      rest := cluster.rest;
    }
    assert stackPositions[|stackPositions|..] == [];
    PrependPrepend(positions, [], OutOfDraws, rest);
    return Drawn(positions, rest);
  }

  /** One step of the outer loop: the clusters from stack i on are the cluster of stack i
      followed by the clusters from stack i + 1 on. */
  lemma StackParticlesStep(stackPositions: seq<Vec3>, i: nat, stackRad: real, minPts: real, maxPts: real,
                           particleSpeed: real, direction: (real, real) -> Vec3, draws: seq<real>)
    requires i < |stackPositions| && AllDraws(draws)
    requires forall a, b {:trigger direction(a, b)} :: IsDraw(a) && IsDraw(b) ==> LengthSq(direction(a, b)) == 1.0
    ensures var r := StackParticles(stackPositions[i..], stackRad, minPts, maxPts, particleSpeed, direction, draws);
      if draws == [] then r == OutOfDraws
      else
        AllDraws(draws[1..]) &&
        var c := ClusterParticles(stackPositions[i], RandomInt(minPts, maxPts, draws[0]), stackRad, particleSpeed,
                                  direction, draws[1..]);
        r == if c.OutOfDraws? then OutOfDraws
             else Prepend([c.value], StackParticles(stackPositions[i + 1..], stackRad, minPts, maxPts, particleSpeed,
                                                    direction, c.rest))
  {
    var tail := stackPositions[i..];
    assert tail[0] == stackPositions[i] && tail[1..] == stackPositions[i + 1..];
  }

  /** The inner loop of `positionsInStack`, as the source writes it. */
  method NewCluster(center: Vec3, nPts: int, stackRad: real, particleSpeed: real,
                    direction: (real, real) -> Vec3, draws: seq<real>) returns (r: Drawn<seq<Particle>>)
    requires AllDraws(draws)
    requires forall a, b {:trigger direction(a, b)} :: IsDraw(a) && IsDraw(b) ==> LengthSq(direction(a, b)) == 1.0
    ensures r == ClusterParticles(center, nPts, stackRad, particleSpeed, direction, draws)
  {
    var cluster: seq<Particle> := [];
    var rest := draws;
    var p := 0;
    while p < nPts
      invariant 0 <= p <= Max(nPts, 0) && 6 * p <= |draws| && rest == draws[6 * p..]
      invariant |cluster| == p
      invariant forall j :: 0 <= j < p ==> cluster[j] == NewParticle(center, stackRad, particleSpeed, direction, draws[6 * j..])
    {
      if |rest| < 6 {
        return OutOfDraws;
      }
      assert AllDraws(rest[..6]);
      cluster := cluster + [NewParticle(center, stackRad, particleSpeed, direction, rest)];
      rest := rest[6..];
      p := p + 1;
    }
    ghost var spec := ClusterParticles(center, nPts, stackRad, particleSpeed, direction, draws);
    assert spec.Drawn? && |spec.value| == p;
    assert cluster == spec.value;
    return Drawn(cluster, rest);
  }

  // ------------------------------------------------------------ cloud buffer

  /** `cloudGeometry`, buffer layout only: three coordinates per particle and four
      colour components (the colour `colour(p, total)` of the p-th of `total` particles,
      then alpha 0.5), in cluster-then-index order. */
  method CloudGeometry(positions: seq<seq<Particle>>, colour: (nat, nat) -> Rgb)
    returns (vertices: seq<real>, colors: seq<real>)
    ensures var flat := Flatten(positions);
      && |vertices| == 3 * |flat|
      && |colors| == 4 * |flat|
      && (forall k :: 0 <= k < |flat| ==> vertices[3 * k..3 * k + 3] == Coords(flat[k].location))
      && (forall k :: 0 <= k < |flat| ==>
            var rgb := colour(k, |flat|);
            colors[4 * k..4 * k + 4] == [rgb.r, rgb.g, rgb.b, 0.5])
  {
    var flat := Flatten(positions);
    var totalElements := |flat|;
    vertices, colors := [], [];
    for p := 0 to |flat|
      invariant |vertices| == 3 * p && |colors| == 4 * p
      invariant forall k :: 0 <= k < p ==> vertices[3 * k..3 * k + 3] == Coords(flat[k].location)
      invariant forall k :: 0 <= k < p ==>
        var rgb := colour(k, totalElements); colors[4 * k..4 * k + 4] == [rgb.r, rgb.g, rgb.b, 0.5]
    {
      var element := flat[p];
      var rgb := colour(p, totalElements);
      ghost var v0, c0 := vertices, colors;
      vertices := vertices + [element.location.x, element.location.y, element.location.z];
      colors := colors + [rgb.r, rgb.g, rgb.b, 0.5];
      forall k | 0 <= k < p
        ensures vertices[3 * k..3 * k + 3] == v0[3 * k..3 * k + 3]
        ensures colors[4 * k..4 * k + 4] == c0[4 * k..4 * k + 4]
      {
      }
      assert vertices[3 * p..3 * p + 3] == Coords(element.location);
      assert colors[4 * p..4 * p + 4] == [rgb.r, rgb.g, rgb.b, 0.5];
    }
  }

  // ------------------------------------------------------ intra-cluster edges

  /** What `setStackLineIndices` promises of the edge list of a cluster of `ptCount`
      particles: between 1 and 2·ptCount edges, no self-loop, both ends indices
      of the cluster, and no ordered pair twice. */
  predicate ClusterLinesOk(edges: seq<Edge>, ptCount: nat) {
    && 1 <= |edges| <= 2 * ptCount
    && DistinctPairs(edges)
    && forall i :: 0 <= i < |edges| ==>
         edges[i].start != edges[i].end && edges[i].start < ptCount && edges[i].end < ptCount
  }

  /** The candidate edges of one edge list: `lineCount = getRandomInt(1, countMax)` from
      the first draw, then lineCount candidate edges, each end drawn up to its own maximum. */
  function Candidates(countMax: real, startMax: real, endMax: real, draws: seq<real>): (r: Drawn<seq<Edge>>)
    requires AllDraws(draws) && startMax >= -1.0 && endMax >= -1.0
    ensures r.Drawn? ==> draws != [] && |r.value| == Max(RandomInt(1.0, countMax, draws[0]), 0)
    ensures r.Drawn? ==> Suffix(r.rest, draws) && AllDraws(r.rest)
  {
    if draws == [] then OutOfDraws
    else
      DropDraws(draws, 1);
      var c := DrawEdges(RandomInt(1.0, countMax, draws[0]), startMax, endMax, draws[1..]);
      if c.Drawn? then SuffixTrans(c.rest, draws[1..], draws); c else c
  }

  /** When 0 is the only index either end can be drawn as, the first candidate's redraw
      loop never ends, so no finite sequence of draws gives the candidates. */
  lemma CandidatesNeverEnd(countMax: real, max: real, draws: seq<real>)
    requires AllDraws(draws) && countMax >= 0.0 && -1.0 <= max && max.Floor <= 0
    ensures Candidates(countMax, max, max, draws).OutOfDraws?
  {
    if draws != [] {
      assert IsDraw(draws[0]);
      DropDraws(draws, 1);
      var d := draws[1..];
      if |d| >= 2 {
        IndexDraw(max, d[0]);
      }
    }
  }

  /** The edge list of one cluster of `ptCount` particles, as `setStackLineIndices`
      makes it: the candidates with both ends in [0, ptCount - 1], each kept unless the
      same ordered pair was kept before it. */
  function ClusterEdges(ptCount: nat, draws: seq<real>): (r: Drawn<seq<Edge>>)
    requires AllDraws(draws)
    ensures r.Drawn? ==> Suffix(r.rest, draws) && AllDraws(r.rest)
  {
    var max := (ptCount - 1) as real;
    match Candidates((ptCount * 2) as real, max, max, draws)
    case OutOfDraws => OutOfDraws
    case Drawn(c, rest) => Drawn(Dedup(c), rest)
  }

  /** The edge list of a cluster is drawn exactly when its candidates are, leaving the
      same draws; it is as ClusterLinesOk says and holds every candidate and nothing
      else. A cluster of fewer than two particles never gets one. */
  lemma ClusterEdgesOk(ptCount: nat, draws: seq<real>)
    requires AllDraws(draws)
    ensures var r := ClusterEdges(ptCount, draws);
      var c := Candidates((ptCount * 2) as real, (ptCount - 1) as real, (ptCount - 1) as real, draws);
      && (r.Drawn? <==> c.Drawn?)
      && (r.Drawn? ==> r.rest == c.rest && Suffix(r.rest, draws) && AllDraws(r.rest))
      && (r.Drawn? ==> ptCount >= 2 && ClusterLinesOk(r.value, ptCount))
      && (r.Drawn? ==> forall e :: e in r.value <==> e in c.value)
      && (ptCount < 2 ==> r.OutOfDraws?)
  {
    var max := (ptCount - 1) as real;
    var c := Candidates((ptCount * 2) as real, max, max, draws);
    if ptCount < 2 {
      ClusterTooSmall(ptCount, draws);
    } else if c.Drawn? {
      assert IsDraw(draws[0]);
      var r := Dedup(c.value);
      forall i | 0 <= i < |r|
        ensures r[i].start != r[i].end && r[i].start < ptCount && r[i].end < ptCount
      {
        var k :| 0 <= k < |c.value| && c.value[k] == r[i];
      }
      forall e
        ensures e in r <==> e in c.value
      {
        if e in c.value {
          var k :| 0 <= k < |c.value| && c.value[k] == e;
        }
        if e in r {
          var k :| 0 <= k < |r| && r[k] == e;
        }
      }
    }
  }

  /** A cluster of fewer than two particles never gets an edge list. */
  lemma ClusterTooSmall(ptCount: nat, draws: seq<real>)
    requires AllDraws(draws) && ptCount < 2
    ensures ClusterEdges(ptCount, draws).OutOfDraws?
  {
    CandidatesNeverEnd((ptCount * 2) as real, (ptCount - 1) as real, draws);
  }

  /** The edge lists of all clusters, one after the other, as `setStackLineIndices`
      makes them. */
  function StackEdges(positions: seq<seq<Particle>>, draws: seq<real>): (r: Drawn<seq<seq<Edge>>>)
    requires AllDraws(draws)
    ensures r.Drawn? ==> Suffix(r.rest, draws) && AllDraws(r.rest) && |r.value| == |positions|
    decreases |positions|
  {
    if positions == [] then Drawn([], draws)
    else
      match ClusterEdges(|positions[0]|, draws)
      case OutOfDraws => OutOfDraws
      case Drawn(edges, rest) =>
        var tail := StackEdges(positions[1..], rest);
        if tail.Drawn? then SuffixTrans(tail.rest, rest, draws); Prepend([edges], tail) else OutOfDraws
  }

  /** One edge list per cluster, each as ClusterLinesOk says for its cluster; a cluster
      with fewer than two particles makes the rejection loop run forever. */
  lemma StackEdgesOk(positions: seq<seq<Particle>>, draws: seq<real>)
    requires AllDraws(draws)
    ensures var r := StackEdges(positions, draws);
      && (r.Drawn? ==> forall c :: 0 <= c < |positions| ==> ClusterLinesOk(r.value[c], |positions[c]|))
      && ((exists c :: 0 <= c < |positions| && |positions[c]| < 2) ==> r.OutOfDraws?)
  {
    forall c | 0 <= c < |positions|
      ensures StackEdges(positions, draws).Drawn? ==> ClusterLinesOk(StackEdges(positions, draws).value[c], |positions[c]|)
      ensures |positions[c]| < 2 ==> StackEdges(positions, draws).OutOfDraws?
    {
      StackEdgeAt(positions, draws, c);
      ShortClusterStops(positions, draws, c);
    }
  }

  /** The edge list of cluster c, by induction on c. */
  lemma {:induction false} StackEdgeAt(positions: seq<seq<Particle>>, draws: seq<real>, c: nat)
    requires AllDraws(draws) && c < |positions|
    ensures var r := StackEdges(positions, draws);
      r.Drawn? ==> ClusterLinesOk(r.value[c], |positions[c]|)
    decreases c, 1
  {
    if c == 0 {
      FirstClusterEdges(positions, draws);
    } else {
      LaterClusterEdges(positions, draws, c);
    }
  }

  lemma FirstClusterEdges(positions: seq<seq<Particle>>, draws: seq<real>)
    requires AllDraws(draws) && positions != []
    ensures var r := StackEdges(positions, draws);
      r.Drawn? ==> ClusterLinesOk(r.value[0], |positions[0]|)
  {
    var edges := ClusterEdges(|positions[0]|, draws);
    StackEdgesCons(positions, draws);
    if edges.Drawn? {
      ClusterEdgesOk(|positions[0]|, draws);
      var tail := StackEdges(positions[1..], edges.rest);
      if tail.Drawn? {
        PrependAt(edges.value, tail, 0);
      }
    }
  }

  lemma {:induction false} LaterClusterEdges(positions: seq<seq<Particle>>, draws: seq<real>, c: nat)
    requires AllDraws(draws) && 0 < c < |positions|
    ensures var r := StackEdges(positions, draws);
      r.Drawn? ==> ClusterLinesOk(r.value[c], |positions[c]|)
    decreases c, 0
  {
    var edges := ClusterEdges(|positions[0]|, draws);
    StackEdgesCons(positions, draws);
    if edges.Drawn? {
      var tail := StackEdges(positions[1..], edges.rest);
      StackEdgeAt(positions[1..], edges.rest, c - 1);
      assert positions[1..][c - 1] == positions[c];
      if tail.Drawn? {
        PrependAt(edges.value, tail, c);
      }
    }
  }

  /** A cluster c with fewer than two particles stops the edge lists, by induction on c. */
  lemma {:induction false} ShortClusterStops(positions: seq<seq<Particle>>, draws: seq<real>, c: nat)
    requires AllDraws(draws) && c < |positions|
    ensures |positions[c]| < 2 ==> StackEdges(positions, draws).OutOfDraws?
    decreases c, 1
  {
    if |positions[c]| < 2 {
      if c == 0 {
        StackEdgesCons(positions, draws);
        ClusterTooSmall(|positions[0]|, draws);
      } else {
        LaterClusterStops(positions, draws, c);
      }
    }
  }

  lemma {:induction false} LaterClusterStops(positions: seq<seq<Particle>>, draws: seq<real>, c: nat)
    requires AllDraws(draws) && 0 < c < |positions| && |positions[c]| < 2
    ensures StackEdges(positions, draws).OutOfDraws?
    decreases c, 0
  {
    var edges := ClusterEdges(|positions[0]|, draws);
    StackEdgesCons(positions, draws);
    if edges.Drawn? {
      assert positions[1..][c - 1] == positions[c];
      ShortClusterStops(positions[1..], edges.rest, c - 1);
    }
  }

  /** The edge lists of a non-empty cloud: none when the first cluster gets none, else
      the first cluster's followed by the rest's. */
  lemma StackEdgesCons(positions: seq<seq<Particle>>, draws: seq<real>)
    requires positions != [] && AllDraws(draws)
    ensures var edges := ClusterEdges(|positions[0]|, draws);
      && (edges.OutOfDraws? ==> StackEdges(positions, draws).OutOfDraws?)
      && (edges.Drawn? ==>
            StackEdges(positions, draws) == Prepend([edges.value], StackEdges(positions[1..], edges.rest)))
  {
    assert positions[0..] == positions;
    StackEdgesStep(positions, 0, draws);
  }

  /** One step of `setStackLineIndices`: the edge lists from cluster k on are the edge
      list of cluster k followed by those from cluster k + 1 on. */
  lemma StackEdgesStep(positions: seq<seq<Particle>>, k: nat, draws: seq<real>)
    requires k < |positions| && AllDraws(draws)
    ensures StackEdges(positions[k..], draws) ==
      match ClusterEdges(|positions[k]|, draws)
      case OutOfDraws => OutOfDraws
      case Drawn(edges, rest) => Prepend([edges], StackEdges(positions[k + 1..], rest))
  {
    var tail := positions[k..];
    assert tail[0] == positions[k] && tail[1..] == positions[k + 1..];
  }

  /** `setStackLineIndices`, as the source writes it: one edge list per cluster, in
      cluster order. */
  method SetStackLineIndices(positions: seq<seq<Particle>>, draws: seq<real>)
    returns (r: Drawn<seq<seq<Edge>>>)
    requires AllDraws(draws)
    ensures r == StackEdges(positions, draws)
  {
    var lineIndices: seq<seq<Edge>> := [];
    var rest := draws;
    assert positions[0..] == positions;
    PrependPrepend([], [], StackEdges(positions, draws), rest);
    for k := 0 to |positions|
      invariant AllDraws(rest)
      invariant StackEdges(positions, draws) == Prepend(lineIndices, StackEdges(positions[k..], rest))
    {
      StackEdgesStep(positions, k, rest);
      var clusterIndices := ClusterLineIndices(|positions[k]|, rest);
      if clusterIndices.OutOfDraws? {
        return OutOfDraws;
      }
      PrependPrepend(lineIndices, [clusterIndices.value], StackEdges(positions[k + 1..], clusterIndices.rest), rest);
      lineIndices := lineIndices + [clusterIndices.value];
      rest := clusterIndices.rest;
    }
    assert positions[|positions|..] == [];
    PrependPrepend(lineIndices, [], OutOfDraws, rest);
    return Drawn(lineIndices, rest);
  }

  /** The edges of one cluster, as the body of the outer loop of `setStackLineIndices`
      writes them: `getRandomInt(1, 2·ptCount)` candidates, each pushed only when
      `findIndex` finds no edge with the same start and end. */
  method ClusterLineIndices(ptCount: nat, draws: seq<real>) returns (r: Drawn<seq<Edge>>)
    requires AllDraws(draws)
    ensures r == ClusterEdges(ptCount, draws)
  {
    var max := (ptCount - 1) as real;
    if draws == [] {
      return OutOfDraws;
    }
    var lineCount := RandomInt(1.0, (ptCount * 2) as real, draws[0]);
    DropDraws(draws, 1);
    var rest := draws[1..];
    var clusterIndices: seq<Edge> := [];
    ghost var candidates: seq<Edge> := [];
    PrependPrepend([], [], DrawEdges(lineCount, max, max, rest), rest);
    for i := 0 to lineCount
      invariant AllDraws(rest)
      invariant DrawEdges(lineCount, max, max, draws[1..]) ==
        Prepend(candidates, DrawEdges(lineCount - i, max, max, rest))
      invariant clusterIndices == Dedup(candidates)
    {
      DrawEdgesStep(lineCount - i, max, max, rest);
      var next := NextEdge(max, max, rest);
      if next.OutOfDraws? {
        return OutOfDraws;
      }
      var start, end := next.value.start, next.value.end;
      var matches := (pair: Edge) => pair.start == start && pair.end == end;
      var index := FindIndex(clusterIndices, matches);
      FindIndexEqual(clusterIndices, matches, next.value);
      DedupSnoc(candidates, next.value);
      PrependPrepend(candidates, [next.value], DrawEdges(lineCount - i - 1, max, max, next.rest), rest);
      if index == -1 {
        clusterIndices := clusterIndices + [Edge(start, end)];
      }
      candidates := candidates + [next.value];
      rest := next.rest;
    }
    PrependPrepend(candidates, [], OutOfDraws, rest);
    return Drawn(clusterIndices, rest);
  }

  // ------------------------------------------------------ inter-cluster edges

  /** What `setInterStackLineIndices` promises of the span from cluster `from` to
      cluster `to`: between 1 and 5 edges, no (start, end) pair twice, and every
      edge as SpanEdgeOk says. */
  predicate SpanOk(span: seq<SpanEdge>, positions: seq<seq<Particle>>, from: nat, to: nat)
    requires from < |positions| && to < |positions|
  {
    && 1 <= |span| <= 5
    && SpanPairsDistinct(span)
    && forall i :: 0 <= i < |span| ==>
         SpanEdgeOk(span[i], from, to, (|positions[from]| - 1) as real, (|positions[to]| - 1) as real)
  }

  predicate SpanPairsDistinct(span: seq<SpanEdge>) {
    forall i, j :: 0 <= i < j < |span| ==> (span[i].start, span[i].end) != (span[j].start, span[j].end)
  }

  /** The edge is tagged with the two clusters, has `start != end` (compared although
      the two index different clusters), and each end is a value getRandomInt(0, max)
      can give for its cluster: an index of the cluster, or 0 for an empty one. */
  predicate SpanEdgeOk(e: SpanEdge, from: nat, to: nat, startMax: real, endMax: real) {
    && e.startCluster == from && e.endCluster == to
    && e.start != e.end
    && IndexDrawable(e.start, startMax) && IndexDrawable(e.end, endMax)
  }

  /** The pairs `es` as edges `{ startCluster: from, endCluster: to, start, end }`. */
  function Tagged(from: nat, to: nat, es: seq<Edge>): seq<SpanEdge> {
    seq(|es|, i requires 0 <= i < |es| => SpanEdge(from, to, es[i].start, es[i].end))
  }

  lemma TaggedSnoc(from: nat, to: nat, es: seq<Edge>, e: Edge)
    ensures Tagged(from, to, es + [e]) == Tagged(from, to, es) + [SpanEdge(from, to, e.start, e.end)]
  {
  }

  /** `findIndex` on the start and end of the tagged pairs finds nothing exactly when the
      pair is not among them. */
  lemma FindTagged(from: nat, to: nat, es: seq<Edge>, e: Edge, matches: SpanEdge -> bool)
    requires forall p :: matches(p) <==> p.start == e.start && p.end == e.end
    ensures FindIndex(Tagged(from, to, es), matches) == -1 <==> e !in es
  {
    var t := Tagged(from, to, es);
    if e in es {
      var k :| 0 <= k < |es| && es[k] == e;
      assert matches(t[k]);
    }
    var r := FindIndex(t, matches);
    if r >= 0 {
      assert matches(t[r]);
      assert es[r] == e;
    }
  }

  /** The span from cluster `from` (of `startLength` particles) to cluster `to` (of
      `endLength`), as `setInterStackLineIndices` makes it: `getRandomInt(1, 5)`
      candidates, start drawn in the first cluster, end in the second, each pair kept
      unless kept before. */
  function SpanEdges(from: nat, to: nat, startLength: nat, endLength: nat, draws: seq<real>)
    : (r: Drawn<seq<SpanEdge>>)
    requires AllDraws(draws)
    ensures r.Drawn? ==> Suffix(r.rest, draws) && AllDraws(r.rest)
  {
    match Candidates(5.0, (startLength - 1) as real, (endLength - 1) as real, draws)
    case OutOfDraws => OutOfDraws
    case Drawn(c, rest) => Drawn(Tagged(from, to, Dedup(c)), rest)
  }

  /** A span is drawn exactly when its candidates are, leaving the same draws; it has 1
      to 5 edges, no pair twice, every edge as SpanEdgeOk says, and holds the pair of
      every candidate and no other pair. */
  lemma SpanEdgesOk(from: nat, to: nat, startLength: nat, endLength: nat, draws: seq<real>)
    requires AllDraws(draws)
    ensures var r := SpanEdges(from, to, startLength, endLength, draws);
      var startMax, endMax := (startLength - 1) as real, (endLength - 1) as real;
      var c := Candidates(5.0, startMax, endMax, draws);
      && (r.Drawn? <==> c.Drawn?)
      && (r.Drawn? ==> r.rest == c.rest && Suffix(r.rest, draws) && AllDraws(r.rest))
      && (r.Drawn? ==> 1 <= |r.value| <= 5 && SpanPairsDistinct(r.value))
      && (r.Drawn? ==> forall m :: 0 <= m < |r.value| ==> SpanEdgeOk(r.value[m], from, to, startMax, endMax))
      && (r.Drawn? ==> forall e :: e in c.value <==> SpanEdge(from, to, e.start, e.end) in r.value)
  {
    var startMax, endMax := (startLength - 1) as real, (endLength - 1) as real;
    var c := Candidates(5.0, startMax, endMax, draws);
    if c.Drawn? {
      assert IsDraw(draws[0]);
      TaggedDedupOk(from, to, startMax, endMax, c.value);
      TaggedDedupCovers(from, to, c.value);
    }
  }

  /** The distinct candidate pairs, tagged: as many as there are distinct pairs, none
      twice, each as SpanEdgeOk says when every candidate is. */
  lemma TaggedDedupOk(from: nat, to: nat, startMax: real, endMax: real, cs: seq<Edge>)
    requires forall k :: 0 <= k < |cs| ==>
      cs[k].start != cs[k].end && IndexDrawable(cs[k].start, startMax) && IndexDrawable(cs[k].end, endMax)
    ensures var r := Tagged(from, to, Dedup(cs));
      && |r| <= |cs| && (cs != [] ==> r != [])
      && SpanPairsDistinct(r)
      && forall m :: 0 <= m < |r| ==> SpanEdgeOk(r[m], from, to, startMax, endMax)
  {
    var d := Dedup(cs);
    var r := Tagged(from, to, d);
    forall m | 0 <= m < |r|
      ensures SpanEdgeOk(r[m], from, to, startMax, endMax)
    {
      var k :| 0 <= k < |cs| && cs[k] == d[m];
    }
    forall i, j | 0 <= i < j < |r|
      ensures (r[i].start, r[i].end) != (r[j].start, r[j].end)
    {
      assert d[i] != d[j];
    }
  }

  /** The tagged distinct pairs hold the pair of every candidate and no other pair. */
  lemma TaggedDedupCovers(from: nat, to: nat, cs: seq<Edge>)
    ensures forall e :: e in cs <==> SpanEdge(from, to, e.start, e.end) in Tagged(from, to, Dedup(cs))
  {
    var d := Dedup(cs);
    var r := Tagged(from, to, d);
    forall e
      ensures e in cs <==> SpanEdge(from, to, e.start, e.end) in r
    {
      if e in cs {
        var k :| 0 <= k < |cs| && cs[k] == e;
        var m :| 0 <= m < |d| && d[m] == e;
        assert r[m] == SpanEdge(from, to, e.start, e.end);
      }
      if SpanEdge(from, to, e.start, e.end) in r {
        var m :| 0 <= m < |r| && r[m] == SpanEdge(from, to, e.start, e.end);
        assert d[m] == e;
      }
    }
  }

  /** The spans between all pairs of clusters consecutive in `stackOrder`, one after the
      other, as `setInterStackLineIndices` makes them. */
  function InterStackEdges(positions: seq<seq<Particle>>, stackOrder: seq<nat>, draws: seq<real>)
    : (r: Drawn<seq<seq<SpanEdge>>>)
    requires AllDraws(draws)
    requires |stackOrder| >= 2 ==> forall i :: 0 <= i < |stackOrder| ==> stackOrder[i] < |positions|
    ensures r.Drawn? ==> Suffix(r.rest, draws) && AllDraws(r.rest) && |r.value| == Max(|stackOrder| - 1, 0)
    decreases |stackOrder|
  {
    if |stackOrder| < 2 then Drawn([], draws)
    else
      var from, to := stackOrder[0], stackOrder[1];
      match SpanEdges(from, to, |positions[from]|, |positions[to]|, draws)
      case OutOfDraws => OutOfDraws
      case Drawn(span, rest) =>
        var tail := InterStackEdges(positions, stackOrder[1..], rest);
        if tail.Drawn? then SuffixTrans(tail.rest, rest, draws); Prepend([span], tail) else OutOfDraws
  }

  /** Span i joins clusters stackOrder[i] and stackOrder[i + 1] as SpanOk says. */
  lemma InterStackEdgesOk(positions: seq<seq<Particle>>, stackOrder: seq<nat>, draws: seq<real>)
    requires AllDraws(draws)
    requires |stackOrder| >= 2 ==> forall i :: 0 <= i < |stackOrder| ==> stackOrder[i] < |positions|
    ensures var r := InterStackEdges(positions, stackOrder, draws);
      r.Drawn? ==> forall i :: 0 <= i < |r.value| ==> SpanOk(r.value[i], positions, stackOrder[i], stackOrder[i + 1])
  {
    InterStackSpansOk(positions, stackOrder, draws);
  }

  /** Every span of `spans` joins the clusters consecutive in `order` as SpanOk says. */
  predicate SpansOk(spans: seq<seq<SpanEdge>>, positions: seq<seq<Particle>>, order: seq<nat>) {
    forall i :: 0 <= i < |spans| && i + 1 < |order| && order[i] < |positions| && order[i + 1] < |positions| ==>
      SpanOk(spans[i], positions, order[i], order[i + 1])
  }

  lemma SpansOkCons(span: seq<SpanEdge>, spans: seq<seq<SpanEdge>>, positions: seq<seq<Particle>>, order: seq<nat>)
    requires 2 <= |order| && order[0] < |positions| && order[1] < |positions|
    requires SpanOk(span, positions, order[0], order[1]) && SpansOk(spans, positions, order[1..])
    ensures SpansOk([span] + spans, positions, order)
  {
    var all := [span] + spans;
    forall i | 0 < i < |all| && i + 1 < |order|
      ensures all[i] == spans[i - 1] && order[i] == order[1..][i - 1] && order[i + 1] == order[1..][i]
    {
    }
  }

  /** The spans of InterStackEdges are as SpansOk says, by induction on the order. */
  lemma {:induction false} InterStackSpansOk(positions: seq<seq<Particle>>, stackOrder: seq<nat>, draws: seq<real>)
    requires AllDraws(draws)
    requires |stackOrder| >= 2 ==> forall i :: 0 <= i < |stackOrder| ==> stackOrder[i] < |positions|
    ensures var r := InterStackEdges(positions, stackOrder, draws);
      r.Drawn? ==> SpansOk(r.value, positions, stackOrder)
    decreases |stackOrder|
  {
    if |stackOrder| >= 2 {
      var from, to := stackOrder[0], stackOrder[1];
      var span := SpanEdges(from, to, |positions[from]|, |positions[to]|, draws);
      InterStackEdgesCons(positions, stackOrder, draws);
      if span.Drawn? {
        SpanEdgesOk(from, to, |positions[from]|, |positions[to]|, draws);
        var tail := InterStackEdges(positions, stackOrder[1..], span.rest);
        InterStackSpansOk(positions, stackOrder[1..], span.rest);
        if tail.Drawn? {
          SpansOkCons(span.value, tail.value, positions, stackOrder);
        }
      }
    }
  }

  /** The spans of an order of at least two clusters: none when the first span is not
      drawn, else the first span followed by the spans of the order without its head. */
  lemma InterStackEdgesCons(positions: seq<seq<Particle>>, stackOrder: seq<nat>, draws: seq<real>)
    requires 1 < |stackOrder| && AllDraws(draws)
    requires forall k :: 0 <= k < |stackOrder| ==> stackOrder[k] < |positions|
    ensures var from, to := stackOrder[0], stackOrder[1];
      var span := SpanEdges(from, to, |positions[from]|, |positions[to]|, draws);
      && (span.OutOfDraws? ==> InterStackEdges(positions, stackOrder, draws).OutOfDraws?)
      && (span.Drawn? ==>
            InterStackEdges(positions, stackOrder, draws) ==
            Prepend([span.value], InterStackEdges(positions, stackOrder[1..], span.rest)))
  {
  }

  /** One step of `setInterStackLineIndices`: the spans from position i of the order on
      are the span from stackOrder[i] to stackOrder[i + 1] followed by those from i + 1 on. */
  lemma InterStackEdgesStep(positions: seq<seq<Particle>>, stackOrder: seq<nat>, i: nat, draws: seq<real>)
    requires i + 1 < |stackOrder| && AllDraws(draws)
    requires forall k :: 0 <= k < |stackOrder| ==> stackOrder[k] < |positions|
    ensures var from, to := stackOrder[i], stackOrder[i + 1];
      InterStackEdges(positions, stackOrder[i..], draws) ==
        match SpanEdges(from, to, |positions[from]|, |positions[to]|, draws)
        case OutOfDraws => OutOfDraws
        case Drawn(span, rest) => Prepend([span], InterStackEdges(positions, stackOrder[i + 1..], rest))
  {
    var tail := stackOrder[i..];
    assert tail[0] == stackOrder[i] && tail[1] == stackOrder[i + 1] && tail[1..] == stackOrder[i + 1..];
  }

  /** `setInterStackLineIndices`, as the source writes it: one span per pair of clusters
      consecutive in `stackOrder`. */
  method SetInterStackLineIndices(positions: seq<seq<Particle>>, stackOrder: seq<nat>, draws: seq<real>)
    returns (r: Drawn<seq<seq<SpanEdge>>>)
    requires AllDraws(draws)
    requires |stackOrder| >= 2 ==> forall i :: 0 <= i < |stackOrder| ==> stackOrder[i] < |positions|
    ensures r == InterStackEdges(positions, stackOrder, draws)
  {
    var lineIndices: seq<seq<SpanEdge>> := [];
    var rest := draws;
    assert stackOrder[0..] == stackOrder;
    PrependPrepend([], [], InterStackEdges(positions, stackOrder, draws), rest);
    for i := 0 to Max(|stackOrder| - 1, 0)
      invariant AllDraws(rest)
      invariant InterStackEdges(positions, stackOrder, draws) ==
        Prepend(lineIndices, InterStackEdges(positions, stackOrder[i..], rest))
    {
      InterStackEdgesStep(positions, stackOrder, i, rest);
      var startIndex := stackOrder[i];
      var endIndex := stackOrder[i + 1];
      var spanIndices := SpanLineIndices(startIndex, endIndex, |positions[startIndex]|, |positions[endIndex]|, rest);
      if spanIndices.OutOfDraws? {
        return OutOfDraws;
      }
      PrependPrepend(lineIndices, [spanIndices.value],
        InterStackEdges(positions, stackOrder[i + 1..], spanIndices.rest), rest);
      lineIndices := lineIndices + [spanIndices.value];
      rest := spanIndices.rest;
    }
    PrependPrepend(lineIndices, [], OutOfDraws, rest);
    return Drawn(lineIndices, rest);
  }

  /** One span, as the body of the outer loop of `setInterStackLineIndices` writes it:
      `getRandomInt(1, 5)` candidates, each pushed only when `findIndex` finds no edge
      with the same start and end. */
  method SpanLineIndices(startIndex: nat, endIndex: nat, startLength: nat, endLength: nat, draws: seq<real>)
    returns (r: Drawn<seq<SpanEdge>>)
    requires AllDraws(draws)
    ensures r == SpanEdges(startIndex, endIndex, startLength, endLength, draws)
  {
    var startMax, endMax := (startLength - 1) as real, (endLength - 1) as real;
    if draws == [] {
      return OutOfDraws;
    }
    var lineCount := RandomInt(1.0, 5.0, draws[0]);
    DropDraws(draws, 1);
    var rest := draws[1..];
    var spanIndices: seq<SpanEdge> := [];
    ghost var candidates: seq<Edge> := [];
    PrependPrepend([], [], DrawEdges(lineCount, startMax, endMax, rest), rest);
    for j := 0 to lineCount
      invariant AllDraws(rest)
      invariant DrawEdges(lineCount, startMax, endMax, draws[1..]) ==
        Prepend(candidates, DrawEdges(lineCount - j, startMax, endMax, rest))
      invariant spanIndices == Tagged(startIndex, endIndex, Dedup(candidates))
    {
      DrawEdgesStep(lineCount - j, startMax, endMax, rest);
      var next := NextEdge(startMax, endMax, rest);
      if next.OutOfDraws? {
        return OutOfDraws;
      }
      var start, end := next.value.start, next.value.end;
      var matches := (pair: SpanEdge) => pair.start == start && pair.end == end;
      var index := FindIndex(spanIndices, matches);
      FindTagged(startIndex, endIndex, Dedup(candidates), next.value, matches);
      DedupSnoc(candidates, next.value);
      PrependPrepend(candidates, [next.value], DrawEdges(lineCount - j - 1, startMax, endMax, next.rest), rest);
      if index == -1 {
        TaggedSnoc(startIndex, endIndex, Dedup(candidates), next.value);
        spanIndices := spanIndices + [SpanEdge(startIndex, endIndex, start, end)];
      }
      candidates := candidates + [next.value];
      rest := next.rest;
    }
    PrependPrepend(candidates, [], OutOfDraws, rest);
    return Drawn(spanIndices, rest);
  }

  // ------------------------------------------------------------ line buffers

  /** The six values a line segment occupies: start triple, then end triple. */
  function SegmentCoords(a: Vec3, b: Vec3): seq<real> { Coords(a) + Coords(b) }

  /** The buffer starts with the values `s` and is zero after them. */
  predicate Fills(buffer: seq<real>, s: seq<real>) {
    && |s| <= |buffer| && buffer[..|s|] == s
    && forall m :: |s| <= m < |buffer| ==> buffer[m] == 0.0
  }

  /** The six writes `lineCoords[i * 6 + d] = ...` of one segment at slot `i`, right after
      the `6 * i` values already written. */
  method WriteSegment(lineCoords: array<real>, i: nat, ghost written: seq<real>, a: Vec3, b: Vec3)
    requires |written| == 6 * i && 6 * i + 6 <= lineCoords.Length
    requires Fills(lineCoords[..], written)
    modifies lineCoords
    ensures Fills(lineCoords[..], written + SegmentCoords(a, b))
  {
    lineCoords[i * 6] := a.x;
    lineCoords[i * 6 + 1] := a.y;
    lineCoords[i * 6 + 2] := a.z;
    lineCoords[i * 6 + 3] := b.x;
    lineCoords[i * 6 + 4] := b.y;
    lineCoords[i * 6 + 5] := b.z;
    assert lineCoords[..][..6 * i + 6] == written + SegmentCoords(a, b) by {
      assert lineCoords[..][..6 * i] == old(lineCoords[..])[..6 * i];
    }
  }

  /** Both ends of the edge are particles of the cluster. */
  predicate EdgeInCluster(cluster: seq<Particle>, e: Edge) { e.start < |cluster| && e.end < |cluster| }

  /** The values one edge contributes to its cluster's lines: the start particle's
      location then the end particle's, or nothing when an end is not in the cluster. */
  function EdgeCoords(cluster: seq<Particle>, e: Edge): (r: seq<real>)
    ensures |r| <= 6
  {
    if EdgeInCluster(cluster, e) then SegmentCoords(cluster[e.start].location, cluster[e.end].location) else []
  }

  /** The values `stackLineGeometry` writes for one cluster's edges: the segment of each
      edge whose ends are both in the cluster, in order; other edges are skipped. */
  function ClusterLineCoords(cluster: seq<Particle>, edges: seq<Edge>): (r: seq<real>)
    ensures |r| <= 6 * |edges|
    decreases |edges|
  {
    if edges == [] then []
    else ClusterLineCoords(cluster, edges[..|edges| - 1]) + EdgeCoords(cluster, edges[|edges| - 1])
  }

  /** Every cluster of `lineData` has a cluster of particles, and every edge lies in it. */
  predicate EdgesInClusters(positions: seq<seq<Particle>>, lineData: seq<seq<Edge>>) {
    && |lineData| <= |positions|
    && forall c, i :: 0 <= c < |lineData| && 0 <= i < |lineData[c]| ==> EdgeInCluster(positions[c], lineData[c][i])
  }

  /** The values `stackLineGeometry` writes, in order: for each cluster `c` of `lineData`
      that has particles `positions[c]`, its ClusterLineCoords. At most six per edge,
      and exactly six per edge when every edge lies in its cluster. */
  function StackLineCoords(positions: seq<seq<Particle>>, lineData: seq<seq<Edge>>): (r: seq<real>)
    ensures |r| <= 6 * |Flatten(lineData)|
    decreases |lineData|
  {
    if lineData == [] then []
    else
      var k := |lineData| - 1;
      assert |Flatten(lineData)| == |Flatten(lineData[..k])| + |lineData[k]|;
      StackLineCoords(positions, lineData[..k]) +
      (if k < |positions| then ClusterLineCoords(positions[k], lineData[k]) else [])
  }

  /** When every edge lies in its cluster, no edge is skipped: six values per edge. */
  lemma {:induction false} StackLineCoordsFull(positions: seq<seq<Particle>>, lineData: seq<seq<Edge>>)
    requires EdgesInClusters(positions, lineData)
    ensures |StackLineCoords(positions, lineData)| == 6 * |Flatten(lineData)|
    decreases |lineData|
  {
    if lineData != [] {
      var k := |lineData| - 1;
      assert EdgesInClusters(positions, lineData[..k]);
      StackLineCoordsFull(positions, lineData[..k]);
      ClusterLineCoordsFull(positions[k], lineData[k]);
    }
  }

  /** One more cluster of edges appends that cluster's values, when it has particles. */
  lemma StackLineCoordsSnoc(positions: seq<seq<Particle>>, lineData: seq<seq<Edge>>, k: nat)
    requires k < |lineData|
    ensures StackLineCoords(positions, lineData[..k + 1]) ==
            StackLineCoords(positions, lineData[..k]) +
            (if k < |positions| then ClusterLineCoords(positions[k], lineData[k]) else [])
  {
    assert lineData[..k + 1][..k] == lineData[..k];
  }

  /** One more edge appends its segment, when both its ends are in the cluster. */
  lemma ClusterLineCoordsSnoc(cluster: seq<Particle>, edges: seq<Edge>, j: nat)
    requires j < |edges|
    ensures ClusterLineCoords(cluster, edges[..j + 1]) ==
            ClusterLineCoords(cluster, edges[..j]) + EdgeCoords(cluster, edges[j])
  {
    assert edges[..j + 1][..j] == edges[..j];
  }

  /** When every edge lies in the cluster, none is skipped: six values per edge. */
  lemma {:induction false} ClusterLineCoordsFull(cluster: seq<Particle>, edges: seq<Edge>)
    requires forall i :: 0 <= i < |edges| ==> EdgeInCluster(cluster, edges[i])
    ensures |ClusterLineCoords(cluster, edges)| == 6 * |edges|
    decreases |edges|
  {
    if edges != [] {
      var front := edges[..|edges| - 1];
      assert forall i :: 0 <= i < |front| ==> EdgeInCluster(cluster, front[i]);
      ClusterLineCoordsFull(cluster, front);
    }
  }

  /** The values of the first `k` edges are a prefix of the values of all of them. */
  lemma {:induction false} ClusterLineCoordsPrefix(cluster: seq<Particle>, edges: seq<Edge>, k: nat)
    requires k <= |edges|
    ensures ClusterLineCoords(cluster, edges[..k]) <= ClusterLineCoords(cluster, edges)
    decreases |edges| - k
  {
    if k < |edges| {
      ClusterLineCoordsPrefix(cluster, edges, k + 1);
      ClusterLineCoordsSnoc(cluster, edges, k);
    } else {
      assert edges[..k] == edges;
    }
  }

  /** Edge `j`'s values follow those of the edges before it. */
  lemma ClusterLineCoordsSlot(cluster: seq<Particle>, edges: seq<Edge>, j: nat)
    requires j < |edges|
    ensures var before := |ClusterLineCoords(cluster, edges[..j])|;
            && before + |EdgeCoords(cluster, edges[j])| <= |ClusterLineCoords(cluster, edges)|
            && ClusterLineCoords(cluster, edges)[before..before + |EdgeCoords(cluster, edges[j])|] ==
               EdgeCoords(cluster, edges[j])
  {
    var all := ClusterLineCoords(cluster, edges);
    var upTo := ClusterLineCoords(cluster, edges[..j + 1]);
    var a, b := ClusterLineCoords(cluster, edges[..j]), EdgeCoords(cluster, edges[j]);
    ClusterLineCoordsPrefix(cluster, edges, j + 1);
    ClusterLineCoordsSnoc(cluster, edges, j);
    assert upTo == a + b && upTo <= all;
    PrefixSlice(upTo, all, |a|, |a| + |b|);
    SliceOfConcat(a, b, |a|, |a| + |b|);
  }

  /** When every edge lies in its cluster, slots 6j..6j+5 of a cluster's values hold the
      start then the end location of its j-th edge. */
  lemma ClusterLineCoordsAt(cluster: seq<Particle>, edges: seq<Edge>, j: nat)
    requires forall i :: 0 <= i < |edges| ==> EdgeInCluster(cluster, edges[i])
    requires j < |edges|
    ensures EdgeInCluster(cluster, edges[j])
    ensures 6 * j + 6 <= |ClusterLineCoords(cluster, edges)|
    ensures ClusterLineCoords(cluster, edges)[6 * j..6 * j + 6] ==
            SegmentCoords(cluster[edges[j].start].location, cluster[edges[j].end].location)
  {
    ClusterLineCoordsBefore(cluster, edges, j);
    ClusterLineCoordsSlot(cluster, edges, j);
    EdgeCoordsInCluster(cluster, edges[j]);
  }

  /** When every edge lies in its cluster, the edges before the j-th take 6j values. */
  lemma ClusterLineCoordsBefore(cluster: seq<Particle>, edges: seq<Edge>, j: nat)
    requires forall i :: 0 <= i < |edges| ==> EdgeInCluster(cluster, edges[i])
    requires j <= |edges|
    ensures |ClusterLineCoords(cluster, edges[..j])| == 6 * j
  {
    var front := edges[..j];
    forall i | 0 <= i < |front| ensures EdgeInCluster(cluster, front[i]) {
      assert front[i] == edges[i];
    }
    ClusterLineCoordsFull(cluster, front);
  }

  /** An edge that lies in its cluster contributes the six values of its segment. */
  lemma EdgeCoordsInCluster(cluster: seq<Particle>, e: Edge)
    requires EdgeInCluster(cluster, e)
    ensures EdgeCoords(cluster, e) == SegmentCoords(cluster[e.start].location, cluster[e.end].location)
    ensures |EdgeCoords(cluster, e)| == 6
  {
  }

  /** `stackLineGeometry`: a zero-filled buffer of six slots per edge of `lineData`, filled
      through a running counter `i` with the segments of the edges that lie in their
      cluster. Cluster `c` of `lineData` reads `positions[c]`; once `positions` has no
      entry for `c` the rest of `lineData` is skipped (`c` is not advanced past a
      missing entry). Skipped edges leave zero slots at the end. */
  method StackLineGeometry(positions: seq<seq<Particle>>, lineData: seq<seq<Edge>>)
    returns (coords: seq<real>)
    ensures |coords| == 6 * |Flatten(lineData)|
    ensures Fills(coords, StackLineCoords(positions, lineData))
  {
    var total := |Flatten(lineData)|;
    var lineCoords := new real[total * 6](_ => 0.0);
    var i, c := 0, 0;
    for k := 0 to |lineData|
      invariant c == Min(k, |positions|)
      invariant 6 * i == |StackLineCoords(positions, lineData[..k])|
      invariant |Flatten(lineData[..k])| <= total
      invariant Fills(lineCoords[..], StackLineCoords(positions, lineData[..k]))
    {
      FlattenSnoc(lineData, k);
      FlattenPrefixLength(lineData, k + 1);
      StackLineCoordsSnoc(positions, lineData, k);
      if c >= |positions| {
        continue;
      }
      i := ClusterLineGeometry(lineCoords, i, StackLineCoords(positions, lineData[..k]), positions[c], lineData[k]);
      c := c + 1;
    }
    assert lineData[..|lineData|] == lineData;
    coords := lineCoords[..];
  }

  /** The inner loop of `stackLineGeometry` over one cluster's edges: from slot `i` on, it
      writes the segments of the edges that lie in the cluster and returns the advanced counter. */
  method ClusterLineGeometry(lineCoords: array<real>, i: nat, ghost written: seq<real>,
                             ptData: seq<Particle>, cluster: seq<Edge>) returns (next: nat)
    requires |written| == 6 * i && |written| + 6 * |cluster| <= lineCoords.Length
    requires Fills(lineCoords[..], written)
    modifies lineCoords
    ensures 6 * next == |written + ClusterLineCoords(ptData, cluster)|
    ensures Fills(lineCoords[..], written + ClusterLineCoords(ptData, cluster))
  {
    next := i;
    ghost var acc := written;
    for j := 0 to |cluster|
      invariant acc == written + ClusterLineCoords(ptData, cluster[..j])
      invariant 6 * next == |acc| <= |written| + 6 * j
      invariant Fills(lineCoords[..], acc)
    {
      ClusterLineCoordsSnoc(ptData, cluster, j);
      var line := cluster[j];
      AppendAssoc(written, ClusterLineCoords(ptData, cluster[..j]), EdgeCoords(ptData, line));
      var start, end := line.start, line.end;
      if |ptData| - 1 < start || |ptData| - 1 < end {
        AppendAssoc(acc, [], []);
        continue;
      }
      WriteSegment(lineCoords, next, acc, ptData[start].location, ptData[end].location);
      acc := acc + EdgeCoords(ptData, line);
      next := next + 1;
    }
    assert cluster[..|cluster|] == cluster;
  }

  /** Both clusters of the edge exist and both ends are particles of them. */
  predicate SpanEdgeInClusters(positions: seq<seq<Particle>>, e: SpanEdge) {
    && e.startCluster < |positions| && e.endCluster < |positions|
    && e.start < |positions[e.startCluster]| && e.end < |positions[e.endCluster]|
  }

  /** The values `interStackLineGeometry` writes for a list of inter-cluster edges: the
      segment of each edge whose clusters and particles exist, in order. */
  function SpanLineCoords(positions: seq<seq<Particle>>, lines: seq<SpanEdge>): (r: seq<real>)
    ensures |r| <= 6 * |lines|
    decreases |lines|
  {
    if lines == [] then []
    else
      var e := lines[|lines| - 1];
      SpanLineCoords(positions, lines[..|lines| - 1]) +
      (if SpanEdgeInClusters(positions, e)
       then SegmentCoords(positions[e.startCluster][e.start].location, positions[e.endCluster][e.end].location)
       else [])
  }

  /** When every edge joins existing particles, none is skipped: six values per edge. */
  lemma {:induction false} SpanLineCoordsFull(positions: seq<seq<Particle>>, lines: seq<SpanEdge>)
    requires forall i :: 0 <= i < |lines| ==> SpanEdgeInClusters(positions, lines[i])
    ensures |SpanLineCoords(positions, lines)| == 6 * |lines|
    decreases |lines|
  {
    if lines != [] {
      var front := lines[..|lines| - 1];
      assert forall i :: 0 <= i < |front| ==> SpanEdgeInClusters(positions, front[i]);
      SpanLineCoordsFull(positions, front);
    }
  }

  /** `interStackLineGeometry`: a zero-filled buffer of six slots per edge, filled in order
      with the segments of the edges whose clusters and particles exist; the others are
      skipped and leave zero slots at the end. */
  method InterStackLineGeometry(positions: seq<seq<Particle>>, lineData: seq<seq<SpanEdge>>)
    returns (coords: seq<real>)
    ensures |coords| == 6 * |Flatten(lineData)|
    ensures Fills(coords, SpanLineCoords(positions, Flatten(lineData)))
  {
    var total := |Flatten(lineData)|;
    var lineCoords := new real[total * 6](_ => 0.0);
    var i := 0;
    for k := 0 to |lineData|
      invariant 6 * i == |SpanLineCoords(positions, Flatten(lineData[..k]))|
      invariant |Flatten(lineData[..k])| <= total
      invariant Fills(lineCoords[..], SpanLineCoords(positions, Flatten(lineData[..k])))
    {
      FlattenSnoc(lineData, k);
      FlattenPrefixLength(lineData, k + 1);
      i := SpanLineGeometry(lineCoords, i, positions, Flatten(lineData[..k]), lineData[k]);
    }
    assert lineData[..|lineData|] == lineData;
    coords := lineCoords[..];
  }

  /** The inner loop of `interStackLineGeometry` over one list of edges, after the edges
      `done` have been written up to slot `i`; returns the advanced counter. */
  method SpanLineGeometry(lineCoords: array<real>, i: nat, positions: seq<seq<Particle>>,
                          ghost done: seq<SpanEdge>, cluster: seq<SpanEdge>) returns (next: nat)
    requires 6 * i == |SpanLineCoords(positions, done)|
    requires 6 * (|done| + |cluster|) <= lineCoords.Length
    requires Fills(lineCoords[..], SpanLineCoords(positions, done))
    modifies lineCoords
    ensures 6 * next == |SpanLineCoords(positions, done + cluster)|
    ensures Fills(lineCoords[..], SpanLineCoords(positions, done + cluster))
  {
    next := i;
    assert done + cluster[..0] == done;
    for j := 0 to |cluster|
      invariant 6 * next == |SpanLineCoords(positions, done + cluster[..j])|
      invariant Fills(lineCoords[..], SpanLineCoords(positions, done + cluster[..j]))
    {
      var line := cluster[j];
      assert (done + cluster[..j + 1])[..|done + cluster[..j + 1]| - 1] == done + cluster[..j];
      assert (done + cluster[..j + 1])[|done + cluster[..j + 1]| - 1] == line;
      if line.startCluster >= |positions| || line.endCluster >= |positions| {
        continue;
      }
      var ptStartData := positions[line.startCluster];
      var ptEndData := positions[line.endCluster];
      var start, end := line.start, line.end;
      if |ptStartData| - 1 < start || |ptEndData| - 1 < end {
        continue;
      }
      assert 6 * (next + 1) <= lineCoords.Length by {
        assert |SpanLineCoords(positions, done + cluster[..j + 1])| <= 6 * (|done| + j + 1);
      }
      WriteSegment(lineCoords, next, SpanLineCoords(positions, done + cluster[..j]),
                   ptStartData[start].location, ptEndData[end].location);
      next := next + 1;
    }
    assert done + cluster[..|cluster|] == done + cluster;
  }

  /** Edges made by SetStackLineIndices for the same clusters all lie in their cluster, so
      stackLineGeometry then fills its whole buffer and leaves no zero slots. */
  lemma StackLinesFillBuffer(positions: seq<seq<Particle>>, lineData: seq<seq<Edge>>)
    requires |lineData| == |positions|
    requires forall c :: 0 <= c < |positions| ==> ClusterLinesOk(lineData[c], |positions[c]|)
    ensures |StackLineCoords(positions, lineData)| == 6 * |Flatten(lineData)|
  {
    assert EdgesInClusters(positions, lineData);
    StackLineCoordsFull(positions, lineData);
  }

  /** Spans made by SetInterStackLineIndices for the same clusters, when no cluster is
      empty, all join existing particles, so interStackLineGeometry leaves no zero slots. */
  lemma InterStackLinesFillBuffer(positions: seq<seq<Particle>>, stackOrder: seq<nat>, lineData: seq<seq<SpanEdge>>)
    requires forall c :: 0 <= c < |positions| ==> |positions[c]| > 0
    requires |lineData| < |stackOrder|
    requires forall k :: 0 <= k < |stackOrder| ==> stackOrder[k] < |positions|
    requires forall i :: 0 <= i < |lineData| ==> SpanOk(lineData[i], positions, stackOrder[i], stackOrder[i + 1])
    ensures |SpanLineCoords(positions, Flatten(lineData))| == 6 * |Flatten(lineData)|
  {
    forall c, j | 0 <= c < |lineData| && 0 <= j < |lineData[c]|
      ensures SpanEdgeInClusters(positions, lineData[c][j])
    {
      assert SpanEdgeOk(lineData[c][j], stackOrder[c], stackOrder[c + 1],
                        (|positions[stackOrder[c]]| - 1) as real, (|positions[stackOrder[c + 1]]| - 1) as real);
    }
    FlattenAll(lineData, e => SpanEdgeInClusters(positions, e));
    SpanLineCoordsFull(positions, Flatten(lineData));
  }

  // ------------------------------------------------------------ stack order

  /** Step 1 of `getStackOrder`: the squared distance of each position from the origin. */
  function Distances(positions: seq<Vec3>): (r: seq<real>)
    ensures |r| == |positions| && forall i :: 0 <= i < |r| ==> r[i] == LengthSq(positions[i])
  {
    seq(|positions|, i requires 0 <= i < |positions| => LengthSq(positions[i]))
  }

  /** Index `a` comes before index `b` in the stack order: strictly nearer the origin, or
      equally near and earlier in `positions` (the sort is stable). */
  predicate Before(dist: seq<real>, a: nat, b: nat)
    requires a < |dist| && b < |dist|
  {
    dist[a] < dist[b] || (dist[a] == dist[b] && a < b)
  }

  /** Every entry is an index of `dist`. */
  predicate Indices(dist: seq<real>, order: seq<nat>) {
    forall i :: 0 <= i < |order| ==> order[i] < |dist|
  }

  /** `order` lists indices by non-decreasing distance, ties by index: each entry comes
      Before the next. */
  predicate StablySorted(dist: seq<real>, order: seq<nat>)
    decreases |order|
  {
    && Indices(dist, order)
    && (|order| <= 1 || (Before(dist, order[0], order[1]) && StablySorted(dist, order[1..])))
  }

  /** Insertion of index `k` into an order: in front of the first entry with which it comes
      Before, else at the end. */
  function Insert(dist: seq<real>, order: seq<nat>, k: nat): (r: seq<nat>)
    requires k < |dist| && Indices(dist, order)
    ensures multiset(r) == multiset(order) + multiset{k}
    ensures Indices(dist, r)
    decreases |order|
  {
    if order == [] then [k]
    else if Before(dist, k, order[0]) then [k] + order
    else
      assert order == [order[0]] + order[1..];
      [order[0]] + Insert(dist, order[1..], k)
  }

  lemma BeforeTransitive(dist: seq<real>, a: nat, b: nat, c: nat)
    requires a < |dist| && b < |dist| && c < |dist|
    requires Before(dist, a, b) && Before(dist, b, c)
    ensures Before(dist, a, c)
  {
  }

  /** In a stably sorted order every entry comes Before every later one. */
  lemma {:induction false} SortedPairs(dist: seq<real>, order: seq<nat>)
    requires StablySorted(dist, order)
    ensures forall i, j :: 0 <= i < j < |order| ==> Before(dist, order[i], order[j])
    decreases |order|
  {
    if |order| > 1 {
      var rest := order[1..];
      SortedPairs(dist, rest);
      forall i, j | 0 <= i < j < |order| ensures Before(dist, order[i], order[j]) {
        if i == 0 {
          if j > 1 {
            assert rest[0] == order[1] && rest[j - 1] == order[j];
            BeforeTransitive(dist, order[0], order[1], order[j]);
          }
        } else {
          assert rest[i - 1] == order[i] && rest[j - 1] == order[j];
        }
      }
    }
  }

  /** Inserting an index not yet in a stably sorted order keeps it stably sorted. */
  lemma {:induction false} InsertSorted(dist: seq<real>, order: seq<nat>, k: nat)
    requires k < |dist| && k !in order && StablySorted(dist, order)
    ensures StablySorted(dist, Insert(dist, order, k))
    decreases |order|
  {
    if order == [] {
    } else if Before(dist, k, order[0]) {
      assert ([k] + order)[1..] == order;
    } else {
      var rest := order[1..];
      assert order == [order[0]] + rest;
      InsertSorted(dist, rest, k);
      var tail := Insert(dist, rest, k);
      assert Before(dist, order[0], tail[0]) by {
        if rest == [] || Before(dist, k, rest[0]) {
          assert tail[0] == k && k != order[0];
        } else {
          assert tail[0] == rest[0] == order[1];
        }
      }
      assert ([order[0]] + tail)[1..] == tail;
    }
  }

  /** Insertion sort: indices k..n-1 inserted one by one into `sorted`. */
  function SortFrom(dist: seq<real>, sorted: seq<nat>, k: nat, n: nat): (r: seq<nat>)
    requires k <= n <= |dist| && Indices(dist, sorted)
    ensures Indices(dist, r)
    decreases n - k
  {
    if k == n then sorted else SortFrom(dist, Insert(dist, sorted, k), k + 1, n)
  }

  /** Inserting k..n-1 into a stably sorted arrangement of 0..k-1 gives a stably sorted
      arrangement of 0..n-1. */
  lemma {:induction false} SortFromCorrect(dist: seq<real>, sorted: seq<nat>, k: nat, n: nat)
    requires k <= n <= |dist| && Indices(dist, sorted)
    requires multiset(sorted) == multiset(Range(k)) && StablySorted(dist, sorted)
    ensures multiset(SortFrom(dist, sorted, k, n)) == multiset(Range(n))
    ensures StablySorted(dist, SortFrom(dist, sorted, k, n))
    decreases n - k
  {
    if k < n {
      RangeSnoc(k);
      NotInMultiset(sorted, multiset(Range(k)), k);
      InsertSorted(dist, sorted, k);
      SortFromCorrect(dist, Insert(dist, sorted, k), k + 1, n);
    }
  }

  /** `getStackOrder`: the indices of `positions` sorted by squared distance from the
      origin with a stable sort, so a permutation of 0..n-1 in which equally distant
      positions keep their index order. */
  function GetStackOrder(positions: seq<Vec3>): (r: seq<nat>)
    ensures |r| == |positions|
    ensures multiset(r) == multiset(Range(|positions|))
    ensures StablySorted(Distances(positions), r)
  {
    var dist := Distances(positions);
    SortFromCorrect(dist, [], 0, |positions|);
    SortFrom(dist, [], 0, |positions|)
  }

  /** The head of a stably sorted order comes Before each of its other entries. */
  lemma HeadFirst(dist: seq<real>, s: seq<nat>, x: nat)
    requires StablySorted(dist, s) && x in multiset(s)
    ensures s[0] == x || (x < |dist| && Before(dist, s[0], x))
  {
    var j :| 0 <= j < |s| && s[j] == x;
    SortedPairs(dist, s);
  }

  /** There is only one stably sorted arrangement of a collection of indices, so any
      stable sort by squared distance returns exactly GetStackOrder. */
  lemma {:induction false} StableSortUnique(dist: seq<real>, s: seq<nat>, t: seq<nat>)
    requires StablySorted(dist, s) && StablySorted(dist, t)
    requires multiset(s) == multiset(t)
    ensures s == t
    decreases |s|
  {
    assert |s| == |multiset(s)| == |t|;
    if s != [] {
      assert t[0] in multiset(s) && s[0] in multiset(t);
      HeadFirst(dist, s, t[0]);
      HeadFirst(dist, t, s[0]);
      MultisetTail(s, t);
      assert StablySorted(dist, s[1..]) && StablySorted(dist, t[1..]);
      StableSortUnique(dist, s[1..], t[1..]);
    }
  }

  // ------------------------------------------------------------ frame update

  /** One frame for one particle `p`, given the centroid `center` of its cluster's
      locations before the frame: `q` is at `location + speed`, and its speed is the
      negated speed when `q` ends up farther than `stackDim` from `center` (squared
      distance above stackDim²), else the same speed. */
  predicate FrameStep(p: Particle, q: Particle, center: Vec3, stackDim: real) {
    && q.location == Add(p.location, p.speed)
    && q.speed == (if DistSq(center, q.location) > stackDim * stackDim then Negate(p.speed) else p.speed)
  }

  /** `updated` is `cluster` after one frame: same size, each particle stepped against
      the centroid of the cluster's locations before the frame. */
  predicate ClusterFrame(cluster: seq<Particle>, updated: seq<Particle>, stackDim: real) {
    && |updated| == |cluster|
    && (|cluster| > 0 ==>
          forall i :: 0 <= i < |cluster| ==> FrameStep(cluster[i], updated[i], Mean(Locations(cluster)), stackDim))
  }

  /** The body of the `useFrame` callback: the centroid of each cluster's locations, then
      each particle moved by its speed and its speed reversed when it left the stack. The
      centroid of an empty cluster is not computed, as no particle uses it. */
  method FrameUpdate(particleData: seq<seq<Particle>>, stackDim: real) returns (dataUpdate: seq<seq<Particle>>)
    ensures |dataUpdate| == |particleData|
    ensures forall c :: 0 <= c < |particleData| ==> ClusterFrame(particleData[c], dataUpdate[c], stackDim)
  {
    dataUpdate := [];
    var sqStackDim := stackDim * stackDim;
    for c := 0 to |particleData|
      invariant |dataUpdate| == c
      invariant forall k :: 0 <= k < c ==> ClusterFrame(particleData[k], dataUpdate[k], stackDim)
    {
      var cluster := particleData[c];
      var clusterUpdate: seq<Particle> := [];
      if |cluster| > 0 {
        var clusterCentroid := Centroid(Locations(cluster));
        for i := 0 to |cluster|
          invariant |clusterUpdate| == i
          invariant forall k :: 0 <= k < i ==> FrameStep(cluster[k], clusterUpdate[k], clusterCentroid, stackDim)
        {
          var element := cluster[i];
          var newPos := Add(element.location, element.speed);
          var sqDist := DistSq(clusterCentroid, newPos);
          if sqDist > sqStackDim {
            clusterUpdate := clusterUpdate + [Particle(newPos, Negate(element.speed))];
          } else {
            clusterUpdate := clusterUpdate + [Particle(newPos, element.speed)];
          }
        }
      }
      dataUpdate := dataUpdate + [clusterUpdate];
    }
  }

  /** A frame keeps the length of every speed: it is only ever negated. */
  lemma FrameKeepsSpeeds(cluster: seq<Particle>, updated: seq<Particle>, stackDim: real, i: nat)
    requires ClusterFrame(cluster, updated, stackDim) && i < |cluster|
    ensures LengthSq(updated[i].speed) == LengthSq(cluster[i].speed)
  {
    NegateLengthSq(cluster[i].speed);
  }

  /** A frame moves a cluster's centroid by the mean of its particles' speeds before the frame. */
  lemma FrameMovesCentroid(cluster: seq<Particle>, updated: seq<Particle>, stackDim: real)
    requires ClusterFrame(cluster, updated, stackDim) && |cluster| > 0
    ensures Mean(Locations(updated)) == Add(Mean(Locations(cluster)), Mean(Speeds(cluster)))
  {
    MeanOfSums(Locations(cluster), Speeds(cluster), Locations(updated));
  }

  /** A particle that bounced moves straight back to where it was in the next frame. */
  lemma FrameBounceReturns(p: Particle, q: Particle, r: Particle, c1: Vec3, c2: Vec3, stackDim: real)
    requires FrameStep(p, q, c1, stackDim) && FrameStep(q, r, c2, stackDim)
    requires DistSq(c1, q.location) > stackDim * stackDim
    ensures r.location == p.location
  {
  }
}

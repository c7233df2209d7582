# Particle stack cloud and box particles, in Dafny

This project models the index and buffer bookkeeping behind two Three.js
particle sketches and proves properties of it.

- **Stack cloud** (`src/StackCloud.js`): clusters ("stacks") of particles, random
  edges inside each cluster, random edges between clusters that are consecutive
  in distance from the origin, the flat coordinate buffers built from them, and
  the per-frame update that moves each particle and reverses its speed when it
  leaves its stack.
- **Box particles** (`src/BoxParticles.js`): a random number of particles in a
  cube, random edges between them, and the per-frame update. That update moves
  the coordinates in place, bounces velocities off the faces of a box and copies
  the edge end points into a line buffer.

`Math.random()` is an explicit input: a finite sequence of draws, each a real in
[0, 1). Draws are consumed from the front in the order the source calls
`Math.random()`. An operation needing more draws than it is given returns
`OutOfDraws`. Coordinates are `real`.

Modules:

- `Random` (`random.dfy`): the draw sequence and `getRandomInt`. It also has the
  rejection loop `while (start === end) end = getRandomInt(0, max)` and the
  speed-component formula shared by both sketches.
- `Vectors` (`vectors.dfy`): the part of `Vector3` in use (add, negate, squared
  length and distance), plus sums and centroids of point lists.
- `Collections` (`collections.dfy`): `flat()`, `findIndex` and the `{start, end}`
  edge record.
- `StackCloud` (`stack_cloud.dfy`): the stack-cloud operations. Each takes values
  and returns values. The buffer fills and the edge generators keep the
  source's loops, counters and arrays.
- `BoxParticles` (`box_particles.dfy`): the box operations. The module-level
  `particleData` and `lineData` lists are the two fields of one `Shared` object.
  The `Float32Array` of coordinates is an `array<real>` that the frame update
  changes in place.

Quirks of the code the model keeps:

- The line buffers have `6 × (all edges)` slots, not `6 × (valid edges)`.
  Skipped edges leave zero slots at the end (`Fills`, `StackLinesFillBuffer`).
- Box edges are not de-duplicated.
- Box edge indices run up to `ptCount` inclusive, one past the last particle.
  Such an edge reads past the end of the coordinate array, which gives NaN
  (`EndPastLastParticle`).
- Cube coordinates lie in `[-dim/2, dim/2)`: the upper end is open.
- A negative particle count makes `new Float32Array` throw `RangeError`
  (`CountNonNegative`).

## Model

| member | source | states |
|---|---|---|
| Random.RandomInt | src/StackCloud.js:74-78 | for any draw the result is an integer between ceil(min) and floor(max), or between floor(max)+1 and ceil(min) when that range is empty |
| Random.RandomIntInRange | src/BoxParticles.js:31-37 | for integer min <= max, getRandomInt returns an integer in [min, max] |
| Random.RandomIntCovers | src/StackCloud.js:74-78 | every integer of a non-empty range is returned for some draw |
| Random.IndexDraw | src/StackCloud.js:203-204 | getRandomInt(0, max) returns an index in [0, max(0, floor(max))] |
| Random.Redraw | src/StackCloud.js:205 | the loop's outcome: an end different from start and drawable, consuming draws from the front; an end that already differs is kept with no draw; OutOfDraws when 0 is the only drawable index and start is 0 |
| Random.RedrawFails | src/StackCloud.js:205 | the loop runs out of draws exactly when end equals start and every supplied draw gives start again |
| Random.RedrawEnd | src/StackCloud.js:205 | the while loop, written with its counter, returns exactly Redraw's outcome |
| Random.DrawEdge | src/StackCloud.js:203-205 | one candidate: two draws then the redraw loop; its ends differ and each is drawable for its own maximum; it never ends when the only end index is 0 and start is 0 |
| Random.DrawEdges | src/BoxParticles.js:72-78 | max(n, 0) candidates drawn one after the other, each with different, drawable ends |
| Random.NextEdge | src/StackCloud.js:203-205 | the statements drawing one candidate give exactly DrawEdge's edge and remaining draws |
| Random.NextEdges | src/BoxParticles.js:72-78 | the push loop over count candidates gives exactly DrawEdges's edges, in draw order |
| Random.SpeedComponent | src/StackCloud.js:59-63 | a speed component for a positive speed s lies in [-s/2, s/2) |
| Collections.FindIndex | src/StackCloud.js:206-208 | -1 exactly when no element matches, else the first matching index |
| Collections.Dedup | src/StackCloud.js:202-210 | keeping each candidate unless an equal one was kept: every candidate is in the result, every result element is a candidate, no element twice, non-empty for non-empty input |
| Collections.DedupSnoc | src/StackCloud.js:209 | one more candidate is appended exactly when it is not already kept |
| Collections.FindIndexEqual | src/StackCloud.js:206-209 | findIndex with an equality test gives -1 exactly when the value is absent, so the push happens exactly for new pairs |
| Collections.FlattenIndex | src/StackCloud.js:148-150 | element j of list c sits in the flattened list right after the elements of the lists before c: the cluster-then-index order of the cloud buffer |
| Collections.FlattenAll | src/StackCloud.js:220 | a property of every element of every inner list holds of every element of flat() |
| StackCloud.Locations | src/StackCloud.js:406 | the list of locations, one per particle, in particle order |
| StackCloud.Centroid | src/StackCloud.js:82-93 | the loop's three running sums divided by the count are the mean of the points |
| StackCloud.NewParticle | src/StackCloud.js:53-65 | a particle made from six draws lies within stackRad of its centre and has each speed component in [-speed/2, speed/2) |
| StackCloud.ClusterParticles | src/StackCloud.js:52-66 | max(nPts, 0) particles, particle j from draws 6j..6j+5, each starting in its stack |
| StackCloud.NewCluster | src/StackCloud.js:52-66 | the inner loop gives exactly ClusterParticles's particles and remaining draws |
| StackCloud.StackParticles | src/StackCloud.js:40-70 | one cluster per stack position, drawn from the front of the draws |
| StackCloud.StackParticlesInStacks | src/StackCloud.js:40-70 | each cluster size lies in [ceil(minPts), floor(maxPts)] when that range is non-negative and non-empty, and every particle starts in its own stack |
| StackCloud.ClusterSizes | src/StackCloud.js:50-53 | each cluster size lies in [ceil(minPts), floor(maxPts)] when that range is non-negative and non-empty |
| StackCloud.ClustersInStacks | src/StackCloud.js:51-65 | every particle of cluster i starts in stack i |
| StackCloud.PositionsInStack | src/StackCloud.js:40-70 | the two loops give exactly StackParticles's clusters and remaining draws |
| StackCloud.CloudGeometry | src/StackCloud.js:143-161 | 3N vertex values and 4N colour values for N particles, in flattened order, with every fourth colour value 0.5 |
| StackCloud.Candidates | src/StackCloud.js:201-205 | getRandomInt(1, countMax) candidates after the first draw |
| StackCloud.CandidatesNeverEnd | src/StackCloud.js:203-205 | when 0 is the only drawable index, the first candidate's redraw loop never ends |
| StackCloud.ClusterEdges | src/StackCloud.js:199-210 | one cluster's edge list, leaving a suffix of the draws |
| StackCloud.ClusterEdgesOk | src/StackCloud.js:199-210 | drawn exactly when its candidates are; 1 to 2·ptCount edges with start != end, both ends below ptCount, no repeated ordered pair; an edge is in the list exactly when it is a candidate; fewer than two particles means the loop never ends |
| StackCloud.ClusterTooSmall | src/StackCloud.js:203-205 | a cluster of fewer than two particles never gets an edge list |
| StackCloud.StackEdges | src/StackCloud.js:196-214 | one edge list per cluster |
| StackCloud.StackEdgesOk | src/StackCloud.js:196-214 | every cluster's edge list is as ClusterEdgesOk says for its size; a cluster with fewer than two particles makes the whole run OutOfDraws |
| StackCloud.StackEdgeAt | src/StackCloud.js:198-211 | the edge list of cluster c, by induction on c |
| StackCloud.ShortClusterStops | src/StackCloud.js:198-205 | cluster c with fewer than two particles stops all edge lists |
| StackCloud.ClusterLineIndices | src/StackCloud.js:199-210 | the candidate loop with findIndex gives exactly ClusterEdges's edges and remaining draws |
| StackCloud.SetStackLineIndices | src/StackCloud.js:196-214 | the outer loop gives exactly StackEdges's lists and remaining draws |
| StackCloud.FindTagged | src/StackCloud.js:264-267 | findIndex on the tagged pairs finds nothing exactly when the pair has not been kept |
| StackCloud.SpanEdges | src/StackCloud.js:257-275 | one span, leaving a suffix of the draws |
| StackCloud.SpanEdgesOk | src/StackCloud.js:257-275 | drawn exactly when its candidates are; 1 to 5 edges tagged with both clusters, start != end, each end drawable in its own cluster, no repeated pair; a pair is in the span exactly when it is a candidate |
| StackCloud.TaggedDedupOk | src/StackCloud.js:259-274 | the deduplicated tagged pairs are non-empty, no more than the candidates, with no repeated pair, each edge as SpanEdgeOk says |
| StackCloud.TaggedDedupCovers | src/StackCloud.js:259-274 | the pair of every candidate and no other pair is in the span |
| StackCloud.InterStackEdges | src/StackCloud.js:249-278 | stackOrder.length - 1 spans (none for fewer than two clusters) |
| StackCloud.InterStackEdgesOk | src/StackCloud.js:249-278 | span i joins clusters stackOrder[i] and stackOrder[i+1] as SpanEdgesOk says |
| StackCloud.InterStackSpansOk | src/StackCloud.js:252-276 | every span is as SpanEdgesOk says for its clusters, by induction on the order |
| StackCloud.SpanLineIndices | src/StackCloud.js:257-274 | the candidate loop with findIndex gives exactly SpanEdges's span and remaining draws |
| StackCloud.SetInterStackLineIndices | src/StackCloud.js:249-278 | the outer loop gives exactly InterStackEdges's spans and remaining draws |
| StackCloud.ClusterLineCoords | src/StackCloud.js:173-186 | at most six values per edge |
| StackCloud.ClusterLineCoordsFull | src/StackCloud.js:176 | exactly six values per edge when every edge lies in the cluster |
| StackCloud.StackLineCoords | src/StackCloud.js:165-192 | at most six values per edge |
| StackCloud.StackLineCoordsFull | src/StackCloud.js:172-176 | exactly six values per edge when every cluster of edges has its particle list and every edge lies in it |
| StackCloud.ClusterLineCoordsAt | src/StackCloud.js:177-182 | when every edge lies in the cluster, slots 6j..6j+5 hold the start location then the end location of edge j |
| StackCloud.WriteSegment | src/StackCloud.js:177-182 | the six writes append one segment after the values already written and leave the zero tail |
| StackCloud.StackLineGeometry | src/StackCloud.js:165-192 | the buffer has 6 slots per edge and starts with StackLineCoords, followed by zeros; clusters with no particle list are skipped and c does not advance past them |
| StackCloud.ClusterLineGeometry | src/StackCloud.js:173-187 | the inner loop appends one cluster's valid segments and advances the counter by their number |
| StackCloud.StackLinesFillBuffer | src/StackCloud.js:167-176 | edges from SetStackLineIndices for the same clusters fill the whole buffer, with no zero slots |
| StackCloud.SpanLineCoords | src/StackCloud.js:224-240 | at most six values per inter-cluster edge |
| StackCloud.SpanLineCoordsFull | src/StackCloud.js:227-232 | exactly six values per edge when every edge's clusters and particles exist |
| StackCloud.InterStackLineGeometry | src/StackCloud.js:218-245 | the buffer has 6 slots per edge and starts with SpanLineCoords of the flattened edges, followed by zeros |
| StackCloud.SpanLineGeometry | src/StackCloud.js:224-242 | the inner loop appends one span's valid segments and advances the counter |
| StackCloud.InterStackLinesFillBuffer | src/StackCloud.js:227-232 | spans from SetInterStackLineIndices over non-empty clusters fill the whole buffer |
| StackCloud.Distances | src/StackCloud.js:298-301 | one squared distance from the origin per position, in index order |
| StackCloud.Insert | src/StackCloud.js:303 | inserting an index adds exactly that index to the order |
| StackCloud.InsertSorted | src/StackCloud.js:303 | inserting a new index into a stably sorted order keeps it stably sorted |
| StackCloud.SortedPairs | src/StackCloud.js:303 | in a stably sorted order (each entry Before the next) every entry comes Before every later one |
| StackCloud.SortFromCorrect | src/StackCloud.js:303 | SortFrom, inserting k..n-1 one by one into a stably sorted permutation of 0..k-1, gives a stably sorted permutation of 0..n-1 |
| StackCloud.GetStackOrder | src/StackCloud.js:296-308 | a permutation of 0..n-1 by non-decreasing squared distance from the origin, with ties in index order |
| StackCloud.StableSortUnique | src/StackCloud.js:303 | two stably sorted arrangements of the same indices are equal, so every stable sort returns GetStackOrder |
| StackCloud.FrameUpdate | src/StackCloud.js:401-424 | same clusters and sizes; each location becomes location + speed; the speed is negated exactly when the moved location is farther than stackDim from the centroid of the locations before the move |
| StackCloud.FrameKeepsSpeeds | src/StackCloud.js:411-417 | a frame keeps the length of every speed |
| StackCloud.FrameMovesCentroid | src/StackCloud.js:405-420 | a frame moves a cluster's centroid by the mean of its speeds |
| StackCloud.FrameBounceReturns | src/StackCloud.js:409-415 | a particle whose speed was reversed is back at its earlier location one frame later |
| BoxParticles.CubeCoordinate | src/BoxParticles.js:21-23 | a cube coordinate with a positive dim lies in [-dim/2, dim/2) |
| BoxParticles.GeneratePositionsCube | src/BoxParticles.js:17-27 | RangeError exactly when the drawn count is negative; otherwise a fresh array of 3·count values, value k made from draw k+1 |
| BoxParticles.WriteCubePoint | src/BoxParticles.js:21-23 | the three writes of point i set its coordinates from three draws and leave every other slot unchanged |
| BoxParticles.CountNonNegative | src/BoxParticles.js:18-19 | no draw gives a negative count exactly when countMin > -1 and countMax >= -1 |
| BoxParticles.CubeInRange | src/BoxParticles.js:18-23 | for integer 0 <= countMin <= countMax, the count is in [countMin, countMax] and every coordinate in [-dim/2, dim/2) |
| BoxParticles.BoxLineCoords | src/BoxParticles.js:151-161 | six values per edge |
| BoxParticles.BoxLineCoordsAt | src/BoxParticles.js:152-160 | slots 6i..6i+5 copy positions[3·start..3·start+2] then positions[3·end..3·end+2], NaN past the end of the array |
| BoxParticles.SegmentNaN | src/BoxParticles.js:155-160 | an edge copies only numbers exactly when both its ends are particles of the array |
| BoxParticles.WriteBoxSegment | src/BoxParticles.js:155-160 | the six writes extend the filled prefix by one segment and leave the rest of the buffer unchanged |
| BoxParticles.FillLineCoords | src/BoxParticles.js:151-161 | the line buffer is BoxLineCoords of the coordinates and the edges |
| BoxParticles.Reflect | src/BoxParticles.js:135-149 | the bounce keeps the speed; a component along an axis where the particle is inside is kept; one along an axis the particle has left through a face while moving outwards now points back |
| BoxParticles.BounceTurnsBack | src/BoxParticles.js:140-144 | a particle past a face and moving outwards moves back inwards after the bounce |
| BoxParticles.OutsideOscillates | src/BoxParticles.js:131-149 | a particle outside the box whose next position is also outside flips every frame between two positions |
| BoxParticles.LineCount | src/BoxParticles.js:68-72 | for n particles, between n - 1 and 2n - 1 edges are made (none for n = 0) |
| BoxParticles.BoxEdges | src/BoxParticles.js:65-79 | getRandomInt(ptCount, 2·ptCount) - 1 edges (none when that is not positive) with different ends, each in [0, ptCount] |
| BoxParticles.BoxEdgeCount | src/BoxParticles.js:68-72 | for a whole number n of particles, BoxEdges has between n - 1 and 2n - 1 edges |
| BoxParticles.DrawBoxEdges | src/BoxParticles.js:70-78 | the loop gives exactly BoxEdges's edges and remaining draws, between n - 1 and 2n - 1 of them |
| BoxParticles.EndPastLastParticle | src/BoxParticles.js:73-75 | index ptCount, one past the last particle, is drawn for some draw, is a valid edge end, and makes the edge copy NaN |
| BoxParticles.Shared.constructor | src/BoxParticles.js:12-13 | both module-level lists start empty |
| BoxParticles.Shared.LinesBetweenPoints | src/BoxParticles.js:65-79 | lineData becomes exactly BoxEdges's edges for ptCount = positions.length / 3: their ends differ and lie in [0, ptCount], between n - 1 and 2n - 1 of them, with no de-duplication |
| BoxParticles.Shared.InitParticleData | src/BoxParticles.js:93-103 | particleData becomes one record per array element (3·count records), each with a velocity of three speed components from consecutive draws and numConnections 0 |
| BoxParticles.Shared.MoveParticle | src/BoxParticles.js:129-149 | one particle's coordinates move by its velocity, other coordinates stay, and its velocity is bounced per axis |
| BoxParticles.Shared.Frame | src/BoxParticles.js:125-161 | every particle moves by its velocity in place and its velocity is bounced per axis against center ± dim/2, unclamped; records past the particles are unchanged; the line buffer is filled from the moved coordinates |

## Left out

- React components, hooks, state setters and re-render timing are not modelled. Instead, the operations they call are modelled one by one.
- Three.js objects (`BufferGeometry`, `Float32BufferAttribute`, bounding spheres, materials) are not modelled. Buffers are `seq<real>` or `array<real>`.
- The `color` attribute of `cloudGeometry` is declared with item size 3 while four values per particle are pushed. How Three.js reads that buffer is not modelled; the model states the four values pushed.
- Float32 rounding is not modelled: buffer values are exact reals.
- `positionsInCone`, the trigonometric offsets of `positionsInStack`, and the colour formula `hsvToRgb` are left out as floating-point transcendental numerics. `NewParticle` takes the direction `(sin φ cos θ, sin φ sin θ, cos φ)` as a function parameter that is required to give unit vectors. `CloudGeometry` takes the colour as a function of the particle's index and the particle count.
- The algorithm behind `Array.prototype.sort` in `getStackOrder` is not modelled. The model sorts by insertion, and StableSortUnique shows that every stable sort by the same key gives the same order. The comparator `a.distance - b.distance` is read as exact real subtraction.
- Seeding and the distribution of `Math.random` are not modelled. The draws are an input sequence.
- `OutOfDraws` stands for a run that needs more draws than were supplied. That includes the rejection loop that never ends.
- StackCloud.FrameUpdate: the source updates `location` and `speed` in place with `add` and `negate`, on the same `Vector3` objects the old particle list holds. The model returns the updated particles as new values, so that aliasing is not captured.
- StackCloud.Centroid: the centroid of an empty cluster is NaN (0 / 0). It is never used, because no particle of the cluster reads it. The model requires a non-empty list, and FrameUpdate computes the centroid only for non-empty clusters.
- BoxParticles.Shared.Frame requires the array length to be a multiple of three and `particleData` to have a record for every particle of that array. `particleData` and `lineData` are module-level lists shared by every mounted box: `src/BoxController.js:138-148` mounts up to 50 `BoxParticles`, and each one's set-up overwrites both lists, so every box's frame reads the lists of the box set up last. A `Shared` object passed to several boxes' frames models that sharing. A box with more particles than that box has records reads `undefined` and throws `TypeError` (`src/BoxParticles.js:130-131`); that throw, and reads and writes of a partial last triple, are not modelled. Edges of the last box that name particles past another box's array copy NaN, as BoxLineCoordsAt states.
- BoxParticles.Shared.LinesBetweenPoints assigns `lineData` once from the edges DrawBoxEdges pushes one by one, instead of pushing onto `lineData` itself. Nothing reads the list between the pushes.
- StackCloud.SetInterStackLineIndices and StackCloud.InterStackEdges require every entry of `stackOrder` to index a cluster when there are at least two entries. The source reads `.length` of `positions[stackOrder[i]]` (`src/StackCloud.js:255-261`), which throws `TypeError` for a missing cluster; that throw is not modelled. The component (`src/StackCloud.js:336-383`) computes both the clusters and `stackOrder` from the same stack positions, one cluster per position, so their order indexes clusters only.
- The velocity vectors of `particleData` are values here. The source negates their fields in place. Each record owns its own vector, so no aliasing is lost.

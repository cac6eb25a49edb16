# Graphics-course labs in Dafny

This project models the computational core of a set of computer-graphics
course labs written in C++ with Eigen. The modelled parts are:

- the matrix stack that every lab uses to compose model-view and projection
  transforms (`3_lab`);
- the n-body galaxy simulation (`9_lab`): the softened gravitational force,
  the semi-implicit Euler step, the galaxy-file loader and saver, the
  two-body set-up and the depth sort of particle indices;
- the control-point grid of the skinning and free-form-deformation labs
  (`skeleton_asgn`, `6_lab`): its index arithmetic, reset, nearest-point
  search, tile corners and the text save/load format;
- the skinning data preparation and CPU skinning of `skeleton_asgn`: the
  weight-file and animation-file loaders, the selection of non-zero bone
  influences, padding to 15 slots, flattening into per-vertex buffers, the
  inverse bind pose, the frame counter, and the linear-blend skinning sum;
- the FFD cage of `6_lab`: locating a vertex in the grid tile that contains
  it, its bilinear local coordinates, and the bilinear map back to world
  space;
- cubic splines (`2_lab`, `4_lab`, `keyframe_asgn`): the Bézier,
  Catmull-Rom and B-spline basis matrices, curve points and derivatives on a
  four-point window, segment selection, the arc-length table built by
  Gauss-Legendre quadrature, and the inverse look-up from arc length to the
  concatenated parameter;
- the keyframed helicopters of `keyframe_asgn`: the looping control
  polygon, the static helicopters' tangents and the interpolated pose;
- the two piecewise cubics of `5_lab`, fixed by eight conditions solved as an
  8×8 linear system, and the mouse-driven tangent;
- the link trees of `7_lab` and `ik_assignment`: tree construction, and the
  push / multiply / draw / pop traversal of the matrix stack.

Floating-point numbers are modelled as `real`. Square root and `pow(x, 1.5)`
are parameters (`LinAlg.Maths`), and so are the other library functions the
code calls into: matrix inverse, QR solve, quaternion-to-matrix, `cos`/`sin`,
the grid's point formatting and parsing, the value a printed number
stands for, and random draws. Files are given as sequences
of tokens (`Streams.Token`); a C++ `in >> v` is `Streams.ReadReal` and
friends, including the stream's fail state, after which a failed extraction
leaves the variable as it was.

Objects whose fields the C++ updates in place are classes
(`MatrixStacks.MatrixStack`, `NBody.Simulation`, `Grids.Grid`,
`Skinning.SkinnedShape`, `ShapeCages.ShapeCage`, `CurveLab.SplineLab`,
`ArcLengthLab.ArcLab`, `Keyframes.Scene`, `Cubics.CubicLab`,
`IkLinks.Link`). Their methods are specified against pure functions, and the
properties are proved about those functions.

`skeleton_asgn/Grid.cpp` is an older copy of `skeleton_asgn/src/Grid.cpp`
without the two file loaders. The class is modelled once, and some rows
below cite the copy.

Where the code and the comments disagree, the model follows the code:

- `loadParticles` appends the records to the particles already present
  rather than replacing them, and it does not check the masses it reads;
- `saveParticles` writes only the header line, because the record loop is
  unimplemented;
- the simulation time `t` is never advanced by `stepParticles`;
- the static helicopters use the derivative at u = 1, although the comment
  says u = 0 (see Findings);
- `draw` on the CPU path blends every vertex with the weights of vertex 0
  (see Findings).

For each finding, the operation that runs the faulty code
(`Keyframes.StaticHelicopters`, `Skinning.SkinnedShape.Draw`) is modelled as
written, and the corrected definition stands beside it with its intended
property proved.

## Model

| member | source | states |
|---|---|---|
| LinAlg.ApplyMul | 3_lab/src/MatrixStack.cpp:81-85 | applying a product of matrices to a vector is applying the right factor first and then the left one, which is why post-multiplying the top of the stack makes a transform act before the ones already there |
| LinAlg.MulIdentityRight | 3_lab/src/MatrixStack.cpp:37-41 | the identity is a right unit of matrix multiplication |
| MatrixStacks.Pushed | 3_lab/src/MatrixStack.cpp:22-27 | the pushed stack is one longer, keeps every old entry and its new top is a copy of the old top |
| MatrixStacks.Popped | 3_lab/src/MatrixStack.cpp:29-35 | the popped stack plus the old top gives back the old stack |
| MatrixStacks.WithTop | 3_lab/src/MatrixStack.cpp:43-51 | replacing the top keeps the size and every entry below the top |
| MatrixStacks.MatrixStack.constructor | 3_lab/src/MatrixStack.cpp:12-16 | a new stack holds exactly one identity matrix |
| MatrixStacks.MatrixStack.PushMatrix | 3_lab/src/MatrixStack.cpp:22-27 | push duplicates the top; the visible top is unchanged |
| MatrixStacks.MatrixStack.PopMatrix | 3_lab/src/MatrixStack.cpp:29-35 | pop removes the top and is allowed only while more than one matrix is on the stack |
| MatrixStacks.MatrixStack.LoadIdentity | 3_lab/src/MatrixStack.cpp:37-41 | the top becomes the identity and the entries below it are unchanged |
| MatrixStacks.MatrixStack.Translate | 3_lab/src/MatrixStack.cpp:43-51 | the top is post-multiplied by the translation by t |
| MatrixStacks.MatrixStack.ScaleVec | 3_lab/src/MatrixStack.cpp:53-61 | the top is post-multiplied by the per-axis scaling |
| MatrixStacks.MatrixStack.ScaleUniform | 3_lab/src/MatrixStack.cpp:63-71 | the top is post-multiplied by the uniform scaling s on all three axes |
| MatrixStacks.MatrixStack.MultMatrix | 3_lab/src/MatrixStack.cpp:81-85 | the top is post-multiplied by the given matrix |
| MatrixStacks.MatrixStack.Ortho | 3_lab/src/MatrixStack.cpp:87-102 | the top is replaced (not multiplied) by the orthographic matrix of the box |
| MatrixStacks.MatrixStack.Ortho2D | 3_lab/src/MatrixStack.cpp:104-107 | ortho2D is ortho with near -1 and far 1 |
| MatrixStacks.MatrixStack.Frustum | 3_lab/src/MatrixStack.cpp:125-142 | the top is replaced by the perspective frustum matrix |
| MatrixStacks.MatrixStack.TopMatrix | 3_lab/src/MatrixStack.cpp:162-165 | returns the last matrix pushed |
| MatrixStacks.PopAfterPush | 3_lab/src/MatrixStack.cpp:22-35 | a pop undoes a push |
| MatrixStacks.TranslateMovesPoints | 3_lab/src/MatrixStack.cpp:43-51 | after translate(t), a point p is drawn where the old transform drew p + t |
| MatrixStacks.ScaleScalesPoints | 3_lab/src/MatrixStack.cpp:53-61 | after scale(s), a point p is drawn where the old transform drew p scaled axis by axis |
| MatrixStacks.OrthoMapsBox | 3_lab/src/MatrixStack.cpp:87-102 | the ortho matrix maps the corner (l, b, -n) to (-1, -1, -1) and (r, t, -f) to (1, 1, 1) |
| MatrixStacks.OrthoAxis | 3_lab/src/MatrixStack.cpp:95-99 | along one axis, the ortho scale and offset send lo to -1 and hi to 1 |
| MatrixStacks.FrustumNearCorner | 3_lab/src/MatrixStack.cpp:125-142 | the frustum matrix maps the near corner (l, b, -n) to clip coordinates that divide to (-1, -1, -1) |
| MatrixStacks.FrustumFarCorner | 3_lab/src/MatrixStack.cpp:125-142 | the far corner of the frustum divides to (1, 1, 1) |
| MatrixStacks.FrustumAxisNear | 3_lab/src/MatrixStack.cpp:129-132 | along one axis, the frustum row sends the near-plane edge lo to -n |
| MatrixStacks.FrustumAxisFar | 3_lab/src/MatrixStack.cpp:129-132 | along one axis, the frustum row sends the far-plane edge to f |
| MatrixStacks.FrustumDepth | 3_lab/src/MatrixStack.cpp:133-134 | the depth row sends -n to -n and -f to f, so after the divide the depth is -1 at near and 1 at far |
| Streams.ReadReals | skeleton_asgn/src/Grid.cpp:255-262 | reading several values in turn yields exactly as many values as were asked for, each either read or left as it was |
| Streams.ReadRealsAt | skeleton_asgn/src/Grid.cpp:255-262 | on a good stream positioned at k real tokens, reading k values returns exactly those tokens and advances past them |
| Streams.ReadRealsStale | skeleton_asgn/src/Grid.cpp:255-262 | on a failed or exhausted stream every extraction fails: the stream stays failed and every variable keeps its previous value |
| NBody.DivisorPositive | 9_lab/src/main.cpp:344 | the softened divisor (norm(d)² + e2)^(3/2) is positive whenever e2 > 0, so the force is always defined |
| NBody.PairTermIs | 9_lab/src/main.cpp:338-346 | the pull of particle j on particle i is G·mi·mj/(norm(d)² + e2)^(3/2) times d, with d the position of j minus that of i |
| NBody.PairTermAntisymmetric | 9_lab/src/main.cpp:338-346 | the pull of j on i is the negation of the pull of i on j (Newton's third law) |
| NBody.PairTermsAntisymmetric | 9_lab/src/main.cpp:333-348 | the whole table of pair terms is antisymmetric, and each particle's term on itself is zero |
| NBody.PartialSumIsMinusColumn | 9_lab/src/main.cpp:333-348 | for an antisymmetric table, a row's partial sum is minus the matching column's partial sum |
| NBody.RowSumsExtend | 9_lab/src/main.cpp:328-349 | extending every row sum by one column adds exactly that column's sum |
| NBody.RowSumsSquareZero | 9_lab/src/main.cpp:328-349 | the sum of every entry of an antisymmetric square table is zero |
| NBody.SumVecRows | 9_lab/src/main.cpp:328-349 | summing the per-particle forces sums the rows of the pair-term table |
| NBody.NetForceZero | 9_lab/src/main.cpp:328-349 | the forces computed in one step add up to zero |
| NBody.PartialSumSkipsSelf | 9_lab/src/main.cpp:334-336 | the sum over other particles does not depend on the entry for the particle itself, which the loop skips |
| NBody.LoneParticleFeelsNothing | 9_lab/src/main.cpp:333-336 | a particle alone feels no force |
| NBody.Forces | 9_lab/src/main.cpp:326-349 | there is one force per particle |
| NBody.Advance | 9_lab/src/main.cpp:352-362 | semi-implicit Euler: m·v' = m·v + h·f, then x' = x + h·v' using the NEW velocity; mass, colour and radius are unchanged |
| NBody.AdvanceAll | 9_lab/src/main.cpp:352-362 | the update keeps the number of particles |
| NBody.Step | 9_lab/src/main.cpp:323-363 | a step keeps the number of particles |
| NBody.StepKeepsAttributes | 9_lab/src/main.cpp:352-362 | a step changes only positions and velocities: every particle keeps its mass, colour and radius |
| NBody.MomentumPrefix | 9_lab/src/main.cpp:352-362 | over any prefix of the particles, the update adds h times the summed forces to the total momentum |
| NBody.MomentumConserved | 9_lab/src/main.cpp:323-363 | a whole step conserves total momentum |
| NBody.Records | 9_lab/src/main.cpp:258-288 | n passes of the record loop yield n particles, whatever the file holds |
| NBody.Passes | 9_lab/src/main.cpp:258-288 | one loop pass per requested particle |
| NBody.PassBodies | 9_lab/src/main.cpp:280-287 | the particle appended by each pass is the one that pass built |
| NBody.PassesStep | 9_lab/src/main.cpp:258-288 | pass i reads its record from the stream and the locals exactly as pass i - 1 left them |
| NBody.PassesRecords | 9_lab/src/main.cpp:258-288 | the particles from the passes, one at a time, are the particles of the record reader |
| NBody.RecordTokens | 9_lab/src/main.cpp:249-279 | a record is eleven numbers: mass, position, velocity, colour, radius |
| NBody.RecordsTokens | 9_lab/src/main.cpp:249-288 | n records are 11·n numbers |
| NBody.ReadRecordOfTokens | 9_lab/src/main.cpp:259-285 | reading one well-formed record gives back the particle it was written from, and moves past exactly eleven numbers |
| NBody.RecordTokensAt | 9_lab/src/main.cpp:259-279 | the eleven numbers of a record are, in order, mass, x, y, z, vx, vy, vz, r, g, b, radius |
| NBody.ReadVecAt | 9_lab/src/main.cpp:262-265 | three good numbers are read into one vector |
| NBody.RecordsOfTokens | 9_lab/src/main.cpp:258-288 | reading n well-formed records gives back the n particles they were written from |
| NBody.LoadGalaxyFile | 9_lab/src/main.cpp:232-292 | a file holding a header n h e2 and n records loads exactly h, e2 and those n particles (the round trip the save format is meant to allow) |
| NBody.RecordsAtEnd | 9_lab/src/main.cpp:258-288 | when the file runs out, every further pass still appends a particle, built from the values left in the loop variables |
| NBody.RecordsFailed | 9_lab/src/main.cpp:258-288 | the same holds once the stream has failed |
| NBody.RecordStale | 9_lab/src/main.cpp:259-285 | a record read from a failed or exhausted stream leaves every local unchanged and fails the stream |
| NBody.LoadSavedHeader | 9_lab/src/main.cpp:209-292 | loading what saveParticles writes (a header only) takes h and e2 from the header, as printed, and appends n particles that are all built from the loop variables' previous values, not the saved particles |
| NBody.LoadEmptyFile | 9_lab/src/main.cpp:243-258 | an empty file leaves h and e2 unchanged and, if the uninitialised n is non-negative, appends n stale particles |
| NBody.Range | 9_lab/src/main.cpp:143-144 | the initial index vector is 0, 1, ..., n - 1 |
| NBody.Particle.constructor | 9_lab/src/main.cpp:280-285 | a particle holds the mass, position, velocity, colour and radius it was given |
| NBody.Simulation.State | 9_lab/src/main.cpp:323-363 | the abstract state has one body per particle object |
| NBody.Simulation.constructor | 9_lab/src/main.cpp:28-30 | the globals start with no particles and t, h and e2 zero |
| NBody.Simulation.StepParticles | 9_lab/src/main.cpp:323-363 | stepParticles updates every particle as the pure step does (and so conserves momentum, by MomentumConserved) |
| NBody.Simulation.ComputeForces | 9_lab/src/main.cpp:326-349 | the first loop computes exactly the force on each particle from all the others |
| NBody.Simulation.ForceOn | 9_lab/src/main.cpp:329-348 | the inner loop accumulates the force on one particle from every other particle |
| NBody.Simulation.ApplyForces | 9_lab/src/main.cpp:352-362 | the second loop advances every particle by its force and changes nothing else |
| NBody.Simulation.LoadParticles | 9_lab/src/main.cpp:232-292 | an unopenable file changes nothing; otherwise h and e2 come from the header and the records are appended after the existing particles |
| NBody.Simulation.AppendRecords | 9_lab/src/main.cpp:258-288 | the loop appends, in order, the n particles the record reader yields (none when n is negative) |
| NBody.Simulation.AppendRecord | 9_lab/src/main.cpp:259-287 | one pass appends the record it reads and hands the stream and locals to the next pass |
| NBody.Simulation.AddParticle | 9_lab/src/main.cpp:287 | push_back appends one particle and keeps the others |
| NBody.Simulation.SaveParticles | 9_lab/src/main.cpp:209-230 | an unopenable file writes nothing; otherwise the file holds only the header n h e2, with h and e2 as `<<` prints them |
| NBody.Simulation.CreateParticles | 9_lab/src/main.cpp:294-318 | t, h and e2 become 0, 1 and 1e-4, and two bodies are appended in that order: mass 1e-3 at rest at the origin, then mass 1e-6 at (1, 0, 0) with velocity (0, sqrt(1e-3 (2/1 - 1/2)), 0); colour and radius are the default particle's, passed in |
| NBody.Simulation.SortIndices | 9_lab/src/main.cpp:122-147 | the result is a permutation of 0..n-1, and the particles it lists have non-decreasing camera-space depth |
| NBody.SortByKeys | 9_lab/src/main.cpp:146 | sorting the index array permutes it and leaves it ordered by key |
| NBody.Insert | 9_lab/src/main.cpp:146 | inserting element i into a sorted prefix permutes the array and extends the sorted prefix by one |
| NBody.Swap | 9_lab/src/main.cpp:146 | a swap exchanges two entries and is a permutation |
| Grids.IndexInRange | skeleton_asgn/src/Grid.cpp:49-52 | the row-major index of a cell of an nrows × ncols grid lies in [0, nrows·ncols) |
| Grids.FitsCells | skeleton_asgn/src/Grid.cpp:49-52 | when the point vector is as large as the grid, every cell's point is stored |
| Grids.IndexInverse | skeleton_asgn/Grid.cpp:48-51 | the cell is recovered from its index: index / ncols is the row and index % ncols the column |
| Grids.IndexDistinct | skeleton_asgn/Grid.cpp:48-51 | distinct cells have distinct indices |
| Grids.IndexOnto | skeleton_asgn/Grid.cpp:48-51 | every index in [0, nrows·ncols) is the index of some cell |
| Grids.ResetGrid | skeleton_asgn/src/Grid.cpp:37-47 | the reset grid has one point per cell |
| Grids.ResetGridAt | skeleton_asgn/src/Grid.cpp:40-45 | cell (row, col) of the reset grid is at x = -1 + 2·col/(ncols - 1), y = -1 + 2·row/(nrows - 1) |
| Grids.ResetCorners | skeleton_asgn/src/Grid.cpp:39-46 | reset puts cell (0, 0) at (-1, -1) and the last cell at (1, 1) |
| Grids.ResetInSquare | skeleton_asgn/src/Grid.cpp:39-46 | every reset point lies in the square [-1, 1] × [-1, 1] |
| Grids.TileCorners | skeleton_asgn/src/Grid.cpp:108-122 | a tile has four corners |
| Grids.Resized | skeleton_asgn/src/Grid.cpp:33 | resize keeps the first entries, fills the new ones and has exactly the requested length |
| Grids.ScanCloser | skeleton_asgn/src/Grid.cpp:67-72 | when the cell just looked at is strictly nearer than dmin, taking it keeps the scan invariant: the selection is the first cell of least distance seen so far |
| Grids.ScanNotCloser | skeleton_asgn/src/Grid.cpp:67-72 | when it is not strictly nearer, keeping the old selection keeps the invariant (so ties go to the earlier cell) |
| Grids.ScanNextColumn | skeleton_asgn/src/Grid.cpp:65-66 | finishing a column moves the scan to the top of the next one |
| Grids.ScanDone | skeleton_asgn/src/Grid.cpp:61-75 | after the last column the scan has selected a cell as findClosest promises |
| Grids.SavedFile | skeleton_asgn/src/Grid.cpp:129-144 | save writes one line per point, then the line of '#' characters |
| Grids.PointsOfPrinted | skeleton_asgn/src/Grid.cpp:138-180 | with a printer whose output parses back exactly, lines printed from points read back as the same points, in order |
| Grids.SaveLoadRoundTrip | skeleton_asgn/src/Grid.cpp:129-183 | with a printer whose output parses back exactly, loading a saved grid restores nrows, ncols and every point, in order; the closing '#' line is skipped |
| Grids.PointsCount | skeleton_asgn/src/Grid.cpp:162-181 | load reads at most one point per line, and none from a file of short or comment lines |
| Grids.AgreeStep | skeleton_asgn/src/Grid.cpp:42-45 | writing one reset point keeps the reset cells agreeing with the reset grid, one cell further on |
| Grids.AgreeAll | skeleton_asgn/src/Grid.cpp:40-46 | once every column agrees, the point vector is the reset grid |
| Grids.Grid.constructor | skeleton_asgn/src/Grid.cpp:15-21 | a new grid is 2 × 2, has no points and nothing selected |
| Grids.Grid.IndexAt | skeleton_asgn/src/Grid.cpp:49-52 | for a cell of the grid, the index is in range and maps back to the same row and column |
| Grids.Grid.SetSize | skeleton_asgn/src/Grid.cpp:28-35 | setSize stores the new size and leaves exactly the reset grid of that size; the selection is not cleared |
| Grids.Grid.Reset | skeleton_asgn/src/Grid.cpp:37-47 | reset leaves exactly the evenly spread grid |
| Grids.Grid.ResetColumn | skeleton_asgn/src/Grid.cpp:42-45 | the inner loop resets one more column |
| Grids.Grid.MoveCP | skeleton_asgn/src/Grid.cpp:54-59 | the selected point moves to p and nothing else changes; with nothing selected nothing changes |
| Grids.Grid.FindClosest | skeleton_asgn/src/Grid.cpp:61-75 | closest is -1 exactly when no point is nearer than 0.1; otherwise it is the first cell, in column-major order, of least distance |
| Grids.Grid.GetTileCPs | skeleton_asgn/src/Grid.cpp:108-122 | the tile at index starts at that point and ends at the point one row and one column on; the asserts become the requires |
| Grids.Grid.Save | skeleton_asgn/src/Grid.cpp:129-144 | an unopenable file writes nothing; otherwise the saved file of the grid is written |
| Grids.Grid.Load | skeleton_asgn/src/Grid.cpp:147-183 | an unopenable file changes nothing; otherwise nrows and ncols come from the header, the kept lines replace the points and the selection is left as it was |
| Grids.TileOfCell | skeleton_asgn/src/Grid.cpp:108-122 | the tile of cell (row, col) is its point and its right, upper and upper-right neighbours |
| SkinFiles.NumberPrefix | skeleton_asgn/src/Grid.cpp:209-214 | the numbers at the front of a file are no more than its tokens |
| SkinFiles.ExtractWeight | skeleton_asgn/src/Grid.cpp:211-213 | on a file of numbers, one extraction either takes the next number (setting eof after the last one when nothing follows it) or meets the end, fails, sets eof and leaves the weight as it was |
| SkinFiles.ReadingWeightsStep | skeleton_asgn/src/Grid.cpp:209-214 | each pass of the loop as written keeps its invariant and moves forward or reaches eof, so the loop ends |
| SkinFiles.LoadWeightsAsWritten | skeleton_asgn/src/Grid.cpp:186-218 | an unopenable file gives an empty vector; otherwise the loop as written returns the file's numbers after the header, plus one uninitialised value when whitespace ends the file |
| SkinFiles.LoadWeights | skeleton_asgn/src/Grid.cpp:186-218 | corrected loader (stop when an extraction fails): an unopenable file gives an empty vector; otherwise exactly the file's weights |
| SkinFiles.HeaderRead | skeleton_asgn/src/Grid.cpp:204-206 | after the two header integers the stream is two tokens on, or it has failed and the file holds no weights |
| SkinFiles.WeightStep | skeleton_asgn/src/Grid.cpp:211-213 | in the corrected loop, a failed extraction means every weight has been read, and a successful one appends the next weight |
| SkinFiles.RealTokens | skeleton_asgn/src/Grid.cpp:209-214 | a list of weights written out is one real token per weight |
| SkinFiles.NumberPrefixOfReals | skeleton_asgn/src/Grid.cpp:209-214 | a file of weights is read back as those weights |
| SkinFiles.LoadWeightsOfFile | skeleton_asgn/src/Grid.cpp:186-218 | the corrected loader returns exactly the weights written after the header, with or without trailing whitespace |
| SkinFiles.WeightsAsWrittenExtra | skeleton_asgn/src/Grid.cpp:209-214 | the loop as written returns the weights plus one extra value when the file ends in whitespace |
| SkinFiles.WeightsAsWrittenExact | skeleton_asgn/src/Grid.cpp:209-214 | the loop as written is exact when the last weight is the last character of the file |
| SkinFiles.ReadPoses | skeleton_asgn/src/Grid.cpp:249-271 | k passes of the loop read k poses |
| SkinFiles.PoseMatrix | skeleton_asgn/src/Grid.cpp:267-268 | a pose matrix is rigid-affine: bottom row (0, 0, 0, 1) and translation column equal to the pose's translation |
| SkinFiles.LoadAnimation | skeleton_asgn/src/Grid.cpp:222-277 | an unopenable file gives no matrices; otherwise num_frames·num_bones matrices (none if that product is not positive), the i-th built from the i-th pose read |
| SkinFiles.PoseTokens | skeleton_asgn/src/Grid.cpp:255-262 | a pose is seven numbers |
| SkinFiles.PosesTokens | skeleton_asgn/src/Grid.cpp:249-271 | k poses are 7·k numbers |
| SkinFiles.ReadPoseOfTokens | skeleton_asgn/src/Grid.cpp:255-262 | seven numbers written from a pose are read back as that pose, quaternion vector part first and real part last |
| SkinFiles.ReadPosesOfTokens | skeleton_asgn/src/Grid.cpp:249-271 | a run of written poses is read back pose for pose |
| SkinFiles.PosesTokensAt | skeleton_asgn/src/Grid.cpp:249-271 | the j-th group of seven numbers is the j-th pose |
| SkinFiles.ReadPosesChain | skeleton_asgn/src/Grid.cpp:249-271 | poses read one after another, each from where the last stopped, are the poses the loop reads |
| SkinFiles.ReadPosesSnoc | skeleton_asgn/src/Grid.cpp:249-271 | one more pass appends one more pose |
| SkinFiles.LoadAnimationFile | skeleton_asgn/src/Grid.cpp:222-277 | a file holding num_frames, num_bones and that many poses loads exactly those header values and poses |
| Skinning.SelectedBelowSpec | skeleton_asgn/src/Shape.cpp:73-80 | after the first n weights, a vertex's list holds, in ascending order, exactly the bones b whose weight w[18v + b] is above 0.001 in magnitude, each paired with that weight |
| Skinning.SelectedSpec | skeleton_asgn/src/Shape.cpp:73-80 | a vertex's bone list is ascending, holds at most 18 bones, pairs each bone with its weight, and holds bone b if and only if that weight exceeds 0.001 in magnitude |
| Skinning.AscendingBound | skeleton_asgn/src/Shape.cpp:73-80 | an ascending list of bone numbers below 18 has at most 18 entries |
| Skinning.AscendingAtLeast | skeleton_asgn/src/Shape.cpp:73-80 | in an ascending list of non-negative numbers the i-th entry is at least i |
| Skinning.Fill | skeleton_asgn/src/Shape.cpp:86-89 | n copies of the padding value |
| Skinning.Padded | skeleton_asgn/src/Shape.cpp:86-89 | padding keeps the list as a prefix, brings it up to 15 entries with the fill value, and leaves a longer list alone |
| Skinning.Flatten | skeleton_asgn/src/Shape.cpp:93-98 | flattening keeps 15 entries per vertex |
| Skinning.FlattenSlot | skeleton_asgn/src/Shape.cpp:93-98 | entry 15v + j of the flat buffer is slot j of vertex v |
| Skinning.FlattenWindow | skeleton_asgn/src/Shape.cpp:93-98 | entries 15v to 15v + 14 of the flat buffer are the first 15 slots of vertex v |
| Skinning.SelectBones | skeleton_asgn/src/Shape.cpp:68-80 | the selection loops build one bone list and one weight list per vertex, equal to that vertex's selection |
| Skinning.PadLists | skeleton_asgn/src/Shape.cpp:83-90 | the padding loop records each vertex's count of real influences and pads both lists with zeros |
| Skinning.PadOne | skeleton_asgn/src/Shape.cpp:86-89 | the inner while loop pads one vertex's two lists |
| Skinning.FlattenLists | skeleton_asgn/src/Shape.cpp:93-98 | the nested loops produce the flat buffer, 15 slots per vertex |
| Skinning.InvertedBindPose | skeleton_asgn/src/Shape.cpp:55-61 | the bind pose is the loaded matrices with the first 18 replaced by their inverses and the rest unchanged |
| Skinning.NextFrameInRange | skeleton_asgn/src/Shape.cpp:294-295 | with at least two frames the counter stays in [0, num_frames - 2], so frame k + 1 is always a loaded frame |
| Skinning.SkinSumPadded | skeleton_asgn/src/Shape.cpp:186-197 | padding slots (bone 0, weight 0) add nothing to the skinned position |
| Skinning.Coords | skeleton_asgn/src/Shape.cpp:199-201 | three coordinates are written per vertex |
| Skinning.CoordsSlot | skeleton_asgn/src/Shape.cpp:199-201 | output entry t is coordinate t mod 3 of vertex t / 3 |
| Skinning.CoordsPush | skeleton_asgn/src/Shape.cpp:199-201 | each vertex appends its x, y and z |
| Skinning.CoordsAll | skeleton_asgn/src/Shape.cpp:199-201 | every output entry is the matching coordinate of its vertex |
| Skinning.SkinnedAsWritten | skeleton_asgn/src/Shape.cpp:176-202 | the loop as written produces one skinned vertex per input vertex |
| Skinning.DoCpuSkinningAsWritten | skeleton_asgn/src/Shape.cpp:173-207 | do_cpu_skinning as written outputs the coordinates of the as-written sums, which take the weights gpu_skinning_weights[ndx] of the first vertex for every vertex |
| Skinning.SkinnedAsWrittenCoords | skeleton_asgn/src/Shape.cpp:176-202 | the as-written output has one coordinate per input coordinate, each the matching coordinate of the as-written vertex |
| Skinning.WeightedSum | skeleton_asgn/src/Shape.cpp:186-197 | the bone loop sums, over the vertex's bones j, weight × animation[(k+1)·18 + j] × bind[j] × vertex |
| Skinning.WindowBonesOk | skeleton_asgn/src/Shape.cpp:184-187 | any window of valid bone numbers is valid |
| Skinning.SkinnedAll | skeleton_asgn/src/Shape.cpp:176-202 | corrected skinning produces one vertex per input vertex |
| Skinning.DoCpuSkinning | skeleton_asgn/src/Shape.cpp:173-207 | corrected do_cpu_skinning: every vertex is blended with its own 15 bone slots and its own weights gpu_skinning_weights[15v + slot] |
| Skinning.SkinnedAllCoords | skeleton_asgn/src/Shape.cpp:176-202 | the corrected output has one coordinate per input coordinate, each the matching coordinate of the vertex's own weighted sum |
| Skinning.SkinVertex | skeleton_asgn/src/Shape.cpp:177-201 | one pass of the outer loop computes the corrected skinned vertex |
| Skinning.InvertFirstBones | skeleton_asgn/src/Shape.cpp:59-61 | the inversion loop produces the bind pose |
| Skinning.ListsShape | skeleton_asgn/src/Shape.cpp:83-90 | after padding, every list has at least 15 slots and valid bone numbers, and bone and weight lists have equal length |
| Skinning.FlatBonesOk | skeleton_asgn/src/Shape.cpp:93-98 | the flat bone buffer holds only valid bone numbers |
| Skinning.ProcessValues | skeleton_asgn/src/Shape.cpp:52-99 | the phases of processData produce the inverted bind pose, num_frames = size / 18, one list per vertex, the counts and both flat buffers |
| Skinning.BuildLists | skeleton_asgn/src/Shape.cpp:65-90 | selection and padding give the padded bone lists, the padded weight lists and the influence counts |
| Skinning.SkinnedShape.constructor | skeleton_asgn/src/Shape.cpp:20-45 | a new shape has loaded no weights, has frame counter 0 and empty buffers |
| Skinning.SkinnedShape.ProcessData | skeleton_asgn/src/Shape.cpp:52-99 | processData marks the weights loaded, stores the weights, the animation and the inverted bind pose, and leaves every buffer as the selection, padding and flattening define |
| Skinning.SkinnedShape.Store | skeleton_asgn/src/Shape.cpp:54-98 | the computed values are stored in the shape's buffers |
| Skinning.SkinnedShape.LoadMesh | skeleton_asgn/src/Shape.cpp:101-123 | a mesh that loads replaces the positions; processData runs the first time only, so the skinning buffers are never built twice |
| Skinning.SkinnedShape.AdvanceFrame | skeleton_asgn/src/Shape.cpp:294-295 | k := (k + 1) % (num_frames - 1), with C++ truncating remainder |
| Skinning.SkinnedShape.Draw | skeleton_asgn/src/Shape.cpp:292-307 | draw advances the counter within [0, num_frames - 2] and, skinning on the CPU, outputs what do_cpu_skinning as written computes: vertex v blended with its own bone list multid_valid_bones[v] but the weights gpu_skinning_weights[0..] of vertex 0 |
| Skinning.DrawInputsOk | skeleton_asgn/src/Shape.cpp:176-197 | after processData every index the skinning loop as written uses is in bounds, given weight reads within the buffer; the same holds for the corrected loop |
| Skinning.WeightReadsInBounds | skeleton_asgn/src/Shape.cpp:184-194 | with two or more vertices no bone list is longer than the weight buffer, so the reads gpu_skinning_weights[ndx] stay in bounds |
| Skinning.SlotsMatchSelection | skeleton_asgn/src/Shape.cpp:73-98 | a vertex's 15 flat slots blend to the same position as its selected bones and weights (padding contributes nothing) |
| Skinning.SingleInfluence | skeleton_asgn/src/Shape.cpp:73-80 | a vertex with one influencing bone gets exactly that bone and its weight |
| Skinning.ExampleSelection | skeleton_asgn/src/Shape.cpp:73-80 | in the two-vertex example, vertex 0 selects bone 0 with weight 1 and vertex 1 selects bone 1 with weight 0.5 |
| Skinning.ExampleBuffers | skeleton_asgn/src/Shape.cpp:83-98 | the example's padded lists and flat buffers, slot by slot |
| Skinning.ExampleAsWritten | skeleton_asgn/src/Shape.cpp:186-197 | as written, the example's second vertex is blended with weight 1, the first vertex's weight |
| Skinning.ExampleCorrected | skeleton_asgn/src/Shape.cpp:186-197 | corrected, the example's second vertex is blended with its own weight 0.5 |
| Skinning.CpuSkinningUsesFirstVertexWeights | skeleton_asgn/src/Shape.cpp:194 | for weights processData accepts, the as-written and the corrected skinned positions of vertex 1 differ |
| ShapeCages.ScanCell | 6_lab/src/ShapeCage.cpp:64-65 | scan step s of the nested loops visits column s / (nrows - 1) and row s % (nrows - 1), inside the tile range |
| ShapeCages.ScanIndexOk | 6_lab/src/ShapeCage.cpp:67-68 | every tile the loops visit passes getTileCPs' asserts |
| ShapeCages.TileAt | 6_lab/src/ShapeCage.cpp:67-68 | the tile fetched at each scan step has four corners |
| ShapeCages.ScanSpec | 6_lab/src/ShapeCage.cpp:64-83 | after s scan steps, the result is the initial one if no tile so far strictly contains the vertex, and otherwise the local coordinates in the LAST tile so far that does (later hits overwrite earlier ones) |
| ShapeCages.LocateSpec | 6_lab/src/ShapeCage.cpp:56-89 | a vertex in no tile gets u = v = 0 and keeps its old tile entry; otherwise it gets its coordinates in the last containing tile of the scan |
| ShapeCages.LocalAtSpec | 6_lab/src/ShapeCage.cpp:76-81 | in a tile that strictly contains the vertex, u and v lie strictly between 0 and 1, and the recorded tile index is a valid getTileCPs argument |
| ShapeCages.ScanTileValid | 6_lab/src/ShapeCage.cpp:64-83 | the tile entry left by the scan is a valid getTileCPs argument whenever the old entry was |
| ShapeCages.BilinearCorners | 6_lab/src/ShapeCage.cpp:101-104 | the bilinear map sends (0,0), (1,0), (0,1), (1,1) to the tile's corners 0, 1, 2, 3 |
| ShapeCages.LocalInverse | 6_lab/src/ShapeCage.cpp:76-104 | on an axis-aligned tile, the bilinear map applied to the local coordinates of a point inside gives back the point |
| ShapeCages.ResetUndeformed | skeleton_asgn/src/Grid.cpp:37-47 | the reset grid stores every tile and every tile of it is an axis-aligned rectangle |
| ShapeCages.ResetTile | skeleton_asgn/src/Grid.cpp:40-45 | each tile of the reset grid is an axis-aligned rectangle |
| ShapeCages.LocateRoundTrip | 6_lab/src/ShapeCage.cpp:46-117 | on an undeformed grid, mapping a vertex inside some tile to local coordinates and back gives the same point |
| ShapeCages.LastContaining | 6_lab/src/ShapeCage.cpp:64-83 | if some tile contains the vertex, there is a last one in scan order |
| ShapeCages.Locals | 6_lab/src/ShapeCage.cpp:56-89 | toLocal yields one local record per vertex |
| ShapeCages.Deformed | 6_lab/src/ShapeCage.cpp:94-112 | toWorld keeps the buffer length |
| ShapeCages.DeformedKeepsZ | 6_lab/src/ShapeCage.cpp:110-111 | toWorld writes only x and y: z and any trailing partial vertex are unchanged |
| ShapeCages.BuffersRoundTrip | 6_lab/src/ShapeCage.cpp:46-117 | on an undeformed grid, toWorld after toLocal puts every vertex that lies inside a tile back where it was |
| ShapeCages.ShapeCage.constructor | 6_lab/src/ShapeCage.cpp:16-21 | a new cage has empty buffers and no grid |
| ShapeCages.ShapeCage.SetGrid | 6_lab/src/ShapeCage.h:16 | the cage uses the given grid |
| ShapeCages.ShapeCage.Load | 6_lab/src/ShapeCage.cpp:27-44 | a mesh that loads replaces the positions; otherwise nothing changes |
| ShapeCages.ShapeCage.LocateVertex | 6_lab/src/ShapeCage.cpp:60-83 | the tile loops for one vertex compute its Locate record |
| ShapeCages.ShapeCage.ToLocal | 6_lab/src/ShapeCage.cpp:46-90 | toLocal resizes the buffers to 2 and 1 entries per vertex and stores each vertex's u, v and tile |
| ShapeCages.ShapeCage.RecordVertices | 6_lab/src/ShapeCage.cpp:56-89 | the vertex loop stores each vertex's u, v and tile |
| ShapeCages.ShapeCage.ToWorld | 6_lab/src/ShapeCage.cpp:92-117 | toWorld replaces each vertex's x and y by the bilinear interpolation in its recorded tile |
| ShapeCages.ScanStepAt | 6_lab/src/ShapeCage.cpp:64-67 | cell (row, col) is visited at scan step col·(nrows - 1) + row, and that step fetches its tile |
| ShapeCages.LocalsTilesValid | 6_lab/src/ShapeCage.cpp:56-89 | the tile entries toLocal leaves are valid for toWorld |
| Splines.UVecTaylor | 2_lab/src/main.cpp:160-163 | d_u_vec and d_2_u_vec are the first and second derivatives of u_vec: the cubic Taylor expansion with them is exact |
| Splines.DUVecTaylor | 2_lab/src/main.cpp:162-163 | d_2_u_vec is the derivative of d_u_vec |
| Splines.WindowAt | 2_lab/src/main.cpp:294-297 | the window starting at column k begins with control point k and ends with control point k + 3 |
| Splines.PassesFirst | 2_lab/src/main.cpp:153 | weights (1, 0, 0, 0) at u put the curve on the first control point |
| Splines.PassesSecond | 2_lab/src/main.cpp:153 | weights (0, 1, 0, 0) put it on the second |
| Splines.PassesThird | 2_lab/src/main.cpp:153 | weights (0, 0, 1, 0) put it on the third |
| Splines.PassesLast | 2_lab/src/main.cpp:153 | weights (0, 0, 0, 1) put it on the last |
| Splines.SlopeFirstChord | 2_lab/src/main.cpp:167 | derivative weights (-1/2, 0, 1/2, 0) make the tangent half the chord from the first to the third point |
| Splines.SlopeLastChord | 2_lab/src/main.cpp:167 | derivative weights (0, -1/2, 0, 1/2) make the tangent half the chord from the second to the fourth point |
| Splines.StartInSixths | 2_lab/src/main.cpp:153 | start weights (1, 4, 1, 0)/6 put the curve at (P0 + 4·P1 + P2)/6 |
| Splines.EndInSixths | 2_lab/src/main.cpp:153 | end weights (0, 1, 4, 1)/6 put the curve at (P1 + 4·P2 + P3)/6 |
| Splines.JoinPoints | 2_lab/src/main.cpp:294-304 | when the end weights are the start weights moved one point on, consecutive windows' curves meet |
| Splines.JoinTangents | 2_lab/src/main.cpp:294-304 | the same for the derivative weights: consecutive windows' tangents agree at the join |
| Splines.CatmullRomScaled | 2_lab/src/main.cpp:260-265 | the Catmull-Rom basis is half the integer matrix written in the source |
| Splines.BSplineScaled | 2_lab/src/main.cpp:268-273 | six times the B-spline basis is the integer matrix written in the source |
| Splines.BezierColumnSums | 2_lab/src/main.cpp:254-257 | the Bézier basis has column sums (1, 0, 0, 0) |
| Splines.CatmullRomColumnSums | 2_lab/src/main.cpp:260-265 | the Catmull-Rom basis has column sums (1, 0, 0, 0) |
| Splines.BSplineColumnSums | 2_lab/src/main.cpp:268-273 | the B-spline basis has column sums (1, 0, 0, 0) |
| Splines.WeightsSumToOne | 2_lab/src/main.cpp:153 | for such a basis the four blending weights sum to 1 at every u |
| Splines.TranslationInvariant | 2_lab/src/main.cpp:153 | for such a basis, moving every control point by t moves every curve point by t |
| Splines.BezierWeightsStart | 2_lab/src/main.cpp:254-257 | at u = 0 the Bézier weights are (1, 0, 0, 0) |
| Splines.BezierWeightsEnd | 2_lab/src/main.cpp:254-257 | at u = 1 the Bézier weights are (0, 0, 0, 1) |
| Splines.CatmullRomWeightsStart | 2_lab/src/main.cpp:260-265 | at u = 0 the Catmull-Rom weights are (0, 1, 0, 0) |
| Splines.CatmullRomWeightsEnd | 2_lab/src/main.cpp:260-265 | at u = 1 the Catmull-Rom weights are (0, 0, 1, 0) |
| Splines.CatmullRomSlopeWeightsStart | 2_lab/src/main.cpp:260-265 | at u = 0 the Catmull-Rom derivative weights are (-1/2, 0, 1/2, 0) |
| Splines.CatmullRomSlopeWeightsEnd | 2_lab/src/main.cpp:260-265 | at u = 1 the Catmull-Rom derivative weights are (0, -1/2, 0, 1/2) |
| Splines.BSplineWeightsStart | 2_lab/src/main.cpp:268-273 | at u = 0 the B-spline weights are (1, 4, 1, 0)/6 |
| Splines.BSplineWeightsEnd | 2_lab/src/main.cpp:268-273 | at u = 1 the B-spline weights are (0, 1, 4, 1)/6 |
| Splines.BezierEndpoints | 2_lab/src/main.cpp:283-288 | the Bézier curve starts at its first and ends at its last control point |
| Splines.BezierStart | 2_lab/src/main.cpp:254-257 | the Bézier curve starts at its first control point |
| Splines.BezierEnd | 2_lab/src/main.cpp:254-257 | the Bézier curve ends at its last control point |
| Splines.CatmullRomEndpoints | 2_lab/src/main.cpp:260-265 | a Catmull-Rom segment interpolates its middle two points, with tangents half the chords P2 - P0 and P3 - P1 |
| Splines.CatmullRomStart | 2_lab/src/main.cpp:260-265 | a Catmull-Rom segment starts at its second point |
| Splines.CatmullRomEnd | 2_lab/src/main.cpp:260-265 | a Catmull-Rom segment ends at its third point |
| Splines.CatmullRomSlopeStart | 2_lab/src/main.cpp:260-265 | the Catmull-Rom start tangent is (P2 - P0)/2 |
| Splines.CatmullRomSlopeEnd | 2_lab/src/main.cpp:260-265 | the Catmull-Rom end tangent is (P3 - P1)/2 |
| Splines.BSplineStart | 2_lab/src/main.cpp:268-273 | a B-spline segment starts at (P0 + 4·P1 + P2)/6 |
| Splines.BSplineEnd | 2_lab/src/main.cpp:268-273 | a B-spline segment ends at (P1 + 4·P2 + P3)/6 |
| Splines.CatmullRomShiftedPoints | 2_lab/src/main.cpp:260-265 | the Catmull-Rom end weights are its start weights moved one point on |
| Splines.CatmullRomShiftedSlopes | 2_lab/src/main.cpp:260-265 | the same holds for its derivative weights |
| Splines.BSplineShifted | 2_lab/src/main.cpp:268-273 | the B-spline end weights are its start weights moved one point on |
| Splines.SixthsShifted | 2_lab/src/main.cpp:268-273 | weights (1, 4, 1, 0)/6 and (0, 1, 4, 1)/6 are shifted |
| Splines.CatmullRomJoin | 2_lab/src/main.cpp:294-304 | consecutive Catmull-Rom segments meet (the drawn curve is continuous) |
| Splines.CatmullRomSmoothJoin | 2_lab/src/main.cpp:294-304 | and their tangents agree at the join (C1) |
| Splines.BSplineJoin | 2_lab/src/main.cpp:294-304 | consecutive B-spline segments meet |
| Splines.CurveTaylor | 2_lab/src/main.cpp:160-168 | the curve's cubic Taylor expansion with p_prime and p_2_prime as first and second derivatives is exact, so draw_axes' vectors are the derivatives |
| Splines.Trunc | 2_lab/src/main.cpp:290-292 | for x >= 0, the truncation is the integer part: k <= x < k + 1 |
| Splines.SegmentInRange | 2_lab/src/main.cpp:290-292 | for t >= 0 and n >= 1 segments, the segment k is one of 0..n-1, u is in [0, 1), and k + u is t reduced modulo n |
| Splines.FmodBounds | 2_lab/src/main.cpp:291 | fmod(x, y) lies in [0, y) for x >= 0 and y > 0 |
| CurveLab.Ordinal | 2_lab/src/main.cpp:29-35 | each spline type's ordinal is below SPLINE_TYPE_COUNT = 3 |
| CurveLab.FromOrdinal | 2_lab/src/main.cpp:29-35 | the cast from an ordinal below 3 gives the type with that ordinal |
| CurveLab.Next | 2_lab/src/main.cpp:53 | the next type's ordinal is (ordinal + 1) mod SPLINE_TYPE_COUNT |
| CurveLab.NextCycles | 2_lab/src/main.cpp:52-54 | key S changes the type, does not return to it after two presses, and returns to it after three |
| CurveLab.BasisColumnSums | 2_lab/src/main.cpp:252-278 | each of the three basis matrices has column sums (1, 0, 0, 0) |
| CurveLab.BasisWeightsSumToOne | 2_lab/src/main.cpp:252-278 | for every u, B * u_vec weights the four control points with weights summing to 1 |
| CurveLab.DrawnWindows | 2_lab/src/main.cpp:249-304 | nothing is drawn below four control points; Bezier draws only the window cps[0..3]; the other types draw exactly the ncps - 3 windows cps[r..r+3] in order |
| CurveLab.WindowsOverlap | 2_lab/src/main.cpp:294-297 | consecutive drawn windows share three control points |
| CurveLab.BezierCurveEnds | 2_lab/src/main.cpp:283-288 | the Bezier curve starts at the first control point and ends at the fourth |
| CurveLab.CatmullRomJoins | 2_lab/src/main.cpp:294-304 | consecutive Catmull-Rom segments meet with equal points and equal tangents |
| CurveLab.BasisJoins | 2_lab/src/main.cpp:294-304 | consecutive B-spline segments meet |
| CurveLab.AxesOnDrawnWindow | 2_lab/src/main.cpp:290-301 | for t >= 0 the animated axes fall on exactly one drawn window k, at a parameter u in [0, 1) |
| CurveLab.AxesAreDerivatives | 2_lab/src/main.cpp:159-168 | the axes' vectors G B d_u_vec and G B d_2_u_vec are the first and second derivatives of the curve point: its cubic Taylor expansion is exact |
| CurveLab.SamplesInUnitInterval | 2_lab/src/main.cpp:144-157 | the sample parameters start at 0, increase strictly and stay below 1 |
| CurveLab.DrawCurve | 2_lab/src/main.cpp:144-157 | the strip has U_STEPS = 100 points, point i being the curve at u = i / 100 |
| CurveLab.RandomPoints | 2_lab/src/main.cpp:58-68 | key R makes exactly ten points from consecutive draws, three per point |
| CurveLab.RandomPointsInCube | 2_lab/src/main.cpp:61-66 | with draws in [-0.8, 0.8) every random point lies in that cube |
| CurveLab.SplineLab.constructor | 2_lab/src/main.cpp:27-37 | the lab starts with type BEZIER and no control points |
| CurveLab.SplineLab.KeyS | 2_lab/src/main.cpp:52-54 | key S advances the type and keeps the control points |
| CurveLab.SplineLab.KeyC | 2_lab/src/main.cpp:55-57 | key C removes every control point and keeps the type |
| CurveLab.SplineLab.KeyR | 2_lab/src/main.cpp:58-68 | key R replaces the control points with the ten random points and keeps the type |
| CurveLab.SplineLab.AddControlPoint | 2_lab/src/main.cpp:97-112 | a shift-click appends the clicked point and keeps the type |
| ArcLength.SubLengthNonNeg | 4_lab/src/main.cpp:197-218 | with a square root that is never negative, each sub-interval's quadrature length is non-negative |
| ArcLength.SubLengthConstantSpeed | 4_lab/src/main.cpp:201-218 | the weights 5/9, 8/9, 5/9 integrate a constant speed c exactly: the sub-interval of width 1/5 gets length c / 5 |
| ArcLength.TableSize | 4_lab/src/main.cpp:194-197 | the table has MAX_SAMPLES = 5 entries per segment, 5 (ncps - 3) in all, and none below four control points |
| ArcLength.EntryUFifths | 4_lab/src/main.cpp:197-220 | entry n holds the concatenated parameter ua + k = n / 5 |
| ArcLength.EntryUIncreasing | 4_lab/src/main.cpp:220 | the entries' parameters increase strictly |
| ArcLength.SubLengths | 4_lab/src/main.cpp:194-218 | one quadrature length per table entry |
| ArcLength.Table | 4_lab/src/main.cpp:178-225 | the table has one entry per sub-interval |
| ArcLength.TableStartsAtZero | 4_lab/src/main.cpp:192-220 | the first entry is (0, 0) |
| ArcLength.LastEntryBeforeEnd | 4_lab/src/main.cpp:220-222 | each entry holds the length before its sub-interval, so the last entry plus the last sub-length is the whole curve length: the end of the curve has no entry |
| ArcLength.PrefixSumMonotone | 4_lab/src/main.cpp:222 | a running total of non-negative lengths never decreases |
| ArcLength.SubLengthsNonNeg | 4_lab/src/main.cpp:216-218 | every sub-length is non-negative |
| ArcLength.TableOrdered | 4_lab/src/main.cpp:220-222 | later entries have strictly larger parameters and no smaller lengths |
| ArcLength.ComputeTable | 4_lab/src/main.cpp:178-225 | `buildTable` clears the table and leaves exactly the table of the control points |
| ArcLength.CompleteTable | 4_lab/src/main.cpp:194-224 | a table whose every entry is right and whose size is 5 (ncps - 3) is the table |
| ArcLength.SegmentEntries | 4_lab/src/main.cpp:197-223 | the inner loop appends the five entries of segment k and keeps the running total equal to the sum of the sub-lengths so far |
| ArcLength.WindowSample | 4_lab/src/main.cpp:198-218 | sample j of segment k is table entry 5k + j, at parameter j / 5 + k, with its sub-length |
| ArcLength.SampleLength | 4_lab/src/main.cpp:198-218 | the inner-loop body computes the quadrature length of the sub-interval |
| ArcLength.FirstAbove | 4_lab/src/main.cpp:229-230 | the scan stops at the first entry whose length exceeds s: all entries before it are not longer than s, and it is longer, or the scan runs off the end |
| ArcLength.LookupInRange | 4_lab/src/main.cpp:229-239 | when some entry is longer than s, s lies between the lengths of the two entries `s2u` interpolates, and the parameter it returns lies between theirs |
| ArcLength.AlphaInUnit | 4_lab/src/main.cpp:237 | the interpolation weight alpha lies in [0, 1) |
| ArcLength.LookupAtEntry | 4_lab/src/main.cpp:229-239 | on a strictly increasing table, looking up an entry's length gives back that entry's parameter |
| ArcLength.FirstAboveIs | 4_lab/src/main.cpp:229-230 | the scan finds the first entry longer than s |
| ArcLength.LookupBeyondLast | 4_lab/src/main.cpp:242 | a length no entry exceeds is mapped to 0 |
| ArcLength.FirstAboveNone | 4_lab/src/main.cpp:240 | when no entry exceeds s the scan runs off the end |
| ArcLengthLab.Ordinal | 4_lab/src/main.cpp:26-31 | each spline type's ordinal is below SPLINE_TYPE_COUNT = 2 |
| ArcLengthLab.Next | 4_lab/src/main.cpp:55 | the next type's ordinal is (ordinal + 1) mod 2 |
| ArcLengthLab.NextAlternates | 4_lab/src/main.cpp:54-57 | key S switches between the two types: one press changes the type, two restore it |
| ArcLengthLab.BasisOf | 4_lab/src/main.cpp:187 | CATMULL_ROM uses Bcr and BASIS uses Bb |
| ArcLengthLab.RosePoints | 4_lab/src/main.cpp:62-74 | key R makes exactly eight points |
| ArcLengthLab.RoseDepthRises | 4_lab/src/main.cpp:66-72 | the points' depths rise strictly from -0.5 at the first point to 0.5 at the last |
| ArcLengthLab.RoseOnCurve | 4_lab/src/main.cpp:66-71 | each point lies on the rose r = cos(2 angle): its distance from the depth axis is the absolute value of cos(2 angle) |
| ArcLengthLab.SegmentSamplesSpanWindow | 4_lab/src/main.cpp:314-316 | each segment is drawn from u = 0 up to and including u = 1 with strictly increasing u |
| ArcLengthLab.SegmentStrip | 4_lab/src/main.cpp:302-322 | the strip of a segment has n = 32 points, point i being the curve at u = i / 31 |
| ArcLengthLab.SpacedPointInBounds | 4_lab/src/main.cpp:331-341 | for 0 <= s below the last stored length, s2u followed by modf gives a window index k with cps[k..k+3] in bounds and a parameter u in [0, 1) |
| ArcLengthLab.StepsBounded | 4_lab/src/main.cpp:332 | the loop over s = i * ds runs at most smax / ds times |
| ArcLengthLab.SpacedStep | 4_lab/src/main.cpp:332-346 | appending the point at the next step keeps every drawn point the curve at its arc length |
| ArcLengthLab.ArcLab.constructor | 4_lab/src/main.cpp:24-37 | the lab starts with type CATMULL_ROM, no control points and an empty table that matches them |
| ArcLengthLab.ArcLab.BuildTable | 4_lab/src/main.cpp:178-225 | the table becomes the arc-length table of the control points under the current type's basis; type and points are kept |
| ArcLengthLab.ArcLab.KeyS | 4_lab/src/main.cpp:54-57 | key S switches the type, keeps the points, and leaves the table matching them |
| ArcLengthLab.ArcLab.KeyC | 4_lab/src/main.cpp:58-61 | key C removes every point and leaves an empty table |
| ArcLengthLab.ArcLab.KeyR | 4_lab/src/main.cpp:62-76 | key R replaces the points with the eight rose points and leaves the table matching them |
| ArcLengthLab.ArcLab.AddControlPoint | 4_lab/src/main.cpp:122-123 | a shift-click appends the point and leaves the table matching the points |
| ArcLengthLab.ArcLab.S2u | 4_lab/src/main.cpp:227-243 | the loop returns the interpolated parameter of the first entry longer than s, or 0 when there is none |
| ArcLengthLab.ArcLab.EquallySpacedPoints | 4_lab/src/main.cpp:326-348 | point i is the curve at arc length i * ds, every drawn arc length is below the last stored length, and the loop stops at the first step that reaches it |
| ArcLengthLab.ArcLab.PointAt | 4_lab/src/main.cpp:334-345 | the loop body gives the curve point at arc length s |
| KeyframeUtil.BuildTable | keyframe_asgn/src/util.cpp:22-71 | the caller's table is cleared and becomes the arc-length table of cps under the given basis; the value returned is the stored length of entry 5 (ncps - 4) |
| KeyframeUtil.ReturnedLengthSkipsLastSegment | keyframe_asgn/src/util.cpp:64-70 | the returned length is the length of the curve before its last segment: the whole length exceeds it by exactly that segment's five sub-lengths |
| KeyframeUtil.TableLengthAt | keyframe_asgn/src/util.cpp:64-66 | entry n stores the sum of the first n sub-lengths |
| KeyframeUtil.PrefixSumLastFive | keyframe_asgn/src/util.cpp:41-67 | a running total equals the total before the last segment's five samples plus those five |
| Keyframes.SpreadPoints | keyframe_asgn/src/main.cpp:107-115 | the six distinct control points are the listed points scaled by SPREAD = 1.5 |
| Keyframes.InitialPoints | keyframe_asgn/src/main.cpp:110-121 | `init` pushes ten control points |
| Keyframes.InitialPointsRepeat | keyframe_asgn/src/main.cpp:117-121 | the last four control points repeat the first four |
| Keyframes.SplineSamplesSpanWindow | keyframe_asgn/src/main.cpp:177-184 | each segment is drawn from u = 0 up to and including u = 1 with strictly increasing u |
| Keyframes.WindowStrip | keyframe_asgn/src/main.cpp:177-192 | a segment's strip has n = 32 points, point i being the curve at u = i / 31 |
| Keyframes.DrawSpline | keyframe_asgn/src/main.cpp:143-196 | one strip per window cps[k..k+3], ncps - 3 of them (none below four points), and the returned vector is empty |
| Keyframes.StripsMeet | keyframe_asgn/src/main.cpp:176-193 | with Bcr, the last point of each strip is the first point of the next |
| Keyframes.StaticCountInBounds | keyframe_asgn/src/main.cpp:289-295 | with at least three control points the loop runs ncps - 3 times and every read cps[cp_ndx + helicopter_ndx] is in bounds |
| Keyframes.StaticCountWraps | keyframe_asgn/src/main.cpp:289 | with fewer than three control points the unsigned bound cps.size() - 3 wraps around to a huge positive count |
| Keyframes.StaticTangentIsEndSlope | keyframe_asgn/src/main.cpp:297-298 | the static helicopters' d_u_vec (0, 1, 2, 3) gives the derivative at u = 1 |
| Keyframes.StaticTangent | keyframe_asgn/src/main.cpp:297-298 | the derivative at u = 0, which the comment intends; with Bcr it is half the chord from the window's first to its third point |
| Keyframes.StaticTangentsAgreeIff | keyframe_asgn/src/main.cpp:297 | with Bcr, the tangent as written equals the intended one exactly when the two chords p3 - p1 and p2 - p0 are equal |
| Keyframes.EndSlopesAgreeIff | keyframe_asgn/src/main.cpp:297 | for any basis with Catmull-Rom end-slope weights, the slopes at u = 1 and u = 0 agree exactly when p3 - p1 equals p2 - p0 |
| Keyframes.StaticTangentDiffersOnFirstWindow | keyframe_asgn/src/main.cpp:297-298 | on the first window of the initial points the tangent as written differs from the intended one |
| Keyframes.StaticHelicopters | keyframe_asgn/src/main.cpp:289-302 | there are ncps - 3 static helicopters; helicopter i sits at cps[i] and faces `G * B * (0, 1, 2, 3)`, the tangent of window i at its end (u = 1), as written |
| Keyframes.InterpolatedInBounds | keyframe_asgn/src/main.cpp:305-316 | for t >= 0 and at least five control points the window k lies in [0, ncps - 5] and u in [0, 1), so the reads cps[i + k] are in bounds |
| Keyframes.InterpolatedDirectionIsDerivative | keyframe_asgn/src/main.cpp:310-319 | the interpolated helicopter faces along the derivative of its position: the cubic Taylor expansion at u is exact |
| Keyframes.LoopCloses | keyframe_asgn/src/main.cpp:110-121 | on the initial points the end of window 5 is the start of window 0 in position and direction, so the flight loops smoothly when fmod wraps |
| Keyframes.LastWindowOverlapsFirst | keyframe_asgn/src/main.cpp:117-121 | window 5 of the initial points and window 0 share three points |
| Keyframes.WrapJoins | keyframe_asgn/src/main.cpp:305-319 | any two overlapping windows join under Bcr with equal points and equal directions |
| Keyframes.Scene.constructor | keyframe_asgn/src/main.cpp:110 | the scene starts with no control points |
| Keyframes.Scene.Init | keyframe_asgn/src/main.cpp:100-121 | Bcr is half the integer Catmull-Rom matrix, and the ten initial control points are appended |
| Cubics.DCubicIsDerivative | 5_lab/src/main.cpp:150-161 | calcDXCubic is the derivative of calcCubic: the Taylor expansion of the cubic with calcDXCubic as its linear term is exact |
| Cubics.SystemMatrix | 5_lab/src/main.cpp:104-126 | A is 8 by 8 |
| Cubics.Rhs | 5_lab/src/main.cpp:113-114 | b has eight entries |
| Cubics.Row0 | 5_lab/src/main.cpp:117 | row 1 of A c = b says f0(0) = 0 |
| Cubics.Row1 | 5_lab/src/main.cpp:118 | row 2 says f0'(0) = 0 |
| Cubics.Row2 | 5_lab/src/main.cpp:120 | row 3 says f0(0.4) = f1(0.4) |
| Cubics.Row3 | 5_lab/src/main.cpp:121 | row 4 says f0'(0.4) = f1'(0.4) |
| Cubics.Row4 | 5_lab/src/main.cpp:123 | row 5 says f1(0.5) = 0.2 |
| Cubics.Row5 | 5_lab/src/main.cpp:124 | row 6 says f1'(0.5) = 0 |
| Cubics.Row6 | 5_lab/src/main.cpp:125 | row 7 says f1(1) = 1 |
| Cubics.Row7 | 5_lab/src/main.cpp:126 | row 8 says f1'(1) = 0 |
| Cubics.SolvesIffConditions | 5_lab/src/main.cpp:94-126 | c solves A c = b exactly when its two halves meet the eight conditions of the comment |
| Cubics.Solution | 5_lab/src/main.cpp:128 | the exact solution has eight coefficients |
| Cubics.SolutionIsUnique | 5_lab/src/main.cpp:116-128 | A is invertible: c solves the system exactly when c is (-24.05, 11.55, 0, 0, -12.8, 28.8, -19.2, 4.2), so any exact solver gives these coefficients |
| Cubics.SolutionSolves | 5_lab/src/main.cpp:128 | that vector solves the system |
| Cubics.ConditionsDetermine | 5_lab/src/main.cpp:94-103 | the eight conditions leave no freedom in the coefficients |
| Cubics.SecondPieceDetermined | 5_lab/src/main.cpp:99-102 | the last four conditions alone fix piece 1 |
| Cubics.FirstPieceDetermined | 5_lab/src/main.cpp:95-98 | with piece 1 fixed, the first four conditions fix piece 0 |
| Cubics.SolutionMeetsConditions | 5_lab/src/main.cpp:94-103 | the solution's two pieces meet all eight conditions |
| Cubics.CubicLab.constructor | 5_lab/src/main.cpp:22-24 | coeffs0, coeffs1 and xmid start out zero |
| Cubics.CubicLab.Init | 5_lab/src/main.cpp:128-135 | the solver's answer is split into coeffs0 = c(0..3) and coeffs1 = c(4..7), xmid is 0.4, and the two pieces then meet the eight conditions |
| Cubics.SampleXInPiece | 5_lab/src/main.cpp:173-187 | the samples of a piece start at its start, increase strictly and stay short of its end |
| Cubics.SampleXIs | 5_lab/src/main.cpp:174-175 | sample k lies the fraction k / NUM_SAMPLES of the way along the piece |
| Cubics.SamplePiece | 5_lab/src/main.cpp:173-178 | a piece is drawn as NUM_SAMPLES = 100 vertices (x, calcCubic(x)) at the sample points |
| Cubics.DrawPieces | 5_lab/src/main.cpp:163-188 | the strip holds piece 0's 100 samples over [0, xmid) followed by piece 1's 100 samples over [xmid, 1) |
| Cubics.PieceAtCovers | 5_lab/src/main.cpp:197-204 | for 0 <= xmid <= 1 the mouse's x selects piece 0 exactly on [0, xmid], piece 1 exactly on negative x and (xmid, 1], and no piece right of 1 |
| Cubics.Probe | 5_lab/src/main.cpp:193-204 | the height and slope at the mouse's x are those of the selected piece, and 0 and 0 when none is selected |
| Cubics.ProbeContinuous | 5_lab/src/main.cpp:193-204 | with the conditions met, both pieces give the same height and slope at xmid, the probe gives height 1 and slope 0 at x = 1 and height 0 and slope 0 at x = 0 |
| Cubics.TangentDir | 5_lab/src/main.cpp:206-209 | (dx, dy) has components summing to 1 and slope dy / dx = dy_dx; no direction exists exactly when dy_dx = -1 |
| IkLinks.IToPOnAxis | ik_assignment/src/Link.cpp:56-59 | i_to_p_E takes the point x along the link's own x axis to the joint's offset plus x along the rotated axis (cos angle, sin angle) |
| IkLinks.FramesOnAxis | ik_assignment/src/Link.cpp:56-62 | the mesh's centre lies half a segment along the link, and a child's joint one segment along, at the far end of the mesh |
| IkLinks.CountNeverReachesZero | ik_assignment/src/Link.cpp:35-46 | with how_many <= 0 the decremented count never reaches 0, so `add_child` would recurse without end |
| IkLinks.Link.constructor | ik_assignment/src/Link.cpp:24-28 | a new link has angle 0.1 pi, offset SEGMENT_WIDTH, no parent and no children |
| IkLinks.Link.AddChild | ik_assignment/src/Link.cpp:35-47 | below the link hangs a chain of how_many - 1 fresh, distinct links with the initial angle and offset, one child per level; the first one's parent is `me`, each later one's parent is the link above it, the last has no children, and nothing else of the link changes |
| IkLinks.Link.SetNthAngle | ik_assignment/src/Link.cpp:50-52 | the empty body changes nothing |
| IkLinks.Link.Draw | ik_assignment/src/Link.cpp:54-80 | the matrix stack is left as it was, and the matrices handed to the shader are the link's own mesh at top * i_to_p_E * mesh_to_i_E followed by every child's subtree drawn from top * i_to_p_E, in order |
| IkLinks.Link.AppendChild | ik_assignment/src/Link.cpp:75-77 | drawing child i moves its matrices from the children still to draw to those drawn |
| IkLinks.Link.DrawMesh | ik_assignment/src/Link.cpp:64-73 | the part before the children leaves top * i_to_p_E pushed on the stack and hands top * i_to_p_E * mesh_to_i_E to the shader |
| Lab7Links.NewLink | 7_lab/src/Link.cpp:20-23 | a new link has angle 0 and no children |
| Lab7Links.ChildLower | 7_lab/src/Link.cpp:47-49 | every child's subtree is lower than its parent's, so drawing it needs one stack level less |
| Lab7Links.DrawnAllAtTop | 7_lab/src/Link.cpp:30-52 | with both transforms the identity, `draw` hands the shader exactly one matrix per link of the tree, and every one of them is the incoming top |
| Lab7Links.ChildrenDrawnAllAtTop | 7_lab/src/Link.cpp:47-49 | the children's subtrees hand the shader one matrix per link, each the incoming top |
| Lab7Links.ChildOrder | 7_lab/src/Link.cpp:36-51 | the link's own mesh is drawn first, then the children's subtrees in vector order: child i's subtree comes after those of children 0 .. i-1 and before the later ones |
| Lab7Links.ChildrenSplit | 7_lab/src/Link.cpp:47-49 | the children's matrices from j on are those of children j .. i-1 followed by those from i on |
| Lab7Links.Draw | 7_lab/src/Link.cpp:30-52 | the matrix stack is left as it was, and the matrices handed to the shader are the link's own mesh at top * i_to_p_E * mesh_to_i_E followed by every child's subtree drawn from top * i_to_p_E |
| Lab7Links.DrawMesh | 7_lab/src/Link.cpp:36-45 | the part before the children leaves top * i_to_p_E pushed on the stack and hands top * i_to_p_E * mesh_to_i_E to the shader |

`uvecify` (4_lab/src/main.cpp:174-176, keyframe_asgn/src/util.cpp:18-20) is
`Splines.DUVec`, and `Splines.UVecTaylor` states that it is the derivative of
`u_vec`.

## Left out

- OpenGL, GLFW and GLEW calls (buffers, uniforms, `glBegin`/`glVertex`, window set-up, the shaders): drawing is modelled as the sequence of vertices or model-view matrices handed over, and nothing else.
- tinyobj mesh loading: the vertex positions are a parameter.
- Eigen's matrix inverse, the column-pivoting QR solve, quaternion and `AngleAxis` to matrix conversion, `Quaternionf::FromTwoVectors` and `normalized()`: the first three are function parameters or preconditions on their result; the last two, applied to tangents just before drawing, are not modelled, so tangents are stated before normalisation.
- `rotate`, `perspective` and `lookAt` of the matrix stack: they need trigonometry and normalisation. `print` is output only.
- `sqrt`, `pow(x, 1.5)`, `norm`, `cos` and `sin`: uninterpreted parameters, with only the facts stated on them (`LinAlg.Sound`, and the Pythagorean identity where `ArcLengthLab.RoseOnCurve` needs it).
- Float rounding, overflow, infinities and NaN: every float is an exact real. `fmod` and `modf` are exact.
- Randomness: the 2_lab key R draws are a function from draw number to value. The `std::uniform_real_distribution` algorithm is not modelled.
- Elapsed time: `t` is a parameter wherever it is read. The clock, and the 9_lab elapsed-time print, are not modelled.
- The 2_lab and 4_lab mouse handlers: the click-to-world conversion goes through `rotate` and an inverse, so the clicked world point is a parameter of `AddControlPoint`. Camera dragging is not modelled.
- File and stream I/O: files are token sequences (`Streams.Token`) or, for the grid, the two header numbers and the lines `getline` returns (`Grids.TextFile`). Decimal printing is a parameter: for 9_lab, `printed(x)`, the number the text of `out << x` stands for; for the grid, the point printer `fmt` and parser `parse`. A non-numeric grid header is not modelled.
- The parallel force loop of 9_lab is only a comment, and 9_lab's galaxy generator script is not part of this model.
- The helicopter meshes, propeller spin and lighting of keyframe_asgn; `window2world` of 6_lab; the Ceres optimiser and the mesh shape of ik_assignment: not part of this model.
- `parent` of the 7_lab link: never set in `Link.cpp`, so `Lab7Links.Link` holds only the angle and the children.
- NBody.Simulation.StepParticles: requires e2 > 0 and non-zero masses, because the source divides by the masses and by a divisor that is 0 for e2 = 0 and two coincident particles, which yields infinities a real cannot hold.
- NBody.Simulation.SaveParticles: writes only the header, as the source does, because the record loop is unimplemented.
- NBody.Simulation.SaveParticles: `<<` prints six significant digits by default, so h and e2 are saved as `printed(h)` and `printed(e2)`, which differ from h and e2 unless those print exactly.
- NBody.LoadSavedHeader: loading the saved header gives back `printed(h)` and `printed(e2)`, so it restores h and e2 only for values that print exactly.
- Grids.SaveLoadRoundTrip: holds only under `Grids.Printable`, a printer whose text parses back to the same point. `out << cp(0)` prints six significant digits, so a reset point such as -1/3 is saved as `-0.333333` and is not restored exactly; `Grids.PointsOfPrinted` has the same hypothesis.
- NBody.Simulation.CreateParticles: the colour and radius of the two bodies come from the default `Particle()` constructor, which is not part of this model; they are parameters.
- MatrixStacks.MatrixStack.Frustum: requires left != right, bottom != top and near != far, which the source does not assert, because the closed form divides by their differences.
- Grids.Grid.SetSize: requires at least two rows and two columns, because `reset` divides by ncols - 1 and nrows - 1.
- Grids.Grid.Reset: requires at least two rows and two columns, for the same reason.
- Grids.Grid.Load: requires the header's nrows * ncols to be a non-negative `int`, because `cps.resize` throws `std::length_error` on a negative product, ending the program, and an overflowing `int` product is undefined behaviour.
- SkinFiles.LoadWeightsAsWritten: requires a file of numbers only, because on a non-numeric token the source's `while(!in.eof())` loop never ends.
- Skinning.SkinnedShape.ProcessData: requires at least 18 animation matrices and a weight file that fits the mesh, because otherwise the source indexes out of bounds.
- Skinning.SkinnedShape.AdvanceFrame: requires num_frames != 1, because the source then takes a remainder modulo 0.
- Skinning.SkinnedShape.Draw: models only the CPU skinning path; the GPU path is shader code. It requires loaded weights and at least two frames, and that no bone list is longer than the weight buffer, which can fail only for a one-vertex mesh with more than 15 influencing bones, where `gpu_skinning_weights[ndx]` reads past the buffer (`Skinning.WeightReadsInBounds`).
- ShapeCages.ShapeCage.ToLocal: requires, when there is a vertex, every tile of the grid to be stored (and tile 0 in particular), as the assertions of the `getTileCPs` calls the tile scan and the per-vertex `getTileCPs(0)` make demand; with no vertex it requires nothing of the grid.
- CurveLab.AxesOnDrawnWindow: states the axes' window for t >= 0 only, because `fmod` keeps the sign of a negative t.
- ArcLengthLab.ArcLab.S2u: requires s to be at least the first stored length, because below it the source reads `usTable[-1]`.
- KeyframeUtil.BuildTable: requires at least four control points, because the source's return statement indexes entry 5 (ncps - 4).
- Keyframes.StaticHelicopters: requires at least three control points, because below that the unsigned bound wraps around (`Keyframes.StaticCountWraps`) and the loop reads out of bounds.
- Keyframes.InterpolatedInBounds: requires at least five control points and t >= 0, because `fmod` by ncps - 4 = 0 is undefined.
- Streams.ReadInt: an integer read of a real token such as `2.5` fails and stores 0, whereas C++ stores the integer prefix 2 and leaves `.5` in the stream for the next read; the tokens of the model carry values, not text, so that split is not modelled. It matters only for files whose integer headers (the `n` of `loadParticles`, the counts of the skinning loaders) are written with a fraction.
- Cubics.CubicLab.Init: requires the solver's answer to solve A c = b exactly, because the QR solver is foreign code.
- IkLinks.Link.AddChild: requires how_many >= 1, because below that the source recurses without end (`IkLinks.CountNeverReachesZero`). The chain it builds is returned as a ghost value.
- IkLinks.Link.Draw: requires room on the matrix stack for one more level per link on the path down, because `pushMatrix` asserts a depth below 100.
- Lab7Links.Draw: requires the same room on the matrix stack, for the same reason.

## Findings

| source | as written | input that shows it | evidently intended | confidence | as-written member | corrected member |
|---|---|---|---|---|---|---|
| skeleton_asgn/src/Grid.cpp:209-214 | `while(!in.eof())` tests for end of file before the extraction, so when the file ends in whitespace the last failed extraction still pushes one more value | a weights file whose last number is followed by a newline | exactly the numbers in the file are returned | not executed | SkinFiles.WeightsAsWrittenExtra | SkinFiles.LoadWeightsOfFile |
| skeleton_asgn/src/Shape.cpp:194 | the CPU skinning sum reads `gpu_skinning_weights[ndx]`, the weights of vertex 0, for every vertex | two vertices, the second bound to bone 1 with weight 0.5, identity bone matrices | each vertex is blended with its own weights, `gpu_skinning_weights[15 v + slot]` | not executed | Skinning.CpuSkinningUsesFirstVertexWeights | Skinning.DoCpuSkinning |
| keyframe_asgn/src/main.cpp:297 | the static helicopters' `d_u_vec` is (0, 1, 2, 3), the derivative at u = 1, although the comment says u == 0 | the first window of the initial control points | the tangent at the start of the window, d_u_vec (0, 1, 0, 0) | not executed | Keyframes.StaticTangentDiffersOnFirstWindow | Keyframes.StaticTangent |

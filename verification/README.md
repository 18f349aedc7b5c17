# A verified model of the ray tracer's geometric core

This project models, in Dafny, the parts of the ray tracer that can be stated
exactly:

- the `ray` value type and its parametric point `at(t)` (`Rays`);
- the closed `interval` used for ray parameters and for clamping (`Intervals`);
- the colour utilities: `hexConvert`, `linear_to_gamma` and the quantiser of
  `write_color`, together with the named palette of the scenes (`Colors`);
- the `tri` primitive: its plane and cached bounding box, and the `hit` test
  with its signed-area barycentric ratios and `is_interior` (`Triangles`);
- the ASCII STL loader of `mesh`: a fold over the lines of the file that keeps
  `vertex` lines yielding three numbers and groups them in threes (`Meshes`);
- the terrain of `final_submission`: the three-octave height map of
  `buildPerlinMap`, the tile loop that turns grid cells into triangle pairs,
  and the three-band height gradient that colours them (`Terrain`).

Doubles are idealised as Dafny `real`. Three things the program takes from
code outside this model are parameters:

- `sqrt`: a function obeying the square-root law `Vec.IsSqrt`;
- `read`: the partial number parser standing for `iss >> x`;
- `turb`: the noise generator's turbulence function.

The STL file is an `Option<seq<string>>`: `None` when it cannot be opened,
otherwise its lines.

A zero-area triangle is modelled without a precondition. Its plane is
`Degenerate`, and `hit` never reports a hit on it. In the program, the
division by the zero length makes the normal NaN, so the interval test fails.
The mesh loader and the terrain can therefore build any triangle the data
describes.

The tile members take the colour function as a parameter `shade`. The scene
passes the terrain gradient `Terrain.TerrainColor`.

## Model

| member | source | states |
|---|---|---|
| Rays.MakeRay | ray.h:18-19 | the two-argument constructor keeps origin and direction and sets the time to 0 |
| Rays.At | ray.h:26-28 | `at(t)` lies `t` directions away from the origin: `at(t) - orig == t * dir` |
| Rays.AtZero | ray.h:26-28 | `at(0)` is the origin |
| Rays.AtOne | ray.h:26-28 | `at(1)` is origin plus direction |
| Rays.AtDifference | ray.h:26-28 | `at(t) - at(s) == (t - s) * dir` |
| Rays.AtRecoversParameter | ray.h:26-28 | for a non-zero direction, projecting `at(t) - orig` onto the direction gives back `t` |
| Rays.AtInjective | ray.h:26-28 | for a non-zero direction, equal points come from equal parameters |
| Intervals.Clamp | color.h:40-43 | clamping lands in a non-empty interval, fixes points already inside, and maps points below or above to the nearer end |
| Intervals.ClampMonotone | color.h:41-43 | clamping preserves order |
| Colors.RedByte | color.h:23 | `(v >> 16) & 0xFF` is a byte |
| Colors.GreenByte | color.h:24 | `(v >> 8) & 0xFF` is a byte |
| Colors.BlueByte | color.h:25 | `v & 0xFF` is a byte |
| Colors.HexConvert | color.h:22-27 | each component is its byte over 255, so it lies in [0, 1] |
| Colors.BytesOfPack | color.h:23-25 | extracting the bytes of `0xRRGGBB` gives back `RR`, `GG` and `BB` |
| Colors.PackOfBytes | color.h:23-25 | repacking the extracted bytes gives the low 24 bits of the argument |
| Colors.HexConvertPack | color.h:22-26 | `hexConvert(0xRRGGBB) == (RR, GG, BB) / 255` |
| Colors.HexConvertLow24Bits | color.h:23-25 | arguments that agree in their low 24 bits convert to the same colour |
| Colors.HexConvertExamples | color.h:22-26 | white decodes to (1, 1, 1), black to (0, 0, 0) and red to (1, 0, 0) |
| Colors.TerrainPaletteValues | main.cpp:25-32 | the four terrain colours are their bytes over 255 |
| Colors.LinearToGamma | color.h:15-20 | zero for non-positive channels; otherwise the positive square root |
| Colors.LinearToGammaMonotone | color.h:15-20 | gamma encoding preserves order |
| Colors.LinearToGammaOfOne | color.h:15-20 | gamma encoding fixes 1 |
| Colors.Quantize | color.h:40-43 | `int(255.99 * clamp(g))` is a byte |
| Colors.Intensity | color.h:40 | definition, no contract: the interval `[0, 0.999]` every gamma-encoded channel is clamped into; `QuantizeSaturates` states that it caps the byte at 255 |
| Colors.QuantizeSaturates | color.h:40-43 | values at or above 0.999 give 255 |
| Colors.QuantizeOfNonPositive | color.h:40-43 | values at or below 0 give 0 |
| Colors.QuantizeReachesEveryByte | color.h:40-43 | every byte is produced, `k / 255.99` giving `k` |
| Colors.QuantizeMonotone | color.h:40-43 | quantising preserves order |
| Colors.ChannelByte | color.h:35-43 | a channel's byte lies in [0, 255] and is 0 for non-positive channels |
| Colors.ChannelByteMonotone | color.h:35-43 | a brighter linear channel never prints a smaller byte |
| Colors.ChannelByteSaturates | color.h:35-43 | a channel of at least 1 prints 255 |
| Colors.WriteColor | color.h:29-46 | the three printed integers are the channels' bytes, each in [0, 255] |
| Colors.WriteColorExtremes | color.h:29-46 | white prints (255, 255, 255) and black prints (0, 0, 0) |
| Triangles.BoundingBox | tri.h:22-37 | the box holds all three vertices, and each corner component is one of the vertices' components |
| Triangles.BoundingBoxIsLeast | tri.h:24-36 | every box holding the three vertices encloses the bounding box |
| Triangles.BoundingBoxPermutation | tri.h:24-36 | the box is the same for all six orders of the vertices |
| Triangles.ExtremaSymmetric | tri.h:24-34 | the three-way `fmin` and `fmax` ignore argument order |
| Vec.Unit | tri.h:14 | `unit_vector(n)`: a positive multiple of `n` with squared length one |
| Triangles.AreaVector | tri.h:13 | definition, no contract: `cross(v2 - v1, v3 - v1)`, also `area_abc` at line 57; `MakeTri` states the normal is its unit positive multiple, and `TileAreaVectors` gives it for every terrain tile |
| Triangles.MakeTri | tri.h:9-20 | keeps vertices and material; the plane is degenerate exactly for zero area; otherwise the normal is the unit positive multiple of the area vector and `D == dot(normal, v1)`; caches the bounding box |
| Triangles.BoundingBoxOf | tri.h:39 | the box cached at construction holds the three vertices and is the least box that does |
| Triangles.IsInterior | tri.h:79-88 | accepts exactly when all three ratios are non-negative; on acceptance stores `(v, w)` as the texture pair, otherwise leaves the record unchanged |
| Triangles.Barycentric | tri.h:57-66 | the three signed-area ratios sum to one |
| Triangles.PlaneParameter | tri.h:49 | definition, no contract: `(D - dot(normal, origin)) / denom`; `PlaneParameterOnPlane` and `PlaneParameterOfPoint` state that it is the unique parameter whose point lies on the plane |
| Triangles.PlaneParameterOnPlane | tri.h:49-54 | the point at `t = (D - dot(normal, origin)) / denom` lies on the plane |
| Triangles.PlaneParameterOfPoint | tri.h:49 | any parameter whose point lies on the plane is the computed `t` |
| Triangles.BarycentricOfCombination | tri.h:57-66 | the ratios of an affine combination of the vertices are its weights |
| Triangles.Hit | tri.h:41-77 | no hit on degenerate planes, on near-parallel rays or with `t` outside the interval; a miss leaves the record unchanged; a hit stores `t` in the interval, `at(t)` on the plane, the material, and texture pair `(v, w)` with non-negative ratios |
| Triangles.DegenerateNeverHits | tri.h:41-51 | a zero-area triangle is never hit |
| Triangles.HitInteriorPoint | tri.h:41-77 | a non-parallel ray reaching a point of the closed triangle within the interval hits |
| Triangles.HitExteriorPoint | tri.h:64-82 | a ray whose plane point has a negative barycentric weight misses |
| Meshes.SkipSpace | mesh.h:40 | drops exactly the leading white space |
| Meshes.TakeWord | mesh.h:40 | splits the input into a run of non-space characters and a rest that is empty or starts with a space |
| Meshes.FirstToken | mesh.h:38-40 | definition, no contract: skip white space, then take the word; `FirstTokenOfLine` and `BlankLineIgnored` state what it reads |
| Meshes.FirstTokenOfLine | mesh.h:38-40 | a line made of blanks, a word and a rest reads that word as its first token |
| Meshes.ReadVertex | mesh.h:42-43 | definition, no contract: three extractions in a row, failing as soon as one fails |
| Meshes.LineVertex | mesh.h:38-43 | definition, no contract: a vertex only for a first token `vertex` followed by three numbers; `LineVertexOfLine` states it for every line shape |
| Meshes.LineVertexOfLine | mesh.h:38-43 | such a line yields a vertex exactly when the word is `vertex` and three numbers follow |
| Meshes.BlankLineIgnored | mesh.h:38-41 | a blank line has an empty first token and yields no vertex |
| Meshes.Accepted | mesh.h:37-43 | each line yields at most one accepted vertex |
| Meshes.AcceptedAppend | mesh.h:37-51 | the accepted vertices of two runs of lines are those of the first, then of the second |
| Meshes.IgnoredLineIsIrrelevant | mesh.h:41-43 | deleting a line that yields no vertex changes nothing |
| Meshes.AllVertexLinesAccepted | mesh.h:41-44 | when every line yields a vertex, vertex `k` comes from line `k` |
| Meshes.GroupCorners | mesh.h:44-49 | group `k` is vertices `3k`, `3k + 1` and `3k + 2`, and fewer than three vertices are left over |
| Meshes.GroupCornersUnique | mesh.h:44-49 | these two facts determine the grouping |
| Meshes.TrailingPartialGroupDropped | mesh.h:45-52 | a trailing group of one or two vertices contributes nothing |
| Meshes.Triangulate | mesh.h:46 | one triangle per group, built from its corners with the one material |
| Meshes.Step | mesh.h:44-49 | definition, no contract: one loop pass given what the line contributes; `StepMeaning` and `BufferStep` state its meaning |
| Meshes.Run | mesh.h:34-51 | definition, no contract: the loop's state `verts[0..v)` and the emitted triangles' corners (the datatype `LoadState`) after a run of lines; `RunMeaning` states that emitted corners followed by the pending vertices are the accepted vertices, with fewer than three pending |
| Meshes.StepMeaning | mesh.h:44-49 | one line keeps the counter below 3 and appends its vertex to the emitted corners followed by the pending ones |
| Meshes.RunMeaning | mesh.h:37-51 | after any prefix of the file, the emitted corners followed by the pending vertices are the accepted vertices |
| Meshes.BufferStep | mesh.h:44-49 | storing the third vertex emits a group and resets the counter; otherwise the counter advances |
| Meshes.MeshTriangles | mesh.h:37-52 | there are `floor(accepted / 3)` triangles, each with the supplied material |
| Meshes.LoadAsciiStl | mesh.h:24-53 | an unopenable file gives an empty list; otherwise the triangles of consecutive accepted-vertex triples |
| Meshes.GetGeometry | mesh.h:17-19 | definition, no contract: the stored triangle list; `NewMesh` states it is the constructor's load |
| Meshes.NewMesh | mesh.h:13-19 | `get_geometry` returns what the constructor loaded |
| Terrain.Pass | main.cpp:477-482 | one nested loop updates every cell of the rectangle and no other cell |
| Terrain.BuildPerlinMap | main.cpp:471-497 | cells in the rectangle hold the three-octave sum; cells outside keep their value |
| Terrain.OctaveOne | main.cpp:479-480 | definition, no contract: `turb((x * scale, y * scale, 0), 7) * max_height` |
| Terrain.OctaveTwo | main.cpp:486-487 | definition, no contract: `turb(1.5 * (x * 0.05, y * 0.05, 0), 7) * max_height * 0.15` |
| Terrain.OctaveThree | main.cpp:493-494 | definition, no contract: `turb(6 * (x * 0.005, y * 0.005, 0), 7) * max_height * 0.05` |
| Terrain.HeightSample | main.cpp:477-496 | definition, no contract: the sum of the three octaves at one cell; `BuildPerlinMap` proves the loops leave it in every cell of the rectangle |
| Terrain.SampleGrid | main.cpp:477-496 | definition, no contract: the whole array of `HeightSample` values indexed `[y][x]`; `BuildPerlinMap` states that the three passes leave these `HeightSample` values in the array, and `FinalTerrain` states the tiling against it |
| Terrain.HeightFactor | main.cpp:529 | `min(avg / max_height, 1)` is at most 1 and equals the ratio when that is at most 1 |
| Terrain.HeightFactorInUnitInterval | main.cpp:528-529 | non-negative heights under a positive maximum give a factor in [0, 1] |
| Terrain.TopBandParameterInUnitInterval | main.cpp:539-541 | the top band's `t` lies in [0, 1] |
| Terrain.Gradient | main.cpp:533-542 | definition, no contract: the low band below 0.3, the middle band below 0.5, the high band above; its meaning is stated by `GradientEndpoints`, `GradientLipschitz` and `GradientInUnitCube` |
| Terrain.TerrainColor | main.cpp:532-542 | definition, no contract: `terrain_color`, the gradient through the dark brown, orange brown, golden brown and yellow palette; `TerrainColorEndpoints`, `TerrainColorLipschitz` and `TerrainColorInUnitCube` state its meaning |
| Terrain.GradientEndpoints | main.cpp:533-542 | the gradient passes through its stops at 0, 0.3, 0.5 and 1 |
| Terrain.TerrainColorEndpoints | main.cpp:533-542 | dark brown at 0, orange brown at 0.3, golden brown at 0.5 and yellow at 1 |
| Terrain.TerrainStopsInUnitCube | main.cpp:25-32 | the four terrain colours lie in the unit cube |
| Terrain.GradientLipschitz | main.cpp:533-542 | each channel moves by at most five times the change of factor, so there is no jump at either threshold |
| Terrain.TerrainColorLipschitz | main.cpp:533-542 | the same bound for the terrain palette |
| Terrain.GradientInUnitCube | main.cpp:533-542 | for factors in [0, 1] the colour lies in the unit cube |
| Terrain.TerrainColorInUnitCube | main.cpp:533-542 | the terrain palette version of the same bound |
| Terrain.TerrainTileColorInUnitCube | main.cpp:522-542 | non-negative corner heights give a tile colour in the unit cube |
| Terrain.Corner | main.cpp:522-525 | definition, no contract: the corner at row `r`, column `c` is `(r * tile_scale, map[r][c], c * tile_scale)` |
| Terrain.MeanHeight | main.cpp:528 | definition, no contract: the mean of the four corner heights |
| Terrain.TileColor | main.cpp:528-542 | definition, no contract: the shade at the height factor of the mean corner height; `TerrainTileColorInUnitCube` bounds it for the terrain gradient |
| Terrain.TileTriangles | main.cpp:522-546 | every tile yields exactly two triangles |
| Terrain.TileShape | main.cpp:522-546 | the corners are `(row * scale, map[row][col], col * scale)`; the triangles are `(v0, v1, v2)` and `(v2, v1, v3)`, sharing edge v1-v2, with the same colour |
| Terrain.TileAreaVectors | main.cpp:522-525 | both area vectors have second component `-tile_scale^2`, whatever the heights |
| Terrain.TileFacesAgree | main.cpp:522-546 | with a non-zero scale neither triangle is degenerate, and both normals point downwards |
| Terrain.TilesLayout | main.cpp:519-546 | `rows * cols` tiles give `rows * cols * 2` triangles, and triangle `k` of tile `(i, j)` sits at `2 * (i * cols + j) + k` |
| Terrain.TileBody | main.cpp:522-546 | one iteration constructs `(v0, v1, v2)` then `(v2, v1, v3)` from the corners `(row * scale, map[row][col], col * scale)`, both with the Lambertian material of the shade at `min(mean height / max_height, 1)`; the pair is the tile's pair in `TileTriangles` |
| Terrain.RowLoop | main.cpp:520-548 | the inner loop appends the pairs of one row in column order |
| Terrain.Tiles | main.cpp:519-549 | definition, no contract: the tiles' pairs in row-major order, flattened; `TilesLayout` states its length and where each triangle sits, `TileLoop` that the loop builds it |
| Terrain.TileLoop | main.cpp:519-549 | the nested loop emits the pairs of all tiles in row-major order |
| Terrain.LoopReadsInBoundsIff | main.cpp:519-525 | the loop reads only array cells exactly when it visits no tile or fewer than 200 rows and columns |
| Terrain.FinalSubmissionReadsPastGrid | main.cpp:501-525 | with 200 rows and columns the loop reads past the array |
| Terrain.FinalTerrain | main.cpp:501-549 | with corrected bounds the loop reads only array cells and emits `2 * 199 * 199` triangles: the tiles of the three-octave map |

## Left out

- The default `ray()` constructor (ray.h:13) leaves its fields uninitialised and has no model.
- Accessors `origin()`, `direction()` and `time()` are the fields of the immutable `Rays.Ray`.
- `hit_record::set_face_normal` (tri.h:74) is outside this model, and so is the face-normal half of the hit record.
- The unused member `w` (tri.h:17) is not modelled. The local `w` at tri.h:66 shadows it.
- Triangles.BoundingBoxOf: `aabb.h` is not part of this model. Its constructor is taken to store the two corners as given; any padding of a thin axis it may apply is not modelled, so the "least box" claim is about the corners before that constructor.
- `interval.h` is not part of this model. `Contains` and `Clamp` take the closed-interval reading.
- `vec3.h` is not part of this model. `unit_vector(n)` is taken as `n` scaled by `1 / sqrt(dot(n, n))`, and the square root is a parameter.
- IEEE-754 rounding and NaN are left out: arithmetic is exact over the reals. Without them, the 0.3/0.5 thresholds and 255.99 are exact decimals.
- File and stream I/O and logging are left out: `ifstream`, `std::cout` and `std::cerr` in mesh.h:27-29 and mesh.h:47, and the stream output in color.h:45.
- The number extraction `iss >> x` is an abstract parser `read`, because the standard library's parse rules are outside the model. The first-token split is modelled concretely with C-locale white space.
- The noise generator (`perlin`) is left out: `turb` is a parameter.
- The bounding-volume hierarchy built from the tiles, the sky, the suns, the camera and all other scenes are scene glue outside the core.
- Terrain.HeightFactor: requires a non-zero `max_height`, where the program would divide by zero. The scene uses 35.
- Terrain.TileTriangles: tile indices must keep all four corners in the array. The program as written does not, which is the finding below.
- Meshes.LoadAsciiStl: `verts` is a three-element sequence. The `tri added` log line is not modelled.

## Findings

| source | as written | input that shows it | evidently intended | confidence | as-written member | corrected member |
|---|---|---|---|---|---|---|
| main.cpp:505, main.cpp:519-525 | the tile loop runs `i < height`, `j < width` and reads `map[i + 1][j + 1]` in a `[200][200]` array | `height = width = 200`: tile `(199, 199)` reads row 200 and column 200 | tiles `(height - 1) x (width - 1)`, whose four corners all lie in the array | not executed | Terrain.FinalSubmissionReadsPastGrid | Terrain.FinalTerrain |

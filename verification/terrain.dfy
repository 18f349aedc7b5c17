/** The terrain scene: a height map summed from three octaves of
    turbulence, then one quad of two triangles per grid cell, coloured by a
    three-band gradient of the cell's average height. The turbulence
    function of the noise generator is a parameter of the model. */
module Terrain {
  import opened Vec
  import opened Colors
  import opened Triangles

  /** Both dimensions of the `double[200][200]` height array. */
  const GridSize: int := 200

  /** A height map indexed `[row][column]`, i.e. `[y][x]` while it is built
      and `[i][j]` while it is tiled. */
  type Grid = seq<seq<real>>

  predicate IsGrid(g: Grid) {
    |g| == GridSize && forall r :: 0 <= r < |g| ==> |g[r]| == GridSize
  }

  /** `turb`'s depth argument in every octave. */
  const Depth: int := 7

  /** Sample spacing of the second and third octaves. */
  const SecondPass: real := 0.05
  const ThirdPass: real := 0.005

  /** The first octave at column `x`, row `y`: turbulence at the point scaled
      by the caller's `scale`, times the maximum height. */
  function OctaveOne(x: int, y: int, scale: real, maxHeight: real, turb: (Vec3, int) -> real): real {
    turb(Vec3(x as real * scale, y as real * scale, 0.0), Depth) * maxHeight
  }

  /** The second octave: spacing 0.05, point scaled by 1.5, weight 0.15. */
  function OctaveTwo(x: int, y: int, maxHeight: real, turb: (Vec3, int) -> real): real {
    turb(Scale(1.5, Vec3(x as real * SecondPass, y as real * SecondPass, 0.0)), Depth) * maxHeight * 0.15
  }

  /** The third octave: spacing 0.005, point scaled by 6, weight 0.05. */
  function OctaveThree(x: int, y: int, maxHeight: real, turb: (Vec3, int) -> real): real {
    turb(Scale(6.0, Vec3(x as real * ThirdPass, y as real * ThirdPass, 0.0)), Depth) * maxHeight * 0.05
  }

  /** The height the finished map holds at column `x`, row `y`. */
  function HeightSample(x: int, y: int, scale: real, maxHeight: real, turb: (Vec3, int) -> real): real {
    OctaveOne(x, y, scale, maxHeight, turb) + OctaveTwo(x, y, maxHeight, turb) + OctaveThree(x, y, maxHeight, turb)
  }

  /** One octave's nested loop: every cell of the `height x width` rectangle
      (rows `y`, columns `x`) becomes `f(old value, x, y)`; every other cell
      of the array is left as it was. */
  method Pass(g: Grid, width: int, height: int, f: (real, int, int) -> real) returns (r: Grid)
    requires IsGrid(g)
    requires width <= GridSize && height <= GridSize
    ensures IsGrid(r)
    ensures forall y, x :: 0 <= y < GridSize && 0 <= x < GridSize ==>
              r[y][x] == if y < height && x < width then f(g[y][x], x, y) else g[y][x]
  {
    r := g;
    var y := 0;
    while y < height
      invariant 0 <= y <= if height < 0 then 0 else height
      invariant IsGrid(r)
      invariant forall yy, xx :: 0 <= yy < GridSize && 0 <= xx < GridSize ==>
                  r[yy][xx] == if yy < y && xx < width then f(g[yy][xx], xx, yy) else g[yy][xx]
    {
      var x := 0;
      while x < width
        invariant 0 <= x <= if width < 0 then 0 else width
        invariant IsGrid(r)
        invariant forall yy, xx :: 0 <= yy < GridSize && 0 <= xx < GridSize ==>
                    r[yy][xx] == if (yy < y || (yy == y && xx < x)) && xx < width then f(g[yy][xx], xx, yy) else g[yy][xx]
      {
        r := r[y := r[y][x := f(r[y][x], x, y)]];
        x := x + 1;
      }
      y := y + 1;
    }
  }

  /** `buildPerlinMap`: three passes over the `height x width` rectangle.
      Afterwards every cell in it holds the three-octave sum, and every cell
      outside it still holds what the array held before. */
  method BuildPerlinMap(noise: Grid, width: int, height: int, scale: real, maxHeight: real, turb: (Vec3, int) -> real)
    returns (m: Grid)
    requires IsGrid(noise)
    requires width <= GridSize && height <= GridSize
    ensures IsGrid(m)
    ensures forall y, x :: 0 <= y < height && 0 <= x < width ==> m[y][x] == HeightSample(x, y, scale, maxHeight, turb)
    ensures forall y, x :: 0 <= y < GridSize && 0 <= x < GridSize && !(y < height && x < width) ==> m[y][x] == noise[y][x]
  {
    var g1 := Pass(noise, width, height, (cell: real, x: int, y: int) => OctaveOne(x, y, scale, maxHeight, turb));
    var g2 := Pass(g1, width, height, (cell: real, x: int, y: int) => cell + OctaveTwo(x, y, maxHeight, turb));
    m := Pass(g2, width, height, (cell: real, x: int, y: int) => cell + OctaveThree(x, y, maxHeight, turb));
  }

  // ---- Colour bands -------------------------------------------------------

  /** `f1 * (1 - t) + f2 * t`. */
  function Lerp(a: Color, b: Color, t: real): Color {
    Add(Scale(1.0 - t, a), Scale(t, b))
  }

  lemma LerpEnds(a: Color, b: Color)
    ensures Lerp(a, b, 0.0) == a && Lerp(a, b, 1.0) == b
  {
  }

  /** The four colours a three-band gradient passes through. */
  datatype Stops = Stops(c0: Color, c1: Color, c2: Color, c3: Color)

  /** The terrain palette, from valley floor to peak. */
  const TerrainStops: Stops := Stops(DarkBrown, OrangeBrown, GoldenBrown, Yellow)

  /** The height factors at which the gradient changes band. */
  const LowThreshold: real := 0.3
  const HighThreshold: real := 0.5

  /** Each band's formula, applicable to any factor. */
  function LowBand(s: Stops, f: real): Color {
    Lerp(s.c0, s.c1, f / 0.3)
  }

  function MidBand(s: Stops, f: real): Color {
    Lerp(s.c1, s.c2, (f - 0.3) / 0.2)
  }

  function HighBand(s: Stops, f: real): Color {
    Lerp(s.c2, s.c3, (f - 0.5) / 0.5)
  }

  /** The band selection: the low band below 0.3, the middle band below 0.5,
      the high band from there on. */
  function Gradient(s: Stops, f: real): Color {
    if f < LowThreshold then LowBand(s, f)
    else if f < HighThreshold then MidBand(s, f)
    else HighBand(s, f)
  }

  /** The colour of a tile with the given height factor. */
  function TerrainColor(f: real): Color {
    Gradient(TerrainStops, f)
  }

  /** `min(avg / max_height, 1)`. */
  function HeightFactor(avg: real, maxHeight: real): (f: real)
    requires maxHeight != 0.0
    ensures f <= 1.0
    ensures f == 1.0 || f == avg / maxHeight
    ensures avg / maxHeight <= 1.0 ==> f == avg / maxHeight
  {
    Min(avg / maxHeight, 1.0)
  }

  /** The gradient passes through its four stops at factors 0, 0.3, 0.5
      and 1. */
  lemma GradientEndpoints(s: Stops)
    ensures Gradient(s, 0.0) == s.c0
    ensures Gradient(s, 0.3) == s.c1
    ensures Gradient(s, 0.5) == s.c2
    ensures Gradient(s, 1.0) == s.c3
  {
    LerpEnds(s.c0, s.c1);
    LerpEnds(s.c1, s.c2);
    LerpEnds(s.c2, s.c3);
    assert 0.0 / 0.3 == 0.0 && (0.3 - 0.3) / 0.2 == 0.0 && (0.5 - 0.5) / 0.5 == 0.0 && (1.0 - 0.5) / 0.5 == 1.0;
  }

  lemma TerrainColorEndpoints()
    ensures TerrainColor(0.0) == DarkBrown
    ensures TerrainColor(0.3) == OrangeBrown
    ensures TerrainColor(0.5) == GoldenBrown
    ensures TerrainColor(1.0) == Yellow
  {
    GradientEndpoints(TerrainStops);
  }

  /** The parameter the top band interpolates with lies in [0, 1]: the `min`
      keeps the height factor from exceeding one. */
  lemma TopBandParameterInUnitInterval(avg: real, maxHeight: real)
    requires maxHeight != 0.0
    requires HeightFactor(avg, maxHeight) >= HighThreshold
    ensures 0.0 <= (HeightFactor(avg, maxHeight) - 0.5) / 0.5 <= 1.0
  {
  }

  /** A colour component selected by index 0, 1 or 2. */
  function Channel(c: Color, k: int): real {
    if k == 0 then c.x else if k == 1 then c.y else c.z
  }

  predicate InUnitCube(c: Color) {
    0.0 <= c.x <= 1.0 && 0.0 <= c.y <= 1.0 && 0.0 <= c.z <= 1.0
  }

  predicate StopsInUnitCube(s: Stops) {
    InUnitCube(s.c0) && InUnitCube(s.c1) && InUnitCube(s.c2) && InUnitCube(s.c3)
  }

  /** Every palette colour decoded by `hexConvert` lies in the unit cube. */
  lemma TerrainStopsInUnitCube()
    ensures StopsInUnitCube(TerrainStops)
  {
    TerrainPaletteValues();
  }

  /** Mixing two values of [0, 1] with weights `1 - s, s` and `1 - t, t`
      gives results at most `|s - t|` apart. */
  lemma MixBound(pa: real, pb: real, s: real, t: real)
    requires 0.0 <= pa <= 1.0 && 0.0 <= pb <= 1.0
    ensures Abs(((1.0 - s) * pa + s * pb) - ((1.0 - t) * pa + t * pb)) <= Abs(s - t)
  {
    var u := s - t;
    var d := pb - pa;
    assert ((1.0 - s) * pa + s * pb) - ((1.0 - t) * pa + t * pb) == u * d;
    if u >= 0.0 {
      NonNegativeProduct(u, 1.0 - d);
      NonNegativeProduct(u, 1.0 + d);
    } else {
      NonNegativeProduct(-u, 1.0 - d);
      NonNegativeProduct(-u, 1.0 + d);
    }
  }

  lemma ChannelOfLerp(a: Color, b: Color, t: real, k: int)
    ensures Channel(Lerp(a, b, t), k) == (1.0 - t) * Channel(a, k) + t * Channel(b, k)
  {
  }

  /** Interpolating between two colours of the unit cube changes each
      channel by at most the change in the interpolation parameter. */
  lemma LerpBound(a: Color, b: Color, s: real, t: real, k: int)
    requires InUnitCube(a) && InUnitCube(b)
    ensures Abs(Channel(Lerp(a, b, s), k) - Channel(Lerp(a, b, t), k)) <= Abs(s - t)
  {
    ChannelOfLerp(a, b, s, k);
    ChannelOfLerp(a, b, t, k);
    MixBound(Channel(a, k), Channel(b, k), s, t);
  }

  lemma BandsLipschitz(s: Stops, f: real, g: real, k: int)
    requires StopsInUnitCube(s)
    ensures Abs(Channel(LowBand(s, f), k) - Channel(LowBand(s, g), k)) <= 5.0 * Abs(f - g)
    ensures Abs(Channel(MidBand(s, f), k) - Channel(MidBand(s, g), k)) <= 5.0 * Abs(f - g)
    ensures Abs(Channel(HighBand(s, f), k) - Channel(HighBand(s, g), k)) <= 5.0 * Abs(f - g)
  {
    LerpBound(s.c0, s.c1, f / 0.3, g / 0.3, k);
    LerpBound(s.c1, s.c2, (f - 0.3) / 0.2, (g - 0.3) / 0.2, k);
    LerpBound(s.c2, s.c3, (f - 0.5) / 0.5, (g - 0.5) / 0.5, k);
  }

  /** No channel of the gradient jumps at either threshold: each moves by at
      most five times the change in the height factor. */
  lemma GradientLipschitz(s: Stops, f: real, g: real, k: int)
    requires StopsInUnitCube(s)
    ensures Abs(Channel(Gradient(s, f), k) - Channel(Gradient(s, g), k)) <= 5.0 * Abs(f - g)
  {
    if f > g {
      GradientLipschitzOrdered(s, g, f, k);
    } else {
      GradientLipschitzOrdered(s, f, g, k);
    }
  }

  lemma GradientLipschitzOrdered(s: Stops, f: real, g: real, k: int)
    requires StopsInUnitCube(s)
    requires f <= g
    ensures Abs(Channel(Gradient(s, f), k) - Channel(Gradient(s, g), k)) <= 5.0 * (g - f)
  {
    LerpEnds(s.c0, s.c1);
    LerpEnds(s.c1, s.c2);
    LerpEnds(s.c2, s.c3);
    assert LowBand(s, 0.3) == MidBand(s, 0.3) == s.c1 by {
      assert 0.3 / 0.3 == 1.0 && (0.3 - 0.3) / 0.2 == 0.0;
    }
    assert MidBand(s, 0.5) == HighBand(s, 0.5) == s.c2 by {
      assert (0.5 - 0.3) / 0.2 == 1.0 && (0.5 - 0.5) / 0.5 == 0.0;
    }
    if f < 0.3 && 0.3 <= g {
      BandsLipschitz(s, f, 0.3, k);
      if g < 0.5 {
        BandsLipschitz(s, 0.3, g, k);
      } else {
        BandsLipschitz(s, 0.3, 0.5, k);
        BandsLipschitz(s, 0.5, g, k);
      }
    } else if f < 0.5 && 0.5 <= g {
      BandsLipschitz(s, f, 0.5, k);
      BandsLipschitz(s, 0.5, g, k);
    } else {
      BandsLipschitz(s, f, g, k);
    }
  }

  lemma TerrainColorLipschitz(f: real, g: real, k: int)
    ensures Abs(Channel(TerrainColor(f), k) - Channel(TerrainColor(g), k)) <= 5.0 * Abs(f - g)
  {
    TerrainStopsInUnitCube();
    GradientLipschitz(TerrainStops, f, g, k);
  }

  lemma LerpInUnitCube(a: Color, b: Color, t: real)
    requires InUnitCube(a) && InUnitCube(b) && 0.0 <= t <= 1.0
    ensures InUnitCube(Lerp(a, b, t))
  {
    NonNegativeProduct(t, b.x);
    NonNegativeProduct(t, b.y);
    NonNegativeProduct(t, b.z);
    NonNegativeProduct(1.0 - t, a.x);
    NonNegativeProduct(1.0 - t, a.y);
    NonNegativeProduct(1.0 - t, a.z);
    NonNegativeProduct(t, 1.0 - b.x);
    NonNegativeProduct(t, 1.0 - b.y);
    NonNegativeProduct(t, 1.0 - b.z);
    NonNegativeProduct(1.0 - t, 1.0 - a.x);
    NonNegativeProduct(1.0 - t, 1.0 - a.y);
    NonNegativeProduct(1.0 - t, 1.0 - a.z);
  }

  /** For a height factor in [0, 1] the colour is a convex mix of two
      neighbouring stops, so it stays in the unit cube. */
  lemma GradientInUnitCube(s: Stops, f: real)
    requires StopsInUnitCube(s)
    requires 0.0 <= f <= 1.0
    ensures InUnitCube(Gradient(s, f))
  {
    if f < 0.3 {
      LerpInUnitCube(s.c0, s.c1, f / 0.3);
    } else if f < 0.5 {
      LerpInUnitCube(s.c1, s.c2, (f - 0.3) / 0.2);
    } else {
      LerpInUnitCube(s.c2, s.c3, (f - 0.5) / 0.5);
    }
  }

  // ---- Tiles --------------------------------------------------------------

  /** Tile `(i, j)` reads rows `i, i + 1` and columns `j, j + 1`; all four
      lie inside the array. */
  predicate TileInBounds(i: int, j: int) {
    0 <= i && 0 <= j && i + 1 < GridSize && j + 1 < GridSize
  }

  /** The corner at row `r`, column `c`: `(r * tile_scale, map[r][c], c * tile_scale)`. */
  function Corner(g: Grid, r: int, c: int, tileScale: real): Vec3
    requires IsGrid(g) && 0 <= r < GridSize && 0 <= c < GridSize
  {
    Vec3(r as real * tileScale, g[r][c], c as real * tileScale)
  }

  /** The mean of the heights at the four corners of tile `(i, j)`. */
  function MeanHeight(g: Grid, i: int, j: int): real
    requires IsGrid(g) && TileInBounds(i, j)
  {
    (g[i][j] + g[i + 1][j] + g[i][j + 1] + g[i + 1][j + 1]) / 4.0
  }

  /** The colour of tile `(i, j)`: the shading function (in the scene, the
      terrain gradient `TerrainColor`) at the height factor of the mean
      corner height. */
  function TileColor(g: Grid, i: int, j: int, maxHeight: real, shade: real -> Color): Color
    requires IsGrid(g) && TileInBounds(i, j) && maxHeight != 0.0
  {
    shade(HeightFactor(MeanHeight(g, i, j), maxHeight))
  }

  /** The two triangles of tile `(i, j)`: `(v0, v1, v2)` and `(v2, v1, v3)`,
      both Lambertian with the tile's colour. */
  function TileTriangles(g: Grid, i: int, j: int, tileScale: real, maxHeight: real, shade: real -> Color, sqrt: real -> real): (ts: seq<Tri>)
    requires IsGrid(g) && TileInBounds(i, j) && maxHeight != 0.0 && IsSqrt(sqrt)
    ensures |ts| == 2
  {
    var v0 := Corner(g, i, j, tileScale);
    var v1 := Corner(g, i + 1, j, tileScale);
    var v2 := Corner(g, i, j + 1, tileScale);
    var v3 := Corner(g, i + 1, j + 1, tileScale);
    var mat := Lambertian(TileColor(g, i, j, maxHeight, shade));
    [MakeTri(v0, v1, v2, mat, sqrt), MakeTri(v2, v1, v3, mat, sqrt)]
  }

  /** The two triangles cover the tile's four corners, share the edge from
      `v1` to `v2`, and carry the same colour. */
  lemma TileShape(g: Grid, i: int, j: int, tileScale: real, maxHeight: real, shade: real -> Color, sqrt: real -> real)
    requires IsGrid(g) && TileInBounds(i, j) && maxHeight != 0.0 && IsSqrt(sqrt)
    ensures var ts := TileTriangles(g, i, j, tileScale, maxHeight, shade, sqrt);
            && ts[0].v1 == Corner(g, i, j, tileScale)
            && ts[0].v2 == Corner(g, i + 1, j, tileScale)
            && ts[0].v3 == Corner(g, i, j + 1, tileScale)
            && ts[1].v3 == Corner(g, i + 1, j + 1, tileScale)
            && ts[1].v1 == ts[0].v3 && ts[1].v2 == ts[0].v2
            && ts[0].mat == ts[1].mat == Lambertian(TileColor(g, i, j, maxHeight, shade))
  {
  }

  /** Whatever the heights, both triangles of a tile have area vectors whose
      second component is `-tile_scale^2`: the tile's projection onto the
      ground plane fixes it. */
  lemma TileAreaVectors(g: Grid, i: int, j: int, tileScale: real)
    requires IsGrid(g) && TileInBounds(i, j)
    ensures AreaVector(Corner(g, i, j, tileScale), Corner(g, i + 1, j, tileScale), Corner(g, i, j + 1, tileScale)).y
            == -Sq(tileScale)
    ensures AreaVector(Corner(g, i, j + 1, tileScale), Corner(g, i + 1, j, tileScale), Corner(g, i + 1, j + 1, tileScale)).y
            == -Sq(tileScale)
  {
    var v0, v1 := Corner(g, i, j, tileScale), Corner(g, i + 1, j, tileScale);
    var v2, v3 := Corner(g, i, j + 1, tileScale), Corner(g, i + 1, j + 1, tileScale);
    assert Sub(v1, v0).x == tileScale && Sub(v1, v0).z == 0.0;
    assert Sub(v2, v0).x == 0.0 && Sub(v2, v0).z == tileScale;
    assert Sub(v1, v2).x == tileScale && Sub(v1, v2).z == -tileScale;
    assert Sub(v3, v2).x == tileScale && Sub(v3, v2).z == 0.0;
  }

  /** With a non-zero tile scale neither triangle of a tile is degenerate,
      and both unit normals point the same way: downwards (negative second
      component), whatever the heights. */
  lemma TileFacesAgree(g: Grid, i: int, j: int, tileScale: real, maxHeight: real, shade: real -> Color, sqrt: real -> real)
    requires IsGrid(g) && TileInBounds(i, j) && maxHeight != 0.0 && IsSqrt(sqrt)
    requires tileScale != 0.0
    ensures var ts := TileTriangles(g, i, j, tileScale, maxHeight, shade, sqrt);
            && ts[0].plane.Plane? && ts[0].plane.normal.y < 0.0
            && ts[1].plane.Plane? && ts[1].plane.normal.y < 0.0
  {
    var ts := TileTriangles(g, i, j, tileScale, maxHeight, shade, sqrt);
    TileShape(g, i, j, tileScale, maxHeight, shade, sqrt);
    TileAreaVectors(g, i, j, tileScale);
    SqPositive(tileScale);
    forall n | 0 <= n < 2
      ensures ts[n].plane.Plane? && ts[n].plane.normal.y < 0.0
    {
      var a := AreaVector(ts[n].v1, ts[n].v2, ts[n].v3);
      assert a.y == -Sq(tileScale);
      DotSelfPositive(a);
      NegativeProduct(InverseLength(a, sqrt), a.y);
    }
  }

  // ---- The tile loop ------------------------------------------------------

  /** The parts of a sequence of sequences, one after another. */
  function Concat<T>(parts: seq<seq<T>>): seq<T> {
    if |parts| == 0 then [] else Concat(parts[..|parts| - 1]) + parts[|parts| - 1]
  }

  lemma ConcatAppend<T>(parts: seq<seq<T>>, last: seq<T>)
    ensures Concat(parts + [last]) == Concat(parts) + last
  {
    assert (parts + [last])[..|parts|] == parts;
  }

  lemma {:induction false} ConcatJoin<T>(a: seq<seq<T>>, b: seq<seq<T>>)
    ensures Concat(a + b) == Concat(a) + Concat(b)
    decreases |b|
  {
    if |b| == 0 {
      assert a + b == a;
    } else {
      var init := b[..|b| - 1];
      assert a + b == (a + init) + [b[|b| - 1]];
      ConcatAppend(a + init, b[|b| - 1]);
      ConcatJoin(a, init);
      assert b == init + [b[|b| - 1]];
      ConcatAppend(init, b[|b| - 1]);
    }
  }

  lemma PrefixSnoc<T>(s: seq<T>, n: int)
    requires 0 <= n < |s|
    ensures s[..n + 1] == s[..n] + [s[n]]
  {
  }

  /** The row-major slot `i * cols + j` of cell `(i, j)` among `rows x cols`
      cells. */
  function Slot(i: int, j: int, rows: int, cols: int): (n: int)
    requires 0 <= i < rows && 0 <= j < cols
    ensures 0 <= n < rows * cols
    ensures i < rows - 1 ==> n < (rows - 1) * cols
    ensures i == rows - 1 ==> n == (rows - 1) * cols + j
  {
    MulMonotone(i + 1, rows, cols);
    MulMonotone(i + 1, rows - 1, cols);
    MulMonotone(0, i, cols);
    i * cols + j
  }

  /** Concatenating `rows` rows of `cols` cells each lays cell `(i, j)` at
      slot `i * cols + j`. */
  lemma {:induction false} ConcatOfRows<T>(grid: seq<seq<T>>, cols: int)
    requires 0 <= cols && forall i :: 0 <= i < |grid| ==> |grid[i]| == cols
    ensures |Concat(grid)| == |grid| * cols
    ensures forall i, j :: 0 <= i < |grid| && 0 <= j < cols ==> Concat(grid)[Slot(i, j, |grid|, cols)] == grid[i][j]
  {
    if |grid| > 0 {
      var rows := |grid|;
      var front := grid[..rows - 1];
      ConcatOfRows(front, cols);
      assert (rows - 1) * cols + cols == rows * cols;
      forall i, j | 0 <= i < rows && 0 <= j < cols
        ensures Concat(grid)[Slot(i, j, rows, cols)] == grid[i][j]
      {
        if i < rows - 1 {
          assert Slot(i, j, rows, cols) == Slot(i, j, rows - 1, cols);
          assert front[i] == grid[i];
        }
      }
    }
  }

  /** The triangle pairs of tiles `(i, 0) .. (i, cols - 1)`. */
  function TileRow(g: Grid, i: int, cols: int, tileScale: real, maxHeight: real, shade: real -> Color, sqrt: real -> real): (row: seq<seq<Tri>>)
    requires IsGrid(g) && 0 <= i && i + 1 < GridSize && 0 <= cols < GridSize
    requires maxHeight != 0.0 && IsSqrt(sqrt)
    ensures |row| == cols
  {
    seq(cols, j requires 0 <= j < cols => TileTriangles(g, i, j, tileScale, maxHeight, shade, sqrt))
  }

  /** The triangle pairs of tiles `(i, j)`, `i < rows`, `j < cols`, as a grid
      of rows. */
  function TileGrid(g: Grid, rows: int, cols: int, tileScale: real, maxHeight: real, shade: real -> Color, sqrt: real -> real): (tg: seq<seq<seq<Tri>>>)
    requires IsGrid(g) && 0 <= rows < GridSize && 0 <= cols < GridSize
    requires maxHeight != 0.0 && IsSqrt(sqrt)
    ensures |tg| == rows && forall i :: 0 <= i < rows ==> |tg[i]| == cols
  {
    seq(rows, i requires 0 <= i < rows => TileRow(g, i, cols, tileScale, maxHeight, shade, sqrt))
  }

  lemma TileGridCell(g: Grid, rows: int, cols: int, tileScale: real, maxHeight: real, shade: real -> Color, sqrt: real -> real, i: int, j: int)
    requires IsGrid(g) && 0 <= rows < GridSize && 0 <= cols < GridSize
    requires maxHeight != 0.0 && IsSqrt(sqrt)
    requires 0 <= i < rows && 0 <= j < cols
    ensures TileGrid(g, rows, cols, tileScale, maxHeight, shade, sqrt)[i][j] == TileTriangles(g, i, j, tileScale, maxHeight, shade, sqrt)
  {
  }

  /** The triangles the tile loop emits for `rows x cols` tiles: the pairs
      in row-major order, flattened. */
  function Tiles(g: Grid, rows: int, cols: int, tileScale: real, maxHeight: real, shade: real -> Color, sqrt: real -> real): seq<Tri>
    requires IsGrid(g) && 0 <= rows < GridSize && 0 <= cols < GridSize
    requires maxHeight != 0.0 && IsSqrt(sqrt)
  {
    Concat(Concat(TileGrid(g, rows, cols, tileScale, maxHeight, shade, sqrt)))
  }

  /** Concatenating rows whose cells all have length `n` gives cells of
      length `n`. */
  lemma {:induction false} ConcatKeepsCellLength<T>(grid: seq<seq<seq<T>>>, n: int)
    requires forall i, j :: 0 <= i < |grid| && 0 <= j < |grid[i]| ==> |grid[i][j]| == n
    ensures forall m :: 0 <= m < |Concat(grid)| ==> |Concat(grid)[m]| == n
  {
    if |grid| > 0 {
      ConcatKeepsCellLength(grid[..|grid| - 1], n);
    }
  }

  /** Two triangles per tile, and triangle `2 * (i * cols + j) + k` is
      triangle `k` of tile `(i, j)`. */
  lemma TilesLayout(g: Grid, rows: int, cols: int, tileScale: real, maxHeight: real, shade: real -> Color, sqrt: real -> real)
    requires IsGrid(g) && 0 <= rows < GridSize && 0 <= cols < GridSize
    requires maxHeight != 0.0 && IsSqrt(sqrt)
    ensures |Tiles(g, rows, cols, tileScale, maxHeight, shade, sqrt)| == rows * cols * 2
    ensures forall i, j, k :: 0 <= i < rows && 0 <= j < cols && 0 <= k < 2 ==>
              Tiles(g, rows, cols, tileScale, maxHeight, shade, sqrt)[Slot(Slot(i, j, rows, cols), k, rows * cols, 2)]
              == TileTriangles(g, i, j, tileScale, maxHeight, shade, sqrt)[k]
  {
    var tg := TileGrid(g, rows, cols, tileScale, maxHeight, shade, sqrt);
    forall i, j | 0 <= i < rows && 0 <= j < cols
      ensures tg[i][j] == TileTriangles(g, i, j, tileScale, maxHeight, shade, sqrt)
    {
      TileGridCell(g, rows, cols, tileScale, maxHeight, shade, sqrt, i, j);
    }
    ConcatOfRows(tg, cols);
    ConcatKeepsCellLength(tg, 2);
    ConcatOfRows(Concat(tg), 2);
  }

  /** The body of the tile loop for tile `(i, j)`: its four corners, the
      average of their heights, the height factor and the banded colour,
      then the two triangles in the order they are added. The first is
      `(v0, v1, v2)`, the second `(v2, v1, v3)`, both constructed with the
      material of the shade at the height factor of the four cells' mean. */
  method TileBody(g: Grid, i: int, j: int, tileScale: real, maxHeight: real, shade: real -> Color, sqrt: real -> real)
    returns (first: Tri, second: Tri)
    requires IsGrid(g) && TileInBounds(i, j) && maxHeight != 0.0 && IsSqrt(sqrt)
    ensures first.v1 == Corner(g, i, j, tileScale) && first.v2 == Corner(g, i + 1, j, tileScale)
            && first.v3 == Corner(g, i, j + 1, tileScale)
    ensures second.v1 == Corner(g, i, j + 1, tileScale) && second.v2 == Corner(g, i + 1, j, tileScale)
            && second.v3 == Corner(g, i + 1, j + 1, tileScale)
    ensures first.mat == second.mat == Lambertian(shade(HeightFactor(MeanHeight(g, i, j), maxHeight)))
    ensures first == MakeTri(first.v1, first.v2, first.v3, first.mat, sqrt)
    ensures second == MakeTri(second.v1, second.v2, second.v3, second.mat, sqrt)
    ensures [first, second] == TileTriangles(g, i, j, tileScale, maxHeight, shade, sqrt)
  {
    var v0 := Vec3(i as real * tileScale, g[i][j], j as real * tileScale);
    var v1 := Vec3((i + 1) as real * tileScale, g[i + 1][j], j as real * tileScale);
    var v2 := Vec3(i as real * tileScale, g[i][j + 1], (j + 1) as real * tileScale);
    var v3 := Vec3((i + 1) as real * tileScale, g[i + 1][j + 1], (j + 1) as real * tileScale);
    var avg := (v0.y + v1.y + v2.y + v3.y) / 4.0;
    assert avg == MeanHeight(g, i, j);
    var factor := HeightFactor(avg, maxHeight);
    var color := shade(factor);
    assert v0 == Corner(g, i, j, tileScale) && v1 == Corner(g, i + 1, j, tileScale);
    assert v2 == Corner(g, i, j + 1, tileScale) && v3 == Corner(g, i + 1, j + 1, tileScale);
    assert color == TileColor(g, i, j, maxHeight, shade);
    first := MakeTri(v0, v1, v2, Lambertian(color), sqrt);
    second := MakeTri(v2, v1, v3, Lambertian(color), sqrt);
    assert first.mat == second.mat == Lambertian(color);
  }

  /** Appending the pair `row[j]` element by element extends the
      concatenation of `row[..j]` to that of `row[..j + 1]`. */
  lemma PairStep<T>(front: seq<T>, row: seq<seq<T>>, j: int, first: T, second: T)
    requires 0 <= j < |row| && row[j] == [first, second]
    ensures front + Concat(row[..j]) + [first] + [second] == front + Concat(row[..j + 1])
  {
    PrefixSnoc(row, j);
    ConcatAppend(row[..j], row[j]);
  }

  /** The inner loop of the tile loop for row `i`: appends the two
      triangles of every tile of the row, in column order, to `list`. */
  method RowLoop(list0: seq<Tri>, g: Grid, i: int, cols: int, tileScale: real, maxHeight: real, shade: real -> Color, sqrt: real -> real)
    returns (list: seq<Tri>)
    requires IsGrid(g) && 0 <= i && i + 1 < GridSize && 0 <= cols < GridSize
    requires maxHeight != 0.0 && IsSqrt(sqrt)
    ensures list == list0 + Concat(TileRow(g, i, cols, tileScale, maxHeight, shade, sqrt))
  {
    ghost var row := TileRow(g, i, cols, tileScale, maxHeight, shade, sqrt);
    list := list0;
    var j := 0;
    while j < cols
      invariant 0 <= j <= cols
      invariant list == list0 + Concat(row[..j])
    {
      var first, second := TileBody(g, i, j, tileScale, maxHeight, shade, sqrt);
      PairStep(list0, row, j, first, second);
      list := list + [first];
      list := list + [second];
      j := j + 1;
    }
    assert row[..j] == row;
  }

  /** The tile loop of `final_submission` over `rows x cols` tiles, row
      after row, into one list. */
  method TileLoop(g: Grid, rows: int, cols: int, tileScale: real, maxHeight: real, shade: real -> Color, sqrt: real -> real)
    returns (list: seq<Tri>)
    requires IsGrid(g) && 0 <= rows < GridSize && 0 <= cols < GridSize
    requires maxHeight != 0.0 && IsSqrt(sqrt)
    ensures list == Tiles(g, rows, cols, tileScale, maxHeight, shade, sqrt)
  {
    ghost var tg := TileGrid(g, rows, cols, tileScale, maxHeight, shade, sqrt);
    list := [];
    var i := 0;
    while i < rows
      invariant 0 <= i <= rows
      invariant list == Concat(Concat(tg[..i]))
    {
      list := RowLoop(list, g, i, cols, tileScale, maxHeight, shade, sqrt);
      assert tg[i] == TileRow(g, i, cols, tileScale, maxHeight, shade, sqrt);
      PrefixSnoc(tg, i);
      ConcatAppend(tg[..i], tg[i]);
      ConcatJoin(Concat(tg[..i]), tg[i]);
      i := i + 1;
    }
    assert tg[..i] == tg;
  }

  /** A non-negative average height under a positive maximum gives a
      height factor in [0, 1]. */
  lemma HeightFactorInUnitInterval(avg: real, maxHeight: real)
    requires avg >= 0.0 && maxHeight > 0.0
    ensures 0.0 <= HeightFactor(avg, maxHeight) <= 1.0
  {
    assert avg / maxHeight >= 0.0;
  }

  /** Every palette colour the gradient produces for a factor in [0, 1]
      lies in the unit cube. */
  lemma TerrainColorInUnitCube(f: real)
    requires 0.0 <= f <= 1.0
    ensures InUnitCube(TerrainColor(f))
  {
    TerrainStopsInUnitCube();
    GradientInUnitCube(TerrainStops, f);
  }

  /** With non-negative corner heights and a positive maximum height every
      terrain tile's colour lies in the unit cube. */
  lemma TerrainTileColorInUnitCube(g: Grid, i: int, j: int, tileScale: real, maxHeight: real)
    requires IsGrid(g) && TileInBounds(i, j) && maxHeight > 0.0
    requires g[i][j] >= 0.0 && g[i + 1][j] >= 0.0 && g[i][j + 1] >= 0.0 && g[i + 1][j + 1] >= 0.0
    ensures InUnitCube(TileColor(g, i, j, maxHeight, TerrainColor))
  {
    var avg := MeanHeight(g, i, j);
    HeightFactorInUnitInterval(avg, maxHeight);
    TerrainColorInUnitCube(HeightFactor(avg, maxHeight));
  }

  // ---- The terrain of `final_submission` ----------------------------------

  /** The scene's terrain parameters. */
  const TileScale: real := 1.0
  const NoiseScale: real := 0.005
  const MaxHeight: real := 35.0

  /** The height map the three octaves produce over the whole array. */
  function SampleGrid(scale: real, maxHeight: real, turb: (Vec3, int) -> real): Grid
  {
    seq(GridSize, y => seq(GridSize, x => HeightSample(x, y, scale, maxHeight, turb)))
  }

  /** Whether every tile `(i, j)`, `i < height`, `j < width`, that the tile
      loop visits reads only cells of the array. */
  predicate LoopReadsInBounds(height: int, width: int) {
    forall i, j :: 0 <= i < height && 0 <= j < width ==> TileInBounds(i, j)
  }

  /** The loop stays in the array exactly when it visits no tiles, or at
      most `GridSize - 1` rows and columns of them. */
  lemma LoopReadsInBoundsIff(height: int, width: int)
    ensures LoopReadsInBounds(height, width)
            <==> height <= 0 || width <= 0 || (height < GridSize && width < GridSize)
  {
    if height > 0 && width > 0 && !(height < GridSize && width < GridSize) {
      assert !TileInBounds(height - 1, width - 1);
    }
  }

  /** As written, `final_submission` runs the tile loop over all 200 x 200
      tiles: tile `(199, 199)` reads row and column 200 of a 200 x 200
      array. */
  lemma FinalSubmissionReadsPastGrid()
    ensures !LoopReadsInBounds(GridSize, GridSize)
    ensures !TileInBounds(GridSize - 1, GridSize - 1)
  {
    assert !TileInBounds(GridSize - 1, GridSize - 1);
  }

  /** `final_submission`'s terrain with the loop bounds it evidently means:
      the 200 x 200 height map, then the 199 x 199 tiles whose corners all
      lie in it, two triangles each, in row-major order. The noise
      generator's turbulence is a parameter; the array's initial contents
      are overwritten everywhere. */
  method FinalTerrain(uninit: Grid, turb: (Vec3, int) -> real, sqrt: real -> real) returns (list: seq<Tri>)
    requires IsGrid(uninit) && IsSqrt(sqrt)
    ensures LoopReadsInBounds(GridSize - 1, GridSize - 1)
    ensures list == Tiles(SampleGrid(NoiseScale, MaxHeight, turb), GridSize - 1, GridSize - 1,
                          TileScale, MaxHeight, TerrainColor, sqrt)
    ensures |list| == 2 * 199 * 199
  {
    LoopReadsInBoundsIff(GridSize - 1, GridSize - 1);
    var g := BuildPerlinMap(uninit, GridSize, GridSize, NoiseScale, MaxHeight, turb);
    ghost var sample := SampleGrid(NoiseScale, MaxHeight, turb);
    forall y | 0 <= y < GridSize
      ensures g[y] == sample[y]
    {
    }
    assert g == sample;
    list := TileLoop(g, GridSize - 1, GridSize - 1, TileScale, MaxHeight, TerrainColor, sqrt);
    TilesLayout(g, GridSize - 1, GridSize - 1, TileScale, MaxHeight, TerrainColor, sqrt);
  }
}

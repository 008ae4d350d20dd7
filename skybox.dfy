/**
 * The skybox of src/skybox/mod.rs: the constant cube mesh it draws and the
 * arithmetic that cuts a cross-shaped image into the six faces of a cube map.
 * The texture upload, the blit itself and drawing are GPU calls and are not
 * part of this model.
 */
module Skybox {
  import opened Numeric
  import opened Vectors

  // ---------------------------------------------------------------------------
  // Cube mesh (`get_vertex_buffer`, `get_index_buffer`)

  /** Half the edge of the cube (`side` in the source). */
  const SIDE: real := 1.0

  /** The eight corners, front face (z = +1) first, then the back face (z = -1). */
  function CubeVertices(): (r: seq<Vec3>)
    ensures |r| == 8
  {
    [ Vec3(-SIDE, SIDE, SIDE),    // left top front
      Vec3(SIDE, SIDE, SIDE),     // right top front
      Vec3(SIDE, -SIDE, SIDE),    // right bottom front
      Vec3(-SIDE, -SIDE, SIDE),   // left bottom front
      Vec3(-SIDE, SIDE, -SIDE),   // left top back
      Vec3(SIDE, SIDE, -SIDE),    // right top back
      Vec3(SIDE, -SIDE, -SIDE),   // right bottom back
      Vec3(-SIDE, -SIDE, -SIDE) ] // left bottom back
  }

  predicate IsUnit(x: real) {
    x == SIDE || x == -SIDE
  }

  predicate IsCorner(v: Vec3) {
    IsUnit(v.x) && IsUnit(v.y) && IsUnit(v.z)
  }

  /** The vertices are eight distinct corners of the cube [-1, 1]^3; the first four have z = +1, the rest z = -1. */
  lemma CubeCorners()
    ensures var r := CubeVertices();
      && (forall i | 0 <= i < 8 :: IsCorner(r[i]))
      && (forall i, j | 0 <= i < j < 8 :: r[i] != r[j])
      && (forall i | 0 <= i < 8 :: r[i].z == if i < 4 then SIDE else -SIDE)
  {
  }

  /** The twelve triangles, three `u16` indices each, in the source's groups of two. */
  function CubeIndices(): (r: seq<u16>)
    ensures |r| == 36
    ensures forall i | 0 <= i < |r| :: r[i] < |CubeVertices()|
  {
    [ 0, 1, 2,  0, 2, 3,   // "front"
      4, 5, 6,  4, 6, 7,   // "back"
      0, 4, 7,  0, 7, 3,   // "left"
      1, 5, 6,  1, 6, 2,   // "right"
      1, 0, 3,  1, 3, 2,   // "top"
      4, 7, 6,  4, 6, 5 ]  // "bottom"
  }

  /** The corners of triangle `t`. */
  function Triangle(t: nat): (Vec3, Vec3, Vec3)
    requires t < 12
  {
    var v, ix := CubeVertices(), CubeIndices();
    (v[ix[3 * t]], v[ix[3 * t + 1]], v[ix[3 * t + 2]])
  }

  /** A face plane of the cube: the axis held fixed and its value. */
  datatype Face = Face(axis: Axis, value: real)
  datatype Axis = X | Y | Z

  function Coord(v: Vec3, axis: Axis): real {
    match axis
    case X => v.x
    case Y => v.y
    case Z => v.z
  }

  predicate OnFace(tri: (Vec3, Vec3, Vec3), f: Face) {
    Coord(tri.0, f.axis) == f.value && Coord(tri.1, f.axis) == f.value && Coord(tri.2, f.axis) == f.value
  }

  /** The face plane each triangle lies in, pair by pair as the indices list them. */
  function FaceOf(t: nat): Face
    requires t < 12
  {
    [ Face(Z, SIDE), Face(Z, -SIDE), Face(X, -SIDE), Face(X, SIDE), Face(Z, SIDE), Face(Z, -SIDE) ][t / 2]
  }

  /**
   * Every triangle lies in a face plane of the cube; the groups labelled "top"
   * and "bottom" lie in the planes z = +1 and z = -1 again, duplicating the
   * front and back faces.
   */
  lemma TrianglesLieOnFaces()
    ensures forall t | 0 <= t < 12 :: OnFace(Triangle(t), FaceOf(t))
    ensures FaceOf(8) == FaceOf(0) && FaceOf(9) == FaceOf(1)
    ensures FaceOf(10) == FaceOf(2) && FaceOf(11) == FaceOf(3)
  {
    forall t | 0 <= t < 12 ensures OnFace(Triangle(t), FaceOf(t)) {
      TriangleOnFace(t);
    }
  }

  lemma TriangleOnFace(t: nat)
    requires t < 12
    ensures OnFace(Triangle(t), FaceOf(t))
  {
    if t < 4 {
      FrontBackOnFace(t);
    } else if t < 8 {
      LeftRightOnFace(t);
    } else {
      TopBottomOnFace(t);
    }
  }

  lemma FrontBackOnFace(t: nat)
    requires t < 4
    ensures OnFace(Triangle(t), FaceOf(t))
  {
    var ix := CubeIndices();
    if t == 0 { assert ix[0] == 0 && ix[1] == 1 && ix[2] == 2; }
    else if t == 1 { assert ix[3] == 0 && ix[4] == 2 && ix[5] == 3; }
    else if t == 2 { assert ix[6] == 4 && ix[7] == 5 && ix[8] == 6; }
    else { assert ix[9] == 4 && ix[10] == 6 && ix[11] == 7; }
  }

  lemma LeftRightOnFace(t: nat)
    requires 4 <= t < 8
    ensures OnFace(Triangle(t), FaceOf(t))
  {
    var ix := CubeIndices();
    if t == 4 { assert ix[12] == 0 && ix[13] == 4 && ix[14] == 7; }
    else if t == 5 { assert ix[15] == 0 && ix[16] == 7 && ix[17] == 3; }
    else if t == 6 { assert ix[18] == 1 && ix[19] == 5 && ix[20] == 6; }
    else { assert ix[21] == 1 && ix[22] == 6 && ix[23] == 2; }
  }

  lemma TopBottomOnFace(t: nat)
    requires 8 <= t < 12
    ensures OnFace(Triangle(t), FaceOf(t))
  {
    var ix := CubeIndices();
    if t == 8 { assert ix[24] == 1 && ix[25] == 0 && ix[26] == 3; }
    else if t == 9 { assert ix[27] == 1 && ix[28] == 3 && ix[29] == 2; }
    else if t == 10 { assert ix[30] == 4 && ix[31] == 7 && ix[32] == 6; }
    else { assert ix[33] == 4 && ix[34] == 6 && ix[35] == 5; }
  }

  /** No triangle lies in the planes y = +1 or y = -1: the cube has no top or bottom. */
  lemma NoTriangleOnYFaces()
    ensures forall t, value | 0 <= t < 12 :: !OnFace(Triangle(t), Face(Y, value))
  {
    forall t, value | 0 <= t < 12 ensures !OnFace(Triangle(t), Face(Y, value)) {
      TriangleSpansY(t);
    }
  }

  /** Every triangle has one corner at y = +1 and one at y = -1. */
  lemma TriangleSpansY(t: nat)
    requires t < 12
    ensures var (a, b, c) := Triangle(t); a.y != b.y || b.y != c.y
  {
    TriangleOnFace(t);
    var v, ix := CubeVertices(), CubeIndices();
    assert ix[3 * t] < 8 && ix[3 * t + 1] < 8 && ix[3 * t + 2] < 8;
  }

  // ---------------------------------------------------------------------------
  // Cross layout (`Skybox::new`, `map_to_cube`)

  /** The edge of the cube map made from a `width`-wide image (`width / 4` in `Skybox::new`). */
  function FaceSize(width: u32): (r: u32)
    ensures 4 * r <= width < 4 * r + 4
  {
    width / 4
  }

  /** glium's `BlitTarget`: a rectangle with its lower-left corner and its extent. */
  datatype BlitTarget = BlitTarget(left: u32, bottom: u32, width: i32, height: i32)

  datatype CubeLayer = PositiveX | NegativeX | PositiveY | NegativeY | PositiveZ | NegativeZ

  /**
   * The six rectangles of `map_to_cube`, in the order Left, Front, Right,
   * Back, Bottom, Top: the whole middle row of a 4 x 3 grid, then the cells
   * below and above the second column.
   */
  function BlitTargets(width: u32, height: u32): seq<BlitTarget> {
    var heightStep, widthStep := height / 3, width / 4;
    assert widthStep * 3 <= width && heightStep * 2 <= height;
    var w, h := AsI32(widthStep), AsI32(heightStep);
    [ BlitTarget(widthStep * 0, heightStep * 1, w, h),  // Left
      BlitTarget(widthStep * 1, heightStep * 1, w, h),  // Front
      BlitTarget(widthStep * 2, heightStep * 1, w, h),  // Right
      BlitTarget(widthStep * 3, heightStep * 1, w, h),  // Back
      BlitTarget(widthStep * 1, heightStep * 0, w, h),  // Bottom
      BlitTarget(widthStep * 1, heightStep * 2, w, h) ] // Top
  }

  function AllLayers(): set<CubeLayer> {
    {PositiveX, NegativeX, PositiveY, NegativeY, PositiveZ, NegativeZ}
  }

  /** The cube-map layer each rectangle is copied to, in the same order. */
  function Layers(): seq<CubeLayer> {
    [NegativeX, PositiveZ, PositiveX, NegativeZ, NegativeY, PositiveY]
  }

  /** Iterator `zip`: pairs elements in order and stops at the end of the shorter sequence. */
  function Zip<T, U>(a: seq<T>, b: seq<U>): (r: seq<(T, U)>)
    ensures |r| == if |a| < |b| then |a| else |b|
    ensures forall i | 0 <= i < |r| :: r[i] == (a[i], b[i])
  {
    if a == [] || b == [] then [] else [(a[0], b[0])] + Zip(a[1..], b[1..])
  }

  /** Which layer receives which rectangle: `layers.into_iter().map(..).zip(blit_targets)`. */
  function CubeFaces(width: u32, height: u32): seq<(CubeLayer, BlitTarget)> {
    Zip(Layers(), BlitTargets(width, height))
  }

  /** The cell (column, row) of the 4 x 3 grid the `i`-th rectangle occupies. */
  function Cell(i: nat): (nat, nat)
    requires i < 6
  {
    [(0, 1), (1, 1), (2, 1), (3, 1), (1, 0), (1, 2)][i]
  }

  /** `a` and `b` share a pixel. */
  predicate Overlap(a: BlitTarget, b: BlitTarget) {
    && a.left < b.left + b.width && b.left < a.left + a.width
    && a.bottom < b.bottom + b.height && b.bottom < a.bottom + a.height
  }

  /** `t` lies inside a `width` x `height` image. */
  predicate Inside(t: BlitTarget, width: int, height: int) {
    0 <= t.width && 0 <= t.height && t.left + t.width <= width && t.bottom + t.height <= height
  }

  /** The `as i32` casts of `width / 4` and `height / 3` never change the value. */
  lemma StepCastsLossless(width: u32, height: u32)
    ensures AsI32(width / 4) == width / 4 && AsI32(height / 3) == height / 3
  {
  }

  /**
   * There are six rectangles, each `width / 4` by `height / 3`, the edge of the
   * cube map; each sits at its grid cell and lies inside the image.
   */
  lemma BlitTargetsShape(width: u32, height: u32)
    ensures var r := BlitTargets(width, height);
      && |r| == 6
      && forall i | 0 <= i < 6 ::
        && r[i].width == FaceSize(width) && r[i].height == height / 3
        && r[i].left == Cell(i).0 * (width / 4) && r[i].bottom == Cell(i).1 * (height / 3)
        && Inside(r[i], width, height)
  {
    StepCastsLossless(width, height);
  }

  /** The six rectangles are pairwise disjoint. */
  lemma BlitTargetsDisjoint(width: u32, height: u32)
    ensures var r := BlitTargets(width, height);
      forall i, j | 0 <= i < j < 6 :: !Overlap(r[i], r[j])
  {
    StepCastsLossless(width, height);
  }

  /** The six distinct cells: the middle row, and the second column's bottom and top. */
  lemma CellsDistinct()
    ensures forall i, j | 0 <= i < j < 6 :: Cell(i) != Cell(j)
    ensures forall i | 0 <= i < 6 :: Cell(i).0 < 4 && Cell(i).1 < 3
    ensures forall i | 0 <= i < 6 :: Cell(i).1 == 1 || Cell(i).0 == 1
  {
  }

  /** The six layers are distinct and together are every face of the cube map. */
  lemma LayersAreAllFaces()
    ensures |Layers()| == 6
    ensures forall i, j | 0 <= i < j < 6 :: Layers()[i] != Layers()[j]
    ensures (set l | l in Layers()) == AllLayers()
  {
    var ls := Layers();
    assert ls[0] in ls && ls[1] in ls && ls[2] in ls && ls[3] in ls && ls[4] in ls && ls[5] in ls;
  }

  /**
   * The pairing of layers and rectangles: Left to -X, Front to +Z, Right to
   * +X, Back to -Z, Bottom to -Y and Top to +Y, all six of each consumed.
   */
  lemma CubeFacesPairing(width: u32, height: u32)
    ensures var f, r := CubeFaces(width, height), BlitTargets(width, height);
      && |f| == 6
      && f[0] == (NegativeX, r[0]) && f[1] == (PositiveZ, r[1]) && f[2] == (PositiveX, r[2])
      && f[3] == (NegativeZ, r[3]) && f[4] == (NegativeY, r[4]) && f[5] == (PositiveY, r[5])
  {
    assert |BlitTargets(width, height)| == 6;
  }
}

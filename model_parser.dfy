/**
 * `parse_model` of src/model/model_parser/mod.rs, after the mesh has been
 * loaded: the loaded vertices become scaled positions with texture
 * coordinates and, separately, normals; the `u16` indices are widened to `u32`.
 * Opening the file and the loader itself are outside the model: the loaded
 * object is the input.
 */
module ModelParser {
  import opened Numeric
  import opened Vectors

  /** One vertex as the loader produces it (`obj::TexturedVertex`). */
  datatype TexturedVertex = TexturedVertex(position: Vec3, normal: Vec3, texture: Vec3)

  /** The loaded object (`obj::Obj<TexturedVertex, u16>`), reduced to what `parse_model` reads. */
  datatype Obj = Obj(vertices: seq<TexturedVertex>, indices: seq<u16>)

  /** The renderer's vertex: a position and texture coordinates. */
  datatype Vertex = Vertex(position: Vec3, texCoords: Vec2)

  datatype Normal = Normal(normal: Vec3)

  /** The three outputs of `parse_model`, in the source's tuple order. */
  datatype Mesh = Mesh(vertices: seq<Vertex>, indices: seq<u32>, normals: seq<Normal>)

  /** Every loaded position is divided by this. */
  const POSITION_DIVISOR: real := 200.0

  /** The first map: positions shrunk by 200, the first two texture components kept. */
  function ToVertices(vs: seq<TexturedVertex>): (r: seq<Vertex>)
    ensures |r| == |vs|
    ensures forall i | 0 <= i < |vs| ::
      && r[i].position == Vec3(vs[i].position.x / POSITION_DIVISOR,
                               vs[i].position.y / POSITION_DIVISOR,
                               vs[i].position.z / POSITION_DIVISOR)
      && r[i].texCoords == Vec2(vs[i].texture.x, vs[i].texture.y)
  {
    if vs == [] then []
    else
      var v := vs[0];
      [Vertex(Vec3(v.position.x / POSITION_DIVISOR, v.position.y / POSITION_DIVISOR, v.position.z / POSITION_DIVISOR),
              Vec2(v.texture.x, v.texture.y))]
      + ToVertices(vs[1..])
  }

  /** The second map: normals copied unchanged. */
  function ToNormals(vs: seq<TexturedVertex>): (r: seq<Normal>)
    ensures |r| == |vs|
    ensures forall i | 0 <= i < |vs| :: r[i].normal == vs[i].normal
  {
    if vs == [] then [] else [Normal(vs[0].normal)] + ToNormals(vs[1..])
  }

  /** The third map: each `u16` index cast to `u32`. */
  function WidenIndices(ix: seq<u16>): (r: seq<u32>)
    ensures |r| == |ix|
    ensures forall i | 0 <= i < |ix| :: r[i] as int == ix[i] as int
  {
    if ix == [] then [] else [WidenU16(ix[0])] + WidenIndices(ix[1..])
  }

  /** `parse_model` from the loaded object on. */
  function ParseModel(obj: Obj): (m: Mesh)
    ensures |m.vertices| == |obj.vertices| && |m.normals| == |obj.vertices|
    ensures |m.indices| == |obj.indices|
  {
    Mesh(ToVertices(obj.vertices), WidenIndices(obj.indices), ToNormals(obj.vertices))
  }

  /** Scaling a position back up by 200 gives the loaded position: the shrink loses nothing over the reals. */
  lemma PositionsRecoverable(obj: Obj, i: nat)
    requires i < |obj.vertices|
    ensures Scale(ParseModel(obj).vertices[i].position, POSITION_DIVISOR) == obj.vertices[i].position
  {
    var p := obj.vertices[i].position;
    assert ParseModel(obj).vertices[i].position == Vec3(p.x / POSITION_DIVISOR, p.y / POSITION_DIVISOR, p.z / POSITION_DIVISOR);
  }

  /**
   * The i-th vertex and the i-th normal both come from the i-th loaded vertex:
   * the two outputs stay aligned, and normals are not scaled.
   */
  lemma VerticesAndNormalsAligned(obj: Obj, i: nat)
    requires i < |obj.vertices|
    ensures var m, v := ParseModel(obj), obj.vertices[i];
      && m.normals[i].normal == v.normal
      && m.vertices[i].texCoords == Vec2(v.texture.x, v.texture.y)
      && Scale(m.vertices[i].position, POSITION_DIVISOR) == v.position
  {
    PositionsRecoverable(obj, i);
  }

  /** Every output index is below 2^16 and narrowing it back gives the loaded index. */
  lemma IndicesLossless(obj: Obj)
    ensures var m := ParseModel(obj);
      forall i | 0 <= i < |m.indices| :: m.indices[i] < U16_LIMIT && m.indices[i] as u16 == obj.indices[i]
  {
  }

  /** Indices are not checked against the vertex count: one past the last vertex is passed through. */
  lemma IndicesNotRangeChecked(v: TexturedVertex)
    ensures var m := ParseModel(Obj([v], [0, 1, 2]));
      |m.vertices| == 1 && m.indices == [0, 1, 2]
  {
  }

  /** Parsing the concatenation of two objects concatenates the outputs: the maps preserve order. */
  lemma {:induction false} ParseAppend(a: seq<TexturedVertex>, b: seq<TexturedVertex>)
    ensures ToVertices(a + b) == ToVertices(a) + ToVertices(b)
    ensures ToNormals(a + b) == ToNormals(a) + ToNormals(b)
  {
    if a != [] {
      assert (a + b)[1..] == a[1..] + b;
      ParseAppend(a[1..], b);
    }
  }
}

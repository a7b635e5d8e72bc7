/**
 * Mesh preparation: the GPU-side vertex records, fan triangulation of the
 * faces into a flat index array, the bounding box and radius, and the Mesh
 * object whose fields record what was uploaded. OpenGL calls are recorded as
 * events; buffer layout and allocation are not modelled.
 */
module MeshModel {
  import opened Wrappers
  import opened Geometry
  import opened PlyFormat
  import opened PlyLoading

  // ---------------------------------------------------------------------------
  // Vertex data

  /** The interleaved record uploaded per vertex (VertexData in Mesh.cpp). */
  datatype VertexData = VertexData(position: Vec3, normal: Vec3, color: Vec3, texCoord: Vec2)

  /**
   * QColor::redF/greenF/blueF as a vector: each channel over 255 for a valid
   * colour; every channel reads 0 for the invalid colour.
   */
  function ColorF(c: Color): (v: Vec3)
    ensures c.Rgba? ==> v == Vec3(c.r as real / 255.0, c.g as real / 255.0, c.b as real / 255.0)
    ensures c.InvalidColor? ==> v == Zero3
    ensures c.Rgba? && IsChannel(c.r) && IsChannel(c.g) && IsChannel(c.b) ==>
              0.0 <= v.x <= 1.0 && 0.0 <= v.y <= 1.0 && 0.0 <= v.z <= 1.0
  {
    if c.Rgba? then Vec3(c.r as real / 255.0, c.g as real / 255.0, c.b as real / 255.0) else Zero3
  }

  function ToVertexData(v: Vertex): VertexData {
    VertexData(v.position, v.normal, ColorF(v.color), v.texCoord)
  }

  /**
   * The vertex loop of Mesh::uploadData: one record per vertex, in order,
   * keeping position, normal and texture coordinates and reducing the colour
   * to its red, green and blue channels.
   */
  method CopyVertices(vs: seq<Vertex>) returns (data: seq<VertexData>)
    ensures |data| == |vs|
    ensures forall i :: 0 <= i < |vs| ==>
              && data[i].position == vs[i].position
              && data[i].normal == vs[i].normal
              && data[i].color == ColorF(vs[i].color)
              && data[i].texCoord == vs[i].texCoord
  {
    data := [];
    var i := 0;
    while i < |vs|
      invariant 0 <= i <= |vs| && |data| == i
      invariant forall m :: 0 <= m < i ==> data[m] == ToVertexData(vs[m])
    {
      data := data + [ToVertexData(vs[i])];
      i := i + 1;
    }
  }

  // ---------------------------------------------------------------------------
  // Fan triangulation

  /** The triangles (i0, ij, ij+1) for j from `j` up to k - 2, flattened. */
  function FanFrom(idx: seq<int>, j: nat): seq<int>
    requires 1 <= j
    decreases |idx| - j
  {
    if j + 1 >= |idx| then [] else [idx[0], idx[j], idx[j + 1]] + FanFrom(idx, j + 1)
  }

  /** The fan of one face: nothing for fewer than 3 indices. */
  function FanOfFace(idx: seq<int>): seq<int> {
    if |idx| >= 3 then FanFrom(idx, 1) else []
  }

  /** The fans of all faces, in face order. */
  function FanIndices(faces: seq<Face>): seq<int> {
    if faces == [] then [] else FanIndices(faces[..|faces| - 1]) + FanOfFace(faces[|faces| - 1].indices)
  }

  /** The index count: 3(k - 2) for each face of k >= 3 indices, 0 for the others. */
  function TriangleIndexCount(faces: seq<Face>): nat {
    if faces == [] then 0
    else
      var k := |faces[|faces| - 1].indices|;
      TriangleIndexCount(faces[..|faces| - 1]) + (if k >= 3 then 3 * (k - 2) else 0)
  }

  lemma {:induction false} FanFromLength(idx: seq<int>, j: nat)
    requires 1 <= j < |idx|
    ensures |FanFrom(idx, j)| == 3 * (|idx| - 1 - j)
    decreases |idx| - j
  {
    if j + 1 < |idx| {
      FanFromLength(idx, j + 1);
    }
  }

  /** Triangle t (counted from j) of FanFrom sits at offset 3t. */
  lemma {:induction false} FanFromElement(idx: seq<int>, j: nat, t: nat)
    requires 1 <= j && j + t + 1 < |idx|
    ensures 3 * t + 2 < |FanFrom(idx, j)|
    ensures FanFrom(idx, j)[3 * t] == idx[0]
    ensures FanFrom(idx, j)[3 * t + 1] == idx[j + t]
    ensures FanFrom(idx, j)[3 * t + 2] == idx[j + t + 1]
    decreases t
  {
    FanFromLength(idx, j);
    if t > 0 {
      FanFromElement(idx, j + 1, t - 1);
      var rest := FanFrom(idx, j + 1);
      assert FanFrom(idx, j) == [idx[0], idx[j], idx[j + 1]] + rest;
      assert 3 * t == 3 + 3 * (t - 1);
    }
  }

  /** Triangle t of a flat index array: its entries 3t, 3t + 1 and 3t + 2. */
  function Triangle(s: seq<int>, t: nat): seq<int>
    requires 3 * t + 3 <= |s|
  {
    s[3 * t..3 * t + 3]
  }

  /**
   * The fan of a face of k >= 3 indices has 3(k - 2) entries, and its
   * triangle t (t = 0 .. k - 3) is (i0, it+1, it+2), in increasing t.
   */
  lemma FanOfFaceSpec(idx: seq<int>)
    ensures |FanOfFace(idx)| == if |idx| >= 3 then 3 * (|idx| - 2) else 0
    ensures forall t: nat :: t < |idx| - 2 ==> Triangle(FanOfFace(idx), t) == [idx[0], idx[t + 1], idx[t + 2]]
  {
    if |idx| >= 3 {
      FanFromLength(idx, 1);
      forall t: nat | t < |idx| - 2
        ensures Triangle(FanOfFace(idx), t) == [idx[0], idx[t + 1], idx[t + 2]]
      {
        FanFromElement(idx, 1, t);
      }
    }
  }

  /** The index array has exactly the promised length. */
  lemma {:induction false} FanIndicesLength(faces: seq<Face>)
    ensures |FanIndices(faces)| == TriangleIndexCount(faces)
  {
    if faces != [] {
      FanIndicesLength(faces[..|faces| - 1]);
      FanOfFaceSpec(faces[|faces| - 1].indices);
    }
  }

  /** All earlier faces' fans come first: the fan of face f starts at the index count of faces[..f]. */
  lemma {:induction false} FanIndicesPlacement(faces: seq<Face>, f: int, m: int)
    requires 0 <= f < |faces| && 0 <= m < |FanOfFace(faces[f].indices)|
    ensures TriangleIndexCount(faces[..f]) + m < |FanIndices(faces)|
    ensures FanIndices(faces)[TriangleIndexCount(faces[..f]) + m] == FanOfFace(faces[f].indices)[m]
  {
    var init := faces[..|faces| - 1];
    var head := FanIndices(init);
    assert FanIndices(faces) == head + FanOfFace(faces[|faces| - 1].indices);
    FanIndicesLength(init);
    if f == |faces| - 1 {
      assert faces[..f] == init;
    } else {
      assert init[f] == faces[f] && init[..f] == faces[..f];
      FanIndicesPlacement(init, f, m);
      assert FanIndices(faces)[TriangleIndexCount(faces[..f]) + m] == head[TriangleIndexCount(faces[..f]) + m];
    }
  }

  /** Index values are uploaded as unsigned 32-bit ints: a negative index wraps around. */
  function UInt32(i: int): (u: int)
    ensures 0 <= u < 0x1_0000_0000
    ensures 0 <= i < 0x1_0000_0000 ==> u == i
    ensures (u - i) % 0x1_0000_0000 == 0
  {
    i % 0x1_0000_0000
  }

  function UInt32s(s: seq<int>): (r: seq<int>)
    ensures |r| == |s| && forall m :: 0 <= m < |s| ==> r[m] == UInt32(s[m])
  {
    seq(|s|, m requires 0 <= m < |s| => UInt32(s[m]))
  }

  /**
   * The inner loop of the index loop in Mesh::uploadData: for a face of at
   * least 3 indices, the triangles (i0, ij, ij+1), j = 1 .. k - 2, as
   * unsigned ints; nothing for a smaller face.
   */
  method FanTriangles(idx: seq<int>) returns (tri: seq<int>)
    ensures tri == UInt32s(FanOfFace(idx))
  {
    tri := [];
    if |idx| >= 3 {
      FanFromLength(idx, 1);
      var i := 1;
      while i < |idx| - 1
        invariant 1 <= i <= |idx| - 1
        invariant |tri| == 3 * (i - 1)
        invariant forall m :: 0 <= m < |tri| ==> tri[m] == UInt32(FanFrom(idx, 1)[m])
      {
        FanFromElement(idx, 1, i - 1);
        tri := tri + [UInt32(idx[0]), UInt32(idx[i]), UInt32(idx[i + 1])];
        i := i + 1;
      }
    }
  }

  /** Converting a concatenation converts each part. */
  lemma UInt32sAppend(a: seq<int>, b: seq<int>)
    ensures UInt32s(a + b) == UInt32s(a) + UInt32s(b)
  {
  }

  /**
   * The index loop of Mesh::uploadData: the fans of all faces, in face order,
   * appended as unsigned ints.
   */
  method Triangulate(faces: seq<Face>) returns (indices: seq<int>)
    ensures indices == UInt32s(FanIndices(faces))
  {
    indices := [];
    var f := 0;
    while f < |faces|
      invariant 0 <= f <= |faces|
      invariant indices == UInt32s(FanIndices(faces[..f]))
    {
      var tri := FanTriangles(faces[f].indices);
      assert faces[..f + 1][..f] == faces[..f] && faces[..f + 1][f] == faces[f];
      assert FanIndices(faces[..f + 1]) == FanIndices(faces[..f]) + FanOfFace(faces[f].indices);
      UInt32sAppend(FanIndices(faces[..f]), FanOfFace(faces[f].indices));
      indices := indices + tri;
      f := f + 1;
    }
    assert faces[..f] == faces;
  }

  // ---------------------------------------------------------------------------
  // Bounding radius

  /** The distance from a vertex to a point: (position - c).length(). */
  function Distance(v: Vertex, c: Vec3): real {
    Length(Sub(v.position, c))
  }

  /**
   * The radius loop of Mesh::calculateBoundingBox: the largest distance from
   * the centre to a vertex, starting from 0 (so never below 0).
   */
  method MaxDistance(vs: seq<Vertex>, center: Vec3) returns (d: real)
    ensures 0.0 <= d
    ensures forall i :: 0 <= i < |vs| ==> Distance(vs[i], center) <= d
    ensures d == 0.0 || exists i :: 0 <= i < |vs| && d == Distance(vs[i], center)
  {
    d := 0.0;
    var i := 0;
    while i < |vs|
      invariant 0 <= i <= |vs|
      invariant 0.0 <= d
      invariant forall m :: 0 <= m < i ==> Distance(vs[m], center) <= d
      invariant d == 0.0 || exists m :: 0 <= m < i && d == Distance(vs[m], center)
    {
      d := QMax(d, Distance(vs[i], center));
      i := i + 1;
    }
  }

  // ---------------------------------------------------------------------------
  // The Mesh object

  /** The OpenGL calls the draw methods issue. */
  datatype GlCall =
    | BindVertexArray
    | DrawTriangles(count: int)
    | PolygonModeLine
    | PolygonModeFill
    | DrawPoints(count: int)
    | ReleaseVertexArray

  class Mesh {
    var vertexCount: int
    var indexCount: int
    /** The contents of the vertex and index buffers. */
    var vertexBuffer: seq<VertexData>
    var indexBuffer: seq<int>
    var transform: Mat4
    var boxMin: Vec3
    var boxMax: Vec3
    var radius: real

    /** The counts describe the buffers. */
    ghost predicate Valid()
      reads this
    {
      vertexCount == |vertexBuffer| && indexCount == |indexBuffer|
    }

    constructor()
      ensures Valid()
      ensures vertexCount == 0 && indexCount == 0 && radius == 0.0
      ensures vertexBuffer == [] && indexBuffer == []
      ensures transform == Identity && boxMin == Zero3 && boxMax == Zero3
    {
      vertexCount, indexCount := 0, 0;
      vertexBuffer, indexBuffer := [], [];
      transform := Identity;
      boxMin, boxMax := Zero3, Zero3;
      radius := 0.0;
    }

    /** Mesh::hasData (Mesh.h). */
    function HasData(): (b: bool)
      reads this
      ensures Valid() ==> (b <==> vertexBuffer != [])
    {
      vertexCount > 0
    }

    /** Mesh::render: the triangles of the index buffer, or nothing without data. */
    method Render() returns (calls: seq<GlCall>)
      ensures !HasData() ==> calls == []
      ensures HasData() ==> calls == [BindVertexArray, DrawTriangles(indexCount), ReleaseVertexArray]
    {
      if !HasData() {
        return [];
      }
      calls := [BindVertexArray, DrawTriangles(indexCount), ReleaseVertexArray];
    }

    /** Mesh::renderWireframe: the same draw between line and fill polygon modes. */
    method RenderWireframe() returns (calls: seq<GlCall>)
      ensures !HasData() ==> calls == []
      ensures HasData() ==>
        calls == [BindVertexArray, PolygonModeLine, DrawTriangles(indexCount), PolygonModeFill, ReleaseVertexArray]
    {
      if !HasData() {
        return [];
      }
      calls := [BindVertexArray, PolygonModeLine, DrawTriangles(indexCount), PolygonModeFill, ReleaseVertexArray];
    }

    /** Mesh::renderPoints: one point per vertex. */
    method RenderPoints() returns (calls: seq<GlCall>)
      ensures !HasData() ==> calls == []
      ensures HasData() ==> calls == [BindVertexArray, DrawPoints(vertexCount), ReleaseVertexArray]
    {
      if !HasData() {
        return [];
      }
      calls := [BindVertexArray, DrawPoints(vertexCount), ReleaseVertexArray];
    }

    /** Mesh::getCenter: the midpoint of the stored box. */
    function GetCenter(): (c: Vec3)
      reads this
      ensures c.x - boxMin.x == boxMax.x - c.x && c.y - boxMin.y == boxMax.y - c.y && c.z - boxMin.z == boxMax.z - c.z
      ensures boxMin.x <= boxMax.x && boxMin.y <= boxMax.y && boxMin.z <= boxMax.z ==>
                boxMin.x <= c.x <= boxMax.x && boxMin.y <= c.y <= boxMax.y && boxMin.z <= c.z <= boxMax.z
    {
      Midpoint(boxMin, boxMax)
    }

    /** Mesh::setTransform: only the transform changes. */
    method SetTransform(m: Mat4)
      modifies this`transform
      ensures transform == m
    {
      transform := m;
    }

    /** Mesh::getBoundingBox and Mesh::getBoundingRadius: the stored box and radius. */
    function GetBoundingBox(): (Vec3, Vec3)
      reads this
    {
      (boxMin, boxMax)
    }

    function GetBoundingRadius(): real
      reads this
    {
      radius
    }

    /**
     * Mesh::loadFromPLY: a failed read returns before any field changes;
     * otherwise the buffers, counts, box and radius all come from the file.
     */
    method LoadFromPly(file: Option<seq<string>>) returns (ok: bool)
      requires Valid()
      requires file.Some? ==> !ParsePly(file.value).IndexOutOfRange?
      modifies this
      ensures Valid()
      ensures ok <==> file.Some? && ParsePly(file.value).Loaded?
      ensures !ok ==> unchanged(this)
      ensures ok ==>
        var d := ParsePly(file.value).data;
        && transform == old(transform)
        && Uploaded(d.vertices, d.faces)
        && BoxOf(d.vertices)
    {
      var loader := new PlyLoader();
      ok := loader.LoadPly(file);
      if !ok {
        return false;
      }
      UploadData(loader);
      CalculateBoundingBox(loader);
    }

    /** The buffers hold the copied vertices and the fan-triangulated faces, and the counts their sizes. */
    ghost predicate Uploaded(vs: seq<Vertex>, faces: seq<Face>)
      reads this
    {
      && vertexCount == |vs|
      && |vertexBuffer| == |vs|
      && (forall i :: 0 <= i < |vs| ==> vertexBuffer[i] == ToVertexData(vs[i]))
      && indexBuffer == UInt32s(FanIndices(faces))
      && indexCount == |indexBuffer|
    }

    /**
     * The box and radius describe the vertices: zeros without vertices,
     * otherwise the tight componentwise box; the radius is the largest
     * distance from the box centre to a vertex, and 0 or more.
     */
    ghost predicate BoxOf(vs: seq<Vertex>)
      reads this
    {
      && (vs == [] ==> boxMin == Zero3 && boxMax == Zero3)
      && (vs != [] ==> Encloses(vs, boxMin, boxMax) && Attained(vs, boxMin, boxMax))
      && 0.0 <= radius
      && (forall i :: 0 <= i < |vs| ==> Distance(vs[i], GetCenter()) <= radius)
      && (radius == 0.0 || exists i :: 0 <= i < |vs| && radius == Distance(vs[i], GetCenter()))
    }

    /** Mesh::uploadData, without the buffer layout: counts and buffer contents. */
    method UploadData(loader: PlyLoader)
      modifies this`vertexCount, this`vertexBuffer, this`indexBuffer, this`indexCount
      ensures Uploaded(loader.vertices, loader.faces)
    {
      vertexCount := |loader.vertices|;
      var data := CopyVertices(loader.vertices);
      var indices := Triangulate(loader.faces);
      indexCount := |indices|;
      vertexBuffer := data;
      indexBuffer := indices;
    }

    /** Mesh::calculateBoundingBox: the loader's box, then the radius around its centre. */
    method CalculateBoundingBox(loader: PlyLoader)
      modifies this`boxMin, this`boxMax, this`radius
      ensures BoxOf(loader.vertices)
    {
      boxMin, boxMax := loader.CalculateBoundingBox();
      var center := GetCenter();
      radius := MaxDistance(loader.vertices, center);
    }
  }

  /** The box the loader computes is ordered: every lower corner component is at most the upper one. */
  lemma EnclosingBoxOrdered(vs: seq<Vertex>, lo: Vec3, hi: Vec3)
    requires vs != [] && Encloses(vs, lo, hi)
    ensures lo.x <= hi.x && lo.y <= hi.y && lo.z <= hi.z
  {
    assert lo.x <= vs[0].position.x <= hi.x;
  }
}

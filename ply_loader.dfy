/**
 * PLYLoader: the reader object. Its two lists are fields that the parsing
 * methods clear and append to, as the reader does; each method is proved to
 * leave exactly the state the functions of module PlyFormat describe, on
 * success and on every failure path.
 */
module PlyLoading {
  import opened Wrappers
  import opened Geometry
  import opened PlyText
  import opened PlyFormat

  /** Every vertex position lies within [lo, hi], componentwise. */
  ghost predicate Encloses(vs: seq<Vertex>, lo: Vec3, hi: Vec3) {
    forall i :: 0 <= i < |vs| ==>
      && lo.x <= vs[i].position.x <= hi.x
      && lo.y <= vs[i].position.y <= hi.y
      && lo.z <= vs[i].position.z <= hi.z
  }

  /** Each component of lo and of hi is the coordinate of some vertex. */
  ghost predicate Attained(vs: seq<Vertex>, lo: Vec3, hi: Vec3) {
    && (exists i :: 0 <= i < |vs| && vs[i].position.x == lo.x)
    && (exists i :: 0 <= i < |vs| && vs[i].position.y == lo.y)
    && (exists i :: 0 <= i < |vs| && vs[i].position.z == lo.z)
    && (exists i :: 0 <= i < |vs| && vs[i].position.x == hi.x)
    && (exists i :: 0 <= i < |vs| && vs[i].position.y == hi.y)
    && (exists i :: 0 <= i < |vs| && vs[i].position.z == hi.z)
  }

  class PlyLoader {
    var vertices: seq<Vertex>
    var faces: seq<Face>

    constructor()
      ensures vertices == [] && faces == []
    {
      vertices := [];
      faces := [];
    }

    /**
     * PLYLoader::loadPLY. `file` is the file's lines, or None when it cannot
     * be opened. A file whose faces index outside the vertex list while
     * normals must be derived is excluded: the reader then reads and writes
     * out of bounds.
     */
    method LoadPly(file: Option<seq<string>>) returns (ok: bool)
      requires file.Some? ==> !ParsePly(file.value).IndexOutOfRange?
      modifies this
      ensures file.None? ==> !ok && vertices == old(vertices) && faces == old(faces)
      ensures file.Some? ==> (ok <==> ParsePly(file.value).Loaded?)
      ensures ok ==> vertices == ParsePly(file.value).data.vertices && faces == ParsePly(file.value).data.faces
    {
      if file.None? {
        return false;
      }
      ok := ParseHeader(file.value);
    }

    /**
     * PLYLoader::parseHeader, which reads the whole file: the two literal
     * lines, the header loop, the two blocks and, without declared normals,
     * the normal derivation. A failure leaves the lists as far as the reader
     * got: untouched when a literal line is wrong, the vertex prefix when the
     * vertex block fails, both new lists when the face block fails.
     */
    method ParseHeader(lines: seq<string>) returns (ok: bool)
      requires !ParsePly(lines).IndexOutOfRange?
      modifies this
      ensures ok <==> ParsePly(lines).Loaded?
      ensures ok ==> vertices == ParsePly(lines).data.vertices && faces == ParsePly(lines).data.faces
      ensures LineAt(lines, 0) != MagicLine || LineAt(lines, 1) != FormatLine ==>
                vertices == old(vertices) && faces == old(faces)
      ensures LineAt(lines, 0) == MagicLine && LineAt(lines, 1) == FormatLine
              && !VertexBlock(lines, VertexStart(lines), HeaderOf(lines).vertexCount).ok ==>
                vertices == VertexBlock(lines, VertexStart(lines), HeaderOf(lines).vertexCount).items
                && faces == old(faces)
      ensures LineAt(lines, 0) == MagicLine && LineAt(lines, 1) == FormatLine
              && VertexBlock(lines, VertexStart(lines), HeaderOf(lines).vertexCount).ok
              && !FaceBlock(lines, FaceStart(lines), HeaderOf(lines).faceCount).ok ==>
                vertices == VertexBlock(lines, VertexStart(lines), HeaderOf(lines).vertexCount).items
                && faces == FaceBlock(lines, FaceStart(lines), HeaderOf(lines).faceCount).items
    {
      var line := LineAt(lines, 0);
      if line != "ply" {
        ParsePlyBadLiteral(lines);
        return false;
      }
      line := LineAt(lines, 1);
      if line != "format ascii 1.0" {
        ParsePlyBadLiteral(lines);
        return false;
      }

      var h, p := ReadHeaderLines(lines);
      assert HeaderOf(lines) == h && VertexStart(lines) == p;
      ParsePlyFromBlocks(lines, h, p, VertexBlock(lines, p, h.vertexCount),
                         FaceBlock(lines, FaceStart(lines), h.faceCount));
      ok := ReadData(lines, p, FaceStart(lines), h);
    }

    /**
     * The rest of PLYLoader::parseHeader, after `end_header`: the vertex
     * block from line p, the face block from line q just after it, and the
     * normal derivation when the header declares no normals.
     */
    method ReadData(lines: seq<string>, p: nat, q: nat, h: Header) returns (ok: bool)
      requires q == p + Count(h.vertexCount)
      requires var vb, fb := VertexBlock(lines, p, h.vertexCount), FaceBlock(lines, q, h.faceCount);
               vb.ok && fb.ok && !h.hasNormals ==> FacesInRange(fb.items, |vb.items|)
      modifies this
      ensures var vb, fb := VertexBlock(lines, p, h.vertexCount), FaceBlock(lines, q, h.faceCount);
              && (ok <==> vb.ok && fb.ok)
              && vertices == (if ok && !h.hasNormals then WithNormals(vb.items, DerivedNormals(vb.items, fb.items)) else vb.items)
              && faces == (if vb.ok then fb.items else old(faces))
    {
      ghost var vb := VertexBlock(lines, p, h.vertexCount);
      ghost var fb := FaceBlock(lines, q, h.faceCount);
      var next;
      ok, next := ParseVertexData(lines, p, h.vertexCount);
      if !ok {
        return false;
      }
      assert next == q;
      ok, next := ParseFaceData(lines, next, h.faceCount);
      if !ok {
        return false;
      }
      if !h.hasNormals {
        CalculateNormals();
      }
    }

    /**
     * PLYLoader::parseVertexData from line p: clears the list, then appends
     * one vertex per line; the result is the vertex block, also on failure.
     */
    method ParseVertexData(lines: seq<string>, p: nat, vertexCount: int) returns (ok: bool, next: nat)
      modifies this`vertices
      ensures vertices == VertexBlock(lines, p, vertexCount).items && ok == VertexBlock(lines, p, vertexCount).ok
      ensures ok ==> next == p + Count(vertexCount)
    {
      vertices := [];
      next := p;
      ghost var block := VertexBlock(lines, p, vertexCount);
      var i := 0;
      while i < vertexCount
        invariant 0 <= i <= Count(vertexCount) && next == p + i
        invariant i <= |block.items| && vertices == block.items[..i]
        decreases vertexCount - i
      {
        if next >= |lines| {
          VertexBlockStop(lines, p, vertexCount, i, next);
          return false, next;
        }
        var parts := Tokens(lines[next]);
        if |parts| < 3 {
          VertexBlockStop(lines, p, vertexCount, i, next);
          return false, next;
        }
        var vertex := VertexFromTokens(parts);
        VertexBlockNext(lines, p, vertexCount, i, next);
        vertices := vertices + [vertex];
        next := next + 1;
        i := i + 1;
      }
      VertexBlockEnd(lines, p, vertexCount);
      ok := true;
    }

    /**
     * PLYLoader::parseFaceData from line p: clears the list, then appends one
     * face per line, the indices collected by the inner loop; the result is
     * the face block, also on failure.
     */
    method ParseFaceData(lines: seq<string>, p: nat, faceCount: int) returns (ok: bool, next: nat)
      modifies this`faces
      ensures faces == FaceBlock(lines, p, faceCount).items && ok == FaceBlock(lines, p, faceCount).ok
      ensures ok ==> next == p + Count(faceCount)
    {
      faces := [];
      next := p;
      ghost var block := FaceBlock(lines, p, faceCount);
      var i := 0;
      while i < faceCount
        invariant 0 <= i <= Count(faceCount) && next == p + i
        invariant i <= |block.items| && faces == block.items[..i]
        decreases faceCount - i
      {
        if next >= |lines| {
          FaceBlockStop(lines, p, faceCount, i, next);
          return false, next;
        }
        var parts := Tokens(lines[next]);
        var parsed := ParseFaceLine(parts);
        if parsed.None? {
          FaceBlockStop(lines, p, faceCount, i, next);
          return false, next;
        }
        var face := parsed.value;
        FaceBlockNext(lines, p, faceCount, i, next, face);
        faces := faces + [face];
        next := next + 1;
        i := i + 1;
      }
      FaceBlockEnd(lines, p, faceCount);
      ok := true;
    }

    /**
     * PLYLoader::calculateBoundingBox: the componentwise minimum and maximum
     * of the positions, or two zero vectors without vertices.
     */
    method CalculateBoundingBox() returns (min: Vec3, max: Vec3)
      ensures vertices == [] ==> min == Zero3 && max == Zero3
      ensures vertices != [] ==> Encloses(vertices, min, max) && Attained(vertices, min, max)
    {
      if |vertices| == 0 {
        return Zero3, Zero3;
      }
      min, max := vertices[0].position, vertices[0].position;
      ghost var x0, y0, z0, x1, y1, z1 := 0, 0, 0, 0, 0, 0;
      var i := 0;
      while i < |vertices|
        invariant 0 <= i <= |vertices|
        invariant Encloses(vertices[..i], min, max)
        invariant 0 <= x0 < |vertices| && vertices[x0].position.x == min.x
        invariant 0 <= y0 < |vertices| && vertices[y0].position.y == min.y
        invariant 0 <= z0 < |vertices| && vertices[z0].position.z == min.z
        invariant 0 <= x1 < |vertices| && vertices[x1].position.x == max.x
        invariant 0 <= y1 < |vertices| && vertices[y1].position.y == max.y
        invariant 0 <= z1 < |vertices| && vertices[z1].position.z == max.z
      {
        var v := vertices[i].position;
        if v.x < min.x { x0 := i; }
        if v.y < min.y { y0 := i; }
        if v.z < min.z { z0 := i; }
        if max.x < v.x { x1 := i; }
        if max.y < v.y { y1 := i; }
        if max.z < v.z { z1 := i; }
        min := Vec3(QMin(min.x, v.x), QMin(min.y, v.y), QMin(min.z, v.z));
        max := Vec3(QMax(max.x, v.x), QMax(max.y, v.y), QMax(max.z, v.z));
        assert vertices[..i + 1] == vertices[..i] + [vertices[i]];
        i := i + 1;
      }
      assert vertices[..i] == vertices;
    }

    /**
     * PLYLoader::calculateNormals: zero every normal, add each face's normal
     * (faces of at least 3 indices) to every vertex it lists, then normalise.
     * Every index must be in range.
     */
    method CalculateNormals()
      requires FacesInRange(faces, |vertices|)
      modifies this`vertices
      ensures vertices == WithNormals(old(vertices), DerivedNormals(old(vertices), faces))
    {
      ghost var original := vertices;
      ghost var ps := Positions(original);
      var i := 0;
      while i < |vertices|
        invariant 0 <= i <= |vertices| == |original|
        invariant forall j :: 0 <= j < |vertices| ==>
                    vertices[j] == original[j].(normal := if j < i then Zero3 else original[j].normal)
      {
        vertices := vertices[i := vertices[i].(normal := Zero3)];
        i := i + 1;
      }
      assert SameButNormals(vertices, original, Zeros(|original|));

      var f := 0;
      while f < |faces|
        invariant 0 <= f <= |faces| && |vertices| == |original|
        invariant FacesInRange(faces[..f], |ps|)
        invariant SameButNormals(vertices, original, AccumulateFaces(ps, Zeros(|ps|), faces[..f]))
      {
        ghost var accBefore := AccumulateFaces(ps, Zeros(|ps|), faces[..f]);
        assert faces[..f + 1][..f] == faces[..f];
        assert faces[..f + 1][f] == faces[f];
        assert FaceInRange(faces[f], |ps|);
        assert FacesInRange(faces[..f + 1], |ps|);
        var idx := faces[f].indices;
        if |idx| >= 3 {
          var faceNormal := FaceNormal(Positions(vertices), idx);
          assert Positions(vertices) == ps;
          AddFaceNormal(original, accBefore, idx, faceNormal);
        }
        f := f + 1;
      }
      assert faces[..f] == faces;

      ghost var acc := AccumulateFaces(ps, Zeros(|ps|), faces);
      i := 0;
      while i < |vertices|
        invariant 0 <= i <= |vertices| == |original|
        invariant forall j :: 0 <= j < |vertices| ==>
                    vertices[j] == original[j].(normal := if j < i then Normalized(acc[j]) else acc[j])
      {
        vertices := vertices[i := vertices[i].(normal := Normalized(vertices[i].normal))];
        i := i + 1;
      }
    }

    /**
     * The inner loop of PLYLoader::calculateNormals: adds the face normal to
     * the normal of every vertex the face lists, in order.
     */
    method AddFaceNormal(ghost original: seq<Vertex>, ghost acc: seq<Vec3>, idx: seq<int>, faceNormal: Vec3)
      requires SameButNormals(vertices, original, acc) && IndicesBelow(idx, |acc|)
      modifies this`vertices
      ensures SameButNormals(vertices, original, AddToEach(acc, idx, faceNormal))
    {
      var k := 0;
      while k < |idx|
        invariant 0 <= k <= |idx| && |vertices| == |original|
        invariant SameButNormals(vertices, original, AddToEach(acc, idx[..k], faceNormal))
      {
        assert idx[..k + 1][..k] == idx[..k];
        var vi := idx[k];
        vertices := vertices[vi := vertices[vi].(normal := Add(vertices[vi].normal, faceNormal))];
        k := k + 1;
      }
      assert idx[..k] == idx;
    }
  }

  /**
   * The header loop of PLYLoader::parseHeader, from line 2: the counts and
   * the flags it leaves, and the line after the one that stopped it.
   */
  method ReadHeaderLines(lines: seq<string>) returns (h: Header, p: nat)
    requires |lines| >= 2
    ensures HeaderScan(h, p) == ScanHeader(HeaderLines(lines), 2, EmptyHeader)
  {
    var vertexCount, faceCount := 0, 0;
    var hasNormals, hasColors, hasTexCoords := false, false, false;
    ghost var ls := HeaderLines(lines);
    ghost var scan := ScanHeader(ls, 2, EmptyHeader);
    p := 2;
    while p < |lines|
      invariant 2 <= p <= |lines|
      invariant ScanHeader(ls, p, Header(vertexCount, faceCount, hasNormals, hasColors, hasTexCoords)) == scan
      decreases |lines| - p
    {
      ghost var before := Header(vertexCount, faceCount, hasNormals, hasColors, hasTexCoords);
      var line := Trim(lines[p]);
      HeaderLinesAt(lines, p);
      p := p + 1;
      if StartsWith(line, "element vertex") {
        vertexCount := ParseInt(Last(SplitSpace(line)));
      } else if StartsWith(line, "element face") {
        faceCount := ParseInt(Last(SplitSpace(line)));
      } else if StartsWith(line, "property") {
        var parts := SplitSpace(line);
        if |parts| >= 3 {
          if parts[2] == "nx" || parts[2] == "ny" || parts[2] == "nz" {
            hasNormals := true;
          } else if parts[2] == "red" || parts[2] == "green" || parts[2] == "blue" || parts[2] == "alpha" {
            hasColors := true;
          } else if parts[2] == "s" || parts[2] == "t" {
            hasTexCoords := true;
          }
        }
      } else if line == "end_header" {
        assert scan == HeaderScan(before, p);
        break;
      }
      assert Header(vertexCount, faceCount, hasNormals, hasColors, hasTexCoords)
          == ApplyHeaderLine(before, ClassifyHeaderLine(line));
    }
    h := Header(vertexCount, faceCount, hasNormals, hasColors, hasTexCoords);
  }

  /**
   * One face line of PLYLoader::parseFaceData: the count, the indices
   * collected by the inner loop, the colour; None where the reader gives up,
   * and where its colour read would start before the first token.
   */
  method ParseFaceLine(parts: seq<string>) returns (face: Option<Face>)
    requires |parts| >= 1
    ensures face == FaceFromTokens(parts)
  {
    var vertexCount := ParseInt(parts[0]);
    assert vertexCount == FaceArity(parts);
    if |parts| < 1 + vertexCount {
      return None;
    }
    ghost var n := if vertexCount < 0 then 0 else vertexCount;
    var indices := [];
    var j := 0;
    while j < vertexCount
      invariant 0 <= j <= n
      invariant |indices| == j && forall m :: 0 <= m < j ==> indices[m] == ParseInt(parts[1 + m])
    {
      indices := indices + [ParseInt(parts[1 + j])];
      j := j + 1;
    }
    assert j == n && indices == FaceIndices(parts, n);
    var color := Gray;
    if |parts| >= 1 + vertexCount + 3 {
      if 1 + vertexCount < 0 {
        // parseColor would read parts[1 + vertexCount], before the first token
        return None;
      }
      color := ParseColor(parts, 1 + vertexCount);
    }
    assert !ColorReadBeforeFirstToken(parts);
    FaceLineResult(parts, indices, color);
    face := Some(Face(indices, color));
  }

  /** vs is base with the normals ns and every other field kept. */
  ghost predicate SameButNormals(vs: seq<Vertex>, base: seq<Vertex>, ns: seq<Vec3>) {
    |vs| == |base| == |ns| && forall j :: 0 <= j < |vs| ==> vs[j] == base[j].(normal := ns[j])
  }
}

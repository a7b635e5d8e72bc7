# CM_3DEditor core in Dafny

This project models the core of CM_3DEditor, a Qt/OpenGL viewer for ASCII PLY meshes. It has four parts:

- **PLY reader** (`PLYLoader`). The two literal lines, the header scan (counts and attribute flags), the counted vertex and face blocks, the numeric conversions with their zero fallback, the bounding box, and the accumulated vertex normals.
- **Mesh preparation** (`Mesh`). The one-to-one vertex copy, fan triangulation into a flat unsigned index array, the bounding box, centre and radius, the `hasData` guard of the three draw methods, and `loadFromPLY`, which changes nothing when loading fails.
- **Camera** (`Camera`). Position, target and up vector, projection settings, the snapshot `reset` returns to, and the lazily recomputed view and projection caches with their dirty flags.
- **Renderer** (`Renderer`). The configuration state machine: the setters, a one-time `initialize`, `resize`, the `render` guard, the choice of shader program by render mode, the per-mode uniforms, and `cleanup`.

The files, in dependency order:

- `wrappers.dfy`: `Option`.
- `geometry.dfy`: vectors, 4x4 matrices, and `qMin`/`qMax`/`qBound`. The floating-point helpers are uninterpreted functions: `normalized`, `length`, the trigonometric functions, `lookAt`, `perspective` and `ortho`.
- `ply_text.dfy`: trimming, the two tokenisers, `QString::toInt`, and `parseInt`/`parseFloat`. It also holds a printer for integers and joined lines, which is the partner of the tokeniser and of `toInt`.
- `ply_format.dfy`: the pure specification of a PLY file. It covers records, the header scan, the blocks, normals, and the whole-file outcome `ParsePly`.
- `ply_loader.dfy`: the `PlyLoader` class. Its methods are loops proved against `ply_format.dfy`.
- `mesh.dfy`: the `Mesh` class, the index and vertex loops, and the radius loop.
- `camera.dfy`: the `Camera` class.
- `renderer.dfy`: the `Renderer` class. Everything it sends to OpenGL or to a shader program goes into an event log.

How the environment is represented:

- The PLY file is its sequence of lines. A missing file is `None`.
- `readLine` past the end gives the empty line (`LineAt`).
- Coordinates are `real`.
- Shader programs are opaque tokens. The results of the shader factories are parameters of `Initialize`.
- OpenGL calls and uniform settings are events.

Behaviour of the code worth noting:

- A face line with a negative count is accepted as a face with no indices, unless the reader would read its colour before the first token.
- Faces with fewer than 3 indices are accepted by the reader. They are skipped later, by normal accumulation and by triangulation.
- A missing `end_header` is not an error.
- `trimmed` and `toInt` treat every Unicode space (`QChar::isSpace`) as whitespace. The data-line splitter `\\s+` and the header splitter `" "` use only the ASCII ones.
- A vertex colour is read when 3 tokens remain, not 4. The cursor then advances by 4.
- Texture coordinates are read when 2 tokens remain after the cursor. This includes the 5-token and 8-token cases.
- `setDistance` applies no lower bound. Only `zoom` does.
- There is no fallback program when the mode's program is null. Nothing is drawn.
- `render` does not even clear the screen unless it is initialised with a mesh and a camera bound.
- A loader whose parse failed keeps what it had read up to the failure. The mesh, however, installs nothing.

## Model

| member | source | states |
|---|---|---|
| PlyText.Trim | CM_3DEditor/PLYLoader.cpp:56 | Trimming never lengthens a line. |
| PlyText.TrimSpec | CM_3DEditor/PLYLoader.cpp:56 | The trimmed line is the slice s[a..b] where everything before a and from b on is whitespace in the `QChar::isSpace` sense (Unicode spaces such as U+00A0 and U+3000 included), and the slice itself neither starts nor ends with whitespace. |
| PlyText.ToInt | CM_3DEditor/PLYLoader.cpp:213 | A converted value always fits a 32-bit int. |
| PlyText.ToIntSpec | CM_3DEditor/PLYLoader.cpp:213 | `toInt` succeeds exactly on texts that trim to an optional `-` or `+` followed by at least one decimal digit, whose value fits a 32-bit int; the result is that value, negated after `-`. Every other text fails. |
| PlyText.ParseInt | CM_3DEditor/PLYLoader.cpp:210-215 | Returns the conversion when it succeeds and 0 otherwise, always within 32-bit range. |
| PlyText.ParseFloat | CM_3DEditor/PLYLoader.cpp:203-208 | Returns the conversion when it succeeds and 0 otherwise. |
| PlyText.IntRoundTrip | CM_3DEditor/PLYLoader.cpp:210-215 | Every 32-bit integer, printed in decimal, converts back to itself through `toInt` and `parseInt`. |
| PlyText.DigitsRoundTrip | CM_3DEditor/PLYLoader.cpp:213 | The value of the decimal digits of n is n. |
| PlyText.TokensOfJoin | CM_3DEditor/PLYLoader.cpp:113-114 | Tokenising a line of non-empty, space-free tokens joined by spaces gives back exactly those tokens. |
| PlyText.SplitJoin | CM_3DEditor/PLYLoader.cpp:114 | Splitting on whitespace runs inverts joining with single spaces. |
| PlyText.SplitWsWord | CM_3DEditor/PLYLoader.cpp:114 | Characters free of whitespace are collected into the current token. |
| PlyText.Tokens | CM_3DEditor/PLYLoader.cpp:113-114 | A trimmed data line split on whitespace runs always has at least one token; the empty line gives one empty token. |
| PlyText.SplitSpace | CM_3DEditor/PLYLoader.cpp:59 | Splitting on single spaces always gives at least one part, keeping empty parts. |
| PlyText.SplitSpaceJoin | CM_3DEditor/PLYLoader.cpp:59-65 | Splitting on single spaces inverts joining space-free parts with single spaces. |
| PlyText.JoinStartsWith | CM_3DEditor/PLYLoader.cpp:113 | A joined line of non-empty tokens has no whitespace at either end. |
| PlyText.TrimNoSpace | CM_3DEditor/PLYLoader.cpp:113 | A line with no whitespace at either end is its own trimmed form. |
| PlyText.ToIntOfDigits | CM_3DEditor/PLYLoader.cpp:213 | A digit string converts as an unsigned decimal. |
| PlyText.ToIntOfNegative | CM_3DEditor/PLYLoader.cpp:213 | A minus sign followed by digits converts as a negative decimal. |
| PlyText.ToIntOfPlus | CM_3DEditor/PLYLoader.cpp:213 | A plus sign followed by digits converts as an unsigned decimal. |
| PlyText.ToIntAcceptsPlus | CM_3DEditor/PLYLoader.cpp:213 | "+7" converts to 7. |
| PlyText.ToIntTrimsUnicodeSpace | CM_3DEditor/PLYLoader.cpp:213 | "3" followed by a no-break space (U+00A0) converts to 3. |
| PlyText.ToIntRejectsExponent | CM_3DEditor/PLYLoader.cpp:210-215 | "1e3" does not convert, so parseInt gives 0. |
| PlyFormat.MakeColor | CM_3DEditor/PLYLoader.cpp:232 | The colour is valid iff all four channels are in 0..255, and then carries exactly those channels. |
| PlyFormat.ParseColor | CM_3DEditor/PLYLoader.cpp:217-233 | Gray (128,128,128,255) when fewer than 3 tokens start at the index. Otherwise the colour of the three parsed tokens, with alpha from a 4th token or 255. |
| PlyFormat.VertexFromTokens | CM_3DEditor/PLYLoader.cpp:121-150 | Fields are chosen by token count alone. The position is tokens 0-2. A normal is read iff there are at least 6 tokens. A colour from token 6 is read iff at least 9, else gray. Texture coordinates come from tokens 3-4 with 5 tokens, 6-7 with 8, and 10-11 with 12 or more, else zero. |
| PlyFormat.FaceFromTokens | CM_3DEditor/PLYLoader.cpp:172-197 | A face exists iff the line has a first token k = parseInt(it), at least 1+k tokens, and the colour read would not start before the first token (k <= -3, or k = -2 on a line of two or more tokens). Its indices are the next max(k, 0) parsed tokens, in order, with no range check. Its colour is parseColor at 1+k when 3 tokens exist from there, and gray otherwise. |
| PlyFormat.FaceLineResult | CM_3DEditor/PLYLoader.cpp:177-197 | An accepted face line gives the face of its counted indices and its colour. |
| PlyFormat.NegativeArityFaces | CM_3DEditor/PLYLoader.cpp:178-195 | "-1" and "-2" give a gray face with no indices. "-1 7 7" gives a face with no indices and the invalid colour that parseColor reads from tokens 0-2. |
| PlyFormat.FaceRuleAgreesWithWrittenGuards | CM_3DEditor/PLYLoader.cpp:180-192 | Below INT_MAX, the face rule accepts exactly the lines that pass the guard as written and whose written colour test does not send parseColor before the first token. |
| PlyFormat.Wrap32 | CM_3DEditor/PLYLoader.cpp:180 | 32-bit wrap-around of an int sum: in range, the identity on in-range values, and off by at most 2^32. |
| PlyFormat.NegativeArityReadsBeforeFirstToken | CM_3DEditor/PLYLoader.cpp:178-192 | The face line "-3" passes both guards as written, because 1+k = -2, so parseColor would read before the first token. The face rule rejects it. |
| PlyFormat.MaxArityOverflowsGuard | CM_3DEditor/PLYLoader.cpp:178-183 | For the face line "2147483647", 1+k wraps to INT_MIN, so the guard as written passes. The face rule counts 1+k exactly and rejects it. |
| PlyFormat.IntMaxText | CM_3DEditor/PLYLoader.cpp:178 | The decimal text of INT_MAX is "2147483647". |
| PlyFormat.ParseIntOfText | CM_3DEditor/PLYLoader.cpp:178 | parseInt of the decimal text of a 32-bit integer is that integer. |
| PlyFormat.ClassifyHeaderLine | CM_3DEditor/PLYLoader.cpp:56-80 | A trimmed header line is a vertex element iff it starts with `element vertex`, a face element iff it starts with `element face`, a property iff it starts with `property`, and the end iff it is `end_header`. An element count is toInt of its last space-separated token. A property names an attribute iff it has at least 3 parts. |
| PlyFormat.ApplyHeaderLine | CM_3DEditor/PLYLoader.cpp:58-76 | Only an element line changes its count, to the declared value. No line clears a flag. |
| PlyFormat.HeaderLinesAt | CM_3DEditor/PLYLoader.cpp:56 | The classified line q is line q, trimmed and classified. |
| PlyFormat.ScanHeader | CM_3DEditor/PLYLoader.cpp:55-81 | The header scan over the classified lines never moves backwards. |
| PlyFormat.HeaderEnd | CM_3DEditor/PLYLoader.cpp:78-80 | Gives the first trimmed `end_header` line at or after the start, or the end of the stream. |
| PlyFormat.ScanHeaderStops | CM_3DEditor/PLYLoader.cpp:55-81 | The data blocks start just after the first `end_header`, or at end of stream when there is none (not a failure). |
| PlyFormat.ScanHeaderFlag | CM_3DEditor/PLYLoader.cpp:64-76 | Each attribute flag is set iff some header line before `end_header` is a `property` line whose third space-separated token names that attribute (nx/ny/nz, red/green/blue/alpha, s/t). |
| PlyFormat.ApplyHeaderLineFlag | CM_3DEditor/PLYLoader.cpp:64-76 | One header line sets a flag iff it declares that attribute; it never clears one. |
| PlyFormat.ApplyHeaderLineCount | CM_3DEditor/PLYLoader.cpp:58-63 | An `element vertex`/`element face` line sets its count to toInt of its last space-separated token (0 on failure). Other lines keep it. |
| PlyFormat.ScanHeaderUndeclared | CM_3DEditor/PLYLoader.cpp:48-63 | A count never declared in the header stays at its initial value. |
| PlyFormat.ScanHeaderLastDeclared | CM_3DEditor/PLYLoader.cpp:58-63 | With several declarations of a count, the last one before `end_header` wins. |
| PlyFormat.ReadBlockSpec | CM_3DEditor/PLYLoader.cpp:104-118 | A counted block succeeds iff every one of its lines is a valid record. On success it holds exactly max(n, 0) records, in line order. On failure it holds the records before the first bad line. |
| PlyFormat.BlockStop | CM_3DEditor/PLYLoader.cpp:107-119 | After i records, a line that gives no record ends the block in failure with exactly those i records. |
| PlyFormat.BlockNext | CM_3DEditor/PLYLoader.cpp:107-153 | After i records, a line that gives a record makes it record i of the block. |
| PlyFormat.BlockEnd | CM_3DEditor/PLYLoader.cpp:107-155 | Once max(n, 0) records are read, the block is complete and holds exactly them. |
| PlyFormat.VertexBlockStop | CM_3DEditor/PLYLoader.cpp:108-119 | A missing line or one with fewer than 3 tokens ends the vertex block, failed, with the vertices read so far. |
| PlyFormat.VertexBlockNext | CM_3DEditor/PLYLoader.cpp:113-152 | A line of at least 3 tokens gives the next vertex of the block. |
| PlyFormat.FaceBlockStop | CM_3DEditor/PLYLoader.cpp:164-183 | A missing line or one the face rule rejects ends the face block, failed, with the faces read so far. |
| PlyFormat.FaceBlockNext | CM_3DEditor/PLYLoader.cpp:169-197 | A line the face rule accepts gives the next face of the block. |
| PlyFormat.FaceIndices | CM_3DEditor/PLYLoader.cpp:186-188 | The k indices are the parsed tokens 1 to k, in order. |
| PlyFormat.Positions | CM_3DEditor/PLYLoader.cpp:267-269 | The positions of the vertices, in order. |
| PlyFormat.FaceNormalSpec | CM_3DEditor/PLYLoader.cpp:267-274 | The face normal is the normalisation of a direction orthogonal to both edges v1 - v0 and v2 - v0. Only the first three indices matter. |
| PlyFormat.AddToEach | CM_3DEditor/PLYLoader.cpp:277-279 | Adding a face normal to each listed vertex keeps the number of normals. |
| PlyFormat.AccumulateFaces | CM_3DEditor/PLYLoader.cpp:263-280 | Accumulating all faces keeps the number of normals. |
| PlyFormat.AddToEachAt | CM_3DEditor/PLYLoader.cpp:277-279 | A vertex receives the face normal once per occurrence of its index in the face. |
| PlyFormat.AccumulateFacesAt | CM_3DEditor/PLYLoader.cpp:263-280 | Each vertex's accumulated normal is its start value plus the independent sum over faces of at least 3 indices of face normal times occurrences. Faces with fewer than 3 indices are skipped. |
| PlyFormat.Zeros | CM_3DEditor/PLYLoader.cpp:258-260 | All normals are first zero. |
| PlyFormat.DerivedNormals | CM_3DEditor/PLYLoader.cpp:255-286 | One derived normal per vertex. |
| PlyFormat.WithNormals | CM_3DEditor/PLYLoader.cpp:283-285 | Replaces each vertex's normal and nothing else. |
| PlyFormat.DerivedNormalIsFaceSum | CM_3DEditor/PLYLoader.cpp:255-286 | Vertex i's derived normal is the normalisation of the sum, over faces of at least 3 indices, of the normalised cross product of the face's first two edges, counted once per time the face lists i. |
| PlyFormat.ParsePlyCounts | CM_3DEditor/PLYLoader.cpp:34-100 | A loaded file starts with the literal lines `ply` and `format ascii 1.0`. It has exactly max(vertexCount, 0) vertices and max(faceCount, 0) faces as the header declares them. |
| PlyFormat.ParsePlyVertex | CM_3DEditor/PLYLoader.cpp:102-156 | Vertex i of a loaded file comes from data line i. Its position, colour and texture coordinates are that line's. Its normal is that line's when the header declared normals. |
| PlyFormat.ParsePlyFace | CM_3DEditor/PLYLoader.cpp:158-201 | Face i of a loaded file is the face of line i of the face block, which starts right after the vertex block. |
| PlyFormat.ParsePlyNormals | CM_3DEditor/PLYLoader.cpp:93-96 | Without a declared normal property, every face is in range, and each vertex's normal is the normalised face sum. |
| PlyFormat.ParsePlyRejected | CM_3DEditor/PLYLoader.cpp:34-91 | A file is rejected iff line 1 is not exactly `ply`, or line 2 is not exactly `format ascii 1.0` (untrimmed), or the vertex block has a missing line or one of fewer than 3 tokens, or the face block has a missing line or one the face rule rejects. |
| PlyFormat.ParsePlyBadLiteral | CM_3DEditor/PLYLoader.cpp:36-46 | A wrong `ply` or `format ascii 1.0` line rejects the file. |
| PlyFormat.ParsePlyFromBlocks | CM_3DEditor/PLYLoader.cpp:83-99 | With the literal lines right, the outcome follows the two blocks: a failed block rejects; otherwise the file loads with declared normals, or with derived normals when every face index is in range. |
| PlyFormat.ParsePly | CM_3DEditor/PLYLoader.cpp:34-100 | A file that is not rejected starts with the two literal lines. Out-of-range face indices can only arise when the header declares no normals. |
| PlyLoading.PlyLoader.constructor | CM_3DEditor/PLYLoader.cpp:6-8 | A new loader holds no vertices and no faces. |
| PlyLoading.PlyLoader.LoadPly | CM_3DEditor/PLYLoader.cpp:14-32 | A missing file fails and changes nothing. Otherwise it succeeds iff the lines load, and then the fields hold the parsed vertices and faces. |
| PlyLoading.PlyLoader.ParseHeader | CM_3DEditor/PLYLoader.cpp:34-100 | Succeeds iff the file loads, and then holds its data. A bad literal line leaves both lists as they were. A bad vertex block leaves the vertices read so far, and the old faces. A bad face block leaves the full vertex block and the faces read so far. |
| PlyLoading.ReadHeaderLines | CM_3DEditor/PLYLoader.cpp:48-81 | The header loop computes exactly the counts, flags and stopping line of the header scan. |
| PlyLoading.PlyLoader.ReadData | CM_3DEditor/PLYLoader.cpp:83-99 | After the header, succeeds iff both blocks succeed. The vertices are the vertex block, with derived normals on success without declared normals. The faces are the face block once the vertex block succeeded, and the old faces otherwise. |
| PlyLoading.PlyLoader.ParseVertexData | CM_3DEditor/PLYLoader.cpp:102-156 | The vertex list is cleared, and then holds exactly the vertex block of the lines from the cursor; the cursor advances by the count. |
| PlyLoading.PlyLoader.ParseFaceData | CM_3DEditor/PLYLoader.cpp:158-201 | The face list is cleared, and then holds exactly the face block; the cursor advances by the count. |
| PlyLoading.ParseFaceLine | CM_3DEditor/PLYLoader.cpp:177-197 | The face of one token list, read with the counted index loop (empty for a negative count), is exactly the one the face rule FaceFromTokens gives. |
| PlyLoading.PlyLoader.CalculateBoundingBox | CM_3DEditor/PLYLoader.cpp:235-253 | Zeros for no vertices. Otherwise every position lies within min and max componentwise, and each of the six bounds is attained by some vertex. |
| PlyLoading.PlyLoader.AddFaceNormal | CM_3DEditor/PLYLoader.cpp:276-279 | Adding one face normal to each listed vertex changes only those normals, as the reference accumulation does. |
| PlyLoading.PlyLoader.CalculateNormals | CM_3DEditor/PLYLoader.cpp:255-286 | With every face index in range, each vertex's normal becomes the derived normal and nothing else about the vertices changes. |
| MeshModel.ColorF | CM_3DEditor/Mesh.cpp:127 | A valid colour reduces to its red, green and blue channels over 255, each in [0, 1] for channels in 0..255. An invalid one reduces to zeros. |
| MeshModel.CopyVertices | CM_3DEditor/Mesh.cpp:117-130 | One record per vertex, in order. Position, normal and texture coordinates are kept, and the colour is reduced to r, g, b. |
| MeshModel.FanFromLength | CM_3DEditor/Mesh.cpp:139-143 | The fan from j has 3 entries per remaining triangle. |
| MeshModel.FanFromElement | CM_3DEditor/Mesh.cpp:139-143 | Triangle t of the fan from j is (i0, i(j+t), i(j+t+1)) at offset 3t. |
| MeshModel.FanOfFaceSpec | CM_3DEditor/Mesh.cpp:137-144 | A face of k >= 3 indices yields 3(k-2) entries, and its triangle t is (i0, i(t+1), i(t+2)) in increasing t. A smaller face yields nothing. |
| MeshModel.FanIndicesLength | CM_3DEditor/Mesh.cpp:136-147 | The index array length is the sum of 3(k-2) over faces with k >= 3. |
| MeshModel.FanIndicesPlacement | CM_3DEditor/Mesh.cpp:136-145 | Faces are emitted in input order. Face f's fan starts right after the fans of all earlier faces. |
| MeshModel.UInt32 | CM_3DEditor/Mesh.cpp:140-142 | An index stored as unsigned int lies in [0, 2^32) and is congruent to the int modulo 2^32. Values already in range are kept. |
| MeshModel.UInt32s | CM_3DEditor/Mesh.cpp:133-143 | Converts every index, keeping length and order. |
| MeshModel.UInt32sAppend | CM_3DEditor/Mesh.cpp:136-145 | Converting a concatenation converts each part. |
| MeshModel.FanTriangles | CM_3DEditor/Mesh.cpp:137-144 | The inner loop emits exactly the unsigned fan of one face. |
| MeshModel.Triangulate | CM_3DEditor/Mesh.cpp:133-145 | The index loop emits exactly the unsigned fans of all faces, in order. |
| MeshModel.MaxDistance | CM_3DEditor/Mesh.cpp:178-187 | The radius is at least 0 and at least every vertex's distance to the centre. It is a vertex's distance unless it is 0. |
| MeshModel.Mesh.constructor | CM_3DEditor/Mesh.cpp:13-17 | Zero counts and radius, empty buffers, identity transform. |
| MeshModel.Mesh.HasData | CM_3DEditor/Mesh.h:31 | While the counts describe the buffers, a mesh has data iff its vertex buffer is non-empty. |
| MeshModel.Mesh.GetCenter | CM_3DEditor/Mesh.cpp:84-87 | The centre is equidistant from both box corners in every coordinate, and lies inside an ordered box. |
| MeshModel.Mesh.Render | CM_3DEditor/Mesh.cpp:44-51 | No call without data. Otherwise bind, draw the index count as triangles, release. |
| MeshModel.Mesh.RenderWireframe | CM_3DEditor/Mesh.cpp:53-62 | No call without data. Otherwise the triangle draw inside line polygon mode, restored to fill afterwards. |
| MeshModel.Mesh.RenderPoints | CM_3DEditor/Mesh.cpp:64-71 | No call without data. Otherwise one point per vertex. |
| MeshModel.Mesh.SetTransform | CM_3DEditor/Mesh.cpp:39-42 | Only the transform changes. |
| MeshModel.Mesh.LoadFromPly | CM_3DEditor/Mesh.cpp:24-37 | Succeeds iff the file loads. On failure nothing in the mesh changes. On success the counts and buffers are the uploaded data, the box and radius describe the vertices, and the transform is kept. |
| MeshModel.Mesh.UploadData | CM_3DEditor/Mesh.cpp:112-147 | The vertex count is the loader's. The vertex buffer is the copied vertices and the index buffer the unsigned fans. The index count is the index array length. |
| MeshModel.Mesh.CalculateBoundingBox | CM_3DEditor/Mesh.cpp:173-188 | The box is the loader's tight box. The radius is the largest distance from the box centre to a vertex (0 with no vertices). |
| MeshModel.EnclosingBoxOrdered | CM_3DEditor/PLYLoader.cpp:242-252 | A box enclosing at least one vertex is ordered. |
| CameraModel.ZoomDistance | CM_3DEditor/Camera.cpp:110-120 | The zoom distance is max(0.1, d(1 - 0.1 delta)): at least 0.1, at least the scaled distance, and one of the two. |
| CameraModel.ZoomMonotone | CM_3DEditor/Camera.cpp:110-120 | A larger zoom delta never leaves the camera farther away. |
| CameraModel.ZoomByZero | CM_3DEditor/Camera.cpp:110-120 | A zero delta keeps a distance of at least 0.1 and lifts a smaller one to 0.1. |
| CameraModel.OrbitPolar | CM_3DEditor/Camera.cpp:80-84 | The new polar angle lies in [0.1, pi - 0.1]. It is the old angle plus 0.01 dy when that is in range, and the nearer bound otherwise. |
| CameraModel.TranslationKeepsOffset | CM_3DEditor/Camera.cpp:103-106 | Moving both ends by one offset keeps the vector between them. |
| CameraModel.Camera.constructor | CM_3DEditor/Camera.cpp:4-20 | Position (0,0,5), target 0, up (0,1,0), perspective, fov 45, aspect 1, near 0.1, far 1000. Both caches are dirty, and the snapshot equals position, target and up. |
| CameraModel.Camera.SetPosition | CM_3DEditor/Camera.cpp:22-26 | Changes only the position and sets only the view flag. The caches stay coherent. |
| CameraModel.Camera.SetTarget | CM_3DEditor/Camera.cpp:28-32 | Changes only the target and sets only the view flag. |
| CameraModel.Camera.SetUpVector | CM_3DEditor/Camera.cpp:34-38 | Stores the normalised up vector and sets only the view flag. |
| CameraModel.Camera.SetFov | CM_3DEditor/Camera.cpp:40-44 | Changes only the field of view and sets only the projection flag. |
| CameraModel.Camera.SetAspectRatio | CM_3DEditor/Camera.cpp:46-50 | Changes only the aspect ratio and sets only the projection flag. |
| CameraModel.Camera.SetNearPlane | CM_3DEditor/Camera.cpp:52-56 | Changes only the near plane and sets only the projection flag. |
| CameraModel.Camera.SetFarPlane | CM_3DEditor/Camera.cpp:58-62 | Changes only the far plane and sets only the projection flag. |
| CameraModel.Camera.SetProjectionType | CM_3DEditor/Camera.cpp:64-68 | Changes only the projection type and sets only the projection flag. |
| CameraModel.Camera.Orbit | CM_3DEditor/Camera.cpp:70-93 | The target stays. The position moves to the old distance from the target, at azimuth atan2(x, z) - 0.01 dx and the clamped polar angle. Only the view flag is set. |
| CameraModel.Camera.Pan | CM_3DEditor/Camera.cpp:95-108 | Position and target move by the same offset: -dx along the right vector and dy along up, both scaled by 0.001 of the distance. So target minus position is unchanged. |
| CameraModel.Camera.SetDistance | CM_3DEditor/Camera.cpp:151-156 | The target stays. The position is placed along the normalised old direction at the given distance, with no lower bound. |
| CameraModel.Camera.Zoom | CM_3DEditor/Camera.cpp:110-120 | Sets the distance to the clamped, scaled distance. |
| CameraModel.Camera.Reset | CM_3DEditor/Camera.cpp:122-128 | Position, target and up become exactly the snapshot, and the view flag is set. Projection settings and their cache are untouched. |
| CameraModel.Camera.GetViewMatrix | CM_3DEditor/Camera.cpp:130-136 | Returns lookAt of the current state. Recomputes only when dirty, leaves the view flag clear, and never touches the projection cache or flag. |
| CameraModel.Camera.GetProjectionMatrix | CM_3DEditor/Camera.cpp:138-144 | Returns the current projection under the same discipline. |
| CameraModel.Camera.GetViewProjectionMatrix | CM_3DEditor/Camera.cpp:146-149 | Projection times view of the current state. Both caches are clean afterwards. |
| CameraModel.Camera.UpdateViewMatrix | CM_3DEditor/Camera.cpp:158-163 | The view cache becomes lookAt(position, target, up) and its flag is cleared. |
| CameraModel.Camera.UpdateProjectionMatrix | CM_3DEditor/Camera.cpp:165-178 | The projection cache becomes the perspective frustum or the orthographic box of half height far * tan(fov/2) and half width that times aspect. Its flag is cleared. |
| CameraModel.Camera.InvalidateViewMatrix | CM_3DEditor/Camera.cpp:180-183 | Sets only the view flag. |
| CameraModel.Camera.InvalidateProjectionMatrix | CM_3DEditor/Camera.cpp:185-188 | Sets only the projection flag. |
| RendererModel.ResizeAspect | CM_3DEditor/Renderer.cpp:56 | width / height for a non-zero height. For height 0 it is the uninterpreted IEEE quotient. |
| RendererModel.CurrentShader | CM_3DEditor/Renderer.cpp:130-142 | Basic gives the basic program, Phong the phong program, Custom the custom program. A null one stays null. |
| RendererModel.ProgramFor | CM_3DEditor/Renderer.cpp:184-195 | Solid draws with the shader type's program, Wireframe with the wireframe program, Points with the point program. |
| RendererModel.ModeUniforms | CM_3DEditor/Renderer.cpp:205-225 | At most one mode uniform, none iff the mode is Solid with a non-Phong type: shininess 32 for Solid with Phong, the wireframe colour's red, green and blue for Wireframe, the point size for Points. |
| RendererModel.SetUniforms | CM_3DEditor/Renderer.cpp:161-175 | One uniform event per uniform, in order. |
| RendererModel.MeshCalls | CM_3DEditor/Renderer.cpp:212-223 | One event per mesh draw call, in order. |
| RendererModel.SetUniformsAppend | CM_3DEditor/Renderer.cpp:202-203 | Setting two groups of uniforms is setting each in turn. |
| RendererModel.PassSplit | CM_3DEditor/Renderer.cpp:199-227 | A pass is the use, the matrices, lighting and mode uniforms in turn, the draw calls and the release. |
| RendererModel.Deletions | CM_3DEditor/Renderer.cpp:232-235 | Every deletion is of one of the given programs, and every non-null one is deleted. |
| RendererModel.ShininessOnlyForPhong | CM_3DEditor/Renderer.cpp:206-213 | Shininess 32 is set iff the mode is Solid and the type is Phong. |
| RendererModel.ModeUniformCount | CM_3DEditor/Renderer.cpp:206-225 | Each mode sets one uniform of its own, except Solid with a non-Phong type, which sets none. |
| RendererModel.CustomOnlyInSolidCustom | CM_3DEditor/Renderer.cpp:184-195 | A custom program distinct from the built-ins is chosen iff the mode is Solid and the type Custom. |
| RendererModel.NoFallback | CM_3DEditor/Renderer.cpp:184-197 | Solid with a null custom program draws with no program, even when the basic one exists. |
| RendererModel.CleanupKeepsCustom | CM_3DEditor/Renderer.cpp:230-242 | Cleanup never deletes a custom program that is not also a built-in one. |
| RendererModel.Renderer.constructor | CM_3DEditor/Renderer.cpp:4-22 | Solid, Basic, background (50,50,50,255), white wireframe and light, point size 5, light at (5,5,5). All pointers are null, it is not initialised, and the log is empty. |
| RendererModel.Renderer.Initialize | CM_3DEditor/Renderer.cpp:29-47 | A second call changes nothing. The first switches on the GL state, stores the four built-in programs (null ones included), and marks the renderer initialised; nothing else changes. |
| RendererModel.Renderer.SetupShaders | CM_3DEditor/Renderer.cpp:144-155 | Stores the four factory results, null ones included. |
| RendererModel.Renderer.Resize | CM_3DEditor/Renderer.cpp:49-58 | Nothing before initialisation. Afterwards, a viewport event, and a bound camera's aspect becomes width / height with only its projection flag set. |
| RendererModel.Renderer.SetRenderMode | CM_3DEditor/Renderer.cpp:60-63 | Changes only the render mode. |
| RendererModel.Renderer.SetShaderType | CM_3DEditor/Renderer.cpp:65-68 | Changes only the shader type. |
| RendererModel.Renderer.SetBackgroundColor | CM_3DEditor/Renderer.cpp:70-73 | Changes only the background colour. |
| RendererModel.Renderer.SetLightPosition | CM_3DEditor/Renderer.cpp:75-78 | Changes only the light position. |
| RendererModel.Renderer.SetLightColor | CM_3DEditor/Renderer.cpp:80-83 | Changes only the light colour. |
| RendererModel.Renderer.SetWireframeColor | CM_3DEditor/Renderer.cpp:85-88 | Changes only the wireframe colour. |
| RendererModel.Renderer.SetPointSize | CM_3DEditor/Renderer.cpp:90-93 | Changes only the point size. |
| RendererModel.Renderer.SetMesh | CM_3DEditor/Renderer.cpp:95-98 | Changes only the bound mesh. |
| RendererModel.Renderer.SetModelMatrix | CM_3DEditor/Renderer.cpp:100-103 | Changes only the model matrix. |
| RendererModel.Renderer.SetCamera | CM_3DEditor/Renderer.cpp:105-108 | Changes only the bound camera. |
| RendererModel.Renderer.SetCustomShader | CM_3DEditor/Renderer.cpp:125-128 | Changes only the custom program. |
| RendererModel.Renderer.GetCurrentShader | CM_3DEditor/Renderer.cpp:130-142 | The program of the current shader type: basic, phong or custom. |
| RendererModel.Renderer.RenderEvents | CM_3DEditor/Renderer.cpp:110-116 | Empty iff the renderer is uninitialised or lacks a mesh or a camera. Otherwise it starts with the clear. |
| RendererModel.Renderer.MeshEvents | CM_3DEditor/Renderer.cpp:178-228 | Empty iff the mode's program is null. Otherwise it starts by using that program and ends by releasing it. |
| RendererModel.Renderer.Render | CM_3DEditor/Renderer.cpp:110-116 | Appends exactly the render events. Besides the log it changes only the camera's caches, which stay coherent. |
| RendererModel.Renderer.Clear | CM_3DEditor/Renderer.cpp:118-123 | One clear with the background colour. |
| RendererModel.Renderer.RenderMesh | CM_3DEditor/Renderer.cpp:178-228 | Appends exactly the mesh events. These are the mode's program, the model, view and projection matrices, light position, colour and camera position, the mode's uniform, the mode's mesh draw calls, and the release. |
| RendererModel.Renderer.DrawPass | CM_3DEditor/Renderer.cpp:199-227 | With program p chosen, appends the pass of p: use, the matrices and lighting of the state on entry, the mode's uniform, the mode's draw calls, release. |
| RendererModel.Renderer.ModePass | CM_3DEditor/Renderer.cpp:206-225 | Sets the mode's own uniform and returns the mesh draw of that mode. |
| RendererModel.Renderer.SetupMatrices | CM_3DEditor/Renderer.cpp:169-176 | Sets the model matrix and the camera's current view and projection matrices, in that order. |
| RendererModel.Renderer.SetupLighting | CM_3DEditor/Renderer.cpp:157-167 | Sets light position, light colour, and the camera position. |
| RendererModel.Renderer.Cleanup | CM_3DEditor/Renderer.cpp:230-242 | Deletes the non-null built-in programs in order, never the custom one, and leaves all five pointers null. |
| Geometry.QBound | CM_3DEditor/Camera.cpp:84 | qBound(lo, v, hi) lies in [lo, hi], is v when v is in range, and is the nearer bound otherwise. |

## Left out

- File opening and `QTextStream` reading (CM_3DEditor/PLYLoader.cpp:14-32). The file is given as its sequence of lines, or `None` when it cannot be opened. The debug messages are not modelled.
- Floating-point numerics. `normalized`, `length`, `qAtan2`, `qAcos`, `qSin`, `qCos`, `qTan`, `lookAt`, `perspective`, `ortho` and `QString::toFloat` are uninterpreted, so no unit-length or trigonometric identity is proved. Constants such as 0.1f are the exact decimals, not their float approximations.
- PlyLoading.PlyLoader.LoadPly: its precondition excludes files whose faces index outside the vertex list when normals are derived, because `calculateNormals` then indexes `m_vertices` out of range (undefined behaviour). `ParsePly` reports such a file as `IndexOutOfRange`.
- PlyLoading.PlyLoader.ParseHeader: the same precondition as LoadPly, for the same reason.
- PlyLoading.PlyLoader.CalculateNormals: requires every face index to be in range, for the same reason.
- MeshModel.Mesh.LoadFromPly: the same precondition as LoadPly, for the same reason.
- The regular-expression internals of `split(QRegularExpression("\\s+"))`. The tokeniser is a function that splits on runs of the six ASCII whitespace characters, which is what `\s` matches without Unicode properties.
- QColor details. An out-of-range channel gives the invalid colour, whose red, green and blue read as 0. This is how `QColor(int, int, int, int)` behaves; it is outside these files.
- All OpenGL buffer work: VAO/VBO creation, allocation, attribute layout and `offsetof` (CM_3DEditor/Mesh.cpp:89-110, 149-170), and the buffer cleanup (CM_3DEditor/Mesh.cpp:190-195). The buffers are modelled by their contents.
- The GL calls of `Renderer::initialize` are one `GlSetup` event, and `glClearColor`/`glClear` are one `ClearScreen` event.
- The destructors of `Renderer`, `Mesh` and `PLYLoader`. The renderer's destructor only calls `cleanup`, which is modelled.
- CM_3DEditor/Shader.cpp is not part of this model: compiling, linking, the uniform setters and the GLSL sources. Programs are opaque tokens, and the factory results are parameters of `Initialize`. `Shader::release` calls itself unconditionally (CM_3DEditor/Shader.cpp:57-60). Its calls are recorded as `ReleaseProgram` events, standing for what the call is meant to do.
- The viewer widget and main window: UI plumbing with no logic.
- Camera.h inline getters `getPosition`, `getTarget` and `getUpVector` are the fields themselves. `getForward`, `getRight` and `getDistance` are functions used by the movement methods.
- `Mesh::getBoundingBox` and `Mesh::getBoundingRadius` are plain field reads (functions `GetBoundingBox` and `GetBoundingRadius`).
- The loader's `reserve` calls only allocate memory; they are not modelled.

## Findings

| source | as written | input that shows it | evidently intended | confidence | as-written member | corrected member |
|---|---|---|---|---|---|---|
| CM_3DEditor/PLYLoader.cpp:178-192 | The face guard `parts.size() < 1 + vertexCount` and the colour test `parts.size() >= 1 + vertexCount + 3` use the parsed count k unchecked in 32-bit int arithmetic. A negative k passes the guard, and the colour is then read from `parts[1 + k]` before the first token. | The face line "-3": 1 + k = -2, so the guard passes and the colour test 1 <= 1 holds. `parseColor(parts, -2)` then indexes `parts[-2]`. | Reject a face line on which the colour would be read before the first token. A negative count otherwise gives a face with no indices, as the code does. | not executed | PlyFormat.NegativeArityReadsBeforeFirstToken | PlyFormat.FaceFromTokens |
| CM_3DEditor/PLYLoader.cpp:178-187 | `1 + vertexCount` overflows when k = INT_MAX. | The face line "2147483647": 1 + k wraps to INT_MIN, so the guard passes on a one-token line. The index loop then reads tokens that do not exist. | Reject a face line with fewer than 1 + k tokens, counted exactly. | not executed | PlyFormat.MaxArityOverflowsGuard | PlyFormat.FaceFromTokens |

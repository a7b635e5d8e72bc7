/**
 * The renderer's configuration state machine: render mode and shader type,
 * colours, light and point size, the bound mesh and camera, the four
 * built-in programs and an optional custom one, and the one-time
 * initialisation guard. Everything the renderer sends to OpenGL or to a
 * shader program is appended to an event log, in order.
 */
module RendererModel {
  import opened Wrappers
  import opened Geometry
  import opened PlyFormat
  import opened MeshModel
  import opened CameraModel

  datatype RenderMode = Solid | Wireframe | Points
  datatype ShaderType = Basic | Phong | Custom

  /** A linked shader program, known only by identity. */
  datatype Program = Program(id: nat)

  /** A uniform value as the Shader setters send it. */
  datatype Uniform =
    | Vec3Uniform(name: string, v: Vec3)
    | ColorUniform(name: string, c: Color)
    | Mat4Uniform(name: string, m: Mat4)
    | FloatUniform(name: string, x: real)

  datatype Event =
    /** Depth test, back-face culling and alpha blending switched on. */
    | GlSetup
    | Viewport(width: int, height: int)
    /** glClearColor with the background colour, then glClear of colour and depth. */
    | ClearScreen(color: Color)
    | UseProgram(program: Program)
    | SetUniform(program: Program, uniform: Uniform)
    | MeshCall(call: GlCall)
    | ReleaseProgram(program: Program)
    | DeleteProgram(program: Program)

  /** float(width) / float(height) for a non-zero height. */
  function Aspect(width: int, height: int): real
    requires height != 0
  {
    width as real / height as real
  }

  /**
   * float(width) / 0.0f: an infinity or a NaN in IEEE arithmetic, which the
   * reals do not contain; left uninterpreted.
   */
  const DivideByZero: real -> real

  /** The aspect ratio resize passes to the camera. */
  function ResizeAspect(width: int, height: int): (r: real)
    ensures height != 0 ==> r == Aspect(width, height)
    ensures height == 0 ==> r == DivideByZero(width as real)
  {
    if height != 0 then Aspect(width, height) else DivideByZero(width as real)
  }

  /** getCurrentShader: the program of the shader type; a null one stays null. */
  function CurrentShader(kind: ShaderType, basic: Option<Program>, phong: Option<Program>, custom: Option<Program>): (p: Option<Program>)
    ensures kind == Basic ==> p == basic
    ensures kind == Phong ==> p == phong
    ensures kind == Custom ==> p == custom
  {
    match kind
    case Basic => basic
    case Phong => phong
    case Custom => custom
  }

  /** The program renderMesh uses: the current shader for Solid, otherwise the mode's own program. */
  function ProgramFor(mode: RenderMode, kind: ShaderType, basic: Option<Program>, phong: Option<Program>,
                      wireframe: Option<Program>, point: Option<Program>, custom: Option<Program>): (p: Option<Program>)
    ensures mode == Solid ==> p == CurrentShader(kind, basic, phong, custom)
    ensures mode == Wireframe ==> p == wireframe
    ensures mode == Points ==> p == point
  {
    match mode
    case Solid => CurrentShader(kind, basic, phong, custom)
    case Wireframe => wireframe
    case Points => point
  }

  /**
   * The per-mode uniforms renderMesh sets after the matrices and lighting:
   * shininess 32 for Solid with the Phong type (none for the other types),
   * the wireframe colour's red, green and blue for Wireframe, the point size
   * for Points.
   */
  function ModeUniforms(mode: RenderMode, kind: ShaderType, wireframeColor: Color, pointSize: real): (us: seq<Uniform>)
    ensures |us| <= 1
    ensures us == [] <==> mode == Solid && kind != Phong
    ensures mode == Solid && kind == Phong ==> us == [FloatUniform("shininess", 32.0)]
    ensures mode == Wireframe ==> us == [Vec3Uniform("wireframeColor", ColorF(wireframeColor))]
    ensures mode == Points ==> us == [FloatUniform("pointSize", pointSize)]
  {
    match mode
    case Solid => if kind == Phong then [FloatUniform("shininess", 32.0)] else []
    case Wireframe => [Vec3Uniform("wireframeColor", ColorF(wireframeColor))]
    case Points => [FloatUniform("pointSize", pointSize)]
  }

  /** The mesh's draw calls for a mode: render, renderWireframe or renderPoints. */
  function DrawCalls(mode: RenderMode, hasData: bool, indexCount: int, vertexCount: int): seq<GlCall> {
    if !hasData then []
    else
      match mode
      case Solid => [BindVertexArray, DrawTriangles(indexCount), ReleaseVertexArray]
      case Wireframe => [BindVertexArray, PolygonModeLine, DrawTriangles(indexCount), PolygonModeFill, ReleaseVertexArray]
      case Points => [BindVertexArray, DrawPoints(vertexCount), ReleaseVertexArray]
  }

  /** Uniform events for one program, in order. */
  function SetUniforms(p: Program, us: seq<Uniform>): (es: seq<Event>)
    ensures |es| == |us|
    ensures forall i :: 0 <= i < |us| ==> es[i] == SetUniform(p, us[i])
  {
    if us == [] then [] else [SetUniform(p, us[0])] + SetUniforms(p, us[1..])
  }

  /** Mesh draw calls as events, in order. */
  function MeshCalls(calls: seq<GlCall>): (es: seq<Event>)
    ensures |es| == |calls|
    ensures forall i :: 0 <= i < |calls| ==> es[i] == MeshCall(calls[i])
  {
    if calls == [] then [] else [MeshCall(calls[0])] + MeshCalls(calls[1..])
  }

  /** One renderMesh pass with a program: use, uniforms, draw, release. */
  function Pass(p: Program, uniforms: seq<Uniform>, calls: seq<GlCall>): seq<Event> {
    [UseProgram(p)] + SetUniforms(p, uniforms) + MeshCalls(calls) + [ReleaseProgram(p)]
  }

  /** Appending to a log that already extends `start` by `a`. */
  lemma Appended<T>(start: seq<T>, a: seq<T>, b: seq<T>)
    ensures start + a + b == start + (a + b)
  {
  }

  /** Setting a concatenation of uniforms sets each part in turn. */
  lemma SetUniformsAppend(p: Program, a: seq<Uniform>, b: seq<Uniform>)
    ensures SetUniforms(p, a + b) == SetUniforms(p, a) + SetUniforms(p, b)
  {
    assert SetUniforms(p, a + b) == SetUniforms(p, a) + SetUniforms(p, b);
  }

  /** A pass is the use, each group of uniforms in turn, the draw calls and the release. */
  lemma PassSplit(p: Program, a: seq<Uniform>, b: seq<Uniform>, c: seq<Uniform>, calls: seq<GlCall>)
    ensures Pass(p, a + b + c, calls)
         == [UseProgram(p)] + SetUniforms(p, a) + SetUniforms(p, b) + SetUniforms(p, c) + (MeshCalls(calls) + [ReleaseProgram(p)])
  {
    SetUniformsAppend(p, a + b, c);
    SetUniformsAppend(p, a, b);
  }

  /**
   * Deleting programs that may be null: one delete per non-null program, in
   * order; deleting a null pointer does nothing.
   */
  function Deletions(ps: seq<Option<Program>>): (es: seq<Event>)
    ensures forall i :: 0 <= i < |es| ==> es[i].DeleteProgram? && Some(es[i].program) in ps
    ensures forall i :: 0 <= i < |ps| && ps[i].Some? ==> DeleteProgram(ps[i].value) in es
  {
    if ps == [] then []
    else
      var rest := Deletions(ps[1..]);
      assert forall i :: 1 <= i < |ps| ==> ps[i] == ps[1..][i - 1];
      (if ps[0].Some? then [DeleteProgram(ps[0].value)] else []) + rest
  }

  /** Only Solid mode with the Phong type sets the shininess. */
  lemma ShininessOnlyForPhong(mode: RenderMode, kind: ShaderType, wireframeColor: Color, pointSize: real)
    ensures (exists i :: 0 <= i < |ModeUniforms(mode, kind, wireframeColor, pointSize)|
                      && ModeUniforms(mode, kind, wireframeColor, pointSize)[i] == FloatUniform("shininess", 32.0))
            <==> mode == Solid && kind == Phong
  {
    var us := ModeUniforms(mode, kind, wireframeColor, pointSize);
    if mode == Solid && kind == Phong {
      assert us[0] == FloatUniform("shininess", 32.0);
    }
  }

  /**
   * Each mode sets at most one uniform of its own, and exactly one unless it
   * is Solid with a type other than Phong.
   */
  lemma ModeUniformCount(mode: RenderMode, kind: ShaderType, wireframeColor: Color, pointSize: real)
    ensures |ModeUniforms(mode, kind, wireframeColor, pointSize)| == if mode == Solid && kind != Phong then 0 else 1
  {
  }

  /**
   * The custom program is drawn with only in Solid mode with the Custom
   * type, unless it is also one of the mode's built-in programs.
   */
  lemma CustomOnlyInSolidCustom(mode: RenderMode, kind: ShaderType, basic: Option<Program>, phong: Option<Program>,
                                wireframe: Option<Program>, point: Option<Program>, custom: Program)
    requires Some(custom) != basic && Some(custom) != phong && Some(custom) != wireframe && Some(custom) != point
    ensures ProgramFor(mode, kind, basic, phong, wireframe, point, Some(custom)) == Some(custom) <==> mode == Solid && kind == Custom
  {
  }

  /** A null program for the mode means no program at all: nothing falls back to the basic one. */
  lemma NoFallback(mode: RenderMode, kind: ShaderType, basic: Program, phong: Option<Program>,
                   wireframe: Option<Program>, point: Option<Program>, custom: Option<Program>)
    requires mode == Solid && kind == Custom && custom.None?
    ensures ProgramFor(mode, kind, Some(basic), phong, wireframe, point, custom) == None
  {
  }

  /** Cleanup never deletes a custom program that is not also a built-in one. */
  lemma CleanupKeepsCustom(basic: Option<Program>, phong: Option<Program>, wireframe: Option<Program>,
                           point: Option<Program>, custom: Program)
    requires Some(custom) != basic && Some(custom) != phong && Some(custom) != wireframe && Some(custom) != point
    ensures DeleteProgram(custom) !in Deletions([basic, phong, wireframe, point])
  {
  }

  class Renderer {
    var renderMode: RenderMode
    var shaderType: ShaderType
    var backgroundColor: Color
    var wireframeColor: Color
    var pointSize: real
    var lightPosition: Vec3
    var lightColor: Color
    var mesh: Mesh?
    var camera: Camera?
    var modelMatrix: Mat4
    var basicShader: Option<Program>
    var phongShader: Option<Program>
    var wireframeShader: Option<Program>
    var pointShader: Option<Program>
    var customShader: Option<Program>
    var initialized: bool
    /** What has been sent to OpenGL and to shader programs, oldest first. */
    var events: seq<Event>

    /** A bound camera keeps its caches coherent. */
    ghost predicate Valid()
      reads this, camera
    {
      camera != null ==> camera.Valid()
    }

    constructor()
      ensures Valid()
      ensures renderMode == Solid && shaderType == Basic
      ensures backgroundColor == Rgba(50, 50, 50, 255)
      ensures wireframeColor == Rgba(255, 255, 255, 255) && lightColor == Rgba(255, 255, 255, 255)
      ensures pointSize == 5.0 && lightPosition == Vec3(5.0, 5.0, 5.0)
      ensures mesh == null && camera == null && modelMatrix == Identity
      ensures basicShader == None && phongShader == None && wireframeShader == None
      ensures pointShader == None && customShader == None
      ensures !initialized && events == []
    {
      renderMode, shaderType := Solid, Basic;
      backgroundColor := Rgba(50, 50, 50, 255);
      wireframeColor := Rgba(255, 255, 255, 255);
      pointSize := 5.0;
      lightPosition := Vec3(5.0, 5.0, 5.0);
      lightColor := Rgba(255, 255, 255, 255);
      mesh, camera := null, null;
      basicShader, phongShader, wireframeShader, pointShader, customShader := None, None, None, None, None;
      initialized := false;
      modelMatrix := Identity;
      events := [];
    }

    /**
     * initialize: only the first call does anything. It switches on the GL
     * state and stores the four built-in programs, which are the results of
     * the shader factories (null when one failed to build); it is then
     * initialised even if some are null.
     */
    method Initialize(basic: Option<Program>, phong: Option<Program>, wireframe: Option<Program>, point: Option<Program>)
      modifies this
      ensures old(initialized) ==> unchanged(this)
      ensures !old(initialized) ==>
        && initialized
        && events == old(events) + [GlSetup]
        && basicShader == basic && phongShader == phong
        && wireframeShader == wireframe && pointShader == point
        && customShader == old(customShader)
        && renderMode == old(renderMode) && shaderType == old(shaderType)
        && mesh == old(mesh) && camera == old(camera)
        && backgroundColor == old(backgroundColor) && wireframeColor == old(wireframeColor)
        && pointSize == old(pointSize) && lightPosition == old(lightPosition)
        && lightColor == old(lightColor) && modelMatrix == old(modelMatrix)
    {
      if initialized {
        return;
      }
      events := events + [GlSetup];
      SetupShaders(basic, phong, wireframe, point);
      initialized := true;
    }

    method SetupShaders(basic: Option<Program>, phong: Option<Program>, wireframe: Option<Program>, point: Option<Program>)
      modifies this`basicShader, this`phongShader, this`wireframeShader, this`pointShader
      ensures basicShader == basic && phongShader == phong
      ensures wireframeShader == wireframe && pointShader == point
    {
      basicShader := basic;
      phongShader := phong;
      wireframeShader := wireframe;
      pointShader := point;
    }

    /**
     * resize: nothing before initialisation; otherwise the viewport, and the
     * bound camera's aspect ratio becomes width / height.
     */
    method Resize(width: int, height: int)
      requires Valid()
      modifies this`events, camera
      ensures Valid()
      ensures !initialized ==> events == old(events) && (camera != null ==> unchanged(camera))
      ensures initialized ==> events == old(events) + [Viewport(width, height)]
      ensures initialized && camera != null ==>
        && camera.aspect == ResizeAspect(width, height) && camera.projectionDirty
        && camera.position == old(camera.position) && camera.target == old(camera.target)
        && camera.up == old(camera.up) && camera.fov == old(camera.fov)
        && camera.nearPlane == old(camera.nearPlane) && camera.farPlane == old(camera.farPlane)
        && camera.projectionType == old(camera.projectionType)
        && camera.viewDirty == old(camera.viewDirty) && camera.viewMatrix == old(camera.viewMatrix)
    {
      if !initialized {
        return;
      }
      events := events + [Viewport(width, height)];
      if camera != null {
        camera.SetAspectRatio(ResizeAspect(width, height));
      }
    }

    method SetRenderMode(mode: RenderMode)
      modifies this`renderMode
      ensures renderMode == mode
    {
      renderMode := mode;
    }

    method SetShaderType(kind: ShaderType)
      modifies this`shaderType
      ensures shaderType == kind
    {
      shaderType := kind;
    }

    method SetBackgroundColor(c: Color)
      modifies this`backgroundColor
      ensures backgroundColor == c
    {
      backgroundColor := c;
    }

    method SetLightPosition(p: Vec3)
      modifies this`lightPosition
      ensures lightPosition == p
    {
      lightPosition := p;
    }

    method SetLightColor(c: Color)
      modifies this`lightColor
      ensures lightColor == c
    {
      lightColor := c;
    }

    method SetWireframeColor(c: Color)
      modifies this`wireframeColor
      ensures wireframeColor == c
    {
      wireframeColor := c;
    }

    method SetPointSize(size: real)
      modifies this`pointSize
      ensures pointSize == size
    {
      pointSize := size;
    }

    method SetMesh(m: Mesh?)
      modifies this`mesh
      ensures mesh == m
    {
      mesh := m;
    }

    method SetModelMatrix(m: Mat4)
      modifies this`modelMatrix
      ensures modelMatrix == m
    {
      modelMatrix := m;
    }

    method SetCamera(c: Camera?)
      requires c != null ==> c.Valid()
      modifies this`camera
      ensures camera == c && Valid()
    {
      camera := c;
    }

    method SetCustomShader(p: Option<Program>)
      modifies this`customShader
      ensures customShader == p
    {
      customShader := p;
    }

    /** getCurrentShader. */
    function GetCurrentShader(): (p: Option<Program>)
      reads this
      ensures shaderType == Basic ==> p == basicShader
      ensures shaderType == Phong ==> p == phongShader
      ensures shaderType == Custom ==> p == customShader
    {
      CurrentShader(shaderType, basicShader, phongShader, customShader)
    }

    /** The program the current mode draws with. */
    function ModeProgram(): Option<Program>
      reads this
    {
      ProgramFor(renderMode, shaderType, basicShader, phongShader, wireframeShader, pointShader, customShader)
    }

    /** The uniforms of setupMatrices: model, then the camera's view and projection. */
    function MatrixUniforms(): seq<Uniform>
      reads this, camera
      requires camera != null
    {
      [Mat4Uniform("model", modelMatrix), Mat4Uniform("view", camera.CurrentView()),
       Mat4Uniform("projection", camera.CurrentProjection())]
    }

    /** The uniforms of setupLighting: light position and colour, then the camera position. */
    function LightingUniforms(): seq<Uniform>
      reads this, camera
      requires camera != null
    {
      [Vec3Uniform("lightPos", lightPosition), ColorUniform("lightColor", lightColor),
       Vec3Uniform("viewPos", camera.position)]
    }

    /**
     * What render sends: nothing unless initialised with a mesh and a camera;
     * otherwise the clear, then a pass with the mode's program when it is not
     * null (there is no fallback program).
     */
    function RenderEvents(): (es: seq<Event>)
      reads this, mesh, camera
      ensures es == [] <==> !initialized || mesh == null || camera == null
      ensures es != [] ==> es[0] == ClearScreen(backgroundColor)
    {
      if !initialized || mesh == null || camera == null then []
      else [ClearScreen(backgroundColor)] + MeshEvents()
    }

    /**
     * render: appends RenderEvents. Besides the log it changes only the
     * camera's matrix caches, which stay coherent.
     */
    method Render()
      requires Valid()
      modifies this`events, camera
      ensures Valid()
      ensures events == old(events) + old(RenderEvents())
      ensures camera != null ==>
        && camera.position == old(camera.position) && camera.target == old(camera.target)
        && camera.up == old(camera.up) && camera.projectionType == old(camera.projectionType)
        && camera.fov == old(camera.fov) && camera.aspect == old(camera.aspect)
        && camera.nearPlane == old(camera.nearPlane) && camera.farPlane == old(camera.farPlane)
    {
      if !initialized || mesh == null || camera == null {
        return;
      }
      ghost var start := events;
      ghost var pass := MeshEvents();
      assert RenderEvents() == [ClearScreen(backgroundColor)] + pass;
      Clear();
      assert MeshEvents() == pass;
      RenderMesh();
      Appended(start, [ClearScreen(old(backgroundColor))], pass);
    }

    /** clear: one clear with the background colour. */
    method Clear()
      modifies this`events
      ensures events == old(events) + [ClearScreen(backgroundColor)]
    {
      events := events + [ClearScreen(backgroundColor)];
    }

    /** The events of renderMesh for a bound mesh and camera. */
    function MeshEvents(): (es: seq<Event>)
      requires mesh != null && camera != null
      reads this, mesh, camera
      ensures es == [] <==> ModeProgram().None?
      ensures ModeProgram().Some? ==>
        && es[0] == UseProgram(ModeProgram().value)
        && es[|es| - 1] == ReleaseProgram(ModeProgram().value)
    {
      match ModeProgram()
      case None => []
      case Some(p) =>
        Pass(p, MatrixUniforms() + LightingUniforms() + ModeUniforms(renderMode, shaderType, wireframeColor, pointSize),
             DrawCalls(renderMode, mesh.HasData(), mesh.indexCount, mesh.vertexCount))
    }

    /**
     * renderMesh, for a bound mesh and camera: the mode's program (none, and
     * nothing drawn, when it is null), the matrices, the lighting, the mode's
     * own uniform, the mesh's draw calls, and the release.
     */
    method RenderMesh()
      requires Valid() && mesh != null && camera != null
      modifies this`events, camera`viewMatrix, camera`viewDirty, camera`projectionMatrix, camera`projectionDirty
      ensures Valid()
      ensures events == old(events) + old(MeshEvents())
    {
      var current: Option<Program> := None;
      match renderMode {
        case Solid => current := GetCurrentShader();
        case Wireframe => current := wireframeShader;
        case Points => current := pointShader;
      }
      if current.None? {
        return;
      }
      DrawPass(current.value);
    }

    /**
     * The rest of renderMesh once the program p is chosen: use it, the
     * matrices, the lighting, the mode's uniform and draw calls, release it.
     */
    method DrawPass(p: Program)
      requires Valid() && mesh != null && camera != null
      modifies this`events, camera`viewMatrix, camera`viewDirty, camera`projectionMatrix, camera`projectionDirty
      ensures Valid()
      ensures events == old(events) + old(Pass(p, MatrixUniforms() + LightingUniforms() + ModeUniforms(renderMode, shaderType, wireframeColor, pointSize),
                                               DrawCalls(renderMode, mesh.HasData(), mesh.indexCount, mesh.vertexCount)))
    {
      ghost var start := events;
      ghost var draws := DrawCalls(renderMode, mesh.HasData(), mesh.indexCount, mesh.vertexCount);
      ghost var matrices := MatrixUniforms();
      ghost var lighting := LightingUniforms();
      ghost var modes := ModeUniforms(renderMode, shaderType, wireframeColor, pointSize);
      ghost var use := [UseProgram(p)];
      events := events + [UseProgram(p)];
      SetupMatrices(p);
      Appended(start, use, SetUniforms(p, matrices));
      ghost var sofar := use + SetUniforms(p, matrices);
      SetupLighting(p);
      Appended(start, sofar, SetUniforms(p, lighting));
      sofar := sofar + SetUniforms(p, lighting);
      var calls := ModePass(p);
      Appended(start, sofar, SetUniforms(p, modes));
      sofar := sofar + SetUniforms(p, modes);
      events := events + (MeshCalls(calls) + [ReleaseProgram(p)]);
      Appended(start, sofar, MeshCalls(calls) + [ReleaseProgram(p)]);
      PassSplit(p, matrices, lighting, modes, calls);
    }

    /** The mode switch of renderMesh: the mode's uniform, then the mesh draw of that mode. */
    method ModePass(p: Program) returns (calls: seq<GlCall>)
      requires mesh != null
      modifies this`events
      ensures events == old(events) + SetUniforms(p, ModeUniforms(renderMode, shaderType, wireframeColor, pointSize))
      ensures calls == DrawCalls(renderMode, mesh.HasData(), mesh.indexCount, mesh.vertexCount)
    {
      match renderMode {
        case Solid =>
          if shaderType == Phong {
            events := events + [SetUniform(p, FloatUniform("shininess", 32.0))];
          }
          calls := mesh.Render();
        case Wireframe =>
          events := events + [SetUniform(p, Vec3Uniform("wireframeColor", ColorF(wireframeColor)))];
          calls := mesh.RenderWireframe();
        case Points =>
          events := events + [SetUniform(p, FloatUniform("pointSize", pointSize))];
          calls := mesh.RenderPoints();
      }
    }

    /** setupMatrices: the model matrix and the camera's view and projection matrices. */
    method SetupMatrices(p: Program)
      requires Valid() && camera != null
      modifies this`events, camera`viewMatrix, camera`viewDirty, camera`projectionMatrix, camera`projectionDirty
      ensures Valid()
      ensures events == old(events) + SetUniforms(p, old(MatrixUniforms()))
    {
      events := events + [SetUniform(p, Mat4Uniform("model", modelMatrix))];
      var view := camera.GetViewMatrix();
      events := events + [SetUniform(p, Mat4Uniform("view", view))];
      var projection := camera.GetProjectionMatrix();
      events := events + [SetUniform(p, Mat4Uniform("projection", projection))];
    }

    /** setupLighting: light position and colour, and the camera position when one is bound. */
    method SetupLighting(p: Program)
      requires camera != null
      modifies this`events
      ensures events == old(events) + SetUniforms(p, LightingUniforms())
    {
      events := events + [SetUniform(p, Vec3Uniform("lightPos", lightPosition))];
      events := events + [SetUniform(p, ColorUniform("lightColor", lightColor))];
      if camera != null {
        events := events + [SetUniform(p, Vec3Uniform("viewPos", camera.position))];
      }
    }

    /**
     * cleanup: deletes the four built-in programs (a null one is skipped),
     * never the custom one, and leaves all five pointers null.
     */
    method Cleanup()
      modifies this`events, this`basicShader, this`phongShader, this`wireframeShader, this`pointShader, this`customShader
      ensures events == old(events) + Deletions([old(basicShader), old(phongShader), old(wireframeShader), old(pointShader)])
      ensures basicShader == None && phongShader == None && wireframeShader == None
      ensures pointShader == None && customShader == None
    {
      events := events + Deletions([basicShader, phongShader, wireframeShader, pointShader]);
      basicShader := None;
      phongShader := None;
      wireframeShader := None;
      pointShader := None;
      customShader := None;
    }
  }
}

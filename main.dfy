// The application state of the demo (src/main.rs): the Simple and PBR
// pipelines with their states, the camera and its controller, the clear
// colour and the flag choosing the pipeline; input dispatch, the per-frame
// update, rendering, and the routing of window events to resize and exit.
module App {
  import opened Wrappers
  import opened RenderTypes
  import opened Geometry
  import opened Wgpu
  import opened Winit
  import opened ConstMesh
  import opened Cameras
  import opened SimplePipeline
  import opened PbrPipeline

  /** The window's inner size in physical pixels. */
  datatype Size = Size(width: nat, height: nat)

  /** What one call of render records: a PBR pass or a Simple pass. */
  datatype Frame =
    | PbrFrame(pbrPass: RenderPassRecord<VertexTexNormal>)
    | SimpleFrame(simplePass: RenderPassRecord<VertexTex>)

  /** model_speed, 0.02 as an f32. */
  const MODEL_SPEED: F32 := 0x3CA3_D70A
  /** The camera controller's speed. */
  const CONTROLLER_SPEED: real := 0.2
  /** The clear colour the Simple pass starts with. */
  const INITIAL_CLEAR_COLOR: Color := Color(0.1, 0.2, 0.3, 1.0)

  // ---------------------------------------------------------------------------
  // The selection: which pipeline draws, and which geometry and texture the
  // Simple pipeline shows

  datatype Selection = Selection(isPbr: bool, geometryIndex: nat, textureIndex: nat)

  /** The three keys the application itself answers to. */
  datatype AppCommand = NextGeometry | NextTexture | TogglePipeline

  /** The command a window event carries: Space, T and R when pressed. */
  function Command(event: WindowEvent): (c: Option<AppCommand>)
    ensures c == Some(NextGeometry) <==> event == KeyboardInput(Pressed, Some(Space))
    ensures c == Some(NextTexture) <==> event == KeyboardInput(Pressed, Some(T))
    ensures c == Some(TogglePipeline) <==> event == KeyboardInput(Pressed, Some(R))
  {
    match event
    case KeyboardInput(Pressed, Some(Space)) => Some(NextGeometry)
    case KeyboardInput(Pressed, Some(T)) => Some(NextTexture)
    case KeyboardInput(Pressed, Some(R)) => Some(TogglePipeline)
    case _ => None
  }

  /**
   * The effect of a command: cycling the geometry or the texture happens only
   * while the Simple pipeline is selected; the toggle flips the pipeline.
   */
  function ApplyCommand(s: Selection, cmd: Option<AppCommand>, geometryCount: nat, textureCount: nat): Selection
    requires geometryCount > 0 && textureCount > 0
  {
    match cmd
    case None => s
    case Some(NextGeometry) => if s.isPbr then s else s.(geometryIndex := Step(s.geometryIndex, geometryCount))
    case Some(NextTexture) => if s.isPbr then s else s.(textureIndex := Step(s.textureIndex, textureCount))
    case Some(TogglePipeline) => s.(isPbr := !s.isPbr)
  }

  /** k applications of the same command. */
  function ApplyTimes(s: Selection, cmd: Option<AppCommand>, k: nat, geometryCount: nat, textureCount: nat): Selection
    requires geometryCount > 0 && textureCount > 0
  {
    if k == 0 then s else ApplyCommand(ApplyTimes(s, cmd, k - 1, geometryCount, textureCount), cmd, geometryCount, textureCount)
  }

  /** No key the camera controller consumes is one of the application's keys. */
  lemma ControllerKeysAreNotCommands(f: KeyFlags, event: WindowEvent)
    ensures Handle(f, event).1 ==> Command(event).None?
    ensures Command(event).Some? ==> Handle(f, event) == (f, false)
  {
    ApplicationKeysUnmapped();
    HandleChangesOneFlag(f, event);
  }

  /** Toggling twice restores the selection; the toggle never touches the indices. */
  lemma ToggleTwiceRestores(s: Selection, geometryCount: nat, textureCount: nat)
    requires geometryCount > 0 && textureCount > 0
    ensures var once := ApplyCommand(s, Some(TogglePipeline), geometryCount, textureCount);
      && once.isPbr == !s.isPbr
      && once.geometryIndex == s.geometryIndex && once.textureIndex == s.textureIndex
      && ApplyCommand(once, Some(TogglePipeline), geometryCount, textureCount) == s
  {
  }

  /** While the PBR pipeline is selected, only the toggle changes anything. */
  lemma PbrModeIgnoresCycling(s: Selection, cmd: Option<AppCommand>, geometryCount: nat, textureCount: nat)
    requires geometryCount > 0 && textureCount > 0
    ensures s.isPbr ==> (ApplyCommand(s, cmd, geometryCount, textureCount) == s <==> cmd != Some(TogglePipeline))
  {
  }

  /**
   * In Simple mode, k presses of Space step the geometry index k times and
   * leave the rest; k presses of T do the same to the texture index.
   */
  lemma {:induction false} SimpleModeCycles(s: Selection, k: nat, geometryCount: nat, textureCount: nat)
    requires geometryCount > 0 && textureCount > 0 && !s.isPbr
    ensures ApplyTimes(s, Some(NextGeometry), k, geometryCount, textureCount)
         == s.(geometryIndex := Steps(s.geometryIndex, geometryCount, k))
    ensures ApplyTimes(s, Some(NextTexture), k, geometryCount, textureCount)
         == s.(textureIndex := Steps(s.textureIndex, textureCount, k))
  {
    if k > 0 {
      SimpleModeCycles(s, k - 1, geometryCount, textureCount);
    }
  }

  /**
   * In Simple mode, pressing Space as many times as there are geometries
   * shows the first geometry again, and every geometry is shown on the way.
   */
  lemma SimpleModeShowsEveryGeometry(s: Selection, geometryCount: nat, textureCount: nat, j: nat)
    requires geometryCount > 0 && textureCount > 0 && !s.isPbr
    requires s.geometryIndex < geometryCount && j < geometryCount
    ensures ApplyTimes(s, Some(NextGeometry), geometryCount, geometryCount, textureCount) == s
    ensures exists k: nat :: k < geometryCount && ApplyTimes(s, Some(NextGeometry), k, geometryCount, textureCount).geometryIndex == j
  {
    SimpleModeCycles(s, geometryCount, geometryCount, textureCount);
    CycleReturns(s.geometryIndex, geometryCount);
    var k := if j >= s.geometryIndex then j - s.geometryIndex else geometryCount - s.geometryIndex + j;
    SimpleModeCycles(s, k, geometryCount, textureCount);
    CycleVisitsAll(s.geometryIndex, geometryCount, j);
  }

  // ---------------------------------------------------------------------------
  // Exit routing

  /** The events that end the event loop: the close request and a press of Escape. */
  predicate ExitEvent(event: WindowEvent)
  {
    event == CloseRequested || event == KeyboardInput(Pressed, Some(Escape))
  }

  /** The events that reach resize. */
  function ResizeTo(event: WindowEvent): Option<Size>
  {
    match event
    case Resized(w, h) => Some(Size(w, h))
    case ScaleFactorChanged(w, h) => Some(Size(w, h))
    case _ => None
  }

  /**
   * Whatever keys are held, neither an exit event nor a resize is consumed by
   * input, so each always reaches the event loop's own handling; and an event
   * never both resizes and exits.
   */
  lemma ExitAndResizeAreNeverConsumed(f: KeyFlags, event: WindowEvent)
    requires ExitEvent(event) || ResizeTo(event).Some?
    ensures !Handle(f, event).1 && !event.CursorMoved?
    ensures !(ExitEvent(event) && ResizeTo(event).Some?)
  {
    ApplicationKeysUnmapped();
    HandleChangesOneFlag(f, event);
  }

  // ---------------------------------------------------------------------------
  // The meshes of the Simple pipeline

  /** Both built-in meshes index only their own vertices, within u16, and are short. */
  lemma BuiltInMeshesInRange()
    ensures IndicesInRange(New(PENTAGON_VERTICES, PENTAGON_INDICES))
    ensures IndicesInRange(New(CIRCLE_VERTICES, CIRCLE_INDICES))
    ensures |PENTAGON_INDICES| < U32_MODULUS && |CIRCLE_INDICES| < U32_MODULUS
  {
    PentagonIsTriangleList();
    CircleIsTriangleList();
  }

  /** The camera's eye, rounded to f32. */
  function EyeF32(camera: Camera, toF32: real -> F32): Vec3<F32>
    reads camera
  {
    Vec3(toF32(camera.eye.x), toF32(camera.eye.y), toF32(camera.eye.z))
  }

  /** The camera's view-projection matrix, rounded to f32. */
  function ViewProjF32(camera: Camera, lookAt: (Vec3<real>, Vec3<real>, Vec3<real>) -> Mat4<real>,
                       perspective: (real, nat, nat, real, real) -> Mat4<real>,
                       mul: (Mat4<real>, Mat4<real>) -> Mat4<real>, toF32: real -> F32): Mat4<F32>
    reads camera
  {
    Mat4Round(camera.BuildViewProjectionMatrix(lookAt, perspective, mul), toF32)
  }

  /**
   * The Simple state of State::new: made from the camera's eye and
   * view-projection matrix, then given the tree and the face texture and the
   * pentagon and the circle, in that order.
   */
  method PopulatedSimpleState(tree: Texture, face: Texture, eye: Vec3<F32>, viewProj: Mat4<F32>)
    returns (ss: SimpleState)
    ensures fresh(ss) && fresh(ss.uniformBuffer) && ss.Valid()
    ensures ss.uniforms == UpdateViewProj(NewMvp(), eye, viewProj)
    ensures |ss.textures| == 2 && ss.textures[0].0 == tree && ss.textures[1].0 == face
    ensures ss.geometries == [New(PENTAGON_VERTICES, PENTAGON_INDICES), New(CIRCLE_VERTICES, CIRCLE_INDICES)]
    ensures ss.geometryIndex == 0 && ss.textureIndex == 0
  {
    ss := new SimpleState(eye, viewProj);
    var _ := ss.AddTexture(tree);
    var _ := ss.AddTexture(face);
    var _ := ss.AddGeometry(PENTAGON_VERTICES, PENTAGON_INDICES);
    var _ := ss.AddGeometry(CIRCLE_VERTICES, CIRCLE_INDICES);
  }

  /** The camera of State::new, with its eye and view-projection matrix as f32. */
  method NewCamera(scWidth: nat, scHeight: nat,
                   lookAt: (Vec3<real>, Vec3<real>, Vec3<real>) -> Mat4<real>,
                   perspective: (real, nat, nat, real, real) -> Mat4<real>,
                   mul: (Mat4<real>, Mat4<real>) -> Mat4<real>, toF32: real -> F32)
    returns (camera: Camera, eye: Vec3<F32>, viewProj: Mat4<F32>)
    ensures fresh(camera)
    ensures camera.eye == Vec3(0.0, 0.0, 5.0) && camera.aspectWidth == scWidth && camera.aspectHeight == scHeight
    ensures eye == EyeF32(camera, toF32) && viewProj == ViewProjF32(camera, lookAt, perspective, mul, toF32)
  {
    camera := new Camera(scWidth, scHeight);
    eye := EyeF32(camera, toF32);
    viewProj := ViewProjF32(camera, lookAt, perspective, mul, toF32);
  }

  /** The PBR state of State::new, as much of it as the application state relies on. */
  method NewPbrState(material: Material, depthTexture: Texture, eye: Vec3<F32>, viewProj: Mat4<F32>,
                     cos: real -> real, sin: real -> real, toF32: real -> F32)
    returns (ps: PbrState)
    ensures fresh(ps) && fresh(ps.mvpBuffer) && ps.Valid()
    ensures ps.mvp == UpdateViewProj(NewMvp(), eye, viewProj) && ps.material == material
    ensures |ps.sphere.indexBuffer| == SPHERE_INDEX_COUNT
    ensures SphereGrid(ps.sphere.vertexBuffer, cos, sin) && SphereStrip(ps.sphere.indexBuffer)
  {
    ps := new PbrState(material, depthTexture, eye, viewProj, cos, sin, toF32);
  }

  /**
   * Both pipeline states are valid and do not share the uniform buffer; the
   * Simple state holds two textures and the pentagon and circle, so its
   * indices always select an entry; and the sphere has all its indices.
   */
  ghost predicate PipelineStatesValid(ss: SimpleState, ps: PbrState)
    reads ss, ss.uniformBuffer
  {
    && ss.Valid() && ps.Valid()
    && ss.uniformBuffer != ps.mvpBuffer
    && |ss.textures| == 2
    && ss.geometries == [New(PENTAGON_VERTICES, PENTAGON_INDICES), New(CIRCLE_VERTICES, CIRCLE_INDICES)]
    && |ps.sphere.indexBuffer| == SPHERE_INDEX_COUNT
  }

  /** The two pipeline states of State::new, both made from the camera's eye and view-projection matrix. */
  method NewPipelineStates(tree: Texture, face: Texture, material: Material, depthTexture: Texture,
                           eye: Vec3<F32>, viewProj: Mat4<F32>,
                           cos: real -> real, sin: real -> real, toF32: real -> F32)
    returns (ss: SimpleState, ps: PbrState)
    ensures fresh(ss) && fresh(ss.uniformBuffer) && fresh(ps) && fresh(ps.mvpBuffer)
    ensures PipelineStatesValid(ss, ps)
    ensures ss.uniforms == UpdateViewProj(NewMvp(), eye, viewProj) && ps.mvp == ss.uniforms
    ensures ss.textures[0].0 == tree && ss.textures[1].0 == face
    ensures ss.geometryIndex == 0 && ss.textureIndex == 0 && ps.material == material
  {
    ss := PopulatedSimpleState(tree, face, eye, viewProj);
    ps := NewPbrState(material, depthTexture, eye, viewProj, cos, sin, toF32);
  }

  /** The Simple and PBR pipelines of State::new, built from their shader sources. */
  method NewPipelines(simpleVs: string, simpleFs: string, pbrVs: string, pbrFs: string) returns (s: Simple, p: Pbr)
    ensures s == NewSimple(simpleVs, simpleFs) && p == NewPbr(pbrVs, pbrFs)
  {
    s := NewSimple(simpleVs, simpleFs);
    p := NewPbr(pbrVs, pbrFs);
  }

  // ---------------------------------------------------------------------------
  // The state

  class State {
    const simple: Simple
    const simpleState: SimpleState
    const pbr: Pbr
    const pbrState: PbrState
    const camera: Camera
    const cameraController: CameraController
    var modelAngle: F32
    const modelSpeed: F32
    var size: Size
    var clearColor: Color
    var isPbr: bool
    ghost const simpleSources: (string, string)
    ghost const pbrSources: (string, string)

    /** The two pipeline states are as the application keeps them. */
    ghost predicate Valid()
      reads this, simpleState, simpleState.uniformBuffer
    {
      PipelineStatesValid(simpleState, pbrState)
    }

    /** The pipelines are those of the shader sources. */
    ghost predicate PipelinesBuilt()
    {
      simple == NewSimple(simpleSources.0, simpleSources.1) && pbr == NewPbr(pbrSources.0, pbrSources.1)
    }

    /** The pipeline flag and the two indices of the Simple state. */
    function Selected(): Selection
      reads this, simpleState
    {
      Selection(isPbr, simpleState.geometryIndex, simpleState.textureIndex)
    }

    /**
     * State::new, given the loaded textures, the shader sources, the swap
     * chain's size, the window's size, the depth texture, the camera's matrix
     * builders, the trigonometry of the sphere and the rounding to f32: the
     * controller with speed 0.2, the camera over the swap chain, the Simple
     * state with the tree then the face texture and the pentagon then the
     * circle, the PBR state, the PBR pipeline selected, and the model angle 0.
     */
    constructor (tree: Texture, face: Texture, material: Material, depthTexture: Texture,
                 simpleVs: string, simpleFs: string, pbrVs: string, pbrFs: string,
                 scWidth: nat, scHeight: nat, windowSize: Size,
                 lookAt: (Vec3<real>, Vec3<real>, Vec3<real>) -> Mat4<real>,
                 perspective: (real, nat, nat, real, real) -> Mat4<real>,
                 mul: (Mat4<real>, Mat4<real>) -> Mat4<real>,
                 cos: real -> real, sin: real -> real, toF32: real -> F32)
      ensures Valid() && PipelinesBuilt()
      ensures Selected() == Selection(true, 0, 0)
      ensures simpleState.textures[0].0 == tree && simpleState.textures[1].0 == face
      ensures modelAngle == F32_ZERO && modelSpeed == MODEL_SPEED
      ensures clearColor == INITIAL_CLEAR_COLOR && size == windowSize
      ensures cameraController.speed == CONTROLLER_SPEED && cameraController.Flags() == NO_FLAGS
      ensures camera.eye == Vec3(0.0, 0.0, 5.0) && camera.aspectWidth == scWidth && camera.aspectHeight == scHeight
      ensures simpleState.uniforms == UpdateViewProj(NewMvp(), EyeF32(camera, toF32), ViewProjF32(camera, lookAt, perspective, mul, toF32))
      ensures pbrState.mvp == simpleState.uniforms && pbrState.material == material
    {
      var controller := new CameraController(CONTROLLER_SPEED);
      var cam, eye, viewProj := NewCamera(scWidth, scHeight, lookAt, perspective, mul, toF32);
      var s, p := NewPipelines(simpleVs, simpleFs, pbrVs, pbrFs);
      var ss, ps := NewPipelineStates(tree, face, material, depthTexture, eye, viewProj, cos, sin, toF32);
      simple := s;
      simpleState := ss;
      pbr := p;
      pbrState := ps;
      camera := cam;
      cameraController := controller;
      modelAngle := F32_ZERO;
      modelSpeed := MODEL_SPEED;
      size := windowSize;
      clearColor := INITIAL_CLEAR_COLOR;
      isPbr := true;
      simpleSources := (simpleVs, simpleFs);
      pbrSources := (pbrVs, pbrFs);
    }

    /** resize, given the depth texture made for the new size. */
    method Resize(newSize: Size, depthTexture: Texture)
      requires Valid()
      modifies this, pbrState
      ensures Valid()
      ensures size == newSize && pbrState.depthTexture == depthTexture
      ensures Selected() == old(Selected()) && clearColor == old(clearColor) && pbrState.mvp == old(pbrState.mvp)
      ensures modelAngle == old(modelAngle) && simpleState.textures == old(simpleState.textures)
      ensures simpleState.uniforms == old(simpleState.uniforms)
    {
      size := newSize;
      pbrState.Resize(depthTexture);
    }

    /**
     * input, given f64 division: the controller sees the event first and, when
     * it consumes it, input returns true; otherwise a cursor move sets red and
     * green to the cursor's position over the window's size and returns true,
     * and the application keys act on the selection and return false.
     */
    method Input(event: WindowEvent, div: (real, real) -> real) returns (consumed: bool)
      requires Valid()
      modifies this, cameraController, simpleState
      ensures Valid()
      ensures cameraController.Flags() == Handle(old(cameraController.Flags()), event).0
      ensures consumed == (Handle(old(cameraController.Flags()), event).1 || event.CursorMoved?)
      ensures Selected() == ApplyCommand(old(Selected()), Command(event), 2, 2)
      ensures event.CursorMoved? ==>
        clearColor == old(clearColor).(r := div(event.x, old(size).width as real), g := div(event.y, old(size).height as real))
      ensures !event.CursorMoved? ==> clearColor == old(clearColor)
      ensures size == old(size) && modelAngle == old(modelAngle)
      ensures simpleState.uniforms == old(simpleState.uniforms) && simpleState.textures == old(simpleState.textures)
      ensures pbrState.mvp == old(pbrState.mvp) && pbrState.depthTexture == old(pbrState.depthTexture)
    {
      ControllerKeysAreNotCommands(cameraController.Flags(), event);
      var handled := cameraController.ProcessEvents(event);
      if handled {
        consumed := true;
      } else {
        if event.CursorMoved? {
          clearColor := clearColor.(r := div(event.x, size.width as real), g := div(event.y, size.height as real));
          consumed := true;
        } else {
          consumed := false;
          match Command(event) {
            case Some(NextGeometry) =>
              if !isPbr {
                simpleState.IncGeometryIndex();
              }
            case Some(NextTexture) =>
              if !isPbr {
                simpleState.IncTextureIndex();
              }
            case Some(TogglePipeline) =>
              isPbr := !isPbr;
            case None =>
          }
        }
      }
    }

    /**
     * update, given normalisation, the camera's matrix builders and product,
     * the rounding to f32, f32 addition and f32 cos and sin: the controller
     * moves the camera, and the uniforms take the moved camera as
     * UpdateUniforms says.
     */
    method Update(normalize: Vec3<real> -> Vec3<real>,
                  lookAt: (Vec3<real>, Vec3<real>, Vec3<real>) -> Mat4<real>,
                  perspective: (real, nat, nat, real, real) -> Mat4<real>,
                  mul: (Mat4<real>, Mat4<real>) -> Mat4<real>,
                  toF32: real -> F32, addF32: (F32, F32) -> F32, cosF32: F32 -> F32, sinF32: F32 -> F32)
      requires Valid()
      modifies this, camera, simpleState, simpleState.uniformBuffer, pbrState
      ensures Valid()
      ensures var forward := normalize(Sub3(camera.target, old(camera.eye)));
        camera.eye == MovedEye(old(camera.eye), cameraController.Flags(), forward, Cross(forward, camera.up),
                               cameraController.speed)
      ensures isPbr ==>
        && pbrState.mvp == UpdateViewProj(old(pbrState.mvp), EyeF32(camera, toF32), ViewProjF32(camera, lookAt, perspective, mul, toF32))
        && modelAngle == old(modelAngle) && simpleState.uniforms == old(simpleState.uniforms)
      ensures !isPbr ==>
        && modelAngle == addF32(old(modelAngle), modelSpeed)
        && simpleState.uniforms
           == UpdateModelRotation(UpdateViewProj(old(simpleState.uniforms), EyeF32(camera, toF32),
                                                 ViewProjF32(camera, lookAt, perspective, mul, toF32)),
                                  cosF32(modelAngle), sinF32(modelAngle))
        && pbrState.mvp == old(pbrState.mvp)
      ensures Selected() == old(Selected()) && clearColor == old(clearColor) && size == old(size)
      ensures simpleState.textures == old(simpleState.textures) && pbrState.depthTexture == old(pbrState.depthTexture)
    {
      cameraController.UpdateCamera(camera, normalize);
      ghost var moved := camera.eye;
      UpdateUniforms(EyeF32(camera, toF32), ViewProjF32(camera, lookAt, perspective, mul, toF32), addF32, cosF32, sinF32);
      assert camera.eye == moved;
    }

    /**
     * The uniform half of update, given the camera's eye and view-projection
     * matrix as f32: in PBR mode the PBR record takes the camera; in Simple
     * mode the model angle advances by the model speed, and the Simple
     * uniforms take the camera and the rotation by the new angle, their
     * buffer following.
     */
    method UpdateUniforms(eye: Vec3<F32>, viewProj: Mat4<F32>,
                          addF32: (F32, F32) -> F32, cosF32: F32 -> F32, sinF32: F32 -> F32)
      requires Valid()
      modifies this, simpleState, simpleState.uniformBuffer, pbrState
      ensures Valid()
      ensures isPbr ==>
        && pbrState.mvp == UpdateViewProj(old(pbrState.mvp), eye, viewProj)
        && modelAngle == old(modelAngle) && simpleState.uniforms == old(simpleState.uniforms)
      ensures !isPbr ==>
        && modelAngle == addF32(old(modelAngle), modelSpeed)
        && simpleState.uniforms == UpdateModelRotation(UpdateViewProj(old(simpleState.uniforms), eye, viewProj),
                                                       cosF32(modelAngle), sinF32(modelAngle))
        && pbrState.mvp == old(pbrState.mvp)
      ensures Selected() == old(Selected()) && clearColor == old(clearColor) && size == old(size)
      ensures simpleState.textures == old(simpleState.textures) && pbrState.depthTexture == old(pbrState.depthTexture)
    {
      if isPbr {
        pbrState.UpdateMvp(eye, viewProj);
      } else {
        modelAngle := addF32(modelAngle, modelSpeed);
        simpleState.UpdateUniforms(eye, viewProj, cosF32(modelAngle), sinF32(modelAngle));
      }
    }

    /**
     * render: in PBR mode the PBR pass is staged and recorded, after which the
     * MVP buffer reads back as the current record; in Simple mode the Simple
     * pass over the clear colour is recorded. Either pass sets both groups with
     * matching bind groups and draws only indices in range.
     */
    method Render() returns (frame: Frame)
      requires Valid() && PipelinesBuilt()
      modifies pbrState.mvpBuffer
      ensures Valid()
      ensures isPbr ==>
        && frame == PbrFrame(PassRecord(pbrState.NewRenderPass(), pbr.pipeline))
        && MvpFromBytes(pbrState.mvpBuffer[..]) == pbrState.mvp
        && frame.pbrPass.draw == Some(DrawIndexed(0, SPHERE_INDEX_COUNT, 0, 0, INSTANCE_COUNT))
        && BindsMatchPipeline(frame.pbrPass) && DrawIsWellFormed(frame.pbrPass)
      ensures !isPbr ==>
        && frame == SimpleFrame(simpleState.RenderPass(clearColor, simple.pipeline))
        && frame.simplePass.geometry == Some(simpleState.geometries[simpleState.geometryIndex])
        && BindsMatchPipeline(frame.simplePass) && DrawIsWellFormed(frame.simplePass)
        && pbrState.mvpBuffer[..] == old(pbrState.mvpBuffer[..])
    {
      if isPbr {
        pbrState.RenderPassIsWellFormed(pbrSources.0, pbrSources.1);
        var pass := pbrState.NewRenderPass();
        var r := PbrPipeline.Render(pass, pbr.pipeline);
        assert pbrState.mvpBuffer[..] == pbrState.mvpBuffer[..MVP_SIZE];
        MvpRoundTrip(pbrState.mvp);
        frame := PbrFrame(r);
      } else {
        BuiltInMeshesInRange();
        simpleState.RenderPassIsWellFormed(clearColor, simpleSources.0, simpleSources.1);
        frame := SimpleFrame(simpleState.RenderPass(clearColor, simple.pipeline));
      }
    }

    /**
     * The window-event branch of the event loop, given f64 division and the
     * depth texture for a new size: events input does not consume are routed;
     * a resize or scale change resizes, and the close request or a press of
     * Escape ends the loop.
     */
    method HandleWindowEvent(event: WindowEvent, div: (real, real) -> real, depthTexture: Texture)
      returns (exit: bool)
      requires Valid()
      modifies this, cameraController, simpleState, pbrState
      ensures Valid()
      ensures exit <==> ExitEvent(event)
      ensures ResizeTo(event).Some? ==> size == ResizeTo(event).value && pbrState.depthTexture == depthTexture
      ensures ResizeTo(event).None? ==> size == old(size) && pbrState.depthTexture == old(pbrState.depthTexture)
      ensures Selected() == ApplyCommand(old(Selected()), Command(event), 2, 2)
      ensures cameraController.Flags() == Handle(old(cameraController.Flags()), event).0
      ensures event.CursorMoved? ==>
        clearColor == old(clearColor).(r := div(event.x, old(size).width as real), g := div(event.y, old(size).height as real))
      ensures !event.CursorMoved? ==> clearColor == old(clearColor)
      ensures modelAngle == old(modelAngle) && simpleState.uniforms == old(simpleState.uniforms)
      ensures simpleState.textures == old(simpleState.textures) && pbrState.mvp == old(pbrState.mvp)
    {
      ghost var flags := cameraController.Flags();
      var consumed := Input(event, div);
      exit := false;
      if !consumed {
        match event {
          case Resized(w, h) =>
            Resize(Size(w, h), depthTexture);
          case ScaleFactorChanged(w, h) =>
            Resize(Size(w, h), depthTexture);
          case CloseRequested =>
            exit := true;
          case KeyboardInput(Pressed, Some(Escape)) =>
            exit := true;
          case _ =>
        }
      } else {
        if ExitEvent(event) || ResizeTo(event).Some? {
          ExitAndResizeAreNeverConsumed(flags, event);
        }
      }
    }
  }
}

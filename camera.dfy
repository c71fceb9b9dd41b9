// The camera and its keyboard controller (src/camera.rs). Positions are exact
// reals; look_at, perspective and the normalisation of a vector are given as
// functions, since they rest on floating-point square roots and tangents.
module Cameras {
  import opened Wrappers
  import opened RenderTypes
  import opened Winit

  // ---------------------------------------------------------------------------
  // Vectors in space

  function Add3(a: Vec3<real>, b: Vec3<real>): Vec3<real>
  {
    Vec3(a.x + b.x, a.y + b.y, a.z + b.z)
  }

  function Sub3(a: Vec3<real>, b: Vec3<real>): Vec3<real>
  {
    Vec3(a.x - b.x, a.y - b.y, a.z - b.z)
  }

  function Neg3(a: Vec3<real>): Vec3<real>
  {
    Vec3(-a.x, -a.y, -a.z)
  }

  /** Scaling by the controller's speed. */
  function Scale3(k: real, a: Vec3<real>): Vec3<real>
  {
    Vec3(k * a.x, k * a.y, k * a.z)
  }

  function Cross(a: Vec3<real>, b: Vec3<real>): Vec3<real>
  {
    Vec3(a.y * b.z - a.z * b.y, a.z * b.x - a.x * b.z, a.x * b.y - a.y * b.x)
  }

  const ORIGIN: Vec3<real> := Vec3(0.0, 0.0, 0.0)

  /** The remap of one clip-space column: x, y and w kept, z replaced by (z + w) / 2. */
  function RemapColumn(c: Vec4<real>): Vec4<real>
  {
    Vec4(c.x, c.y, 0.5 * c.z + 0.5 * c.w, c.w)
  }

  /** A projection matrix with its depth row remapped from [-1, 1] to [0, 1]. */
  function DepthRemapped(m: Mat4<real>): Mat4<real>
  {
    Mat4(RemapColumn(m.c0), RemapColumn(m.c1), RemapColumn(m.c2), RemapColumn(m.c3))
  }

  // ---------------------------------------------------------------------------
  // The camera

  class Camera {
    var eye: Vec3<real>
    const target: Vec3<real>
    const up: Vec3<real>
    /** The aspect ratio, width over height, kept as the two swap-chain sizes it is divided from. */
    const aspectWidth: nat
    const aspectHeight: nat
    const fovy: real
    const znear: real
    const zfar: real

    /**
     * Camera::new: five units along +z looking at the origin, +y up, 45 degrees
     * of vertical field of view, and the depth range 0.1 to 100.
     */
    constructor (scWidth: nat, scHeight: nat)
      ensures eye == Vec3(0.0, 0.0, 5.0) && target == ORIGIN && up == Vec3(0.0, 1.0, 0.0)
      ensures aspectWidth == scWidth && aspectHeight == scHeight
      ensures fovy == 45.0 && znear == 0.1 && zfar == 100.0
    {
      eye := Vec3(0.0, 0.0, 5.0);
      target := ORIGIN;
      up := Vec3(0.0, 1.0, 0.0);
      aspectWidth := scWidth;
      aspectHeight := scHeight;
      fovy := 45.0;
      znear := 0.1;
      zfar := 100.0;
    }

    /**
     * build_view_projection_matrix, given look_at, perspective and cgmath's
     * matrix product: the remap matrix times the projection times the view.
     */
    function BuildViewProjectionMatrix(lookAt: (Vec3<real>, Vec3<real>, Vec3<real>) -> Mat4<real>,
                                       perspective: (real, nat, nat, real, real) -> Mat4<real>,
                                       mul: (Mat4<real>, Mat4<real>) -> Mat4<real>): Mat4<real>
      reads this
    {
      var view := lookAt(eye, target, up);
      var proj := perspective(fovy, aspectWidth, aspectHeight, znear, zfar);
      mul(mul(OPENGL_TO_WGPU_MATRIX, proj), view)
    }
  }

  /**
   * With the exact matrix product, the remap rewrites only the depth row of
   * the projection, so the view-projection matrix is the projection with
   * depth taken from [-1, 1] to [0, 1], applied after the view.
   */
  lemma ViewProjectionRemapsDepth(camera: Camera, lookAt: (Vec3<real>, Vec3<real>, Vec3<real>) -> Mat4<real>,
                                  perspective: (real, nat, nat, real, real) -> Mat4<real>)
    ensures camera.BuildViewProjectionMatrix(lookAt, perspective, MatMul)
         == MatMul(DepthRemapped(perspective(camera.fovy, camera.aspectWidth, camera.aspectHeight, camera.znear, camera.zfar)),
                   lookAt(camera.eye, camera.target, camera.up))
  {
    var proj := perspective(camera.fovy, camera.aspectWidth, camera.aspectHeight, camera.znear, camera.zfar);
    RemapRows(proj);
    assert MatMul(OPENGL_TO_WGPU_MATRIX, proj) == DepthRemapped(proj);
  }

  /**
   * The initial camera looks down -z: with the direction to the target
   * normalised to (0, 0, -1), the right-hand axis forward x up is +x.
   */
  lemma InitialCameraAxes(camera: Camera)
    requires camera.eye == Vec3(0.0, 0.0, 5.0) && camera.target == ORIGIN && camera.up == Vec3(0.0, 1.0, 0.0)
    ensures Sub3(camera.target, camera.eye) == Vec3(0.0, 0.0, -5.0)
    ensures Cross(Vec3(0.0, 0.0, -1.0), camera.up) == Vec3(1.0, 0.0, 0.0)
  {
  }

  // ---------------------------------------------------------------------------
  // The controller's key map

  datatype Movement = Upward | Downward | Forward | Backward | Leftward | Rightward

  /** The six movement flags, as the controller holds them. */
  datatype KeyFlags = KeyFlags(up: bool, down: bool, forward: bool, backward: bool, left: bool, right: bool)

  const NO_FLAGS: KeyFlags := KeyFlags(false, false, false, false, false, false)

  /** The key map: Q up, E down, W or Up forward, S or Down backward, A or Left left, D or Right right. */
  function KeyMovement(k: VirtualKeyCode): Option<Movement>
  {
    match k
    case Q => Some(Upward)
    case E => Some(Downward)
    case W => Some(Forward)
    case Up => Some(Forward)
    case S => Some(Backward)
    case Down => Some(Backward)
    case A => Some(Leftward)
    case Left => Some(Leftward)
    case D => Some(Rightward)
    case Right => Some(Rightward)
    case _ => None
  }

  function Get(f: KeyFlags, m: Movement): bool
  {
    match m
    case Upward => f.up
    case Downward => f.down
    case Forward => f.forward
    case Backward => f.backward
    case Leftward => f.left
    case Rightward => f.right
  }

  /** The flags with the one for m set to v. */
  function Set(f: KeyFlags, m: Movement, v: bool): (r: KeyFlags)
    ensures Get(r, m) == v
    ensures forall n :: n != m ==> Get(r, n) == Get(f, n)
  {
    match m
    case Upward => f.(up := v)
    case Downward => f.(down := v)
    case Forward => f.(forward := v)
    case Backward => f.(backward := v)
    case Leftward => f.(left := v)
    case Rightward => f.(right := v)
  }

  /**
   * What process_events does to the flags, and whether it consumes the event:
   * a keyboard event whose key is in the map sets that key's flag to whether
   * the key is pressed, and is consumed; every other event changes nothing.
   */
  function Handle(f: KeyFlags, event: WindowEvent): (KeyFlags, bool)
  {
    match event
    case KeyboardInput(state, Some(k)) =>
      (match KeyMovement(k)
       case Some(m) => (Set(f, m, state == Pressed), true)
       case None => (f, false))
    case _ => (f, false)
  }

  /** The keys the application itself handles are not in the controller's map. */
  lemma ApplicationKeysUnmapped()
    ensures KeyMovement(Space).None? && KeyMovement(T).None? && KeyMovement(R).None? && KeyMovement(Escape).None?
    ensures forall c :: KeyMovement(OtherKey(c)).None?
  {
  }

  /**
   * An event is consumed exactly when it is keyboard input with a mapped key;
   * it then sets that key's flag to the key's state and leaves the other five
   * as they were. An event that is not consumed leaves every flag unchanged.
   */
  lemma HandleChangesOneFlag(f: KeyFlags, event: WindowEvent)
    ensures Handle(f, event).1 <==>
      event.KeyboardInput? && event.virtualKeycode.Some? && KeyMovement(event.virtualKeycode.value).Some?
    ensures Handle(f, event).1 ==>
      var m := KeyMovement(event.virtualKeycode.value).value;
      && Get(Handle(f, event).0, m) == (event.state == Pressed)
      && forall n :: n != m ==> Get(Handle(f, event).0, n) == Get(f, n)
    ensures !Handle(f, event).1 ==> Handle(f, event).0 == f
  {
  }

  /** Setting a flag twice keeps the second value only. */
  lemma SetTwice(f: KeyFlags, m: Movement, a: bool, b: bool)
    ensures Set(Set(f, m, a), m, b) == Set(f, m, b)
  {
    match m
    case Upward =>
    case Downward =>
    case Forward =>
    case Backward =>
    case Leftward =>
    case Rightward =>
  }

  /** Pressing and then releasing a mapped key leaves its flag false and the others as they were. */
  lemma PressThenRelease(f: KeyFlags, k: VirtualKeyCode)
    requires KeyMovement(k).Some?
    ensures var pressed := Handle(f, KeyboardInput(Pressed, Some(k))).0;
      var released := Handle(pressed, KeyboardInput(Released, Some(k))).0;
      && !Get(released, KeyMovement(k).value)
      && released == Set(f, KeyMovement(k).value, false)
  {
    SetTwice(f, KeyMovement(k).value, true, false);
  }

  /** Handling the same event twice is handling it once. */
  lemma HandleIdempotent(f: KeyFlags, event: WindowEvent)
    ensures Handle(Handle(f, event).0, event) == Handle(f, event)
  {
    if event.KeyboardInput? && event.virtualKeycode.Some? && KeyMovement(event.virtualKeycode.value).Some? {
      var m := KeyMovement(event.virtualKeycode.value).value;
      SetTwice(f, m, event.state == Pressed, event.state == Pressed);
    }
  }

  // ---------------------------------------------------------------------------
  // Moving the eye

  /** The displacement along one axis: v when only the positive flag is set, -v when only the negative one is. */
  function Along(positive: bool, negative: bool, v: Vec3<real>): Vec3<real>
  {
    if positive == negative then ORIGIN else if positive then v else Neg3(v)
  }

  /** Adding v when the positive flag is set, then taking it away when the negative one is, adds Along. */
  lemma StepThenStepBack(start: Vec3<real>, positive: bool, negative: bool, v: Vec3<real>)
    ensures var stepped := if positive then Add3(start, v) else start;
      (if negative then Sub3(stepped, v) else stepped) == Add3(start, Along(positive, negative, v))
  {
    var stepped := if positive then Add3(start, v) else start;
    var l, r := (if negative then Sub3(stepped, v) else stepped), Add3(start, Along(positive, negative, v));
    assert l.x == r.x && l.y == r.y && l.z == r.z;
  }

  /** Vector addition associates. */
  lemma AddAssociates(a: Vec3<real>, b: Vec3<real>, c: Vec3<real>)
    ensures Add3(Add3(a, b), c) == Add3(a, Add3(b, c))
  {
  }

  /**
   * Where update_camera takes the eye: one speed step along the forward
   * direction for W, back for S, along the right-hand axis for D and back for
   * A; opposite keys cancel, and the up and down flags are not read.
   */
  function MovedEye(eye: Vec3<real>, f: KeyFlags, forward: Vec3<real>, right: Vec3<real>, speed: real): Vec3<real>
  {
    Add3(eye, Add3(Along(f.forward, f.backward, Scale3(speed, forward)),
                   Along(f.right, f.left, Scale3(speed, right))))
  }

  /** With none of the four horizontal flags set the eye stays; up and down make no difference. */
  lemma MovedEyeIgnoresVertical(eye: Vec3<real>, f: KeyFlags, forward: Vec3<real>, right: Vec3<real>, speed: real)
    ensures MovedEye(eye, f, forward, right, speed) == MovedEye(eye, f.(up := !f.up, down := !f.down), forward, right, speed)
    ensures !f.forward && !f.backward && !f.left && !f.right ==> MovedEye(eye, f, forward, right, speed) == eye
    ensures f.forward && f.backward && f.left && f.right ==> MovedEye(eye, f, forward, right, speed) == eye
  {
  }

  class CameraController {
    const speed: real
    var isUpPressed: bool
    var isDownPressed: bool
    var isForwardPressed: bool
    var isBackwardPressed: bool
    var isLeftPressed: bool
    var isRightPressed: bool

    function Flags(): KeyFlags
      reads this
    {
      KeyFlags(isUpPressed, isDownPressed, isForwardPressed, isBackwardPressed, isLeftPressed, isRightPressed)
    }

    /** CameraController::new: the given speed and no key held. */
    constructor (speed: real)
      ensures this.speed == speed && Flags() == NO_FLAGS
    {
      this.speed := speed;
      isUpPressed, isDownPressed := false, false;
      isForwardPressed, isBackwardPressed := false, false;
      isLeftPressed, isRightPressed := false, false;
    }

    /** process_events: the flags and the result are those Handle gives. */
    method ProcessEvents(event: WindowEvent) returns (consumed: bool)
      modifies this
      ensures (Flags(), consumed) == Handle(old(Flags()), event)
    {
      match event {
        case KeyboardInput(state, Some(keycode)) =>
          var pressed := state == Pressed;
          match keycode {
            case Q =>
              isUpPressed := pressed;
              consumed := true;
            case E =>
              isDownPressed := pressed;
              consumed := true;
            case W =>
              isForwardPressed := pressed;
              consumed := true;
            case Up =>
              isForwardPressed := pressed;
              consumed := true;
            case S =>
              isBackwardPressed := pressed;
              consumed := true;
            case Down =>
              isBackwardPressed := pressed;
              consumed := true;
            case A =>
              isLeftPressed := pressed;
              consumed := true;
            case Left =>
              isLeftPressed := pressed;
              consumed := true;
            case D =>
              isRightPressed := pressed;
              consumed := true;
            case Right =>
              isRightPressed := pressed;
              consumed := true;
            case _ =>
              consumed := false;
          }
        case _ =>
          consumed := false;
      }
    }

    /**
     * update_camera, given the normalisation of a vector: forward is the
     * normalised direction from the eye to the target and right is forward x
     * up; the eye moves as MovedEye says, and nothing else of the camera or
     * the controller changes.
     */
    method UpdateCamera(camera: Camera, normalize: Vec3<real> -> Vec3<real>)
      modifies camera
      ensures var forward := normalize(Sub3(camera.target, old(camera.eye)));
        camera.eye == MovedEye(old(camera.eye), Flags(), forward, Cross(forward, camera.up), speed)
    {
      var forward := normalize(Sub3(camera.target, camera.eye));
      var right := Cross(forward, camera.up);
      var forwardStep, rightStep := Scale3(speed, forward), Scale3(speed, right);
      ghost var start := camera.eye;
      if isForwardPressed {
        camera.eye := Add3(camera.eye, forwardStep);
      }
      if isBackwardPressed {
        camera.eye := Sub3(camera.eye, forwardStep);
      }
      StepThenStepBack(start, isForwardPressed, isBackwardPressed, forwardStep);
      ghost var mid := camera.eye;
      if isRightPressed {
        camera.eye := Add3(camera.eye, rightStep);
      }
      if isLeftPressed {
        camera.eye := Sub3(camera.eye, rightStep);
      }
      StepThenStepBack(mid, isRightPressed, isLeftPressed, rightStep);
      AddAssociates(start, Along(isForwardPressed, isBackwardPressed, forwardStep),
                    Along(isRightPressed, isLeftPressed, rightStep));
    }
  }
}

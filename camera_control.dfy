/** The viewer's key- and mouse-driven camera: keys set a velocity along one
 *  axis each, the left mouse button turns on rotation, and each frame the
 *  target moves by the rotated velocity and the camera eases towards the
 *  target.
 *
 *  Quaternion-times-vector, the lerps, `to_euler` and `to_radians` are
 *  parameters; floats are reals. */
module CameraControl {
  import opened Common
  import opened Matrix
  import opened Helper

  datatype CameraConfig = CameraConfig(tranlSensi: real, rotSensi: Vec2, moveSmoothness: real, rotSmoothness: real,
                                       boost: real)

  /** `CameraConfig::default()`. */
  const DEFAULT_CAMERA_CONFIG: CameraConfig := CameraConfig(5.0, Vec2(50.0, 50.0), 20.0, 20.0, 5.0)

  /** The keys the controller reacts to; every other key is `Other`. */
  datatype KeyCode = ShiftLeft | KeyW | KeyS | KeyA | KeyD | KeyQ | KeyE | Other(code: nat)

  datatype ElementState = Pressed | Released

  datatype MouseButton = Left | Right | Middle | OtherButton(code: nat)

  datatype Axis = AxisX | AxisY | AxisZ

  /** `Vec3::Y` and `Vec3::X`. */
  const Y_AXIS: Vec3 := Vec3(0.0, 1.0, 0.0)
  const X_AXIS: Vec3 := Vec3(1.0, 0.0, 0.0)

  /** The pitch limit of `mouse_move`, just under a quarter turn. */
  const PITCH_LIMIT: real := 1.54

  /** The axis a movement key drives and the direction of a press: W and S
   *  drive z (W towards -z), A and D drive x (A towards -x), Q and E drive y
   *  (Q towards -y). Other keys, Shift included, drive none. */
  function KeyAxis(key: KeyCode): (r: Option<(Axis, real)>)
    ensures r.Some? ==> r.value.1 == 1.0 || r.value.1 == -1.0
    ensures r.Some? <==> key in {KeyW, KeyS, KeyA, KeyD, KeyQ, KeyE}
  {
    match key
    case KeyW => Some((AxisZ, -1.0))
    case KeyS => Some((AxisZ, 1.0))
    case KeyA => Some((AxisX, -1.0))
    case KeyD => Some((AxisX, 1.0))
    case KeyQ => Some((AxisY, -1.0))
    case KeyE => Some((AxisY, 1.0))
    case _ => None
  }

  function Component(v: Vec3, a: Axis): real {
    match a
    case AxisX => v.x
    case AxisY => v.y
    case AxisZ => v.z
  }

  /** `v` with component `a` replaced. */
  function WithComponent(v: Vec3, a: Axis, value: real): (r: Vec3)
    ensures Component(r, a) == value
    ensures forall b :: b != a ==> Component(r, b) == Component(v, b)
  {
    match a
    case AxisX => v.(x := value)
    case AxisY => v.(y := value)
    case AxisZ => v.(z := value)
  }

  /** 1 while a key is held, 0 once released. */
  function Held(state: ElementState): real {
    if state == Pressed then 1.0 else 0.0
  }

  /** The velocity after a key event: the key's axis set to its direction
   *  times `Held(state)`, every other component and every other key's
   *  effect left alone. */
  function Steered(vel: Vec3, key: KeyCode, state: ElementState): Vec3 {
    match KeyAxis(key)
    case None => vel
    case Some((a, sign)) => WithComponent(vel, a, sign * Held(state))
  }

  /** The speed multiplier of `update`. */
  function BoostFactor(onBoost: bool, config: CameraConfig): (k: real)
    ensures onBoost ==> k == config.boost
    ensures !onBoost ==> k == 1.0
  {
    if onBoost then config.boost else 1.0
  }

  /** `f32::clamp`. */
  function Clamp(x: real, lo: real, hi: real): (r: real)
    requires lo <= hi
    ensures lo <= r <= hi
    ensures lo <= x <= hi ==> r == x
    ensures x < lo ==> r == lo
    ensures x > hi ==> r == hi
  {
    if x < lo then lo else if x > hi then hi else x
  }

  /** The target after one `update`: moved by the velocity scaled by the
   *  sensitivity, the boost and the frame time, turned by the camera's
   *  rotation; its rotation and scale stay. */
  function MovedTarget(target: Transform, rotation: Quat, vel: Vec3, config: CameraConfig, onBoost: bool, delta: real,
                       mul: RotateVec): (r: Transform)
    ensures r.rotation == target.rotation && r.scale == target.scale
  {
    var step := Scale3(Scale3(Scale3(vel, config.tranlSensi), BoostFactor(onBoost, config)), delta);
    target.(translation := Add3(target.translation, mul(rotation, step)))
  }

  /** The camera's transform after one `update`: translation and rotation
   *  each eased towards the target's, at their own smoothness; the scale
   *  stays. */
  function Eased(t: Transform, target: Transform, config: CameraConfig, delta: real,
                 lerp3: (Vec3, Vec3, real) -> Vec3, lerpQ: (Quat, Quat, real) -> Quat): (r: Transform)
    ensures r.scale == t.scale
  {
    t.(translation := lerp3(t.translation, target.translation, config.moveSmoothness * delta),
       rotation := lerpQ(t.rotation, target.rotation, config.rotSmoothness * delta))
  }

  /** The yaw after a mouse move: the target's yaw turned against the
   *  horizontal offset. */
  function Yaw(rotation: Quat, offset: Vec2, delta: real, rotSensi: Vec2,
               toEuler: Quat -> (real, real, real), toRadians: real -> real): real
  {
    toEuler(rotation).0 - toRadians(offset.x * delta * rotSensi.x)
  }

  /** The pitch after a mouse move, before clamping: the target's pitch
   *  turned against the vertical offset. */
  function Pitch(rotation: Quat, offset: Vec2, delta: real, rotSensi: Vec2,
                 toEuler: Quat -> (real, real, real), toRadians: real -> real): real
  {
    toEuler(rotation).1 - toRadians(offset.y * delta * rotSensi.y)
  }

  /** The target's rotation after a mouse move while rotating: yaw about Y
   *  times pitch about X, the pitch clamped to within `PITCH_LIMIT` of
   *  level. */
  function MouseRotation(rotation: Quat, offset: Vec2, delta: real, rotSensi: Vec2,
                         toEuler: Quat -> (real, real, real), toRadians: real -> real): (q: Quat)
    ensures q.Product? && q.lhs.AxisAngle? && q.lhs.axis == Y_AXIS && q.rhs.AxisAngle? && q.rhs.axis == X_AXIS
    ensures -PITCH_LIMIT <= q.rhs.angle <= PITCH_LIMIT
  {
    var pitch := Pitch(rotation, offset, delta, rotSensi, toEuler, toRadians);
    Product(AxisAngle(Y_AXIS, Yaw(rotation, offset, delta, rotSensi, toEuler, toRadians)),
            AxisAngle(X_AXIS, Clamp(pitch, -PITCH_LIMIT, PITCH_LIMIT)))
  }

  /** A pitch already inside the limit is kept exactly; the yaw is never
   *  limited. */
  lemma MouseRotationKeepsSmallPitch(rotation: Quat, offset: Vec2, delta: real, rotSensi: Vec2,
                                     toEuler: Quat -> (real, real, real), toRadians: real -> real)
    requires -PITCH_LIMIT <= Pitch(rotation, offset, delta, rotSensi, toEuler, toRadians) <= PITCH_LIMIT
    ensures MouseRotation(rotation, offset, delta, rotSensi, toEuler, toRadians)
         == Product(AxisAngle(Y_AXIS, Yaw(rotation, offset, delta, rotSensi, toEuler, toRadians)),
                    AxisAngle(X_AXIS, Pitch(rotation, offset, delta, rotSensi, toEuler, toRadians)))
  {
  }

  /** Each of the six movement keys drives its own axis and direction: no
   *  two share both, and W/S, A/D, Q/E are pairs on one axis with opposite
   *  directions. */
  lemma MovementKeysDistinct(k1: KeyCode, k2: KeyCode)
    requires KeyAxis(k1).Some? && KeyAxis(k2).Some? && k1 != k2
    ensures KeyAxis(k1) != KeyAxis(k2)
    ensures KeyAxis(k1).value.0 == KeyAxis(k2).value.0 ==> KeyAxis(k1).value.1 == -KeyAxis(k2).value.1
  {
  }

  /** A release stops the key's axis whatever the velocity was, so letting
   *  go of W while S is still held stops movement along z. */
  lemma {:induction false} ReleaseStopsAxis(vel: Vec3, held: KeyCode, released: KeyCode)
    requires KeyAxis(held).Some? && KeyAxis(released).Some?
    requires KeyAxis(held).value.0 == KeyAxis(released).value.0
    ensures var a := KeyAxis(held).value.0;
            var v := Steered(Steered(Steered(vel, held, Pressed), released, Pressed), released, Released);
            Component(v, a) == 0.0
  {
    var a := KeyAxis(held).value.0;
    var v1 := Steered(vel, held, Pressed);
    var v2 := Steered(v1, released, Pressed);
    assert Steered(v2, released, Released) == WithComponent(v2, a, KeyAxis(released).value.1 * 0.0);
  }

  /** Keys drive disjoint components: a key event never changes the other
   *  axes, and a key with no axis changes nothing. */
  lemma {:induction false} SteerKeepsOtherAxes(vel: Vec3, key: KeyCode, state: ElementState, b: Axis)
    requires KeyAxis(key).None? || KeyAxis(key).value.0 != b
    ensures Component(Steered(vel, key, state), b) == Component(vel, b)
  {
    match KeyAxis(key)
    case None =>
    case Some((a, sign)) =>
      assert Steered(vel, key, state) == WithComponent(vel, a, sign * Held(state));
  }

  class ControllableCamera {
    var camera: Camera
    var targetCamera: Transform
    var currentVel: Vec3
    var onRotate: bool
    var onBoost: bool
    var config: CameraConfig

    /** `new`: the target starts at the camera's transform, at rest, with
     *  neither rotation nor boost on. */
    constructor (camera: Camera, config: CameraConfig)
      ensures this.camera == camera && targetCamera == camera.transform && this.config == config
      ensures currentVel == ZERO3 && !onRotate && !onBoost
    {
      this.targetCamera := camera.transform;
      this.camera := camera;
      currentVel := ZERO3;
      onRotate := false;
      onBoost := false;
      this.config := config;
    }

    /** `keyboard_control`: left Shift holds the boost while pressed; the
     *  movement keys set their axis of the velocity. */
    method KeyboardControl(key: KeyCode, state: ElementState)
      modifies this
      ensures onBoost == if key == ShiftLeft then state == Pressed else old(onBoost)
      ensures currentVel == Steered(old(currentVel), key, state)
      ensures camera == old(camera) && targetCamera == old(targetCamera) && onRotate == old(onRotate) && config == old(config)
    {
      if key == ShiftLeft {
        onBoost := match state
          case Pressed => true
          case Released => false;
      }
      var t := match state
        case Pressed => 1.0
        case Released => 0.0;
      match key {
        case KeyW => currentVel := currentVel.(z := -t);
        case KeyS => currentVel := currentVel.(z := t);
        case KeyA => currentVel := currentVel.(x := -t);
        case KeyD => currentVel := currentVel.(x := t);
        case KeyQ => currentVel := currentVel.(y := -t);
        case KeyE => currentVel := currentVel.(y := t);
        case _ =>
      }
    }

    /** `update`: the target moves by the velocity, scaled by the
     *  sensitivity, the boost and the frame time and turned by the camera's
     *  rotation; the camera then eases its translation and rotation
     *  towards the target's. */
    method Update(delta: real, mul: RotateVec, lerp3: (Vec3, Vec3, real) -> Vec3, lerpQ: (Quat, Quat, real) -> Quat)
      modifies this
      ensures targetCamera == MovedTarget(old(targetCamera), old(camera.transform.rotation), currentVel, config, onBoost, delta, mul)
      ensures camera == old(camera).(transform := Eased(old(camera.transform), targetCamera, config, delta, lerp3, lerpQ))
      ensures currentVel == old(currentVel) && onRotate == old(onRotate) && onBoost == old(onBoost) && config == old(config)
    {
      targetCamera := MovedTarget(targetCamera, camera.transform.rotation, currentVel, config, onBoost, delta, mul);
      camera := camera.(transform := Eased(camera.transform, targetCamera, config, delta, lerp3, lerpQ));
    }

    /** `mouse_control`: the left button turns rotation on while pressed;
     *  other buttons do nothing. */
    method MouseControl(button: MouseButton, state: ElementState)
      modifies this
      ensures onRotate == if button == Left then state == Pressed else old(onRotate)
      ensures camera == old(camera) && targetCamera == old(targetCamera) && currentVel == old(currentVel)
      ensures onBoost == old(onBoost) && config == old(config)
    {
      var t := match state
        case Pressed => true
        case Released => false;
      match button {
        case Left => onRotate := t;
        case _ =>
      }
    }

    /** `mouse_move`: while rotating, yaw and pitch of the target (read
     *  back as YXZ Euler angles) turn against the mouse offset, the pitch
     *  clamped to within `PITCH_LIMIT` of level, and the target's rotation
     *  is rebuilt as yaw about Y times pitch about X. Without rotation
     *  nothing changes. */
    method MouseMove(offset: Vec2, delta: real, toEuler: Quat -> (real, real, real), toRadians: real -> real)
      modifies this
      ensures !old(onRotate) ==> targetCamera == old(targetCamera)
      ensures old(onRotate) ==>
        targetCamera == old(targetCamera).(rotation := MouseRotation(old(targetCamera.rotation), offset, delta, config.rotSensi,
                                                                      toEuler, toRadians))
      ensures camera == old(camera) && currentVel == old(currentVel) && onRotate == old(onRotate)
      ensures onBoost == old(onBoost) && config == old(config)
    {
      if onRotate {
        targetCamera := targetCamera.(rotation := MouseRotation(targetCamera.rotation, offset, delta, config.rotSensi,
                                                                toEuler, toRadians));
      }
    }
  }

  /** At rest the target does not move, whatever the boost, when turning
   *  the zero vector gives the zero vector. */
  lemma RestingTargetStays(target: Transform, rotation: Quat, config: CameraConfig, onBoost: bool, delta: real, mul: RotateVec)
    requires mul(rotation, ZERO3) == ZERO3
    ensures MovedTarget(target, rotation, ZERO3, config, onBoost, delta, mul) == target
  {
    assert Scale3(Scale3(Scale3(ZERO3, config.tranlSensi), BoostFactor(onBoost, config)), delta) == ZERO3;
  }
}

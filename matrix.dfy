/** glam quaternions and matrices, as far as the renderer's host code
 *  decides them.
 *
 *  No matrix is multiplied out: a `Mat4` records the glam constructor and
 *  the arguments it was called with (an inverse records the matrix it
 *  inverts), and a rotation built by `look_at` records the points it was
 *  built from. Two matrices are equal here when they were built by the same
 *  calls, which is what the host code's choices determine. */
module Matrix {
  import opened Common

  datatype Quat =
    | Quat(x: real, y: real, z: real, w: real)
      /** The rotation `Transform::look_at` builds for an eye looking at
       *  `target` with the given up vector. */
    | Facing(eye: Vec3, target: Vec3, up: Vec3)
      /** The quaternion product `lhs * rhs`: `rhs` applied first. */
    | Product(lhs: Quat, rhs: Quat)
    | Inverted(q: Quat)
      /** `Quat::from_rotation_x/y/z`: a rotation by `angle` about `axis`. */
    | AxisAngle(axis: Vec3, angle: real)

  const QUAT_IDENTITY: Quat := Quat(0.0, 0.0, 0.0, 1.0)

  datatype Mat4 =
    | Identity
    | PerspectiveRh(fov: real, aspect: real, zNear: real, zFar: real)
    | OrthographicRh(left: real, right: real, bottom: real, top: real, zNear: real, zFar: real)
    | FromRotationTranslation(rotation: Quat, translation: Vec3)
    | LookToRh(eye: Vec3, dir: Vec3, up: Vec3)
    | LookAtRh(eye: Vec3, center: Vec3, up: Vec3)
    | Inverse(m: Mat4)

  /** `std::f32::consts::FRAC_PI_4` and `FRAC_PI_2`, to sixteen digits. */
  const FRAC_PI_4: real := 0.7853981633974483
  const FRAC_PI_2: real := 1.5707963267948966
}

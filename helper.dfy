/** The render-side scene helpers: transforms with scale, camera
 *  projections, the camera and light records handed to the GPU, and the
 *  views a light is rendered from when its shadow map is drawn.
 *
 *  Matrices and rotations are the symbolic `Matrix.Mat4` and `Matrix.Quat`;
 *  applying a rotation to a vector is a parameter. */
module Helper {
  import opened Common
  import opened Matrix
  import CubeMap

  const ONE3: Vec3 := Vec3(1.0, 1.0, 1.0)

  // ---------------------------------------------------------------------
  // Transform

  datatype Transform = Transform(translation: Vec3, rotation: Quat, scale: Vec3)

  /** `Transform::default()`: at the origin, unrotated, unit scale. */
  const DEFAULT_TRANSFORM: Transform := Transform(ZERO3, QUAT_IDENTITY, ONE3)

  /** How a rotation moves a vector (`Quat * Vec3`). */
  type RotateVec = (Quat, Vec3) -> Vec3

  /** `compute_matrix`: rotation then translation. The scale never reaches
   *  the matrix. */
  function ComputeMatrix(t: Transform): Mat4 {
    FromRotationTranslation(t.rotation, t.translation)
  }

  function WithTranslation(t: Transform, translation: Vec3): (r: Transform)
    ensures r.translation == translation && r.rotation == t.rotation && r.scale == t.scale
  {
    t.(translation := translation)
  }

  function WithRotation(t: Transform, rotation: Quat): (r: Transform)
    ensures r.translation == t.translation && r.rotation == rotation && r.scale == t.scale
  {
    t.(rotation := rotation)
  }

  function WithScale(t: Transform, scale: Vec3): (r: Transform)
    ensures r.translation == t.translation && r.rotation == t.rotation && r.scale == scale
  {
    t.(scale := scale)
  }

  /** The builders set disjoint fields: applying them in either order gives
   *  the same transform, and a second call of one overrides the first. */
  lemma BuildersCommute(t: Transform, v: Vec3, q: Quat, s: Vec3, v2: Vec3)
    ensures WithTranslation(WithRotation(t, q), v) == WithRotation(WithTranslation(t, v), q)
    ensures WithTranslation(WithScale(t, s), v) == WithScale(WithTranslation(t, v), s)
    ensures WithRotation(WithScale(t, s), q) == WithScale(WithRotation(t, q), s)
    ensures WithTranslation(WithTranslation(t, v), v2) == WithTranslation(t, v2)
  {
  }

  /** The matrix is blind to the scale. */
  lemma ComputeMatrixIgnoresScale(t: Transform, s: Vec3)
    ensures ComputeMatrix(WithScale(t, s)) == ComputeMatrix(t)
    ensures ComputeMatrix(t) == ComputeMatrix(Transform(t.translation, t.rotation, ONE3))
  {
  }

  /** `local_move`: the translation moves by `delta` taken through the
   *  inverse rotation; nothing else changes. */
  function LocalMove(t: Transform, delta: Vec3, mul: RotateVec): (r: Transform)
    ensures r.rotation == t.rotation && r.scale == t.scale
    ensures Sub3(r.translation, t.translation) == mul(Inverted(t.rotation), delta)
  {
    t.(translation := Add3(t.translation, mul(Inverted(t.rotation), delta)))
  }

  /** `rotate`: the new rotation is applied after the current one. */
  function Rotate(t: Transform, rotation: Quat): (r: Transform)
    ensures r.translation == t.translation && r.scale == t.scale
    ensures r.rotation == Product(rotation, t.rotation)
  {
    t.(rotation := Product(rotation, t.rotation))
  }

  /** `local_rotate`: the new rotation is applied before the current one. */
  function LocalRotate(t: Transform, rotation: Quat): (r: Transform)
    ensures r.translation == t.translation && r.scale == t.scale
    ensures r.rotation == Product(t.rotation, rotation)
  {
    t.(rotation := Product(t.rotation, rotation))
  }

  /** `rotate_x`/`rotate_y`/`rotate_z` and their `local_` forms, for an
   *  axis given as a unit vector. */
  function RotateAbout(t: Transform, axis: Vec3, angle: real): Transform {
    Rotate(t, AxisAngle(axis, angle))
  }

  function LocalRotateAbout(t: Transform, axis: Vec3, angle: real): Transform {
    LocalRotate(t, AxisAngle(axis, angle))
  }

  /** Rotating about the world axis composes on the left, about the local
   *  axis on the right, and neither moves the transform. */
  lemma RotationsCompose(t: Transform, axis: Vec3, a: real, b: real)
    ensures RotateAbout(RotateAbout(t, axis, a), axis, b).rotation
            == Product(AxisAngle(axis, b), Product(AxisAngle(axis, a), t.rotation))
    ensures LocalRotateAbout(LocalRotateAbout(t, axis, a), axis, b).rotation
            == Product(Product(t.rotation, AxisAngle(axis, a)), AxisAngle(axis, b))
    ensures RotateAbout(LocalRotateAbout(t, axis, a), axis, b).translation == t.translation
  {
  }

  /** A local axis of the transform: `local_x` … `local_neg_z`. */
  function LocalAxis(t: Transform, axis: Vec3, mul: RotateVec): Vec3 {
    mul(t.rotation, axis)
  }

  /** `look_at`/`looking_at`: the rotation is rebuilt to face `target` from
   *  where the transform stands at the time of the call. */
  function LookingAt(t: Transform, target: Vec3, up: Vec3): (r: Transform)
    ensures r.translation == t.translation && r.scale == t.scale
    ensures r.rotation == Facing(t.translation, target, up)
  {
    t.(rotation := Facing(t.translation, target, up))
  }

  /** The rotation `looking_at` builds forgets the previous rotation, and
   *  moving the transform afterwards does not change it: the eye it was
   *  built from is the translation before the move. */
  lemma LookingAtThenMove(t: Transform, q: Quat, target: Vec3, up: Vec3, p: Vec3)
    ensures LookingAt(WithRotation(t, q), target, up) == LookingAt(t, target, up)
    ensures WithTranslation(LookingAt(t, target, up), p).rotation == Facing(t.translation, target, up)
    ensures WithTranslation(LookingAt(t, target, up), p).translation == p
  {
  }

  // ---------------------------------------------------------------------
  // Projections

  datatype PerspectiveProjection = PerspectiveProjection(fov: real, aspectRatio: real, near: real, far: real)
  datatype OrthographicProjection = OrthographicProjection(left: real, right: real, bottom: real, top: real, near: real, far: real)
  datatype CameraProjection = Perspective(p: PerspectiveProjection) | Orthographic(o: OrthographicProjection)

  const DEFAULT_PERSPECTIVE: PerspectiveProjection := PerspectiveProjection(FRAC_PI_4, 1.0, 0.1, 1000.0)
  const DEFAULT_PROJECTION: CameraProjection := Perspective(DEFAULT_PERSPECTIVE)

  /** `compute_matrix` of either projection. Both pass their planes to glam
   *  in the order they are stored. */
  function ProjectionMatrix(p: CameraProjection): (m: Mat4)
    ensures p.Perspective? ==> m.PerspectiveRh? && m.zNear == p.p.near && m.zFar == p.p.far
    ensures p.Orthographic? ==> m.OrthographicRh? && m.zNear == p.o.near && m.zFar == p.o.far
  {
    match p
    case Perspective(pp) => PerspectiveRh(pp.fov, pp.aspectRatio, pp.near, pp.far)
    case Orthographic(o) => OrthographicRh(o.left, o.right, o.bottom, o.top, o.near, o.far)
  }

  /** `OrthographicProjection::symmetric`: a box of the given width and
   *  height centred on the view axis. */
  function Symmetric(width: real, height: real, near: real, far: real): (o: OrthographicProjection)
    ensures o.right - o.left == width && o.top - o.bottom == height
    ensures o.left == -o.right && o.bottom == -o.top
    ensures o.near == near && o.far == far
  {
    OrthographicProjection(-width * 0.5, width * 0.5, -height * 0.5, height * 0.5, near, far)
  }

  /** The default camera projection is a perspective with a quarter-pi
   *  field of view, square aspect and planes at 0.1 and 1000. */
  lemma DefaultProjectionFacts()
    ensures DEFAULT_PROJECTION.Perspective?
    ensures ProjectionMatrix(DEFAULT_PROJECTION) == PerspectiveRh(FRAC_PI_4, 1.0, 0.1, 1000.0)
    ensures 0.0 < DEFAULT_PERSPECTIVE.near < DEFAULT_PERSPECTIVE.far
  {
  }

  // ---------------------------------------------------------------------
  // Camera and lights as the GPU sees them

  /** Exposure in EV100. */
  datatype Exposure = Exposure(ev100: real)

  const DEFAULT_EXPOSURE: Exposure := Exposure(9.7)

  datatype Camera = Camera(transform: Transform, projection: CameraProjection, exposure: Exposure)

  /** `Camera::default()`. */
  const DEFAULT_CAMERA: Camera := Camera(DEFAULT_TRANSFORM, DEFAULT_PROJECTION, DEFAULT_EXPOSURE)

  datatype GpuCamera = GpuCamera(view: Mat4, proj: Mat4, positionWs: Vec3, exposure: real)

  /** `GpuCamera::default()`: identity matrices, at the origin, exposure 0. */
  const DEFAULT_GPU_CAMERA: GpuCamera := GpuCamera(Identity, Identity, ZERO3, 0.0)

  datatype GpuDirectionalLight = GpuDirectionalLight(direction: Vec3, color: Vec3, intensity: real)
  datatype GpuPointLight = GpuPointLight(position: Vec3, color: Vec3, intensity: real)
  datatype GpuSpotLight = GpuSpotLight(position: Vec3, direction: Vec3, color: Vec3, intensity: real,
                                       innerAngle: real, outerAngle: real)

  /** `Into<GpuCamera> for Camera`: the view is the inverse of the
   *  camera's placement. */
  function CameraToGpu(c: Camera): (g: GpuCamera)
    ensures g.positionWs == c.transform.translation
    ensures g.exposure == c.exposure.ev100
    ensures g.view.Inverse? && g.view.m.FromRotationTranslation?
    ensures g.proj == ProjectionMatrix(c.projection)
  {
    GpuCamera(Inverse(ComputeMatrix(c.transform)), ProjectionMatrix(c.projection),
              c.transform.translation, c.exposure.ev100)
  }

  /** Two cameras that differ only in their scale look the same to the GPU. */
  lemma CameraIgnoresScale(c: Camera, s: Vec3)
    ensures CameraToGpu(c.(transform := WithScale(c.transform, s))) == CameraToGpu(c)
  {
  }

  /** The default camera has exposure 9.7 and the default projection. */
  lemma DefaultCameraToGpu()
    ensures CameraToGpu(DEFAULT_CAMERA).exposure == 9.7
    ensures CameraToGpu(DEFAULT_CAMERA).positionWs == ZERO3
    ensures CameraToGpu(DEFAULT_CAMERA).proj == PerspectiveRh(FRAC_PI_4, 1.0, 0.1, 1000.0)
  {
  }

  /** The projection of every shadow view of a directional light: a 32 x 32
   *  box with reversed depth (near 20, far -20). */
  const DIRECTIONAL_SHADOW_PROJECTION: Mat4 := OrthographicRh(-16.0, 16.0, -16.0, 16.0, 20.0, -20.0)

  /** The projection of every cube face of a point or spot light: a right
   *  angle, square, planes at 0.1 and 20. */
  const CUBE_FACE_PROJECTION: Mat4 := PerspectiveRh(FRAC_PI_2, 1.0, 0.1, 20.0)

  /** `GpuDirectionalLight::light_view`: looking along the light from the
   *  origin with +Y up. */
  function DirectionalLightView(l: GpuDirectionalLight): (g: GpuCamera)
    ensures g.positionWs == ZERO3 && g.exposure == 0.0
    ensures g.proj == DIRECTIONAL_SHADOW_PROJECTION
    ensures g.view == Inverse(LookToRh(ZERO3, l.direction, CubeMap.Y))
  {
    GpuCamera(Inverse(LookToRh(ZERO3, l.direction, CubeMap.Y)), DIRECTIONAL_SHADOW_PROJECTION, ZERO3, 0.0)
  }

  /** The directional view depends on the direction only, and its
   *  projection's box is the symmetric 32 x 32 one with depth reversed. */
  lemma DirectionalViewFacts(a: GpuDirectionalLight, b: GpuDirectionalLight)
    ensures a.direction == b.direction ==> DirectionalLightView(a) == DirectionalLightView(b)
    ensures var s := Symmetric(32.0, 32.0, 20.0, -20.0);
            DIRECTIONAL_SHADOW_PROJECTION == OrthographicRh(s.left, s.right, s.bottom, s.top, s.near, s.far)
    ensures DIRECTIONAL_SHADOW_PROJECTION.zNear > DIRECTIONAL_SHADOW_PROJECTION.zFar
  {
  }

  /** The view of one cube face from `position`: the default transform is
   *  turned to the face (from the origin) and then moved to the light. */
  function FaceView(position: Vec3, face: CubeMap.CubeMapFace): GpuCamera {
    var trans := WithTranslation(LookingAt(DEFAULT_TRANSFORM, face.target, face.up), position);
    GpuCamera(Inverse(ComputeMatrix(trans)), CUBE_FACE_PROJECTION, trans.translation, 0.0)
  }

  /** The six cube-face views of a light at `position`, in face order. */
  function CubeViews(position: Vec3): (vs: seq<GpuCamera>)
    ensures |vs| == |CubeMap.CUBE_MAP_FACES| == 6
    ensures forall i :: 0 <= i < |vs| ==>
              vs[i].positionWs == position && vs[i].exposure == 0.0 && vs[i].proj == CUBE_FACE_PROJECTION
    ensures forall i :: 0 <= i < |vs| ==>
              vs[i].view == Inverse(FromRotationTranslation(
                              Facing(ZERO3, CubeMap.CUBE_MAP_FACES[i].target, CubeMap.CUBE_MAP_FACES[i].up), position))
  {
    seq(6, i requires 0 <= i < 6 => FaceView(position, CubeMap.CUBE_MAP_FACES[i]))
  }

  /** The six views are pairwise different, and the rotation of each is the
   *  same wherever the light stands. */
  lemma {:induction false} CubeViewsFacts(p: Vec3, q: Vec3)
    ensures forall i, j :: 0 <= i < j < 6 ==> CubeViews(p)[i] != CubeViews(p)[j]
    ensures forall i :: 0 <= i < 6 ==> CubeViews(p)[i].view.m.rotation == CubeViews(q)[i].view.m.rotation
  {
    CubeMap.FaceTargetsAreAxes();
    forall i, j | 0 <= i < j < 6
      ensures CubeViews(p)[i] != CubeViews(p)[j]
    {
      assert CubeViews(p)[i].view.m.rotation.target == CubeMap.CUBE_MAP_FACES[i].target;
      assert CubeViews(p)[j].view.m.rotation.target == CubeMap.CUBE_MAP_FACES[j].target;
    }
  }

  /** `GpuPointLight::light_view`: a six-slot array of default cameras is
   *  filled face by face. */
  method PointLightView(l: GpuPointLight) returns (views: seq<GpuCamera>)
    ensures views == CubeViews(l.position)
  {
    views := seq(6, _ => DEFAULT_GPU_CAMERA);
    var faceIndex := 0;
    while faceIndex < 6
      invariant 0 <= faceIndex <= 6 && |views| == 6
      invariant forall k :: 0 <= k < faceIndex ==> views[k] == FaceView(l.position, CubeMap.CUBE_MAP_FACES[k])
    {
      var face := CubeMap.CUBE_MAP_FACES[faceIndex];
      var trans := WithTranslation(LookingAt(DEFAULT_TRANSFORM, face.target, face.up), l.position);
      views := views[faceIndex := GpuCamera(Inverse(ComputeMatrix(trans)), CUBE_FACE_PROJECTION, trans.translation, 0.0)];
      faceIndex := faceIndex + 1;
    }
  }

  /** `GpuSpotLight::light_view`: the views of a point light at the spot's
   *  position, so the cone's direction and angles play no part. */
  method SpotLightView(l: GpuSpotLight) returns (views: seq<GpuCamera>)
    ensures views == CubeViews(l.position)
  {
    views := PointLightView(GpuPointLight(l.position, l.color, l.intensity));
  }
}

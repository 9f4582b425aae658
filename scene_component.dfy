/** The scene components of the `core` crate: transforms, camera
 *  projections and the position/normal mesh read from an OBJ file.
 *
 *  Matrices are the symbolic `Matrix.Mat4`. */
module SceneComponent {
  import opened Common
  import opened ObjImport
  import opened Matrix

  datatype Transform = Transform(translation: Vec3, rotation: Quat)

  datatype PerspectiveProjection = PerspectiveProjection(fov: real, aspectRatio: real, near: real, far: real)
  datatype OrthographicProjection = OrthographicProjection(left: real, right: real, bottom: real, top: real, near: real, far: real)
  datatype CameraProjection = Perspective(p: PerspectiveProjection) | Orthographic(o: OrthographicProjection)

  /** `PerspectiveProjection::default()`. */
  const DEFAULT_PERSPECTIVE: PerspectiveProjection := PerspectiveProjection(FRAC_PI_4, 1.0, 0.1, 1000.0)

  /** `CameraProjection::default()`. */
  const DEFAULT_PROJECTION: CameraProjection := Perspective(DEFAULT_PERSPECTIVE)

  /** `Transform::compute_matrix`. */
  function TransformMatrix(t: Transform): Mat4 {
    FromRotationTranslation(t.rotation, t.translation)
  }

  /** `compute_matrix` of either projection. The orthographic projection
   *  hands glam its planes swapped, to get a reversed depth range; the
   *  perspective projection passes them in order. */
  function ProjectionMatrix(p: CameraProjection): Mat4 {
    match p
    case Perspective(pp) => PerspectiveRh(pp.fov, pp.aspectRatio, pp.near, pp.far)
    case Orthographic(o) => OrthographicRh(o.left, o.right, o.bottom, o.top, o.far, o.near)
  }

  /** Depth order as glam sees it: reversed for an orthographic camera,
   *  kept for a perspective one; the side planes always pass through. */
  lemma DepthOrder(p: CameraProjection)
    ensures p.Orthographic? ==> ProjectionMatrix(p).OrthographicRh?
    ensures p.Orthographic? && p.o.near < p.o.far ==> ProjectionMatrix(p).zNear > ProjectionMatrix(p).zFar
    ensures p.Orthographic? ==> ProjectionMatrix(p).zNear == p.o.far && ProjectionMatrix(p).zFar == p.o.near
    ensures p.Orthographic? ==> (ProjectionMatrix(p).left, ProjectionMatrix(p).right, ProjectionMatrix(p).bottom, ProjectionMatrix(p).top)
                                == (p.o.left, p.o.right, p.o.bottom, p.o.top)
    ensures p.Perspective? ==> ProjectionMatrix(p).PerspectiveRh?
    ensures p.Perspective? ==> ProjectionMatrix(p).zNear == p.p.near && ProjectionMatrix(p).zFar == p.p.far
  {
  }

  /** The default camera is a forward-depth perspective with a quarter-pi
   *  field of view, a square aspect and planes at 0.1 and 1000. */
  lemma DefaultProjectionFacts()
    ensures ProjectionMatrix(DEFAULT_PROJECTION) == PerspectiveRh(FRAC_PI_4, 1.0, 0.1, 1000.0)
    ensures ProjectionMatrix(DEFAULT_PROJECTION).zNear < ProjectionMatrix(DEFAULT_PROJECTION).zFar
  {
  }

  // ---------------------------------------------------------------------
  // `Mesh::from_obj`.

  datatype Vertex = Vertex(position: Vec3, normal: Vec3)
  datatype Mesh = Mesh(vertices: seq<Vertex>)

  function ToVertex(c: Corner): Vertex {
    Vertex(c.position, c.normal)
  }

  /** One mesh for the whole file: the vertex list is shared by all objects
   *  and cleared at every group, so it keeps the last group of the file.
   *  Texture indices must be present but are not looked up. */
  method MeshFromObj(obj: ObjData) returns (r: Result<Mesh, Panic>)
    ensures r.Ok? <==> GroupsCorners(obj, AllGroups(obj.objects), false).Ok?
    ensures r.Err? ==> r.error in {Unreachable, IndexOutOfBounds}
    ensures r.Ok? ==>
              var kept := LastOr([], GroupsCorners(obj, AllGroups(obj.objects), false).value);
              |r.value.vertices| == |kept|
              && forall i :: 0 <= i < |kept| ==>
                   r.value.vertices[i].position == kept[i].position && r.value.vertices[i].normal == kept[i].normal
  {
    var corners := SharedLastGroup(obj, false);
    if corners.Err? {
      return Err(corners.error);
    }
    var cs := corners.value;
    r := Ok(Mesh(seq(|cs|, i requires 0 <= i < |cs| => ToVertex(cs[i]))));
  }
}

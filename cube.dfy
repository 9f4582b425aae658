/** The cube-map tables: the direction and up vector each of the six faces
 *  is rendered with, and where each face sits on a 4 x 3 cross-shaped
 *  texture atlas. */
module CubeMap {
  import opened Common

  datatype CubeMapFace = CubeMapFace(target: Vec3, up: Vec3, id: nat)

  /** glam's signed unit axes. */
  const X: Vec3 := Vec3(1.0, 0.0, 0.0)
  const NEG_X: Vec3 := Vec3(-1.0, 0.0, 0.0)
  const Y: Vec3 := Vec3(0.0, 1.0, 0.0)
  const NEG_Y: Vec3 := Vec3(0.0, -1.0, 0.0)
  const Z: Vec3 := Vec3(0.0, 0.0, 1.0)
  const NEG_Z: Vec3 := Vec3(0.0, 0.0, -1.0)

  const AXES: seq<Vec3> := [X, NEG_X, Y, NEG_Y, Z, NEG_Z]

  /** `CUBE_MAP_FACES`, in the OpenGL face order +X, -X, +Y, -Y, +Z, -Z.
   *  The ids are the `u128` values the faces' uuids are built from. */
  const CUBE_MAP_FACES: seq<CubeMapFace> := [
    CubeMapFace(NEG_X, NEG_Y, 987456123548145124610214551202),
    CubeMapFace(X, NEG_Y, 654653154451204512300215485120),
    CubeMapFace(NEG_Y, Z, 120014512300230205685230),
    CubeMapFace(Y, NEG_Z, 431105314304087942300),
    CubeMapFace(NEG_Z, NEG_Y, 65132643512148745120548),
    CubeMapFace(Z, NEG_Y, 1485120178465129865312)
  ]

  datatype UVec2 = UVec2(x: nat, y: nat)

  /** `CUBE_MAP_OFFSETS`: the atlas cell of each face, same order. */
  const CUBE_MAP_OFFSETS: seq<UVec2> := [
    UVec2(2, 1), UVec2(0, 1), UVec2(1, 0), UVec2(1, 2), UVec2(1, 1), UVec2(3, 1)
  ]

  /** The OpenGL name of each face, in table order. */
  const FACE_LABELS: seq<string> := ["+X", "-X", "+Y", "-Y", "+Z", "-Z"]

  /** The atlas drawn in the doc comment of `CUBE_MAP_OFFSETS`, row by row;
   *  "**" marks an unused cell. */
  const ATLAS: seq<seq<string>> := [
    ["**", "+Y", "**", "**"],
    ["-X", "+Z", "+X", "-Z"],
    ["**", "-Y", "**", "**"]
  ]

  /** The axis an OpenGL face label names. */
  function LabelAxis(name: string): (v: Option<Vec3>)
    ensures v.Some? <==> name in FACE_LABELS
    ensures v.Some? ==> v.value in AXES
  {
    if name == "+X" then Some(X)
    else if name == "-X" then Some(NEG_X)
    else if name == "+Y" then Some(Y)
    else if name == "-Y" then Some(NEG_Y)
    else if name == "+Z" then Some(Z)
    else if name == "-Z" then Some(NEG_Z)
    else None
  }

  /** The face rendered along a given axis, if it is a signed unit axis. */
  function FaceAlong(axis: Vec3): (i: Option<nat>)
    ensures i.Some? <==> axis in AXES
    ensures i.Some? ==> i.value < |CUBE_MAP_FACES| && CUBE_MAP_FACES[i.value].target == axis
  {
    if axis == NEG_X then Some(0)
    else if axis == X then Some(1)
    else if axis == NEG_Y then Some(2)
    else if axis == Y then Some(3)
    else if axis == NEG_Z then Some(4)
    else if axis == Z then Some(5)
    else None
  }

  /** The six targets are the six signed unit axes, each exactly once. */
  lemma FaceTargetsAreAxes()
    ensures |CUBE_MAP_FACES| == |AXES| == 6
    ensures forall i :: 0 <= i < 6 ==> CUBE_MAP_FACES[i].target in AXES
    ensures forall i, j :: 0 <= i < j < 6 ==> CUBE_MAP_FACES[i].target != CUBE_MAP_FACES[j].target
    ensures forall a :: a in AXES ==> exists i :: 0 <= i < 6 && CUBE_MAP_FACES[i].target == a
  {
    forall a | a in AXES
      ensures exists i :: 0 <= i < 6 && CUBE_MAP_FACES[i].target == a
    {
      var i := FaceAlong(a).value;
      assert CUBE_MAP_FACES[i].target == a;
    }
  }

  /** Faces 2k and 2k+1 look in opposite directions. */
  lemma PairedFacesOppose(k: nat)
    requires k < 3
    ensures CUBE_MAP_FACES[2 * k + 1].target == Neg3(CUBE_MAP_FACES[2 * k].target)
  {
  }

  /** Every up vector is a unit axis at right angles to its face's target. */
  lemma UpsAreOrthogonalAxes(i: nat)
    requires i < |CUBE_MAP_FACES|
    ensures CUBE_MAP_FACES[i].up in AXES
    ensures Dot3(CUBE_MAP_FACES[i].up, CUBE_MAP_FACES[i].target) == 0.0
  {
  }

  /** Each face renders along the negation of the axis its OpenGL name
   *  gives. */
  lemma TargetsOpposeLabels(i: nat)
    requires i < |CUBE_MAP_FACES|
    ensures LabelAxis(FACE_LABELS[i]).Some?
    ensures CUBE_MAP_FACES[i].target == Neg3(LabelAxis(FACE_LABELS[i]).value)
  {
    if i == 0 {
      assert FACE_LABELS[i] == "+X" && LabelAxis("+X") == Some(X);
    } else if i == 1 {
      assert FACE_LABELS[i] == "-X" && LabelAxis("-X") == Some(NEG_X);
    } else if i == 2 {
      assert FACE_LABELS[i] == "+Y" && LabelAxis("+Y") == Some(Y);
    } else if i == 3 {
      assert FACE_LABELS[i] == "-Y" && LabelAxis("-Y") == Some(NEG_Y);
    } else if i == 4 {
      assert FACE_LABELS[i] == "+Z" && LabelAxis("+Z") == Some(Z);
    } else {
      assert FACE_LABELS[i] == "-Z" && LabelAxis("-Z") == Some(NEG_Z);
    }
  }

  /** The face ids are pairwise distinct. */
  lemma FaceIdsDistinct()
    ensures forall i, j :: 0 <= i < j < |CUBE_MAP_FACES| ==> CUBE_MAP_FACES[i].id != CUBE_MAP_FACES[j].id
  {
  }

  /** The offsets are six distinct cells of the 4 x 3 atlas, and each lands
   *  on the cell the doc comment labels with that face. */
  lemma OffsetsMatchAtlas()
    ensures |CUBE_MAP_OFFSETS| == |FACE_LABELS| == 6
    ensures forall i :: 0 <= i < 6 ==> CUBE_MAP_OFFSETS[i].x < 4 && CUBE_MAP_OFFSETS[i].y < 3
    ensures forall i, j :: 0 <= i < j < 6 ==> CUBE_MAP_OFFSETS[i] != CUBE_MAP_OFFSETS[j]
    ensures forall i :: 0 <= i < 6 ==> ATLAS[CUBE_MAP_OFFSETS[i].y][CUBE_MAP_OFFSETS[i].x] == FACE_LABELS[i]
  {
  }
}

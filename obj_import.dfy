/** Wavefront OBJ triangulation as the importers do it: every polygon of
 *  every group of every object is cut into a fan of triangles
 *  (0, k-1, k) for k = 2 .. n-1, and each corner is resolved through the
 *  file's position, texture-coordinate and normal tables.
 *
 *  The importers differ only in what they keep: one vertex list per object
 *  that accumulates all its groups, one per object that is cleared at every
 *  group, or a single list for the whole file that is cleared at every
 *  group. Parsing the file is left to the `obj` crate and not modelled. */
module ObjImport {
  import opened Common

  /** A polygon corner: position index, optional texture index, optional
   *  normal index. */
  datatype IndexTuple = IndexTuple(position: nat, texture: Option<nat>, normal: Option<nat>)
  datatype Polygon = Polygon(corners: seq<IndexTuple>)
  datatype Group = Group(polys: seq<Polygon>)
  datatype Object = Object(groups: seq<Group>)
  datatype ObjData = ObjData(position: seq<Vec3>, texture: seq<Vec2>, normal: seq<Vec3>, objects: seq<Object>)

  /** A resolved corner. Importers that do not read texture coordinates get
   *  the zero vector in `uv`. */
  datatype Corner = Corner(position: Vec3, uv: Vec2, normal: Vec3)

  /** The corner indices of the fan of an n-corner polygon, triangle by
   *  triangle. */
  function FanIndices(n: nat): (r: seq<nat>)
    ensures |r| == if n < 3 then 0 else 3 * (n - 2)
    ensures forall i :: 0 <= i < |r| ==> r[i] < n
  {
    if n < 3 then [] else FanIndices(n - 1) + [0, n - 2, n - 1]
  }

  /** Triangle t of the fan is (0, t+1, t+2): the polygon is cut from its
   *  first corner, and every triangle shares that corner. */
  lemma {:induction false} FanShape(n: nat, t: nat)
    requires n >= 3 && t < n - 2
    ensures FanIndices(n)[3 * t] == 0
    ensures FanIndices(n)[3 * t + 1] == t + 1
    ensures FanIndices(n)[3 * t + 2] == t + 2
    decreases n
  {
    if t < n - 3 {
      FanShape(n - 1, t);
      assert FanIndices(n)[..3 * (n - 3)] == FanIndices(n - 1);
    }
  }

  /** Triangle t of a fan list is (0, t+1, t+2). */
  ghost predicate TriangleAt(fan: seq<nat>, t: nat) {
    3 * t + 2 < |fan| && fan[3 * t] == 0 && fan[3 * t + 1] == t + 1 && fan[3 * t + 2] == t + 2
  }

  /** What the loops need of the fan of an n-gon, without its recursion. */
  ghost predicate IsFan(fan: seq<nat>, n: nat) {
    && |fan| == (if n < 3 then 0 else 3 * (n - 2))
    && (forall i :: 0 <= i < |fan| ==> fan[i] < n)
    && (forall t: nat :: t + 2 < n ==> TriangleAt(fan, t))
  }

  lemma FanIndicesIsFan(n: nat)
    ensures IsFan(FanIndices(n), n)
  {
    forall t: nat | t + 2 < n
      ensures TriangleAt(FanIndices(n), t)
    {
      FanShape(n, t);
    }
  }

  /** One corner: both optional indices must be present (otherwise
   *  `unreachable!`), and every table index must be in range (otherwise the
   *  slice index panics). The texture table is consulted only when
   *  `withUv`. */
  function Resolve(obj: ObjData, it: IndexTuple, withUv: bool): (r: Result<Corner, Panic>)
    ensures (it.texture.None? || it.normal.None?) ==> r == Err(Unreachable)
    ensures r.Ok? <==> it.texture.Some? && it.normal.Some?
                       && it.position < |obj.position| && it.normal.value < |obj.normal|
                       && (withUv ==> it.texture.value < |obj.texture|)
    ensures r.Ok? ==> (r.value.position == obj.position[it.position]
                       && r.value.normal == obj.normal[it.normal.value]
                       && (withUv ==> r.value.uv == obj.texture[it.texture.value]))
  {
    if it.texture.None? || it.normal.None? then Err(Unreachable)
    else if it.position >= |obj.position| || it.normal.value >= |obj.normal|
         || (withUv && it.texture.value >= |obj.texture|) then Err(IndexOutOfBounds)
    else Ok(Corner(obj.position[it.position],
                   if withUv then obj.texture[it.texture.value] else Vec2(0.0, 0.0),
                   obj.normal[it.normal.value]))
  }

  /** The first k corners named by `idx`, resolved in order; the first
   *  failure wins. */
  function ResolvePrefix(obj: ObjData, cs: seq<IndexTuple>, idx: seq<nat>, k: nat, withUv: bool): (r: Result<seq<Corner>, Panic>)
    requires k <= |idx|
    requires forall i :: 0 <= i < |idx| ==> idx[i] < |cs|
    ensures r.Ok? ==> |r.value| == k
    decreases k
  {
    if k == 0 then Ok([])
    else
      match ResolvePrefix(obj, cs, idx, k - 1, withUv)
      case Err(e) => Err(e)
      case Ok(init) =>
        match Resolve(obj, cs[idx[k - 1]], withUv)
        case Err(e) => Err(e)
        case Ok(c) => Ok(init + [c])
  }

  /** The fan of a polygon, corner by corner. */
  function PolyCorners(obj: ObjData, p: Polygon, withUv: bool): Result<seq<Corner>, Panic> {
    var fan := FanIndices(|p.corners|);
    ResolvePrefix(obj, p.corners, fan, |fan|, withUv)
  }

  /** All corners of a group, polygon after polygon. */
  function GroupCorners(obj: ObjData, polys: seq<Polygon>, withUv: bool): Result<seq<Corner>, Panic>
    decreases |polys|
  {
    if polys == [] then Ok([])
    else
      match GroupCorners(obj, polys[..|polys| - 1], withUv)
      case Err(e) => Err(e)
      case Ok(init) =>
        match PolyCorners(obj, polys[|polys| - 1], withUv)
        case Err(e) => Err(e)
        case Ok(tail) => Ok(init + tail)
  }

  /** The corner list of each group, or the first failure. */
  function GroupsCorners(obj: ObjData, gs: seq<Group>, withUv: bool): (r: Result<seq<seq<Corner>>, Panic>)
    ensures r.Ok? ==> |r.value| == |gs|
    decreases |gs|
  {
    if gs == [] then Ok([])
    else
      match GroupsCorners(obj, gs[..|gs| - 1], withUv)
      case Err(e) => Err(e)
      case Ok(init) =>
        match GroupCorners(obj, gs[|gs| - 1].polys, withUv)
        case Err(e) => Err(e)
        case Ok(last) => Ok(init + [last])
  }

  /** A list `acc` extended by the corners of a successful resolution, or
   *  the failure. */
  function Extended(acc: seq<Corner>, res: Result<seq<Corner>, Panic>): Result<seq<Corner>, Panic> {
    match res
    case Err(e) => Err(e)
    case Ok(cs) => Ok(acc + cs)
  }

  /** A vertex list cleared at the start of each group ends up holding the
   *  last group's corners; with no groups it keeps what it held. */
  function LastOr(start: seq<Corner>, lists: seq<seq<Corner>>): seq<Corner> {
    if lists == [] then start else lists[|lists| - 1]
  }

  lemma FlattenSnoc<T>(a: seq<seq<T>>, x: seq<T>)
    ensures Flatten(a + [x]) == Flatten(a) + x
  {
    FlattenAppend(a, [x]);
    assert [x][1..] == [];
    assert Flatten([x]) == x + [];
  }

  // ---------------------------------------------------------------------
  // The loops.

  /** One polygon: `for end_index in 2..n { for index in [0, end_index - 1,
   *  end_index] { push } }`. Returns the extended list, or the panic. */
  method AppendPolygon(obj: ObjData, p: Polygon, acc: seq<Corner>, withUv: bool) returns (r: Result<seq<Corner>, Panic>)
    ensures r == Extended(acc, PolyCorners(obj, p, withUv))
  {
    var cs := p.corners;
    ghost var fan := FanIndices(|cs|);
    FanIndicesIsFan(|cs|);
    var out := acc;
    var endIndex := 2;
    while endIndex < |cs|
      invariant 2 <= endIndex && (|cs| >= 2 ==> endIndex <= |cs|) && (|cs| < 2 ==> endIndex == 2)
      invariant ResolvePrefix(obj, cs, fan, 3 * (endIndex - 2), withUv).Ok?
      invariant out == acc + ResolvePrefix(obj, cs, fan, 3 * (endIndex - 2), withUv).value
    {
      var next := AppendTriangle(obj, cs, fan, endIndex, acc, out, withUv);
      if next.Err? {
        return Err(next.error);
      }
      out := next.value;
      endIndex := endIndex + 1;
    }
    assert |fan| == 3 * (endIndex - 2);
    r := Ok(out);
  }

  /** The inner loop: the three corners (0, end_index - 1, end_index) of one
   *  fan triangle, which are corners 3(end_index - 2) .. 3(end_index - 2) + 2
   *  of the whole fan. */
  method AppendTriangle(obj: ObjData, cs: seq<IndexTuple>, ghost fan: seq<nat>, endIndex: nat,
                        ghost acc: seq<Corner>, out: seq<Corner>, withUv: bool)
    returns (r: Result<seq<Corner>, Panic>)
    requires 2 <= endIndex < |cs| && IsFan(fan, |cs|)
    requires ResolvePrefix(obj, cs, fan, 3 * (endIndex - 2), withUv).Ok?
    requires out == acc + ResolvePrefix(obj, cs, fan, 3 * (endIndex - 2), withUv).value
    ensures r.Ok? ==> ResolvePrefix(obj, cs, fan, 3 * (endIndex - 1), withUv).Ok?
                      && r.value == acc + ResolvePrefix(obj, cs, fan, 3 * (endIndex - 1), withUv).value
    ensures r.Err? ==> ResolvePrefix(obj, cs, fan, |fan|, withUv) == Err(r.error)
  {
    ghost var k := 3 * (endIndex - 2);
    assert TriangleAt(fan, endIndex - 2);
    assert k + 2 < |fan| && fan[k] == 0 && fan[k + 1] == endIndex - 1 && fan[k + 2] == endIndex;
    var tri := [0, endIndex - 1, endIndex];
    var res := out;
    for m := 0 to 3
      invariant ResolvePrefix(obj, cs, fan, k + m, withUv).Ok?
      invariant res == acc + ResolvePrefix(obj, cs, fan, k + m, withUv).value
    {
      assert tri[m] == fan[k + m];
      var next := PushCorner(obj, cs, fan, k + m, tri[m], acc, res, withUv);
      if next.Err? {
        return Err(next.error);
      }
      res := next.value;
    }
    r := Ok(res);
  }

  /** One push: corner `cs[index]`, the j-th of the fan, resolved and
   *  appended; a failure here is the failure of the whole fan. */
  method PushCorner(obj: ObjData, cs: seq<IndexTuple>, ghost fan: seq<nat>, ghost j: nat, index: nat,
                    ghost acc: seq<Corner>, res: seq<Corner>, withUv: bool)
    returns (r: Result<seq<Corner>, Panic>)
    requires j < |fan| && index == fan[j]
    requires forall i :: 0 <= i < |fan| ==> fan[i] < |cs|
    requires ResolvePrefix(obj, cs, fan, j, withUv).Ok?
    requires res == acc + ResolvePrefix(obj, cs, fan, j, withUv).value
    ensures r.Ok? ==> ResolvePrefix(obj, cs, fan, j + 1, withUv).Ok?
                      && r.value == acc + ResolvePrefix(obj, cs, fan, j + 1, withUv).value
    ensures r.Err? ==> ResolvePrefix(obj, cs, fan, |fan|, withUv) == Err(r.error)
  {
    var c := Resolve(obj, cs[index], withUv);
    ResolvePrefixNext(obj, cs, fan, j, withUv);
    if c.Err? {
      ResolvePrefixErr(obj, cs, fan, j + 1, withUv);
      return Err(c.error);
    }
    r := Ok(res + [c.value]);
  }

  lemma ResolvePrefixNext(obj: ObjData, cs: seq<IndexTuple>, idx: seq<nat>, k: nat, withUv: bool)
    requires k < |idx|
    requires forall i :: 0 <= i < |idx| ==> idx[i] < |cs|
    requires ResolvePrefix(obj, cs, idx, k, withUv).Ok?
    ensures Resolve(obj, cs[idx[k]], withUv).Err? ==>
              ResolvePrefix(obj, cs, idx, k + 1, withUv) == Err(Resolve(obj, cs[idx[k]], withUv).error)
    ensures Resolve(obj, cs[idx[k]], withUv).Ok? ==>
              ResolvePrefix(obj, cs, idx, k + 1, withUv)
                == Ok(ResolvePrefix(obj, cs, idx, k, withUv).value + [Resolve(obj, cs[idx[k]], withUv).value])
  {
  }

  /** The first failing corner decides the failure of the whole list. */
  lemma {:induction false} ResolvePrefixErr(obj: ObjData, cs: seq<IndexTuple>, idx: seq<nat>, k: nat, withUv: bool)
    requires forall i :: 0 <= i < |idx| ==> idx[i] < |cs|
    requires k <= |idx| && ResolvePrefix(obj, cs, idx, k, withUv).Err?
    ensures ResolvePrefix(obj, cs, idx, |idx|, withUv) == ResolvePrefix(obj, cs, idx, k, withUv)
    decreases |idx| - k
  {
    if k < |idx| {
      ResolvePrefixErr(obj, cs, idx, k + 1, withUv);
    }
  }

  /** One group: its polygons in order. */
  method AppendGroup(obj: ObjData, g: Group, acc: seq<Corner>, withUv: bool) returns (r: Result<seq<Corner>, Panic>)
    ensures r == Extended(acc, GroupCorners(obj, g.polys, withUv))
  {
    var out := acc;
    for i := 0 to |g.polys|
      invariant GroupCorners(obj, g.polys[..i], withUv).Ok?
      invariant out == acc + GroupCorners(obj, g.polys[..i], withUv).value
    {
      GroupCornersSnoc(obj, g.polys, i, withUv);
      ExtendedInFront(acc, GroupCorners(obj, g.polys[..i], withUv).value, PolyCorners(obj, g.polys[i], withUv));
      var next := AppendPolygon(obj, g.polys[i], out, withUv);
      if next.Err? {
        GroupCornersPrefixErr(obj, g.polys, i + 1, withUv);
        return Err(next.error);
      }
      out := next.value;
    }
    assert g.polys[..|g.polys|] == g.polys;
    r := Ok(out);
  }

  /** `chest/src/import/obj.rs` and `Mesh::from_obj` of the mesh module:
   *  one fresh list per object, accumulating every group. */
  method AccumulateObject(obj: ObjData, o: Object, withUv: bool) returns (r: Result<seq<Corner>, Panic>)
    ensures r.Ok? <==> GroupsCorners(obj, o.groups, withUv).Ok?
    ensures r.Ok? ==> r.value == Flatten(GroupsCorners(obj, o.groups, withUv).value)
  {
    var out: seq<Corner> := [];
    for i := 0 to |o.groups|
      invariant GroupsCorners(obj, o.groups[..i], withUv).Ok?
      invariant out == Flatten(GroupsCorners(obj, o.groups[..i], withUv).value)
    {
      assert o.groups[..i + 1][..i] == o.groups[..i];
      ghost var done := GroupsCorners(obj, o.groups[..i], withUv).value;
      var next := AppendGroup(obj, o.groups[i], out, withUv);
      if next.Err? {
        assert GroupsCorners(obj, o.groups[..i + 1], withUv).Err?;
        assert GroupsCorners(obj, o.groups, withUv).Err? by { GroupsPrefixErr(obj, o.groups, i + 1, withUv); }
        return Err(next.error);
      }
      FlattenSnoc(done, GroupCorners(obj, o.groups[i].polys, withUv).value);
      out := next.value;
    }
    assert o.groups[..|o.groups|] == o.groups;
    r := Ok(out);
  }

  /** A vertex list cleared at every group: it holds `start` if there are
   *  no groups, else the last group's corners. Every group is still
   *  triangulated, so a bad corner in any group panics. */
  method ClearPerGroup(obj: ObjData, gs: seq<Group>, start: seq<Corner>, withUv: bool) returns (r: Result<seq<Corner>, Panic>)
    ensures r.Ok? <==> GroupsCorners(obj, gs, withUv).Ok?
    ensures r.Ok? ==> r.value == LastOr(start, GroupsCorners(obj, gs, withUv).value)
    ensures r.Err? ==> r.error in {Unreachable, IndexOutOfBounds}
  {
    var out := start;
    for i := 0 to |gs|
      invariant GroupsCorners(obj, gs[..i], withUv).Ok?
      invariant out == LastOr(start, GroupsCorners(obj, gs[..i], withUv).value)
    {
      assert gs[..i + 1][..i] == gs[..i];
      out := [];
      var next := AppendGroup(obj, gs[i], out, withUv);
      if next.Err? {
        GroupCornersPanics(obj, gs[i].polys, withUv);
        assert GroupsCorners(obj, gs, withUv).Err? by { GroupsPrefixErr(obj, gs, i + 1, withUv); }
        return Err(next.error);
      }
      out := next.value;
    }
    assert gs[..|gs|] == gs;
    r := Ok(out);
  }

  /** One more polygon extends the group's corners by its fan, or fails
   *  with the polygon's failure. */
  lemma GroupCornersSnoc(obj: ObjData, polys: seq<Polygon>, i: nat, withUv: bool)
    requires i < |polys| && GroupCorners(obj, polys[..i], withUv).Ok?
    ensures GroupCorners(obj, polys[..i + 1], withUv)
            == Extended(GroupCorners(obj, polys[..i], withUv).value, PolyCorners(obj, polys[i], withUv))
  {
    assert polys[..i + 1][..i] == polys[..i];
  }

  /** Extending `acc + mid` is extending `mid` and putting `acc` in front. */
  lemma ExtendedInFront(acc: seq<Corner>, mid: seq<Corner>, res: Result<seq<Corner>, Panic>)
    ensures Extended(acc + mid, res).Ok? <==> res.Ok?
    ensures res.Ok? ==> Extended(acc + mid, res).value == acc + Extended(mid, res).value
    ensures res.Err? ==> Extended(acc + mid, res) == Err(res.error)
  {
  }

  lemma {:induction false} GroupCornersPrefixErr(obj: ObjData, polys: seq<Polygon>, k: nat, withUv: bool)
    requires k <= |polys| && GroupCorners(obj, polys[..k], withUv).Err?
    ensures GroupCorners(obj, polys, withUv) == GroupCorners(obj, polys[..k], withUv)
    decreases |polys| - k
  {
    if k < |polys| {
      assert polys[..k + 1][..k] == polys[..k];
      GroupCornersPrefixErr(obj, polys, k + 1, withUv);
    } else {
      assert polys[..k] == polys;
    }
  }

  /** A failure in some prefix of the groups is a failure of the whole. */
  lemma {:induction false} GroupsPrefixErr(obj: ObjData, gs: seq<Group>, k: nat, withUv: bool)
    requires k <= |gs| && GroupsCorners(obj, gs[..k], withUv).Err?
    ensures GroupsCorners(obj, gs, withUv).Err?
    decreases |gs| - k
  {
    if k < |gs| {
      assert gs[..k + 1][..k] == gs[..k];
      GroupsPrefixErr(obj, gs, k + 1, withUv);
    } else {
      assert gs[..k] == gs;
    }
  }

  /** Every group holds whole triangles. */
  lemma {:induction false} GroupCornersAreTriangles(obj: ObjData, polys: seq<Polygon>, withUv: bool)
    requires GroupCorners(obj, polys, withUv).Ok?
    ensures |GroupCorners(obj, polys, withUv).value| % 3 == 0
    decreases |polys|
  {
    if polys != [] {
      var init := polys[..|polys| - 1];
      var last := polys[|polys| - 1];
      GroupCornersAreTriangles(obj, init, withUv);
      PolygonContribution(obj, last, withUv);
      assert GroupCorners(obj, polys, withUv).value == GroupCorners(obj, init, withUv).value + PolyCorners(obj, last, withUv).value;
      SumOfTriples(|GroupCorners(obj, init, withUv).value|, |PolyCorners(obj, last, withUv).value|);
    }
  }

  lemma SumOfTriples(a: nat, b: nat)
    requires a % 3 == 0 && b % 3 == 0
    ensures (a + b) % 3 == 0
  {
    assert a == 3 * (a / 3) && b == 3 * (b / 3);
    assert a + b == 3 * (a / 3 + b / 3);
  }

  lemma {:induction false} FlattenTriangles(lists: seq<seq<Corner>>)
    requires forall i :: 0 <= i < |lists| ==> |lists[i]| % 3 == 0
    ensures |Flatten(lists)| % 3 == 0
  {
    if lists != [] {
      FlattenTriangles(lists[1..]);
      SumOfTriples(|lists[0]|, |Flatten(lists[1..])|);
    }
  }

  lemma {:induction false} GroupsAreTriangles(obj: ObjData, gs: seq<Group>, withUv: bool)
    requires GroupsCorners(obj, gs, withUv).Ok?
    ensures forall i :: 0 <= i < |gs| ==> |GroupsCorners(obj, gs, withUv).value[i]| % 3 == 0
    decreases |gs|
  {
    if gs != [] {
      GroupsAreTriangles(obj, gs[..|gs| - 1], withUv);
      GroupCornersAreTriangles(obj, gs[|gs| - 1].polys, withUv);
    }
  }

  /** A polygon with fewer than three corners contributes nothing; one with
   *  n >= 3 contributes 3(n-2) corners. */
  lemma PolygonContribution(obj: ObjData, p: Polygon, withUv: bool)
    requires PolyCorners(obj, p, withUv).Ok?
    ensures |PolyCorners(obj, p, withUv).value| == if |p.corners| < 3 then 0 else 3 * (|p.corners| - 2)
  {
  }

  /** One mesh per object: the corners of each object, accumulated over all
   *  its groups. */
  method PerObjectAccumulated(obj: ObjData, withUv: bool) returns (r: Result<seq<seq<Corner>>, Panic>)
    ensures r.Ok? ==> |r.value| == |obj.objects|
    ensures r.Ok? ==> forall i :: 0 <= i < |r.value| ==>
              GroupsCorners(obj, obj.objects[i].groups, withUv).Ok?
              && r.value[i] == Flatten(GroupsCorners(obj, obj.objects[i].groups, withUv).value)
    ensures r.Err? ==> exists i :: 0 <= i < |obj.objects| && GroupsCorners(obj, obj.objects[i].groups, withUv).Err?
  {
    var meshes: seq<seq<Corner>> := [];
    for i := 0 to |obj.objects|
      invariant |meshes| == i
      invariant forall j :: 0 <= j < i ==>
                  GroupsCorners(obj, obj.objects[j].groups, withUv).Ok?
                  && meshes[j] == Flatten(GroupsCorners(obj, obj.objects[j].groups, withUv).value)
    {
      var m := AccumulateObject(obj, obj.objects[i], withUv);
      if m.Err? {
        return Err(m.error);
      }
      meshes := meshes + [m.value];
    }
    r := Ok(meshes);
  }

  /** The resolution, read corner by corner: the list resolves iff every
   *  named corner does, and then holds their resolutions in order. */
  lemma {:induction false} ResolvePrefixPointwise(obj: ObjData, cs: seq<IndexTuple>, idx: seq<nat>, k: nat, withUv: bool)
    requires k <= |idx|
    requires forall i :: 0 <= i < |idx| ==> idx[i] < |cs|
    ensures ResolvePrefix(obj, cs, idx, k, withUv).Ok?
            <==> forall j :: 0 <= j < k ==> Resolve(obj, cs[idx[j]], withUv).Ok?
    ensures ResolvePrefix(obj, cs, idx, k, withUv).Ok? ==>
              forall j :: 0 <= j < k ==>
                ResolvePrefix(obj, cs, idx, k, withUv).value[j] == Resolve(obj, cs[idx[j]], withUv).value
    decreases k
  {
    if k > 0 {
      ResolvePrefixPointwise(obj, cs, idx, k - 1, withUv);
    }
  }

  /** Triangle t of a resolved polygon is made of its corners 0, t+1 and
   *  t+2, in that order. */
  lemma PolygonTriangle(obj: ObjData, p: Polygon, withUv: bool, t: nat)
    requires PolyCorners(obj, p, withUv).Ok?
    requires |p.corners| >= 3 && t < |p.corners| - 2
    ensures Resolve(obj, p.corners[0], withUv).Ok? && Resolve(obj, p.corners[t + 1], withUv).Ok?
            && Resolve(obj, p.corners[t + 2], withUv).Ok?
    ensures PolyCorners(obj, p, withUv).value[3 * t] == Resolve(obj, p.corners[0], withUv).value
    ensures PolyCorners(obj, p, withUv).value[3 * t + 1] == Resolve(obj, p.corners[t + 1], withUv).value
    ensures PolyCorners(obj, p, withUv).value[3 * t + 2] == Resolve(obj, p.corners[t + 2], withUv).value
  {
    var fan := FanIndices(|p.corners|);
    ResolvePrefixPointwise(obj, p.corners, fan, |fan|, withUv);
    FanShape(|p.corners|, t);
  }

  /** `Mesh::from_obj` of the scene-resource module: one list per object,
   *  cleared at each group, then `assert_eq!(len % 3, 0)` before the mesh
   *  is kept. The assertion can never fail: every group holds whole
   *  triangles, so the only panics are those of the corner lookup. */
  method PerObjectLastGroup(obj: ObjData) returns (r: Result<seq<seq<Corner>>, Panic>)
    ensures r.Ok? ==> |r.value| == |obj.objects|
    ensures r.Ok? ==> forall i :: 0 <= i < |r.value| ==>
              GroupsCorners(obj, obj.objects[i].groups, true).Ok?
              && r.value[i] == LastOr([], GroupsCorners(obj, obj.objects[i].groups, true).value)
    ensures r.Ok? ==> forall i :: 0 <= i < |r.value| ==> |r.value[i]| % 3 == 0
    ensures r.Ok? <==> forall i :: 0 <= i < |obj.objects| ==> GroupsCorners(obj, obj.objects[i].groups, true).Ok?
    ensures r.Err? ==> r.error in {Unreachable, IndexOutOfBounds}
  {
    var meshes: seq<seq<Corner>> := [];
    for i := 0 to |obj.objects|
      invariant |meshes| == i
      invariant forall j :: 0 <= j < i ==>
                  GroupsCorners(obj, obj.objects[j].groups, true).Ok?
                  && meshes[j] == LastOr([], GroupsCorners(obj, obj.objects[j].groups, true).value)
                  && |meshes[j]| % 3 == 0
    {
      var vertices := ClearPerGroup(obj, obj.objects[i].groups, [], true);
      if vertices.Err? {
        return Err(vertices.error);
      }
      GroupsAreTriangles(obj, obj.objects[i].groups, true);
      if |vertices.value| % 3 != 0 {
        return Err(AssertFailed);
      }
      meshes := meshes + [vertices.value];
    }
    r := Ok(meshes);
  }

  /** Corner lookups fail only by a missing index or an index out of range. */
  lemma {:induction false} ResolvePrefixPanics(obj: ObjData, cs: seq<IndexTuple>, idx: seq<nat>, k: nat, withUv: bool)
    requires k <= |idx|
    requires forall i :: 0 <= i < |idx| ==> idx[i] < |cs|
    requires ResolvePrefix(obj, cs, idx, k, withUv).Err?
    ensures ResolvePrefix(obj, cs, idx, k, withUv).error in {Unreachable, IndexOutOfBounds}
    decreases k
  {
    if ResolvePrefix(obj, cs, idx, k - 1, withUv).Err? {
      ResolvePrefixPanics(obj, cs, idx, k - 1, withUv);
    }
  }

  lemma {:induction false} GroupCornersPanics(obj: ObjData, polys: seq<Polygon>, withUv: bool)
    requires GroupCorners(obj, polys, withUv).Err?
    ensures GroupCorners(obj, polys, withUv).error in {Unreachable, IndexOutOfBounds}
    decreases |polys|
  {
    if GroupCorners(obj, polys[..|polys| - 1], withUv).Err? {
      GroupCornersPanics(obj, polys[..|polys| - 1], withUv);
    } else {
      var p := polys[|polys| - 1];
      var fan := FanIndices(|p.corners|);
      ResolvePrefixPanics(obj, p.corners, fan, |fan|, withUv);
    }
  }

  /** Every group of every object, in file order. */
  function AllGroups(objects: seq<Object>): (gs: seq<Group>)
    ensures objects == [] ==> gs == []
  {
    if objects == [] then [] else AllGroups(objects[..|objects| - 1]) + objects[|objects| - 1].groups
  }

  lemma {:induction false} GroupsCornersAppend(obj: ObjData, a: seq<Group>, b: seq<Group>, withUv: bool)
    ensures GroupsCorners(obj, a + b, withUv).Ok?
            <==> GroupsCorners(obj, a, withUv).Ok? && GroupsCorners(obj, b, withUv).Ok?
    ensures GroupsCorners(obj, a + b, withUv).Ok? ==>
              GroupsCorners(obj, a + b, withUv).value
                == GroupsCorners(obj, a, withUv).value + GroupsCorners(obj, b, withUv).value
    decreases |b|
  {
    if b == [] {
      assert a + b == a;
    } else {
      var b' := b[..|b| - 1];
      assert (a + b)[..|a + b| - 1] == a + b';
      assert (a + b)[|a + b| - 1] == b[|b| - 1];
      GroupsCornersAppend(obj, a, b', withUv);
    }
  }

  /** `Mesh::from_obj` of the component module and of the resource module
   *  of `core-dep`: a single list for the whole file, cleared at every
   *  group, so the mesh is the last group of the file (or empty when the
   *  file has no groups), while every group is still checked. */
  method SharedLastGroup(obj: ObjData, withUv: bool) returns (r: Result<seq<Corner>, Panic>)
    ensures r.Ok? <==> GroupsCorners(obj, AllGroups(obj.objects), withUv).Ok?
    ensures r.Ok? ==> r.value == LastOr([], GroupsCorners(obj, AllGroups(obj.objects), withUv).value)
    ensures r.Err? ==> r.error in {Unreachable, IndexOutOfBounds}
  {
    var vertices: seq<Corner> := [];
    for i := 0 to |obj.objects|
      invariant GroupsCorners(obj, AllGroups(obj.objects[..i]), withUv).Ok?
      invariant vertices == LastOr([], GroupsCorners(obj, AllGroups(obj.objects[..i]), withUv).value)
    {
      var gs := obj.objects[i].groups;
      AllGroupsStep(obj, i, withUv);
      var next := ClearPerGroup(obj, gs, vertices, withUv);
      if next.Err? {
        AllGroupsPrefixErr(obj, i + 1, withUv);
        return Err(next.error);
      }
      vertices := next.value;
    }
    assert obj.objects[..|obj.objects|] == obj.objects;
    r := Ok(vertices);
  }

  /** One more object's groups: the file so far still parses exactly when
   *  they do, and the last list is theirs if they have any. */
  lemma AllGroupsStep(obj: ObjData, i: nat, withUv: bool)
    requires i < |obj.objects| && GroupsCorners(obj, AllGroups(obj.objects[..i]), withUv).Ok?
    ensures var before := GroupsCorners(obj, AllGroups(obj.objects[..i]), withUv);
            var gs := GroupsCorners(obj, obj.objects[i].groups, withUv);
            var after := GroupsCorners(obj, AllGroups(obj.objects[..i + 1]), withUv);
            (after.Ok? <==> gs.Ok?)
            && (after.Ok? ==> LastOr([], after.value) == LastOr(LastOr([], before.value), gs.value))
  {
    var gs := obj.objects[i].groups;
    assert obj.objects[..i + 1][..i] == obj.objects[..i];
    assert AllGroups(obj.objects[..i + 1]) == AllGroups(obj.objects[..i]) + gs;
    GroupsCornersAppend(obj, AllGroups(obj.objects[..i]), gs, withUv);
  }

  lemma {:induction false} AllGroupsPrefixErr(obj: ObjData, k: nat, withUv: bool)
    requires k <= |obj.objects| && GroupsCorners(obj, AllGroups(obj.objects[..k]), withUv).Err?
    ensures GroupsCorners(obj, AllGroups(obj.objects), withUv).Err?
    decreases |obj.objects| - k
  {
    if k < |obj.objects| {
      assert obj.objects[..k + 1][..k] == obj.objects[..k];
      GroupsCornersAppend(obj, AllGroups(obj.objects[..k]), obj.objects[k].groups, withUv);
      AllGroupsPrefixErr(obj, k + 1, withUv);
    } else {
      assert obj.objects[..k] == obj.objects;
    }
  }
}

/** Per-vertex tangents for triangle lists, as both mesh types compute them
 *  (`recalculate_tangent` in core/src/render/mesh.rs and in
 *  core/src/scene/resource.rs run the same two loops).
 *
 *  Vertices 3k, 3k+1 and 3k+2 form triangle k. Every vertex accumulates the
 *  tangent and bitangent of the triangles it belongs to, which is exactly
 *  one triangle, or none for the vertices after the last whole triangle.
 *  The arithmetic is over reals; only the reciprocal, which `f32` answers
 *  with an infinity at zero, is a parameter. */
module Tangent {
  import opened Common

  /** `1.0 / x` in `f32`. */
  type Recip = real -> real

  /** The tangent and bitangent of one triangle, from its edges and the
   *  differences of its texture coordinates. */
  function TriangleBasis(p0: Vec3, p1: Vec3, p2: Vec3, u0: Vec2, u1: Vec2, u2: Vec2, recip: Recip): (Vec3, Vec3) {
    var e1 := Sub3(p1, p0);
    var e2 := Sub3(p2, p0);
    var x1 := u1.x - u0.x;
    var x2 := u2.x - u0.x;
    var y1 := u1.y - u0.y;
    var y2 := u2.y - u0.y;
    var r := recip(x1 * y2 - x2 * y1);
    (Scale3(Sub3(Scale3(e1, y2), Scale3(e2, y1)), r), Scale3(Sub3(Scale3(e2, x1), Scale3(e1, x2)), r))
  }

  /** The sign stored in the tangent's fourth component. */
  function Handedness(t: Vec3, b: Vec3, n: Vec3): (s: real)
    ensures s == 1.0 || s == -1.0
    ensures s == 1.0 <==> Dot3(Cross3(t, b), n) > 0.0
  {
    if Dot3(Cross3(t, b), n) > 0.0 then 1.0 else -1.0
  }

  /** glam's `n.reject_from(t)`: `n` minus its projection onto `t`. */
  function RejectFrom(n: Vec3, t: Vec3, recip: Recip): Vec3 {
    Sub3(n, Scale3(t, Dot3(n, t) * recip(Dot3(t, t))))
  }

  /** What vertex `i` has accumulated once every triangle is processed. */
  function Accumulated(ps: seq<Vec3>, uvs: seq<Vec2>, count: nat, i: nat, recip: Recip): (tb: (Vec3, Vec3))
    requires count <= |ps| && count <= |uvs| && i < count
    ensures i >= count / 3 * 3 ==> tb == (ZERO3, ZERO3)
  {
    if i < count / 3 * 3 then
      var k := i / 3 * 3;
      TriangleBasis(ps[k], ps[k + 1], ps[k + 2], uvs[k], uvs[k + 1], uvs[k + 2], recip)
    else
      (ZERO3, ZERO3)
  }

  /** The tangent of vertex `i`: the normal with its component along the
   *  accumulated tangent removed, extended by the handedness sign. */
  function TangentOf(ps: seq<Vec3>, ns: seq<Vec3>, uvs: seq<Vec2>, count: nat, i: nat, recip: Recip): (v: Vec4)
    requires count <= |ps| && count <= |ns| && count <= |uvs| && i < count
    ensures v.w == 1.0 || v.w == -1.0
  {
    var tb := Accumulated(ps, uvs, count, i, recip);
    FinishVertex(tb.0, tb.1, ns[i], recip)
  }

  /** The second loop's step: the normal rejected from the tangent,
   *  extended by the handedness sign. */
  function FinishVertex(t: Vec3, b: Vec3, n: Vec3, recip: Recip): (v: Vec4)
    ensures v.w == 1.0 || v.w == -1.0
  {
    var x := RejectFrom(n, t, recip);
    Vec4(x.x, x.y, x.z, Handedness(t, b, n))
  }

  /** The two loops of `recalculate_tangent` over the first `count`
   *  vertices: accumulate per triangle, then finish per vertex. */
  method Tangents(ps: seq<Vec3>, ns: seq<Vec3>, uvs: seq<Vec2>, count: nat, recip: Recip) returns (r: seq<Vec4>)
    requires count <= |ps| && count <= |ns| && count <= |uvs|
    ensures |r| == count
    ensures forall i :: 0 <= i < count ==> r[i] == TangentOf(ps, ns, uvs, count, i, recip)
  {
    var tangents, bitangents := AccumulateBases(ps, uvs, count, recip);
    r := FinishVertices(tangents, bitangents, ns[..count], recip);
  }

  /** The second loop: each vertex's tangent from its accumulated tangent,
   *  bitangent and normal. */
  method FinishVertices(ts: seq<Vec3>, bs: seq<Vec3>, ns: seq<Vec3>, recip: Recip) returns (r: seq<Vec4>)
    requires |ts| == |bs| == |ns|
    ensures |r| == |ts|
    ensures forall i :: 0 <= i < |ts| ==> r[i] == FinishVertex(ts[i], bs[i], ns[i], recip)
  {
    r := seq(|ts|, _ => Vec4(0.0, 0.0, 0.0, 0.0));
    for iv := 0 to |ts|
      invariant |r| == |ts|
      invariant forall i :: 0 <= i < iv ==> r[i] == FinishVertex(ts[i], bs[i], ns[i], recip)
    {
      r := r[iv := FinishVertex(ts[iv], bs[iv], ns[iv], recip)];
    }
  }

  /** The first loop: every triangle adds its basis to its three corners,
   *  starting from zero vectors. */
  method AccumulateBases(ps: seq<Vec3>, uvs: seq<Vec2>, count: nat, recip: Recip) returns (ts: seq<Vec3>, bs: seq<Vec3>)
    requires count <= |ps| && count <= |uvs|
    ensures |ts| == count && |bs| == count
    ensures forall i :: 0 <= i < count ==> ts[i] == Accumulated(ps, uvs, count, i, recip).0
    ensures forall i :: 0 <= i < count ==> bs[i] == Accumulated(ps, uvs, count, i, recip).1
  {
    var tangents := seq(count, _ => ZERO3);
    var bitangents := seq(count, _ => ZERO3);
    for tri := 0 to count / 3
      invariant |tangents| == count && |bitangents| == count
      invariant forall k :: 0 <= k < tri ==> CornersHold(tangents, bitangents, ps, uvs, k, recip)
      invariant forall i :: 3 * tri <= i < count ==> tangents[i] == ZERO3 && bitangents[i] == ZERO3
    {
      var i0 := tri * 3;
      var i1 := i0 + 1;
      var i2 := i1 + 1;
      var tb := TriangleBasis(ps[i0], ps[i1], ps[i2], uvs[i0], uvs[i1], uvs[i2], recip);
      ghost var ts0, bs0 := tangents, bitangents;
      tangents := tangents[i0 := Add3(tangents[i0], tb.0)][i1 := Add3(tangents[i1], tb.0)][i2 := Add3(tangents[i2], tb.0)];
      bitangents := bitangents[i0 := Add3(bitangents[i0], tb.1)][i1 := Add3(bitangents[i1], tb.1)][i2 := Add3(bitangents[i2], tb.1)];
      AccumulateStep(ts0, bs0, tangents, bitangents, ps, uvs, count, tri, recip);
    }
    ts, bs := tangents, bitangents;
    CornersGiveAccumulated(ts, bs, ps, uvs, count, recip);
  }

  lemma CornersGiveAccumulated(ts: seq<Vec3>, bs: seq<Vec3>, ps: seq<Vec3>, uvs: seq<Vec2>, count: nat, recip: Recip)
    requires count <= |ps| && count <= |uvs| && |ts| == count && |bs| == count
    requires forall k :: 0 <= k < count / 3 ==> CornersHold(ts, bs, ps, uvs, k, recip)
    requires forall i :: 3 * (count / 3) <= i < count ==> ts[i] == ZERO3 && bs[i] == ZERO3
    ensures forall i :: 0 <= i < count ==> ts[i] == Accumulated(ps, uvs, count, i, recip).0
    ensures forall i :: 0 <= i < count ==> bs[i] == Accumulated(ps, uvs, count, i, recip).1
  {
    forall i | 0 <= i < count
      ensures ts[i] == Accumulated(ps, uvs, count, i, recip).0 && bs[i] == Accumulated(ps, uvs, count, i, recip).1
    {
      if i < count / 3 * 3 {
        var k := i / 3;
        assert CornersHold(ts, bs, ps, uvs, k, recip);
        TriangleCorners(ps, uvs, count, k, recip);
      }
    }
  }

  /** The three corners of triangle `k` hold its basis. */
  ghost predicate CornersHold(ts: seq<Vec3>, bs: seq<Vec3>, ps: seq<Vec3>, uvs: seq<Vec2>, k: nat, recip: Recip) {
    var j := 3 * k;
    j + 2 < |ts| && j + 2 < |bs| && j + 2 < |ps| && j + 2 < |uvs|
    && var tb := TriangleBasis(ps[j], ps[j + 1], ps[j + 2], uvs[j], uvs[j + 1], uvs[j + 2], recip);
       ts[j] == tb.0 && ts[j + 1] == tb.0 && ts[j + 2] == tb.0
       && bs[j] == tb.1 && bs[j + 1] == tb.1 && bs[j + 2] == tb.1
  }

  /** One pass of the first loop keeps the earlier triangles, completes
   *  triangle `tri` and leaves the later vertices at zero. */
  lemma AccumulateStep(ts0: seq<Vec3>, bs0: seq<Vec3>, ts: seq<Vec3>, bs: seq<Vec3>,
                       ps: seq<Vec3>, uvs: seq<Vec2>, count: nat, tri: nat, recip: Recip)
    requires count <= |ps| && count <= |uvs| && tri < count / 3
    requires |ts0| == count && |bs0| == count
    requires forall k :: 0 <= k < tri ==> CornersHold(ts0, bs0, ps, uvs, k, recip)
    requires forall i :: 3 * tri <= i < count ==> ts0[i] == ZERO3 && bs0[i] == ZERO3
    requires var i0 := 3 * tri;
             var tb := TriangleBasis(ps[i0], ps[i0 + 1], ps[i0 + 2], uvs[i0], uvs[i0 + 1], uvs[i0 + 2], recip);
             ts == ts0[i0 := Add3(ts0[i0], tb.0)][i0 + 1 := Add3(ts0[i0 + 1], tb.0)][i0 + 2 := Add3(ts0[i0 + 2], tb.0)]
             && bs == bs0[i0 := Add3(bs0[i0], tb.1)][i0 + 1 := Add3(bs0[i0 + 1], tb.1)][i0 + 2 := Add3(bs0[i0 + 2], tb.1)]
    ensures |ts| == count && |bs| == count
    ensures forall k :: 0 <= k < tri + 1 ==> CornersHold(ts, bs, ps, uvs, k, recip)
    ensures forall i :: 3 * (tri + 1) <= i < count ==> ts[i] == ZERO3 && bs[i] == ZERO3
  {
    var i0 := 3 * tri;
    var tb := TriangleBasis(ps[i0], ps[i0 + 1], ps[i0 + 2], uvs[i0], uvs[i0 + 1], uvs[i0 + 2], recip);
    assert Add3(ZERO3, tb.0) == tb.0 && Add3(ZERO3, tb.1) == tb.1;
    forall k | 0 <= k < tri
      ensures CornersHold(ts, bs, ps, uvs, k, recip)
    {
      assert CornersHold(ts0, bs0, ps, uvs, k, recip);
      assert 3 * k + 2 < i0;
    }
  }

  /** The corners of triangle `tri` accumulate exactly that triangle's
   *  basis. */
  lemma TriangleCorners(ps: seq<Vec3>, uvs: seq<Vec2>, count: nat, tri: nat, recip: Recip)
    requires count <= |ps| && count <= |uvs| && tri < count / 3
    ensures var k := 3 * tri;
            var tb := TriangleBasis(ps[k], ps[k + 1], ps[k + 2], uvs[k], uvs[k + 1], uvs[k + 2], recip);
            Accumulated(ps, uvs, count, k, recip) == tb
            && Accumulated(ps, uvs, count, k + 1, recip) == tb
            && Accumulated(ps, uvs, count, k + 2, recip) == tb
  {
    var k := 3 * tri;
    assert k / 3 * 3 == k && (k + 1) / 3 * 3 == k && (k + 2) / 3 * 3 == k;
    assert k + 2 < count / 3 * 3;
  }

  /** The three corners of a triangle end up with the same tangent and
   *  bitangent, whatever their normals. */
  lemma CornersShareBasis(ps: seq<Vec3>, uvs: seq<Vec2>, count: nat, k: nat, recip: Recip)
    requires count <= |ps| && count <= |uvs| && 3 * k + 2 < count
    ensures Accumulated(ps, uvs, count, 3 * k, recip) == Accumulated(ps, uvs, count, 3 * k + 1, recip)
    ensures Accumulated(ps, uvs, count, 3 * k, recip) == Accumulated(ps, uvs, count, 3 * k + 2, recip)
  {
    assert 3 * k + 2 < count / 3 * 3;
  }

  /** With an exact reciprocal, the rejected vector has no component along
   *  the tangent it was rejected from. */
  lemma RejectFromOrthogonal(n: Vec3, t: Vec3, recip: Recip)
    requires Dot3(t, t) * recip(Dot3(t, t)) == 1.0
    ensures Dot3(RejectFrom(n, t, recip), t) == 0.0
  {
    var tt := Dot3(t, t);
    var c := Dot3(n, t) * recip(tt);
    DotSub(n, Scale3(t, c), t);
    DotScale(t, c);
    assert c * tt == Dot3(n, t) * (recip(tt) * tt);
  }

  lemma DotSub(a: Vec3, b: Vec3, t: Vec3)
    ensures Dot3(Sub3(a, b), t) == Dot3(a, t) - Dot3(b, t)
  {
  }

  lemma DotScale(t: Vec3, c: real)
    ensures Dot3(Scale3(t, c), t) == c * Dot3(t, t)
  {
  }

  /** A vertex after the last whole triangle accumulates nothing, so its
   *  tangent is the normal itself with handedness -1 (in exact arithmetic;
   *  in `f32` the projection onto a zero vector is NaN). */
  lemma LeftoverVertex(ps: seq<Vec3>, ns: seq<Vec3>, uvs: seq<Vec2>, count: nat, i: nat, recip: Recip)
    requires count <= |ps| && count <= |ns| && count <= |uvs|
    requires count / 3 * 3 <= i < count
    ensures TangentOf(ps, ns, uvs, count, i, recip) == Vec4(ns[i].x, ns[i].y, ns[i].z, -1.0)
  {
  }
}

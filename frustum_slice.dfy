/** `frustum_slice`: cuts a camera's depth range into `count` consecutive
 *  slices, each as wide as a blend of a logarithmic and a uniform split,
 *  for cascaded shadow maps.
 *
 *  Floats are reals. The growth ratio `(far / near).powf(1 / count)` and
 *  `powf` itself are parameters. */
module FrustumSlicing {
  import opened Helper

  function Near(p: CameraProjection): real {
    match p
    case Perspective(pp) => pp.near
    case Orthographic(o) => o.near
  }

  function Far(p: CameraProjection): real {
    match p
    case Perspective(pp) => pp.far
    case Orthographic(o) => o.far
  }

  /** `CameraProjection { near, far, ..proj }`: same variant, only the planes
   *  replaced. */
  function WithPlanes(p: CameraProjection, near: real, far: real): CameraProjection {
    match p
    case Perspective(pp) => Perspective(pp.(near := near, far := far))
    case Orthographic(o) => Orthographic(o.(near := near, far := far))
  }

  /** A slice of `p`: the same variant and every field except the planes
   *  equal to `p`'s. */
  predicate SliceOf(s: CameraProjection, p: CameraProjection) {
    WithPlanes(s, Near(p), Far(p)) == p
  }

  /** Replacing the planes keeps the variant and every other field, and
   *  sets exactly the two planes. */
  lemma WithPlanesIsSlice(p: CameraProjection, near: real, far: real)
    ensures SliceOf(WithPlanes(p, near, far), p)
    ensures Near(WithPlanes(p, near, far)) == near && Far(WithPlanes(p, near, far)) == far
  {
    match p
    case Perspective(pp) =>
    case Orthographic(o) =>
  }

  /** The width of slice `x`: `lambda * d_log + (1 - lambda) * d_uni` with
   *  `d_log = near * r^x` and `d_uni = near + (far - near) / count * (x + 1)`. */
  function SliceWidth(p: CameraProjection, count: nat, lambda: real, r: real, powf: (real, real) -> real, x: nat): real
    requires count > 0
  {
    var dLog := Near(p) * powf(r, x as real);
    var dUni := Near(p) + (Far(p) - Near(p)) / (count as real) * (x as real + 1.0);
    lambda * dLog + (1.0 - lambda) * dUni
  }

  /** The sum of the first `n` widths. */
  function WidthSum(p: CameraProjection, count: nat, lambda: real, r: real, powf: (real, real) -> real, n: nat): real
    requires count > 0
  {
    if n == 0 then 0.0 else WidthSum(p, count, lambda, r, powf, n - 1) + SliceWidth(p, count, lambda, r, powf, n - 1)
  }

  /** One more slice, from `prev` to `near = prev + d`, kept after those
   *  already cut. */
  lemma {:induction false} SliceStep(proj: CameraProjection, count: nat, lambda: real, r: real, powf: (real, real) -> real,
                                     slices: seq<CameraProjection>, x: nat, prev: real, d: real, near: real)
    requires x < count && |slices| == x
    requires prev == Near(proj) + WidthSum(proj, count, lambda, r, powf, x)
    requires d == SliceWidth(proj, count, lambda, r, powf, x) && near == prev + d
    requires forall i :: 0 <= i < x ==> SliceOf(slices[i], proj)
    requires x > 0 ==> Near(slices[0]) == Near(proj) && Far(slices[x - 1]) == prev
    requires forall i :: 0 <= i < x - 1 ==> Far(slices[i]) == Near(slices[i + 1])
    requires forall i :: 0 <= i < x ==> Far(slices[i]) - Near(slices[i]) == SliceWidth(proj, count, lambda, r, powf, i)
    ensures var s := slices + [WithPlanes(proj, near - d, near)];
      && near == Near(proj) + WidthSum(proj, count, lambda, r, powf, x + 1)
      && (forall i :: 0 <= i < x + 1 ==> SliceOf(s[i], proj))
      && Near(s[0]) == Near(proj) && Far(s[x]) == near
      && (forall i :: 0 <= i < x ==> Far(s[i]) == Near(s[i + 1]))
      && (forall i :: 0 <= i < x + 1 ==> Far(s[i]) - Near(s[i]) == SliceWidth(proj, count, lambda, r, powf, i))
  {
    var s := slices + [WithPlanes(proj, near - d, near)];
    WithPlanesIsSlice(proj, near - d, near);
    assert forall i :: 0 <= i < x ==> s[i] == slices[i];
  }

  /** `frustum_slice(proj, count, lambda)`. The closure keeps a running
   *  `near`: each slice starts where the previous one ended, the first at
   *  the camera's near plane, and the last ends at near plus the sum of all
   *  widths, which is not clamped to the camera's far plane. */
  method FrustumSlice(proj: CameraProjection, count: nat, lambda: real, ratio: (real, real, nat) -> real,
                      powf: (real, real) -> real) returns (slices: seq<CameraProjection>)
    ensures |slices| == count
    ensures forall i :: 0 <= i < count ==> SliceOf(slices[i], proj)
    ensures count > 0 ==> Near(slices[0]) == Near(proj)
    ensures forall i :: 0 <= i < count - 1 ==> Far(slices[i]) == Near(slices[i + 1])
    ensures count > 0 ==> forall i :: 0 <= i < count ==>
      Far(slices[i]) - Near(slices[i]) == SliceWidth(proj, count, lambda, ratio(Far(proj), Near(proj), count), powf, i)
    ensures count > 0 ==>
      Far(slices[count - 1]) == Near(proj) + WidthSum(proj, count, lambda, ratio(Far(proj), Near(proj), count), powf, count)
  {
    var r := ratio(Far(proj), Near(proj), count);
    var near := Near(proj);
    slices := [];
    for x := 0 to count
      invariant |slices| == x
      invariant count > 0 ==> near == Near(proj) + WidthSum(proj, count, lambda, r, powf, x)
      invariant forall i :: 0 <= i < x ==> SliceOf(slices[i], proj)
      invariant x > 0 ==> Near(slices[0]) == Near(proj) && Far(slices[x - 1]) == near
      invariant forall i :: 0 <= i < x - 1 ==> Far(slices[i]) == Near(slices[i + 1])
      invariant forall i :: 0 <= i < x ==> Far(slices[i]) - Near(slices[i]) == SliceWidth(proj, count, lambda, r, powf, i)
    {
      var dSlice := SliceWidth(proj, count, lambda, r, powf, x);
      ghost var prev := near;
      near := near + dSlice;
      SliceStep(proj, count, lambda, r, powf, slices, x, prev, dSlice, near);
      slices := slices + [WithPlanes(proj, near - dSlice, near)];
    }
  }
}

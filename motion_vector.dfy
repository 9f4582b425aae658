/** The motion-vector prepass node: each frame it uploads the view matrix
 *  of the frame before, and remembers this frame's for the next one. */
module MotionVector {
  import opened Common
  import opened Matrix
  import opened Buffers
  import SC = SceneComponent

  type Uuid = nat

  /** The node's data once built: the remembered view and the uniform
   *  buffer holding the previous view. */
  datatype NodeData = NodeData(currentView: Mat4, previousView: BufferState)

  /** The view of a camera: the inverse of its transform's matrix. */
  function ViewOf(camera: SC.Transform): Mat4 {
    Inverse(SC.TransformMatrix(camera))
  }

  /** One `prepare`: the buffer cleared, the remembered view pushed and
   *  written, then the camera's view remembered. */
  function Prepared(d: NodeData, camera: SC.Transform, toBytes: Mat4 -> seq<byte>): (r: NodeData)
    ensures r.currentView == ViewOf(camera)
    ensures r.previousView.raw == toBytes(d.currentView)
    ensures r.previousView.usage == d.previousView.usage
  {
    NodeData(ViewOf(camera), DynamicWritten(Pushed(Cleared(d.previousView), toBytes(d.currentView))))
  }

  /** The views uploaded by successive prepares, one per camera. */
  function Uploads(d: NodeData, cameras: seq<SC.Transform>, toBytes: Mat4 -> seq<byte>): (r: (NodeData, seq<Mat4>))
    ensures |r.1| == |cameras|
  {
    if cameras == [] then (d, [])
    else
      var prev := Uploads(d, cameras[..|cameras| - 1], toBytes);
      (Prepared(prev.0, cameras[|cameras| - 1], toBytes), prev.1 + [prev.0.currentView])
  }

  /** A one-frame delay line: the k-th prepare uploads the view of the
   *  camera the (k-1)-th prepare saw, and the first uploads the view the
   *  node was built with. */
  lemma {:induction false} UploadsLagOneFrame(d: NodeData, cameras: seq<SC.Transform>, toBytes: Mat4 -> seq<byte>, k: nat)
    requires k < |cameras|
    ensures Uploads(d, cameras, toBytes).1[k] == if k == 0 then d.currentView else ViewOf(cameras[k - 1])
    ensures Uploads(d, cameras, toBytes).0.currentView == ViewOf(cameras[|cameras| - 1])
  {
    var n := |cameras| - 1;
    var init := cameras[..n];
    if k < n {
      UploadsLagOneFrame(d, init, toBytes, k);
    } else if n > 0 {
      UploadsLagOneFrame(d, init, toBytes, n - 1);
    }
  }

  class MotionVectorPrepassNode {
    /** The node's data: present (`previousView != null`) once built. */
    var currentView: Mat4
    var previousView: DynamicGpuBuffer?

    function Data(): (d: NodeData)
      reads this, previousView
      requires previousView != null
      ensures d.currentView == currentView
    {
      NodeData(currentView, previousView.State())
    }

    /** `Default`: not built yet. */
    constructor ()
      ensures previousView == null
    {
      currentView := Identity;
      previousView := null;
    }

    /** `build`: the remembered view starts as the default matrix and the
     *  previous-view buffer is a fresh, empty uniform buffer. */
    method Build()
      modifies this
      ensures previousView != null && fresh(previousView)
      ensures Data() == NodeData(Identity, BufferState([], None, true, {UNIFORM}))
    {
      previousView := new DynamicGpuBuffer({UNIFORM});
      currentView := Identity;
    }

    /** `prepare`: nothing before `build`; afterwards the buffer holds
     *  exactly one config, the view remembered from the frame before, and
     *  the camera's view is remembered. */
    method Prepare(camera: SC.Transform, toBytes: Mat4 -> seq<byte>)
      modifies this, previousView
      ensures previousView == old(previousView)
      ensures old(previousView) == null ==> currentView == old(currentView)
      ensures old(previousView) != null ==> Data() == Prepared(old(Data()), camera, toBytes)
    {
      if previousView == null {
        return;
      }
      previousView.Clear();
      var _ := previousView.Push(toBytes(currentView));
      previousView.Write();
      currentView := ViewOf(camera);
    }

    /** `draw`: nothing before `build`. Afterwards the bind group unwraps
     *  the scene's camera binding and then the previous-view buffer's, the
     *  pass indexes the motion-vector and depth-prepass views, and every
     *  queued mesh indexes the scene's meshes and the node's pipelines
     *  before its draw call. The result is the number of draw calls
     *  submitted, or `None` when nothing is. */
    method Draw(cameraBinding: Option<DeviceBuffer>, hasMotionView: bool, hasDepthView: bool,
                meshes: seq<Uuid>, gpuMeshes: set<Uuid>, pipelines: set<Uuid>)
      returns (r: Result<Option<nat>, Panic>)
      ensures previousView == null ==> r == Ok(None)
      ensures previousView != null && (cameraBinding.None? || previousView.Binding().None?) ==> r == Err(UnwrapNone)
      ensures previousView != null && cameraBinding.Some? && previousView.Binding().Some? ==>
        (r.Ok? <==> hasMotionView && hasDepthView && forall i :: 0 <= i < |meshes| ==> meshes[i] in gpuMeshes && meshes[i] in pipelines)
      ensures previousView != null && cameraBinding.Some? && previousView.Binding().Some? && r.Err? ==> r.error == MissingKey
      ensures r.Ok? && previousView != null ==> r.value == Some(|meshes|)
    {
      if previousView == null {
        return Ok(None);
      }
      if cameraBinding.None? || previousView.Binding().None? {
        return Err(UnwrapNone);
      }
      if !hasMotionView || !hasDepthView {
        return Err(MissingKey);
      }
      var draws := 0;
      while draws < |meshes|
        invariant draws <= |meshes|
        invariant forall i :: 0 <= i < draws ==> meshes[i] in gpuMeshes && meshes[i] in pipelines
      {
        if meshes[draws] !in gpuMeshes || meshes[draws] !in pipelines {
          return Err(MissingKey);
        }
        draws := draws + 1;
      }
      return Ok(Some(draws));
    }
  }

  /** The second unwrap cannot fail once a prepare has uploaded a
   *  non-empty view, or a device buffer already existed. */
  lemma PreparedBinds(d: NodeData, camera: SC.Transform, toBytes: Mat4 -> seq<byte>)
    requires |toBytes(d.currentView)| > 0 || d.previousView.gpu.Some?
    ensures Prepared(d, camera, toBytes).previousView.gpu.Some?
  {
  }
}

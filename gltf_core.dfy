/** The glTF loader of the core crate (`core/src/import/gltf.rs`). It
 *  checks the camera count, loads the buffers and walks the vertex
 *  attributes of every primitive, but builds no scene: each path that gets
 *  past the checks ends in `todo!()`.
 *
 *  Its buffer loading is the same code as the chest importer's and is
 *  modelled once, by `GltfData.LoadBuffersData`. The meshes' primitives
 *  are flattened into their attributes in the order the nested loops
 *  visit them: meshes and primitives in document order, each primitive's
 *  attributes in the order its attribute map yields them. */
module GltfCore {
  import opened Common
  import opened ResultFold
  import opened GltfData

  /** A vertex attribute: what it holds, its component type, its view. */
  datatype CoreAttribute = CoreAttribute(semantic: Semantic, dataType: DataType, view: Option<View>)

  /** What the loader reads of a document: its camera count, its buffers
   *  and binary chunk, and the attributes of all its primitives. */
  datatype CoreDocument = CoreDocument(cameraCount: nat, buffers: seq<BufferSource>, blob: Option<seq<byte>>,
                                       attributes: seq<CoreAttribute>)

  /** The position bytes as written, `&buffers[..][view.offset()..view.length()]`:
   *  the view's length is taken for its end. */
  function PositionBytesAsWritten(buffers: seq<seq<byte>>, v: View): (r: Result<seq<byte>, Panic>)
    ensures r.Ok? <==> v.buffer < |buffers| && v.offset <= v.length <= |buffers[v.buffer]|
    ensures r.Ok? ==> |r.value| == v.length - v.offset
                      && forall k :: 0 <= k < |r.value| ==> r.value[k] == buffers[v.buffer][v.offset + k]
    ensures r.Err? ==> r.error == IndexOutOfBounds
  {
    if v.buffer < |buffers| && v.offset <= v.length <= |buffers[v.buffer]| then
      Ok(buffers[v.buffer][v.offset..v.length])
    else Err(IndexOutOfBounds)
  }

  /** Read as written, a view that does not start at byte 0 loses bytes or
   *  panics: in a 32-byte buffer, the 8 bytes at offset 4 come back as 4,
   *  and the 12 bytes at offset 16 make the slice panic, where the view's
   *  own range has exactly its bytes. */
  lemma PositionSliceMisread()
    ensures var buffers := [seq(32, _ => 0 as byte)];
      && |PositionBytesAsWritten(buffers, View(0, 4, 8)).value| == 4
      && |ViewBytes(buffers, View(0, 4, 8)).value| == 8
      && PositionBytesAsWritten(buffers, View(0, 16, 12)) == Err(IndexOutOfBounds)
      && |ViewBytes(buffers, View(0, 16, 12)).value| == 12
  {
  }

  /** One attribute, as `load_gltf` checks it: positions must be `f32`
   *  and, when they have a view, the slice `[offset..length]` must exist
   *  and make whole floats; normals and tangents must be `f32`; every
   *  other attribute is `todo!`. */
  function AttributeChecked(a: CoreAttribute, buffers: seq<seq<byte>>): (r: Result<(), Panic>)
    ensures r.Ok? <==> (a.semantic.Positions? || a.semantic.Normals? || a.semantic.Tangents?) && a.dataType == F32
                       && (a.semantic.Positions? && a.view.Some? ==>
                             PositionBytesAsWritten(buffers, a.view.value).Ok?
                             && (a.view.value.length - a.view.value.offset) % 4 == 0)
    ensures !(a.semantic.Positions? || a.semantic.Normals? || a.semantic.Tangents?) ==> r == Err(ExplicitPanic)
    ensures (a.semantic.Positions? || a.semantic.Normals? || a.semantic.Tangents?) && a.dataType != F32 ==>
      r == Err(AssertFailed)
    ensures (a.semantic.Positions? && a.dataType == F32 && a.view.Some?
             && PositionBytesAsWritten(buffers, a.view.value).Err?) ==> r == Err(IndexOutOfBounds)
  {
    match a.semantic
    case Positions =>
      if a.dataType != F32 then Err(AssertFailed)
      else if a.view.None? then Ok(())
      else
        var bytes := PositionBytesAsWritten(buffers, a.view.value);
        if bytes.Err? then Err(bytes.error)
        else if FloatCount(bytes.value).Err? then Err(FloatCount(bytes.value).error)
        else Ok(())
    case Normals => if a.dataType != F32 then Err(AssertFailed) else Ok(())
    case Tangents => if a.dataType != F32 then Err(AssertFailed) else Ok(())
    case _ => Err(ExplicitPanic)
  }

  /** The same check over the view's own range, `[offset..offset + length]`:
   *  a positions view passes exactly when its bytes exist and make whole
   *  floats. */
  function AttributeIntended(a: CoreAttribute, buffers: seq<seq<byte>>): (r: Result<(), Panic>)
    ensures r.Ok? <==> (a.semantic.Positions? || a.semantic.Normals? || a.semantic.Tangents?) && a.dataType == F32
                       && (a.semantic.Positions? && a.view.Some? ==>
                             ViewBytes(buffers, a.view.value).Ok? && a.view.value.length % 4 == 0)
    ensures !(a.semantic.Positions? || a.semantic.Normals? || a.semantic.Tangents?) ==> r == Err(ExplicitPanic)
    ensures (a.semantic.Positions? || a.semantic.Normals? || a.semantic.Tangents?) && a.dataType != F32 ==>
      r == Err(AssertFailed)
    ensures !a.semantic.Positions? || a.view.None? ==> r == AttributeChecked(a, buffers)
  {
    match a.semantic
    case Positions =>
      if a.dataType != F32 then Err(AssertFailed)
      else if a.view.None? then Ok(())
      else
        var bytes := ViewBytes(buffers, a.view.value);
        if bytes.Err? then Err(bytes.error)
        else if FloatCount(bytes.value).Err? then Err(FloatCount(bytes.value).error)
        else Ok(())
    case Normals => if a.dataType != F32 then Err(AssertFailed) else Ok(())
    case Tangents => if a.dataType != F32 then Err(AssertFailed) else Ok(())
    case _ => Err(ExplicitPanic)
  }

  /** The two checks part on views that do not start at byte 0: in a 32-byte
   *  buffer, 12 bytes at offset 16 panic as written and pass over their own
   *  range, and 8 bytes at offset 2 leave 6 bytes as written, which make no
   *  whole floats. */
  lemma AttributeCheckDiffers()
    ensures var buffers := [seq(32, _ => 0 as byte)];
      var late := CoreAttribute(Positions, F32, Some(View(0, 16, 12)));
      var odd := CoreAttribute(Positions, F32, Some(View(0, 2, 8)));
      && AttributeChecked(late, buffers) == Err(IndexOutOfBounds) && AttributeIntended(late, buffers) == Ok(())
      && AttributeChecked(odd, buffers) == Err(ExplicitPanic) && AttributeIntended(odd, buffers) == Ok(())
  {
  }

  function AttributeStep(buffers: seq<seq<byte>>): ((), CoreAttribute) -> Result<(), Panic> {
    (_: (), a: CoreAttribute) => AttributeChecked(a, buffers)
  }

  /** Every attribute passes its check. */
  predicate AllChecked(attrs: seq<CoreAttribute>, buffers: seq<seq<byte>>) {
    forall i :: 0 <= i < |attrs| ==> AttributeChecked(attrs[i], buffers).Ok?
  }

  /** The attribute walk gets through exactly when every attribute passes. */
  lemma {:induction false} AttributesWalked(attrs: seq<CoreAttribute>, buffers: seq<seq<byte>>)
    ensures Run(attrs, (), AttributeStep(buffers)).Ok? <==> AllChecked(attrs, buffers)
  {
    if |attrs| > 0 {
      var n := |attrs| - 1;
      var step := AttributeStep(buffers);
      AttributesWalked(attrs[..n], buffers);
      assert forall i :: 0 <= i < n ==> attrs[..n][i] == attrs[i];
      assert step((), attrs[n]) == AttributeChecked(attrs[n], buffers);
    }
  }

  /** `load_gltf`: a document that does not parse, or that has other than
   *  exactly one camera, is refused; a buffer that does not load refuses
   *  it; otherwise the walk over the attributes panics at the first one
   *  that fails its check, and the end of the function is `todo!()`. */
  function CoreLoaded(doc: Option<CoreDocument>, env: Env): Result<(), Failure> {
    if doc.None? then Err(LoadError(GltfParse))
    else
      var d := doc.value;
      if d.cameraCount != 1 then Err(LoadError(MultipleCameras(AsU32(d.cameraCount))))
      else
        match Collect(d.buffers, BufferOf(d.blob, env))
        case Err(e) => Err(e)
        case Ok(buffers) =>
          match Run(d.attributes, (), AttributeStep(buffers))
          case Err(p) => Err(Panicked(p))
          case Ok(_) => Err(Panicked(ExplicitPanic))
  }

  /** `load_gltf`, loop by loop. It never yields a scene. */
  method LoadGltf(doc: Option<CoreDocument>, env: Env) returns (r: Result<(), Failure>)
    ensures r == CoreLoaded(doc, env)
    ensures r.Err?
    ensures doc.Some? && doc.value.cameraCount != 1 ==>
      r == Err(LoadError(MultipleCameras(AsU32(doc.value.cameraCount))))
    ensures doc.Some? && doc.value.cameraCount == 1 && Collect(doc.value.buffers, BufferOf(doc.value.blob, env)).Ok?
            && AllChecked(doc.value.attributes, Collect(doc.value.buffers, BufferOf(doc.value.blob, env)).value) ==>
      r == Err(Panicked(ExplicitPanic))
  {
    if doc.None? {
      return Err(LoadError(GltfParse));
    }
    var d := doc.value;
    if d.cameraCount != 1 {
      return Err(LoadError(MultipleCameras(AsU32(d.cameraCount))));
    }
    var buffers := LoadBuffersData(d.buffers, d.blob, env);
    if buffers.Err? {
      return Err(buffers.error);
    }
    var step := AttributeStep(buffers.value);
    var attrs := d.attributes;
    AttributesWalked(attrs, buffers.value);
    for i := 0 to |attrs|
      invariant Run(attrs[..i], (), step) == Ok(())
    {
      RunNext(attrs, i, (), step);
      assert step((), attrs[i]) == AttributeChecked(attrs[i], buffers.value);
      var checked := AttributeChecked(attrs[i], buffers.value);
      if checked.Err? {
        RunStopped(attrs, i + 1, (), step);
        return Err(Panicked(checked.error));
      }
    }
    assert attrs[..|attrs|] == attrs;
    return Err(Panicked(ExplicitPanic));
  }
}

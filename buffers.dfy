/** CPU-side staging buffers: bytes are collected on the host and uploaded to
 *  a device buffer on `write`, which either creates a new device buffer or
 *  overwrites the existing one from offset 0.
 *
 *  Two write rules exist in the code base. The renderer's
 *  `DynamicGpuBuffer` reallocates when the device buffer is too small or
 *  when the bytes changed and are non-empty; the per-type uniform/storage
 *  buffers reallocate whenever the bytes changed (even to nothing) or the
 *  device buffer is too small. */
module Buffers {
  import opened Common

  datatype UsageFlag = UNIFORM | STORAGE | COPY_DST | VERTEX | INDEX | MAP_READ

  const UniformUsage: set<UsageFlag> := {UNIFORM, COPY_DST}
  const StorageUsage: set<UsageFlag> := {STORAGE, COPY_DST}

  /** A device buffer as far as the host can observe it: its bytes (whose
   *  count is the buffer's size) and its usage. */
  datatype DeviceBuffer = DeviceBuffer(contents: seq<byte>, usage: set<UsageFlag>)

  /** The fields of a staging buffer: the host bytes, the device buffer if
   *  one was ever created, and the dirty flag. */
  datatype BufferState = BufferState(raw: seq<byte>, gpu: Option<DeviceBuffer>, changed: bool, usage: set<UsageFlag>)

  /** The device buffer's size, or 0 without one. */
  function Capacity(s: BufferState): nat {
    if s.gpu.Some? then |s.gpu.value.contents| else 0
  }

  /** The host bytes are in the device buffer, from offset 0. */
  predicate Uploaded(s: BufferState) {
    s.gpu.Some? && |s.raw| <= |s.gpu.value.contents| && s.gpu.value.contents[..|s.raw|] == s.raw
  }

  // ---------------------------------------------------------------------
  // Transitions shared by every buffer kind.

  function Pushed(s: BufferState, data: seq<byte>): BufferState {
    s.(raw := s.raw + data, changed := true)
  }

  function Replaced(s: BufferState, data: seq<byte>): BufferState {
    s.(raw := data, changed := true)
  }

  function Cleared(s: BufferState): BufferState {
    s.(raw := [])
  }

  /** `create_buffer_init` with the host bytes. */
  function Reallocated(s: BufferState): BufferState {
    s.(gpu := Some(DeviceBuffer(s.raw, s.usage)), changed := false)
  }

  /** `write_buffer(buffer, 0, raw)` when a big enough buffer exists. */
  function Overwritten(s: BufferState): (r: BufferState)
    requires |s.raw| <= Capacity(s)
  {
    if s.gpu.None? then s
    else
      var old_contents := s.gpu.value.contents;
      s.(gpu := Some(s.gpu.value.(contents := s.raw + old_contents[|s.raw|..])))
  }

  // ---------------------------------------------------------------------
  // The two write rules.

  predicate DynamicReallocates(s: BufferState) {
    Capacity(s) < |s.raw| || (s.changed && |s.raw| > 0)
  }

  predicate StagingReallocates(s: BufferState) {
    s.changed || Capacity(s) < |s.raw|
  }

  /** `DynamicGpuBuffer::write`: reallocates when the device buffer is too
   *  small or the bytes changed and are not empty, else overwrites in
   *  place. The host bytes stay and fit in the device buffer afterwards. */
  function DynamicWritten(s: BufferState): (r: BufferState)
    ensures r.raw == s.raw && r.usage == s.usage
    ensures |s.raw| <= Capacity(r)
  {
    if DynamicReallocates(s) then Reallocated(s) else Overwritten(s)
  }

  /** `write` of the staging buffers: reallocates when the bytes changed or
   *  the device buffer is too small, else overwrites in place. The host
   *  bytes stay, fit in the device buffer and are no longer dirty. */
  function StagingWritten(s: BufferState): (r: BufferState)
    ensures r.raw == s.raw && r.usage == s.usage
    ensures |s.raw| <= Capacity(r) && !r.changed
  {
    if StagingReallocates(s) then Reallocated(s) else Overwritten(s)
  }

  /** Either rule leaves the host bytes alone and, whenever there are host
   *  bytes, leaves them at the start of a device buffer; a reallocation
   *  makes a buffer of exactly those bytes and clears the dirty flag. */
  lemma WriteUploads(s: BufferState)
    ensures DynamicWritten(s).raw == s.raw && StagingWritten(s).raw == s.raw
    ensures |s.raw| > 0 ==> Uploaded(DynamicWritten(s)) && Uploaded(StagingWritten(s))
    ensures DynamicReallocates(s) ==> DynamicWritten(s).gpu == Some(DeviceBuffer(s.raw, s.usage)) && !DynamicWritten(s).changed
    ensures !DynamicReallocates(s) ==> DynamicWritten(s).changed == s.changed && Capacity(DynamicWritten(s)) == Capacity(s)
    ensures StagingReallocates(s) ==> StagingWritten(s).gpu == Some(DeviceBuffer(s.raw, s.usage))
    ensures !StagingWritten(s).changed
  {
    if |s.raw| > 0 && !DynamicReallocates(s) {
      assert s.gpu.Some?;
      var w := DynamicWritten(s);
      assert w.gpu.value.contents[..|s.raw|] == s.raw;
    }
    if |s.raw| > 0 && !StagingReallocates(s) {
      var w := StagingWritten(s);
      assert w.gpu.value.contents[..|s.raw|] == s.raw;
    }
  }

  /** Writing twice without touching the bytes in between changes nothing
   *  the second time. */
  lemma WriteIdempotent(s: BufferState)
    ensures DynamicWritten(DynamicWritten(s)) == DynamicWritten(s) || (|s.raw| == 0 && s.gpu.None?)
    ensures StagingWritten(StagingWritten(s)) == StagingWritten(s)
  {
    var d := DynamicWritten(s);
    if DynamicReallocates(s) {
      assert d.gpu.value.contents[|d.raw|..] == [];
      assert d.raw + [] == d.raw;
    } else if s.gpu.Some? {
      var c := d.gpu.value.contents;
      assert c[..|s.raw|] == s.raw;
      assert s.raw + c[|s.raw|..] == c;
    }
    var t := StagingWritten(s);
    if StagingReallocates(s) {
      var c := t.gpu.value.contents;
      assert c[|t.raw|..] == [];
      assert t.raw + [] == t.raw;
    } else if s.gpu.Some? {
      var c := t.gpu.value.contents;
      assert c[..|s.raw|] == s.raw;
      assert s.raw + c[|s.raw|..] == c;
    }
  }

  /** The two rules disagree on a dirty, emptied buffer: the dynamic buffer
   *  keeps its device buffer and stays dirty, the staging buffer replaces
   *  it with an empty one. */
  lemma WriteRulesDifferOnEmpty(s: BufferState)
    requires s.changed && s.raw == [] && s.gpu.Some? && |s.gpu.value.contents| > 0
    ensures DynamicWritten(s).changed && DynamicWritten(s).gpu == s.gpu
    ensures !StagingWritten(s).changed && StagingWritten(s).gpu == Some(DeviceBuffer([], s.usage))
  {
    assert s.raw + s.gpu.value.contents[|s.raw|..] == s.gpu.value.contents;
  }

  /** Offsets handed out by successive pushes: each is the number of bytes
   *  before it (truncated to 32 bits), so they are the running sums of the
   *  earlier sizes. */
  function PushAll(s: BufferState, items: seq<seq<byte>>): (r: (BufferState, seq<nat>))
    ensures |r.1| == |items|
    ensures r.0.raw == s.raw + Flatten(items)
    ensures items != [] ==> r.0.changed
    ensures r.0.gpu == s.gpu && r.0.usage == s.usage
    decreases |items|
  {
    if items == [] then (s, [])
    else
      var rest := PushAll(Pushed(s, items[0]), items[1..]);
      assert s.raw + Flatten(items) == s.raw + items[0] + Flatten(items[1..]);
      (rest.0, [AsU32(|s.raw|)] + rest.1)
  }

  function Sizes(items: seq<seq<byte>>): (r: seq<nat>)
    ensures |r| == |items|
  {
    if items == [] then [] else [|items[0]|] + Sizes(items[1..])
  }

  lemma {:induction false} PushOffsetsAreRunningSums(s: BufferState, items: seq<seq<byte>>, k: nat)
    requires k < |items|
    ensures PushAll(s, items).1[k] == AsU32(|s.raw| + Sum(Sizes(items)[..k]))
    decreases k
  {
    if k == 0 {
      assert Sizes(items)[..0] == [];
    } else {
      var next := Pushed(s, items[0]);
      PushOffsetsAreRunningSums(next, items[1..], k - 1);
      assert PushAll(s, items).1 == [AsU32(|s.raw|)] + PushAll(next, items[1..]).1;
      assert PushAll(s, items).1[k] == PushAll(next, items[1..]).1[k - 1];
      var sz := Sizes(items);
      assert sz == [|items[0]|] + Sizes(items[1..]);
      assert sz[..k] == [|items[0]|] + Sizes(items[1..])[..k - 1];
      assert sz[..k][0] == |items[0]| && sz[..k][1..] == Sizes(items[1..])[..k - 1];
      assert Sum(sz[..k]) == |items[0]| + Sum(Sizes(items[1..])[..k - 1]);
      assert |next.raw| == |s.raw| + |items[0]|;
    }
  }

  /** `len::<E>()`: the element count when the element size divides the byte
   *  count. */
  function ElementCount(raw: seq<byte>, stride: nat): (r: Option<nat>)
    requires stride > 0
    ensures r.Some? <==> |raw| % stride == 0
    ensures r.Some? ==> r.value * stride == |raw|
  {
    if |raw| % stride == 0 then Some(|raw| / stride) else None
  }

  // ---------------------------------------------------------------------

  /** `DynamicGpuBuffer`: a growable byte vector with its device buffer. */
  class DynamicGpuBuffer {
    var raw: seq<byte>
    var buffer: Option<DeviceBuffer>
    var changed: bool
    var usage: set<UsageFlag>

    function State(): BufferState reads this {
      BufferState(raw, buffer, changed, usage)
    }

    /** `new`: no bytes, no device buffer, dirty. */
    constructor (usage: set<UsageFlag>)
      ensures raw == [] && buffer.None? && changed && this.usage == usage
    {
      raw := [];
      buffer := None;
      changed := true;
      this.usage := usage;
    }

    method Set(data: seq<byte>)
      modifies this
      ensures State() == Replaced(old(State()), data)
    {
      raw := data;
      changed := true;
    }

    /** Appends the bytes and returns where they start. */
    method Push(data: seq<byte>) returns (offset: nat)
      modifies this
      ensures offset == AsU32(|old(raw)|)
      ensures State() == Pushed(old(State()), data)
    {
      offset := AsU32(|raw|);
      raw := raw + data;
      changed := true;
    }

    method Write()
      modifies this
      ensures State() == DynamicWritten(old(State()))
    {
      var cap := if buffer.Some? then |buffer.value.contents| else 0;
      var size := |raw|;
      if cap < size || (changed && size > 0) {
        buffer := Some(DeviceBuffer(raw, usage));
        changed := false;
      } else if buffer.Some? {
        buffer := Some(buffer.value.(contents := raw + buffer.value.contents[size..]));
      }
    }

    /** Drops the bytes; the dirty flag and the device buffer stay. */
    method Clear()
      modifies this
      ensures State() == Cleared(old(State()))
    {
      raw := [];
    }

    /** `binding()` / `buffer()`: present once a write has allocated. */
    function Binding(): (b: Option<DeviceBuffer>)
      reads this
      ensures b.Some? <==> buffer.Some?
    {
      buffer
    }

    function Len(stride: nat): (r: Option<nat>)
      reads this
      requires stride > 0
      ensures r.Some? <==> |raw| % stride == 0
      ensures r.Some? ==> r.value * stride == |raw|
    {
      ElementCount(raw, stride)
    }
  }

  /** The uniform and storage staging buffers; they differ only in usage. */
  class StagingBuffer {
    var raw: seq<byte>
    var buffer: Option<DeviceBuffer>
    var changed: bool
    var usage: set<UsageFlag>

    function State(): BufferState reads this {
      BufferState(raw, buffer, changed, usage)
    }

    /** `UniformBuffer::default()`. */
    constructor Uniform()
      ensures State() == DefaultUniform()
    {
      raw := [];
      buffer := None;
      changed := false;
      usage := UniformUsage;
    }

    /** `StorageBuffer::default()`. */
    constructor Storage()
      ensures State() == DefaultStorage()
    {
      raw := [];
      buffer := None;
      changed := false;
      usage := StorageUsage;
    }

    method Set(data: seq<byte>)
      modifies this
      ensures State() == Replaced(old(State()), data)
    {
      raw := data;
      changed := true;
    }

    method Push(data: seq<byte>) returns (offset: nat)
      modifies this
      ensures offset == AsU32(|old(raw)|)
      ensures State() == Pushed(old(State()), data)
    {
      offset := AsU32(|raw|);
      raw := raw + data;
      changed := true;
    }

    method Write()
      modifies this
      ensures State() == StagingWritten(old(State()))
    {
      var cap := if buffer.Some? then |buffer.value.contents| else 0;
      var size := |raw|;
      if changed || cap < size {
        buffer := Some(DeviceBuffer(raw, usage));
        changed := false;
      } else if buffer.Some? {
        buffer := Some(buffer.value.(contents := raw + buffer.value.contents[size..]));
      }
    }

    method Clear()
      modifies this
      ensures State() == Cleared(old(State()))
    {
      raw := [];
    }

    function Binding(): (b: Option<DeviceBuffer>)
      reads this
      ensures b.Some? <==> buffer.Some?
    {
      buffer
    }
  }

  function DefaultUniform(): BufferState {
    BufferState([], None, false, UniformUsage)
  }

  function DefaultStorage(): BufferState {
    BufferState([], None, false, StorageUsage)
  }

  /** Nothing but a write ever creates the device buffer: from a fresh
   *  buffer, any sequence of pushes, sets and clears leaves it absent. */
  datatype HostOp = PushOp(data: seq<byte>) | SetOp(data: seq<byte>) | ClearOp

  function ApplyHost(s: BufferState, ops: seq<HostOp>): BufferState
    decreases |ops|
  {
    if ops == [] then s
    else
      var next := match ops[0]
        case PushOp(d) => Pushed(s, d)
        case SetOp(d) => Replaced(s, d)
        case ClearOp => Cleared(s);
      ApplyHost(next, ops[1..])
  }

  lemma {:induction false} NoBindingBeforeWrite(s: BufferState, ops: seq<HostOp>)
    ensures ApplyHost(s, ops).gpu == s.gpu && ApplyHost(s, ops).usage == s.usage
    decreases |ops|
  {
    if ops != [] {
      var next := match ops[0]
        case PushOp(d) => Pushed(s, d)
        case SetOp(d) => Replaced(s, d)
        case ClearOp => Cleared(s);
      NoBindingBeforeWrite(next, ops[1..]);
    }
  }

  // ---------------------------------------------------------------------
  // The per-type registry.

  /** `GpuBuffer`: a registry entry holds either kind of staging buffer. */
  datatype GpuBuffer = UniformEntry(u: BufferState) | StorageEntry(s: BufferState) {
    /** `uniform()` / `uniform_mut()`. */
    function Uniform(): (r: Option<BufferState>)
      ensures r.Some? <==> this.UniformEntry?
      ensures r.Some? ==> r.value == this.u
    {
      match this
      case UniformEntry(u) => Some(u)
      case StorageEntry(_) => None
    }

    /** `storage()` / `storage_mut()`. */
    function Storage(): (r: Option<BufferState>)
      ensures r.Some? <==> this.StorageEntry?
      ensures r.Some? ==> r.value == this.s
    {
      match this
      case UniformEntry(_) => None
      case StorageEntry(s) => Some(s)
    }

    function Written(): (r: GpuBuffer)
      ensures r.UniformEntry? == this.UniformEntry?
      ensures r.Uniform().Some? ==> r.Uniform().value == StagingWritten(this.u)
      ensures r.Storage().Some? ==> r.Storage().value == StagingWritten(this.s)
    {
      match this
      case UniformEntry(u) => UniformEntry(StagingWritten(u))
      case StorageEntry(s) => StorageEntry(StagingWritten(s))
    }
  }

  /** A Rust type, as far as `TypeId::of` tells types apart. */
  type TypeKey = string

  /** `get_uniform::<T>()` on the registry's map. */
  function UniformIn(m: map<TypeKey, GpuBuffer>, key: TypeKey): (r: Option<BufferState>)
    ensures r.Some? <==> key in m && m[key].UniformEntry?
    ensures r.Some? ==> r.value == m[key].u
  {
    if key in m then m[key].Uniform() else None
  }

  /** `get_storage::<T>()` on the registry's map. */
  function StorageIn(m: map<TypeKey, GpuBuffer>, key: TypeKey): (r: Option<BufferState>)
    ensures r.Some? <==> key in m && m[key].StorageEntry?
    ensures r.Some? ==> r.value == m[key].s
  {
    if key in m then m[key].Storage() else None
  }

  /** The registry after `write`: every entry written by its own rule. */
  function WrittenAll(m: map<TypeKey, GpuBuffer>): map<TypeKey, GpuBuffer> {
    map k | k in m :: m[k].Written()
  }

  /** `get_or_insert_uniform::<T>().unwrap().push(data)`: the entry (a
   *  default uniform buffer if the key was absent) gets the bytes appended
   *  and the offset before them is returned; a key holding a storage buffer
   *  makes `unwrap` panic. */
  function PushedUniform(m: map<TypeKey, GpuBuffer>, key: TypeKey, data: seq<byte>): (r: Result<(map<TypeKey, GpuBuffer>, nat), Panic>)
    ensures r.Err? <==> key in m && m[key].StorageEntry?
    ensures r.Err? ==> r.error == UnwrapNone
    ensures r.Ok? ==> r.value.0.Keys == m.Keys + {key}
    ensures r.Ok? ==> forall k :: k in m && k != key ==> r.value.0[k] == m[k]
    ensures r.Ok? ==> UniformIn(r.value.0, key).Some?
  {
    if key in m && m[key].StorageEntry? then Err(UnwrapNone)
    else
      var s := if key in m then m[key].u else DefaultUniform();
      Ok((m[key := UniformEntry(Pushed(s, data))], AsU32(|s.raw|)))
  }

  /** `SceneBuffers`: one staging buffer per Rust type. */
  class SceneBuffers {
    var value: map<TypeKey, GpuBuffer>

    constructor ()
      ensures value == map[]
    {
      value := map[];
    }

    /** `get_uniform::<T>()`: present only when T's entry is a uniform
     *  buffer; never changes the map. */
    function GetUniform(key: TypeKey): (r: Option<BufferState>)
      reads this
      ensures r.Some? <==> key in value && value[key].UniformEntry?
      ensures r.Some? ==> r.value == value[key].u
    {
      UniformIn(value, key)
    }

    /** `get_storage::<T>()`. */
    function GetStorage(key: TypeKey): (r: Option<BufferState>)
      reads this
      ensures r.Some? <==> key in value && value[key].StorageEntry?
      ensures r.Some? ==> r.value == value[key].s
    {
      StorageIn(value, key)
    }

    /** `get_or_insert_uniform::<T>()`: an absent key gets a default uniform
     *  buffer; an existing entry is left as it is. The result says whether
     *  T's entry is a uniform buffer. */
    method GetOrInsertUniform(key: TypeKey) returns (found: bool)
      modifies this
      ensures key in old(value) ==> value == old(value)
      ensures key !in old(value) ==> value == old(value)[key := UniformEntry(DefaultUniform())]
      ensures found <==> value[key].UniformEntry?
    {
      if key !in value {
        value := value[key := UniformEntry(DefaultUniform())];
      }
      found := value[key].UniformEntry?;
    }

    /** `get_or_insert_storage::<T>()`. */
    method GetOrInsertStorage(key: TypeKey) returns (found: bool)
      modifies this
      ensures key in old(value) ==> value == old(value)
      ensures key !in old(value) ==> value == old(value)[key := StorageEntry(DefaultStorage())]
      ensures found <==> value[key].StorageEntry?
    {
      if key !in value {
        value := value[key := StorageEntry(DefaultStorage())];
      }
      found := value[key].StorageEntry?;
    }

    /** `push` through the uniform buffer borrowed from T's entry (by
     *  `get_or_insert_uniform` or `get_uniform_mut`). */
    method PushUniform(key: TypeKey, data: seq<byte>) returns (offset: nat)
      requires key in value && value[key].UniformEntry?
      modifies this
      ensures offset == AsU32(|old(value)[key].u.raw|)
      ensures value == old(value)[key := UniformEntry(Pushed(old(value)[key].u, data))]
    {
      var u := value[key].u;
      offset := AsU32(|u.raw|);
      value := value[key := UniformEntry(Pushed(u, data))];
    }

    /** `clear` through the uniform buffer borrowed from T's entry. */
    method ClearUniform(key: TypeKey)
      requires key in value && value[key].UniformEntry?
      modifies this
      ensures value == old(value)[key := UniformEntry(Cleared(old(value)[key].u))]
    {
      value := value[key := UniformEntry(Cleared(value[key].u))];
    }

    /** `insert::<T>(buffer)`: replaces only T's entry. */
    method Insert(key: TypeKey, buffer: GpuBuffer)
      modifies this
      ensures value == old(value)[key := buffer]
    {
      value := value[key := buffer];
    }

    /** `write`: every entry is written with its own rule; the order in
     *  which the map is visited does not matter. */
    method Write()
      modifies this
      ensures value == WrittenAll(old(value))
    {
      var todo := value.Keys;
      ghost var start := value;
      while todo != {}
        invariant todo <= value.Keys && value.Keys == start.Keys
        invariant forall k :: k in value && k !in todo ==> value[k] == start[k].Written()
        invariant forall k :: k in todo ==> value[k] == start[k]
        decreases todo
      {
        var k :| k in todo;
        value := value[k := value[k].Written()];
        todo := todo - {k};
      }
    }
  }
}

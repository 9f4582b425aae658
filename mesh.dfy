/** The attribute-map mesh of core/src/render/mesh.rs: vertex attributes
 *  keyed and ordered by numeric id, the per-vertex layout derived from the
 *  key formats, the interleaved vertex buffer, tangents, and the meshes read
 *  from an OBJ file (one per object, groups accumulated).
 *
 *  Attribute data keeps its typed elements (`Vec<Vec3>` and the like) as
 *  lists of 32-bit scalars; the bytes `bytemuck` sees are given by an
 *  encoding of one scalar into four bytes, which is a parameter. */
module MeshLayout {
  import opened Common
  import opened ObjImport
  import opened Tangent

  datatype Scalar = I32(i: int) | U32(u: nat) | F32(f: real)
  datatype ScalarKind = SintKind | UintKind | FloatKind

  /** The twelve wgpu vertex formats that `MeshVertexAttributeData` can hold. */
  datatype VertexFormat =
    | Sint32 | Uint32 | Float32
    | Sint32x2 | Uint32x2 | Float32x2
    | Sint32x3 | Uint32x3 | Float32x3
    | Sint32x4 | Uint32x4 | Float32x4

  function Components(f: VertexFormat): (n: nat)
    ensures 1 <= n <= 4
  {
    match f
    case Sint32 | Uint32 | Float32 => 1
    case Sint32x2 | Uint32x2 | Float32x2 => 2
    case Sint32x3 | Uint32x3 | Float32x3 => 3
    case Sint32x4 | Uint32x4 | Float32x4 => 4
  }

  function Kind(f: VertexFormat): ScalarKind {
    match f
    case Sint32 | Sint32x2 | Sint32x3 | Sint32x4 => SintKind
    case Uint32 | Uint32x2 | Uint32x3 | Uint32x4 => UintKind
    case Float32 | Float32x2 | Float32x3 | Float32x4 => FloatKind
  }

  /** `VertexFormat::size`: four bytes per component. */
  function Size(f: VertexFormat): (s: nat)
    ensures s == 4 * Components(f) && 4 <= s <= 16
  {
    match f
    case Sint32 | Uint32 | Float32 => 4
    case Sint32x2 | Uint32x2 | Float32x2 => 8
    case Sint32x3 | Uint32x3 | Float32x3 => 12
    case Sint32x4 | Uint32x4 | Float32x4 => 16
  }

  predicate Fits(s: Scalar, k: ScalarKind) {
    match k
    case SintKind => s.I32?
    case UintKind => s.U32?
    case FloatKind => s.F32?
  }

  /** `MeshVertexAttributeData`: the variant fixes the format, and every
   *  element has that format's components. */
  datatype AttributeData = AttributeData(format: VertexFormat, items: seq<seq<Scalar>>)

  predicate WellFormed(d: AttributeData) {
    forall i :: 0 <= i < |d.items| ==>
      |d.items[i]| == Components(d.format) && forall c :: 0 <= c < |d.items[i]| ==> Fits(d.items[i][c], Kind(d.format))
  }

  /** `MeshVertexAttributeId`: compared and ordered by `id` alone. */
  datatype AttributeId = AttributeId(id: nat, name: string, format: VertexFormat)

  datatype Attribute = Attribute(key: AttributeId, data: AttributeData)

  const POSITION_ATTR: AttributeId := AttributeId(0, "Position", Float32x3)
  const NORMAL_ATTR: AttributeId := AttributeId(1, "Normal", Float32x3)
  const TEX_COORDS_ATTR: AttributeId := AttributeId(2, "TexCoords", Float32x2)
  const TANGENT_ATTR: AttributeId := AttributeId(3, "Tangent", Float32x4)

  /** The `BTreeMap` as its entries in key order. */
  predicate SortedById(attrs: seq<Attribute>) {
    forall i, j :: 0 <= i < j < |attrs| ==> attrs[i].key.id < attrs[j].key.id
  }

  function Lookup(attrs: seq<Attribute>, id: nat): (r: Option<Attribute>)
    ensures r.Some? <==> exists i :: 0 <= i < |attrs| && attrs[i].key.id == id
    ensures r.Some? ==> r.value in attrs && r.value.key.id == id
  {
    if attrs == [] then None
    else if attrs[0].key.id == id then Some(attrs[0])
    else Lookup(attrs[1..], id)
  }

  /** `BTreeMap::insert`. A key with the same id replaces the data but, as
   *  `BTreeMap` does, keeps the key already stored. */
  function Inserted(attrs: seq<Attribute>, key: AttributeId, data: AttributeData): (r: seq<Attribute>)
    requires SortedById(attrs)
    ensures SortedById(r)
    ensures forall a :: a in r ==> a in attrs || (a.data == data && a.key.id == key.id)
  {
    if attrs == [] then [Attribute(key, data)]
    else if key.id < attrs[0].key.id then [Attribute(key, data)] + attrs
    else if key.id == attrs[0].key.id then [Attribute(attrs[0].key, data)] + attrs[1..]
    else [attrs[0]] + Inserted(attrs[1..], key, data)
  }

  /** After an insert, the key's id finds the new data (under the key stored
   *  before, if any), every other id finds what it found before, and the
   *  map grows by one entry exactly when the id was new. */
  lemma {:induction false} InsertedLookup(attrs: seq<Attribute>, key: AttributeId, data: AttributeData, n: nat)
    requires SortedById(attrs)
    ensures var old_ := Lookup(attrs, key.id);
            Lookup(Inserted(attrs, key, data), n)
            == if n == key.id then Some(Attribute(if old_.Some? then old_.value.key else key, data)) else Lookup(attrs, n)
    ensures |Inserted(attrs, key, data)| == if Lookup(attrs, key.id).Some? then |attrs| else |attrs| + 1
  {
    var r := Inserted(attrs, key, data);
    if attrs == [] {
    } else if key.id < attrs[0].key.id {
      LookupBelowFirst(attrs);
      assert r[1..] == attrs;
    } else if key.id == attrs[0].key.id {
      assert r[1..] == attrs[1..];
    } else {
      InsertedLookup(attrs[1..], key, data, n);
      assert r[1..] == Inserted(attrs[1..], key, data);
    }
  }

  lemma LookupBelowFirst(attrs: seq<Attribute>)
    requires SortedById(attrs) && attrs != []
    ensures forall n: nat :: n < attrs[0].key.id ==> Lookup(attrs, n).None?
  {
  }

  // ---------------------------------------------------------------------
  // Layout: sizes, stride and offsets.

  function KeySizes(attrs: seq<Attribute>): (s: seq<nat>)
    ensures |s| == |attrs|
  {
    seq(|attrs|, i requires 0 <= i < |attrs| => Size(attrs[i].key.format))
  }

  function DataSizes(attrs: seq<Attribute>): (s: seq<nat>)
    ensures |s| == |attrs|
  {
    seq(|attrs|, i requires 0 <= i < |attrs| => Size(attrs[i].data.format))
  }

  /** `vertex_stride`: the key formats' sizes added up. */
  function Stride(attrs: seq<Attribute>): nat {
    Sum(KeySizes(attrs))
  }

  /** The offset the layout gives attribute `j`. */
  function Offset(attrs: seq<Attribute>, j: nat): nat
    requires j <= |attrs|
  {
    Sum(KeySizes(attrs)[..j])
  }

  /** Where `vertex_buffer_data` writes attribute `j`: the sizes of the
   *  earlier attributes' data, not of their keys. */
  function DataOffset(attrs: seq<Attribute>, j: nat): nat
    requires j <= |attrs|
  {
    Sum(DataSizes(attrs)[..j])
  }

  /** Every key announces the format its data has. */
  predicate Consistent(attrs: seq<Attribute>) {
    forall i :: 0 <= i < |attrs| ==> attrs[i].key.format == attrs[i].data.format
  }

  lemma {:induction false} SumPrefixStep(s: seq<nat>, j: nat)
    requires j < |s|
    ensures Sum(s[..j + 1]) == Sum(s[..j]) + s[j]
  {
    assert s[..j + 1] == s[..j] + [s[j]];
    SumAppend(s[..j], [s[j]]);
    assert [s[j]][1..] == [];
  }

  /** The offsets are running sums: the first is 0, each next one adds the
   *  previous attribute's size, and past the last one they reach the
   *  stride. */
  lemma OffsetsAreRunningSums(attrs: seq<Attribute>)
    ensures |attrs| > 0 ==> Offset(attrs, 0) == 0
    ensures forall j :: 0 <= j < |attrs| ==> Offset(attrs, j + 1) == Offset(attrs, j) + Size(attrs[j].key.format)
    ensures forall j :: 0 <= j < |attrs| ==> DataOffset(attrs, j + 1) == DataOffset(attrs, j) + Size(attrs[j].data.format)
    ensures Offset(attrs, |attrs|) == Stride(attrs)
  {
    forall j | 0 <= j < |attrs|
      ensures Offset(attrs, j + 1) == Offset(attrs, j) + Size(attrs[j].key.format)
      ensures DataOffset(attrs, j + 1) == DataOffset(attrs, j) + Size(attrs[j].data.format)
    {
      SumPrefixStep(KeySizes(attrs), j);
      SumPrefixStep(DataSizes(attrs), j);
    }
    assert KeySizes(attrs)[..|attrs|] == KeySizes(attrs);
  }

  lemma {:induction false} DataOffsetMonotone(attrs: seq<Attribute>, i: nat, j: nat)
    requires i <= j <= |attrs|
    ensures DataOffset(attrs, i) <= DataOffset(attrs, j)
    decreases j - i
  {
    if i < j {
      OffsetsAreRunningSums(attrs);
      DataOffsetMonotone(attrs, i, j - 1);
    }
  }

  /** With consistent keys, data is written exactly where the layout says. */
  lemma ConsistentOffsets(attrs: seq<Attribute>)
    requires Consistent(attrs)
    ensures forall j :: 0 <= j <= |attrs| ==> DataOffset(attrs, j) == Offset(attrs, j)
  {
    assert KeySizes(attrs) == DataSizes(attrs);
  }

  datatype VertexAttribute = VertexAttribute(format: VertexFormat, offset: nat, shaderLocation: nat)

  // ---------------------------------------------------------------------
  // Vertex count.

  function Lengths(attrs: seq<Attribute>): (s: seq<nat>)
    ensures |s| == |attrs|
  {
    seq(|attrs|, i requires 0 <= i < |attrs| => |attrs[i].data.items|)
  }

  /** The number of whole vertices: the shortest attribute's length, or 0
   *  without attributes. */
  function VertexCount(attrs: seq<Attribute>): (n: nat)
    ensures attrs == [] ==> n == 0
    ensures forall i :: 0 <= i < |attrs| ==> n <= |attrs[i].data.items|
    ensures attrs != [] ==> exists i :: 0 <= i < |attrs| && n == |attrs[i].data.items|
  {
    if attrs == [] then 0
    else
      var m := MinOf(Lengths(attrs));
      assert forall i :: 0 <= i < |attrs| ==> Lengths(attrs)[i] == |attrs[i].data.items|;
      assert exists i :: 0 <= i < |attrs| && Lengths(attrs)[i] == m;
      m
  }

  // ---------------------------------------------------------------------
  // Bytes.

  /** The native-endian bytes of one 32-bit scalar. */
  type Encode = Scalar -> (byte, byte, byte, byte)

  function ElementBytes(item: seq<Scalar>, enc: Encode): (r: seq<byte>)
    ensures |r| == 4 * |item|
  {
    if item == [] then []
    else
      var w := enc(item[0]);
      [w.0, w.1, w.2, w.3] + ElementBytes(item[1..], enc)
  }

  /** `cast_bytes`: the elements' bytes back to back. */
  function CastBytes(items: seq<seq<Scalar>>, n: nat, enc: Encode): (r: seq<byte>)
    requires forall i :: 0 <= i < |items| ==> |items[i]| == n
    ensures |r| == 4 * n * |items|
  {
    if items == [] then []
    else ElementBytes(items[0], enc) + CastBytes(items[1..], n, enc)
  }

  /** Element `v` occupies bytes `v * size` up to `(v + 1) * size`. */
  lemma {:induction false} CastBytesAt(items: seq<seq<Scalar>>, n: nat, enc: Encode, v: nat, k: nat)
    requires forall i :: 0 <= i < |items| ==> |items[i]| == n
    requires v < |items| && k < 4 * n
    ensures v * (4 * n) + k < |CastBytes(items, n, enc)|
    ensures CastBytes(items, n, enc)[v * (4 * n) + k] == ElementBytes(items[v], enc)[k]
  {
    var size := 4 * n;
    var head := ElementBytes(items[0], enc);
    var rest := CastBytes(items[1..], n, enc);
    assert CastBytes(items, n, enc) == head + rest;
    if v > 0 {
      CastBytesAt(items[1..], n, enc, v - 1, k);
      assert items[1..][v - 1] == items[v];
      IndexPastHead(head, rest, size, v, k);
    } else {
      assert v * size + k == k;
    }
  }

  /** Row `v` of a byte list starting with a `size`-byte head is row
   *  `v - 1` of its tail. */
  lemma IndexPastHead(head: seq<byte>, rest: seq<byte>, size: nat, v: nat, k: nat)
    requires |head| == size && 0 < v && (v - 1) * size + k < |rest|
    ensures v * size + k < |head + rest|
    ensures (head + rest)[v * size + k] == rest[(v - 1) * size + k]
  {
    assert v * size == (v - 1) * size + size;
  }

  /** Byte `c` of vertex row `v` in a buffer of rows of `stride` bytes. */
  function Pos(stride: nat, v: nat, c: nat): nat {
    v * stride + c
  }

  lemma {:induction false} MulMonotone(a: nat, b: nat, s: nat)
    requires a <= b
    ensures a * s <= b * s
    decreases b - a
  {
    if a < b {
      MulMonotone(a, b - 1, s);
      assert b * s == (b - 1) * s + s;
    }
  }

  /** Bytes of different rows never coincide. */
  lemma RowsApart(stride: nat, v: nat, w: nat, a: nat, b: nat)
    requires a < stride && b < stride && v != w
    ensures Pos(stride, v, a) != Pos(stride, w, b)
  {
    if v < w {
      MulMonotone(v + 1, w, stride);
      assert (v + 1) * stride == v * stride + stride;
    } else {
      MulMonotone(w + 1, v, stride);
      assert (w + 1) * stride == w * stride + stride;
    }
  }

  /** Every byte of the first `count` rows lies inside the buffer. */
  lemma RowInside(stride: nat, count: nat, v: nat, c: nat)
    requires v < count && c < stride
    ensures Pos(stride, v, c) < count * stride
  {
    MulMonotone(v + 1, count, stride);
    assert (v + 1) * stride == v * stride + stride;
  }

  /** Byte `k` of vertex `v` of attribute `jj` sits in row `v`, at the
   *  attribute's data offset plus `k`. */
  ghost predicate BytePlaced(s: seq<byte>, attrs: seq<Attribute>, jj: nat, v: nat, k: nat, stride: nat, enc: Encode)
    requires jj < |attrs| && v < |attrs[jj].data.items| && k < |ElementBytes(attrs[jj].data.items[v], enc)|
  {
    Pos(stride, v, DataOffset(attrs, jj) + k) < |s|
    && s[Pos(stride, v, DataOffset(attrs, jj) + k)] == ElementBytes(attrs[jj].data.items[v], enc)[k]
  }

  /** Every vertex of the first `j` attributes sits, byte for byte, in its
   *  row from the attribute's data offset on. */
  ghost predicate Placed(s: seq<byte>, attrs: seq<Attribute>, j: nat, count: nat, stride: nat, enc: Encode)
    requires j <= |attrs|
  {
    forall jj, v, k :: 0 <= jj < j && 0 <= v < count && 0 <= k < Size(attrs[jj].data.format)
                       && v < |attrs[jj].data.items| && k < |ElementBytes(attrs[jj].data.items[v], enc)| ==>
      BytePlaced(s, attrs, jj, v, k, stride, enc)
  }

  // ---------------------------------------------------------------------
  // Typed views of float attribute data.

  /** The value of a float scalar; well-formed float data holds nothing else. */
  function Real(s: Scalar): real {
    if s.F32? then s.f else 0.0
  }

  function Vec2Of(item: seq<Scalar>): Vec2
    requires |item| >= 2
  {
    Vec2(Real(item[0]), Real(item[1]))
  }

  function Vec3Of(item: seq<Scalar>): Vec3
    requires |item| >= 3
  {
    Vec3(Real(item[0]), Real(item[1]), Real(item[2]))
  }

  function Vec2Scalars(v: Vec2): seq<Scalar> {
    [F32(v.x), F32(v.y)]
  }

  function Vec3Scalars(v: Vec3): seq<Scalar> {
    [F32(v.x), F32(v.y), F32(v.z)]
  }

  function Vec4Scalars(v: Vec4): seq<Scalar> {
    [F32(v.x), F32(v.y), F32(v.z), F32(v.w)]
  }

  /** Reading back a stored vector gives the vector. */
  lemma ScalarsRoundTrip(a: Vec2, b: Vec3)
    ensures Vec2Of(Vec2Scalars(a)) == a && Vec3Of(Vec3Scalars(b)) == b
  {
  }

  // ---------------------------------------------------------------------
  // Tangents.

  /** The three attributes `recalculate_tangent` reads, present and holding
   *  the variants it destructures. */
  predicate HasTangentInputs(attrs: seq<Attribute>) {
    Lookup(attrs, POSITION_ATTR.id).Some? && Lookup(attrs, NORMAL_ATTR.id).Some? && Lookup(attrs, TEX_COORDS_ATTR.id).Some?
    && Lookup(attrs, POSITION_ATTR.id).value.data.format == Float32x3
    && Lookup(attrs, NORMAL_ATTR.id).value.data.format == Float32x3
    && Lookup(attrs, TEX_COORDS_ATTR.id).value.data.format == Float32x2
  }

  /** Indexing the map panics on the first missing id; a wrong variant hits
   *  `unreachable!`. */
  function TangentError(attrs: seq<Attribute>): (e: Option<Panic>)
    ensures e.None? <==> HasTangentInputs(attrs)
    ensures e.Some? ==> e.value == (if Lookup(attrs, POSITION_ATTR.id).None? || Lookup(attrs, NORMAL_ATTR.id).None?
                                        || Lookup(attrs, TEX_COORDS_ATTR.id).None?
                                     then MissingKey else Unreachable)
  {
    if Lookup(attrs, POSITION_ATTR.id).None? || Lookup(attrs, NORMAL_ATTR.id).None? || Lookup(attrs, TEX_COORDS_ATTR.id).None? then
      Some(MissingKey)
    else if !HasTangentInputs(attrs) then Some(Unreachable)
    else None
  }

  /** Every attribute is at least `VertexCount` long, the three looked up
   *  included. */
  lemma LookupLongEnough(attrs: seq<Attribute>, id: nat)
    requires Lookup(attrs, id).Some?
    ensures VertexCount(attrs) <= |Lookup(attrs, id).value.data.items|
  {
    var a := Lookup(attrs, id).value;
    var i :| 0 <= i < |attrs| && attrs[i] == a;
  }

  /** The typed position, normal and texture-coordinate lists, cut to the
   *  vertex count. */
  function TangentSources(attrs: seq<Attribute>): (r: (seq<Vec3>, seq<Vec3>, seq<Vec2>))
    requires HasTangentInputs(attrs) && forall i :: 0 <= i < |attrs| ==> WellFormed(attrs[i].data)
    ensures |r.0| == |r.1| == |r.2| == VertexCount(attrs)
  {
    var count := VertexCount(attrs);
    LookupLongEnough(attrs, POSITION_ATTR.id);
    LookupLongEnough(attrs, NORMAL_ATTR.id);
    LookupLongEnough(attrs, TEX_COORDS_ATTR.id);
    var p := Lookup(attrs, POSITION_ATTR.id).value.data;
    var n := Lookup(attrs, NORMAL_ATTR.id).value.data;
    var u := Lookup(attrs, TEX_COORDS_ATTR.id).value.data;
    assert WellFormed(p) && WellFormed(n) && WellFormed(u);
    (Vec3Column(p, count), Vec3Column(n, count), Vec2Column(u, count))
  }

  /** The first `count` elements of 3-wide float data as vectors. */
  function Vec3Column(d: AttributeData, count: nat): (r: seq<Vec3>)
    requires WellFormed(d) && d.format == Float32x3 && count <= |d.items|
    ensures |r| == count
  {
    seq(count, i requires 0 <= i < count => Vec3Of(d.items[i]))
  }

  function Vec2Column(d: AttributeData, count: nat): (r: seq<Vec2>)
    requires WellFormed(d) && d.format == Float32x2 && count <= |d.items|
    ensures |r| == count
  {
    seq(count, i requires 0 <= i < count => Vec2Of(d.items[i]))
  }

  /** `Float32x4` data holding the tangent of every vertex of the lists. */
  function TangentItems(ps: seq<Vec3>, ns: seq<Vec3>, uvs: seq<Vec2>, recip: Recip): (d: AttributeData)
    requires |ps| == |ns| == |uvs|
    ensures d.format == Float32x4 && WellFormed(d) && |d.items| == |ps|
  {
    var count := |ps|;
    AttributeData(Float32x4, seq(count, i requires 0 <= i < count => Vec4Scalars(TangentOf(ps, ns, uvs, count, i, recip))))
  }

  /** The data `recalculate_tangent` inserts: one tangent per vertex,
   *  handedness in the fourth component. */
  function TangentData(attrs: seq<Attribute>, recip: Recip): (d: AttributeData)
    requires HasTangentInputs(attrs) && forall i :: 0 <= i < |attrs| ==> WellFormed(attrs[i].data)
    ensures d.format == Float32x4 && WellFormed(d) && |d.items| == VertexCount(attrs)
  {
    var src := TangentSources(attrs);
    TangentItems(src.0, src.1, src.2, recip)
  }

  /** Every stored tangent ends in a handedness of 1 or -1. */
  lemma TangentHandedness(attrs: seq<Attribute>, recip: Recip, i: nat)
    requires HasTangentInputs(attrs) && forall i :: 0 <= i < |attrs| ==> WellFormed(attrs[i].data)
    requires i < VertexCount(attrs)
    ensures TangentData(attrs, recip).items[i][3] in {F32(1.0), F32(-1.0)}
  {
    var src := TangentSources(attrs);
    var v := TangentOf(src.0, src.1, src.2, VertexCount(attrs), i, recip);
    assert TangentItems(src.0, src.1, src.2, recip).items[i] == Vec4Scalars(v);
  }

  /** Inserting, under an id already present, the data already stored there
   *  changes nothing. */
  lemma {:induction false} InsertSameIsNoOp(attrs: seq<Attribute>, key: AttributeId, data: AttributeData)
    requires SortedById(attrs)
    requires Lookup(attrs, key.id).Some? && Lookup(attrs, key.id).value.data == data
    ensures Inserted(attrs, key, data) == attrs
  {
    if attrs[0].key.id == key.id {
      assert Lookup(attrs, key.id) == Some(attrs[0]);
      assert [Attribute(attrs[0].key, data)] + attrs[1..] == attrs;
    } else if key.id < attrs[0].key.id {
      LookupBelowFirst(attrs);
    } else {
      assert Lookup(attrs[1..], key.id) == Lookup(attrs, key.id);
      assert SortedById(attrs[1..]);
      InsertSameIsNoOp(attrs[1..], key, data);
      assert [attrs[0]] + attrs[1..] == attrs;
    }
  }

  /** `InsertedLookup` for every id at once. */
  lemma InsertedLookups(attrs: seq<Attribute>, key: AttributeId, data: AttributeData)
    requires SortedById(attrs)
    ensures var old_ := Lookup(attrs, key.id);
            forall n: nat :: Lookup(Inserted(attrs, key, data), n)
                             == if n == key.id then Some(Attribute(if old_.Some? then old_.value.key else key, data))
                                else Lookup(attrs, n)
  {
    forall n: nat
      ensures Lookup(Inserted(attrs, key, data), n)
              == if n == key.id then Some(Attribute(if Lookup(attrs, key.id).Some? then Lookup(attrs, key.id).value.key else key, data))
                 else Lookup(attrs, n)
    {
      InsertedLookup(attrs, key, data, n);
    }
  }

  /** Inserting well-formed data with exactly as many elements as the
   *  vertex count keeps every attribute well formed and the count
   *  unchanged. */
  lemma InsertedKeepsCount(attrs: seq<Attribute>, key: AttributeId, data: AttributeData)
    requires SortedById(attrs) && forall i :: 0 <= i < |attrs| ==> WellFormed(attrs[i].data)
    requires WellFormed(data) && |data.items| == VertexCount(attrs)
    ensures var r := Inserted(attrs, key, data);
            VertexCount(r) == VertexCount(attrs) && forall i :: 0 <= i < |r| ==> WellFormed(r[i].data)
  {
    var r := Inserted(attrs, key, data);
    var count := VertexCount(attrs);
    forall i | 0 <= i < |r|
      ensures count <= |r[i].data.items| && WellFormed(r[i].data)
    {
      assert r[i] in r;
    }
    InsertedLookup(attrs, key, data, key.id);
    var t := Lookup(r, key.id).value;
    var k :| 0 <= k < |r| && r[k] == t;
    var m :| 0 <= m < |r| && VertexCount(r) == |r[m].data.items|;
    assert VertexCount(r) <= |r[k].data.items| == count <= |r[m].data.items|;
  }

  /** After `recalculate_tangent` the vertex count is unchanged, the inputs
   *  are still there, and the tangent attribute holds the new data. */
  lemma RecalculatedAttributes(attrs: seq<Attribute>, recip: Recip)
    requires SortedById(attrs) && forall i :: 0 <= i < |attrs| ==> WellFormed(attrs[i].data)
    requires HasTangentInputs(attrs)
    ensures var r := Inserted(attrs, TANGENT_ATTR, TangentData(attrs, recip));
            VertexCount(r) == VertexCount(attrs)
            && HasTangentInputs(r)
            && (forall i :: 0 <= i < |r| ==> WellFormed(r[i].data))
            && Lookup(r, TANGENT_ATTR.id).Some? && Lookup(r, TANGENT_ATTR.id).value.data == TangentData(attrs, recip)
            && (forall id: nat :: id != TANGENT_ATTR.id ==> Lookup(r, id) == Lookup(attrs, id))
  {
    var data := TangentData(attrs, recip);
    InsertedLookups(attrs, TANGENT_ATTR, data);
    InsertedKeepsCount(attrs, TANGENT_ATTR, data);
  }

  /** Recalculating twice stores the same tangents as recalculating once. */
  lemma RecalculateTangentIdempotent(attrs: seq<Attribute>, recip: Recip)
    requires SortedById(attrs) && forall i :: 0 <= i < |attrs| ==> WellFormed(attrs[i].data)
    requires HasTangentInputs(attrs)
    ensures var r := Inserted(attrs, TANGENT_ATTR, TangentData(attrs, recip));
            HasTangentInputs(r) && (forall i :: 0 <= i < |r| ==> WellFormed(r[i].data))
            && Inserted(r, TANGENT_ATTR, TangentData(r, recip)) == r
  {
    var r := Inserted(attrs, TANGENT_ATTR, TangentData(attrs, recip));
    RecalculatedAttributes(attrs, recip);
    assert TangentSources(r) == TangentSources(attrs);
    assert TangentData(r, recip) == TangentData(attrs, recip);
    InsertSameIsNoOp(r, TANGENT_ATTR, TangentData(r, recip));
  }

  // ---------------------------------------------------------------------
  // Meshes from OBJ corners.

  function PositionsData(cs: seq<Corner>): (d: AttributeData)
    ensures WellFormed(d) && |d.items| == |cs|
  {
    AttributeData(Float32x3, seq(|cs|, i requires 0 <= i < |cs| => Vec3Scalars(cs[i].position)))
  }

  function NormalsData(cs: seq<Corner>): (d: AttributeData)
    ensures WellFormed(d) && |d.items| == |cs|
  {
    AttributeData(Float32x3, seq(|cs|, i requires 0 <= i < |cs| => Vec3Scalars(cs[i].normal)))
  }

  function TexCoordsData(cs: seq<Corner>): (d: AttributeData)
    ensures WellFormed(d) && |d.items| == |cs|
  {
    AttributeData(Float32x2, seq(|cs|, i requires 0 <= i < |cs| => Vec2Scalars(cs[i].uv)))
  }

  /** The attributes one object's corners give before the tangents. */
  function ObjBase(cs: seq<Corner>): seq<Attribute> {
    Inserted(Inserted(Inserted([], POSITION_ATTR, PositionsData(cs)), NORMAL_ATTR, NormalsData(cs)),
             TEX_COORDS_ATTR, TexCoordsData(cs))
  }

  /** Inserting an id above every present id appends the entry. */
  lemma {:induction false} InsertedAtEnd(attrs: seq<Attribute>, key: AttributeId, data: AttributeData)
    requires SortedById(attrs)
    requires forall i :: 0 <= i < |attrs| ==> attrs[i].key.id < key.id
    ensures Inserted(attrs, key, data) == attrs + [Attribute(key, data)]
  {
    if attrs != [] {
      InsertedAtEnd(attrs[1..], key, data);
      assert attrs == [attrs[0]] + attrs[1..];
    }
  }

  /** The three inserts give the three attributes in id order, each holding
   *  one element per corner. */
  lemma ObjBaseShape(cs: seq<Corner>)
    ensures ObjBase(cs) == [Attribute(POSITION_ATTR, PositionsData(cs)), Attribute(NORMAL_ATTR, NormalsData(cs)),
                            Attribute(TEX_COORDS_ATTR, TexCoordsData(cs))]
  {
    InsertedAtEnd([], POSITION_ATTR, PositionsData(cs));
    var a := [Attribute(POSITION_ATTR, PositionsData(cs))];
    InsertedAtEnd(a, NORMAL_ATTR, NormalsData(cs));
    var b := a + [Attribute(NORMAL_ATTR, NormalsData(cs))];
    InsertedAtEnd(b, TEX_COORDS_ATTR, TexCoordsData(cs));
  }

  /** Those three attributes are what `recalculate_tangent` needs, one
   *  vertex per corner. */
  lemma ObjBaseInputs(cs: seq<Corner>)
    ensures SortedById(ObjBase(cs)) && HasTangentInputs(ObjBase(cs)) && VertexCount(ObjBase(cs)) == |cs|
    ensures forall i :: 0 <= i < |ObjBase(cs)| ==> WellFormed(ObjBase(cs)[i].data)
  {
    ObjBaseShape(cs);
    var p, n, u := PositionsData(cs), NormalsData(cs), TexCoordsData(cs);
    var c := [Attribute(POSITION_ATTR, p), Attribute(NORMAL_ATTR, n), Attribute(TEX_COORDS_ATTR, u)];
    assert c[1..] == [c[1], c[2]] && c[1..][1..] == [c[2]];
    assert c[0].data == p && c[1].data == n && c[2].data == u;
    var m :| 0 <= m < |c| && VertexCount(c) == |c[m].data.items|;
  }

  /** The tangents of a list of corners, read as consecutive triangles. */
  function CornerTangents(cs: seq<Corner>, recip: Recip): (d: AttributeData)
    ensures d.format == Float32x4 && WellFormed(d) && |d.items| == |cs|
  {
    TangentItems(CornerPositions(cs), CornerNormals(cs), CornerUvs(cs), recip)
  }

  function CornerPositions(cs: seq<Corner>): (r: seq<Vec3>)
    ensures |r| == |cs| && forall i :: 0 <= i < |cs| ==> r[i] == cs[i].position
  {
    seq(|cs|, i requires 0 <= i < |cs| => cs[i].position)
  }

  function CornerNormals(cs: seq<Corner>): (r: seq<Vec3>)
    ensures |r| == |cs| && forall i :: 0 <= i < |cs| ==> r[i] == cs[i].normal
  {
    seq(|cs|, i requires 0 <= i < |cs| => cs[i].normal)
  }

  function CornerUvs(cs: seq<Corner>): (r: seq<Vec2>)
    ensures |r| == |cs| && forall i :: 0 <= i < |cs| ==> r[i] == cs[i].uv
  {
    seq(|cs|, i requires 0 <= i < |cs| => cs[i].uv)
  }

  /** The attributes of the mesh `from_obj` builds for one object: position,
   *  normal, texture coordinates and tangent, in id order, one element per
   *  corner. */
  function ObjMeshAttributes(cs: seq<Corner>, recip: Recip): (a: seq<Attribute>)
    ensures |a| == 4 && SortedById(a) && Consistent(a) && VertexCount(a) == |cs|
    ensures forall i :: 0 <= i < |a| ==> WellFormed(a[i].data)
  {
    var a := [Attribute(POSITION_ATTR, PositionsData(cs)), Attribute(NORMAL_ATTR, NormalsData(cs)),
              Attribute(TEX_COORDS_ATTR, TexCoordsData(cs)), Attribute(TANGENT_ATTR, CornerTangents(cs, recip))];
    FourAttributes(a, cs);
    a
  }

  lemma FourAttributes(a: seq<Attribute>, cs: seq<Corner>)
    requires |a| == 4
    requires a[0] == Attribute(POSITION_ATTR, PositionsData(cs)) && a[1] == Attribute(NORMAL_ATTR, NormalsData(cs))
    requires a[2] == Attribute(TEX_COORDS_ATTR, TexCoordsData(cs))
    requires a[3].key == TANGENT_ATTR && a[3].data.format == Float32x4 && |a[3].data.items| == |cs|
    ensures SortedById(a) && Consistent(a) && VertexCount(a) == |cs|
  {
    var m :| 0 <= m < |a| && VertexCount(a) == |a[m].data.items|;
  }

  /** The three inserts and `recalculate_tangent` build exactly those
   *  attributes. */
  lemma ObjMeshBuilt(cs: seq<Corner>, recip: Recip)
    ensures SortedById(ObjBase(cs)) && HasTangentInputs(ObjBase(cs))
    ensures forall i :: 0 <= i < |ObjBase(cs)| ==> WellFormed(ObjBase(cs)[i].data)
    ensures Inserted(ObjBase(cs), TANGENT_ATTR, TangentData(ObjBase(cs), recip)) == ObjMeshAttributes(cs, recip)
  {
    ObjBaseShape(cs);
    ObjBaseInputs(cs);
    ObjTangentsReadBack(cs, recip);
    InsertedAtEnd(ObjBase(cs), TANGENT_ATTR, TangentData(ObjBase(cs), recip));
  }

  /** The tangent pass reads back the very vectors the inserts stored. */
  lemma ObjTangentsReadBack(cs: seq<Corner>, recip: Recip)
    ensures SortedById(ObjBase(cs)) && HasTangentInputs(ObjBase(cs))
    ensures forall i :: 0 <= i < |ObjBase(cs)| ==> WellFormed(ObjBase(cs)[i].data)
    ensures TangentData(ObjBase(cs), recip) == CornerTangents(cs, recip)
  {
    ObjBaseShape(cs);
    ObjBaseInputs(cs);
    var base := ObjBase(cs);
    assert Lookup(base, POSITION_ATTR.id).value.data == PositionsData(cs);
    assert Lookup(base, NORMAL_ATTR.id).value.data == NormalsData(cs);
    assert Lookup(base, TEX_COORDS_ATTR.id).value.data == TexCoordsData(cs);
    SourcesReadBack(base, cs);
  }

  /** Attributes holding the corners' vectors give those vectors back to the
   *  tangent pass. */
  lemma SourcesReadBack(attrs: seq<Attribute>, cs: seq<Corner>)
    requires HasTangentInputs(attrs) && forall i :: 0 <= i < |attrs| ==> WellFormed(attrs[i].data)
    requires VertexCount(attrs) == |cs|
    requires Lookup(attrs, POSITION_ATTR.id).value.data == PositionsData(cs)
    requires Lookup(attrs, NORMAL_ATTR.id).value.data == NormalsData(cs)
    requires Lookup(attrs, TEX_COORDS_ATTR.id).value.data == TexCoordsData(cs)
    ensures TangentSources(attrs) == (CornerPositions(cs), CornerNormals(cs), CornerUvs(cs))
  {
    ColumnsReadBack(cs);
  }

  /** Reading the stored vectors back gives the corners' vectors. */
  lemma ColumnsReadBack(cs: seq<Corner>)
    ensures Vec3Column(PositionsData(cs), |cs|) == CornerPositions(cs)
    ensures Vec3Column(NormalsData(cs), |cs|) == CornerNormals(cs)
    ensures Vec2Column(TexCoordsData(cs), |cs|) == CornerUvs(cs)
  {
    forall i | 0 <= i < |cs|
      ensures Vec3Column(PositionsData(cs), |cs|)[i] == cs[i].position
      ensures Vec3Column(NormalsData(cs), |cs|)[i] == cs[i].normal
      ensures Vec2Column(TexCoordsData(cs), |cs|)[i] == cs[i].uv
    {
      ScalarsRoundTrip(cs[i].uv, cs[i].position);
      ScalarsRoundTrip(cs[i].uv, cs[i].normal);
    }
  }

  /** Its vertex buffer is 48 bytes a vertex, with the attributes at 0, 12,
   *  24 and 32, and `vertex_buffer_data` does not panic on it. */
  lemma ObjMeshLayout(cs: seq<Corner>, recip: Recip)
    ensures var a := ObjMeshAttributes(cs, recip);
            |a| == 4 && Stride(a) == 48
            && Offset(a, 0) == 0 && Offset(a, 1) == 12 && Offset(a, 2) == 24 && Offset(a, 3) == 32
            && DataOffset(a, |a|) <= Stride(a)
  {
    var a := ObjMeshAttributes(cs, recip);
    assert a[0].key.format == Float32x3 && a[1].key.format == Float32x3;
    assert a[2].key.format == Float32x2 && a[3].key.format == Float32x4;
    OffsetsAreRunningSums(a);
    ConsistentOffsets(a);
  }

  // ---------------------------------------------------------------------
  // The mesh.

  class Mesh {
    /** The attribute map, in id order. */
    var attributes: seq<Attribute>

    ghost predicate Valid()
      reads this
    {
      SortedById(attributes) && forall i :: 0 <= i < |attributes| ==> WellFormed(attributes[i].data)
    }

    /** `Mesh::new`: no attributes. */
    constructor ()
      ensures attributes == [] && Valid()
    {
      attributes := [];
    }

    /** `insert_attribute` and `with_attribute`. */
    method InsertAttribute(key: AttributeId, data: AttributeData)
      requires Valid() && WellFormed(data)
      modifies this
      ensures Valid()
      ensures attributes == Inserted(old(attributes), key, data)
    {
      attributes := Inserted(attributes, key, data);
    }

    /** `vertices_count`: the minimum over the attributes, kept while they
     *  are visited in order. */
    method VerticesCount() returns (n: nat)
      ensures n == VertexCount(attributes)
    {
      var cnt: Option<nat> := None;
      for i := 0 to |attributes|
        invariant cnt.None? <==> i == 0
        invariant cnt.Some? ==> forall k :: 0 <= k < i ==> cnt.value <= |attributes[k].data.items|
        invariant cnt.Some? ==> exists k :: 0 <= k < i && cnt.value == |attributes[k].data.items|
      {
        var count := |attributes[i].data.items|;
        if cnt.Some? {
          if count != cnt.value {
            cnt := Some(if count < cnt.value then count else cnt.value);
          }
        } else {
          cnt := Some(count);
        }
      }
      n := if cnt.Some? then cnt.value else 0;
      if attributes != [] {
        var k :| 0 <= k < |attributes| && n == |attributes[k].data.items|;
        var m :| 0 <= m < |attributes| && VertexCount(attributes) == |attributes[m].data.items|;
        assert n <= VertexCount(attributes) <= n;
      }
    }

    /** `vertex_layout` (and `vertex_attributes`, the same loop): one entry
     *  per attribute in id order, at the running offset, at the shader
     *  location of its rank. */
    method VertexLayout() returns (layout: seq<VertexAttribute>)
      ensures |layout| == |attributes|
      ensures forall i :: 0 <= i < |attributes| ==>
                layout[i] == VertexAttribute(attributes[i].key.format, Offset(attributes, i), AsU32(i))
    {
      OffsetsAreRunningSums(attributes);
      layout := [];
      var offset := 0;
      for index := 0 to |attributes|
        invariant |layout| == index
        invariant offset == Offset(attributes, index)
        invariant forall i :: 0 <= i < index ==>
                    layout[i] == VertexAttribute(attributes[i].key.format, Offset(attributes, i), AsU32(i))
      {
        var attr := attributes[index].key;
        layout := layout + [VertexAttribute(attr.format, offset, AsU32(index))];
        offset := offset + Size(attr.format);
      }
    }

    /** `assert_vertex`: the caller's formats must be the key formats, one
     *  for one and in order. */
    method AssertVertex(formats: seq<VertexFormat>) returns (r: Result<(), Panic>)
      ensures r.Ok? <==> |formats| == |attributes| && forall i :: 0 <= i < |formats| ==> attributes[i].key.format == formats[i]
      ensures r.Err? ==> r.error == AssertFailed
    {
      if |formats| != |attributes| {
        return Err(AssertFailed);
      }
      for i := 0 to |formats|
        invariant forall k :: 0 <= k < i ==> attributes[k].key.format == formats[k]
      {
        if attributes[i].key.format != formats[i] {
          return Err(AssertFailed);
        }
      }
      r := Ok(());
    }

    /** `vertex_buffer_data`: one row of `stride` bytes per vertex, each
     *  attribute's element copied into its column. It panics when the data
     *  formats need more room than the key formats declare. */
    method VertexBufferData(enc: Encode) returns (r: Result<seq<byte>, Panic>)
      requires Valid()
      ensures r.Err? <==> VertexCount(attributes) > 0 && DataOffset(attributes, |attributes|) > Stride(attributes)
      ensures r.Err? ==> r.error == IndexOutOfBounds
      ensures r.Ok? ==> |r.value| == VertexCount(attributes) * Stride(attributes)
      ensures r.Ok? ==> Placed(r.value, attributes, |attributes|, VertexCount(attributes), Stride(attributes), enc)
    {
      var count := VerticesCount();
      var stride := Stride(attributes);
      var buffer := new byte[count * stride](_ => 0);
      OffsetsAreRunningSums(attributes);
      var attrOffset := 0;
      for j := 0 to |attributes|
        invariant attrOffset == DataOffset(attributes, j)
        invariant count > 0 ==> attrOffset <= stride
        invariant Placed(buffer[..], attributes, j, count, stride, enc)
      {
        var fits;
        fits, attrOffset := PlaceColumn(buffer, attributes, j, count, stride, enc, attrOffset);
        if !fits {
          return Err(IndexOutOfBounds);
        }
      }
      r := Ok(buffer[..]);
    }
    /** `recalculate_tangent`: tangents from positions, normals and texture
     *  coordinates, stored under the tangent attribute. Panics, changing
     *  nothing, when an input attribute is missing or of another variant. */
    method RecalculateTangent(recip: Recip) returns (r: Result<(), Panic>)
      requires Valid()
      modifies this
      ensures Valid()
      ensures r.Err? <==> TangentError(old(attributes)).Some?
      ensures r.Err? ==> r.error == TangentError(old(attributes)).value && attributes == old(attributes)
      ensures r.Ok? ==> attributes == Inserted(old(attributes), TANGENT_ATTR, TangentData(old(attributes), recip))
    {
      var count := VerticesCount();
      var p := Lookup(attributes, POSITION_ATTR.id);
      var n := Lookup(attributes, NORMAL_ATTR.id);
      var u := Lookup(attributes, TEX_COORDS_ATTR.id);
      if p.None? || n.None? || u.None? {
        return Err(MissingKey);
      }
      if p.value.data.format != Float32x3 || n.value.data.format != Float32x3 || u.value.data.format != Float32x2 {
        return Err(Unreachable);
      }
      var src := TangentSources(attributes);
      var ts := Tangents(src.0, src.1, src.2, count, recip);
      var data := AttributeData(Float32x4, seq(count, i requires 0 <= i < count => Vec4Scalars(ts[i])));
      assert data == TangentData(attributes, recip);
      InsertAttribute(TANGENT_ATTR, data);
      r := Ok(());
    }
  }

  /** One attribute of `vertex_buffer_data`: the panic when its data
   *  would run past the row, otherwise its column copied and the offset
   *  moved past it. */
  method PlaceColumn(buffer: array<byte>, attrs: seq<Attribute>, j: nat, count: nat, stride: nat, enc: Encode, attrOffset: nat)
      returns (fits: bool, next: nat)
    requires j < |attrs| && forall i :: 0 <= i < |attrs| ==> WellFormed(attrs[i].data)
    requires count == VertexCount(attrs) && buffer.Length == count * stride
    requires attrOffset == DataOffset(attrs, j) && (count > 0 ==> attrOffset <= stride)
    requires Placed(buffer[..], attrs, j, count, stride, enc)
    modifies buffer
    ensures fits <==> !(count > 0 && DataOffset(attrs, j + 1) > stride)
    ensures !fits ==> DataOffset(attrs, |attrs|) > stride
    ensures fits ==> next == DataOffset(attrs, j + 1) && Placed(buffer[..], attrs, j + 1, count, stride, enc)
  {
    OffsetsAreRunningSums(attrs);
    var data := attrs[j].data;
    var size := Size(data.format);
    next := attrOffset + size;
    if count > 0 && next > stride {
      DataOffsetMonotone(attrs, j + 1, |attrs|);
      return false, next;
    }
    fits := true;
    var bytes := CastBytes(data.items, Components(data.format), enc);
    if count > 0 {
      forall jj | 0 <= jj < j
        ensures DataOffset(attrs, jj) + Size(attrs[jj].data.format) <= DataOffset(attrs, j)
      {
        DataOffsetMonotone(attrs, jj + 1, j);
      }
      CopyColumn(buffer, attrs, j, count, stride, enc, bytes);
    }
  }

  /** The inner loop of `vertex_buffer_data` for attribute `j`: element `v`
   *  goes to row `v`, column `DataOffset(j)` on. */
  method CopyColumn(buffer: array<byte>, attrs: seq<Attribute>, j: nat, count: nat, stride: nat, enc: Encode, bytes: seq<byte>)
    requires j < |attrs| && WellFormed(attrs[j].data)
    requires buffer.Length == count * stride
    requires count <= |attrs[j].data.items|
    requires DataOffset(attrs, j) + Size(attrs[j].data.format) <= stride
    requires bytes == CastBytes(attrs[j].data.items, Components(attrs[j].data.format), enc)
    requires Placed(buffer[..], attrs, j, count, stride, enc)
    requires forall jj :: 0 <= jj < j ==> DataOffset(attrs, jj) + Size(attrs[jj].data.format) <= DataOffset(attrs, j)
    modifies buffer
    ensures Placed(buffer[..], attrs, j + 1, count, stride, enc)
  {
    var size := Size(attrs[j].data.format);
    var offset := DataOffset(attrs, j);
    for v := 0 to count
      invariant Placed(buffer[..], attrs, j, count, stride, enc)
      invariant forall w, k :: 0 <= w < v && 0 <= k < size ==> BytePlaced(buffer[..], attrs, j, w, k, stride, enc)
    {
      ghost var before := buffer[..];
      CopyElement(buffer, attrs, j, count, stride, enc, bytes, v);
      forall w, k | 0 <= w < v && 0 <= k < size
        ensures BytePlaced(buffer[..], attrs, j, w, k, stride, enc)
      {
        assert BytePlaced(before, attrs, j, w, k, stride, enc);
        RowInside(stride, count, w, offset + k);
      }
    }
    ColumnPlaced(buffer[..], attrs, j, count, stride, enc);
  }

  /** Once attribute `j`'s column is written, the first `j + 1` attributes
   *  are in place. */
  lemma ColumnPlaced(s: seq<byte>, attrs: seq<Attribute>, j: nat, count: nat, stride: nat, enc: Encode)
    requires j < |attrs| && WellFormed(attrs[j].data) && count <= |attrs[j].data.items|
    requires Placed(s, attrs, j, count, stride, enc)
    requires forall w, k :: 0 <= w < count && 0 <= k < Size(attrs[j].data.format) ==>
               BytePlaced(s, attrs, j, w, k, stride, enc)
    ensures Placed(s, attrs, j + 1, count, stride, enc)
  {
    forall jj, v, k | 0 <= jj < j + 1 && 0 <= v < count && 0 <= k < Size(attrs[jj].data.format)
                      && v < |attrs[jj].data.items| && k < |ElementBytes(attrs[jj].data.items[v], enc)|
      ensures BytePlaced(s, attrs, jj, v, k, stride, enc)
    {
    }
  }

  /** `copy_from_slice` of element `v` into its place in row `v`; no byte of
   *  another row changes, and no earlier attribute is disturbed. */
  method CopyElement(buffer: array<byte>, attrs: seq<Attribute>, j: nat, count: nat, stride: nat, enc: Encode,
                     bytes: seq<byte>, v: nat)
    requires j < |attrs| && WellFormed(attrs[j].data)
    requires buffer.Length == count * stride
    requires v < count <= |attrs[j].data.items|
    requires DataOffset(attrs, j) + Size(attrs[j].data.format) <= stride
    requires bytes == CastBytes(attrs[j].data.items, Components(attrs[j].data.format), enc)
    requires Placed(buffer[..], attrs, j, count, stride, enc)
    requires forall jj :: 0 <= jj < j ==> DataOffset(attrs, jj) + Size(attrs[jj].data.format) <= DataOffset(attrs, j)
    modifies buffer
    ensures Placed(buffer[..], attrs, j, count, stride, enc)
    ensures forall k :: 0 <= k < Size(attrs[j].data.format) ==> BytePlaced(buffer[..], attrs, j, v, k, stride, enc)
    ensures forall w, c :: 0 <= w < count && w != v && 0 <= c < stride ==>
              Pos(stride, w, c) < buffer.Length && buffer[Pos(stride, w, c)] == old(buffer[Pos(stride, w, c)])
  {
    var size := Size(attrs[j].data.format);
    var offset := DataOffset(attrs, j);
    var n := Components(attrs[j].data.format);
    forall w, c | 0 <= w < count && 0 <= c < stride
      ensures Pos(stride, w, c) < buffer.Length
    {
      RowInside(stride, count, w, c);
    }
    var attrBase := v * size;
    for k := 0 to size
      invariant Placed(buffer[..], attrs, j, count, stride, enc)
      invariant forall kk :: 0 <= kk < k ==> BytePlaced(buffer[..], attrs, j, v, kk, stride, enc)
      invariant forall w, c :: 0 <= w < count && w != v && 0 <= c < stride ==>
                  buffer[Pos(stride, w, c)] == old(buffer[Pos(stride, w, c)])
    {
      CastBytesAt(attrs[j].data.items, n, enc, v, k);
      ghost var before := buffer[..];
      var p := Pos(stride, v, offset + k);
      buffer[p] := bytes[attrBase + k];
      WriteKeepsPlaced(before, buffer[..], attrs, j, count, stride, enc, v, offset + k);
      forall w, c | 0 <= w < count && w != v && 0 <= c < stride
        ensures buffer[Pos(stride, w, c)] == old(buffer[Pos(stride, w, c)])
      {
        RowsApart(stride, w, v, c, offset + k);
      }
      forall kk | 0 <= kk < k + 1
        ensures BytePlaced(buffer[..], attrs, j, v, kk, stride, enc)
      {
        if kk < k {
          assert BytePlaced(before, attrs, j, v, kk, stride, enc);
        }
      }
    }
  }

  /** Writing one byte at row `v`, column `c` at or past attribute `j`'s
   *  offset leaves every earlier attribute in place. */
  lemma WriteKeepsPlaced(before: seq<byte>, after: seq<byte>, attrs: seq<Attribute>, j: nat, count: nat, stride: nat,
                         enc: Encode, v: nat, c: nat)
    requires j < |attrs| && |before| == |after|
    requires Placed(before, attrs, j, count, stride, enc)
    requires DataOffset(attrs, j) <= c < stride
    requires forall jj :: 0 <= jj < j ==> DataOffset(attrs, jj) + Size(attrs[jj].data.format) <= DataOffset(attrs, j)
    requires forall p :: 0 <= p < |after| && p != Pos(stride, v, c) ==> after[p] == before[p]
    ensures Placed(after, attrs, j, count, stride, enc)
  {
    forall jj, w, k | 0 <= jj < j && 0 <= w < count && 0 <= k < Size(attrs[jj].data.format)
                      && w < |attrs[jj].data.items| && k < |ElementBytes(attrs[jj].data.items[w], enc)|
      ensures BytePlaced(after, attrs, jj, w, k, stride, enc)
    {
      assert BytePlaced(before, attrs, jj, w, k, stride, enc);
      if w != v {
        RowsApart(stride, w, v, DataOffset(attrs, jj) + k, c);
      }
    }
  }

  /** `Mesh::from_obj`: one mesh per object, with every group of the object
   *  accumulated, tangents recalculated. Panics when a corner lacks its
   *  texture or normal index or an index is out of range. */
  method FromObj(obj: ObjData, recip: Recip) returns (r: Result<seq<Mesh>, Panic>)
    ensures r.Ok? <==> forall i :: 0 <= i < |obj.objects| ==> GroupsCorners(obj, obj.objects[i].groups, true).Ok?
    ensures r.Ok? ==> |r.value| == |obj.objects|
    ensures r.Ok? ==> forall i :: 0 <= i < |r.value| ==>
              r.value[i].Valid()
              && r.value[i].attributes == ObjMeshAttributes(Flatten(GroupsCorners(obj, obj.objects[i].groups, true).value), recip)
  {
    var corners := PerObjectAccumulated(obj, true);
    if corners.Err? {
      return Err(corners.error);
    }
    var meshes: seq<Mesh> := [];
    for i := 0 to |corners.value|
      invariant |meshes| == i
      invariant forall k :: 0 <= k < i ==> BuiltFrom(meshes[k], corners.value[k], recip)
    {
      var mesh := ObjMesh(corners.value[i], recip);
      meshes := meshes + [mesh];
    }
    r := Ok(meshes);
  }

  /** A mesh holding exactly the attributes `from_obj` builds from `cs`. */
  ghost predicate BuiltFrom(mesh: Mesh, cs: seq<Corner>, recip: Recip)
    reads mesh
  {
    mesh.Valid() && mesh.attributes == ObjMeshAttributes(cs, recip)
  }

  /** The body of `from_obj`'s loop: a new mesh with the three attributes,
   *  then its tangents. */
  method ObjMesh(cs: seq<Corner>, recip: Recip) returns (mesh: Mesh)
    ensures fresh(mesh) && BuiltFrom(mesh, cs, recip)
  {
    ObjMeshBuilt(cs, recip);
    mesh := new Mesh();
    mesh.InsertAttribute(POSITION_ATTR, PositionsData(cs));
    mesh.InsertAttribute(NORMAL_ATTR, NormalsData(cs));
    mesh.InsertAttribute(TEX_COORDS_ATTR, TexCoordsData(cs));
    var t := mesh.RecalculateTangent(recip);
    assert t.Ok?;
  }
}

/** The buffer side of the glTF importers: data URIs (RFC 2397: `data:`, a
 *  media type that may end in `;base64`, a comma, then the data) and the
 *  loading of a document's buffers. `chest/src/import/gltf.rs` and
 *  `core/src/import/gltf.rs` carry the same code for both.
 *
 *  Percent-decoding, base64, UTF-8 encoding and file reads are parameters. */
module GltfData {
  import opened Common
  import opened ResultFold

  // ---------------------------------------------------------------------
  // Splitting and stripping.

  /** `split_once`: the text before the first delimiter and everything
   *  after it; nothing when the delimiter does not occur. */
  function SplitOnce(s: string, d: char): (r: Option<(string, string)>)
    ensures r.None? <==> d !in s
    ensures r.Some? ==> r.value.0 + [d] + r.value.1 == s && d !in r.value.0
  {
    if s == [] then None
    else if s[0] == d then Some(([], s[1..]))
    else
      var rest := SplitOnce(s[1..], d);
      if rest.None? then None
      else
        assert s == [s[0]] + s[1..];
        Some(([s[0]] + rest.value.0, rest.value.1))
  }

  /** The split is the only one whose left part holds no delimiter. */
  lemma {:induction false} SplitOnceUnique(s: string, d: char, left: string, right: string)
    requires left + [d] + right == s && d !in left
    ensures SplitOnce(s, d) == Some((left, right))
  {
    if left != [] {
      assert s[0] == left[0] && left[0] != d;
      assert s[1..] == left[1..] + [d] + right;
      SplitOnceUnique(s[1..], d, left[1..], right);
      assert [s[0]] + left[1..] == left;
    } else {
      assert s[1..] == right;
    }
  }

  function StripPrefix(s: string, p: string): (r: Option<string>)
    ensures r.Some? <==> p <= s
    ensures r.Some? ==> p + r.value == s
  {
    if |p| <= |s| && s[..|p|] == p then Some(s[|p|..]) else None
  }

  predicate EndsWith(s: string, p: string) {
    |p| <= |s| && s[|s| - |p|..] == p
  }

  function StripSuffix(s: string, p: string): (r: Option<string>)
    ensures r.Some? <==> EndsWith(s, p)
    ensures r.Some? ==> r.value + p == s
  {
    if EndsWith(s, p) then Some(s[..|s| - |p|]) else None
  }

  /** A character missing from a text is missing from its front part. */
  lemma NotInPrefix(front: string, back: string, c: char)
    requires c !in front + back
    ensures c !in front
  {
    assert forall i :: 0 <= i < |front| ==> front[i] == (front + back)[i];
  }

  // ---------------------------------------------------------------------
  // Data URIs.

  const DATA_PREFIX: string := "data:"
  const BASE64_SUFFIX: string := ";base64"

  datatype DataUri = DataUri(mimeType: string, base64: bool, data: string)

  /** A data URI written out. */
  function Format(u: DataUri): string {
    DATA_PREFIX + u.mimeType + (if u.base64 then BASE64_SUFFIX else "") + [','] + u.data
  }

  /** A data URI that reads back as itself: its media type holds no comma,
   *  and only a base64 one ends in the base64 marker. */
  predicate WellFormed(u: DataUri) {
    ',' !in u.mimeType && (!u.base64 ==> !EndsWith(u.mimeType, BASE64_SUFFIX))
  }

  /** The data URI whose media part (type and marker) and data are given. */
  function FromParts(media: string, data: string): (u: DataUri)
    requires ',' !in media
    ensures Format(u) == DATA_PREFIX + (media + [','] + data)
    ensures WellFormed(u)
  {
    var mime := StripSuffix(media, BASE64_SUFFIX);
    if mime.Some? then
      NotInPrefix(mime.value, BASE64_SUFFIX, ',');
      DataUri(mime.value, true, data)
    else DataUri(media, false, data)
  }

  /** `DataUri::parse`: after `data:`, the media type runs to the first
   *  comma and the data is everything after it; a trailing `;base64` is
   *  stripped from the media type and sets the flag. */
  function Parse(uri: string): (r: Option<DataUri>)
    ensures r.Some? <==> DATA_PREFIX <= uri && ',' in uri[|DATA_PREFIX|..]
    ensures r.Some? ==> Format(r.value) == uri && WellFormed(r.value)
  {
    var rest := StripPrefix(uri, DATA_PREFIX);
    if rest.None? then None
    else
      assert uri[|DATA_PREFIX|..] == rest.value;
      var parts := SplitOnce(rest.value, ',');
      if parts.None? then None
      else Some(FromParts(parts.value.0, parts.value.1))
  }

  /** Writing a well-formed data URI out and parsing it gives it back. */
  lemma ParseFormat(u: DataUri)
    requires WellFormed(u)
    ensures Parse(Format(u)) == Some(u)
  {
    var media := u.mimeType + (if u.base64 then BASE64_SUFFIX else "");
    var rest := media + [','] + u.data;
    assert Format(u) == DATA_PREFIX + rest;
    assert StripPrefix(Format(u), DATA_PREFIX) == Some(rest);
    assert ',' !in BASE64_SUFFIX;
    assert ',' !in media by {
      forall i | 0 <= i < |media|
        ensures media[i] != ','
      {
        if i >= |u.mimeType| {
          assert media[i] == BASE64_SUFFIX[i - |u.mimeType|];
        }
      }
    }
    SplitOnceUnique(rest, ',', media, u.data);
    if u.base64 {
      assert EndsWith(media, BASE64_SUFFIX) by {
        assert media[|media| - |BASE64_SUFFIX|..] == BASE64_SUFFIX;
      }
      assert StripSuffix(media, BASE64_SUFFIX).value == u.mimeType;
    } else {
      assert media == u.mimeType;
    }
  }

  /** How the base64 engine decodes text: nothing for malformed input. */
  type Base64Decoder = string -> Option<seq<byte>>
  /** The UTF-8 bytes of a text. */
  type Utf8Encoder = string -> seq<byte>

  /** `DataUri::decode`: base64 data is decoded, and may be malformed;
   *  other data is its own bytes. */
  function Decode(u: DataUri, base64: Base64Decoder, utf8: Utf8Encoder): (r: Option<seq<byte>>)
    ensures !u.base64 ==> r == Some(utf8(u.data))
    ensures u.base64 ==> r == base64(u.data)
  {
    if u.base64 then base64(u.data) else Some(utf8(u.data))
  }

  // ---------------------------------------------------------------------
  // Loading a document's buffers.

  datatype GltfLoadError =
    | GltfParse
    | MultipleCameras(count: nat)
    | MissingBlob
    | Base64DecodeError
    | BufferFormatUnsupported
    | IoError

  /** How an import ends when it does not succeed: an error it returns, or
   *  a panic. */
  datatype Failure = LoadError(e: GltfLoadError) | Panicked(p: Panic)

  /** Where a buffer's bytes are: the binary chunk, or a URI. */
  datatype BufferSource = Bin | Uri(uri: string)

  /** What the importer asks of the outside world. */
  datatype Env = Env(
    percentDecode: string -> Option<string>,
    base64: Base64Decoder,
    utf8: Utf8Encoder,
    readFile: string -> Option<seq<byte>>)

  /** `VALID_MIME_TYPES`. */
  const VALID_MIME_TYPES: seq<string> := ["application/octet-stream", "application/gltf-buffer"]

  /** The bytes behind a percent-decoded URI: a data URI of a valid type
   *  decoded, a data URI of any other type refused, anything else read as
   *  a file. */
  function UriBytes(uri: string, env: Env): (r: Result<seq<byte>, Failure>)
    ensures Parse(uri).Some? && Parse(uri).value.mimeType in VALID_MIME_TYPES ==>
      var bytes := Decode(Parse(uri).value, env.base64, env.utf8);
      (r.Ok? <==> bytes.Some?) && (r.Ok? ==> r.value == bytes.value) && (r.Err? ==> r.error == LoadError(Base64DecodeError))
    ensures Parse(uri).Some? && Parse(uri).value.mimeType !in VALID_MIME_TYPES ==>
      r == Err(LoadError(BufferFormatUnsupported))
    ensures Parse(uri).None? ==>
      (r.Ok? <==> env.readFile(uri).Some?) && (r.Ok? ==> r.value == env.readFile(uri).value)
      && (r.Err? ==> r.error == LoadError(IoError))
  {
    match Parse(uri)
    case Some(d) =>
      if d.mimeType in VALID_MIME_TYPES then
        var bytes := Decode(d, env.base64, env.utf8);
        if bytes.Some? then Ok(bytes.value) else Err(LoadError(Base64DecodeError))
      else Err(LoadError(BufferFormatUnsupported))
    case None =>
      var file := env.readFile(uri);
      if file.Some? then Ok(file.value) else Err(LoadError(IoError))
  }

  /** One buffer's bytes: the blob for a binary buffer, which must exist;
   *  for a URI, whatever its percent-decoding names, when it decodes to
   *  UTF-8 at all (`unwrap`). */
  function BufferBytes(src: BufferSource, blob: Option<seq<byte>>, env: Env): (r: Result<seq<byte>, Failure>)
    ensures src.Bin? ==> (r.Ok? <==> blob.Some?) && (r.Ok? ==> r.value == blob.value)
                         && (r.Err? ==> r.error == LoadError(MissingBlob))
    ensures src.Uri? && env.percentDecode(src.uri).None? ==> r == Err(Panicked(UnwrapNone))
    ensures src.Uri? && env.percentDecode(src.uri).Some? ==> r == UriBytes(env.percentDecode(src.uri).value, env)
  {
    match src
    case Bin => if blob.Some? then Ok(blob.value) else Err(LoadError(MissingBlob))
    case Uri(raw) =>
      var decoded := env.percentDecode(raw);
      if decoded.None? then Err(Panicked(UnwrapNone)) else UriBytes(decoded.value, env)
  }

  /** A plain data URI of a valid type loads as its own text's bytes. */
  lemma PlainDataUriLoads(mime: string, data: string, blob: Option<seq<byte>>, env: Env, raw: string)
    requires mime in VALID_MIME_TYPES
    requires env.percentDecode(raw) == Some(Format(DataUri(mime, false, data)))
    ensures BufferBytes(Uri(raw), blob, env) == Ok(env.utf8(data))
  {
    assert ',' !in mime && !EndsWith(mime, BASE64_SUFFIX) by {
      assert mime == "application/octet-stream" || mime == "application/gltf-buffer";
    }
    ParseFormat(DataUri(mime, false, data));
  }

  /** Each buffer's bytes, by its position in the document. */
  function BufferOf(blob: Option<seq<byte>>, env: Env): (nat, BufferSource) -> Result<seq<byte>, Failure> {
    (_: nat, src: BufferSource) => BufferBytes(src, blob, env)
  }

  /** `load_buffers_data`: one byte vector per buffer, in order, or the
   *  failure of the first buffer that fails. */
  method LoadBuffersData(sources: seq<BufferSource>, blob: Option<seq<byte>>, env: Env)
      returns (r: Result<seq<seq<byte>>, Failure>)
    ensures r == Collect(sources, BufferOf(blob, env))
    ensures r.Ok? <==> forall i :: 0 <= i < |sources| ==> BufferBytes(sources[i], blob, env).Ok?
    ensures r.Ok? ==> |r.value| == |sources|
                      && forall i :: 0 <= i < |sources| ==> r.value[i] == BufferBytes(sources[i], blob, env).value
    ensures r.Err? ==> exists i :: 0 <= i < |sources| && BufferBytes(sources[i], blob, env) == Err(r.error)
                                   && forall j :: 0 <= j < i ==> BufferBytes(sources[j], blob, env).Ok?
  {
    var f := BufferOf(blob, env);
    assert forall i :: 0 <= i < |sources| ==> f(i, sources[i]) == BufferBytes(sources[i], blob, env);
    var data := [];
    for i := 0 to |sources|
      invariant Collect(sources[..i], f) == Ok(data)
    {
      var bytes := BufferBytes(sources[i], blob, env);
      CollectNext(sources, i, f);
      if bytes.Err? {
        CollectStopped(sources, i + 1, f);
        r := Err(bytes.error);
        CollectCases(sources, f);
        return;
      }
      data := data + [bytes.value];
    }
    assert sources[..|sources|] == sources;
    r := Ok(data);
    CollectCases(sources, f);
  }

  // ---------------------------------------------------------------------
  // Buffer views and vertex attributes.

  /** A buffer view: a byte range of one of the document's buffers. */
  datatype View = View(buffer: nat, offset: nat, length: nat)

  /** The component type of an accessor. */
  datatype DataType = I8 | U8 | I16 | U16 | U32 | F32

  /** What a vertex attribute holds; the set index of the numbered ones. */
  datatype Semantic = Positions | Normals | Tangents | Colors(set_: nat) | TexCoords(set_: nat)
                    | Joints(set_: nat) | Weights(set_: nat)

  /** The bytes of a view, `&buffers[view.buffer][offset..offset + length]`:
   *  a panic when the buffer or the range does not exist. */
  function ViewBytes(buffers: seq<seq<byte>>, v: View): (r: Result<seq<byte>, Panic>)
    ensures r.Ok? <==> v.buffer < |buffers| && v.offset + v.length <= |buffers[v.buffer]|
    ensures r.Ok? ==> |r.value| == v.length
                      && forall k :: 0 <= k < v.length ==> r.value[k] == buffers[v.buffer][v.offset + k]
    ensures r.Err? ==> r.error == IndexOutOfBounds
  {
    if v.buffer < |buffers| && v.offset + v.length <= |buffers[v.buffer]| then
      Ok(buffers[v.buffer][v.offset..v.offset + v.length])
    else Err(IndexOutOfBounds)
  }

  /** `bytemuck::cast_slice` from bytes to `f32`: the bytes must make whole
   *  floats, or it panics. Alignment is not modelled. */
  function FloatCount(bytes: seq<byte>): (r: Result<nat, Panic>)
    ensures r.Ok? <==> |bytes| % 4 == 0
    ensures r.Ok? ==> r.value * 4 == |bytes|
    ensures r.Err? ==> r.error == ExplicitPanic
  {
    if |bytes| % 4 == 0 then Ok(|bytes| / 4) else Err(ExplicitPanic)
  }
}

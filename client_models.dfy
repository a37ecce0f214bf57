/**
 * The Python client's generated models. Each model has declared fields and an
 * `additional_properties` dictionary; `to_dict` lays the additional properties
 * down first and the declared fields (under their wire names) over them, and
 * `from_dict` pops the declared fields off a copy of its input and keeps the
 * rest as additional properties.
 *
 * `from_dict` works on `src_dict.copy()`, so it never changes its argument; in
 * the model dictionaries are values, which states exactly that.
 */
module ClientModels {
  import opened Wrappers
  import opened Values
  import opened CfTypes

  type Dict = map<string, Value>

  /** A model instance: its declared fields and its additional properties. */
  datatype Instance<F> = Instance(fields: F, additional: Dict)

  // ---------------------------------------------------------------------------
  // Shared dictionary steps
  // ---------------------------------------------------------------------------

  /**
   * `field_dict.update(additional); field_dict.update(known)`: the declared
   * fields win over same-named additional properties.
   */
  function Overlay(additional: Dict, known: Dict): (r: Dict)
    ensures r.Keys == additional.Keys + known.Keys
    ensures forall k :: k in known ==> r[k] == known[k]
    ensures forall k :: k in additional && k !in known ==> r[k] == additional[k]
  {
    additional + known
  }

  /** `if value is not UNSET: field_dict[k] = value`. */
  function SetIf(m: Dict, k: string, f: Field<Value>): (r: Dict)
    ensures f.Unset? ==> r == m
    ensures f.Given? ==> r == m[k := f.value]
    ensures r.Keys == m.Keys + (if f.Given? then {k} else {})
    ensures forall j :: j in m && j != k ==> r[j] == m[j]
  {
    if f.Given? then m[k := f.value] else m
  }

  datatype Popped = Popped(value: Value, rest: Dict)

  /** `d.pop(k)`: the value and the dictionary without `k`, or KeyError. */
  function Pop(d: Dict, k: string): (r: Result<Popped>)
    ensures r.Ok? <==> k in d
    ensures r.Err? ==> r.error == KeyError(k)
    ensures r.Ok? ==> r.value == Popped(d[k], d - {k})
  {
    if k in d then Ok(Popped(d[k], d - {k})) else Err(KeyError(k))
  }

  /** `d.pop(k, UNSET)`. */
  function PopOr(d: Dict, k: string): (r: (Field<Value>, Dict))
    ensures k in d ==> r == (Given(d[k]), d - {k})
    ensures k !in d ==> r == (Unset, d)
  {
    if k in d then (Given(d[k]), d - {k}) else (Unset, d)
  }

  /**
   * `Visibility(v)` of the client's string Enum (INTERNAL, PRIVATE, PUBLIC):
   * lookup by value; anything else is a ValueError.
   */
  function ClientVisibility(v: Value): (r: Result<Visibility>)
    ensures r.Ok? <==> v.PyStr? && v.s in {"PUBLIC", "INTERNAL", "PRIVATE"}
    ensures r.Ok? ==> PyStr(r.value.Name()) == v
    ensures r.Err? ==> r.error.ValueError?
  {
    if v.PyStr? then VisibilityOf(v.s) else Err(ValueError("is not a valid Visibility"))
  }

  /** A serialised visibility reads back as itself. */
  lemma ClientVisibilityRoundTrip(v: Visibility)
    ensures ClientVisibility(PyStr(v.Name())) == Ok(v)
  {
    VisibilityRoundTrip(v);
  }

  /** The optional visibility as `to_dict` writes it: its string value. */
  function VisibilityField(f: Field<Visibility>): (r: Field<Value>)
    ensures r.Given? <==> f.Given?
    ensures f.Given? ==> r.value == PyStr(f.value.Name())
  {
    if f.Given? then Given(PyStr(f.value.Name())) else Unset
  }

  /** `_visibility = d.pop("visibility", UNSET)` followed by `Visibility(_visibility)` when set. */
  function ReadVisibility(f: Field<Value>): (r: Result<Field<Visibility>>)
    ensures f.Unset? ==> r == Ok(Unset)
    ensures f.Given? ==> (r.Ok? <==> ClientVisibility(f.value).Ok?)
    ensures f.Given? && r.Ok? ==> r.value == Given(ClientVisibility(f.value).value)
    ensures r.Err? ==> r.error.ValueError?
  {
    if f.Unset? then Ok(Unset)
    else
      var v :- ClientVisibility(f.value);
      Ok(Given(v))
  }

  /** Writing a visibility and reading it back gives the same field. */
  lemma ReadVisibilityField(f: Field<Visibility>)
    ensures ReadVisibility(VisibilityField(f)) == Ok(f)
  {
    if f.Given? {
      ClientVisibilityRoundTrip(f.value);
    }
  }

  // ---------------------------------------------------------------------------
  // File payloads
  // ---------------------------------------------------------------------------

  /** The client's `File`: a binary payload with an optional name and MIME type. */
  datatype File = File(payload: seq<byte>, fileName: Option<string>, mimeType: Option<string>)

  /**
   * `File.to_tuple()`: the `(file_name, payload, mime_type)` triple. The
   * client's `types.py` is not part of this model; the triple is all the
   * model relies on.
   */
  function ToTuple(f: File): (r: Value)
    ensures r.PyTuple? && |r.elems| == 3
    ensures r.elems[1] == PyBytes(f.payload)
  {
    PyTuple([
      if f.fileName.Some? then PyStr(f.fileName.value) else PyNone,
      PyBytes(f.payload),
      if f.mimeType.Some? then PyStr(f.mimeType.value) else PyNone])
  }

  /**
   * `File(payload=BytesIO(v))`: BytesIO accepts bytes (and None, giving an
   * empty buffer) and raises TypeError for anything else.
   */
  function FileOfPayload(v: Value): (r: Result<File>)
    ensures r.Ok? <==> v.PyBytes? || v.PyNone?
    ensures v.PyBytes? ==> r == Ok(File(v.bytes, None, None))
    ensures v.PyNone? ==> r == Ok(File([], None, None))
    ensures r.Err? ==> r.error.TypeError?
  {
    match v
    case PyBytes(bs) => Ok(File(bs, None, None))
    case PyNone => Ok(File([], None, None))
    case _ => Err(TypeError("a bytes-like object is required"))
  }

  /** What `to_dict` writes for a file is not something `from_dict` can read. */
  lemma TupleIsNoPayload(f: File)
    ensures FileOfPayload(ToTuple(f)).Err?
    ensures FileOfPayload(ToTuple(f)).error.TypeError?
  {
  }

  // ---------------------------------------------------------------------------
  // R2UploadedPartBody: etag and part_number (wire name "partNumber")
  // ---------------------------------------------------------------------------

  datatype R2UploadedPartBody = R2UploadedPartBody(etag: Value, partNumber: Value)

  function R2UploadedPartBodyToDict(x: Instance<R2UploadedPartBody>): (r: Dict)
    ensures r.Keys == x.additional.Keys + {"etag", "partNumber"}
    ensures r["etag"] == x.fields.etag && r["partNumber"] == x.fields.partNumber
    ensures forall k :: k in x.additional && k != "etag" && k != "partNumber" ==> r[k] == x.additional[k]
  {
    Overlay(x.additional, map["etag" := x.fields.etag, "partNumber" := x.fields.partNumber])
  }

  function R2UploadedPartBodyFromDict(src: Dict): (r: Result<Instance<R2UploadedPartBody>>)
    ensures r.Ok? <==> "etag" in src && "partNumber" in src
    ensures "etag" !in src ==> r == Err(KeyError("etag"))
    ensures "etag" in src && "partNumber" !in src ==> r == Err(KeyError("partNumber"))
    ensures r.Ok? ==> r.value.fields == R2UploadedPartBody(src["etag"], src["partNumber"])
    ensures r.Ok? ==> r.value.additional == src - {"etag", "partNumber"}
  {
    var etag :- Pop(src, "etag");
    var partNumber :- Pop(etag.rest, "partNumber");
    Ok(Instance(R2UploadedPartBody(etag.value, partNumber.value), partNumber.rest))
  }

  /** `from_dict(to_dict(x)) == x` when no additional key shadows a declared one. */
  lemma R2UploadedPartBodyRoundTrip(x: Instance<R2UploadedPartBody>)
    requires "etag" !in x.additional && "partNumber" !in x.additional
    ensures R2UploadedPartBodyFromDict(R2UploadedPartBodyToDict(x)) == Ok(x)
  {
    var d := R2UploadedPartBodyToDict(x);
    assert d - {"etag", "partNumber"} == x.additional;
  }

  /** `to_dict(from_dict(d)) == d` whenever `d` has both keys. */
  lemma R2UploadedPartBodyDictRoundTrip(src: Dict)
    requires "etag" in src && "partNumber" in src
    ensures R2UploadedPartBodyToDict(R2UploadedPartBodyFromDict(src).value) == src
  {
    var d := R2UploadedPartBodyToDict(R2UploadedPartBodyFromDict(src).value);
    assert forall k :: k in d <==> k in src;
  }

  // ---------------------------------------------------------------------------
  // R2MultipartUploadResponse: key and upload_id (wire name "uploadId")
  // ---------------------------------------------------------------------------

  datatype R2MultipartUploadResponse = R2MultipartUploadResponse(key: Value, uploadId: Value)

  function R2MultipartUploadResponseToDict(x: Instance<R2MultipartUploadResponse>): (r: Dict)
    ensures r.Keys == x.additional.Keys + {"key", "uploadId"}
    ensures r["key"] == x.fields.key && r["uploadId"] == x.fields.uploadId
    ensures forall k :: k in x.additional && k != "key" && k != "uploadId" ==> r[k] == x.additional[k]
  {
    Overlay(x.additional, map["key" := x.fields.key, "uploadId" := x.fields.uploadId])
  }

  function R2MultipartUploadResponseFromDict(src: Dict): (r: Result<Instance<R2MultipartUploadResponse>>)
    ensures r.Ok? <==> "key" in src && "uploadId" in src
    ensures "key" !in src ==> r == Err(KeyError("key"))
    ensures "key" in src && "uploadId" !in src ==> r == Err(KeyError("uploadId"))
    ensures r.Ok? ==> r.value.fields == R2MultipartUploadResponse(src["key"], src["uploadId"])
    ensures r.Ok? ==> r.value.additional == src - {"key", "uploadId"}
  {
    var key :- Pop(src, "key");
    var uploadId :- Pop(key.rest, "uploadId");
    Ok(Instance(R2MultipartUploadResponse(key.value, uploadId.value), uploadId.rest))
  }

  /** `from_dict(to_dict(x)) == x` when no additional key shadows a declared one. */
  lemma R2MultipartUploadResponseRoundTrip(x: Instance<R2MultipartUploadResponse>)
    requires "key" !in x.additional && "uploadId" !in x.additional
    ensures R2MultipartUploadResponseFromDict(R2MultipartUploadResponseToDict(x)) == Ok(x)
  {
    var d := R2MultipartUploadResponseToDict(x);
    assert d - {"key", "uploadId"} == x.additional;
  }

  /** `to_dict(from_dict(d)) == d` whenever `d` has both keys. */
  lemma R2MultipartUploadResponseDictRoundTrip(src: Dict)
    requires "key" in src && "uploadId" in src
    ensures R2MultipartUploadResponseToDict(R2MultipartUploadResponseFromDict(src).value) == src
  {
    var d := R2MultipartUploadResponseToDict(R2MultipartUploadResponseFromDict(src).value);
    assert forall k :: k in d <==> k in src;
  }

  // ---------------------------------------------------------------------------
  // FileCreateStartBody: key and an optional visibility
  // ---------------------------------------------------------------------------

  datatype FileCreateStartBody = FileCreateStartBody(key: Value, visibility: Field<Visibility>)

  function FileCreateStartBodyToDict(x: Instance<FileCreateStartBody>): (r: Dict)
    ensures r.Keys == x.additional.Keys + {"key"} + (if x.fields.visibility.Given? then {"visibility"} else {})
    ensures r["key"] == x.fields.key
    ensures x.fields.visibility.Given? ==> "visibility" in r && r["visibility"] == PyStr(x.fields.visibility.value.Name())
    ensures forall k :: (k in x.additional && k != "key" && (k != "visibility" || x.fields.visibility.Unset?)) ==>
      r[k] == x.additional[k]
  {
    Overlay(x.additional, SetIf(map["key" := x.fields.key], "visibility", VisibilityField(x.fields.visibility)))
  }

  function FileCreateStartBodyFromDict(src: Dict): (r: Result<Instance<FileCreateStartBody>>)
    ensures r.Ok? <==> "key" in src && ("visibility" in src ==> ClientVisibility(src["visibility"]).Ok?)
    ensures "key" !in src ==> r == Err(KeyError("key"))
    ensures "key" in src && r.Err? ==> r.error.ValueError?
    ensures r.Ok? ==> r.value.fields.key == src["key"]
    ensures r.Ok? && "visibility" !in src ==> r.value.fields.visibility == Unset
    ensures r.Ok? && "visibility" in src ==>
      r.value.fields.visibility == Given(ClientVisibility(src["visibility"]).value)
    ensures r.Ok? ==> r.value.additional == src - {"key", "visibility"}
  {
    var key :- Pop(src, "key");
    var (raw, rest) := PopOr(key.rest, "visibility");
    var visibility :- ReadVisibility(raw);
    Ok(Instance(FileCreateStartBody(key.value, visibility), rest))
  }

  /** `from_dict(to_dict(x)) == x` when no additional key shadows a declared one. */
  lemma FileCreateStartBodyRoundTrip(x: Instance<FileCreateStartBody>)
    requires "key" !in x.additional && "visibility" !in x.additional
    ensures FileCreateStartBodyFromDict(FileCreateStartBodyToDict(x)) == Ok(x)
  {
    var d := FileCreateStartBodyToDict(x);
    ReadVisibilityField(x.fields.visibility);
    assert d - {"key", "visibility"} == x.additional;
  }

  /** `to_dict(from_dict(d)) == d` whenever `from_dict` accepts `d`. */
  lemma FileCreateStartBodyDictRoundTrip(src: Dict)
    requires FileCreateStartBodyFromDict(src).Ok?
    ensures FileCreateStartBodyToDict(FileCreateStartBodyFromDict(src).value) == src
  {
    var d := FileCreateStartBodyToDict(FileCreateStartBodyFromDict(src).value);
    assert forall k :: k in d <==> k in src;
  }

  // ---------------------------------------------------------------------------
  // R2Object: five optional fields; http_etag is "httpEtag" on the wire and
  // uploaded travels as ISO 8601 text
  // ---------------------------------------------------------------------------

  /**
   * A `datetime`. The model needs only equality of instants; `isoformat` and
   * `isoparse` are parameters of the members that use them.
   */
  datatype Instant = Instant(microseconds: int)

  datatype R2Object = R2Object(
    key: Field<Value>,
    size: Field<Value>,
    etag: Field<Value>,
    httpEtag: Field<Value>,
    uploaded: Field<Instant>)

  const R2ObjectNames: set<string> := {"key", "size", "etag", "httpEtag", "uploaded"}

  /** Whether `to_dict` writes the wire name `k`: exactly the fields that are set. */
  predicate R2ObjectWrites(o: R2Object, k: string) {
    (k == "key" && o.key.Given?) ||
    (k == "size" && o.size.Given?) ||
    (k == "etag" && o.etag.Given?) ||
    (k == "httpEtag" && o.httpEtag.Given?) ||
    (k == "uploaded" && o.uploaded.Given?)
  }

  /** The wire value of a set field; `uploaded` goes through `isoformat`. */
  function R2ObjectWireValue(o: R2Object, k: string, isoformat: Instant -> string): Value
    requires R2ObjectWrites(o, k)
  {
    if k == "key" then o.key.value
    else if k == "size" then o.size.value
    else if k == "etag" then o.etag.value
    else if k == "httpEtag" then o.httpEtag.value
    else PyStr(isoformat(o.uploaded.value))
  }

  /**
   * `to_dict`: the additional properties, then each field that is set, so an
   * UNSET field is left out and a set one overrides an additional property.
   */
  function R2ObjectToDict(x: Instance<R2Object>, isoformat: Instant -> string): (r: Dict)
    ensures forall k :: k in r <==> k in x.additional || R2ObjectWrites(x.fields, k)
    ensures x.fields.key.Given? ==> "key" in r && r["key"] == x.fields.key.value
    ensures x.fields.size.Given? ==> "size" in r && r["size"] == x.fields.size.value
    ensures x.fields.etag.Given? ==> "etag" in r && r["etag"] == x.fields.etag.value
    ensures x.fields.httpEtag.Given? ==> "httpEtag" in r && r["httpEtag"] == x.fields.httpEtag.value
    ensures x.fields.uploaded.Given? ==> "uploaded" in r && r["uploaded"] == PyStr(isoformat(x.fields.uploaded.value))
    ensures forall k :: k in x.additional && !R2ObjectWrites(x.fields, k) ==> r[k] == x.additional[k]
  {
    var o := x.fields;
    Overlay(x.additional,
      map k | k in R2ObjectNames && R2ObjectWrites(o, k) :: R2ObjectWireValue(o, k, isoformat))
  }

  /** `d.pop(k, UNSET)` as a field. */
  function FieldOf(d: Dict, k: string): (r: Field<Value>)
    ensures r.Given? <==> k in d
    ensures k in d ==> r.value == d[k]
  {
    PopOr(d, k).0
  }

  /**
   * `from_dict`: each of the five names is popped with UNSET as its default
   * (the successive pops of distinct names leave `src` without all five), and
   * a present "uploaded" goes through `isoparse`, whose error propagates.
   */
  function R2ObjectFromDict(src: Dict, isoparse: Value -> Result<Instant>): (r: Result<Instance<R2Object>>)
    ensures r.Ok? <==> ("uploaded" in src ==> isoparse(src["uploaded"]).Ok?)
    ensures r.Err? ==> r.error == isoparse(src["uploaded"]).error
    ensures r.Ok? ==> r.value.fields.key == FieldOf(src, "key")
    ensures r.Ok? ==> r.value.fields.size == FieldOf(src, "size")
    ensures r.Ok? ==> r.value.fields.etag == FieldOf(src, "etag")
    ensures r.Ok? ==> r.value.fields.httpEtag == FieldOf(src, "httpEtag")
    ensures r.Ok? ==>
      r.value.fields.uploaded == (if "uploaded" in src then Given(isoparse(src["uploaded"]).value) else Unset)
    ensures r.Ok? ==> r.value.additional == src - R2ObjectNames
  {
    var uploaded :-
      if "uploaded" !in src then Ok(Unset)
      else
        var t :- isoparse(src["uploaded"]);
        Ok(Given(t));
    var o := R2Object(FieldOf(src, "key"), FieldOf(src, "size"), FieldOf(src, "etag"), FieldOf(src, "httpEtag"),
      uploaded);
    Ok(Instance(o, src - R2ObjectNames))
  }

  /** `from_dict` never raises for a missing key: every field defaults to UNSET. */
  lemma R2ObjectAcceptsMissingKeys(src: Dict, isoparse: Value -> Result<Instant>)
    requires "uploaded" !in src
    ensures R2ObjectFromDict(src, isoparse).Ok?
    ensures R2ObjectFromDict(src, isoparse).value.fields.uploaded == Unset
  {
  }

  /**
   * `from_dict(to_dict(x)) == x` when iso formatting round-trips and no
   * additional key shadows a declared one.
   */
  lemma R2ObjectRoundTrip(x: Instance<R2Object>, isoformat: Instant -> string, isoparse: Value -> Result<Instant>)
    requires x.additional.Keys !! R2ObjectNames
    requires x.fields.uploaded.Given? ==>
      isoparse(PyStr(isoformat(x.fields.uploaded.value))) == Ok(x.fields.uploaded.value)
    ensures R2ObjectFromDict(R2ObjectToDict(x, isoformat), isoparse) == Ok(x)
  {
    var d := R2ObjectToDict(x, isoformat);
    assert d - R2ObjectNames == x.additional;
    var o := x.fields;
    assert FieldOf(d, "key") == o.key;
    assert FieldOf(d, "size") == o.size;
    assert FieldOf(d, "etag") == o.etag;
    assert FieldOf(d, "httpEtag") == o.httpEtag;
  }

  /** `to_dict(from_dict(d)) == d` when `from_dict` accepts `d` and the ISO text is canonical. */
  lemma R2ObjectDictRoundTrip(src: Dict, isoformat: Instant -> string, isoparse: Value -> Result<Instant>)
    requires R2ObjectFromDict(src, isoparse).Ok?
    requires "uploaded" in src ==>
      PyStr(isoformat(isoparse(src["uploaded"]).value)) == src["uploaded"]
    ensures R2ObjectToDict(R2ObjectFromDict(src, isoparse).value, isoformat) == src
  {
    var x := R2ObjectFromDict(src, isoparse).value;
    var d := R2ObjectToDict(x, isoformat);
    assert forall k :: R2ObjectWrites(x.fields, k) <==> k in src && k in R2ObjectNames;
    assert forall k :: k in d <==> k in src;
  }

  // ---------------------------------------------------------------------------
  // PutFilesBody: file, key and optional upload_id, part and visibility
  // ---------------------------------------------------------------------------

  datatype PutFilesBody = PutFilesBody(
    file: File,
    key: Value,
    uploadId: Field<Value>,
    part: Field<Value>,
    visibility: Field<Visibility>)

  const PutFilesBodyNames: set<string> := {"file", "key", "upload_id", "part", "visibility"}

  /** Whether `to_dict` and `to_multipart` write the name `k`: file, key and the set optional fields. */
  predicate PutFilesBodyWrites(b: PutFilesBody, k: string) {
    k == "file" || k == "key" ||
    (k == "upload_id" && b.uploadId.Given?) ||
    (k == "part" && b.part.Given?) ||
    (k == "visibility" && b.visibility.Given?)
  }

  /** The `to_dict` value of a written field; visibility is its string value. */
  function PutFilesBodyWireValue(b: PutFilesBody, k: string): Value
    requires PutFilesBodyWrites(b, k)
  {
    if k == "file" then ToTuple(b.file)
    else if k == "key" then b.key
    else if k == "upload_id" then b.uploadId.value
    else if k == "part" then b.part.value
    else PyStr(b.visibility.value.Name())
  }

  function PutFilesBodyToDict(x: Instance<PutFilesBody>): (r: Dict)
    ensures forall k :: k in r <==> k in x.additional || PutFilesBodyWrites(x.fields, k)
    ensures "file" in r && r["file"] == ToTuple(x.fields.file)
    ensures "key" in r && r["key"] == x.fields.key
    ensures x.fields.uploadId.Given? ==> "upload_id" in r && r["upload_id"] == x.fields.uploadId.value
    ensures x.fields.part.Given? ==> "part" in r && r["part"] == x.fields.part.value
    ensures x.fields.visibility.Given? ==> "visibility" in r && r["visibility"] == PyStr(x.fields.visibility.value.Name())
    ensures forall k :: k in x.additional && !PutFilesBodyWrites(x.fields, k) ==> r[k] == x.additional[k]
  {
    var b := x.fields;
    Overlay(x.additional,
      map k | k in PutFilesBodyNames && PutFilesBodyWrites(b, k) :: PutFilesBodyWireValue(b, k))
  }

  /**
   * A multipart form field: the file's tuple, or `(None, text.encode(),
   * "text/plain")` for every other field.
   */
  datatype FormPart = FilePart(tuple: Value) | TextPart(text: string)

  /** The `to_multipart` entry of a written field: `str()` of anything but the file. */
  function PutFilesBodyFormValue(b: PutFilesBody, k: string): FormPart
    requires PutFilesBodyWrites(b, k)
  {
    if k == "file" then FilePart(ToTuple(b.file))
    else if k == "key" then TextPart(Str(b.key))
    else if k == "upload_id" then TextPart(Str(b.uploadId.value))
    else if k == "part" then TextPart(Str(b.part.value))
    else TextPart(b.visibility.value.Name())
  }

  /** `to_multipart`: every additional property as text, then the written fields over them. */
  function PutFilesBodyToMultipart(x: Instance<PutFilesBody>): (r: map<string, FormPart>)
    ensures forall k :: k in r <==> k in x.additional || PutFilesBodyWrites(x.fields, k)
    ensures "file" in r && r["file"] == FilePart(ToTuple(x.fields.file))
    ensures "key" in r && r["key"] == TextPart(Str(x.fields.key))
    ensures x.fields.uploadId.Given? ==> "upload_id" in r && r["upload_id"] == TextPart(Str(x.fields.uploadId.value))
    ensures x.fields.part.Given? ==> "part" in r && r["part"] == TextPart(Str(x.fields.part.value))
    ensures x.fields.visibility.Given? ==> "visibility" in r && r["visibility"] == TextPart(x.fields.visibility.value.Name())
    ensures forall k :: k in x.additional && !PutFilesBodyWrites(x.fields, k) ==>
      r[k] == TextPart(Str(x.additional[k]))
  {
    var b := x.fields;
    var extra := map k | k in x.additional :: TextPart(Str(x.additional[k]));
    extra + map k | k in PutFilesBodyNames && PutFilesBodyWrites(b, k) :: PutFilesBodyFormValue(b, k)
  }

  /**
   * The two encoders agree: the same names, the file as its tuple, and every
   * other entry of `to_multipart` the text of the `to_dict` entry.
   */
  lemma PutFilesBodyEncodersAgree(x: Instance<PutFilesBody>)
    ensures PutFilesBodyToMultipart(x).Keys == PutFilesBodyToDict(x).Keys
    ensures PutFilesBodyToMultipart(x)["file"] == FilePart(PutFilesBodyToDict(x)["file"])
    ensures forall k :: k in PutFilesBodyToDict(x) && k != "file" ==>
      PutFilesBodyToMultipart(x)[k] == TextPart(Str(PutFilesBodyToDict(x)[k]))
  {
    var d := PutFilesBodyToDict(x);
    var m := PutFilesBodyToMultipart(x);
    forall k | k in d && k != "file"
      ensures m[k] == TextPart(Str(d[k]))
    {
      if k == "visibility" && x.fields.visibility.Given? {
        assert Str(PyStr(x.fields.visibility.value.Name())) == x.fields.visibility.value.Name();
      }
    }
  }

  /**
   * `from_dict`: "file" (through BytesIO) and "key" are popped first and are
   * required; upload_id, part and visibility default to UNSET.
   */
  function PutFilesBodyFromDict(src: Dict): (r: Result<Instance<PutFilesBody>>)
    ensures "file" !in src ==> r == Err(KeyError("file"))
    ensures "file" in src && FileOfPayload(src["file"]).Err? ==> r == Err(FileOfPayload(src["file"]).error)
    ensures "file" in src && FileOfPayload(src["file"]).Ok? && "key" !in src ==> r == Err(KeyError("key"))
    ensures r.Ok? <==>
      "file" in src && FileOfPayload(src["file"]).Ok? && "key" in src &&
      ("visibility" in src ==> ClientVisibility(src["visibility"]).Ok?)
    ensures r.Ok? ==> r.value.fields.file == FileOfPayload(src["file"]).value
    ensures r.Ok? ==> r.value.fields.key == src["key"]
    ensures r.Ok? ==> r.value.fields.uploadId == FieldOf(src, "upload_id")
    ensures r.Ok? ==> r.value.fields.part == FieldOf(src, "part")
    ensures r.Ok? && "visibility" in src ==>
      r.value.fields.visibility == Given(ClientVisibility(src["visibility"]).value)
    ensures r.Ok? && "visibility" !in src ==> r.value.fields.visibility == Unset
    ensures r.Ok? ==> r.value.additional == src - PutFilesBodyNames
  {
    var file :- Pop(src, "file");
    var payload :- FileOfPayload(file.value);
    var key :- Pop(file.rest, "key");
    var visibility :- ReadVisibility(FieldOf(src, "visibility"));
    Ok(Instance(PutFilesBody(payload, key.value, FieldOf(src, "upload_id"), FieldOf(src, "part"), visibility),
      src - PutFilesBodyNames))
  }

  /**
   * `from_dict` is no inverse of `to_dict`: `to_dict` writes the file as a
   * tuple, and `from_dict` hands that tuple to BytesIO, which raises TypeError.
   */
  lemma PutFilesBodyNotInverse(x: Instance<PutFilesBody>)
    ensures PutFilesBodyFromDict(PutFilesBodyToDict(x)).Err?
    ensures PutFilesBodyFromDict(PutFilesBodyToDict(x)).error.TypeError?
  {
    TupleIsNoPayload(x.fields.file);
  }

  /**
   * The other way round the dictionary comes back except for the file, which
   * comes back as the tuple of the payload read from it.
   */
  lemma PutFilesBodyDictRoundTrip(src: Dict)
    requires PutFilesBodyFromDict(src).Ok?
    ensures PutFilesBodyToDict(PutFilesBodyFromDict(src).value) ==
      src["file" := ToTuple(FileOfPayload(src["file"]).value)]
  {
    var x := PutFilesBodyFromDict(src).value;
    var d := PutFilesBodyToDict(x);
    assert forall k :: PutFilesBodyWrites(x.fields, k) <==> k in src && k in PutFilesBodyNames;
    assert forall k :: k in d <==> k in src;
  }
  // ---------------------------------------------------------------------------
  // FileCreateBody: key, content and an optional visibility
  // ---------------------------------------------------------------------------

  datatype FileCreateBody = FileCreateBody(key: Value, content: File, visibility: Field<Visibility>)

  function FileCreateBodyToDict(x: Instance<FileCreateBody>): (r: Dict)
    ensures r.Keys == x.additional.Keys + {"key", "content"} +
      (if x.fields.visibility.Given? then {"visibility"} else {})
    ensures r["key"] == x.fields.key && r["content"] == ToTuple(x.fields.content)
    ensures x.fields.visibility.Given? ==> "visibility" in r && r["visibility"] == PyStr(x.fields.visibility.value.Name())
    ensures forall k ::
      (k in x.additional && k != "key" && k != "content" && (k != "visibility" || x.fields.visibility.Unset?)) ==>
      r[k] == x.additional[k]
  {
    var b := x.fields;
    Overlay(x.additional,
      SetIf(map["key" := b.key, "content" := ToTuple(b.content)], "visibility", VisibilityField(b.visibility)))
  }

  function FileCreateBodyFromDict(src: Dict): (r: Result<Instance<FileCreateBody>>)
    ensures "key" !in src ==> r == Err(KeyError("key"))
    ensures "key" in src && "content" !in src ==> r == Err(KeyError("content"))
    ensures "key" in src && "content" in src && FileOfPayload(src["content"]).Err? ==>
      r == Err(FileOfPayload(src["content"]).error)
    ensures r.Ok? <==>
      "key" in src && "content" in src && FileOfPayload(src["content"]).Ok? &&
      ("visibility" in src ==> ClientVisibility(src["visibility"]).Ok?)
    ensures r.Ok? ==> r.value.fields.key == src["key"]
    ensures r.Ok? ==> r.value.fields.content == FileOfPayload(src["content"]).value
    ensures r.Ok? && "visibility" in src ==>
      r.value.fields.visibility == Given(ClientVisibility(src["visibility"]).value)
    ensures r.Ok? && "visibility" !in src ==> r.value.fields.visibility == Unset
    ensures r.Ok? ==> r.value.additional == src - {"key", "content", "visibility"}
  {
    var key :- Pop(src, "key");
    var content :- Pop(key.rest, "content");
    var payload :- FileOfPayload(content.value);
    var (raw, rest) := PopOr(content.rest, "visibility");
    var visibility :- ReadVisibility(raw);
    Ok(Instance(FileCreateBody(key.value, payload, visibility), rest))
  }

  /** As for PutFilesBody, the content `to_dict` writes cannot be read back. */
  lemma FileCreateBodyNotInverse(x: Instance<FileCreateBody>)
    ensures FileCreateBodyFromDict(FileCreateBodyToDict(x)).Err?
    ensures FileCreateBodyFromDict(FileCreateBodyToDict(x)).error.TypeError?
  {
    TupleIsNoPayload(x.fields.content);
  }

  /** The dictionary comes back except for the content, which comes back as a tuple. */
  lemma FileCreateBodyDictRoundTrip(src: Dict)
    requires FileCreateBodyFromDict(src).Ok?
    ensures FileCreateBodyToDict(FileCreateBodyFromDict(src).value) ==
      src["content" := ToTuple(FileOfPayload(src["content"]).value)]
  {
    var d := FileCreateBodyToDict(FileCreateBodyFromDict(src).value);
    assert forall k :: k in d <==> k in src;
  }

  // ---------------------------------------------------------------------------
  // FileCreatePartBody: key, upload_id, part and content, all required
  // ---------------------------------------------------------------------------

  datatype FileCreatePartBody = FileCreatePartBody(key: Value, uploadId: Value, part: Value, content: File)

  function FileCreatePartBodyToDict(x: Instance<FileCreatePartBody>): (r: Dict)
    ensures r.Keys == x.additional.Keys + {"key", "upload_id", "part", "content"}
    ensures r["key"] == x.fields.key && r["upload_id"] == x.fields.uploadId
    ensures r["part"] == x.fields.part && r["content"] == ToTuple(x.fields.content)
    ensures forall k :: k in x.additional && k !in {"key", "upload_id", "part", "content"} ==>
      r[k] == x.additional[k]
  {
    var b := x.fields;
    Overlay(x.additional,
      map["key" := b.key, "upload_id" := b.uploadId, "part" := b.part, "content" := ToTuple(b.content)])
  }

  /** All four fields are required; `part` is taken as it is, with no type or range check. */
  function FileCreatePartBodyFromDict(src: Dict): (r: Result<Instance<FileCreatePartBody>>)
    ensures "key" !in src ==> r == Err(KeyError("key"))
    ensures "key" in src && "upload_id" !in src ==> r == Err(KeyError("upload_id"))
    ensures "key" in src && "upload_id" in src && "part" !in src ==> r == Err(KeyError("part"))
    ensures "key" in src && "upload_id" in src && "part" in src && "content" !in src ==>
      r == Err(KeyError("content"))
    ensures r.Ok? <==>
      "key" in src && "upload_id" in src && "part" in src && "content" in src &&
      FileOfPayload(src["content"]).Ok?
    ensures r.Ok? ==>
      r.value.fields == FileCreatePartBody(src["key"], src["upload_id"], src["part"], FileOfPayload(src["content"]).value)
    ensures r.Ok? ==> r.value.additional == src - {"key", "upload_id", "part", "content"}
  {
    var key :- Pop(src, "key");
    var uploadId :- Pop(key.rest, "upload_id");
    var part :- Pop(uploadId.rest, "part");
    var content :- Pop(part.rest, "content");
    var payload :- FileOfPayload(content.value);
    Ok(Instance(FileCreatePartBody(key.value, uploadId.value, part.value, payload), content.rest))
  }

  /** The dictionary comes back except for the content, which comes back as a tuple. */
  lemma FileCreatePartBodyDictRoundTrip(src: Dict)
    requires FileCreatePartBodyFromDict(src).Ok?
    ensures FileCreatePartBodyToDict(FileCreatePartBodyFromDict(src).value) ==
      src["content" := ToTuple(FileOfPayload(src["content"]).value)]
  {
    var d := FileCreatePartBodyToDict(FileCreatePartBodyFromDict(src).value);
    assert forall k :: k in d <==> k in src;
  }

  // ---------------------------------------------------------------------------
  // The item accessors, which every generated model has in the same form
  // ---------------------------------------------------------------------------

  /**
   * A live model object. `additional_keys`, `[]`, `[]=`, `del` and `in` work
   * on `additional_properties` only; the declared fields are out of their
   * reach.
   */
  class Model<F> {
    var fields: F
    var additional: Dict

    constructor(x: Instance<F>)
      ensures fields == x.fields && additional == x.additional
    {
      fields := x.fields;
      additional := x.additional;
    }

    /** The instance `to_dict` and the other pure members work on. */
    function State(): Instance<F>
      reads this
    {
      Instance(fields, additional)
    }

    /** `additional_keys` (its list order is not modelled). */
    function AdditionalKeys(): (r: set<string>)
      reads this
      ensures forall k :: k in r <==> Contains(k)
    {
      additional.Keys
    }

    /** `key in obj`. */
    predicate Contains(k: string)
      reads this
    {
      k in additional
    }

    /** `obj[key]`: KeyError for a key that is not an additional property. */
    function GetItem(k: string): (r: Result<Value>)
      reads this
      ensures r.Ok? <==> Contains(k)
      ensures r.Ok? ==> r.value == additional[k]
      ensures r.Err? ==> r.error == KeyError(k)
    {
      if k in additional then Ok(additional[k]) else Err(KeyError(k))
    }

    /** `obj[key] = value`. */
    method SetItem(k: string, v: Value)
      modifies this
      ensures additional == old(additional)[k := v]
      ensures fields == old(fields)
      ensures GetItem(k) == Ok(v)
    {
      additional := additional[k := v];
    }

    /** `del obj[key]`: KeyError, and no change, for a key that is not there. */
    method DelItem(k: string) returns (r: Result<()>)
      modifies this
      ensures r.Ok? <==> k in old(additional)
      ensures r.Err? ==> r.error == KeyError(k) && additional == old(additional)
      ensures r.Ok? ==> additional == old(additional) - {k}
      ensures fields == old(fields)
      ensures !Contains(k)
    {
      if k !in additional {
        return Err(KeyError(k));
      }
      additional := additional - {k};
      return Ok(());
    }
  }

  /**
   * Setting an item named like a declared field does not reach the field:
   * `to_dict` still writes the field's own value under that name.
   */
  lemma SetItemCannotShadowField(x: Instance<R2UploadedPartBody>, v: Value)
    ensures R2UploadedPartBodyToDict(Instance(x.fields, x.additional["etag" := v]))["etag"] == x.fields.etag
  {
  }
}

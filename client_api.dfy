/**
 * The Python client's generated endpoint modules: `_get_kwargs` assembles
 * the keyword arguments of the httpx request, and `_parse_response` turns a
 * status code and a JSON body into a model, None, or UnexpectedStatus.
 *
 * `response.json()` is taken as already decoded (the `json` field of
 * `HttpResponse`). The models `R2ObjectList`, `R2UploadedPart` and
 * `GetDownloadFileKeyTokenResponse200` are not part of this model; their
 * `from_dict` are the parameters collected in `Decoders`.
 */
module ClientApi {
  import opened Wrappers
  import opened Values
  import opened CfTypes
  import opened ClientModels

  /** The keyword arguments handed to httpx; an absent key is `None`. */
  datatype Kwargs = Kwargs(
    verb: string,
    url: string,
    params: Option<Dict>,
    json: Option<Value>,
    files: Option<map<string, FormPart>>,
    headers: Option<map<string, string>>)

  datatype HttpResponse = HttpResponse(status: int, content: seq<byte>, json: Value)

  /** What `_parse_response` returns. */
  datatype Parsed =
    | Nothing
    | MultipartUpload(upload: Instance<R2MultipartUploadResponse>)
    | Object(obj: Instance<R2Object>)
    | ObjectList(list: Value)
    | Payload(file: File)
    | UploadedPart(part: Value)
    | TokenResponse(token: Value)

  /** `isoparse` and the `from_dict` of the models this model does not contain. */
  datatype Decoders = Decoders(
    isoparse: Value -> Result<Instant>,
    objectList: Dict -> Result<Value>,
    uploadedPart: Value -> Result<Value>,
    tokenResponse: Value -> Result<Value>)

  /**
   * `{k: v for k, v in params.items() if v is not UNSET and v is not None}`.
   */
  function SetParams(params: map<string, Field<Value>>): (r: Dict)
    ensures forall k :: k in r <==> k in params && params[k].Given? && params[k].value != PyNone
    ensures forall k :: k in r ==> r[k] == params[k].value
  {
    map k | k in params && params[k].Given? && params[k].value != PyNone :: params[k].value
  }

  /** The undocumented-status tail shared by every `_parse_response`. */
  function Unexpected(status: int, raiseOnUnexpected: bool): (r: Result<Parsed>)
    ensures raiseOnUnexpected <==> r.Err?
    ensures r.Err? ==> r.error == UnexpectedStatus(status)
    ensures r.Ok? ==> r.value == Nothing
  {
    if raiseOnUnexpected then Err(UnexpectedStatus(status)) else Ok(Nothing)
  }

  /**
   * `Model.from_dict(json)` on a value that may not be a dict: `.copy()` works
   * on a list but its `pop(key, UNSET)` does not take two arguments
   * (TypeError); anything else has no `copy` (AttributeError).
   */
  function AsDict(v: Value): (r: Result<Dict>)
    ensures r.Ok? <==> v.PyDict?
    ensures v.PyDict? ==> r.value == v.entries
    ensures v.PyList? ==> r.Err? && r.error.TypeError?
  {
    match v
    case PyDict(m) => Ok(m)
    case PyList(_) => Err(TypeError("pop expected at most 1 argument, got 2"))
    case _ => Err(AttributeError("object has no attribute 'copy'"))
  }

  // ---------------------------------------------------------------------------
  // POST /files
  // ---------------------------------------------------------------------------

  /** The body of POST /files: a start body, or the parts of a completion. */
  datatype PostBody =
    | StartBody(start: Instance<FileCreateStartBody>)
    | PartList(parts: seq<Instance<R2UploadedPartBody>>)

  /** Each part's `to_dict`, in the order of the parts. */
  function PartsJson(parts: seq<Instance<R2UploadedPartBody>>): (r: seq<Value>)
    ensures |r| == |parts|
    ensures forall i :: 0 <= i < |parts| ==> r[i] == PyDict(R2UploadedPartBodyToDict(parts[i]))
  {
    seq(|parts|, i requires 0 <= i < |parts| => PyDict(R2UploadedPartBodyToDict(parts[i])))
  }

  /** The list-body loop of `_get_kwargs`, appending one `to_dict` per part. */
  method SerializeParts(parts: seq<Instance<R2UploadedPartBody>>) returns (body: seq<Value>)
    ensures body == PartsJson(parts)
  {
    body := [];
    var i := 0;
    while i < |parts|
      invariant 0 <= i <= |parts|
      invariant body == PartsJson(parts[..i])
    {
      body := body + [PyDict(R2UploadedPartBodyToDict(parts[i]))];
      i := i + 1;
      assert parts[..i] == parts[..i - 1] + [parts[i - 1]];
    }
    assert parts[..i] == parts;
  }

  /** The JSON body: a start body's `to_dict`, or the list of the parts' `to_dict`. */
  function PostBodyJson(body: PostBody): (r: Value)
    ensures body.StartBody? ==> r == PyDict(FileCreateStartBodyToDict(body.start))
    ensures body.PartList? ==> r == PyList(PartsJson(body.parts))
  {
    match body
    case StartBody(start) => PyDict(FileCreateStartBodyToDict(start))
    case PartList(parts) => PyList(PartsJson(parts))
  }

  /** The request `post_files._get_kwargs` describes. */
  function PostFilesRequest(body: PostBody, uploadId: Field<Value>, key: Field<Value>, visibility: Field<Visibility>)
    : (r: Kwargs)
    ensures r.verb == "post" && r.url == "/files"
    ensures r.headers == Some(map["Content-Type" := "application/json"])
    ensures r.json == Some(PostBodyJson(body)) && r.files == None
    ensures r.params.Some?
    ensures "upload_id" in r.params.value <==> uploadId.Given? && uploadId.value != PyNone
    ensures "key" in r.params.value <==> key.Given? && key.value != PyNone
    ensures "visibility" in r.params.value <==> visibility.Given?
    ensures visibility.Given? ==> r.params.value["visibility"] == PyStr(visibility.value.Name())
    ensures r.params.value.Keys <= {"upload_id", "key", "visibility"}
  {
    var params := SetParams(map["upload_id" := uploadId, "key" := key, "visibility" := VisibilityField(visibility)]);
    Kwargs("post", "/files", Some(params), Some(PostBodyJson(body)), None, Some(map["Content-Type" := "application/json"]))
  }

  /** `post_files._get_kwargs`, with its list-body loop. */
  method PostFilesKwargs(body: PostBody, uploadId: Field<Value>, key: Field<Value>, visibility: Field<Visibility>)
    returns (r: Kwargs)
    ensures r == PostFilesRequest(body, uploadId, key, visibility)
  {
    var json: Value;
    match body {
      case StartBody(start) =>
        json := PyDict(FileCreateStartBodyToDict(start));
      case PartList(parts) =>
        var items := SerializeParts(parts);
        json := PyList(items);
    }
    var params := SetParams(map["upload_id" := uploadId, "key" := key, "visibility" := VisibilityField(visibility)]);
    r := Kwargs("post", "/files", Some(params), Some(json), None, Some(map["Content-Type" := "application/json"]));
  }

  /**
   * `post_files._parse_response`: on 200 an R2MultipartUploadResponse when the
   * dict parses as one (any exception falls through), else an R2Object; a
   * non-dict body is a TypeError.
   */
  function PostFilesParse(resp: HttpResponse, raiseOnUnexpected: bool, dec: Decoders): (r: Result<Parsed>)
    ensures resp.status == 200 && !resp.json.PyDict? ==> r.Err? && r.error.TypeError?
    ensures resp.status == 400 || resp.status == 401 ==> r == Ok(Nothing)
    ensures resp.status !in {200, 400, 401} ==> r == Unexpected(resp.status, raiseOnUnexpected)
    ensures resp.status == 200 && r.Ok? ==> r.value.MultipartUpload? || r.value.Object?
  {
    if resp.status == 200 then
      if !resp.json.PyDict? then Err(TypeError(""))
      else
        match R2MultipartUploadResponseFromDict(resp.json.entries)
        case Ok(upload) => Ok(MultipartUpload(upload))
        case Err(_) =>
          var obj :- R2ObjectFromDict(resp.json.entries, dec.isoparse);
          Ok(Object(obj))
    else if resp.status == 400 || resp.status == 401 then Ok(Nothing)
    else Unexpected(resp.status, raiseOnUnexpected)
  }

  /** On 200 the result is an upload response exactly when the JSON has "key" and "uploadId". */
  lemma PostFilesOkShape(resp: HttpResponse, raiseOnUnexpected: bool, dec: Decoders)
    requires resp.status == 200 && resp.json.PyDict?
    ensures var r := PostFilesParse(resp, raiseOnUnexpected, dec);
      r.Ok? && r.value.MultipartUpload? <==> "key" in resp.json.entries && "uploadId" in resp.json.entries
    ensures var r := PostFilesParse(resp, raiseOnUnexpected, dec);
      r.Ok? && r.value.MultipartUpload? ==> r.value.upload.fields.uploadId == resp.json.entries["uploadId"]
  {
  }

  // ---------------------------------------------------------------------------
  // GET /files
  // ---------------------------------------------------------------------------

  /** The request `get_files._get_kwargs` describes; range_ is "range" and only_if "onlyIf". */
  function GetFilesRequest(key: Field<Value>, limit: Field<Value>, cursor: Field<Value>, range: Field<Value>,
                           onlyIf: Field<Value>): (r: Kwargs)
    ensures r.verb == "get" && r.url == "/files"
    ensures r.json == None && r.files == None && r.headers == None
    ensures r.params.Some?
    ensures r.params.value.Keys <= {"key", "limit", "cursor", "range", "onlyIf"}
    ensures "key" in r.params.value <==> key.Given? && key.value != PyNone
    ensures "limit" in r.params.value <==> limit.Given? && limit.value != PyNone
    ensures "cursor" in r.params.value <==> cursor.Given? && cursor.value != PyNone
    ensures "range" in r.params.value <==> range.Given? && range.value != PyNone
    ensures "onlyIf" in r.params.value <==> onlyIf.Given? && onlyIf.value != PyNone
  {
    var params := SetParams(map["key" := key, "limit" := limit, "cursor" := cursor, "range" := range,
      "onlyIf" := onlyIf]);
    Kwargs("get", "/files", Some(params), None, None, None)
  }

  /**
   * `get_files._parse_response`: 200 is the raw content as a File; 206 is an
   * R2Object when the dict parses as one, else an R2ObjectList.
   */
  function GetFilesParse(resp: HttpResponse, raiseOnUnexpected: bool, dec: Decoders): (r: Result<Parsed>)
    ensures resp.status == 200 ==> r == Ok(Payload(File(resp.content, None, None)))
    ensures resp.status == 206 && !resp.json.PyDict? ==> r.Err? && r.error.TypeError?
    ensures resp.status in {400, 401, 403, 404} ==> r == Ok(Nothing)
    ensures resp.status !in {200, 206, 400, 401, 403, 404} ==> r == Unexpected(resp.status, raiseOnUnexpected)
    ensures resp.status == 206 && r.Ok? ==> r.value.Object? || r.value.ObjectList?
  {
    if resp.status == 200 then Ok(Payload(File(resp.content, None, None)))
    else if resp.status == 206 then
      if !resp.json.PyDict? then Err(TypeError(""))
      else
        match R2ObjectFromDict(resp.json.entries, dec.isoparse)
        case Ok(obj) => Ok(Object(obj))
        case Err(_) =>
          var list :- dec.objectList(resp.json.entries);
          Ok(ObjectList(list))
    else if resp.status in {400, 401, 403, 404} then Ok(Nothing)
    else Unexpected(resp.status, raiseOnUnexpected)
  }

  /**
   * On 206 the R2ObjectList fallback is reached only when "uploaded" is
   * present and fails to parse: any other dict is an R2Object.
   */
  lemma GetFilesListOnlyOnBadDate(resp: HttpResponse, raiseOnUnexpected: bool, dec: Decoders)
    requires resp.status == 206 && resp.json.PyDict?
    ensures var r := GetFilesParse(resp, raiseOnUnexpected, dec);
      r.Ok? && r.value.ObjectList? ==>
        "uploaded" in resp.json.entries && dec.isoparse(resp.json.entries["uploaded"]).Err?
    ensures "uploaded" !in resp.json.entries ==>
      GetFilesParse(resp, raiseOnUnexpected, dec) ==
        Ok(Object(Instance(R2Object(FieldOf(resp.json.entries, "key"), FieldOf(resp.json.entries, "size"),
          FieldOf(resp.json.entries, "etag"), FieldOf(resp.json.entries, "httpEtag"), Unset),
          resp.json.entries - R2ObjectNames)))
  {
  }

  // ---------------------------------------------------------------------------
  // PUT /files
  // ---------------------------------------------------------------------------

  /** The request `put_files._get_kwargs` describes: the body's multipart form and no headers. */
  function PutFilesRequest(body: Instance<PutFilesBody>): (r: Kwargs)
    ensures r.verb == "put" && r.url == "/files"
    ensures r.files == Some(PutFilesBodyToMultipart(body))
    ensures r.headers == Some(map[]) && r.params == None && r.json == None
  {
    Kwargs("put", "/files", None, None, Some(PutFilesBodyToMultipart(body)), Some(map[]))
  }

  /** `put_files._parse_response`: 200 is an R2Object and 201 an R2UploadedPart. */
  function PutFilesParse(resp: HttpResponse, raiseOnUnexpected: bool, dec: Decoders): (r: Result<Parsed>)
    ensures resp.status == 200 ==>
      (r.Ok? <==> (resp.json.PyDict? && R2ObjectFromDict(resp.json.entries, dec.isoparse).Ok?))
    ensures resp.status == 200 && r.Ok? ==> r == Ok(Object(R2ObjectFromDict(resp.json.entries, dec.isoparse).value))
    ensures resp.status == 201 ==> (r.Ok? <==> dec.uploadedPart(resp.json).Ok?)
    ensures resp.status == 201 && r.Ok? ==> r == Ok(UploadedPart(dec.uploadedPart(resp.json).value))
    ensures resp.status == 400 || resp.status == 401 ==> r == Ok(Nothing)
    ensures resp.status !in {200, 201, 400, 401} ==> r == Unexpected(resp.status, raiseOnUnexpected)
  {
    if resp.status == 200 then
      var d :- AsDict(resp.json);
      var obj :- R2ObjectFromDict(d, dec.isoparse);
      Ok(Object(obj))
    else if resp.status == 201 then
      var part :- dec.uploadedPart(resp.json);
      Ok(UploadedPart(part))
    else if resp.status == 400 || resp.status == 401 then Ok(Nothing)
    else Unexpected(resp.status, raiseOnUnexpected)
  }

  // ---------------------------------------------------------------------------
  // GET /download/{file_key}/token
  // ---------------------------------------------------------------------------

  /** The request of `get_download_file_key_token._get_kwargs`: the key goes into the path unescaped. */
  function DownloadTokenRequest(fileKey: string): (r: Kwargs)
    ensures r.verb == "get"
    ensures r.url == "/download/" + fileKey + "/token"
    ensures r.params == None && r.json == None && r.files == None && r.headers == None
  {
    Kwargs("get", "/download/" + fileKey + "/token", None, None, None, None)
  }

  /** `get_download_file_key_token._parse_response`. */
  function DownloadTokenParse(resp: HttpResponse, raiseOnUnexpected: bool, dec: Decoders): (r: Result<Parsed>)
    ensures resp.status == 200 ==> (r.Ok? <==> dec.tokenResponse(resp.json).Ok?)
    ensures resp.status == 200 && r.Ok? ==> r == Ok(TokenResponse(dec.tokenResponse(resp.json).value))
    ensures resp.status == 400 || resp.status == 500 ==> r == Ok(Nothing)
    ensures resp.status !in {200, 400, 500} ==> r == Unexpected(resp.status, raiseOnUnexpected)
  {
    if resp.status == 200 then
      var token :- dec.tokenResponse(resp.json);
      Ok(TokenResponse(token))
    else if resp.status == 400 || resp.status == 500 then Ok(Nothing)
    else Unexpected(resp.status, raiseOnUnexpected)
  }

  /** The key is interpolated unescaped: a '/' in it stays a path separator. */
  lemma DownloadTokenKeyUnescaped()
    ensures DownloadTokenRequest("a/b").url == "/download/a/b/token"
  {
  }
}

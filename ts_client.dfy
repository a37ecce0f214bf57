/**
 * The TypeScript client's `DefaultApi`: the request factories, which check
 * the required arguments and fill a `RequestContext` step by step, and the
 * response processors, which dispatch on the status code.
 *
 * `encodeURIComponent` is a parameter of the download factories; the server
 * prefix `makeRequestContext` adds, the auth hooks, `ObjectSerializer`
 * (taken as the identity on strings and numbers) and the parsing of response
 * bodies are not modelled. `isCodeInRange` is only ever given exact codes
 * here, where it is equality with the code.
 */
module TsClient {
  import opened Wrappers
  import opened Values
  import CfTypes

  type Visibility = CfTypes.Visibility
  type HttpMethod = CfTypes.Method

  /** `HttpFile`: a Blob with a name. */
  datatype HttpFile = HttpFile(name: string, data: seq<byte>)

  /** `FilesPostRequest`: the fields `filesPost` inspects. */
  datatype FilesPostRequest = FilesPostRequest(key: Maybe<string>, visibility: Maybe<Visibility>, parts: Maybe<seq<Value>>)

  datatype FormValue = FileField(file: HttpFile) | TextField(v: Value)

  datatype Body =
    | NoBody
    | PartsArray(parts: seq<Value>)
    | WholeRequest(request: FilesPostRequest)
    | Form(isFormData: bool, fields: seq<(string, FormValue)>)

  const AcceptAll := "application/json, */*;q=0.8"

  /** A request under construction. */
  class RequestContext {
    var url: string
    var verb: HttpMethod
    var headers: map<string, string>
    var query: map<string, Value>
    var body: Body

    /** `makeRequestContext(path, method)`. */
    constructor(path: string, verb: HttpMethod)
      ensures url == path && this.verb == verb
      ensures headers == map[] && query == map[] && body == NoBody
    {
      url := path;
      this.verb := verb;
      headers := map[];
      query := map[];
      body := NoBody;
    }

    method SetHeaderParam(name: string, value: string)
      modifies this
      ensures headers == old(headers)[name := value]
      ensures url == old(url) && verb == old(verb) && query == old(query) && body == old(body)
    {
      headers := headers[name := value];
    }

    method SetQueryParam(name: string, value: Value)
      modifies this
      ensures query == old(query)[name := value]
      ensures url == old(url) && verb == old(verb) && headers == old(headers) && body == old(body)
    {
      query := query[name := value];
    }

    method SetBody(b: Body)
      modifies this
      ensures body == b
      ensures url == old(url) && verb == old(verb) && headers == old(headers) && query == old(query)
    {
      body := b;
    }
  }

  /** `x === null || x === undefined`. */
  predicate Missing<T>(x: Maybe<T>) {
    x.Undefined? || x.Null?
  }

  /** The value a defined argument contributes: JavaScript's null stays null. */
  function ValueOf<T>(x: Maybe<T>, conv: T -> Value): (r: Value)
    requires !x.Undefined?
    ensures x.Null? ==> r == PyNone
    ensures x.Defined? ==> r == conv(x.value)
  {
    if x.Null? then PyNone else conv(x.value)
  }

  function StrValue(s: string): Value { PyStr(s) }
  function IntValue(i: int): Value { PyInt(i) }
  function VisibilityValue(v: Visibility): Value { PyStr(v.Name()) }

  // ---------------------------------------------------------------------------
  // Query and form assembly
  // ---------------------------------------------------------------------------

  /** `if (x !== undefined) setQueryParam(name, x)`. */
  function SetIfDefined<T>(q: map<string, Value>, name: string, x: Maybe<T>, conv: T -> Value): (r: map<string, Value>)
    ensures x.Undefined? ==> r == q
    ensures !x.Undefined? ==> r == q[name := ValueOf(x, conv)]
  {
    if x.Undefined? then q else q[name := ValueOf(x, conv)]
  }

  /** The query of `filesGet`: each of its five optional arguments, when defined. */
  function FilesGetQuery(key: Maybe<string>, limit: Maybe<int>, cursor: Maybe<string>, range: Maybe<string>,
                         onlyIf: Maybe<string>): (r: map<string, Value>)
    ensures r.Keys <= {"key", "limit", "cursor", "range", "onlyIf"}
    ensures "key" in r <==> !key.Undefined?
    ensures "limit" in r <==> !limit.Undefined?
    ensures "cursor" in r <==> !cursor.Undefined?
    ensures "range" in r <==> !range.Undefined?
    ensures "onlyIf" in r <==> !onlyIf.Undefined?
    ensures key.Defined? ==> r["key"] == PyStr(key.value)
    ensures limit.Defined? ==> r["limit"] == PyInt(limit.value)
  {
    var q := SetIfDefined(map[], "key", key, StrValue);
    var q := SetIfDefined(q, "limit", limit, IntValue);
    var q := SetIfDefined(q, "cursor", cursor, StrValue);
    var q := SetIfDefined(q, "range", range, StrValue);
    SetIfDefined(q, "onlyIf", onlyIf, StrValue)
  }

  /** `parts && parts.length > 0`. */
  predicate HasParts(req: FilesPostRequest) {
    req.parts.Defined? && |req.parts.value| > 0
  }

  /** The query of `filesPost`. */
  function FilesPostQuery(req: FilesPostRequest, uploadId: Maybe<string>): (r: map<string, Value>)
    ensures r.Keys <= {"upload_id", "key", "visibility"}
    ensures "upload_id" in r <==> !uploadId.Undefined?
    ensures "key" in r <==> HasParts(req) && req.key.Defined? && req.key.value != ""
    ensures "key" in r ==> r["key"] == PyStr(req.key.value)
    ensures "visibility" in r <==> req.visibility.Defined?
    ensures "visibility" in r ==> r["visibility"] == PyStr(req.visibility.value.Name())
  {
    var q := SetIfDefined(map[], "upload_id", uploadId, StrValue);
    var q := if HasParts(req) && req.key.Defined? && req.key.value != "" then q["key" := PyStr(req.key.value)] else q;
    if req.visibility.Defined? then q["visibility" := PyStr(req.visibility.value.Name())] else q
  }

  /** The body of `filesPost`: the parts array when there are parts, else the whole request. */
  function FilesPostBody(req: FilesPostRequest): (r: Body)
    ensures r.PartsArray? <==> HasParts(req)
    ensures r.PartsArray? ==> r.parts == req.parts.value
    ensures !HasParts(req) ==> r == WholeRequest(req)
  {
    if HasParts(req) then PartsArray(req.parts.value) else WholeRequest(req)
  }

  /** `if (x !== undefined) form.append(name, x)`. */
  function AppendIfDefined<T>(name: string, x: Maybe<T>, conv: T -> Value): (r: seq<(string, FormValue)>)
    ensures x.Undefined? <==> r == []
    ensures !x.Undefined? ==> r == [(name, TextField(ValueOf(x, conv)))]
    ensures forall i :: 0 <= i < |r| ==> r[i].1.TextField?
  {
    if x.Undefined? then [] else [(name, TextField(ValueOf(x, conv)))]
  }

  /**
   * The form of `filesPut`: the file only into a FormData, then key,
   * upload_id, part and visibility in that order, each when defined.
   */
  function FilesPutForm(file: HttpFile, key: string, uploadId: Maybe<string>, part: Maybe<int>,
                        visibility: Maybe<Visibility>, isFormData: bool): (r: seq<(string, FormValue)>)
    ensures isFormData ==> |r| >= 2 && r[0] == ("file", FileField(file)) && r[1] == ("key", TextField(PyStr(key)))
    ensures !isFormData ==> |r| >= 1 && r[0] == ("key", TextField(PyStr(key)))
    ensures forall i :: 0 <= i < |r| ==> (r[i].1.FileField? <==> isFormData && i == 0)
    ensures |r| == (if isFormData then 2 else 1) + (if uploadId.Undefined? then 0 else 1) +
      (if part.Undefined? then 0 else 1) + (if visibility.Undefined? then 0 else 1)
  {
    var a := AppendIfDefined("upload_id", uploadId, StrValue);
    var b := AppendIfDefined("part", part, IntValue);
    var c := AppendIfDefined("visibility", visibility, VisibilityValue);
    var texts := [("key", TextField(PyStr(key)))] + a + b + c;
    assert forall i :: 0 <= i < |texts| ==> texts[i].1.TextField? by {
      forall i | 0 <= i < |texts| ensures texts[i].1.TextField? {
        if i == 0 {
        } else if i < 1 + |a| {
          assert texts[i] == a[i - 1];
        } else if i < 1 + |a| + |b| {
          assert texts[i] == b[i - 1 - |a|];
        } else {
          assert texts[i] == c[i - 1 - |a| - |b|];
        }
      }
    }
    (if isFormData then [("file", FileField(file))] else []) + texts
  }

  /** The appends of `filesPut`, in the order the request factory makes them. */
  method BuildFilesPutForm(file: HttpFile, key: string, uploadId: Maybe<string>, part: Maybe<int>,
                           visibility: Maybe<Visibility>, useForm: bool) returns (form: seq<(string, FormValue)>)
    ensures form == FilesPutForm(file, key, uploadId, part, visibility, useForm)
  {
    form := [];
    if useForm {
      form := form + [("file", FileField(file))];
    }
    form := form + [("key", TextField(PyStr(key)))];
    form := form + AppendIfDefined("upload_id", uploadId, StrValue);
    form := form + AppendIfDefined("part", part, IntValue);
    form := form + AppendIfDefined("visibility", visibility, VisibilityValue);
    FilesPutFormSteps(file, key, uploadId, part, visibility, useForm);
  }

  /** The form of `filesPut` as the appends build it, one field after another. */
  lemma FilesPutFormSteps(file: HttpFile, key: string, uploadId: Maybe<string>, part: Maybe<int>,
                          visibility: Maybe<Visibility>, isFormData: bool)
    ensures FilesPutForm(file, key, uploadId, part, visibility, isFormData)
      == (if isFormData then [("file", FileField(file))] else []) + [("key", TextField(PyStr(key)))]
        + AppendIfDefined("upload_id", uploadId, StrValue) + AppendIfDefined("part", part, IntValue)
        + AppendIfDefined("visibility", visibility, VisibilityValue)
  {
    var head := if isFormData then [("file", FileField(file))] else [];
    var a := AppendIfDefined("upload_id", uploadId, StrValue);
    var b := AppendIfDefined("part", part, IntValue);
    var c := AppendIfDefined("visibility", visibility, VisibilityValue);
    var k := [("key", TextField(PyStr(key)))];
    assert head + (k + a + b + c) == head + k + a + b + c;
  }

  // ---------------------------------------------------------------------------
  // DefaultApiRequestFactory
  // ---------------------------------------------------------------------------

  /** `downloadFileKeyGet`: GET /download/{file_key} with the token as a query parameter. */
  method DownloadFileKeyGet(fileKey: Maybe<string>, token: Maybe<string>, encodeURIComponent: string -> string)
    returns (r: Result<RequestContext>)
    ensures Missing(fileKey) ==> r == Err(RequiredError("fileKey"))
    ensures !Missing(fileKey) && Missing(token) ==> r == Err(RequiredError("token"))
    ensures r.Ok? <==> !Missing(fileKey) && !Missing(token)
    ensures r.Ok? ==> fresh(r.value) && r.value.verb == CfTypes.GET
    ensures r.Ok? ==> r.value.url == "/download/" + encodeURIComponent(fileKey.value)
    ensures r.Ok? ==> r.value.headers == map["Accept" := AcceptAll]
    ensures r.Ok? ==> r.value.query == map["token" := PyStr(token.value)] && r.value.body == NoBody
  {
    if Missing(fileKey) {
      return Err(RequiredError("fileKey"));
    }
    if Missing(token) {
      return Err(RequiredError("token"));
    }
    var ctx := new RequestContext("/download/" + encodeURIComponent(fileKey.value), CfTypes.GET);
    ctx.SetHeaderParam("Accept", AcceptAll);
    ctx.SetQueryParam("token", PyStr(token.value));
    return Ok(ctx);
  }

  /** `downloadFileKeyTokenGet`: GET /download/{file_key}/token. */
  method DownloadFileKeyTokenGet(fileKey: Maybe<string>, encodeURIComponent: string -> string)
    returns (r: Result<RequestContext>)
    ensures r.Ok? <==> !Missing(fileKey)
    ensures r.Err? ==> r.error == RequiredError("fileKey")
    ensures r.Ok? ==> fresh(r.value) && r.value.verb == CfTypes.GET
    ensures r.Ok? ==> r.value.url == "/download/" + encodeURIComponent(fileKey.value) + "/token"
    ensures r.Ok? ==> r.value.headers == map["Accept" := AcceptAll]
    ensures r.Ok? ==> r.value.query == map[] && r.value.body == NoBody
  {
    if Missing(fileKey) {
      return Err(RequiredError("fileKey"));
    }
    var ctx := new RequestContext("/download/" + encodeURIComponent(fileKey.value) + "/token", CfTypes.GET);
    ctx.SetHeaderParam("Accept", AcceptAll);
    return Ok(ctx);
  }

  /** `filesGet`: GET /files; nothing is required. */
  method FilesGet(key: Maybe<string>, limit: Maybe<int>, cursor: Maybe<string>, range: Maybe<string>,
                  onlyIf: Maybe<string>) returns (ctx: RequestContext)
    ensures fresh(ctx) && ctx.verb == CfTypes.GET && ctx.url == "/files"
    ensures ctx.headers == map["Accept" := AcceptAll] && ctx.body == NoBody
    ensures ctx.query == FilesGetQuery(key, limit, cursor, range, onlyIf)
  {
    ctx := new RequestContext("/files", CfTypes.GET);
    ctx.SetHeaderParam("Accept", AcceptAll);
    ghost var q := SetIfDefined(map[], "key", key, StrValue);
    if !key.Undefined? {
      ctx.SetQueryParam("key", ValueOf(key, StrValue));
    }
    assert ctx.query == q;
    q := SetIfDefined(q, "limit", limit, IntValue);
    if !limit.Undefined? {
      ctx.SetQueryParam("limit", ValueOf(limit, IntValue));
    }
    assert ctx.query == q;
    q := SetIfDefined(q, "cursor", cursor, StrValue);
    if !cursor.Undefined? {
      ctx.SetQueryParam("cursor", ValueOf(cursor, StrValue));
    }
    assert ctx.query == q;
    q := SetIfDefined(q, "range", range, StrValue);
    if !range.Undefined? {
      ctx.SetQueryParam("range", ValueOf(range, StrValue));
    }
    assert ctx.query == q;
    q := SetIfDefined(q, "onlyIf", onlyIf, StrValue);
    if !onlyIf.Undefined? {
      ctx.SetQueryParam("onlyIf", ValueOf(onlyIf, StrValue));
    }
  }

  /** `filesPost`: POST /files with a JSON body. */
  method FilesPost(request: Maybe<FilesPostRequest>, uploadId: Maybe<string>) returns (r: Result<RequestContext>)
    ensures r.Ok? <==> !Missing(request)
    ensures r.Err? ==> r.error == RequiredError("filesPostRequest")
    ensures r.Ok? ==> fresh(r.value) && r.value.verb == CfTypes.POST && r.value.url == "/files"
    ensures r.Ok? ==> r.value.headers == map["Accept" := AcceptAll, "Content-Type" := "application/json"]
    ensures r.Ok? ==> r.value.query == FilesPostQuery(request.value, uploadId)
    ensures r.Ok? ==> r.value.body == FilesPostBody(request.value)
  {
    if Missing(request) {
      return Err(RequiredError("filesPostRequest"));
    }
    var req := request.value;
    var ctx := new RequestContext("/files", CfTypes.POST);
    ctx.SetHeaderParam("Accept", AcceptAll);
    if !uploadId.Undefined? {
      ctx.SetQueryParam("upload_id", ValueOf(uploadId, StrValue));
    }
    if HasParts(req) && req.key.Defined? && req.key.value != "" {
      ctx.SetQueryParam("key", PyStr(req.key.value));
    }
    if req.visibility.Defined? {
      ctx.SetQueryParam("visibility", PyStr(req.visibility.value.Name()));
    }
    ctx.SetHeaderParam("Content-Type", "application/json");
    if HasParts(req) {
      ctx.SetBody(PartsArray(req.parts.value));
    } else {
      ctx.SetBody(WholeRequest(req));
    }
    return Ok(ctx);
  }

  /**
   * `filesPut`: PUT /files with a form. `useForm` is what `canConsumeForm`
   * answers; without a FormData the file is not appended and the content type
   * is set by hand.
   */
  method FilesPut(file: Maybe<HttpFile>, key: Maybe<string>, uploadId: Maybe<string>, part: Maybe<int>,
                  visibility: Maybe<Visibility>, useForm: bool) returns (r: Result<RequestContext>)
    ensures Missing(file) ==> r == Err(RequiredError("file"))
    ensures !Missing(file) && Missing(key) ==> r == Err(RequiredError("key"))
    ensures r.Ok? <==> !Missing(file) && !Missing(key)
    ensures r.Ok? ==> fresh(r.value) && r.value.verb == CfTypes.PUT && r.value.url == "/files"
    ensures r.Ok? ==> r.value.body == Form(useForm, FilesPutForm(file.value, key.value, uploadId, part, visibility, useForm))
    ensures r.Ok? && useForm ==> r.value.headers == map["Accept" := AcceptAll]
    ensures r.Ok? && !useForm ==> r.value.headers == map["Accept" := AcceptAll, "Content-Type" := "multipart/form-data"]
    ensures r.Ok? ==> r.value.query == map[]
  {
    if Missing(file) {
      return Err(RequiredError("file"));
    }
    if Missing(key) {
      return Err(RequiredError("key"));
    }
    var form := BuildFilesPutForm(file.value, key.value, uploadId, part, visibility, useForm);
    var ctx := new RequestContext("/files", CfTypes.PUT);
    ctx.SetHeaderParam("Accept", AcceptAll);
    ctx.SetBody(Form(useForm, form));
    if !useForm {
      ctx.SetHeaderParam("Content-Type", "multipart/form-data");
    }
    return Ok(ctx);
  }

  // ---------------------------------------------------------------------------
  // DefaultApiResponseProcessor
  // ---------------------------------------------------------------------------

  /** What a processor returns: the body as a file, or deserialized as the named type. */
  datatype Decoded = BodyFile | As(typeName: string)

  datatype HttpInfo = HttpInfo(status: int, body: Decoded)

  function Unknown(status: int): Error { ApiException(status, "Unknown API Status Code!") }

  /** `downloadFileKeyGetWithHttpInfo`. */
  function DownloadFileKeyGetProcess(status: int): (r: Result<HttpInfo>)
    ensures r.Ok? <==> 200 <= status <= 299
    ensures status == 200 ==> r == Ok(HttpInfo(200, BodyFile))
    ensures status == 400 ==> r == Err(ApiException(400, "Bad request"))
    ensures status == 404 ==> r == Err(ApiException(404, "Not found"))
    ensures r.Err? && status != 400 && status != 404 ==> r.error == Unknown(status)
  {
    if status == 200 then Ok(HttpInfo(200, BodyFile))
    else if status == 400 then Err(ApiException(400, "Bad request"))
    else if status == 404 then Err(ApiException(404, "Not found"))
    else if 200 <= status <= 299 then Ok(HttpInfo(status, As("HttpFile")))
    else Err(Unknown(status))
  }

  /** `downloadFileKeyTokenGetWithHttpInfo`: a 500 throws with an empty message. */
  function DownloadFileKeyTokenGetProcess(status: int): (r: Result<HttpInfo>)
    ensures r.Ok? <==> 200 <= status <= 299
    ensures r.Ok? ==> r.value == HttpInfo(status, As("DownloadFileKeyTokenGet200Response"))
    ensures status == 400 ==> r == Err(ApiException(400, "Bad request"))
    ensures status == 500 ==> r == Err(ApiException(500, ""))
    ensures r.Err? && status != 400 && status != 500 ==> r.error == Unknown(status)
  {
    if status == 200 then Ok(HttpInfo(200, As("DownloadFileKeyTokenGet200Response")))
    else if status == 400 then Err(ApiException(400, "Bad request"))
    else if status == 500 then Err(ApiException(500, ""))
    else if 200 <= status <= 299 then Ok(HttpInfo(status, As("DownloadFileKeyTokenGet200Response")))
    else Err(Unknown(status))
  }

  /** `filesGetWithHttpInfo`: a 200 whose body is not a Blob throws "Unexpected response type". */
  function FilesGetProcess(status: int, isBlob: bool): (r: Result<HttpInfo>)
    ensures r.Ok? <==> 200 <= status <= 299 && (status == 200 ==> isBlob)
    ensures status == 200 && !isBlob ==> r == Err(JsException("Unexpected response type"))
    ensures status == 200 && isBlob ==> r == Ok(HttpInfo(200, BodyFile))
    ensures status == 206 ==> r == Ok(HttpInfo(206, As("FilesGet206Response")))
    ensures status == 400 ==> r == Err(ApiException(400, "Bad request"))
    ensures status == 401 ==> r == Err(ApiException(401, "Unauthorized"))
    ensures status == 403 ==> r == Err(ApiException(403, "Permission denied"))
    ensures status == 404 ==> r == Err(ApiException(404, "Not found"))
    ensures r.Err? && status !in {200, 400, 401, 403, 404} ==> r.error == Unknown(status)
  {
    if status == 200 then
      if isBlob then Ok(HttpInfo(200, BodyFile)) else Err(JsException("Unexpected response type"))
    else if status == 206 then Ok(HttpInfo(206, As("FilesGet206Response")))
    else if status == 400 then Err(ApiException(400, "Bad request"))
    else if status == 401 then Err(ApiException(401, "Unauthorized"))
    else if status == 403 then Err(ApiException(403, "Permission denied"))
    else if status == 404 then Err(ApiException(404, "Not found"))
    else if 200 <= status <= 299 then Ok(HttpInfo(status, As("HttpFile | FilesGet206Response")))
    else Err(Unknown(status))
  }

  /** `filesPostWithHttpInfo`. */
  function FilesPostProcess(status: int): (r: Result<HttpInfo>)
    ensures r.Ok? <==> 200 <= status <= 299
    ensures r.Ok? ==> r.value == HttpInfo(status, As("FilesPost200Response"))
    ensures status == 400 ==> r == Err(ApiException(400, "Bad request"))
    ensures status == 401 ==> r == Err(ApiException(401, "Unauthorized"))
    ensures r.Err? && status != 400 && status != 401 ==> r.error == Unknown(status)
  {
    if status == 200 then Ok(HttpInfo(200, As("FilesPost200Response")))
    else if status == 400 then Err(ApiException(400, "Bad request"))
    else if status == 401 then Err(ApiException(401, "Unauthorized"))
    else if 200 <= status <= 299 then Ok(HttpInfo(status, As("FilesPost200Response")))
    else Err(Unknown(status))
  }

  /** `filesPutWithHttpInfo`: 200 an R2Object, 201 an R2UploadedPart, other 2xx the union. */
  function FilesPutProcess(status: int): (r: Result<HttpInfo>)
    ensures r.Ok? <==> 200 <= status <= 299
    ensures status == 200 ==> r == Ok(HttpInfo(200, As("R2Object")))
    ensures status == 201 ==> r == Ok(HttpInfo(201, As("R2UploadedPart")))
    ensures r.Ok? && status != 200 && status != 201 ==> r.value == HttpInfo(status, As("R2Object | R2UploadedPart"))
    ensures status == 400 ==> r == Err(ApiException(400, "Bad request"))
    ensures status == 401 ==> r == Err(ApiException(401, "Unauthorized"))
    ensures r.Err? && status != 400 && status != 401 ==> r.error == Unknown(status)
  {
    if status == 200 then Ok(HttpInfo(200, As("R2Object")))
    else if status == 201 then Ok(HttpInfo(201, As("R2UploadedPart")))
    else if status == 400 then Err(ApiException(400, "Bad request"))
    else if status == 401 then Err(ApiException(401, "Unauthorized"))
    else if 200 <= status <= 299 then Ok(HttpInfo(status, As("R2Object | R2UploadedPart")))
    else Err(Unknown(status))
  }

  /** Every processor throws an ApiException carrying the status it was given. */
  lemma ExceptionsCarryStatus(status: int, isBlob: bool)
    ensures DownloadFileKeyGetProcess(status).Err? ==> DownloadFileKeyGetProcess(status).error.code == status
    ensures DownloadFileKeyTokenGetProcess(status).Err? ==> DownloadFileKeyTokenGetProcess(status).error.code == status
    ensures FilesGetProcess(status, isBlob).Err? && status != 200 ==> FilesGetProcess(status, isBlob).error.code == status
    ensures FilesPostProcess(status).Err? ==> FilesPostProcess(status).error.code == status
    ensures FilesPutProcess(status).Err? ==> FilesPutProcess(status).error.code == status
  {
  }
}

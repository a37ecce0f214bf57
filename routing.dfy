/**
 * `on_fetch` of `workers/src/api_entry.py`: the worker's request router.
 * `Route` says what a request gets and how the file-access tables, the
 * signed-URL namespace and the bucket's call log change; `Router.OnFetch`
 * performs it step by step on the stores.
 *
 * The worker raises an exception it does not catch in a few places; the
 * runtime then answers on its own, which the model records as `Uncaught`.
 */
module Routing {
  import opened Wrappers
  import opened Values
  import opened Strings
  import opened CfTypes
  import opened DbOps
  import opened SignedUrl
  import opened UrlHandler
  import opened Jwt
  import opened Auth
  import opened Validators
  import opened R2
  import opened Uploads
  import opened Listing

  /** `DataSize.MB_100`, the largest upload the PUT route accepts. */
  const MaxUploadBytes: int := 100 * 1024 * 1024

  /**
   * A request as the router reads it: the HTTP method (`verb`), the URL's path and its
   * query pairs, the headers, and what reading the body as JSON and as a
   * multipart form gives (the file field, absent or its bytes, and the other
   * fields).
   */
  datatype Request = Request(
    verb: string,
    path: string,
    query: seq<(string, string)>,
    headers: map<string, string>,
    body: Result<Value>,
    form: Result<(Option<seq<byte>>, map<string, string>)>)

  /**
   * What the environment supplies: the JWT secret and primitives, URL
   * unquoting, the current time, the uuid a new token gets, and the bucket's
   * answers to put, uploadPart, createMultipartUpload, complete, list and get.
   */
  datatype Env = Env(
    secret: string,
    p: Primitives,
    unquote: string -> string,
    now: int,
    freshToken: string,
    stored: Value,
    sent: Value,
    created: Value,
    completed: Value,
    listed: seq<R2Object>,
    fetched: Option<R2Object>)

  datatype Payload =
    | Preflight
    | ErrorText(msg: string)
    | TokenText(token: string)
    | ObjectStream(obj: R2Object)
    | ObjectMeta(meta: R2Object)
    | ListingBody(objects: seq<R2Object>)
    | Json(value: Value)
    | NotImplemented

  datatype Response = Respond(status: int, payload: Payload) | Uncaught(error: Error)

  /** Everything a request can change: the D1 tables, the KV namespace and the bucket's call log. */
  datatype World = World(db: Db, kv: map<string, string>, calls: seq<BucketCall>)

  /** `str(e)` for the exceptions the worker raises. */
  function Text(e: Error): string {
    match e
    case KeyError(k) => "'" + k + "'"
    case AssertionError => ""
    case UnexpectedStatus(_) => "Unexpected status code"
    case RequiredError(param) => param
    case ApiException(_, msg) => msg
    case _ => e.msg
  }

  /** The local `employee` read on a path where authentication was skipped. */
  const Unbound: Error := Exception("cannot access local variable 'employee' where it is not associated with a value")

  function Unauthorized(): Response { Respond(401, ErrorText("Unauthorized")) }

  /** The statuses the router answers with. */
  predicate KnownStatus(r: Response) {
    r.Respond? ==> r.status in {200, 201, 204, 206, 400, 401, 403, 404, 405, 500, 501}
  }

  /** The statuses a handler past the method dispatch answers with. */
  predicate HandlerStatus(r: Response) {
    r.Respond? ==> r.status in {200, 201, 206, 400, 403, 404, 500}
  }

  /** What one request may do to the world: tables and calls only grow, and the KV namespace changes at most at one token. */
  predicate Grows(w: World, w': World) {
    w.db.files.Keys <= w'.db.files.Keys
    && (forall k :: k in w.db.files ==> w'.db.files[k] == w.db.files[k])
    && w.db.employees.Keys <= w'.db.employees.Keys
    && (forall k :: k in w.db.employees ==> w'.db.employees[k] == w.db.employees[k])
    && |w.calls| <= |w'.calls| && w'.calls[..|w.calls|] == w.calls
  }

  lemma GrowsRefl(w: World)
    ensures Grows(w, w)
  {
  }

  /**
   * The router, with an unknown method answered 405 at the check the code
   * makes for it (see `RouteAsWritten` for the code as written). Preflight
   * first; then a missing X-API-Key is refused unless the request is a token
   * download; then the method, the path, the JWT and the registration of the
   * employee are checked in that order.
   */
  function Route(w: World, req: Request, env: Env): (out: (Response, World))
    ensures KnownStatus(out.0)
    ensures Grows(w, out.1)
  {
    if req.verb == "OPTIONS" then (Respond(204, Preflight), w)
    else
      var (urlPath, params) := EntryGetUrlPathAndParams(req.path, req.query, env.unquote);
      var withToken := urlPath == "download" && "token" in params;
      if "X-API-Key" !in req.headers && !withToken then (Unauthorized(), w)
      else
        match ParseMethod(req.verb)
        case Err(_) => (Respond(405, ErrorText("Invalid method")), w)
        case Ok(verb) =>
          if urlPath != "files" && urlPath != "download" then (Respond(404, ErrorText("Not found")), w)
          else if withToken then RouteMethod(w, verb, urlPath, params, None, req, env)
          else RouteAuthenticated(w, verb, urlPath, params, req.headers["X-API-Key"], req, env)
  }

  /**
   * The rest of the router for a request that carries an X-API-Key: a JWT
   * that fails with ValueError or AssertionError is 401 and any other failure
   * 500, both before anything is written; the employee is then registered, a
   * registration error or refusal is 400, and only a registered employee
   * reaches the method dispatch.
   */
  function RouteAuthenticated(w: World, verb: Method, urlPath: string, params: map<string, string>, apiKey: string,
                              req: Request, env: Env): (out: (Response, World))
    ensures KnownStatus(out.0)
    ensures Grows(w, out.1)
    ensures out.0 != Respond(405, ErrorText("Invalid method"))
    ensures Authenticate(apiKey, env.secret, env.now, env.p).Err? ==>
      (out.1 == w && out.0.Respond? && (out.0.status == 401 || out.0.status == 500))
  {
    match Authenticate(apiKey, env.secret, env.now, env.p)
    case Err(e) =>
      if e.ValueError? || e == AssertionError then (Unauthorized(), w)
      else (Respond(500, ErrorText("Internal server error")), w)
    case Ok((id, companyId, level)) =>
      var (registered, db') := RegisterOutcome(w.db, id, companyId, level);
      var w' := w.(db := db');
      GrowsRefl(w);
      assert registered.Err? ==> Text(registered.error) != "Invalid method";
      if registered.Err? then (Respond(400, ErrorText(Text(registered.error))), w')
      else if !registered.value then (Respond(400, ErrorText("Employee registration failed, check jwt")), w')
      else RouteMethod(w', verb, urlPath, params, Some((id, companyId)), req, env)
  }

  /** The `match method` of `on_fetch`; `employee` is None when authentication was skipped. */
  function RouteMethod(w: World, verb: Method, urlPath: string, params: map<string, string>,
                       employee: Option<(string, string)>, req: Request, env: Env): (out: (Response, World))
    ensures KnownStatus(out.0)
    ensures Grows(w, out.1)
    ensures out.0.Respond? && out.0.status == 405 ==> out.0.payload == ErrorText("Method not allowed")
    ensures urlPath == "download" ==> out.1.db == w.db && out.1.calls == w.calls
  {
    match verb
    case GET =>
      if urlPath == "download" then GetDownload(w, params, employee, env)
      else (GetFiles(w, params, employee, env), w)
    case POST =>
      if urlPath != "files" then (Respond(400, ErrorText("Invalid request")), w)
      else Post(w, params, employee, req, env)
    case PUT =>
      if urlPath != "files" then (Respond(400, ErrorText("Invalid request")), w)
      else Put(w, employee, req, env)
    case DELETE =>
      if urlPath != "files" then (Respond(400, ErrorText("Invalid request")), w)
      else (Respond(501, NotImplemented), w)
    case OPTIONS => (Respond(405, ErrorText("Method not allowed")), w)
  }

  /**
   * GET download: a truthy `token` parameter is redeemed and must name the
   * requested key, which is then fetched with no access check; otherwise a
   * token for the requested key is issued to the authenticated employee.
   */
  function GetDownload(w: World, params: map<string, string>, employee: Option<(string, string)>, env: Env)
    : (out: (Response, World))
    ensures HandlerStatus(out.0)
    ensures out.1.db == w.db && out.1.calls == w.calls
  {
    var fileKey := Lookup(params, "file_name");
    var token := Lookup(params, "token");
    if token.Some? && token.value != "" then
      var (redeemed, kv') := RedeemOutcome(w.kv, token.value, w.db, env.now);
      var w' := w.(kv := kv');
      match redeemed
      case Err(e) => (Respond(400, ErrorText(Text(e))), w')
      case Ok(None) => (Respond(400, ErrorText("Invalid or expired token")), w')
      case Ok(Some((key, row))) =>
        if Some(key) != fileKey then (Respond(404, ErrorText("Invalid or expired token")), w')
        else
          // Without options `get_file` only fetches the key, so it cannot raise here.
          match GetFile(w.db, row.id, row.companyId, fileKey, NoOptions, env.listed, env.fetched)
          case Ok(Fetched(Some(o))) => (Respond(200, ObjectStream(o)), w')
          case _ => (Respond(404, ErrorText("File not found")), w')
    else
      match employee
      case None => (Uncaught(Unbound), w)
      case Some((id, companyId)) =>
        var key := if fileKey.Some? then fileKey.value else Str(PyNone);
        var w' := w.(kv := w.kv[env.freshToken := EncodeTokenValue(env.now + ExpirationSeconds, key, id, companyId)]);
        if env.freshToken == "" then (Respond(500, ErrorText("Failed to generate token")), w')
        else (Respond(200, TokenText(env.freshToken)), w')
  }

  function OptValue(o: Option<string>): Value {
    if o.Some? then PyStr(o.value) else PyNone
  }

  /**
   * GET files: the query's limit (read with `int()`, outside any handler),
   * cursor, range, onlyIf and key choose list options, get options or none,
   * and `get_file`'s errors become 400, 403 and 404.
   */
  function GetFiles(w: World, params: map<string, string>, employee: Option<(string, string)>, env: Env): (r: Response)
    ensures HandlerStatus(r)
  {
    if params == map[] then Respond(400, ErrorText("Invalid request - no params on GET."))
    else
      var limitText := Lookup(params, "limit");
      var limit := if limitText.None? then Ok(None) else
        match ParseInt(limitText.value)
        case Err(e) => Err(e)
        case Ok(n) => Ok(Some(n));
      if limit.Err? then Uncaught(limit.error)
      else
        var cursor := Lookup(params, "cursor");
        var range := Lookup(params, "range");
        var onlyIf := Lookup(params, "onlyIf");
        var key := Lookup(params, "key");
        if key.None? && cursor.None? && range.None? && limit.value.None? then
          Respond(400, ErrorText("Invalid request"))
        else if limit.value.Some? || cursor.Some? then
          match NewListOptions(Some(if limit.value.Some? then PyInt(limit.value.value) else PyNone), OptValue(cursor))
          case Err(e) => Uncaught(e)
          case Ok(options) => Fetch(w, key, ListOpts(options), employee, env)
        else if range.Some? || onlyIf.Some? then Fetch(w, key, GetOpts(OptValue(range), OptValue(onlyIf)), employee, env)
        else Fetch(w, key, NoOptions, employee, env)
  }

  /** `get_file` and the handlers around it: an object with a body streams (200), anything else is 206. */
  function Fetch(w: World, key: Option<string>, options: Options, employee: Option<(string, string)>, env: Env)
    : (r: Response)
    ensures HandlerStatus(r)
    ensures r.Respond? && r.status == 403 ==> options.GetOpts?
    ensures r.Respond? && r.status == 200 ==> r.payload.ObjectStream? && r.payload.obj.hasBody
  {
    match employee
    case None => Uncaught(Unbound)
    case Some((id, companyId)) =>
      match GetFile(w.db, id, companyId, key, options, env.listed, env.fetched)
      case Err(e) =>
        if e.ValueError? then Respond(400, ErrorText(Text(e)))
        else if e.PermissionError? then Respond(403, ErrorText(Text(e)))
        else if e.FileNotFoundError? then Respond(404, ErrorText(Text(e)))
        else Uncaught(e)
      case Ok(Fetched(None)) => Respond(404, ErrorText("File not found"))
      case Ok(Fetched(Some(o))) => if o.hasBody then Respond(200, ObjectStream(o)) else Respond(206, ObjectMeta(o))
      case Ok(Listed(objects)) => Respond(206, ListingBody(objects))
  }

  /** POST files: start or complete a multipart upload; ValueErrors and JavaScript errors are 400. */
  function Post(w: World, params: map<string, string>, employee: Option<(string, string)>, req: Request, env: Env)
    : (out: (Response, World))
    ensures HandlerStatus(out.0)
    ensures Grows(w, out.1) && out.1.kv == w.kv
  {
    match employee
    case None => (Uncaught(Unbound), w)
    case Some((id, companyId)) =>
      match req.body
      case Err(e) => (if e.ValueError? || e.JsException? then Respond(400, ErrorText(Text(e))) else Uncaught(e), w)
      case Ok(raw) =>
        var (r, db', calls) := MultipartOutcome(w.db, id, companyId, raw, Lookup(params, "upload_id"),
                                                Lookup(params, "key"), Lookup(params, "visibility"), env.created, env.completed);
        var w' := World(db', w.kv, w.calls + calls);
        assert Grows(w, w') by {
          assert w'.calls[..|w.calls|] == w.calls;
        }
        match r
        case Err(e) => (if e.ValueError? || e.JsException? then Respond(400, ErrorText(Text(e))) else Uncaught(e), w')
        case Ok(v) => (Respond(200, Json(v)), w')
  }

  /** The PUT handler's answer to a caught error: a message naming TypeError means the body was not a form. */
  function PutError(e: Error): Response {
    if Contains(Text(e), "TypeError") then Respond(400, ErrorText("Multipart form-data required"))
    else Respond(400, ErrorText(Text(e)))
  }

  predicate PutCatches(e: Error) {
    e.ValueError? || e.TypeError? || e.JsException?
  }

  /** PUT files: refuse a declared size over 100 MiB, read the form, and upload the file or one part. */
  function Put(w: World, employee: Option<(string, string)>, req: Request, env: Env): (out: (Response, World))
    ensures HandlerStatus(out.0)
    ensures Grows(w, out.1) && out.1.kv == w.kv
    ensures out.0.Respond? && (out.0.status == 200 || out.0.status == 201) ==>
      "content-length" in req.headers && ParseInt(req.headers["content-length"]).Ok?
      && ParseInt(req.headers["content-length"]).value <= MaxUploadBytes
  {
    match employee
    case None => (Uncaught(Unbound), w)
    case Some((id, companyId)) =>
      var size := if "content-length" in req.headers then ParseInt(req.headers["content-length"])
        else Err(TypeError("int() argument must be a string, a bytes-like object or a real number, not 'NoneType'"));
      if size.Err? then (PutError(size.error), w)
      else if size.value > MaxUploadBytes then (PutError(ValueError("File size too large")), w)
      else
        match req.form
        case Err(e) => (if PutCatches(e) then PutError(e) else Uncaught(e), w)
        case Ok((file, metadata)) => PutForm(w, id, companyId, file, metadata, env)
  }

  /** PUT files once the form is read: `upload_file`, with its errors caught as the handler catches them. */
  function PutForm(w: World, id: string, companyId: string, file: Option<seq<byte>>, metadata: map<string, string>,
                   env: Env): (out: (Response, World))
    ensures HandlerStatus(out.0)
    ensures Grows(w, out.1) && out.1.kv == w.kv
  {
    var (r, db', calls) := UploadOutcome(w.db, id, companyId, file, metadata, env.stored, env.sent);
    var w' := World(db', w.kv, w.calls + calls);
    assert Grows(w, w') by {
      assert w'.calls[..|w.calls|] == w.calls;
    }
    match r
    case Err(e) => (if PutCatches(e) then PutError(e) else Uncaught(e), w')
    case Ok((v, status)) => (Respond(status, Json(v)), w')
  }

  /**
   * The router as written: `Method(request.method)` on the first line of
   * `on_fetch` raises for any other method before the 405 check is reached.
   */
  function RouteAsWritten(w: World, req: Request, env: Env): (out: (Response, World))
    ensures ParseMethod(req.verb).Ok? ==> out == Route(w, req, env)
  {
    match ParseMethod(req.verb)
    case Err(e) => (Uncaught(e), w)
    case Ok(_) => Route(w, req, env)
  }

  /** As written, the 405 "Invalid method" answer is never given. */
  lemma InvalidMethodUnreachable(w: World, req: Request, env: Env)
    ensures RouteAsWritten(w, req, env).0 != Respond(405, ErrorText("Invalid method"))
  {
  }

  /** An unknown method from a caller with a key: uncaught as written, 405 as intended. */
  lemma UnknownMethodAnswered(w: World, req: Request, env: Env)
    requires req.verb == "PATCH" && "X-API-Key" in req.headers
    ensures RouteAsWritten(w, req, env) == (Uncaught(ValueError("is not a valid Method")), w)
    ensures Route(w, req, env) == (Respond(405, ErrorText("Invalid method")), w)
  {
  }

  /** A preflight request is answered 204 whatever it carries, and changes nothing. */
  lemma PreflightAnswered(w: World, req: Request, env: Env)
    requires req.verb == "OPTIONS"
    ensures Route(w, req, env) == (Respond(204, Preflight), w)
  {
  }

  /** Without an X-API-Key only a token download gets past the door. */
  lemma MissingKeyRefused(w: World, req: Request, env: Env)
    requires req.verb != "OPTIONS" && "X-API-Key" !in req.headers
    ensures var (urlPath, params) := EntryGetUrlPathAndParams(req.path, req.query, env.unquote);
      !(urlPath == "download" && "token" in params) ==> Route(w, req, env) == (Unauthorized(), w)
  {
  }

  /** A token download never authenticates or registers anyone, and writes only the signed-URL namespace. */
  lemma TokenDownloadTouchesOnlyKv(w: World, req: Request, env: Env)
    requires req.verb != "OPTIONS"
    requires var (urlPath, params) := EntryGetUrlPathAndParams(req.path, req.query, env.unquote);
      urlPath == "download" && "token" in params
    ensures Route(w, req, env).1.db == w.db && Route(w, req, env).1.calls == w.calls
  {
  }

  /**
   * Issue, then download: a token issued to a registered employee for a key
   * redeems, up to 300 seconds later, to that key, which is served whatever
   * the employee's access to it; the token is then gone.
   */
  lemma IssueThenDownload(w: World, key: string, id: string, companyId: string, env: Env, later: Env, o: R2Object)
    requires DoesEmployeeExist(w.db, id, companyId) && '|' !in id && '|' !in companyId
    requires env.freshToken != "" && later.now <= env.now + ExpirationSeconds
    requires later.fetched == Some(o)
    ensures var issued := GetDownload(w, map["file_name" := key], Some((id, companyId)), env);
      var token := env.freshToken;
      issued.0 == Respond(200, TokenText(token))
      && GetDownload(issued.1, map["file_name" := key, "token" := token], None, later)
        == (Respond(200, ObjectStream(o)), issued.1.(kv := issued.1.kv - {token}))
  {
    var token := env.freshToken;
    var kv1 := w.kv[token := EncodeTokenValue(env.now + ExpirationSeconds, key, id, companyId)];
    IssuedToken(w, key, id, companyId, env);
    RedeemedDownload(w.(kv := kv1), key, id, companyId, token, env.now, later, o);
  }

  lemma IssuedToken(w: World, key: string, id: string, companyId: string, env: Env)
    requires env.freshToken != ""
    ensures GetDownload(w, map["file_name" := key], Some((id, companyId)), env)
      == (Respond(200, TokenText(env.freshToken)),
          w.(kv := w.kv[env.freshToken := EncodeTokenValue(env.now + ExpirationSeconds, key, id, companyId)]))
  {
    assert Lookup(map["file_name" := key], "token") == None;
    assert Lookup(map["file_name" := key], "file_name") == Some(key);
  }

  lemma RedeemedDownload(w: World, key: string, id: string, companyId: string, token: string, issuedAt: int,
                         later: Env, o: R2Object)
    requires DoesEmployeeExist(w.db, id, companyId) && '|' !in id && '|' !in companyId
    requires token != "" && token in w.kv && w.kv[token] == EncodeTokenValue(issuedAt + ExpirationSeconds, key, id, companyId)
    requires later.now <= issuedAt + ExpirationSeconds && later.fetched == Some(o)
    ensures GetDownload(w, map["file_name" := key, "token" := token], None, later)
      == (Respond(200, ObjectStream(o)), w.(kv := w.kv - {token}))
  {
    var params := map["file_name" := key, "token" := token];
    assert Lookup(params, "token") == Some(token) && Lookup(params, "file_name") == Some(key);
    var row := EmployeeRow(id, companyId, w.db.employees[(id, companyId)]);
    assert RedeemOutcome(w.kv, token, w.db, later.now) == (Ok(Some((key, row))), w.kv - {token}) by {
      var rest := w.kv - {token};
      assert rest[token := w.kv[token]] == w.kv;
      assert rest[token := w.kv[token]] - {token} == rest;
      IssueThenRedeem(rest, w.db, token, key, id, companyId, issuedAt, later.now);
    }
    assert GetFile(w.db, id, companyId, Some(key), NoOptions, later.listed, later.fetched) == Ok(Fetched(Some(o)));
  }

  /** A ranged GET of a key the caller may not read is refused with 403. */
  lemma DeniedRangeForbidden(w: World, key: string, range: Value, onlyIf: Value, id: string, companyId: string, env: Env)
    requires CheckFileAccess(w.db, key, id, companyId) == Ok(false)
    ensures Fetch(w, Some(key), GetOpts(range, onlyIf), Some((id, companyId)), env)
      == Respond(403, ErrorText("File access denied"))
  {
  }

  /** A declared size over 100 MiB is refused before the form is read or anything is written. */
  lemma OversizedPutRefused(w: World, id: string, companyId: string, req: Request, env: Env)
    requires "content-length" in req.headers && ParseInt(req.headers["content-length"]).Ok?
    requires ParseInt(req.headers["content-length"]).value > MaxUploadBytes
    ensures Put(w, Some((id, companyId)), req, env) == (Respond(400, ErrorText("File size too large")), w)
  {
    NotContainsFirst("File size too large", "TypeError");
  }

  lemma {:induction false} NotContainsFirst(s: string, t: string)
    requires |t| > 0 && t[0] !in s
    ensures !Contains(s, t)
    decreases |s|
  {
    if s != [] {
      NotContainsFirst(s[1..], t);
    }
  }

  /**
   * GET files with only a cursor builds `ListOptions(limit=None, …)`, which
   * raises outside any handler.
   */
  lemma CursorWithoutLimitUncaught(w: World, cursor: string, employee: Option<(string, string)>, env: Env)
    ensures GetFiles(w, map["cursor" := cursor], employee, env) == Uncaught(ValueError("Limit must be an integer"))
  {
  }

  /** The world as the three stores hold it. */
  function WorldOf(store: AccessStore, tokens: TokenStore, bucket: Bucket): World
    reads store, tokens, bucket
  {
    World(store.State(), tokens.kv, bucket.calls)
  }

  /** `on_fetch(request, env)`, performed on the stores; the outcome is `Route`'s. */
  method OnFetch(req: Request, env: Env, store: AccessStore, tokens: TokenStore, bucket: Bucket)
    returns (resp: Response)
    modifies store, tokens, bucket
    ensures (resp, WorldOf(store, tokens, bucket)) == Route(old(WorldOf(store, tokens, bucket)), req, env)
  {
    if req.verb == "OPTIONS" {
      return Respond(204, Preflight);
    }
    var (urlPath, params) := EntryGetUrlPathAndParams(req.path, req.query, env.unquote);
    var withToken := urlPath == "download" && "token" in params;
    if "X-API-Key" !in req.headers && !withToken {
      return Unauthorized();
    }
    var verb := ParseMethod(req.verb);
    if verb.Err? {
      return Respond(405, ErrorText("Invalid method"));
    }
    if urlPath != "files" && urlPath != "download" {
      return Respond(404, ErrorText("Not found"));
    }
    if withToken {
      resp := Dispatch(verb.value, urlPath, params, None, req, env, store, tokens, bucket);
    } else {
      resp := AuthenticateAndDispatch(verb.value, urlPath, params, req.headers["X-API-Key"], req, env,
                                      store, tokens, bucket);
    }
  }

  /** Authentication, registration and dispatch of a request with an X-API-Key, performed on the stores. */
  method AuthenticateAndDispatch(verb: Method, urlPath: string, params: map<string, string>, apiKey: string,
                                 req: Request, env: Env, store: AccessStore, tokens: TokenStore, bucket: Bucket)
    returns (resp: Response)
    modifies store, tokens, bucket
    ensures (resp, WorldOf(store, tokens, bucket))
      == RouteAuthenticated(old(WorldOf(store, tokens, bucket)), verb, urlPath, params, apiKey, req, env)
  {
    var auth := AuthenticateEmployee(apiKey, env.secret, env.now, env.p);
    if auth.Err? {
      if auth.error.ValueError? || auth.error == AssertionError {
        return Unauthorized();
      }
      return Respond(500, ErrorText("Internal server error"));
    }
    var registered := store.CheckAndInsertEmployee(auth.value);
    if registered.Err? {
      return Respond(400, ErrorText(Text(registered.error)));
    }
    if !registered.value {
      return Respond(400, ErrorText("Employee registration failed, check jwt"));
    }
    resp := Dispatch(verb, urlPath, params, Some(auth.value), req, env, store, tokens, bucket);
  }

  /** The `match method` of `on_fetch`, performed on the stores. */
  method Dispatch(verb: Method, urlPath: string, params: map<string, string>, employee: Option<Employee>,
                  req: Request, env: Env, store: AccessStore, tokens: TokenStore, bucket: Bucket)
    returns (resp: Response)
    modifies store, tokens, bucket
    ensures var ids := if employee.Some? then Some((employee.value.id, employee.value.companyId)) else None;
      (resp, WorldOf(store, tokens, bucket))
        == RouteMethod(old(WorldOf(store, tokens, bucket)), verb, urlPath, params, ids, req, env)
  {
    var ids := if employee.Some? then Some((employee.value.id, employee.value.companyId)) else None;
    match verb
    case GET =>
      if urlPath == "download" {
        resp := HandleGetDownload(params, ids, env, store, tokens, bucket);
      } else {
        resp := GetFiles(WorldOf(store, tokens, bucket), params, ids, env);
      }
    case POST =>
      if urlPath != "files" {
        return Respond(400, ErrorText("Invalid request"));
      }
      resp := HandlePost(params, employee, req, env, store, tokens, bucket);
    case PUT =>
      if urlPath != "files" {
        return Respond(400, ErrorText("Invalid request"));
      }
      resp := HandlePut(employee, req, env, store, tokens, bucket);
    case DELETE =>
      if urlPath != "files" {
        return Respond(400, ErrorText("Invalid request"));
      }
      return Respond(501, NotImplemented);
    case OPTIONS =>
      return Respond(405, ErrorText("Method not allowed"));
  }

  /** GET download, performed on the signed-URL namespace. */
  method HandleGetDownload(params: map<string, string>, employee: Option<(string, string)>, env: Env,
                           store: AccessStore, tokens: TokenStore, bucket: Bucket)
    returns (resp: Response)
    modifies tokens
    ensures (resp, WorldOf(store, tokens, bucket)) == GetDownload(old(WorldOf(store, tokens, bucket)), params, employee, env)
  {
    var fileKey := Lookup(params, "file_name");
    var token := Lookup(params, "token");
    if token.Some? && token.value != "" {
      var redeemed := tokens.ValidateSignedUrl(token.value, store, env.now);
      if redeemed.Err? {
        return Respond(400, ErrorText(Text(redeemed.error)));
      }
      if redeemed.value.None? {
        return Respond(400, ErrorText("Invalid or expired token"));
      }
      var (key, row) := redeemed.value.value;
      if Some(key) != fileKey {
        return Respond(404, ErrorText("Invalid or expired token"));
      }
      var got := GetFile(store.State(), row.id, row.companyId, fileKey, NoOptions, env.listed, env.fetched);
      if got.Ok? && got.value.Fetched? && got.value.obj.Some? {
        return Respond(200, ObjectStream(got.value.obj.value));
      }
      return Respond(404, ErrorText("File not found"));
    }
    if employee.None? {
      return Uncaught(Unbound);
    }
    var (id, companyId) := employee.value;
    var key := if fileKey.Some? then fileKey.value else Str(PyNone);
    var issued := tokens.GenerateSignedUrlToken(key, id, companyId, env.now, env.freshToken, ExpirationSeconds);
    if issued.value == "" {
      return Respond(500, ErrorText("Failed to generate token"));
    }
    return Respond(200, TokenText(issued.value));
  }

  /** POST files, performed on the tables and the bucket. */
  method HandlePost(params: map<string, string>, employee: Option<Employee>, req: Request, env: Env,
                    store: AccessStore, tokens: TokenStore, bucket: Bucket)
    returns (resp: Response)
    modifies store, bucket
    ensures var ids := if employee.Some? then Some((employee.value.id, employee.value.companyId)) else None;
      (resp, WorldOf(store, tokens, bucket)) == Post(old(WorldOf(store, tokens, bucket)), params, ids, req, env)
  {
    if employee.None? {
      return Uncaught(Unbound);
    }
    if req.body.Err? {
      var e := req.body.error;
      return if e.ValueError? || e.JsException? then Respond(400, ErrorText(Text(e))) else Uncaught(e);
    }
    var r := MakeMultiPartUpload(employee.value, req.body.value, bucket, store, Lookup(params, "upload_id"),
                                 Lookup(params, "key"), Lookup(params, "visibility"), env.created, env.completed);
    if r.Err? {
      var e := r.error;
      return if e.ValueError? || e.JsException? then Respond(400, ErrorText(Text(e))) else Uncaught(e);
    }
    return Respond(200, Json(r.value));
  }

  /** PUT files, performed on the tables and the bucket. */
  method HandlePut(employee: Option<Employee>, req: Request, env: Env,
                   store: AccessStore, tokens: TokenStore, bucket: Bucket)
    returns (resp: Response)
    modifies store, bucket
    ensures var ids := if employee.Some? then Some((employee.value.id, employee.value.companyId)) else None;
      (resp, WorldOf(store, tokens, bucket)) == Put(old(WorldOf(store, tokens, bucket)), ids, req, env)
  {
    if employee.None? {
      return Uncaught(Unbound);
    }
    var size := if "content-length" in req.headers then ParseInt(req.headers["content-length"])
      else Err(TypeError("int() argument must be a string, a bytes-like object or a real number, not 'NoneType'"));
    if size.Err? {
      return PutError(size.error);
    }
    if size.value > MaxUploadBytes {
      return PutError(ValueError("File size too large"));
    }
    if req.form.Err? {
      var e := req.form.error;
      return if PutCatches(e) then PutError(e) else Uncaught(e);
    }
    var (file, metadata) := req.form.value;
    var r := UploadFile(employee.value, file, metadata, bucket, store, env.stored, env.sent);
    if r.Err? {
      var e := r.error;
      return if PutCatches(e) then PutError(e) else Uncaught(e);
    }
    return Respond(r.value.1, Json(r.value.0));
  }
}

/**
 * The Python client's `StorageClient`: visibility parsing, the choice between
 * a single put and a multipart upload, the chunk loop, the two nested retry
 * policies of a part upload, the manifest that completes a multipart upload,
 * signed-URL construction and file listing.
 *
 * The network is the function `server` of `Env`: it answers the last request
 * of the history of requests sent so far, so every run is deterministic and
 * the client's only state is that history. `quote`, UTF-8 decoding and the
 * `etag` attribute of an `R2UploadedPart` are parameters too.
 */
module ClientWrapper {
  import opened Wrappers
  import opened Values
  import opened Strings
  import opened CfTypes
  import opened ClientModels
  import opened ClientApi

  const MaxPartSize: nat := 10 * 1024 * 1024
  const MaxRetries: nat := 3

  /** What the client cannot compute itself. */
  datatype Env = Env(
    raiseOnUnexpected: bool,
    dec: Decoders,
    server: seq<Kwargs> -> HttpResponse,
    quote: string -> string,
    decodeUtf8: seq<byte> -> Option<string>,
    partEtag: Value -> Value)

  type History = seq<Kwargs>
  type PartBody = Instance<R2UploadedPartBody>

  // ---------------------------------------------------------------------------
  // Visibility
  // ---------------------------------------------------------------------------

  /** The argument of `_parse_visibility`: a member, a string, or anything else Python lets through. */
  datatype VisibilityArg = Member(v: Visibility) | Text(s: string) | Other(typeName: string)

  /**
   * `_parse_visibility`: a member is returned unchanged; a string is upper-cased
   * and looked up by member name; a failed lookup is a ValueError naming the
   * members in declaration order.
   */
  function ParseVisibility(arg: VisibilityArg): (r: Result<Visibility>)
    ensures arg.Member? ==> r == Ok(arg.v)
    ensures arg.Text? ==> (r.Ok? <==> Upper(arg.s) in {"INTERNAL", "PRIVATE", "PUBLIC"})
    ensures arg.Text? && r.Ok? ==> r.value.Name() == Upper(arg.s)
    ensures arg.Text? && r.Err? ==>
      r.error == ValueError("Invalid visibility: " + arg.s + ". Must be one of INTERNAL, PRIVATE, PUBLIC")
    ensures arg.Other? ==> r.Err? && r.error.AttributeError?
  {
    match arg
    case Member(v) => Ok(v)
    case Text(s) =>
      (match VisibilityOf(Upper(s))
       case Ok(v) => Ok(v)
       case Err(_) => Err(ValueError("Invalid visibility: " + s + ". Must be one of INTERNAL, PRIVATE, PUBLIC")))
    case Other(t) => Err(AttributeError("'" + t + "' object has no attribute 'upper'"))
  }

  /** A string names a member exactly when it upper-cases to that member's name. */
  lemma ParseVisibilityIgnoresCase(s: string, v: Visibility)
    ensures ParseVisibility(Text(s)) == Ok(v) <==> Upper(s) == v.Name()
  {
    if Upper(s) == v.Name() {
      VisibilityRoundTrip(v);
    }
  }

  // ---------------------------------------------------------------------------
  // The chunk loop
  // ---------------------------------------------------------------------------

  function Min(a: int, b: int): int { if a <= b then a else b }

  /** Successive `file.read(MAX_PART_SIZE)` results until the first empty one. */
  function Chunks(s: seq<byte>): (r: seq<seq<byte>>)
    decreases |s|
  {
    if s == [] then [] else
    var n := Min(|s|, MaxPartSize);
    [s[..n]] + Chunks(s[n..])
  }

  function Concat(cs: seq<seq<byte>>): seq<byte> {
    if cs == [] then [] else cs[0] + Concat(cs[1..])
  }

  /** The chunks put back together are the payload. */
  lemma {:induction false} ChunksConcat(s: seq<byte>)
    ensures Concat(Chunks(s)) == s
    decreases |s|
  {
    if s != [] {
      var n := Min(|s|, MaxPartSize);
      ChunksConcat(s[n..]);
      assert Chunks(s)[1..] == Chunks(s[n..]);
      assert s[..n] + s[n..] == s;
    }
  }

  /** Every chunk is non-empty, and every chunk but the last is exactly MAX_PART_SIZE long. */
  lemma {:induction false} ChunksSizes(s: seq<byte>)
    ensures forall i :: 0 <= i < |Chunks(s)| ==> 0 < |Chunks(s)[i]| <= MaxPartSize
    ensures forall i :: 0 <= i < |Chunks(s)| - 1 ==> |Chunks(s)[i]| == MaxPartSize
    decreases |s|
  {
    if s != [] {
      var n := Min(|s|, MaxPartSize);
      ChunksSizes(s[n..]);
      assert Chunks(s)[1..] == Chunks(s[n..]);
      if |s| <= MaxPartSize {
        assert s[n..] == [];
      }
    }
  }

  /** There are ceil(size / MAX_PART_SIZE) chunks. */
  lemma {:induction false} ChunksCount(s: seq<byte>)
    ensures |Chunks(s)| == (|s| + MaxPartSize - 1) / MaxPartSize
    decreases |s|
  {
    if s != [] {
      var n := Min(|s|, MaxPartSize);
      ChunksCount(s[n..]);
      if |s| <= MaxPartSize {
        assert s[n..] == [];
      } else {
        assert |s[n..]| == |s| - MaxPartSize;
      }
    }
  }

  /** An upload task: a part number and its chunk. */
  datatype PartTask = PartTask(number: int, chunk: seq<byte>)

  /** The chunks numbered from 1 in reading order. */
  function Tasks(data: seq<byte>): (r: seq<PartTask>)
    ensures |r| == |Chunks(data)|
    ensures forall i :: 0 <= i < |r| ==> r[i] == PartTask(i + 1, Chunks(data)[i])
  {
    var cs := Chunks(data);
    seq(|cs|, i requires 0 <= i < |cs| => PartTask(i + 1, cs[i]))
  }

  /** Reading at `pos` before the end takes the next chunk and leaves the chunks after it. */
  lemma ChunksStep(data: seq<byte>, pos: nat)
    requires pos < |data|
    ensures Chunks(data[pos..]) ==
      [data[pos..Min(pos + MaxPartSize, |data|)]] + Chunks(data[Min(pos + MaxPartSize, |data|)..])
  {
    var n := Min(|data| - pos, MaxPartSize);
    assert data[pos..][..n] == data[pos..Min(pos + MaxPartSize, |data|)];
    assert data[pos..][n..] == data[Min(pos + MaxPartSize, |data|)..];
  }

  /** The loop of `_upload_large_file` that reads the file and numbers the chunks. */
  method ReadTasks(data: seq<byte>) returns (tasks: seq<PartTask>)
    ensures tasks == Tasks(data)
  {
    var pos := 0;
    var partNumber := 1;
    ghost var read: seq<seq<byte>> := [];
    tasks := [];
    while true
      invariant 0 <= pos <= |data|
      invariant read + Chunks(data[pos..]) == Chunks(data)
      invariant partNumber == |read| + 1 && |tasks| == |read|
      invariant forall i :: 0 <= i < |tasks| ==> tasks[i] == PartTask(i + 1, read[i])
      decreases |data| - pos
    {
      var chunk := data[pos..Min(pos + MaxPartSize, |data|)];
      if chunk == [] {
        assert data[pos..] == [];
        TasksAre(data, read, tasks);
        break;
      }
      ChunksStep(data, pos);
      assert read + [chunk] + Chunks(data[pos + |chunk|..]) == read + Chunks(data[pos..]);
      read := read + [chunk];
      tasks := tasks + [PartTask(partNumber, chunk)];
      pos := pos + |chunk|;
      partNumber := partNumber + 1;
    }
  }

  /** Tasks numbering every chunk from 1 are `Tasks` of the file. */
  lemma TasksAre(data: seq<byte>, read: seq<seq<byte>>, tasks: seq<PartTask>)
    requires read == Chunks(data) && |tasks| == |read|
    requires forall i :: 0 <= i < |tasks| ==> tasks[i] == PartTask(i + 1, read[i])
    ensures tasks == Tasks(data)
  {
  }

  // ---------------------------------------------------------------------------
  // Requests of an upload
  // ---------------------------------------------------------------------------

  /** The body of `_upload_small_file`: no upload id, no part number. */
  function SmallRequest(data: seq<byte>, key: string, vis: Visibility, mime: string): (r: Kwargs)
    ensures r.verb == "put" && r.files.Some?
    ensures "upload_id" !in r.files.value && "part" !in r.files.value
    ensures "key" in r.files.value && r.files.value["key"] == TextPart(key)
    ensures "visibility" in r.files.value && r.files.value["visibility"] == TextPart(vis.Name())
  {
    PutFilesRequest(Instance(PutFilesBody(File(data, Some(key), Some(mime)), PyStr(key), Unset, Unset, Given(vis)), map[]))
  }

  /** `FileCreateStartBody(key=key, visibility=visibility)`, posted without query parameters. */
  function StartRequest(key: string, vis: Visibility): (r: Kwargs)
    ensures r.verb == "post" && r.params == Some(map[])
    ensures r.json.Some? && r.json.value.PyDict? && r.json.value.entries.Keys == {"key", "visibility"}
    ensures "key" in r.json.value.entries && r.json.value.entries["key"] == PyStr(key)
    ensures "visibility" in r.json.value.entries && r.json.value.entries["visibility"] == PyStr(vis.Name())
  {
    PostFilesRequest(StartBody(Instance(FileCreateStartBody(PyStr(key), Given(vis)), map[])), Unset, Unset, Unset)
  }

  /** One part of a multipart upload: upload id and part number set. */
  function PartRequest(key: string, uploadId: Value, t: PartTask, vis: Visibility, mime: string): (r: Kwargs)
    ensures r.verb == "put" && r.files.Some?
    ensures "file" in r.files.value && r.files.value["file"] == FilePart(ToTuple(File(t.chunk, Some(key), Some(mime))))
    ensures "part" in r.files.value && r.files.value["part"] == TextPart(Str(PyInt(t.number)))
    ensures "upload_id" in r.files.value && r.files.value["upload_id"] == TextPart(Str(uploadId))
  {
    PutFilesRequest(Instance(PutFilesBody(File(t.chunk, Some(key), Some(mime)), PyStr(key), Given(uploadId),
      Given(PyInt(t.number)), Given(vis)), map[]))
  }

  /** The request that completes a multipart upload: the manifest as the JSON body. */
  function CompleteRequest(key: string, uploadId: Value, parts: seq<PartBody>, vis: Visibility): (r: Kwargs)
    ensures r.verb == "post" && r.json == Some(PyList(PartsJson(parts)))
    ensures r.params.Some? && "key" in r.params.value && r.params.value["key"] == PyStr(key)
  {
    PostFilesRequest(PartList(parts), Given(uploadId), Given(PyStr(key)), Given(vis))
  }

  // ---------------------------------------------------------------------------
  // Retries of one part
  // ---------------------------------------------------------------------------

  /**
   * `hasattr(part_response.parsed, "etag")`: an R2Object reply or an
   * R2UploadedPart reply carries one, None does not.
   */
  function EtagOf(env: Env, parsed: Parsed): (r: Option<Value>)
    ensures parsed.Nothing? ==> r.None?
    ensures parsed.UploadedPart? ==> r == Some(env.partEtag(parsed.part))
  {
    match parsed
    case Object(obj) => if obj.fields.etag.Given? then Some(obj.fields.etag.value) else None
    case UploadedPart(part) => Some(env.partEtag(part))
    case _ => None
  }

  /**
   * One attempt inside `upload_part`: the reply is parsed first, then a 400
   * raises Exception, a 500 raises IOError and a reply without an etag
   * raises Exception; otherwise the part's manifest entry.
   */
  function AttemptOutcome(env: Env, resp: HttpResponse, partNumber: int): (r: Result<PartBody>)
    ensures resp.status == 500 && !env.raiseOnUnexpected ==> r == Err(IOError("Failed to upload part"))
    ensures resp.status == 400 ==> r.Err? && !r.error.IOError?
    ensures r.Ok? ==> resp.status !in {400, 500} && r.value.additional == map[]
    ensures r.Ok? ==> r.value.fields.partNumber == PyInt(partNumber)
  {
    var parsed :- PutFilesParse(resp, env.raiseOnUnexpected, env.dec);
    if resp.status == 400 then
      match env.decodeUtf8(resp.content)
      case None => Err(ValueError("invalid utf-8"))
      case Some(text) => Err(Exception("Bad request: " + text))
    else if resp.status == 500 then Err(IOError("Failed to upload part"))
    else
      match EtagOf(env, parsed)
      case None => Err(Exception("Failed to upload part"))
      case Some(etag) => Ok(Instance(R2UploadedPartBody(etag, PyInt(partNumber)), map[]))
  }

  predicate IsIOError<T>(r: Result<T>) {
    r.Err? && r.error.IOError?
  }

  /**
   * The inner `AsyncRetrying` loop from its `attempt`-th attempt on: the same
   * request is resent only after an IOError, and at most MAX_RETRIES times in
   * all. Returns the history and the outcome of the last attempt.
   */
  function InnerSpec(env: Env, h: History, req: Kwargs, partNumber: int, attempt: nat): (r: (History, Result<PartBody>))
    requires 1 <= attempt <= MaxRetries
    ensures |h| < |r.0| <= |h| + MaxRetries - attempt + 1
    ensures r.0[..|h|] == h
    ensures forall i :: |h| <= i < |r.0| ==> r.0[i] == req
    ensures r.1 == AttemptOutcome(env, env.server(r.0), partNumber)
    ensures forall i :: |h| < i < |r.0| ==> IsIOError(AttemptOutcome(env, env.server(r.0[..i]), partNumber))
    ensures IsIOError(r.1) ==> |r.0| == |h| + MaxRetries - attempt + 1
    decreases MaxRetries - attempt
  {
    var h' := h + [req];
    var o := AttemptOutcome(env, env.server(h'), partNumber);
    if IsIOError(o) && attempt < MaxRetries then
      var r := InnerSpec(env, h', req, partNumber, attempt + 1);
      assert r.0[..|h'|] == h';
      assert r.0[..|h|] == h' [..|h|];
      r
    else (h', o)
  }

  /**
   * The `@retry` decorator around `upload_part` from its `attempt`-th call on:
   * any failure of the inner loop calls it again, at most MAX_RETRIES times.
   */
  function OuterSpec(env: Env, h: History, req: Kwargs, partNumber: int, attempt: nat): (r: (History, Result<PartBody>))
    requires 1 <= attempt <= MaxRetries
    ensures |h| < |r.0| <= |h| + (MaxRetries - attempt + 1) * MaxRetries
    ensures r.0[..|h|] == h
    ensures forall i :: |h| <= i < |r.0| ==> r.0[i] == req
    ensures r.1 == AttemptOutcome(env, env.server(r.0), partNumber)
    decreases MaxRetries - attempt
  {
    var (h', o) := InnerSpec(env, h, req, partNumber, 1);
    if o.Err? && attempt < MaxRetries then
      var r := OuterSpec(env, h', req, partNumber, attempt + 1);
      assert r.0[..|h'|] == h';
      assert r.0[..|h|] == h' [..|h|];
      r
    else (h', o)
  }

  /** One attempt of the inner loop: it ends there unless it raised an IOError with attempts left. */
  lemma InnerStep(env: Env, h: History, req: Kwargs, partNumber: int, attempt: nat)
    requires 1 <= attempt <= MaxRetries
    ensures var o := AttemptOutcome(env, env.server(h + [req]), partNumber);
      InnerSpec(env, h, req, partNumber, attempt) ==
        if IsIOError(o) && attempt < MaxRetries then InnerSpec(env, h + [req], req, partNumber, attempt + 1)
        else (h + [req], o)
  {
  }

  /** One call of the decorated function: it ends there unless the inner loop failed with calls left. */
  lemma OuterStep(env: Env, h: History, req: Kwargs, partNumber: int, attempt: nat)
    requires 1 <= attempt <= MaxRetries
    ensures var (h', o) := InnerSpec(env, h, req, partNumber, 1);
      OuterSpec(env, h, req, partNumber, attempt) ==
        if o.Err? && attempt < MaxRetries then OuterSpec(env, h', req, partNumber, attempt + 1) else (h', o)
  {
  }

  /** `upload_part(part_number, chunk)` with both retry policies. */
  function UploadPartSpec(env: Env, h: History, req: Kwargs, partNumber: int): (r: (History, Result<PartBody>))
    ensures |h| < |r.0| && r.0[..|h|] == h
    ensures forall i :: |h| <= i < |r.0| ==> r.0[i] == req
    ensures r.1.Ok? ==> r.1.value.fields.partNumber == PyInt(partNumber)
  {
    OuterSpec(env, h, req, partNumber, 1)
  }

  /** A part makes between 1 and MAX_RETRIES * MAX_RETRIES attempts, all of the same request. */
  lemma UploadPartAttempts(env: Env, h: History, req: Kwargs, partNumber: int)
    ensures var r := UploadPartSpec(env, h, req, partNumber);
      |h| + 1 <= |r.0| <= |h| + 9 && forall i :: |h| <= i < |r.0| ==> r.0[i] == req
  {
    var r := UploadPartSpec(env, h, req, partNumber);
    assert (MaxRetries - 1 + 1) * MaxRetries == 9;
  }

  /** A server that always answers 500 gets every inner loop exhausted: 9 attempts, then the IOError. */
  lemma {:induction false} AlwaysServerErrorInner(env: Env, h: History, req: Kwargs, partNumber: int, attempt: nat)
    requires 1 <= attempt <= MaxRetries
    requires !env.raiseOnUnexpected && forall hh :: env.server(hh).status == 500
    ensures var r := InnerSpec(env, h, req, partNumber, attempt);
      |r.0| == |h| + MaxRetries - attempt + 1 && r.1 == Err(IOError("Failed to upload part"))
    decreases MaxRetries - attempt
  {
    assert env.server(h + [req]).status == 500;
    if attempt < MaxRetries {
      AlwaysServerErrorInner(env, h + [req], req, partNumber, attempt + 1);
    }
  }

  lemma {:induction false} AlwaysServerErrorOuter(env: Env, h: History, req: Kwargs, partNumber: int, attempt: nat)
    requires 1 <= attempt <= MaxRetries
    requires !env.raiseOnUnexpected && forall hh :: env.server(hh).status == 500
    ensures var r := OuterSpec(env, h, req, partNumber, attempt);
      |r.0| == |h| + (MaxRetries - attempt + 1) * MaxRetries && r.1 == Err(IOError("Failed to upload part"))
    decreases MaxRetries - attempt
  {
    AlwaysServerErrorInner(env, h, req, partNumber, 1);
    var (h', o) := InnerSpec(env, h, req, partNumber, 1);
    if attempt < MaxRetries {
      AlwaysServerErrorOuter(env, h', req, partNumber, attempt + 1);
    }
  }

  /** Against a server that always answers 500 a part makes exactly 9 attempts and fails with IOError. */
  lemma AlwaysServerErrorNineAttempts(env: Env, h: History, req: Kwargs, partNumber: int)
    requires !env.raiseOnUnexpected && forall hh :: env.server(hh).status == 500
    ensures var r := UploadPartSpec(env, h, req, partNumber);
      |r.0| == |h| + 9 && r.1 == Err(IOError("Failed to upload part"))
  {
    AlwaysServerErrorOuter(env, h, req, partNumber, 1);
  }

  /** The decoders raise no IOError of their own (isoparse raises ValueError, `from_dict` KeyError). */
  ghost predicate DecodersRaiseNoIOError(dec: Decoders) {
    (forall v :: dec.isoparse(v).Err? ==> !dec.isoparse(v).error.IOError?) &&
    (forall v :: dec.uploadedPart(v).Err? ==> !dec.uploadedPart(v).error.IOError?)
  }

  /** Only a 500 answered without `raise_on_unexpected_status` is an IOError. */
  lemma {:induction false} IOErrorOnlyOnServerError(env: Env, resp: HttpResponse, partNumber: int)
    requires DecodersRaiseNoIOError(env.dec)
    ensures IsIOError(AttemptOutcome(env, resp, partNumber)) <==> resp.status == 500 && !env.raiseOnUnexpected
  {
    var p := PutFilesParse(resp, env.raiseOnUnexpected, env.dec);
    if resp.status == 200 && resp.json.PyDict? && "uploaded" in resp.json.entries {
      var u := resp.json.entries["uploaded"];
      assert env.dec.isoparse(u).Err? ==> !env.dec.isoparse(u).error.IOError?;
    }
    if resp.status == 201 {
      assert env.dec.uploadedPart(resp.json).Err? ==> !env.dec.uploadedPart(resp.json).error.IOError?;
    }
  }

  /** Without a 500 the inner loop never retries, so a part makes at most MAX_RETRIES attempts. */
  lemma {:induction false} NoServerErrorOuter(env: Env, h: History, req: Kwargs, partNumber: int, attempt: nat)
    requires 1 <= attempt <= MaxRetries
    requires DecodersRaiseNoIOError(env.dec) && forall hh :: env.server(hh).status != 500
    ensures |OuterSpec(env, h, req, partNumber, attempt).0| <= |h| + MaxRetries - attempt + 1
    decreases MaxRetries - attempt
  {
    IOErrorOnlyOnServerError(env, env.server(h + [req]), partNumber);
    var (h', o) := InnerSpec(env, h, req, partNumber, 1);
    assert |h'| == |h| + 1;
    if o.Err? && attempt < MaxRetries {
      NoServerErrorOuter(env, h', req, partNumber, attempt + 1);
    }
  }

  lemma NoServerErrorThreeAttempts(env: Env, h: History, req: Kwargs, partNumber: int)
    requires DecodersRaiseNoIOError(env.dec) && forall hh :: env.server(hh).status != 500
    ensures |UploadPartSpec(env, h, req, partNumber).0| <= |h| + 3
  {
    NoServerErrorOuter(env, h, req, partNumber, 1);
  }

  // ---------------------------------------------------------------------------
  // The multipart upload
  // ---------------------------------------------------------------------------

  /** Prefixes the parts already uploaded to the outcome of the remaining ones. */
  function Prepend(done: seq<PartBody>, rest: (History, Result<seq<PartBody>>)): (History, Result<seq<PartBody>>) {
    (rest.0, if rest.1.Ok? then Ok(done + rest.1.value) else rest.1)
  }

  /**
   * The parts uploaded one after another in task order; the first part that
   * fails ends the upload with its error.
   */
  function PartsSpec(env: Env, h: History, tasks: seq<PartTask>, key: string, uploadId: Value, vis: Visibility,
                     mime: string): (r: (History, Result<seq<PartBody>>))
    ensures |r.0| >= |h| && r.0[..|h|] == h
    ensures forall i :: |h| <= i < |r.0| ==> r.0[i].verb == "put"
    ensures r.1.Ok? ==> |r.1.value| == |tasks|
    ensures r.1.Ok? ==> forall i :: 0 <= i < |tasks| ==> r.1.value[i].fields.partNumber == PyInt(tasks[i].number)
    decreases |tasks|
  {
    if tasks == [] then (h, Ok([])) else
    var req := PartRequest(key, uploadId, tasks[0], vis, mime);
    var (h1, o) := UploadPartSpec(env, h, req, tasks[0].number);
    if o.Err? then (h1, Err(o.error)) else
    var rest := PartsSpec(env, h1, tasks[1..], key, uploadId, vis, mime);
    PutsExtend(h, h1, rest.0);
    assert rest.1.Ok? ==> forall i :: 0 <= i < |tasks| ==>
      ([o.value] + rest.1.value)[i].fields.partNumber == PyInt(tasks[i].number) by {
      if rest.1.Ok? {
        NumbersExtend(o.value, rest.1.value, tasks);
      }
    }
    Prepend([o.value], rest)
  }

  /** A manifest entry for the first task before the entries of the others numbers every task. */
  lemma NumbersExtend(p: PartBody, rest: seq<PartBody>, tasks: seq<PartTask>)
    requires |tasks| >= 1 && p.fields.partNumber == PyInt(tasks[0].number) && |rest| == |tasks| - 1
    requires forall i :: 0 <= i < |rest| ==> rest[i].fields.partNumber == PyInt(tasks[1..][i].number)
    ensures |[p] + rest| == |tasks|
    ensures forall i :: 0 <= i < |tasks| ==> ([p] + rest)[i].fields.partNumber == PyInt(tasks[i].number)
  {
    forall i | 1 <= i < |tasks|
      ensures ([p] + rest)[i].fields.partNumber == PyInt(tasks[i].number)
    {
      assert ([p] + rest)[i] == rest[i - 1] && tasks[1..][i - 1] == tasks[i];
    }
  }

  /** Two runs of part uploads after `h`, one after the other, are one run of part uploads after `h`. */
  lemma PutsExtend(h: History, h1: History, h2: History)
    requires |h| <= |h1| <= |h2| && h1[..|h|] == h && h2[..|h1|] == h1
    requires forall i :: |h| <= i < |h1| ==> h1[i].verb == "put"
    requires forall i :: |h1| <= i < |h2| ==> h2[i].verb == "put"
    ensures h2[..|h|] == h
    ensures forall i :: |h| <= i < |h2| ==> h2[i].verb == "put"
  {
    assert h2[..|h|] == h2[..|h1|][..|h|];
    forall i | |h| <= i < |h1|
      ensures h2[i].verb == "put"
    {
      assert h2[i] == h2[..|h1|][i];
    }
  }

  /** One step of the part loop: the next part's outcome either ends the upload or joins the manifest. */
  lemma PartsStep(env: Env, h: History, tasks: seq<PartTask>, i: nat, parts: seq<PartBody>, key: string,
                  uploadId: Value, vis: Visibility, mime: string)
    requires i < |tasks|
    ensures var (h1, o) := UploadPartSpec(env, h, PartRequest(key, uploadId, tasks[i], vis, mime), tasks[i].number);
      var before := Prepend(parts, PartsSpec(env, h, tasks[i..], key, uploadId, vis, mime));
      (o.Err? ==> before == (h1, Err(o.error))) &&
      (o.Ok? ==> before == Prepend(parts + [o.value], PartsSpec(env, h1, tasks[i + 1..], key, uploadId, vis, mime)))
  {
    assert tasks[i..][0] == tasks[i];
    assert tasks[i..][1..] == tasks[i + 1..];
    var (h1, o) := UploadPartSpec(env, h, PartRequest(key, uploadId, tasks[i], vis, mime), tasks[i].number);
    if o.Ok? {
      var rest := PartsSpec(env, h1, tasks[i + 1..], key, uploadId, vis, mime);
      assert PartsSpec(env, h, tasks[i..], key, uploadId, vis, mime) == Prepend([o.value], rest);
      PrependTwice(parts, o.value, rest);
    }
  }

  /** Before the first task nothing is uploaded yet; after the last one the parts are the result. */
  lemma PartsEnds(env: Env, h: History, tasks: seq<PartTask>, parts: seq<PartBody>, key: string,
                  uploadId: Value, vis: Visibility, mime: string)
    ensures PartsSpec(env, h, tasks, key, uploadId, vis, mime)
      == Prepend([], PartsSpec(env, h, tasks[0..], key, uploadId, vis, mime))
    ensures Prepend(parts, PartsSpec(env, h, tasks[|tasks|..], key, uploadId, vis, mime)) == (h, Ok(parts))
  {
    assert tasks[0..] == tasks;
    assert tasks[|tasks|..] == [];
    assert parts + [] == parts;
    var spec := PartsSpec(env, h, tasks, key, uploadId, vis, mime);
    assert spec.1.Ok? ==> [] + spec.1.value == spec.1.value;
  }

  /** One part uploaded: the loop's invariant moves past task `i`, or its error is the whole result. */
  lemma PartsAdvance(env: Env, spec: (History, Result<seq<PartBody>>), before: History, after: History,
                     part: Result<PartBody>, tasks: seq<PartTask>, i: nat, parts: seq<PartBody>, key: string,
                     uploadId: Value, vis: Visibility, mime: string)
    requires i < |tasks|
    requires spec == Prepend(parts, PartsSpec(env, before, tasks[i..], key, uploadId, vis, mime))
    requires (after, part) == UploadPartSpec(env, before, PartRequest(key, uploadId, tasks[i], vis, mime), tasks[i].number)
    ensures part.Err? ==> spec == (after, Err(part.error))
    ensures part.Ok? ==> spec == Prepend(parts + [part.value], PartsSpec(env, after, tasks[i + 1..], key, uploadId, vis, mime))
  {
    PartsStep(env, before, tasks, i, parts, key, uploadId, vis, mime);
  }

  lemma PrependTwice(parts: seq<PartBody>, p: PartBody, rest: (History, Result<seq<PartBody>>))
    ensures Prepend(parts, Prepend([p], rest)) == Prepend(parts + [p], rest)
  {
    if rest.1.Ok? {
      assert parts + ([p] + rest.1.value) == parts + [p] + rest.1.value;
    }
  }

  /** The start request and the upload id its reply carries. */
  function StartSpec(env: Env, h: History, key: string, vis: Visibility): (r: (History, Result<Value>))
    ensures r.0 == h + [StartRequest(key, vis)]
    ensures r.1.Ok? <==> (PostFilesParse(env.server(r.0), env.raiseOnUnexpected, env.dec).Ok? &&
      PostFilesParse(env.server(r.0), env.raiseOnUnexpected, env.dec).value.MultipartUpload?)
  {
    var h' := h + [StartRequest(key, vis)];
    match PostFilesParse(env.server(h'), env.raiseOnUnexpected, env.dec)
    case Err(e) => (h', Err(e))
    case Ok(MultipartUpload(u)) => (h', Ok(u.fields.uploadId))
    case Ok(_) => (h', Err(Exception("Failed to start multipart upload")))
  }

  /** A history of a start request then part uploads, with or without one more request at the end. */
  lemma StartThenPuts(h: History, start: Kwargs, h2: History, last: Kwargs)
    requires |h2| > |h| && h2[..|h| + 1] == h + [start]
    requires forall i :: |h| + 1 <= i < |h2| ==> h2[i].verb == "put"
    ensures h2[..|h|] == h && h2[|h|] == start
    ensures forall i :: |h| < i < |h2| - 1 ==> h2[i].verb == "put"
    ensures var h3 := h2 + [last];
      h3[..|h|] == h && h3[|h|] == start && forall i :: |h| < i < |h3| - 1 ==> h3[i].verb == "put"
  {
    assert h2[..|h|] == h2[..|h| + 1][..|h|];
    assert h2[|h|] == h2[..|h| + 1][|h|];
    var h3 := h2 + [last];
    assert h3[..|h|] == h2[..|h|];
    forall i | |h| < i < |h3| - 1
      ensures h3[i].verb == "put"
    {
      assert h3[i] == h2[i];
    }
  }

  /** `_upload_large_file`: start, the parts in order, then complete with the manifest. */
  function LargeUploadSpec(env: Env, h: History, data: seq<byte>, key: string, vis: Visibility, mime: string)
    : (r: (History, Result<Parsed>))
    ensures |r.0| > |h| && r.0[..|h|] == h && r.0[|h|] == StartRequest(key, vis)
    ensures forall i :: |h| < i < |r.0| - 1 ==> r.0[i].verb == "put"
  {
    var (h1, started) := StartSpec(env, h, key, vis);
    if started.Err? then (h1, Err(started.error)) else
    var (h2, parts) := PartsSpec(env, h1, Tasks(data), key, started.value, vis, mime);
    if parts.Err? then
      StartThenPuts(h, StartRequest(key, vis), h2, StartRequest(key, vis));
      (h2, Err(parts.error))
    else
    var last := CompleteRequest(key, started.value, parts.value, vis);
    StartThenPuts(h, StartRequest(key, vis), h2, last);
    var h3 := h2 + [last];
    (h3, PostFilesParse(env.server(h3), env.raiseOnUnexpected, env.dec))
  }

  /** The manifest has one entry per chunk, numbered 1..n in chunk order. */
  lemma ManifestAscending(env: Env, h: History, data: seq<byte>, key: string, uploadId: Value, vis: Visibility,
                          mime: string)
    ensures var parts := PartsSpec(env, h, Tasks(data), key, uploadId, vis, mime).1;
      parts.Ok? ==> (|parts.value| == |Chunks(data)| &&
        forall i :: 0 <= i < |parts.value| ==> parts.value[i].fields.partNumber == PyInt(i + 1))
  {
    var tasks := Tasks(data);
    var parts := PartsSpec(env, h, tasks, key, uploadId, vis, mime).1;
    if parts.Ok? {
      forall i | 0 <= i < |parts.value| ensures parts.value[i].fields.partNumber == PyInt(i + 1) {
        assert tasks[i].number == i + 1;
      }
    }
  }

  /**
   * A multipart upload sends the complete request, carrying the manifest,
   * only when every part succeeded; a failed part ends it with that part's
   * error and nothing but part uploads after the start request.
   */
  lemma LargeUploadCompletesOnlyAfterAllParts(env: Env, h: History, data: seq<byte>, key: string, vis: Visibility,
                                              mime: string)
    ensures var (h1, started) := StartSpec(env, h, key, vis);
      var r := LargeUploadSpec(env, h, data, key, vis, mime);
      started.Ok? ==>
        var (h2, parts) := PartsSpec(env, h1, Tasks(data), key, started.value, vis, mime);
        (parts.Ok? ==> r.0 == h2 + [CompleteRequest(key, started.value, parts.value, vis)]) &&
        (parts.Err? ==> r == (h2, Err(parts.error)) && forall i :: |h1| <= i < |r.0| ==> r.0[i].verb == "put")
  {
  }

  // ---------------------------------------------------------------------------
  // upload_file
  // ---------------------------------------------------------------------------

  /** What `upload_file` returns: the put's response, or what completing the multipart upload parsed to. */
  datatype Uploaded = SmallUpload(status: int, parsed: Parsed) | LargeUpload(parsed: Parsed)

  /** `_upload_small_file` and the status check that follows it. */
  function SmallUploadSpec(env: Env, h: History, data: seq<byte>, key: string, vis: Visibility, mime: string)
    : (r: (History, Result<Uploaded>))
    ensures r.0 == h + [SmallRequest(data, key, vis, mime)]
    ensures r.1.Ok? ==> env.server(r.0).status == 200
  {
    var h' := h + [SmallRequest(data, key, vis, mime)];
    var resp := env.server(h');
    match PutFilesParse(resp, env.raiseOnUnexpected, env.dec)
    case Err(e) => (h', Err(e))
    case Ok(parsed) =>
      if resp.status != 200 then (h', Err(Exception("Failed to upload small file")))
      else (h', Ok(SmallUpload(resp.status, parsed)))
  }

  /** `upload_file`: key check, visibility, then a single put or a multipart upload by size. */
  function UploadFileSpec(env: Env, h: History, data: seq<byte>, key: string, vis: VisibilityArg, mime: string)
    : (r: (History, Result<Uploaded>))
    ensures |key| > 0 && key[0] == '/' ==> r == (h, Err(Exception("Key cannot start with a slash")))
    ensures ParseVisibility(vis).Err? && !(|key| > 0 && key[0] == '/') ==> r == (h, Err(ParseVisibility(vis).error))
    ensures |r.0| > |h| ==> ParseVisibility(vis).Ok? && r.0[..|h|] == h
    ensures |r.0| > |h| && |data| <= MaxPartSize ==> r.0 == h + [SmallRequest(data, key, ParseVisibility(vis).value, mime)]
    ensures |r.0| > |h| && |data| > MaxPartSize ==> r.0[|h|] == StartRequest(key, ParseVisibility(vis).value)
  {
    if |key| > 0 && key[0] == '/' then (h, Err(Exception("Key cannot start with a slash"))) else
    match ParseVisibility(vis)
    case Err(e) => (h, Err(e))
    case Ok(v) =>
      if |data| <= MaxPartSize then SmallUploadSpec(env, h, data, key, v, mime)
      else
        var (h', r) := LargeUploadSpec(env, h, data, key, v, mime);
        (h', if r.Ok? then Ok(LargeUpload(r.value)) else Err(r.error))
  }

  /** A valid upload always sends something: the put for a small payload, the start request for a large one. */
  lemma UploadFileSends(env: Env, h: History, data: seq<byte>, key: string, vis: VisibilityArg, mime: string)
    requires !(|key| > 0 && key[0] == '/') && ParseVisibility(vis).Ok?
    ensures |UploadFileSpec(env, h, data, key, vis, mime).0| > |h|
  {
  }

  // ---------------------------------------------------------------------------
  // get_signed_url and list_files
  // ---------------------------------------------------------------------------

  /**
   * What `get_signed_url` makes of the token reply: base_url, "download/",
   * the quoted key and the quoted token, with no separator added after base_url.
   */
  function SignedUrlOf(env: Env, baseUrl: string, key: string, resp: HttpResponse): (r: Result<string>)
    ensures r.Ok? <==> (resp.status == 200 && env.dec.tokenResponse(resp.json).Ok? &&
      env.dec.tokenResponse(resp.json).value.PyStr?)
    ensures r.Ok? ==> (r.value == baseUrl + "download/" + env.quote(key) + "?token=" +
      env.quote(env.dec.tokenResponse(resp.json).value.s))
    ensures r.Err? && DownloadTokenParse(resp, env.raiseOnUnexpected, env.dec).Ok? ==>
      r.error == Exception("Failed to get signed URL for file: " + key)
  {
    var parsed :- DownloadTokenParse(resp, env.raiseOnUnexpected, env.dec);
    if parsed.TokenResponse? && parsed.token.PyStr? then
      Ok(baseUrl + "download/" + env.quote(key) + "?token=" + env.quote(parsed.token.s))
    else Err(Exception("Failed to get signed URL for file: " + key))
  }

  /** With a base URL that has no trailing '/', "download" is glued to the host. */
  lemma SignedUrlGluesBase(env: Env, key: string, resp: HttpResponse)
    requires SignedUrlOf(env, "https://api.example.com", key, resp).Ok?
    ensures SignedUrlOf(env, "https://api.example.com", key, resp).value[..32] == "https://api.example.comdownload/"
  {
    var url := SignedUrlOf(env, "https://api.example.com", key, resp).value;
    var rest := env.quote(key) + "?token=" + env.quote(env.dec.tokenResponse(resp.json).value.s);
    assert url == ("https://api.example.com" + "download/") + rest;
  }

  /** The metadata dict `list_files` builds per object; its httpEtag key is spelt "http_etage". */
  datatype FileMetadata = FileMetadata(
    key: Field<Value>, size: Field<Value>, etag: Field<Value>, httpEtage: Field<Value>, uploaded: Field<Instant>)

  function MetadataOf(o: R2Object): FileMetadata {
    FileMetadata(o.key, o.size, o.etag, o.httpEtag, o.uploaded)
  }

  function ListRequest(limit: int): Kwargs {
    GetFilesRequest(Unset, Given(PyInt(limit)), Unset, Unset, Unset)
  }

  /**
   * `list_files` as written: the parsed reply must be a list, which
   * `_parse_response` never returns.
   */
  function ListFilesAsWritten(env: Env, resp: HttpResponse): (r: Result<seq<FileMetadata>>)
    ensures r.Err?
  {
    var parsed :- GetFilesParse(resp, env.raiseOnUnexpected, env.dec);
    Err(Exception("Failed to list files"))
  }

  /** The body of the worker's listing answer: `{"objects": [...]}`, one dict per object. */
  function WorkerListing(objects: seq<Dict>): (v: Value)
    ensures v.PyDict? && v.entries.Keys == {"objects"} && v.entries["objects"].PyList?
    ensures |v.entries["objects"].items| == |objects|
    ensures forall i :: 0 <= i < |objects| ==> v.entries["objects"].items[i] == PyDict(objects[i])
  {
    PyDict(map["objects" := PyList(seq(|objects|, i requires 0 <= i < |objects| => PyDict(objects[i])))])
  }

  /**
   * The worker answers a listing with 206 and `{"objects": [...]}`. Having no
   * "uploaded" key, that dict parses as one R2Object whose additional
   * properties hold "objects", so `list_files` raises "Failed to list files".
   */
  lemma ListFilesNeverSucceeds(env: Env, objects: seq<Dict>)
    ensures GetFilesParse(HttpResponse(206, [], WorkerListing(objects)), env.raiseOnUnexpected, env.dec).Ok?
    ensures GetFilesParse(HttpResponse(206, [], WorkerListing(objects)), env.raiseOnUnexpected, env.dec).value.Object?
    ensures ListFilesAsWritten(env, HttpResponse(206, [], WorkerListing(objects))) == Err(Exception("Failed to list files"))
  {
    GetFilesListOnlyOnBadDate(HttpResponse(206, [], WorkerListing(objects)), env.raiseOnUnexpected, env.dec);
  }

  /** Each entry of a listing read as an R2Object, in order. */
  function ListEntries(items: seq<Value>, isoparse: Value -> Result<Instant>): (r: Result<seq<FileMetadata>>)
    ensures r.Ok? <==> forall i :: 0 <= i < |items| ==> items[i].PyDict? && R2ObjectFromDict(items[i].entries, isoparse).Ok?
    ensures r.Ok? ==> |r.value| == |items|
    ensures r.Ok? ==> forall i :: 0 <= i < |items| ==>
      r.value[i] == MetadataOf(R2ObjectFromDict(items[i].entries, isoparse).value.fields)
  {
    if items == [] then Ok([]) else
    if !items[0].PyDict? then Err(TypeError("")) else
    var head :- R2ObjectFromDict(items[0].entries, isoparse);
    var tail :- ListEntries(items[1..], isoparse);
    assert forall i :: 1 <= i < |items| ==> items[i] == items[1..][i - 1];
    Ok([MetadataOf(head.fields)] + tail)
  }

  /** Whether a 206 reply carries the worker's listing: a dict whose "objects" is a list. */
  predicate IsListing(resp: HttpResponse) {
    resp.status == 206 && resp.json.PyDict? && "objects" in resp.json.entries && resp.json.entries["objects"].PyList?
  }

  /** `list_files` reading the "objects" of the worker's 206 listing, which is the list the method promises. */
  function ListFilesOf(env: Env, resp: HttpResponse): (r: Result<seq<FileMetadata>>)
    ensures IsListing(resp) ==> r == ListEntries(resp.json.entries["objects"].items, env.dec.isoparse)
    ensures !IsListing(resp) ==> r == ListFilesAsWritten(env, resp)
  {
    if IsListing(resp) then ListEntries(resp.json.entries["objects"].items, env.dec.isoparse)
    else ListFilesAsWritten(env, resp)
  }

  /**
   * The worker's listing now comes back exactly when every "uploaded" in it
   * parses, one entry per object, in order, with the object's own fields.
   */
  lemma ListFilesReadsListing(env: Env, objects: seq<Dict>)
    ensures var r := ListFilesOf(env, HttpResponse(206, [], WorkerListing(objects)));
      r.Ok? <==> forall i :: 0 <= i < |objects| ==> ("uploaded" in objects[i] ==> env.dec.isoparse(objects[i]["uploaded"]).Ok?)
    ensures var r := ListFilesOf(env, HttpResponse(206, [], WorkerListing(objects)));
      r.Ok? ==> |r.value| == |objects| && forall i :: 0 <= i < |objects| ==>
        r.value[i].key == FieldOf(objects[i], "key") && r.value[i].size == FieldOf(objects[i], "size")
        && r.value[i].etag == FieldOf(objects[i], "etag") && r.value[i].httpEtage == FieldOf(objects[i], "httpEtag")
        && r.value[i].uploaded == (if "uploaded" in objects[i] then Given(env.dec.isoparse(objects[i]["uploaded"]).value) else Unset)
  {
    var items := WorkerListing(objects).entries["objects"].items;
    assert forall i :: 0 <= i < |objects| ==> items[i].PyDict? && items[i].entries == objects[i];
  }

  // ---------------------------------------------------------------------------
  // StorageClient
  // ---------------------------------------------------------------------------

  /** A `StorageClient`; `sent` is every request it has made, in order. */
  class StorageClient {
    const baseUrl: string
    const jwt: string
    const env: Env
    var sent: History

    constructor(baseUrl: string, jwt: string, env: Env)
      ensures this.baseUrl == baseUrl && this.jwt == jwt && this.env == env && sent == []
    {
      this.baseUrl := baseUrl;
      this.jwt := jwt;
      this.env := env;
      sent := [];
    }

    /** One request over the authenticated client. */
    method Send(k: Kwargs) returns (resp: HttpResponse)
      modifies this
      ensures sent == old(sent) + [k] && resp == env.server(sent)
    {
      sent := sent + [k];
      resp := env.server(sent);
    }

    /** One call of the decorated `upload_part`: its `AsyncRetrying` loop, retrying on IOError only. */
    method UploadPartOnce(req: Kwargs, partNumber: int) returns (r: Result<PartBody>)
      modifies this
      ensures (sent, r) == InnerSpec(env, old(sent), req, partNumber, 1)
    {
      var inner := 1;
      while true
        invariant 1 <= inner <= MaxRetries
        invariant InnerSpec(env, old(sent), req, partNumber, 1) == InnerSpec(env, sent, req, partNumber, inner)
        decreases MaxRetries - inner
      {
        InnerStep(env, sent, req, partNumber, inner);
        var resp := Send(req);
        r := AttemptOutcome(env, resp, partNumber);
        if !(IsIOError(r) && inner < MaxRetries) {
          return;
        }
        inner := inner + 1;
      }
    }

    /** `upload_part` under its `@retry` decorator: any failure calls it again, at most MAX_RETRIES times. */
    method UploadPart(req: Kwargs, partNumber: int) returns (r: Result<PartBody>)
      modifies this
      ensures (sent, r) == UploadPartSpec(env, old(sent), req, partNumber)
    {
      var outer := 1;
      while true
        invariant 1 <= outer <= MaxRetries
        invariant OuterSpec(env, old(sent), req, partNumber, 1) == OuterSpec(env, sent, req, partNumber, outer)
        decreases MaxRetries - outer
      {
        OuterStep(env, sent, req, partNumber, outer);
        r := UploadPartOnce(req, partNumber);
        if r.Ok? || outer == MaxRetries {
          return;
        }
        outer := outer + 1;
      }
    }

    /** `asyncio.gather` over the part uploads, run one after another in task order. */
    method UploadParts(tasks: seq<PartTask>, key: string, uploadId: Value, vis: Visibility, mime: string)
      returns (r: Result<seq<PartBody>>)
      modifies this
      ensures (sent, r) == PartsSpec(env, old(sent), tasks, key, uploadId, vis, mime)
    {
      var parts: seq<PartBody> := [];
      var i := 0;
      ghost var spec := PartsSpec(env, sent, tasks, key, uploadId, vis, mime);
      PartsEnds(env, sent, tasks, [], key, uploadId, vis, mime);
      while i < |tasks|
        invariant 0 <= i <= |tasks|
        invariant spec == Prepend(parts, PartsSpec(env, sent, tasks[i..], key, uploadId, vis, mime))
      {
        ghost var before := sent;
        var part := UploadPart(PartRequest(key, uploadId, tasks[i], vis, mime), tasks[i].number);
        PartsAdvance(env, spec, before, sent, part, tasks, i, parts, key, uploadId, vis, mime);
        if part.Err? {
          return Err(part.error);
        }
        parts := parts + [part.value];
        i := i + 1;
      }
      PartsEnds(env, sent, tasks, parts, key, uploadId, vis, mime);
      return Ok(parts);
    }

    /** `_upload_large_file`. */
    method UploadLargeFile(data: seq<byte>, key: string, vis: Visibility, mime: string) returns (r: Result<Parsed>)
      modifies this
      ensures (sent, r) == LargeUploadSpec(env, old(sent), data, key, vis, mime)
    {
      var startResp := Send(StartRequest(key, vis));
      var started := PostFilesParse(startResp, env.raiseOnUnexpected, env.dec);
      if started.Err? {
        return Err(started.error);
      }
      if !started.value.MultipartUpload? {
        return Err(Exception("Failed to start multipart upload"));
      }
      var uploadId := started.value.upload.fields.uploadId;
      var tasks := ReadTasks(data);
      var parts := UploadParts(tasks, key, uploadId, vis, mime);
      if parts.Err? {
        return Err(parts.error);
      }
      var completeResp := Send(CompleteRequest(key, uploadId, parts.value, vis));
      r := PostFilesParse(completeResp, env.raiseOnUnexpected, env.dec);
    }

    /** `upload_file`. */
    method UploadFile(data: seq<byte>, key: string, vis: VisibilityArg, mime: string) returns (r: Result<Uploaded>)
      modifies this
      ensures (sent, r) == UploadFileSpec(env, old(sent), data, key, vis, mime)
    {
      if |key| > 0 && key[0] == '/' {
        return Err(Exception("Key cannot start with a slash"));
      }
      var parsedVisibility := ParseVisibility(vis);
      if parsedVisibility.Err? {
        return Err(parsedVisibility.error);
      }
      var v := parsedVisibility.value;
      if |data| <= MaxPartSize {
        var resp := Send(SmallRequest(data, key, v, mime));
        var parsed := PutFilesParse(resp, env.raiseOnUnexpected, env.dec);
        if parsed.Err? {
          return Err(parsed.error);
        }
        if resp.status != 200 {
          return Err(Exception("Failed to upload small file"));
        }
        return Ok(SmallUpload(resp.status, parsed.value));
      }
      var large := UploadLargeFile(data, key, v, mime);
      r := if large.Ok? then Ok(LargeUpload(large.value)) else Err(large.error);
    }

    /** `get_signed_url`. */
    method GetSignedUrl(key: string) returns (r: Result<string>)
      modifies this
      ensures sent == old(sent) + [DownloadTokenRequest(key)]
      ensures r == SignedUrlOf(env, baseUrl, key, env.server(sent))
    {
      var resp := Send(DownloadTokenRequest(key));
      r := SignedUrlOf(env, baseUrl, key, resp);
    }

    /** `list_files(limit)`, reading the listing the worker sends. */
    method ListFiles(limit: int) returns (r: Result<seq<FileMetadata>>)
      modifies this
      ensures sent == old(sent) + [ListRequest(limit)]
      ensures r == ListFilesOf(env, env.server(sent))
    {
      var resp := Send(ListRequest(limit));
      r := ListFilesOf(env, resp);
    }
  }
}

/**
 * The validating dataclasses of `workers/src/api_entry.py` (`ListOptions`,
 * `FileCreateBody`, `FileCreatePartBody`, `R2UploadedPartBody`,
 * `FileCreateStartBody`), their factories and `content_validator`.
 *
 * Each dataclass annotates a field and then shadows it with a property, so
 * the property object becomes the field's default: an omitted argument still
 * reaches the setter, as a value that is neither an int, a string nor a
 * Visibility. Keyword arguments are a map; `None` in an `Option` parameter
 * means "omitted".
 */
module Validators {
  import opened Wrappers
  import opened Values
  import opened CfTypes

  /** `content_validator`: None, "" and anything shorter than two raise ValueError; `len` of a non-sized value raises TypeError. */
  function ContentValidator(content: Value): (r: Result<()>)
    ensures r.Ok? <==> Len(content).Some? && Len(content).value >= 2
    ensures r.Err? && (content == PyNone || Len(content).Some?) ==> r.error == ValueError("Content is required")
    ensures r.Err? && content != PyNone && Len(content).None? ==> r.error.TypeError?
  {
    if content == PyNone || content == PyStr("") then Err(ValueError("Content is required"))
    else match Len(content)
      case None => Err(TypeError("object has no len()"))
      case Some(n) => if n < 2 then Err(ValueError("Content is required")) else Ok(())
  }

  /** The `part` / `partNumber` setters: an int (bools included) in [0, 1000000]. */
  function CheckPartNumber(v: Value, what: string): (r: Result<int>)
    ensures r.Ok? <==> AsInt(v).Some? && 0 <= AsInt(v).value <= 1000000
    ensures r.Ok? ==> r.value == AsInt(v).value
    ensures r.Err? ==> r.error.ValueError?
  {
    match AsInt(v)
    case None => Err(ValueError(what + " must be an integer"))
    case Some(n) => if n < 0 || n > 1000000 then Err(ValueError("Invalid part number")) else Ok(n)
  }

  /** The `ListOptions.limit` setter: an int (bools included) in [1, 1000]. */
  function CheckLimit(v: Value): (r: Result<int>)
    ensures r.Ok? <==> AsInt(v).Some? && 1 <= AsInt(v).value <= 1000
    ensures r.Ok? ==> r.value == AsInt(v).value
    ensures r.Err? ==> r.error.ValueError?
  {
    match AsInt(v)
    case None => Err(ValueError("Limit must be an integer"))
    case Some(n) => if n < 1 || n > 1000 then Err(ValueError("Limit must be between 1 and 1000")) else Ok(n)
  }

  /** The `visibility` setters: `value in Visibility`, by value under Python 3.12. */
  function CheckVisibility(v: Option<Value>): (r: Result<string>)
    ensures r.Ok? <==> v.Some? && v.value.PyStr? && VisibilityOf(v.value.s).Ok?
    ensures r.Ok? ==> v.value == PyStr(r.value)
    ensures r.Err? ==> r.error == ValueError("Invalid visibility")
  {
    if v.Some? && v.value.PyStr? && VisibilityOf(v.value.s).Ok? then Ok(v.value.s)
    else Err(ValueError("Invalid visibility"))
  }

  /** The `content` setters: an omitted content is the property object, whose `len` raises TypeError. */
  function CheckContent(v: Option<Value>): (r: Result<Value>)
    ensures r.Ok? <==> v.Some? && ContentValidator(v.value).Ok?
    ensures r.Ok? ==> r.value == v.value
  {
    match v
    case None => Err(TypeError("object of type 'property' has no len()"))
    case Some(c) => var _ :- ContentValidator(c); Ok(c)
  }

  /** Keyword binding: an unexpected name or a missing required one raises TypeError. */
  function BindArguments(kw: map<string, Value>, allowed: set<string>, required: set<string>): (r: Result<()>)
    ensures r.Ok? <==> kw.Keys <= allowed && required <= kw.Keys
    ensures r.Err? ==> r.error.TypeError?
  {
    if !(kw.Keys <= allowed) then Err(TypeError("__init__() got an unexpected keyword argument"))
    else if !(required <= kw.Keys) then Err(TypeError("__init__() missing a required positional argument"))
    else Ok(())
  }

  function Arg(kw: map<string, Value>, k: string): Option<Value> {
    if k in kw then Some(kw[k]) else None
  }

  datatype ListOptions = ListOptions(limit: int, cursor: Value)

  /** `ListOptions(limit=…, cursor=…)`; `limit` None means omitted. */
  function NewListOptions(limit: Option<Value>, cursor: Value): (r: Result<ListOptions>)
    ensures r.Ok? <==> limit.Some? && CheckLimit(limit.value).Ok?
    ensures r.Ok? ==> 1 <= r.value.limit <= 1000 && r.value.cursor == cursor
    ensures r.Err? ==> r.error.ValueError?
  {
    match limit
    case None => Err(ValueError("Limit must be an integer"))
    case Some(l) => var n :- CheckLimit(l); Ok(ListOptions(n, cursor))
  }

  /** `ListOptions(limit=None, …)`, which the GET handler builds when only a cursor is given, always raises. */
  lemma ListOptionsNoneLimit(cursor: Value)
    ensures NewListOptions(Some(PyNone), cursor) == Err(ValueError("Limit must be an integer"))
  {
  }

  datatype FileCreateBody = FileCreateBody(key: Value, content: Value, visibility: string)

  /** `FileCreateBody(**kw)`: the setters run in field order, content before visibility. */
  function NewFileCreateBody(kw: map<string, Value>): (r: Result<FileCreateBody>)
    ensures r.Ok? <==> (kw.Keys <= {"key", "content", "visibility"} && "key" in kw
                        && CheckContent(Arg(kw, "content")).Ok? && CheckVisibility(Arg(kw, "visibility")).Ok?)
    ensures r.Ok? ==> (r.value.key == kw["key"] && PyStr(r.value.visibility) == kw["visibility"]
                       && r.value.content == kw["content"])
  {
    var _ :- BindArguments(kw, {"key", "content", "visibility"}, {"key"});
    var content :- CheckContent(Arg(kw, "content"));
    var visibility :- CheckVisibility(Arg(kw, "visibility"));
    Ok(FileCreateBody(kw["key"], content, visibility))
  }

  /** The text `str()` gives for the property object that stands in for an omitted `upload_id`. */
  const PropertyText: string := "<property object>"

  datatype FileCreatePartBody = FileCreatePartBody(key: Value, uploadId: string, part: int, content: Value)

  /**
   * `FileCreatePartBody(**kw)`: upload_id is stored as `str()` of whatever is
   * given, part must pass the part-number check, content the content check.
   */
  function NewFileCreatePartBody(kw: map<string, Value>): (r: Result<FileCreatePartBody>)
    ensures r.Ok? <==> (kw.Keys <= {"key", "upload_id", "part", "content"} && "key" in kw && "part" in kw
                        && CheckPartNumber(kw["part"], "Part").Ok? && CheckContent(Arg(kw, "content")).Ok?)
    ensures r.Ok? ==> (r.value.key == kw["key"] && 0 <= r.value.part <= 1000000
                       && r.value.uploadId == (if "upload_id" in kw then Str(kw["upload_id"]) else PropertyText))
  {
    var _ :- BindArguments(kw, {"key", "upload_id", "part", "content"}, {"key"});
    var uploadId := if "upload_id" in kw then Str(kw["upload_id"]) else PropertyText;
    var part :- if "part" in kw then CheckPartNumber(kw["part"], "Part") else Err(ValueError("Part must be an integer"));
    var content :- CheckContent(Arg(kw, "content"));
    Ok(FileCreatePartBody(kw["key"], uploadId, part, content))
  }

  datatype CreateBody = Whole(whole: FileCreateBody) | Part(part: FileCreatePartBody)

  /** `file_create_factory`: a body naming an upload_id is a part, any other a whole file. */
  function FileCreateFactory(body: map<string, Value>): (r: Result<CreateBody>)
    ensures r.Ok? ==> (r.value.Part? <==> "upload_id" in body)
  {
    if "upload_id" in body then var p :- NewFileCreatePartBody(body); Ok(Part(p))
    else var w :- NewFileCreateBody(body); Ok(Whole(w))
  }

  datatype UploadedPartBody = UploadedPartBody(etag: Value, partNumber: int)

  /** `R2UploadedPartBody(**kw)`: etag is required, partNumber must pass the part-number check. */
  function NewUploadedPartBody(kw: map<string, Value>): (r: Result<UploadedPartBody>)
    ensures r.Ok? <==> kw.Keys == {"etag", "partNumber"} && CheckPartNumber(kw["partNumber"], "Part number").Ok?
    ensures r.Ok? ==> r.value.etag == kw["etag"] && AsInt(kw["partNumber"]) == Some(r.value.partNumber)
    ensures "partNumber" !in kw && "etag" in kw && kw.Keys <= {"etag", "partNumber"} ==>
      r == Err(ValueError("Part number must be an integer"))
  {
    var _ :- BindArguments(kw, {"etag", "partNumber"}, {"etag"});
    var n :- if "partNumber" in kw then CheckPartNumber(kw["partNumber"], "Part number")
      else Err(ValueError("Part number must be an integer"));
    Ok(UploadedPartBody(kw["etag"], n))
  }

  datatype FileCreateStartBody = FileCreateStartBody(key: Value, visibility: string)

  /** `FileCreateStartBody(**kw)`: key is required and visibility must be one of the three values. */
  function NewFileCreateStartBody(kw: map<string, Value>): (r: Result<FileCreateStartBody>)
    ensures r.Ok? <==> kw.Keys == {"key", "visibility"} && CheckVisibility(Some(kw["visibility"])).Ok?
    ensures r.Ok? ==> r.value.key == kw["key"] && kw["visibility"] == PyStr(r.value.visibility)
    ensures "key" in kw && kw.Keys <= {"key", "visibility"} && "visibility" !in kw ==>
      r == Err(ValueError("Invalid visibility"))
  {
    var _ :- BindArguments(kw, {"key", "visibility"}, {"key"});
    var v :- CheckVisibility(Arg(kw, "visibility"));
    Ok(FileCreateStartBody(kw["key"], v))
  }

  /** `[R2UploadedPartBody(**part) for part in items]`: the first failure propagates. */
  function UploadedParts(items: seq<Value>): (r: Result<seq<UploadedPartBody>>)
    ensures r.Ok? <==> forall i :: 0 <= i < |items| ==>
      items[i].PyDict? && NewUploadedPartBody(items[i].entries).Ok?
    ensures r.Ok? ==> |r.value| == |items|
    ensures r.Ok? ==> forall i :: 0 <= i < |items| ==> r.value[i] == NewUploadedPartBody(items[i].entries).value
  {
    if items == [] then Ok([])
    else if !items[0].PyDict? then Err(TypeError("argument after ** must be a mapping"))
    else
      var first :- NewUploadedPartBody(items[0].entries);
      var rest :- UploadedParts(items[1..]);
      Ok([first] + rest)
  }

  datatype StartBody = Start(start: FileCreateStartBody) | Parts(parts: seq<UploadedPartBody>) | NoBody

  /** `file_create_start_factory`: a dict starts an upload, a list completes one, anything else gives None. */
  function FileCreateStartFactory(body: Value): (r: Result<StartBody>)
    ensures body.PyDict? && r.Ok? ==> r.value.Start?
    ensures body.PyList? && r.Ok? ==> r.value.Parts? && |r.value.parts| == |body.items|
    ensures !body.PyDict? && !body.PyList? ==> r == Ok(NoBody)
  {
    match body
    case PyDict(kw) => var s :- NewFileCreateStartBody(kw); Ok(Start(s))
    case PyList(items) => var ps :- UploadedParts(items); Ok(Parts(ps))
    case _ => Ok(NoBody)
  }
}

/**
 * `upload_file` and `make_multi_part_upload` of `workers/src/api_entry.py`:
 * what each does to the file-access table and which bucket calls it makes.
 */
module Uploads {
  import opened Wrappers
  import opened Values
  import opened CfTypes
  import opened DbOps
  import opened Validators
  import opened R2

  function Lookup(m: map<string, string>, k: string): (r: Option<string>)
    ensures r.Some? <==> k in m
    ensures r.Some? ==> r.value == m[k]
  {
    if k in m then Some(m[k]) else None
  }

  /** The upload id of a form, when it is truthy (present and not empty). */
  function FormUploadId(metadata: map<string, string>): (r: Option<string>)
    ensures r.Some? <==> "upload_id" in metadata && metadata["upload_id"] != ""
  {
    if "upload_id" in metadata && metadata["upload_id"] != "" then Some(metadata["upload_id"]) else None
  }

  /** The visibility of a form, "PRIVATE" when the form names none. */
  function FormVisibility(metadata: map<string, string>): string {
    if "visibility" in metadata then metadata["visibility"] else Visibility.Private.Name()
  }

  /** The access record a whole-file upload asks for: the form's key, owned by the uploader. */
  function UploadAccess(metadata: map<string, string>, id: string, companyId: string): FileAccess {
    FileAccess(Lookup(metadata, "key"), Some(FormVisibility(metadata)), Some(id), Some(companyId))
  }

  const NoStream: Error := AttributeError("'NoneType' object has no attribute 'stream'")

  /**
   * `upload_file`: the result (the bucket's answer and the status), the
   * tables afterwards and the bucket calls made. A form without an upload id
   * records the access first and stores the file only once that succeeded
   * (status 200); a form with one resumes the upload and sends the part
   * (status 201) without touching the tables. `file` is None when the form
   * has no "file" field.
   */
  function UploadOutcome(db: Db, id: string, companyId: string, file: Option<seq<byte>>,
                         metadata: map<string, string>, stored: Value, sent: Value)
    : (out: (Result<(Value, int)>, Db, seq<BucketCall>))
    ensures out.0.Ok? ==> out.0.value.1 == 200 || out.0.value.1 == 201
    ensures out.0.Ok? && out.0.value.1 == 200 <==>
      (FormUploadId(metadata).None? && file.Some? && InsertOutcome(db, UploadAccess(metadata, id, companyId)).0 == Ok(true))
    ensures out.0.Ok? && out.0.value.1 == 200 ==>
      (out.1 == InsertOutcome(db, UploadAccess(metadata, id, companyId)).1
       && out.2 == [Put(Lookup(metadata, "key"), file.value)]
       && out.1.files[metadata["key"]] == FileRecord(id, companyId, FormVisibility(metadata)))
    ensures out.0.Ok? && out.0.value.1 == 201 <==> (FormUploadId(metadata).Some? && file.Some?)
    ensures FormUploadId(metadata).Some? ==>
      (out.1 == db && |out.2| >= 1 && out.2[0] == ResumeMultipartUpload(Lookup(metadata, "key"), metadata["upload_id"]))
    ensures out.0.Ok? && out.0.value.1 == 201 ==> out.2[1..] == [UploadPart(Lookup(metadata, "part"), file.value)]
    ensures InsertOutcome(db, UploadAccess(metadata, id, companyId)).0 == Ok(false) && FormUploadId(metadata).None? ==>
      out == (Err(ValueError("Failed to insert file access")), db, [])
  {
    var key := Lookup(metadata, "key");
    match FormUploadId(metadata)
    case None =>
      var (inserted, db') := InsertOutcome(db, UploadAccess(metadata, id, companyId));
      if inserted.Err? then (Err(inserted.error), db', [])
      else if !inserted.value then (Err(ValueError("Failed to insert file access")), db', [])
      else if file.None? then (Err(NoStream), db', [])
      else (Ok((stored, 200)), db', [Put(key, file.value)])
    case Some(uploadId) =>
      var resumed := [ResumeMultipartUpload(key, uploadId)];
      if file.None? then (Err(NoStream), db, resumed)
      else (Ok((sent, 201)), db, resumed + [UploadPart(Lookup(metadata, "part"), file.value)])
  }

  /** A whole-file upload never stores a file without its access record: a Put follows a successful insert. */
  lemma PutOnlyAfterInsert(db: Db, id: string, companyId: string, file: Option<seq<byte>>,
                           metadata: map<string, string>, stored: Value, sent: Value)
    requires FormUploadId(metadata).None?
    ensures var out := UploadOutcome(db, id, companyId, file, metadata, stored, sent);
      out.2 != [] ==> InsertOutcome(db, UploadAccess(metadata, id, companyId)).0 == Ok(true)
  {
  }

  /**
   * The access record is written before the form's file is read: a form
   * without a "file" field still leaves a record behind, with nothing stored.
   */
  lemma RecordWithoutFile(db: Db, id: string, companyId: string, metadata: map<string, string>, stored: Value, sent: Value)
    requires FormUploadId(metadata).None?
    requires InsertOutcome(db, UploadAccess(metadata, id, companyId)).0 == Ok(true)
    ensures var out := UploadOutcome(db, id, companyId, None, metadata, stored, sent);
      out.0 == Err(NoStream) && out.2 == [] && metadata["key"] in out.1.files && metadata["key"] !in db.files
  {
  }

  /** A form without a "visibility" field records the file as PRIVATE. */
  lemma DefaultVisibilityPrivate(db: Db, id: string, companyId: string, file: seq<byte>,
                                 metadata: map<string, string>, stored: Value, sent: Value)
    requires "visibility" !in metadata
    requires UploadOutcome(db, id, companyId, Some(file), metadata, stored, sent).0.Ok?
    requires FormUploadId(metadata).None?
    ensures UploadOutcome(db, id, companyId, Some(file), metadata, stored, sent).1.files[metadata["key"]].visibility == "PRIVATE"
  {
  }

  /**
   * `make_multi_part_upload`: a start body creates an upload and touches no
   * table; a list of uploaded parts, given a usable upload id and a key,
   * resumes the upload, records the access with the query's visibility and
   * completes the upload with the body as sent. `created` and `completed` are
   * the bucket's answers.
   */
  function MultipartOutcome(db: Db, id: string, companyId: string, raw: Value, uploadId: Option<string>,
                            keyParam: Option<string>, keyVisibility: Option<string>, created: Value, completed: Value)
    : (out: (Result<Value>, Db, seq<BucketCall>))
    ensures FileCreateStartFactory(raw).Err? ==> out == (Err(FileCreateStartFactory(raw).error), db, [])
    ensures FileCreateStartFactory(raw) == Ok(NoBody) ==> out.0.Err? && out.0.error.ValueError? && out.2 == []
    ensures FileCreateStartFactory(raw).Ok? && FileCreateStartFactory(raw).value.Start? ==>
      out == (Ok(created), db, [CreateMultipartUpload(FileCreateStartFactory(raw).value.start.key)])
    ensures out.0.Ok? && raw.PyList? ==>
      (uploadId.Some? && |uploadId.value| > 1 && keyParam.Some?
       && InsertOutcome(db, FileAccess(keyParam, keyVisibility, Some(id), Some(companyId))) == (Ok(true), out.1)
       && out.1.files[keyParam.value] == FileRecord(id, companyId, keyVisibility.value)
       && out.2 == [ResumeMultipartUpload(keyParam, uploadId.value), Complete(raw)] && out.0.value == completed)
    ensures Complete(raw) in out.2 ==> out.0 == Ok(completed)
  {
    match FileCreateStartFactory(raw)
    case Err(e) => (Err(e), db, [])
    case Ok(NoBody) => (Err(ValueError("Invalid request body None")), db, [])
    case Ok(Start(s)) => (Ok(created), db, [CreateMultipartUpload(s.key)])
    case Ok(Parts(_)) =>
      if uploadId.None? || |uploadId.value| <= 1 then (Err(ValueError("Upload ID is required")), db, [])
      else if keyParam.None? then (Err(ValueError("Key is required")), db, [])
      else
        var resumed := [ResumeMultipartUpload(keyParam, uploadId.value)];
        var (inserted, db') := InsertOutcome(db, FileAccess(keyParam, keyVisibility, Some(id), Some(companyId)));
        if inserted.Err? then (Err(inserted.error), db', resumed)
        else if !inserted.value then (Err(ValueError("Failed to insert file access")), db', resumed)
        else (Ok(completed), db', resumed + [Complete(raw)])
  }

  /** Completing an upload without a visibility in the query fails before anything is recorded or completed. */
  lemma CompleteNeedsVisibility(db: Db, id: string, companyId: string, parts: seq<Value>, uploadId: string,
                                key: string, created: Value, completed: Value)
    requires UploadedParts(parts).Ok?
    requires |uploadId| > 1
    ensures MultipartOutcome(db, id, companyId, PyList(parts), Some(uploadId), Some(key), None, created, completed)
      == (Err(ValueError("File access visibility is required")), db, [ResumeMultipartUpload(Some(key), uploadId)])
  {
    assert FileCreateStartFactory(PyList(parts)) == Ok(Parts(UploadedParts(parts).value));
    InsertNeedsVisibility(db, FileAccess(Some(key), None, Some(id), Some(companyId)));
  }

  /** `insert_file_access` with a key but no visibility raises and writes nothing. */
  lemma InsertNeedsVisibility(db: Db, fa: FileAccess)
    requires fa.key.Some? && fa.visibility.None?
    ensures InsertOutcome(db, fa) == (Err(ValueError("File access visibility is required")), db)
  {
    assert MissingField(fa) == Some("visibility");
    assert "File access " + "visibility" + " is required" == "File access visibility is required";
  }

  /** Starting an upload records no access: the visibility of a start body is checked and then dropped. */
  lemma StartRecordsNothing(db: Db, id: string, companyId: string, kw: map<string, Value>, uploadId: Option<string>,
                            keyParam: Option<string>, keyVisibility: Option<string>, created: Value, completed: Value)
    requires NewFileCreateStartBody(kw).Ok?
    ensures var out := MultipartOutcome(db, id, companyId, PyDict(kw), uploadId, keyParam, keyVisibility, created, completed);
      out.0 == Ok(created) && out.1 == db
  {
  }

  /** `upload_file(employee, file, metadata, bucket, d1)`. */
  method UploadFile(employee: Employee, file: Option<seq<byte>>, metadata: map<string, string>,
                    bucket: Bucket, store: AccessStore, stored: Value, sent: Value)
    returns (r: Result<(Value, int)>)
    modifies bucket, store
    ensures var out := UploadOutcome(old(store.State()), employee.id, employee.companyId, file, metadata, stored, sent);
      r == out.0 && store.State() == out.1 && bucket.calls == old(bucket.calls) + out.2
  {
    var key := Lookup(metadata, "key");
    var uploadId := FormUploadId(metadata);
    if uploadId.None? {
      var inserted := store.InsertFileAccess(UploadAccess(metadata, employee.id, employee.companyId));
      if inserted.Err? {
        return Err(inserted.error);
      }
      if !inserted.value {
        return Err(ValueError("Failed to insert file access"));
      }
      if file.None? {
        return Err(NoStream);
      }
      var answer := bucket.Call(Put(key, file.value), stored);
      return Ok((answer, 200));
    }
    var _ := bucket.Call(ResumeMultipartUpload(key, uploadId.value), PyNone);
    if file.None? {
      return Err(NoStream);
    }
    var answer := bucket.Call(UploadPart(Lookup(metadata, "part"), file.value), sent);
    return Ok((answer, 201));
  }

  /** `make_multi_part_upload(employee, body, bucket, d1, upload_id, key_param, key_visibility)`. */
  method MakeMultiPartUpload(employee: Employee, raw: Value, bucket: Bucket, store: AccessStore,
                             uploadId: Option<string>, keyParam: Option<string>, keyVisibility: Option<string>,
                             created: Value, completed: Value)
    returns (r: Result<Value>)
    modifies bucket, store
    ensures var out := MultipartOutcome(old(store.State()), employee.id, employee.companyId, raw, uploadId,
                                        keyParam, keyVisibility, created, completed);
      r == out.0 && store.State() == out.1 && bucket.calls == old(bucket.calls) + out.2
  {
    var body := FileCreateStartFactory(raw);
    if body.Err? {
      return Err(body.error);
    }
    match body.value
    case NoBody =>
      return Err(ValueError("Invalid request body None"));
    case Start(s) =>
      var answer := bucket.Call(CreateMultipartUpload(s.key), created);
      return Ok(answer);
    case Parts(_) =>
      if uploadId.None? || |uploadId.value| <= 1 {
        return Err(ValueError("Upload ID is required"));
      }
      if keyParam.None? {
        return Err(ValueError("Key is required"));
      }
      var _ := bucket.Call(ResumeMultipartUpload(keyParam, uploadId.value), PyNone);
      var inserted := store.InsertFileAccess(FileAccess(keyParam, keyVisibility, Some(employee.id), Some(employee.companyId)));
      if inserted.Err? {
        return Err(inserted.error);
      }
      if !inserted.value {
        return Err(ValueError("Failed to insert file access"));
      }
      var answer := bucket.Call(Complete(raw), completed);
      return Ok(answer);
  }
}

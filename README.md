# R2 storage gateway — a Dafny model

This project models an object-storage gateway that sits in front of a
Cloudflare R2 bucket, together with the two generated clients that call it.
The properties below are stated as Dafny contracts and lemmas about that model.

**The worker** (`workers/src`) is a Python Cloudflare worker. It:

- authenticates employees with an HS256 JWT carried in `X-API-Key` (modules `Jwt` and `Auth`);
- registers them, and records and checks per-file visibility (PUBLIC, INTERNAL, PRIVATE) in a D1 database (`DbOps`);
- issues and redeems one-time signed download tokens in a KV namespace (`SignedUrl`);
- validates request bodies (`Validators`);
- accepts whole-file uploads, multipart start, part and complete requests (`Uploads`);
- lists and fetches objects with access filtering (`Listing`);
- routes requests by method and path (`Routing`, `UrlHandler`).

Supporting modules:

- `CfTypes` holds the enums and the `Employee` record.
- `R2` is the bucket binding, modelled as a log of the calls made on it.
- `Values`, `Strings` and `Wrappers` model the Python values, the `str` methods and the `Result`/`Option` types the rest uses.

**The Python client** (`storage_client`) is covered by three modules:

- `ClientModels`: the generated attrs models with their `to_dict`/`from_dict` pairs and additional properties;
- `ClientApi`: the generated request builders and response parsers of `src/api/default`;
- `ClientWrapper`: the hand-written `StorageClient`. Its uploader:
  - splits a file into 10 MiB parts;
  - uploads each part under two nested retry policies;
  - completes the multipart upload with the part manifest.

**The TypeScript client** (`storageClient/apis/DefaultApi.ts`) is `TsClient`: the request factories and the response processors.

State that the source changes in place is modelled as classes whose methods are proved equal to a specification function of the old state:

- the D1 tables (`DbOps.AccessStore`);
- the KV namespace (`SignedUrl.TokenStore`);
- the bucket's call log (`R2.Bucket`);
- the client's request history (`ClientWrapper.StorageClient`);
- the TypeScript `RequestContext`.

The loops of the source are methods with loop invariants, proved against a function that states what they compute:

- the listing filter;
- the part reader;
- the two retry loops;
- the part loop.

The network, the clock, uuid generation, HMAC, base64 and JSON are parameters.

Some behaviours of the code are easy to miss:

- `check_file_access` refuses an unregistered principal even for a PUBLIC file (workers/src/db_ops.py:76-106).
- The client never sorts the part manifest. `asyncio.gather` returns results in task order, so the manifest is ascending by construction (`ClientWrapper.ManifestAscending`).
- A failed part is not followed by an abort or by cancelling the other parts. The error simply propagates.

Four places in the code do not do what the code around them evidently intends (see Findings). Each is modelled twice: once as written, and once corrected. The rest of the model uses the corrected member:

- The router raises on an unknown HTTP method before its 405 branch, while workers/test_worker.py:265-267 expects 405. As written this is `Routing.RouteAsWritten`. `Routing.Route` and `Routing.OnFetch` answer 405.
- The listing keeps every object whose key has any entry in the access map, even a False one. As written this is `Listing.FilterListingAsWritten`. `Listing.GetFile` keeps only granted objects (`Listing.FilterListing`).
- The signed-URL token value is split with `split("|", 3)`, so a '|' in the file key shifts the fields. As written this is `SignedUrl.DecodeTokenValue`. `SignedUrl.TokenStore.ValidateSignedUrl` decodes with `SignedUrl.DecodeTokenValueFixed`.
- `list_files` waits for a list that the 206 parser never returns. As written this is `ClientWrapper.ListFilesAsWritten`. `ClientWrapper.StorageClient.ListFiles` reads the "objects" list of the worker's reply (`ClientWrapper.ListFilesOf`).

## Model

| member | source | states |
|---|---|---|
| CfTypes.PermissionLevel.Value | workers/src/cf_types.py:62-65 | the IntEnum value of each permission level lies between 1 and 3 |
| CfTypes.PermissionLevelOrder | workers/src/cf_types.py:62-65 | READ < WRITE < ADMIN, and no two levels share a value |
| CfTypes.LevelOf | workers/src/cf_types.py:91-95 | a value is a permission level exactly when it is int-like and between 1 and 3, and the member found has that value |
| CfTypes.Visibility.Name | workers/src/cf_types.py:71-74 | each visibility's value is one of "PUBLIC", "INTERNAL" or "PRIVATE" |
| CfTypes.VisibilityOf | workers/src/cf_types.py:71-74 | `Visibility(s)` succeeds exactly on the three names and returns the member with that name; otherwise ValueError |
| CfTypes.VisibilityRoundTrip | workers/src/cf_types.py:71-74 | a visibility parsed back from its name is itself |
| CfTypes.ParseMethod | workers/src/cf_types.py:108-113 | `Method(s)` succeeds exactly on the five method names, GET only for "GET" and OPTIONS only for "OPTIONS"; otherwise ValueError |
| CfTypes.Employee.Make | workers/src/cf_types.py:77-85 | a new employee holds the id, company id and level it was given |
| CfTypes.Employee.New | workers/src/cf_types.py:77-95 | building an employee succeeds exactly when the level argument is present and a permission level; otherwise ValueError("Invalid permission level"); the new employee holds the given ids and level |
| CfTypes.Employee.SetPermissionLevel | workers/src/cf_types.py:91-95 | the setter accepts exactly the permission levels and stores them; on ValueError the level is unchanged; the ids never change |
| Auth.Claim | workers/src/api_entry.py:147-152 | `payload[k]` succeeds exactly when the payload is a dict holding k |
| Auth.FromTimestamp | workers/src/api_entry.py:149 | `datetime.fromtimestamp` converts exactly the seconds of the years 1 to 9999 and returns them unchanged; outside them it raises ValueError within a 64-bit `time_t` and OverflowError beyond it |
| Auth.CheckClaims | workers/src/api_entry.py:147-153 | a payload passes only when its keys are exactly id, company_id, exp and permission_level; exp is a number that `fromtimestamp` converts (years 1 to 9999) and that is later than now; and id, company_id and the level are not None. The result carries those claims. Failures are TypeError, KeyError, AssertionError, or ValueError and OverflowError for an exp out of range |
| Auth.ExpiredRefused | workers/src/api_entry.py:149 | a token whose exp is at or before now, and within the years `fromtimestamp` converts, is refused with AssertionError |
| Auth.FarFutureRefused | workers/src/api_entry.py:149 | an exp past 9999-12-31 is refused before it is compared with now: ValueError("year is out of range") within `time_t`, which the router answers with 401, and OverflowError beyond it, which the router answers with 500 |
| Auth.ExpiryOnlyHere | workers/src/jwt.py:8-35 | a well-signed expired token decodes, and only the claim check of authenticate_employee refuses it |
| Auth.ExtraClaimRefused | workers/src/api_entry.py:151-153 | a payload with any claim besides the four is refused |
| Auth.Authenticate | workers/src/api_entry.py:145-154 | authentication succeeds exactly when the token decodes, the claims pass and the level is a member; decode errors and claim errors pass through unchanged; the result is the claimed id, company id and level |
| Auth.AuthenticateEmployee | workers/src/api_entry.py:145-154 | the method fails exactly when `Authenticate` does, with the same error, and otherwise returns a fresh employee holding the authenticated fields |
| Jwt.DecodeJwt | workers/src/jwt.py:8-25 | a token decodes only when it has exactly three '.'-separated segments, its payload segment decodes and parses to the result, and its signature segment decodes to the HMAC of the first two segments; every failure is a ValueError |
| Jwt.EncodeJwt | workers/src/jwt.py:28-35 | encoding succeeds exactly on JSON-serializable payloads, else TypeError |
| Jwt.EncodeShape | workers/src/jwt.py:28-35 | an encoded token has exactly three segments and no '=' padding |
| Jwt.RoundTrip | workers/src/jwt.py:8-35 | `decode_jwt(encode_jwt(payload, secret), secret) == payload` for every JSON payload |
| Jwt.AcceptsAnyHeader | workers/src/jwt.py:10-21 | the header segment is never checked: any header without '.' is accepted once the signature covers it |
| Jwt.WrongSecretRefused | workers/src/jwt.py:14-23 | a token signed with another secret is refused whenever the two HMACs differ |
| DbOps.DoesEmployeeExist | workers/src/db_ops.py:9-15 | an employee exists exactly when the employees table holds a row with this id and company id |
| DbOps.GetEmployee | workers/src/db_ops.py:18-25 | the row is returned exactly when an employee with this id and company id exists, with its stored level; otherwise ValueError("Employee not found") |
| DbOps.OwnerGranted | workers/src/db_ops.py:87-100 | the owner of a record with one of the three visibilities is always granted |
| DbOps.TiersNested | workers/src/db_ops.py:87-100 | PUBLIC grants anyone, and whoever PRIVATE grants INTERNAL grants too, and whoever INTERNAL grants PUBLIC grants too |
| DbOps.UnknownVisibilityDenies | workers/src/db_ops.py:87-100 | a visibility string other than the three grants nobody, not even the owner |
| DbOps.RegisterOutcome | workers/src/db_ops.py:28-47 | an empty id or company id raises ValueError and writes nothing; otherwise the result is True and the employee exists afterwards; files and existing employees are untouched, and at most this one row is added |
| DbOps.RegisterIdempotent | workers/src/db_ops.py:28-47 | a second registration of the same employee returns True and writes nothing |
| DbOps.MissingField | workers/src/db_ops.py:51-54 | a field is reported missing exactly when one of the four is None |
| DbOps.InsertOutcome | workers/src/db_ops.py:50-73 | a None field raises ValueError naming it; the result is True exactly when no field is None, the owner is registered and the key has no record, and then exactly that record is added; every other outcome writes nothing, and employees are never written |
| DbOps.EmptyStringsPassValidation | workers/src/db_ops.py:51-54 | a record whose fields are all strings, empty ones included, passes validation |
| DbOps.InsertUnregistered | workers/src/db_ops.py:55-56 | an unregistered owner gets False and nothing is written |
| DbOps.InsertTwice | workers/src/db_ops.py:57-72 | a second insert for the same key raises ValueError("File access already exists") and writes nothing |
| DbOps.CheckFileAccess | workers/src/db_ops.py:76-106 | ValueError exactly for an empty file name, id or company id; True exactly when the principal is registered, the key has a record and the CASE predicate grants it |
| DbOps.CheckMultipleFileAccess | workers/src/db_ops.py:113-138 | ValueError exactly for an empty name list or principal field; an unregistered principal gets every requested name mapped to False; otherwise exactly the requested names with a record, each mapped to the CASE predicate |
| DbOps.BatchAgreesWithSingle | workers/src/db_ops.py:76-138 | the batch answer for a name equals the single answer, and a name the batch leaves out is one the single query refuses |
| DbOps.AccessStore.constructor | workers/src/db_ops.py:9-147 | the store starts with both tables empty |
| DbOps.AccessStore.CheckAndInsertEmployee | workers/src/db_ops.py:28-47 | the result and the new tables are those of `RegisterOutcome` on the old tables |
| DbOps.AccessStore.InsertFileAccess | workers/src/db_ops.py:50-73 | the result and the new tables are those of `InsertOutcome` on the old tables |
| SignedUrl.EncodeTokenValue | workers/src/api_entry.py:63 | the stored value is never empty |
| SignedUrl.DecodeTokenValue | workers/src/api_entry.py:76 | as written: unpacking succeeds exactly when `split("\|", 3)` yields four parts, else ValueError |
| SignedUrl.DecodeEncode | workers/src/api_entry.py:63-76 | when the file key and employee id hold no '\|', decoding recovers the four encoded fields and the expiration reads back as the same integer |
| SignedUrl.PipeBreaksDecode | workers/src/api_entry.py:63-76 | as written: with a '\|' in the file key or the employee id, decoding never recovers the encoded fields |
| SignedUrl.PipeInKeyExample | workers/src/api_entry.py:63-76 | as written: key "a\|b" for employee "e" of company "c" decodes as key "a", employee "b", company "e\|c" |
| SignedUrl.DecodeTokenValueFixed | workers/src/api_entry.py:76 | corrected: the expiration and the two ids never hold '\|'; failures are ValueError |
| SignedUrl.DecodeFixedSplits | workers/src/api_entry.py:76 | corrected: the decoded fields joined with '\|' are the stored value |
| SignedUrl.DecodeEncodeFixed | workers/src/api_entry.py:63-76 | corrected: any file key, '\|' included, survives the round trip when the ids hold no '\|' |
| SignedUrl.RedeemOutcome | workers/src/api_entry.py:71-84 | with the correction: a missing or empty value gives None and leaves the store alone; every error is a ValueError and leaves the token in place; any change to the store deletes exactly this token; a successful redemption deletes the token and names a registered employee |
| SignedUrl.RedeemValue | workers/src/api_entry.py:76-84 | once a non-empty value is read, every decode, lookup or `int()` failure is a ValueError and keeps the token; every result, expired or not, deletes it; a served result names a registered employee |
| SignedUrl.IssueThenRedeem | workers/src/api_entry.py:58-84 | a token issued at t redeems to its key and employee at any time up to and including t + 300 and to None afterwards, and either way it is deleted |
| SignedUrl.RedeemEncoded | workers/src/api_entry.py:58-84 | a value stored by the issuer for a registered employee redeems by its expiration alone: to the key and the employee up to and including it, to None after it, and it is consumed either way |
| SignedUrl.RedeemOnce | workers/src/api_entry.py:83-84 | tokens are one-time: after a successful redemption the same token gives None and changes nothing |
| SignedUrl.TokenStore.constructor | workers/src/api_entry.py:58-84 | the KV namespace starts empty |
| SignedUrl.TokenStore.GenerateSignedUrlToken | workers/src/api_entry.py:58-68 | the token is returned and the store maps it to "expiration\|file_key\|employee_id\|company_id" with expiration = now + lifetime; the read-back check never fails |
| SignedUrl.TokenStore.ValidateSignedUrl | workers/src/api_entry.py:71-84 | the result and the new store are those of `RedeemOutcome` on the old store |
| UrlHandler.SanitizeString | workers/src/url_handler.py:16-17 | the result holds no space and neither starts nor ends with '/' (the same function is repeated at workers/src/api_entry.py:195-196) |
| UrlHandler.SanitizeIdempotent | workers/src/url_handler.py:16-17 | sanitizing twice gives the same as sanitizing once |
| UrlHandler.FirstValues | workers/src/url_handler.py:24-26 | `parse_qs` drops blank values, so no kept value is empty |
| UrlHandler.FirstValueKept | workers/src/url_handler.py:24-26 | the first non-blank value given for a name is the one kept (`v[0]`) |
| UrlHandler.BlankOnlyAbsent | workers/src/url_handler.py:24-26 | a name that only ever has blank values is absent |
| UrlHandler.QueryParams | workers/src/url_handler.py:24-26 | the parameters are exactly the names `parse_qs` keeps, each with its first value unquoted and sanitized |
| UrlHandler.Classify | workers/src/url_handler.py:27-34 | the path becomes "download", "download_token" or stays as it is, and only `file_name` may be added or overwritten; every other parameter is unchanged |
| UrlHandler.GetUrlPathAndParams | workers/src/url_handler.py:20-35 | the path neither starts nor ends with '/'; every parameter but `file_name` is the sanitized first value of its query name, and every query name is kept |
| UrlHandler.ClassifyToken | workers/src/url_handler.py:27-30 | "download/m/token" yields "download_token" with file_name m, overriding any query parameter of that name |
| UrlHandler.ClassifyDownload | workers/src/url_handler.py:31-34 | any other "download/rest" path yields "download" with file_name rest, unsanitized |
| UrlHandler.ClassifyOther | workers/src/url_handler.py:23-35 | a path outside "download/" is returned with the parameters untouched |
| UrlHandler.EntryGetUrlPathAndParams | workers/src/api_entry.py:199-213 | the copy in api_entry.py answers "download" or the stripped path, never "download_token" |
| UrlHandler.CopiesDiffer | workers/src/api_entry.py:205-208 | the two copies agree except that the token route is named "download" in api_entry.py |
| Validators.ContentValidator | workers/src/api_entry.py:269-271 | content passes exactly when it has a length of at least 2; None, "" and short values raise ValueError("Content is required"), and a value without a length raises TypeError |
| Validators.CheckPartNumber | workers/src/api_entry.py:329-335 | part and partNumber are accepted exactly when they are integers in [0, 1000000], and are stored unchanged; otherwise ValueError |
| Validators.CheckLimit | workers/src/api_entry.py:186-192 | a list limit is accepted exactly when it is an integer in [1, 1000]; otherwise ValueError |
| Validators.CheckVisibility | workers/src/api_entry.py:286-290 | a visibility is accepted exactly when it is one of the three strings, and is stored unchanged; otherwise ValueError("Invalid visibility") |
| Validators.CheckContent | workers/src/api_entry.py:296-299 | the content setter accepts exactly a given value that passes `content_validator` |
| Validators.BindArguments | workers/src/api_entry.py:274-280 | keyword binding succeeds exactly when no unexpected name is given and every required one is; otherwise TypeError |
| Validators.NewListOptions | workers/src/api_entry.py:176-192 | `ListOptions` is built exactly when the limit is given and passes the check; the result has a limit in [1, 1000] and the given cursor |
| Validators.ListOptionsNoneLimit | workers/src/api_entry.py:176-192 | `ListOptions(limit=None, cursor=c)`, which the GET handler builds when only a cursor is given, always raises ValueError |
| Validators.NewFileCreateBody | workers/src/api_entry.py:274-299 | `FileCreateBody(**kw)` succeeds exactly when only key, content and visibility are passed, the key is given, the content passes and the visibility is one of the three; the fields are the arguments |
| Validators.NewFileCreatePartBody | workers/src/api_entry.py:302-342 | `FileCreatePartBody(**kw)` succeeds exactly when only its four names are passed, the key is given, part is an integer in [0, 1000000] and the content passes; upload_id is stored as `str()` of what was passed |
| Validators.FileCreateFactory | workers/src/api_entry.py:345-348 | a body is built as a part exactly when it names an upload_id |
| Validators.NewUploadedPartBody | workers/src/api_entry.py:351-371 | `R2UploadedPartBody(**kw)` succeeds exactly when etag and partNumber are both given and partNumber is an integer in [0, 1000000]; a missing partNumber raises ValueError |
| Validators.NewFileCreateStartBody | workers/src/api_entry.py:411-425 | `FileCreateStartBody(**kw)` succeeds exactly when key and visibility are both given and the visibility is one of the three; a missing visibility raises ValueError("Invalid visibility") |
| Validators.UploadedParts | workers/src/api_entry.py:440 | the list of parts is built exactly when every item is a dict that builds a part; the result has one part per item, in order |
| Validators.FileCreateStartFactory | workers/src/api_entry.py:434-440 | a dict yields a start body, a list yields as many parts as items, and anything else yields None |
| R2.Bucket.constructor | workers/src/cf_types.py:341-361 | a bucket binding starts with no calls made |
| R2.Bucket.Call | workers/src/cf_types.py:341-361 | each call on the binding is appended to the call log, and the bucket's answer is returned |
| Uploads.Lookup | workers/src/api_entry.py:381 | `metadata.get(k)` is present exactly when the form has the field, and is its value |
| Uploads.UploadAccess | workers/src/api_entry.py:381-392 | the access record a whole-file upload inserts: the form's key, the form's visibility or PRIVATE by default, owned by the uploader |
| Uploads.FormUploadId | workers/src/api_entry.py:383-397 | a form names an upload exactly when its upload_id is present and not empty |
| Uploads.UploadOutcome | workers/src/api_entry.py:374-408 | status 200 exactly when the form has no upload id, has a file and the access record (visibility defaulting to "PRIVATE") is inserted; the table then holds that record and the only bucket call is the put; status 201 exactly when the form has an upload id and a file; then the tables are untouched and the calls are resume and then uploadPart; a failed insert raises ValueError with no bucket call |
| Uploads.PutOnlyAfterInsert | workers/src/api_entry.py:384-395 | a whole-file upload makes a bucket call only after a successful access insert |
| Uploads.RecordWithoutFile | workers/src/api_entry.py:384-395 | the record is written before the file is read: a form without a file leaves a new record and stores nothing |
| Uploads.DefaultVisibilityPrivate | workers/src/api_entry.py:382 | a form without a visibility records the file as PRIVATE |
| Uploads.MultipartOutcome | workers/src/api_entry.py:443-485 | a body that fails validation raises its error with no effect; a body that is neither a dict nor a list raises ValueError; a start body creates exactly one upload and records nothing; a completion succeeds only with an upload id longer than one character and a key, after inserting the owner's access record with the query's visibility, with the calls resume and then complete with the body as sent; complete is called only on success |
| Uploads.CompleteNeedsVisibility | workers/src/api_entry.py:462-481 | completing without a visibility in the query raises ValueError from the insert, after the resume and before anything is recorded or completed |
| Uploads.InsertNeedsVisibility | workers/src/db_ops.py:50-55 | `insert_file_access` with a key but no visibility raises ValueError("File access visibility is required") and writes nothing |
| Uploads.StartRecordsNothing | workers/src/api_entry.py:457-460 | starting an upload returns the created upload and leaves the tables unchanged |
| Uploads.UploadFile | workers/src/api_entry.py:374-408 | the result, the new tables and the calls appended to the bucket are those of `UploadOutcome` |
| Uploads.MakeMultiPartUpload | workers/src/api_entry.py:443-485 | the result, the new tables and the calls appended to the bucket are those of `MultipartOutcome` |
| Listing.Keys | workers/src/api_entry.py:239 | `[obj.key for obj in objects]`: one key per object, in order |
| Listing.FirstAtLeast | workers/src/api_entry.py:246-249 | `next(...)` finds a listed object whose key is not below the name, or None when every key is below it |
| Listing.ListFilterAsWritten | workers/src/api_entry.py:241-250 | as written: the filtered listing is never longer than the listing |
| Listing.FilterListingAsWritten | workers/src/api_entry.py:241-250 | as written: the loop builds exactly `ListFilterAsWritten` of the listing |
| Listing.ListFilter | workers/src/api_entry.py:241-250 | corrected: an object is kept exactly when it is listed and the access map grants its key |
| Listing.FilterListing | workers/src/api_entry.py:241-250 | corrected: the loop with the corrected test builds exactly `ListFilter` of the listing |
| Listing.FirstAtLeastIsSelf | workers/src/api_entry.py:246-249 | in a strictly ascending listing, the object found for a listed key is that object itself |
| Listing.WithEntry | workers/src/api_entry.py:245 | the objects kept are exactly those whose key has an entry in the access map |
| Listing.AsWrittenKeepsEveryEntry | workers/src/api_entry.py:241-250 | as written, on an ascending listing: the filter keeps exactly the objects with an entry in the access map, whatever the entry says |
| Listing.GetFile | workers/src/api_entry.py:216-266 | with the correction: without options a key is fetched with no access check; an empty listing raises FileNotFoundError; a listing keeps exactly the listed objects the caller may read; with get options the result is the fetched object with a body, and only after the single access check granted the key; a refused key raises PermissionError("File access denied") |
| Listing.KeyListed | workers/src/api_entry.py:238-240 | every listed object's key is among the keys checked |
| Listing.MayReadIsCheck | workers/src/db_ops.py:76-106 | for non-empty arguments, the access used by the listing is what `check_file_access` answers |
| Listing.ListedGranted | workers/src/api_entry.py:238-240 | the batch answer grants a listed key exactly when the caller may read it |
| Listing.DeniedObjectListed | workers/src/api_entry.py:241-250 | as written: a registered employee is listed a PRIVATE file of a colleague that the single check refuses; the corrected filter drops it |
| Listing.UnregisteredListsAll | workers/src/api_entry.py:238-250 | as written: an unregistered caller's access map names every key, so the whole listing is returned, where the corrected filter returns nothing |
| Routing.Route | workers/src/api_entry.py:511-704 | with the correction: every answer carries one of the router's statuses, and a request only adds rows and bucket calls, never changing or removing what was there |
| Routing.RouteMethod | workers/src/api_entry.py:554-704 | the method dispatch answers with a known status, only grows the world, answers 405 only with "Method not allowed", and the download route never writes the tables or the bucket |
| Routing.GetDownload | workers/src/api_entry.py:556-612 | the download route answers 200, 400, 404 or 500 and changes only the signed-URL namespace |
| Routing.GetFiles | workers/src/api_entry.py:613-655 | GET files answers only with the handler statuses (no params and no usable option give 400) |
| Routing.Fetch | workers/src/api_entry.py:632-655 | 403 arises only for a ranged or conditional get, and 200 only for an object with a body, streamed |
| Routing.Post | workers/src/api_entry.py:656-677 | POST files answers with a handler status, never touches the signed-URL namespace, and only adds rows and calls |
| Routing.Put | workers/src/api_entry.py:678-696 | PUT files answers with a handler status, never touches the signed-URL namespace, only adds rows and calls, and succeeds only when the declared content-length is at most 100 MiB |
| Routing.RouteAsWritten | workers/src/api_entry.py:511-512 | as written: a known method is routed exactly as `Route` routes it, and an unknown one raises at the first line |
| Routing.InvalidMethodUnreachable | workers/src/api_entry.py:522-526 | as written: the 405 "Invalid method" answer is never given |
| Routing.UnknownMethodAnswered | workers/src/api_entry.py:511-526 | a PATCH from a caller with a key raises uncaught as written, and is answered 405 "Invalid method" with the correction |
| Routing.PreflightAnswered | workers/src/api_entry.py:513-514 | OPTIONS is answered 204 first, whatever the request carries, and changes nothing |
| Routing.MissingKeyRefused | workers/src/api_entry.py:515-521 | without an X-API-Key, any request but a token download gets 401, before the path is looked at |
| Routing.TokenDownloadTouchesOnlyKv | workers/src/api_entry.py:516-596 | a token download registers nobody and never writes the tables or the bucket |
| Routing.IssueThenDownload | workers/src/api_entry.py:556-608 | a token issued to a registered employee for a key is answered 200; redeemed within 300 seconds, it serves that key, whatever the employee's access to it, and the token is then gone |
| Routing.IssuedToken | workers/src/api_entry.py:597-608 | issuing stores the encoded value under the fresh token and answers 200 with it |
| Routing.RedeemedDownload | workers/src/api_entry.py:561-594 | redeeming a live token for the requested key serves the object and deletes the token |
| Routing.DeniedRangeForbidden | workers/src/api_entry.py:640-643 | a ranged get of a key the caller may not read is answered 403 "File access denied" |
| Routing.OversizedPutRefused | workers/src/api_entry.py:682-694 | a declared size over 100 MiB gets 400 "File size too large" before the form is read or anything is written |
| Routing.CursorWithoutLimitUncaught | workers/src/api_entry.py:616-627 | GET files with only a cursor builds `ListOptions(limit=None)`, which raises outside any handler |
| Routing.RouteAuthenticated | workers/src/api_entry.py:530-553 | a request with an X-API-Key answers with a known status and only grows the world; a failed authentication answers 401 or 500 with nothing written; the answer is never the 405 "Invalid method" |
| Routing.AuthenticateAndDispatch | workers/src/api_entry.py:530-553 | performed on the stores, authentication, registration and dispatch give the outcome of `RouteAuthenticated` |
| Routing.OnFetch | workers/src/api_entry.py:511-553 | performed on the stores, the answer and the new tables, namespace and call log are those of `Route` |
| Routing.Dispatch | workers/src/api_entry.py:554-704 | performed on the stores, the method dispatch gives the outcome of `RouteMethod` |
| Routing.HandleGetDownload | workers/src/api_entry.py:556-612 | performed on the namespace, the download route gives the outcome of `GetDownload` |
| Routing.HandlePost | workers/src/api_entry.py:656-677 | performed on the tables and the bucket, POST gives the outcome of `Post` |
| Routing.HandlePut | workers/src/api_entry.py:678-696 | performed on the tables and the bucket, PUT gives the outcome of `Put` |
| ClientModels.Overlay | storage_client/src/models/r2_uploaded_part_body.py:26-33 | the declared fields win over same-named additional properties, and every other additional property is kept |
| ClientModels.SetIf | storage_client/src/models/file_create_start_body.py:38-39 | an UNSET field leaves the dictionary unchanged, and a set one adds exactly its entry |
| ClientModels.Pop | storage_client/src/models/r2_uploaded_part_body.py:39-42 | `d.pop(k)` gives the value and the rest exactly when k is present, else KeyError(k) |
| ClientModels.PopOr | storage_client/src/models/file_create_start_body.py:48 | `d.pop(k, UNSET)` gives the value and the rest when k is present, else UNSET and the dictionary unchanged |
| ClientModels.ClientVisibility | storage_client/src/models/visibility.py:4-10 | `Visibility(v)` succeeds exactly on the three strings and gives the member with that value; otherwise ValueError |
| ClientModels.ClientVisibilityRoundTrip | storage_client/src/models/visibility.py:4-10 | a visibility read back from its string value is itself |
| ClientModels.VisibilityField | storage_client/src/models/file_create_start_body.py:27-29 | an optional visibility is written exactly when it is set, as its string value |
| ClientModels.ReadVisibility | storage_client/src/models/file_create_start_body.py:48-53 | an absent visibility reads as UNSET; a present one reads as `Visibility(v)` and fails with ValueError outside the three values |
| ClientModels.ReadVisibilityField | storage_client/src/models/file_create_start_body.py:24-53 | an optional visibility written and read back is unchanged |
| ClientModels.ToTuple | storage_client/src/models/put_files_body.py:32 | `to_tuple()` is a triple carrying the payload in the middle |
| ClientModels.FileOfPayload | storage_client/src/models/put_files_body.py:98 | `File(payload=BytesIO(v))` succeeds exactly on bytes (and None, as an empty payload), else TypeError |
| ClientModels.TupleIsNoPayload | storage_client/src/models/put_files_body.py:32-98 | the tuple `to_dict` writes for a file is rejected by BytesIO with TypeError |
| ClientModels.R2UploadedPartBodyToDict | storage_client/src/models/r2_uploaded_part_body.py:21-35 | `to_dict` has exactly the additional keys plus "etag" and "partNumber", the declared values under those two, and every other additional property |
| ClientModels.R2UploadedPartBodyFromDict | storage_client/src/models/r2_uploaded_part_body.py:37-50 | `from_dict` succeeds exactly when "etag" and "partNumber" are present, else KeyError for the first one missing; the leftover keys become the additional properties |
| ClientModels.R2UploadedPartBodyRoundTrip | storage_client/src/models/r2_uploaded_part_body.py:21-50 | `from_dict(to_dict(x)) == x` when no additional key is "etag" or "partNumber" |
| ClientModels.R2UploadedPartBodyDictRoundTrip | storage_client/src/models/r2_uploaded_part_body.py:21-50 | `to_dict(from_dict(d)) == d` whenever d has both keys |
| ClientModels.R2MultipartUploadResponseToDict | storage_client/src/models/r2_multipart_upload_response.py:21-35 | `to_dict` has exactly the additional keys plus "key" and "uploadId", the declared values under those two, and every other additional property |
| ClientModels.R2MultipartUploadResponseFromDict | storage_client/src/models/r2_multipart_upload_response.py:37-50 | `from_dict` succeeds exactly when "key" and "uploadId" are present, else KeyError for the first one missing; the leftover keys become the additional properties |
| ClientModels.R2MultipartUploadResponseRoundTrip | storage_client/src/models/r2_multipart_upload_response.py:21-50 | `from_dict(to_dict(x)) == x` when no additional key is "key" or "uploadId" |
| ClientModels.R2MultipartUploadResponseDictRoundTrip | storage_client/src/models/r2_multipart_upload_response.py:21-50 | `to_dict(from_dict(d)) == d` whenever d has both keys |
| ClientModels.FileCreateStartBodyToDict | storage_client/src/models/file_create_start_body.py:24-41 | `to_dict` always has "key" and has "visibility", as its string value, exactly when it is set; the declared fields win over additional properties |
| ClientModels.FileCreateStartBodyFromDict | storage_client/src/models/file_create_start_body.py:43-61 | `from_dict` raises KeyError without "key" and ValueError for a visibility outside the three; an absent visibility becomes UNSET; the leftover keys become the additional properties |
| ClientModels.FileCreateStartBodyRoundTrip | storage_client/src/models/file_create_start_body.py:24-61 | `from_dict(to_dict(x)) == x` when no additional key is "key" or "visibility" |
| ClientModels.FileCreateStartBodyDictRoundTrip | storage_client/src/models/file_create_start_body.py:24-61 | `to_dict(from_dict(d)) == d` whenever `from_dict` accepts d |
| ClientModels.R2ObjectToDict | storage_client/src/models/r2_object.py:31-58 | `to_dict` writes exactly the set fields (http_etag as "httpEtag", uploaded through isoformat) over the additional properties, and omits UNSET ones |
| ClientModels.FieldOf | storage_client/src/models/r2_object.py:62-69 | `d.pop(k, UNSET)` is set exactly when k is present, with its value |
| ClientModels.R2ObjectFromDict | storage_client/src/models/r2_object.py:60-87 | `from_dict` fails only when a present "uploaded" does not parse; each field is its value or UNSET; the leftover keys become the additional properties |
| ClientModels.R2ObjectAcceptsMissingKeys | storage_client/src/models/r2_object.py:61-76 | `from_dict` never raises for a missing key |
| ClientModels.R2ObjectRoundTrip | storage_client/src/models/r2_object.py:31-87 | `from_dict(to_dict(x)) == x` when iso formatting round-trips and no additional key is a declared name |
| ClientModels.R2ObjectDictRoundTrip | storage_client/src/models/r2_object.py:31-87 | `to_dict(from_dict(d)) == d` when `from_dict` accepts d and its ISO text is canonical |
| ClientModels.PutFilesBodyToDict | storage_client/src/models/put_files_body.py:31-59 | `to_dict` always has "file" (its tuple) and "key", and has upload_id, part and visibility exactly when they are set; the declared fields win over additional properties |
| ClientModels.PutFilesBodyToMultipart | storage_client/src/models/put_files_body.py:61-93 | `to_multipart` has the same names; the file is its tuple and every other field, additional properties included, is sent as text |
| ClientModels.PutFilesBodyEncodersAgree | storage_client/src/models/put_files_body.py:31-93 | the two encoders have the same names, and each non-file entry of `to_multipart` is the text of the `to_dict` entry |
| ClientModels.PutFilesBodyFromDict | storage_client/src/models/put_files_body.py:95-122 | `from_dict` raises KeyError without "file" or "key", TypeError for a file BytesIO rejects, and ValueError for a bad visibility; missing optional fields become UNSET; the leftover keys become the additional properties |
| ClientModels.PutFilesBodyNotInverse | storage_client/src/models/put_files_body.py:32-98 | `from_dict(to_dict(x))` always raises TypeError, because the file comes back as a tuple |
| ClientModels.PutFilesBodyDictRoundTrip | storage_client/src/models/put_files_body.py:31-122 | `to_dict(from_dict(d))` is d with the file replaced by the tuple of its payload |
| ClientModels.FileCreateBodyToDict | storage_client/src/models/file_create_body.py:27-47 | `to_dict` always has "key" and "content" (its tuple), and has "visibility" exactly when it is set; the declared fields win over additional properties |
| ClientModels.FileCreateBodyFromDict | storage_client/src/models/file_create_body.py:49-70 | `from_dict` raises KeyError without "key" or "content" and wraps the content in BytesIO; an absent visibility becomes UNSET, a present one `Visibility(v)`; the leftover keys become the additional properties |
| ClientModels.FileCreateBodyNotInverse | storage_client/src/models/file_create_body.py:30-54 | `from_dict(to_dict(x))` always raises TypeError on the content |
| ClientModels.FileCreateBodyDictRoundTrip | storage_client/src/models/file_create_body.py:27-70 | `to_dict(from_dict(d))` is d with the content replaced by the tuple of its payload |
| ClientModels.FileCreatePartBodyToDict | storage_client/src/models/file_create_part_body.py:28-48 | `to_dict` always has key, upload_id, part and content, and they win over additional properties |
| ClientModels.FileCreatePartBodyFromDict | storage_client/src/models/file_create_part_body.py:50-69 | `from_dict` raises KeyError for the first of key, upload_id, part and content that is missing; part is taken with no check |
| ClientModels.FileCreatePartBodyDictRoundTrip | storage_client/src/models/file_create_part_body.py:28-69 | `to_dict(from_dict(d))` is d with the content replaced by the tuple of its payload |
| ClientModels.Model.constructor | storage_client/src/models/r2_uploaded_part_body.py:37-50 | a live model holds the fields and additional properties it was built from |
| ClientModels.Model.AdditionalKeys | storage_client/src/models/r2_uploaded_part_body.py:52-54 | the additional keys are exactly the names `in` reports |
| ClientModels.Model.GetItem | storage_client/src/models/r2_uploaded_part_body.py:56-57 | `obj[k]` is the additional property k, or KeyError |
| ClientModels.Model.SetItem | storage_client/src/models/r2_uploaded_part_body.py:59-60 | `obj[k] = v` sets only the additional property; the declared fields are unchanged |
| ClientModels.Model.DelItem | storage_client/src/models/r2_uploaded_part_body.py:62-63 | `del obj[k]` removes only the additional property, or raises KeyError and changes nothing; the declared fields are unchanged |
| ClientModels.SetItemCannotShadowField | storage_client/src/models/r2_uploaded_part_body.py:26-60 | setting an item named "etag" does not change what `to_dict` writes under "etag" |
| ClientApi.SetParams | storage_client/src/api/default/post_files.py:37 | a parameter is sent exactly when it is neither UNSET nor None, with its value |
| ClientApi.Unexpected | storage_client/src/api/default/post_files.py:90-93 | an undocumented status raises UnexpectedStatus exactly when `raise_on_unexpected_status` is set, and otherwise gives None |
| ClientApi.AsDict | storage_client/src/api/default/put_files.py:36-38 | `from_dict` gets a dictionary exactly from a JSON object; a list fails with TypeError |
| ClientApi.PartsJson | storage_client/src/api/default/post_files.py:49-52 | the list body has one entry per part, each part's `to_dict`, in the same order |
| ClientApi.SerializeParts | storage_client/src/api/default/post_files.py:49-52 | the loop builds exactly `PartsJson` of the parts |
| ClientApi.PostBodyJson | storage_client/src/api/default/post_files.py:45-52 | a start body is sent as its `to_dict`, a list as the parts' `to_dict` in order |
| ClientApi.PostFilesRequest | storage_client/src/api/default/post_files.py:16-58 | the request is POST /files with Content-Type application/json and the body's JSON; upload_id and key are sent exactly when neither UNSET nor None, visibility exactly when set, as its string value, and nothing else |
| ClientApi.PostFilesKwargs | storage_client/src/api/default/post_files.py:16-58 | `_get_kwargs`, with its list-body loop, builds exactly `PostFilesRequest` |
| ClientApi.PostFilesParse | storage_client/src/api/default/post_files.py:61-93 | 200 with a non-dict body raises TypeError, and otherwise gives an upload response or an R2Object; 400 and 401 give None; any other status is `Unexpected` |
| ClientApi.PostFilesOkShape | storage_client/src/api/default/post_files.py:64-83 | on 200 the result is an upload response exactly when the JSON has "key" and "uploadId", and it carries that upload id |
| ClientApi.GetFilesRequest | storage_client/src/api/default/get_files.py:14-42 | the request is GET /files with no body and no headers; each of key, limit, cursor, range (range_) and onlyIf (only_if) is sent exactly when neither UNSET nor None |
| ClientApi.GetFilesParse | storage_client/src/api/default/get_files.py:45-87 | 200 gives a File wrapping the raw bytes; 206 with a non-dict body raises TypeError, and otherwise gives an R2Object or an R2ObjectList; 400, 401, 403 and 404 give None; any other status is `Unexpected` |
| ClientApi.GetFilesListOnlyOnBadDate | storage_client/src/api/default/get_files.py:52-71 | on 206 the R2ObjectList fallback is reached only when "uploaded" is present and fails to parse; a dict without "uploaded" is always an R2Object |
| ClientApi.PutFilesRequest | storage_client/src/api/default/put_files.py:14-30 | the request is PUT /files with `body.to_multipart()` as files, empty headers, and no params or JSON |
| ClientApi.PutFilesParse | storage_client/src/api/default/put_files.py:33-53 | 200 gives `R2Object.from_dict(json)`; 201 gives `R2UploadedPart.from_dict(json)`; their failures propagate; 400 and 401 give None; any other status is `Unexpected` |
| ClientApi.DownloadTokenRequest | storage_client/src/api/default/get_download_file_key_token.py:12-20 | the request is GET "/download/{file_key}/token" with the key unescaped |
| ClientApi.DownloadTokenParse | storage_client/src/api/default/get_download_file_key_token.py:23-39 | 200 gives the token response's `from_dict(json)`; 400 and 500 give None; any other status is `Unexpected` |
| ClientApi.DownloadTokenKeyUnescaped | storage_client/src/api/default/get_download_file_key_token.py:12-20 | a '/' in the key stays a path separator |
| ClientWrapper.ParseVisibility | storage_client/wrapper.py:63-70 | a Visibility member is returned unchanged; a string succeeds exactly when its upper-case form names a member, which is then the result; otherwise ValueError listing INTERNAL, PRIVATE, PUBLIC; a non-string raises AttributeError |
| ClientWrapper.ParseVisibilityIgnoresCase | storage_client/wrapper.py:68 | a string parses to a member exactly when it upper-cases to that member's name |
| ClientWrapper.ChunksConcat | storage_client/wrapper.py:194-201 | the chunks read with `file.read(MAX_PART_SIZE)` put back together are the whole file |
| ClientWrapper.ChunksSizes | storage_client/wrapper.py:194-201 | every chunk is non-empty and at most MAX_PART_SIZE (10 MiB) long, and every chunk but the last is exactly MAX_PART_SIZE |
| ClientWrapper.ChunksCount | storage_client/wrapper.py:194-201 | there are ceil(size / MAX_PART_SIZE) chunks |
| ClientWrapper.Tasks | storage_client/wrapper.py:194-201 | one task per chunk, the i-th chunk carrying part number i + 1 |
| ClientWrapper.ReadTasks | storage_client/wrapper.py:194-201 | the reading loop builds exactly `Tasks` of the file |
| ClientWrapper.SmallRequest | storage_client/wrapper.py:100-117 | the small upload is one PUT whose form carries the key and the visibility's name and neither upload id nor part number |
| ClientWrapper.StartRequest | storage_client/wrapper.py:131-133 | the start request is a POST with no query parameters whose JSON body has exactly "key" and "visibility" |
| ClientWrapper.PartRequest | storage_client/wrapper.py:156-166 | a part is a PUT whose form carries the chunk as the file, the part number and the upload id |
| ClientWrapper.CompleteRequest | storage_client/wrapper.py:204-210 | the complete request is a POST whose JSON body is the manifest, with the key as a query parameter |
| ClientWrapper.EtagOf | storage_client/wrapper.py:172-175 | a None reply carries no etag; an R2UploadedPart reply carries its own |
| ClientWrapper.AttemptOutcome | storage_client/wrapper.py:163-180 | a 500 (without raise_on_unexpected_status) is an IOError; a 400 fails with an error that is not an IOError; a success is a manifest entry for this part number, only from a status other than 400 and 500 |
| ClientWrapper.InnerSpec | storage_client/wrapper.py:148-180 | the inner loop resends the same request, and resends only after an IOError; it makes at most MAX_RETRIES attempts, and all of them when it ends in an IOError; its outcome is that of the last attempt |
| ClientWrapper.OuterSpec | storage_client/wrapper.py:140-146 | the decorator calls the inner loop again after any failure, at most MAX_RETRIES times; every request sent is the same part, and the outcome is that of the last attempt |
| ClientWrapper.UploadPartSpec | storage_client/wrapper.py:140-183 | a part sends at least one request, all of them that part, and a success is the manifest entry for its number |
| ClientWrapper.UploadPartAttempts | storage_client/wrapper.py:140-154 | a part makes between 1 and MAX_RETRIES x MAX_RETRIES = 9 attempts |
| ClientWrapper.AlwaysServerErrorInner | storage_client/wrapper.py:148-171 | against a server that always answers 500 the inner loop uses all its attempts and ends in the IOError |
| ClientWrapper.AlwaysServerErrorOuter | storage_client/wrapper.py:140-171 | against a server that always answers 500 every decorator call runs a full inner loop |
| ClientWrapper.AlwaysServerErrorNineAttempts | storage_client/wrapper.py:140-171 | against a server that always answers 500 a part is sent exactly 9 times and fails with the IOError |
| ClientWrapper.IOErrorOnlyOnServerError | storage_client/wrapper.py:167-175 | an attempt ends in IOError exactly on a 500 answered without raise_on_unexpected_status |
| ClientWrapper.NoServerErrorOuter | storage_client/wrapper.py:140-154 | without a 500 the inner loop never retries, so the decorator's remaining calls bound the attempts |
| ClientWrapper.NoServerErrorThreeAttempts | storage_client/wrapper.py:140-154 | without a 500 a part makes at most 3 attempts |
| ClientWrapper.PartsSpec | storage_client/wrapper.py:185-202 | the parts go out as PUT requests after what was already sent; a success has one manifest entry per task, each carrying its task's part number |
| ClientWrapper.PartsStep | storage_client/wrapper.py:187-202 | the next part either ends the upload with its error or joins the manifest before the remaining parts |
| ClientWrapper.PartsAdvance | storage_client/wrapper.py:187-202 | after one part is uploaded, its error is the outcome of the whole part loop, or its entry joins the manifest and the loop goes on with the next task |
| ClientWrapper.PartsEnds | storage_client/wrapper.py:187-202 | before the first part nothing is collected, and after the last the collected parts are the result with the history unchanged |
| ClientWrapper.StartSpec | storage_client/wrapper.py:131-137 | the start request is sent, and the upload proceeds exactly when its reply parses to an R2MultipartUploadResponse |
| ClientWrapper.LargeUploadSpec | storage_client/wrapper.py:119-211 | a large upload sends the start request first and only part PUTs until the final request |
| ClientWrapper.ManifestAscending | storage_client/wrapper.py:194-202 | the manifest has one entry per chunk, numbered 1..n in chunk order |
| ClientWrapper.LargeUploadCompletesOnlyAfterAllParts | storage_client/wrapper.py:202-211 | the complete request carrying the manifest is sent exactly when every part succeeded; a failed part ends the upload with its error and nothing but part PUTs after the start request |
| ClientWrapper.SmallUploadSpec | storage_client/wrapper.py:92-117 | a small upload sends exactly its one PUT and succeeds only on status 200 |
| ClientWrapper.UploadFileSpec | storage_client/wrapper.py:72-98 | a key starting with '/' fails before anything is sent; so does an unparsable visibility; otherwise a file of at most MAX_PART_SIZE is one small PUT and a larger one starts a multipart upload |
| ClientWrapper.UploadFileSends | storage_client/wrapper.py:84-97 | a valid key and visibility always send a request |
| ClientWrapper.SignedUrlOf | storage_client/wrapper.py:238-247 | the URL is produced exactly when the token reply is 200 with a string token, and it is base_url + "download/" + the quoted key + "?token=" + the quoted token; otherwise "Failed to get signed URL for file" |
| ClientWrapper.SignedUrlGluesBase | storage_client/wrapper.py:244 | a base URL without a trailing '/' is glued to "download/" |
| ClientWrapper.ListFilesAsWritten | storage_client/wrapper.py:278-290 | `list_files` as written always fails |
| ClientWrapper.WorkerListing | workers/src/api_entry.py:241-251 | the worker's listing body is a dict whose only key "objects" holds one dict per object, in order |
| ClientWrapper.ListFilesNeverSucceeds | storage_client/wrapper.py:278-290 | the worker's 206 `{"objects": [...]}` parses as one R2Object, so `list_files` raises Exception("Failed to list files") |
| ClientWrapper.ListEntries | storage_client/wrapper.py:280-289 | a listing is read exactly when every entry is a dictionary that parses as an R2Object; the result has one metadata entry per object, in order |
| ClientWrapper.ListFilesOf | storage_client/wrapper.py:278-290 | with the correction: a 206 dict whose "objects" is a list is read entry by entry; anything else behaves as written |
| ClientWrapper.ListFilesReadsListing | storage_client/wrapper.py:278-290 | the worker's listing comes back exactly when every "uploaded" in it parses, with one entry per object, in order, carrying its key, size, etag, httpEtag and parsed upload time |
| ClientWrapper.StorageClient.constructor | storage_client/wrapper.py:55-61 | a client keeps its base URL and token and has sent nothing |
| ClientWrapper.StorageClient.Send | storage_client/wrapper.py:61 | a request is appended to what was sent, and the reply is the server's answer to that history |
| ClientWrapper.StorageClient.UploadPartOnce | storage_client/wrapper.py:146-183 | one call of the decorated function: its IOError-only retry loop sends and returns exactly `InnerSpec` from the first attempt |
| ClientWrapper.StorageClient.UploadPart | storage_client/wrapper.py:140-183 | the decorator loop around `UploadPartOnce` sends and returns exactly `UploadPartSpec` |
| ClientWrapper.StorageClient.UploadParts | storage_client/wrapper.py:185-202 | the part loop sends and returns exactly `PartsSpec` |
| ClientWrapper.StorageClient.UploadLargeFile | storage_client/wrapper.py:119-211 | sends and returns exactly `LargeUploadSpec` |
| ClientWrapper.StorageClient.UploadFile | storage_client/wrapper.py:72-98 | sends and returns exactly `UploadFileSpec` |
| ClientWrapper.StorageClient.GetSignedUrl | storage_client/wrapper.py:228-247 | sends the token request for the key and returns `SignedUrlOf` its reply |
| ClientWrapper.StorageClient.ListFiles | storage_client/wrapper.py:268-290 | sends GET /files with the limit and returns `ListFilesOf` the reply |
| TsClient.RequestContext.constructor | storageClient/apis/DefaultApi.ts:49 | a new request context has the path and method and no headers, query or body |
| TsClient.RequestContext.SetHeaderParam | storageClient/apis/DefaultApi.ts:51 | sets one header and changes nothing else |
| TsClient.RequestContext.SetQueryParam | storageClient/apis/DefaultApi.ts:55 | sets one query parameter and changes nothing else |
| TsClient.RequestContext.SetBody | storageClient/apis/DefaultApi.ts:231 | replaces the body and changes nothing else |
| TsClient.ValueOf | storageClient/apis/DefaultApi.ts:135-137 | a defined argument passes its value; null passes as null |
| TsClient.SetIfDefined | storageClient/apis/DefaultApi.ts:135-137 | a query parameter is set exactly when its argument is not undefined |
| TsClient.FilesGetQuery | storageClient/apis/DefaultApi.ts:134-157 | each of key, limit, cursor, range and onlyIf is in the query exactly when it is not undefined, with its value, and nothing else is |
| TsClient.FilesPostQuery | storageClient/apis/DefaultApi.ts:197-211 | upload_id is sent exactly when not undefined; key exactly when there are parts and the key is a non-empty string; visibility exactly when set, as its name; nothing else |
| TsClient.FilesPostBody | storageClient/apis/DefaultApi.ts:219-231 | the body is the parts array exactly when there are parts, and otherwise the whole request |
| TsClient.AppendIfDefined | storageClient/apis/DefaultApi.ts:304-314 | a form field is appended exactly when its argument is not undefined |
| TsClient.FilesPutForm | storageClient/apis/DefaultApi.ts:293-314 | the file is the first field exactly when the form is a FormData; then key, then upload_id, part and visibility, each when defined, and no other file field |
| TsClient.FilesPutFormSteps | storageClient/apis/DefaultApi.ts:293-314 | the form is the file when a FormData is used, then the key, then upload_id, part and visibility each when defined, in that order |
| TsClient.BuildFilesPutForm | storageClient/apis/DefaultApi.ts:293-314 | the appends of the request factory build exactly `FilesPutForm` |
| TsClient.DownloadFileKeyGet | storageClient/apis/DefaultApi.ts:30-72 | a missing fileKey or token throws RequiredError naming it, fileKey first; otherwise GET /download/{encoded key} with the Accept header and exactly the token as query |
| TsClient.DownloadFileKeyTokenGet | storageClient/apis/DefaultApi.ts:78-109 | a missing fileKey throws RequiredError; otherwise GET /download/{encoded key}/token with only the Accept header |
| TsClient.FilesGet | storageClient/apis/DefaultApi.ts:119-173 | GET /files with the Accept header and exactly `FilesGetQuery` of the arguments |
| TsClient.FilesPost | storageClient/apis/DefaultApi.ts:182-246 | a missing request throws RequiredError; otherwise POST /files with Accept and Content-Type application/json, `FilesPostQuery` and `FilesPostBody` |
| TsClient.FilesPut | storageClient/apis/DefaultApi.ts:256-338 | a missing file or key throws RequiredError naming it, file first; otherwise PUT /files with no query and `FilesPutForm` as body; Content-Type multipart/form-data is set by hand only without a FormData |
| TsClient.DownloadFileKeyGetProcess | storageClient/apis/DefaultApi.ts:351-382 | a result exactly for a 2xx status; 400 and 404 throw their messages; any other status throws "Unknown API Status Code!" |
| TsClient.DownloadFileKeyTokenGetProcess | storageClient/apis/DefaultApi.ts:391-421 | a result exactly for a 2xx status; 400 throws "Bad request" and 500 an empty message; any other status throws "Unknown API Status Code!" |
| TsClient.FilesGetProcess | storageClient/apis/DefaultApi.ts:430-485 | a result exactly for a 2xx status, except a 200 that is not a Blob, which throws "Unexpected response type"; 400, 401, 403 and 404 throw their messages; other statuses throw "Unknown API Status Code!" |
| TsClient.FilesPostProcess | storageClient/apis/DefaultApi.ts:494-528 | a result exactly for a 2xx status; 400 and 401 throw their messages; any other status throws "Unknown API Status Code!" |
| TsClient.FilesPutProcess | storageClient/apis/DefaultApi.ts:537-578 | a result exactly for a 2xx status, an R2Object for 200 and an R2UploadedPart for 201; 400 and 401 throw their messages; any other status throws "Unknown API Status Code!" |
| TsClient.ExceptionsCarryStatus | storageClient/apis/DefaultApi.ts:362-577 | every ApiException a processor throws carries the status it was given |

## Left out

- CORS headers, `stream_to_json`, `parse_multipart_data`, `r2object_converter`, `get_body`, `to_js` and `base64_encode` (workers/src/api_entry.py) are JavaScript-interop plumbing. Requests reach the model as a method, a path, headers, query pairs and an already parsed form or JSON value. Responses are a status, a message and an optional body.
- `delete` (workers/src/api_entry.py:488-493) and `remove_file_access` (workers/src/db_ops.py:140-147) are never reached from the router, so they are not modelled.
- The SQL text and the shapes D1 `first()` and `all()` return are not modelled. The tables are maps, and each query is stated by what it selects.
- KV eventual consistency and TTL expiry inside KV are not modelled. The namespace is a map; expiry is checked by the worker's own comparison.
- HMAC-SHA256, base64url and JSON (workers/src/jwt.py) are a record of function parameters. Round trips are proved under the stated assumption that decoding inverts encoding.
- `uuid4`, `time.time`, `datetime.isoformat` and `dateutil.isoparse` are parameters. Backend-minted upload ids are parameters too.
- The R2 bucket is a log of calls whose answers come from a parameter. Object bodies, ranges and conditional gets are not evaluated; HTTP header names are taken as given, without case folding.
- `Strings.ParseInt` accepts an optional sign followed by ASCII digits only. Python's `int()` also accepts surrounding whitespace and underscores between digits.
- `Values.Str` renders containers with a fixed marker instead of Python's `repr`.
- `Strings.Upper` folds ASCII letters only.
- Auth.CheckClaims: `exp` is taken in UTC, as the worker's clock is. Where the C library's `localtime` itself fails, between the year-9999 bound and the `time_t` bound, Python raises OSError (answered 500); the model raises ValueError there (answered 401), because that boundary depends on the platform.
- Auth.AuthenticateEmployee: non-string `id` or `companyId` claims are not modelled; claims are strings or absent.
- Floating-point values in JSON are not modelled; numbers are integers.
- `asyncio.gather` keeps the other parts running after one fails. The model runs the parts in task order and stops at the first failure. The requests sent before that failure are the same, but the parts after it are not sent.
- The semaphore and MAX_CONCURRENT_UPLOADS (storage_client/wrapper.py:49,185-192) only bound concurrency, which the sequential model does not have.
- The waits of the retry policies (RETRY_MIN_WAIT, RETRY_MAX_WAIT, `wait_exponential`) are timing only and are not modelled.
- ClientWrapper.EtagOf: an R2Object reply without "etag" still has the attribute in the source, set to UNSET, and becomes a manifest entry with an UNSET etag. The model fails that attempt instead.
- Exception messages that embed `repr` of a response are shortened to their fixed prefix, for example "Failed to upload part".
- The `None` check in `upload_part_with_semaphore` (storage_client/wrapper.py:190-191) is not modelled, because `upload_part` never returns None.
- `print` calls in the client are not modelled.
- `StorageClient.download_file` and `get_file_metadata` (storage_client/wrapper.py:213-266) only wrap `get_files` with an `isinstance` test. The 200 branch of `ClientApi.GetFilesParse` states what they read.
- The `jwt` header that `AuthenticatedClient` adds, `httpx`, the `sync`, `asyncio` and `asyncio_detailed` entry points, and `response.json()` are not modelled. The client's network is a function from the history of requests to the response.
- `HTTPStatus` conversion and `Response` wrapping are not modelled; statuses are integers.
- The `PropertyText` marker class is not modelled.
- `types.py` `File.to_tuple` is modelled only as `ClientModels.ToTuple`.
- `R2ObjectList`, `R2UploadedPart` and `GetDownloadFileKeyTokenResponse200` are not among the model files. Their `from_dict` functions are parameters (`Decoders`).
- The order of `additional_keys` is not modelled; it is a set.
- `ObjectSerializer` is taken as the identity on strings and numbers, and response bodies are not parsed.
- `canConsumeForm` is a parameter, and `isCodeInRange` is equality with one exact code.
- The auth hooks and the server prefix of `makeRequestContext` are not modelled.
- `ObservableAPI`, `ObjectParamAPI`, `PromiseAPI` and the TypeScript models' attribute maps are generated wrappers around `DefaultApi` and are not modelled.
- The `__main__` demonstration in workers/src/url_handler.py is not modelled.

## Findings

| source | as written | input that shows it | evidently intended | confidence | as-written member | corrected member |
|---|---|---|---|---|---|---|
| workers/src/api_entry.py:241-250 | the listing keeps an object whenever its key has ANY entry in the access map, True or False; an unregistered caller's map names every key | a registered employee "e" of company "c" lists key "a", a PRIVATE file of owner "o" in company "c": the batch check maps "a" to False, and "a" is still returned | keep an object only when the access map grants its key | high (not executed) | Listing.FilterListingAsWritten, Listing.DeniedObjectListed | Listing.FilterListing, Listing.ListFilter |
| workers/src/api_entry.py:63-76 | the token value joins expiration, file key, employee id and company id with '\|' and splits with `split("\|", 3)`, so a '\|' in the key or employee id shifts the fields | key "a\|b" for employee "e" of company "c" decodes as key "a", employee "b", company "e\|c" | decode so that any file key survives, splitting the ids from the right | high (not executed) | SignedUrl.DecodeTokenValue, SignedUrl.PipeInKeyExample | SignedUrl.DecodeTokenValueFixed, SignedUrl.DecodeEncodeFixed |
| workers/src/api_entry.py:511-526 | `Method(request.method)` at line 512 raises ValueError on an unknown method before the 405 branch, outside any handler | method "PATCH" with an `X-API-Key` header | answer 405 "Invalid method" | high (not executed) | Routing.RouteAsWritten, Routing.InvalidMethodUnreachable | Routing.Route, Routing.UnknownMethodAnswered |
| storage_client/wrapper.py:278-290 | `list_files` returns only when the parsed reply is a list, which `get_files._parse_response` never produces. The worker answers a listing with 206 and `{"objects": [...]}` (workers/src/api_entry.py:241-251 and 655). That dict has no "uploaded" key, so it parses as one R2Object whose additional properties hold "objects", and `list_files` raises Exception("Failed to list files") | a worker answering `GET /files?limit=2` with 206 and `{"objects": [{"key": "a"}]}` | return one metadata dict per entry of the reply's "objects" | high (not executed) | ClientWrapper.ListFilesAsWritten, ClientWrapper.ListFilesNeverSucceeds | ClientWrapper.ListFilesOf, ClientWrapper.ListFilesReadsListing |

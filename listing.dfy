/**
 * `get_file` of `workers/src/api_entry.py`: fetching one object, with or
 * without an access check, and listing the bucket filtered by the caller's
 * access. The bucket's answers (`listed`, `fetched`) are parameters.
 */
module Listing {
  import opened Wrappers
  import opened Values
  import opened Strings
  import opened DbOps
  import opened Validators
  import opened R2

  /** The options `get_file` receives: None, a `ListOptions` or a `GetOptions`. */
  datatype Options = NoOptions | ListOpts(list: ListOptions) | GetOpts(range: Value, onlyIf: Value)

  /** One object (None when the bucket has no such key), or a listing. */
  datatype FileResult = Fetched(obj: Option<R2Object>) | Listed(objects: seq<R2Object>)

  function Keys(objs: seq<R2Object>): (ks: seq<string>)
    ensures |ks| == |objs|
    ensures forall i :: 0 <= i < |objs| ==> ks[i] == objs[i].key
  {
    if objs == [] then [] else [objs[0].key] + Keys(objs[1..])
  }

  /** `next((item for item in objects if name <= item.key), None)`. */
  function FirstAtLeast(name: string, objs: seq<R2Object>): (r: Option<R2Object>)
    ensures r.Some? ==> r.value in objs && LexLe(name, r.value.key)
    ensures r.None? ==> forall o :: o in objs ==> !LexLe(name, o.key)
  {
    if objs == [] then None
    else if LexLe(name, objs[0].key) then Some(objs[0])
    else FirstAtLeast(name, objs[1..])
  }

  /**
   * The listing filter as written: every object whose key appears in the
   * access map, whatever the map says about it, contributes the first object
   * whose key is not below its own.
   */
  function ListFilterAsWritten(objs: seq<R2Object>, access: map<string, bool>): (r: seq<R2Object>)
    ensures |r| <= |objs|
  {
    FilterAsWritten(objs, objs, access)
  }

  function FilterAsWritten(items: seq<R2Object>, objs: seq<R2Object>, access: map<string, bool>): (r: seq<R2Object>)
    ensures |r| <= |items|
  {
    if items == [] then []
    else
      var rest := FilterAsWritten(items[1..], objs, access);
      if items[0].key in access then
        match FirstAtLeast(items[0].key, objs)
        case Some(o) => [o] + rest
        case None => rest
      else rest
  }

  /** The listing filter as intended: the objects the access map grants, in bucket order. */
  function ListFilter(objs: seq<R2Object>, access: map<string, bool>): (r: seq<R2Object>)
    ensures |r| <= |objs|
    ensures forall o :: o in r <==> (o in objs && o.key in access && access[o.key])
  {
    if objs == [] then []
    else
      var rest := ListFilter(objs[1..], access);
      if objs[0].key in access && access[objs[0].key] then [objs[0]] + rest else rest
  }

  /**
   * The loop of lines 241-250 as written: for each listed object with an entry
   * in the access map, append the first object whose key is not below its own.
   */
  method FilterListingAsWritten(objs: seq<R2Object>, access: map<string, bool>) returns (kept: seq<R2Object>)
    ensures kept == ListFilterAsWritten(objs, access)
  {
    kept := [];
    var i := 0;
    while i < |objs|
      invariant 0 <= i <= |objs|
      invariant kept + FilterAsWritten(objs[i..], objs, access) == ListFilterAsWritten(objs, access)
    {
      assert objs[i..][0] == objs[i] && objs[i..][1..] == objs[i + 1..];
      if objs[i].key in access {
        var found := FirstAtLeast(objs[i].key, objs);
        if found.Some? {
          kept := kept + [found.value];
        }
      }
      i := i + 1;
    }
    assert objs[|objs|..] == [];
  }

  /** The same loop with the corrected test: append each object the access map grants. */
  method FilterListing(objs: seq<R2Object>, access: map<string, bool>) returns (kept: seq<R2Object>)
    ensures kept == ListFilter(objs, access)
  {
    kept := [];
    var i := 0;
    while i < |objs|
      invariant 0 <= i <= |objs|
      invariant kept + ListFilter(objs[i..], access) == ListFilter(objs, access)
    {
      ListFilterStep(objs, i, access, kept);
      if objs[i].key in access && access[objs[i].key] {
        kept := kept + [objs[i]];
      }
      i := i + 1;
    }
    assert objs[|objs|..] == [];
  }

  /** One step of the corrected loop: the object at `i` is kept or dropped before the rest is filtered. */
  lemma ListFilterStep(objs: seq<R2Object>, i: nat, access: map<string, bool>, kept: seq<R2Object>)
    requires i < |objs|
    ensures kept + ListFilter(objs[i..], access) ==
      (if objs[i].key in access && access[objs[i].key] then kept + [objs[i]] else kept) + ListFilter(objs[i + 1..], access)
  {
    assert objs[i..][0] == objs[i] && objs[i..][1..] == objs[i + 1..];
    if objs[i].key in access && access[objs[i].key] {
      assert kept + ([objs[i]] + ListFilter(objs[i + 1..], access)) == kept + [objs[i]] + ListFilter(objs[i + 1..], access);
    }
  }

  /** R2 lists keys in ascending order, each key once. */
  predicate StrictlyAscending(objs: seq<R2Object>) {
    forall i, j :: 0 <= i < j < |objs| ==> LexLt(objs[i].key, objs[j].key)
  }

  /** In an ascending listing the first object not below a listed key is that object itself. */
  lemma {:induction false} FirstAtLeastIsSelf(objs: seq<R2Object>, i: nat)
    requires StrictlyAscending(objs) && i < |objs|
    ensures FirstAtLeast(objs[i].key, objs) == Some(objs[i])
  {
    if i == 0 {
      LexLeRefl(objs[0].key);
    } else {
      if LexLe(objs[i].key, objs[0].key) {
        LexLeAntisym(objs[0].key, objs[i].key);
        assert false;
      }
      assert StrictlyAscending(objs[1..]) by {
        forall a, b | 0 <= a < b < |objs[1..]|
          ensures LexLt(objs[1..][a].key, objs[1..][b].key)
        {
          assert objs[1..][a] == objs[a + 1] && objs[1..][b] == objs[b + 1];
        }
      }
      FirstAtLeastIsSelf(objs[1..], i - 1);
      assert objs[1..][i - 1] == objs[i];
    }
  }

  /** The objects of `items` whose key has an entry in the map, whatever the entry says. */
  function WithEntry(items: seq<R2Object>, access: map<string, bool>): (r: seq<R2Object>)
    ensures forall o :: o in r <==> (o in items && o.key in access)
  {
    if items == [] then []
    else if items[0].key in access then [items[0]] + WithEntry(items[1..], access)
    else WithEntry(items[1..], access)
  }

  /**
   * On an ascending listing the filter as written keeps exactly the objects
   * that have an entry in the access map: a denied entry is listed too.
   */
  lemma {:induction false} AsWrittenKeepsEveryEntry(objs: seq<R2Object>, access: map<string, bool>)
    requires StrictlyAscending(objs)
    ensures ListFilterAsWritten(objs, access) == WithEntry(objs, access)
  {
    SuffixKeepsEveryEntry(objs, 0, access);
    assert objs[0..] == objs;
  }

  lemma {:induction false} SuffixKeepsEveryEntry(objs: seq<R2Object>, k: nat, access: map<string, bool>)
    requires StrictlyAscending(objs) && k <= |objs|
    ensures FilterAsWritten(objs[k..], objs, access) == WithEntry(objs[k..], access)
    decreases |objs| - k
  {
    if k < |objs| {
      SuffixKeepsEveryEntry(objs, k + 1, access);
      FirstAtLeastIsSelf(objs, k);
      assert objs[k..][0] == objs[k] && objs[k..][1..] == objs[k + 1..];
    }
  }

  /**
   * `get_file(key, employee, bucket, d1, options)` with the listing filter
   * corrected. Without options a key is fetched with no access check; list
   * options list the bucket and keep the objects the caller may read; get
   * options check the one key first and require an object with a body.
   */
  function GetFile(db: Db, id: string, companyId: string, key: Option<string>, options: Options,
                   listed: seq<R2Object>, fetched: Option<R2Object>): (r: Result<FileResult>)
    ensures options.NoOptions? && key.Some? ==> r == Ok(Fetched(fetched))
    ensures options.ListOpts? && r.Ok? ==> r.value.Listed?
    ensures options.ListOpts? && r.Ok? ==>
      forall o :: o in r.value.objects <==> (o in listed && MayRead(db, o.key, id, companyId))
    ensures options.ListOpts? && listed == [] ==> r == Err(FileNotFoundError("No objects found"))
    ensures options.GetOpts? && r.Ok? ==>
      (key.Some? && CheckFileAccess(db, key.value, id, companyId) == Ok(true)
       && r == Ok(Fetched(fetched)) && fetched.Some? && fetched.value.hasBody)
    ensures options.GetOpts? && key.Some? && CheckFileAccess(db, key.value, id, companyId) == Ok(false) ==>
      r == Err(PermissionError("File access denied"))
  {
    match options
    case NoOptions =>
      if key.Some? then Ok(Fetched(fetched))
      else Err(TypeError("asdict() should be called on dataclass instances"))
    case ListOpts(_) =>
      if listed == [] then Err(FileNotFoundError("No objects found"))
      else
        var access :- CheckMultipleFileAccess(db, Keys(listed), id, companyId);
        ListedGranted(db, listed, id, companyId, access);
        Ok(Listed(ListFilter(listed, access)))
    case GetOpts(_, _) =>
      if key.None? then Err(ValueError("Invalid request"))
      else
        var granted :- CheckFileAccess(db, key.value, id, companyId);
        if !granted then Err(PermissionError("File access denied"))
        else if fetched.None? then Err(TypeError("argument of type 'NoneType' is not iterable"))
        else if !fetched.value.hasBody then Err(ValueError("Invalid object - options failed"))
        else Ok(Fetched(fetched))
  }

  /** A listed object's key is among the keys asked about. */
  lemma KeyListed(listed: seq<R2Object>, o: R2Object)
    requires o in listed
    ensures o.key in Keys(listed)
  {
    var i :| 0 <= i < |listed| && listed[i] == o;
    assert Keys(listed)[i] == o.key;
  }

  /** The access a listing grants: the caller is registered and the key's record admits them. */
  predicate MayRead(db: Db, key: string, id: string, companyId: string) {
    DoesEmployeeExist(db, id, companyId) && key in db.files && Grants(db.files[key], id, companyId)
  }

  /** For a non-empty key, `MayRead` is what the single check answers. */
  lemma MayReadIsCheck(db: Db, key: string, id: string, companyId: string)
    requires key != "" && id != "" && companyId != ""
    ensures MayRead(db, key, id, companyId) <==> CheckFileAccess(db, key, id, companyId) == Ok(true)
  {
  }

  /** The batch answer for a listing grants a listed key exactly when `MayRead` holds. */
  lemma ListedGranted(db: Db, listed: seq<R2Object>, id: string, companyId: string, access: map<string, bool>)
    requires CheckMultipleFileAccess(db, Keys(listed), id, companyId) == Ok(access)
    ensures forall o :: o in listed ==> ((o.key in access && access[o.key]) <==> MayRead(db, o.key, id, companyId))
  {
    forall o | o in listed
      ensures (o.key in access && access[o.key]) <==> MayRead(db, o.key, id, companyId)
    {
      KeyListed(listed, o);
    }
  }

  /**
   * The filter as written lists an object its caller may not read: a private
   * file of another employee in the same company, listed by a registered
   * employee, comes back, where the corrected filter drops it.
   */
  lemma DeniedObjectListed()
    ensures var db := Db(map[("e", "c") := CfTypes.Read], map["a" := FileRecord("o", "c", "PRIVATE")]);
      var listed := [R2Object("a", false)];
      var access := CheckMultipleFileAccess(db, Keys(listed), "e", "c").value;
      CheckFileAccess(db, "a", "e", "c") == Ok(false)
      && ListFilterAsWritten(listed, access) == listed && ListFilter(listed, access) == []
  {
    var db := Db(map[("e", "c") := CfTypes.Read], map["a" := FileRecord("o", "c", "PRIVATE")]);
    var listed := [R2Object("a", false)];
    assert Keys(listed) == ["a"];
    var access := CheckMultipleFileAccess(db, Keys(listed), "e", "c").value;
    assert access == map["a" := false];
    LexLeRefl("a");
  }

  /** An unregistered caller's access map names every listed key, so the filter as written lists everything. */
  lemma UnregisteredListsAll(db: Db, listed: seq<R2Object>, id: string, companyId: string)
    requires StrictlyAscending(listed) && listed != [] && id != "" && companyId != ""
    requires !DoesEmployeeExist(db, id, companyId)
    ensures var access := CheckMultipleFileAccess(db, Keys(listed), id, companyId).value;
      ListFilterAsWritten(listed, access) == listed && ListFilter(listed, access) == []
  {
    var access := CheckMultipleFileAccess(db, Keys(listed), id, companyId).value;
    AsWrittenKeepsEveryEntry(listed, access);
    forall o | o in listed ensures o.key in access {
      KeyListed(listed, o);
    }
    WithEntryAll(listed, access);
    NoneGranted(listed, access);
  }

  lemma {:induction false} NoneGranted(objs: seq<R2Object>, access: map<string, bool>)
    requires forall k :: k in access ==> !access[k]
    ensures ListFilter(objs, access) == []
  {
    if objs != [] {
      NoneGranted(objs[1..], access);
    }
  }

  lemma {:induction false} WithEntryAll(items: seq<R2Object>, access: map<string, bool>)
    requires forall o :: o in items ==> o.key in access
    ensures WithEntry(items, access) == items
  {
    if items != [] {
      WithEntryAll(items[1..], access);
    }
  }
}

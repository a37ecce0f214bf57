/**
 * The access-control store of `workers/src/db_ops.py`: the `employees` table,
 * keyed by (id, company_id), and the `files` table, keyed by the object key.
 * The SQL is not modelled; its effect on the two tables is.
 */
module DbOps {
  import opened Wrappers
  import opened CfTypes

  /** A row of the `files` table; the visibility column holds whatever string was inserted. */
  datatype FileRecord = FileRecord(employeeId: string, companyId: string, visibility: string)

  /** A row of the `employees` table as `get_employee` returns it. */
  datatype EmployeeRow = EmployeeRow(id: string, companyId: string, level: PermissionLevel)

  /** The contents of both tables. */
  datatype Db = Db(employees: map<(string, string), PermissionLevel>, files: map<string, FileRecord>)

  /** `does_employee_exist`: a row with this id and company_id is present. */
  predicate DoesEmployeeExist(db: Db, id: string, companyId: string) {
    (id, companyId) in db.employees
  }

  /** `get_employee`: the row, or ValueError("Employee not found"). */
  function GetEmployee(db: Db, id: string, companyId: string): (r: Result<EmployeeRow>)
    ensures r.Ok? <==> DoesEmployeeExist(db, id, companyId)
    ensures r.Err? ==> r.error == ValueError("Employee not found")
    ensures r.Ok? ==> r.value.id == id && r.value.companyId == companyId
    ensures r.Ok? ==> r.value.level == db.employees[(id, companyId)]
  {
    if (id, companyId) in db.employees then Ok(EmployeeRow(id, companyId, db.employees[(id, companyId)]))
    else Err(ValueError("Employee not found"))
  }

  /**
   * The CASE expression of both access queries: PUBLIC grants anyone, INTERNAL
   * grants the owner's company, PRIVATE grants the owner only, and any other
   * visibility string grants nobody.
   */
  predicate Grants(rec: FileRecord, employeeId: string, companyId: string) {
    || rec.visibility == "PUBLIC"
    || (rec.visibility == "INTERNAL" && rec.companyId == companyId)
    || (rec.visibility == "PRIVATE" && rec.employeeId == employeeId && rec.companyId == companyId)
  }

  /** The owner of a record with one of the three visibilities is always granted. */
  lemma OwnerGranted(rec: FileRecord)
    requires rec.visibility in {"PUBLIC", "INTERNAL", "PRIVATE"}
    ensures Grants(rec, rec.employeeId, rec.companyId)
  {
  }

  /** The three tiers are nested: PRIVATE grants a subset of INTERNAL, which grants a subset of PUBLIC. */
  lemma TiersNested(owner: string, company: string, employeeId: string, companyId: string)
    ensures Grants(FileRecord(owner, company, "PRIVATE"), employeeId, companyId)
        ==> Grants(FileRecord(owner, company, "INTERNAL"), employeeId, companyId)
    ensures Grants(FileRecord(owner, company, "INTERNAL"), employeeId, companyId)
        ==> Grants(FileRecord(owner, company, "PUBLIC"), employeeId, companyId)
    ensures Grants(FileRecord(owner, company, "PUBLIC"), employeeId, companyId)
  {
  }

  /** A visibility outside the three strings grants nobody, not even the owner. */
  lemma UnknownVisibilityDenies(rec: FileRecord, employeeId: string, companyId: string)
    requires rec.visibility !in {"PUBLIC", "INTERNAL", "PRIVATE"}
    ensures !Grants(rec, employeeId, companyId)
  {
  }

  /**
   * `check_and_insert_employee`: the result and the tables afterwards. Empty
   * id or company_id raise ValueError; a present employee is left as is;
   * otherwise one row is inserted.
   */
  function RegisterOutcome(db: Db, id: string, companyId: string, level: PermissionLevel): (out: (Result<bool>, Db))
    ensures id == "" ==> out == (Err(ValueError("Employee ID is required")), db)
    ensures id != "" && companyId == "" ==> out == (Err(ValueError("Employee company ID is required")), db)
    ensures id != "" && companyId != "" ==> out.0 == Ok(true) && DoesEmployeeExist(out.1, id, companyId)
    ensures out.1.files == db.files
    ensures out.1.employees.Keys == db.employees.Keys + (if out.0.Ok? then {(id, companyId)} else {})
    ensures forall k :: k in db.employees ==> out.1.employees[k] == db.employees[k]
  {
    if id == "" then (Err(ValueError("Employee ID is required")), db)
    else if companyId == "" then (Err(ValueError("Employee company ID is required")), db)
    else if DoesEmployeeExist(db, id, companyId) then (Ok(true), db)
    else (Ok(true), db.(employees := db.employees[(id, companyId) := level]))
  }

  /** Registering twice is registering once: the second call returns True and writes nothing. */
  lemma {:induction false} RegisterIdempotent(db: Db, id: string, companyId: string, level: PermissionLevel, level2: PermissionLevel)
    requires id != "" && companyId != ""
    ensures var once := RegisterOutcome(db, id, companyId, level).1;
      RegisterOutcome(once, id, companyId, level2) == (Ok(true), once)
  {
  }

  /** The error `insert_file_access` raises for the first None field, in declaration order. */
  function MissingField(fa: FileAccess): (r: Option<string>)
    ensures r.None? <==> (fa.key.Some? && fa.visibility.Some? && fa.employeeId.Some? && fa.companyId.Some?)
  {
    if fa.key.None? then Some("key")
    else if fa.visibility.None? then Some("visibility")
    else if fa.employeeId.None? then Some("employee_id")
    else if fa.companyId.None? then Some("company_id")
    else None
  }

  /**
   * `insert_file_access`: the result and the tables afterwards. A None field
   * raises ValueError (an empty string does not); an unregistered owner gives
   * False with nothing written; a key already present raises
   * ValueError("File access already exists").
   */
  function InsertOutcome(db: Db, fa: FileAccess): (out: (Result<bool>, Db))
    ensures MissingField(fa).Some? ==>
      out == (Err(ValueError("File access " + MissingField(fa).value + " is required")), db)
    ensures out.1.employees == db.employees
    ensures out.0 != Ok(true) ==> out.1 == db
    ensures out.0 == Ok(true) <==> (MissingField(fa).None?
      && DoesEmployeeExist(db, fa.employeeId.value, fa.companyId.value) && fa.key.value !in db.files)
    ensures out.0 == Ok(true) ==> (out.1.files
      == db.files[fa.key.value := FileRecord(fa.employeeId.value, fa.companyId.value, fa.visibility.value)])
  {
    match MissingField(fa)
    case Some(f) => (Err(ValueError("File access " + f + " is required")), db)
    case None =>
      if !DoesEmployeeExist(db, fa.employeeId.value, fa.companyId.value) then (Ok(false), db)
      else if fa.key.value in db.files then (Err(ValueError("File access already exists")), db)
      else (Ok(true), db.(files := db.files[fa.key.value :=
        FileRecord(fa.employeeId.value, fa.companyId.value, fa.visibility.value)]))
  }

  /** Only None raises during validation: a record whose fields are all strings, even empty ones, passes. */
  lemma EmptyStringsPassValidation(db: Db, key: string, visibility: string, employeeId: string, companyId: string)
    ensures var out := InsertOutcome(db, FileAccess(Some(key), Some(visibility), Some(employeeId), Some(companyId)));
      out.0 == Ok(false) || out.0 == Ok(true) || out.0 == Err(ValueError("File access already exists"))
  {
  }

  /** An unregistered owner gets False and nothing is written. */
  lemma InsertUnregistered(db: Db, fa: FileAccess)
    requires MissingField(fa).None?
    requires !DoesEmployeeExist(db, fa.employeeId.value, fa.companyId.value)
    ensures InsertOutcome(db, fa) == (Ok(false), db)
  {
  }

  /** A key is inserted at most once: the second insert raises and writes nothing. */
  lemma InsertTwice(db: Db, fa: FileAccess, fb: FileAccess)
    requires InsertOutcome(db, fa).0 == Ok(true)
    requires MissingField(fb).None? && fb.key == fa.key
    requires DoesEmployeeExist(db, fb.employeeId.value, fb.companyId.value)
    ensures var after := InsertOutcome(db, fa).1;
      InsertOutcome(after, fb) == (Err(ValueError("File access already exists")), after)
  {
  }

  /**
   * `check_file_access`: ValueError for an empty name, id or company_id; False
   * for an unregistered principal or a key without a record; otherwise the
   * CASE predicate on the record.
   */
  function CheckFileAccess(db: Db, fileName: string, id: string, companyId: string): (r: Result<bool>)
    ensures r.Err? <==> fileName == "" || id == "" || companyId == ""
    ensures r.Err? ==> r.error.ValueError?
    ensures r == Ok(true) <==> (r.Ok? && DoesEmployeeExist(db, id, companyId)
      && fileName in db.files && Grants(db.files[fileName], id, companyId))
  {
    if fileName == "" then Err(ValueError("File name is required"))
    else if id == "" then Err(ValueError("Employee ID is required"))
    else if companyId == "" then Err(ValueError("Employee company ID is required"))
    else if !DoesEmployeeExist(db, id, companyId) then Ok(false)
    else if fileName !in db.files then Ok(false)
    else Ok(Grants(db.files[fileName], id, companyId))
  }

  /**
   * `check_multiple_file_access`: ValueError for an empty list or principal
   * field; every requested name mapped to False for an unregistered principal;
   * otherwise exactly the requested names that have a record, each mapped to
   * the CASE predicate.
   */
  function CheckMultipleFileAccess(db: Db, fileNames: seq<string>, id: string, companyId: string): (r: Result<map<string, bool>>)
    ensures r.Err? <==> fileNames == [] || id == "" || companyId == ""
    ensures r.Err? ==> r.error.ValueError?
    ensures r.Ok? && !DoesEmployeeExist(db, id, companyId) ==>
      r.value.Keys == (set n | n in fileNames) && forall n :: n in r.value ==> !r.value[n]
    ensures r.Ok? && DoesEmployeeExist(db, id, companyId) ==>
      r.value.Keys == (set n | n in fileNames) * db.files.Keys
    ensures r.Ok? && DoesEmployeeExist(db, id, companyId) ==>
      forall n :: n in r.value ==> r.value[n] == Grants(db.files[n], id, companyId)
  {
    if fileNames == [] || id == "" || companyId == "" then
      Err(ValueError("File names, employee ID, and company ID are required"))
    else if !DoesEmployeeExist(db, id, companyId) then
      Ok(map n | n in fileNames :: false)
    else
      Ok(map n | n in fileNames && n in db.files :: Grants(db.files[n], id, companyId))
  }

  /**
   * The single and the batch query decide alike: for every requested name the
   * batch answer is the single answer, except that the batch leaves out names
   * without a record for which the single query says False.
   */
  lemma BatchAgreesWithSingle(db: Db, fileNames: seq<string>, id: string, companyId: string, n: string)
    requires fileNames != [] && id != "" && companyId != "" && n != "" && n in fileNames
    ensures var batch := CheckMultipleFileAccess(db, fileNames, id, companyId).value;
      var single := CheckFileAccess(db, n, id, companyId).value;
      (n in batch ==> batch[n] == single) && (n !in batch ==> !single)
  {
  }

  /**
   * The store itself. `check_and_insert_employee` and `insert_file_access` are
   * the only operations that write; the checks are the functions above,
   * applied to `State()`.
   */
  class AccessStore {
    var employees: map<(string, string), PermissionLevel>
    var files: map<string, FileRecord>

    constructor ()
      ensures employees == map[] && files == map[]
    {
      employees := map[];
      files := map[];
    }

    function State(): Db
      reads this
    {
      Db(employees, files)
    }

    /** `check_and_insert_employee(db, employee)`. */
    method CheckAndInsertEmployee(e: Employee) returns (r: Result<bool>)
      modifies this
      ensures (r, State()) == RegisterOutcome(old(State()), e.id, e.companyId, e.permissionLevel)
    {
      if e.id == "" {
        return Err(ValueError("Employee ID is required"));
      }
      if e.companyId == "" {
        return Err(ValueError("Employee company ID is required"));
      }
      if (e.id, e.companyId) in employees {
        return Ok(true);
      }
      employees := employees[(e.id, e.companyId) := e.permissionLevel];
      return Ok(true);
    }

    /** `insert_file_access(db, file_access)`. */
    method InsertFileAccess(fa: FileAccess) returns (r: Result<bool>)
      modifies this
      ensures (r, State()) == InsertOutcome(old(State()), fa)
    {
      var missing := MissingField(fa);
      if missing.Some? {
        return Err(ValueError("File access " + missing.value + " is required"));
      }
      if (fa.employeeId.value, fa.companyId.value) !in employees {
        return Ok(false);
      }
      if fa.key.value in files {
        return Err(ValueError("File access already exists"));
      }
      files := files[fa.key.value := FileRecord(fa.employeeId.value, fa.companyId.value, fa.visibility.value)];
      return Ok(true);
    }
  }
}

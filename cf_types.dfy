/**
 * The worker's shared types: permission levels, visibilities, HTTP methods,
 * the employee record with its validating permission-level setter, and the
 * file-access record written to the `files` table.
 */
module CfTypes {
  import opened Wrappers
  import opened Values

  /** `PermissionLevel`, an IntEnum ordered by its values. */
  datatype PermissionLevel = Read | Write | Admin {
    function Value(): (v: int)
      ensures 1 <= v <= 3
    {
      match this
      case Read => 1
      case Write => 2
      case Admin => 3
    }
  }

  /** READ < WRITE < ADMIN, and distinct members have distinct values. */
  lemma PermissionLevelOrder()
    ensures Read.Value() < Write.Value() < Admin.Value()
    ensures forall a: PermissionLevel, b: PermissionLevel :: a.Value() == b.Value() ==> a == b
  {
  }

  /**
   * `value in PermissionLevel` (Python 3.12 containment by value) followed by
   * the lookup of the member: any int-like value 1, 2 or 3 (booleans included,
   * `True == 1`) is a member; everything else is not.
   */
  function LevelOf(v: Value): (r: Option<PermissionLevel>)
    ensures r.Some? <==> (AsInt(v).Some? && 1 <= AsInt(v).value <= 3)
    ensures r.Some? ==> r.value.Value() == AsInt(v).value
  {
    match AsInt(v)
    case Some(1) => Some(Read)
    case Some(2) => Some(Write)
    case Some(3) => Some(Admin)
    case _ => None
  }

  /** `Visibility`, an Enum whose values are its member names. */
  datatype Visibility = Public | Internal | Private {
    function Name(): (s: string)
      ensures s in {"PUBLIC", "INTERNAL", "PRIVATE"}
    {
      match this
      case Public => "PUBLIC"
      case Internal => "INTERNAL"
      case Private => "PRIVATE"
    }
  }

  /** `Visibility(s)`: the member with value `s`, or ValueError. */
  function VisibilityOf(s: string): (r: Result<Visibility>)
    ensures r.Ok? <==> s in {"PUBLIC", "INTERNAL", "PRIVATE"}
    ensures r.Ok? ==> r.value.Name() == s
    ensures r.Err? ==> r.error.ValueError?
  {
    if s == "PUBLIC" then Ok(Public)
    else if s == "INTERNAL" then Ok(Internal)
    else if s == "PRIVATE" then Ok(Private)
    else Err(ValueError("is not a valid Visibility"))
  }

  /** `Visibility(v.Name()) == v`: the enum is exactly its three values. */
  lemma VisibilityRoundTrip(v: Visibility)
    ensures VisibilityOf(v.Name()) == Ok(v)
  {
  }

  /** `HTTP methods` understood by the worker. */
  datatype Method = GET | POST | PUT | DELETE | OPTIONS

  /** `Method(s)`: the member with value `s`, or ValueError. */
  function ParseMethod(s: string): (r: Result<Method>)
    ensures r.Ok? <==> s in {"GET", "POST", "PUT", "DELETE", "OPTIONS"}
    ensures r.Err? ==> r.error.ValueError?
    ensures r == Ok(GET) <==> s == "GET"
    ensures r == Ok(OPTIONS) <==> s == "OPTIONS"
  {
    match s
    case "GET" => Ok(GET)
    case "POST" => Ok(POST)
    case "PUT" => Ok(PUT)
    case "DELETE" => Ok(DELETE)
    case "OPTIONS" => Ok(OPTIONS)
    case _ => Err(ValueError("is not a valid Method"))
  }

  /**
   * `Employee`. The dataclass routes its `permission_level` argument through the
   * property setter, so constructing an employee validates the level exactly as
   * a later assignment does.
   */
  class Employee {
    var id: string
    var companyId: string
    var permissionLevel: PermissionLevel

    constructor Make(id: string, companyId: string, level: PermissionLevel)
      ensures this.id == id && this.companyId == companyId && permissionLevel == level
    {
      this.id := id;
      this.companyId := companyId;
      permissionLevel := level;
    }

    /**
     * `Employee(id, company_id, permission_level)`: an argument that is not a
     * member (an omitted one arrives as the property object) raises ValueError.
     */
    static method New(id: string, companyId: string, level: Option<Value>) returns (r: Result<Employee>)
      ensures r.Ok? <==> (level.Some? && LevelOf(level.value).Some?)
      ensures r.Err? ==> r.error == ValueError("Invalid permission level")
      ensures r.Ok? ==> fresh(r.value) && r.value.id == id && r.value.companyId == companyId
      ensures r.Ok? ==> r.value.permissionLevel == LevelOf(level.value).value
    {
      if level.None? || LevelOf(level.value).None? {
        return Err(ValueError("Invalid permission level"));
      }
      var e := new Employee.Make(id, companyId, LevelOf(level.value).value);
      return Ok(e);
    }

    /** The `permission_level` setter: validate, then update the level in place. */
    method SetPermissionLevel(v: Value) returns (r: Result<()>)
      modifies this
      ensures r.Ok? <==> LevelOf(v).Some?
      ensures r.Err? ==> r.error == ValueError("Invalid permission level")
      ensures permissionLevel == if r.Ok? then LevelOf(v).value else old(permissionLevel)
      ensures id == old(id) && companyId == old(companyId)
    {
      match LevelOf(v)
      case None =>
        return Err(ValueError("Invalid permission level"));
      case Some(l) =>
        permissionLevel := l;
        return Ok(());
    }
  }

  /**
   * `FileAccess(key, visibility, employee_id, company_id)`. Callers may pass
   * None for any field (a missing form field, a missing query parameter), and
   * the visibility is whatever string the caller supplied.
   */
  datatype FileAccess = FileAccess(
    key: Option<string>,
    visibility: Option<string>,
    employeeId: Option<string>,
    companyId: Option<string>)
}

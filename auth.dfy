/**
 * `authenticate_employee` of `workers/src/api_entry.py`: decode the JWT
 * carried in the X-API-Key header, check its claims and build the employee.
 */
module Auth {
  import opened Wrappers
  import opened Values
  import opened CfTypes
  import opened Jwt

  /** The claims a payload must carry, `exp` included. */
  const ClaimNames: set<string> := {"id", "company_id", "exp", "permission_level"}

  /** `payload[k]`: TypeError on a value that is not a dict, KeyError for a missing key. */
  function Claim(payload: Value, k: string): (r: Result<Value>)
    ensures r.Ok? <==> payload.PyDict? && k in payload.entries
  {
    if !payload.PyDict? then Err(TypeError("payload is not subscriptable by str"))
    else if k !in payload.entries then Err(KeyError(k))
    else Ok(payload.entries[k])
  }

  /** 0001-01-01T00:00:00 and 9999-12-31T23:59:59 UTC, the range of `datetime`, in Unix seconds. */
  const MinTimestamp: int := -62135596800
  const MaxTimestamp: int := 253402300799

  /** The range of a 64-bit `time_t`. */
  const MinTimeT: int := -0x8000_0000_0000_0000
  const MaxTimeT: int := 0x7FFF_FFFF_FFFF_FFFF

  /**
   * `datetime.fromtimestamp(t)` for a whole number of seconds, in UTC: a
   * value outside `time_t` raises OverflowError, and one whose year falls
   * outside 1..9999 raises ValueError.
   */
  function FromTimestamp(t: int): (r: Result<int>)
    ensures r.Ok? <==> MinTimestamp <= t <= MaxTimestamp
    ensures r.Ok? ==> r.value == t
    ensures r.Err? && MinTimeT <= t <= MaxTimeT ==> r.error.ValueError?
    ensures r.Err? && !(MinTimeT <= t <= MaxTimeT) ==> r.error.OverflowError?
  {
    if t < MinTimeT || t > MaxTimeT then Err(OverflowError("timestamp out of range for platform time_t"))
    else if t < MinTimestamp || t > MaxTimestamp then Err(ValueError("year is out of range"))
    else Ok(t)
  }

  /**
   * Lines 147-153 up to the permission-level setter: each of id and
   * company_id must be present and not None, `exp` must be a number
   * (`datetime.fromtimestamp` raises TypeError for anything else) that
   * `fromtimestamp` can convert and that is later than `now`,
   * permission_level must be present and not None, and once `exp` is
   * popped the remaining keys must be exactly the employee's three
   * arguments, else `Employee(**args)` raises TypeError. The result is
   * (id, company_id, permission_level).
   */
  function CheckClaims(payload: Value, now: int): (r: Result<(string, string, Value)>)
    ensures r.Ok? ==> payload.PyDict? && payload.entries.Keys == ClaimNames
    ensures r.Ok? ==> AsInt(payload.entries["exp"]).Some? && AsInt(payload.entries["exp"]).value > now
    ensures r.Ok? ==> MinTimestamp <= AsInt(payload.entries["exp"]).value <= MaxTimestamp
    ensures r.Ok? ==> (payload.entries["id"] == PyStr(r.value.0)
      && payload.entries["company_id"] == PyStr(r.value.1)
      && payload.entries["permission_level"] == r.value.2 && r.value.2 != PyNone)
    ensures r.Err? ==> (r.error.TypeError? || r.error.KeyError? || r.error == AssertionError
      || r.error.ValueError? || r.error.OverflowError?)
  {
    var id :- Claim(payload, "id");
    if id == PyNone then Err(AssertionError)
    else
      var companyId :- Claim(payload, "company_id");
      if companyId == PyNone then Err(AssertionError)
      else
        var exp :- Claim(payload, "exp");
        if AsInt(exp).None? then Err(TypeError("fromtimestamp() needs a number"))
        else
          var t :- FromTimestamp(AsInt(exp).value);
          if t <= now then Err(AssertionError)
          else
            var level :- Claim(payload, "permission_level");
            if level == PyNone then Err(AssertionError)
            else if payload.entries.Keys - {"exp"} != ClaimNames - {"exp"} then
              Err(TypeError("Employee.__init__() got an unexpected keyword argument"))
            else if !id.PyStr? || !companyId.PyStr? then
              Err(TypeError("employee ids must be strings"))
            else
              assert payload.entries.Keys == (payload.entries.Keys - {"exp"}) + {"exp"};
              Ok((id.s, companyId.s, level))
  }

  /**
   * An expired token (exp at or before now) whose id and company_id are
   * present is refused with AssertionError, which the router answers with 401.
   */
  lemma ExpiredRefused(payload: Value, now: int)
    requires payload.PyDict? && ClaimNames <= payload.entries.Keys
    requires payload.entries["id"] != PyNone && payload.entries["company_id"] != PyNone
    requires AsInt(payload.entries["exp"]).Some? && MinTimestamp <= AsInt(payload.entries["exp"]).value <= now
    requires AsInt(payload.entries["exp"]).value <= MaxTimestamp
    ensures CheckClaims(payload, now) == Err(AssertionError)
  {
    assert FromTimestamp(AsInt(payload.entries["exp"]).value).Ok?;
  }

  /**
   * An `exp` past the year 9999 is refused before it is compared with now:
   * ValueError within `time_t`, which the router answers with 401, and
   * OverflowError beyond it, which the router answers with 500.
   */
  lemma FarFutureRefused(payload: Value, now: int)
    requires payload.PyDict? && ClaimNames <= payload.entries.Keys
    requires payload.entries["id"] != PyNone && payload.entries["company_id"] != PyNone
    requires AsInt(payload.entries["exp"]).Some? && AsInt(payload.entries["exp"]).value > MaxTimestamp
    ensures AsInt(payload.entries["exp"]).value <= MaxTimeT ==> CheckClaims(payload, now) == Err(ValueError("year is out of range"))
    ensures AsInt(payload.entries["exp"]).value > MaxTimeT ==>
      CheckClaims(payload, now) == Err(OverflowError("timestamp out of range for platform time_t"))
  {
  }

  /**
   * Expiry is checked here and not by the decoder: a well-signed token whose
   * `exp` has passed decodes, and is then refused by the claim check.
   */
  lemma ExpiryOnlyHere(payload: Value, secret: string, p: Primitives, now: int)
    requires WellBehaved(p) && IsJson(payload)
    requires payload.PyDict? && ClaimNames <= payload.entries.Keys
    requires payload.entries["id"] != PyNone && payload.entries["company_id"] != PyNone
    requires AsInt(payload.entries["exp"]).Some? && MinTimestamp <= AsInt(payload.entries["exp"]).value <= now
    requires AsInt(payload.entries["exp"]).value <= MaxTimestamp
    ensures Serializable(payload)
    ensures DecodeJwt(EncodeJwt(payload, secret, p).value, secret, p) == Ok(payload)
    ensures CheckClaims(payload, now) == Err(AssertionError)
  {
    RoundTrip(payload, secret, p);
    ExpiredRefused(payload, now);
  }

  /** A payload carrying any claim besides the four is refused with TypeError. */
  lemma ExtraClaimRefused(payload: Value, now: int, extra: string)
    requires payload.PyDict? && ClaimNames <= payload.entries.Keys && extra in payload.entries && extra !in ClaimNames
    ensures CheckClaims(payload, now).Err?
  {
  }

  /**
   * What `authenticate_employee(jwt, env)` decides, with `now` for
   * `datetime.now()` in whole seconds: (id, company_id, level) of the
   * employee it builds, or the exception it raises. Decoding failures are
   * ValueErrors; the claim checks raise TypeError, KeyError,
   * AssertionError, or ValueError or OverflowError for an `exp` out of range; the permission level setter raises ValueError.
   */
  function Authenticate(token: string, secret: string, now: int, p: Primitives)
    : (r: Result<(string, string, PermissionLevel)>)
    ensures DecodeJwt(token, secret, p).Err? ==> r == Err(DecodeJwt(token, secret, p).error)
    ensures DecodeJwt(token, secret, p).Ok? && CheckClaims(DecodeJwt(token, secret, p).value, now).Err? ==>
      r == Err(CheckClaims(DecodeJwt(token, secret, p).value, now).error)
    ensures r.Ok? <==> (DecodeJwt(token, secret, p).Ok? && CheckClaims(DecodeJwt(token, secret, p).value, now).Ok?
      && LevelOf(CheckClaims(DecodeJwt(token, secret, p).value, now).value.2).Some?)
    ensures r.Ok? ==> var claims := CheckClaims(DecodeJwt(token, secret, p).value, now).value;
      r.value == (claims.0, claims.1, LevelOf(claims.2).value)
    ensures r.Err? ==> (r.error.ValueError? || r.error.TypeError? || r.error.KeyError? || r.error == AssertionError
      || r.error.OverflowError?)
  {
    var payload :- DecodeJwt(token, secret, p);
    var claims :- CheckClaims(payload, now);
    match LevelOf(claims.2)
    case None => Err(ValueError("Invalid permission level"))
    case Some(level) => Ok((claims.0, claims.1, level))
  }

  /** `authenticate_employee(jwt, env)`: the employee `Authenticate` describes, freshly built. */
  method AuthenticateEmployee(token: string, secret: string, now: int, p: Primitives) returns (r: Result<Employee>)
    ensures r.Ok? <==> Authenticate(token, secret, now, p).Ok?
    ensures r.Err? ==> r.error == Authenticate(token, secret, now, p).error
    ensures r.Ok? ==> fresh(r.value)
    ensures r.Ok? ==> (r.value.id, r.value.companyId, r.value.permissionLevel) == Authenticate(token, secret, now, p).value
  {
    var payload :- DecodeJwt(token, secret, p);
    var claims :- CheckClaims(payload, now);
    r := Employee.New(claims.0, claims.1, Some(claims.2));
  }
}

/**
 * One-time download tokens (`generate_signed_url_token` and
 * `validate_signed_url` in `workers/src/api_entry.py`). The KV namespace
 * SIGNED_URL_KEYS is a map from token to stored value; the clock and the
 * uuid generator are parameters.
 */
module SignedUrl {
  import opened Wrappers
  import opened Strings
  import opened DbOps

  /** The default lifetime of a token, in seconds. */
  const ExpirationSeconds: int := 300

  /** The four fields of a stored token value, as text. */
  datatype TokenFields = TokenFields(expiration: string, fileKey: string, employeeId: string, companyId: string)

  /** `f"{expiration}|{file_key}|{employee_id}|{company_id}"`. */
  function EncodeTokenValue(expiration: int, fileKey: string, employeeId: string, companyId: string): (v: string)
    ensures v != ""
  {
    IntToString(expiration) + "|" + (fileKey + "|" + (employeeId + "|" + companyId))
  }

  /**
   * `expiration, file_key, employee_id, company_id = value.split("|", 3)`:
   * fewer than three separators cannot be unpacked into four names.
   */
  function DecodeTokenValue(v: string): (r: Result<TokenFields>)
    ensures r.Ok? <==> |SplitN(v, '|', 3)| == 4
    ensures r.Err? ==> r.error.ValueError?
  {
    var parts := SplitN(v, '|', 3);
    if |parts| != 4 then Err(ValueError("not enough values to unpack"))
    else Ok(TokenFields(parts[0], parts[1], parts[2], parts[3]))
  }

  /**
   * Decoding recovers exactly what was encoded, the expiration reading back
   * as the same integer, whenever the file key and the employee id hold no '|'.
   */
  lemma DecodeEncode(expiration: int, fileKey: string, employeeId: string, companyId: string)
    requires '|' !in fileKey && '|' !in employeeId
    ensures DecodeTokenValue(EncodeTokenValue(expiration, fileKey, employeeId, companyId))
      == Ok(TokenFields(IntToString(expiration), fileKey, employeeId, companyId))
    ensures ParseInt(IntToString(expiration)) == Ok(expiration)
  {
    IntToStringHasNo(expiration, '|');
    SplitN3Concat(IntToString(expiration), fileKey, employeeId, companyId, '|');
    ParseIntOfInt(expiration);
  }

  /**
   * The converse: with a '|' in the file key or in the employee id, decoding
   * does not give back the fields that were encoded.
   */
  lemma PipeBreaksDecode(expiration: int, fileKey: string, employeeId: string, companyId: string)
    requires '|' in fileKey || '|' in employeeId
    ensures DecodeTokenValue(EncodeTokenValue(expiration, fileKey, employeeId, companyId))
      != Ok(TokenFields(IntToString(expiration), fileKey, employeeId, companyId))
  {
    var e := IntToString(expiration);
    IntToStringHasNo(expiration, '|');
    var tail := employeeId + "|" + companyId;
    var rest := fileKey + "|" + tail;
    var parts := SplitN(e + "|" + rest, '|', 3);
    SplitOnceConcat(e, rest, '|', 3);
    assert parts == [e] + SplitN(rest, '|', 2);
    SplitOnceConcat(fileKey, tail, '|', 2);
    if '|' !in fileKey {
      SplitOnceConcat(employeeId, companyId, '|', 1);
      assert SplitN(rest, '|', 2) == [fileKey] + SplitN(tail, '|', 1);
      if |parts| == 4 {
        assert parts[2] == SplitN(tail, '|', 1)[0];
        assert |parts[2]| < |employeeId|;
      }
    } else {
      if |parts| == 4 {
        assert |parts[1]| < |fileKey|;
      }
    }
  }

  /** A concrete value: key "a|b" comes back as key "a" with employee "b". */
  lemma PipeInKeyExample()
    ensures DecodeTokenValue(EncodeTokenValue(1, "a|b", "e", "c")) == Ok(TokenFields("1", "a", "b", "e|c"))
  {
    assert EncodeTokenValue(1, "a|b", "e", "c") == "1" + "|" + ("a" + "|" + ("b" + "|" + "e|c"));
    SplitN3Concat("1", "a", "b", "e|c", '|');
  }

  /**
   * The evidently intended decoding: the expiration is split off at the first
   * '|' and the company and employee ids at the last two, so that the file key
   * between them, a user-chosen path, may itself contain '|'.
   */
  function DecodeTokenValueFixed(v: string): (r: Result<TokenFields>)
    ensures r.Err? ==> r.error.ValueError?
    ensures r.Ok? ==> '|' !in r.value.expiration && '|' !in r.value.employeeId && '|' !in r.value.companyId
  {
    match SplitOnce(v, '|')
    case None => Err(ValueError("not enough values to unpack"))
    case Some((expiration, rest)) =>
      match RSplitOnce(rest, '|')
      case None => Err(ValueError("not enough values to unpack"))
      case Some((front, companyId)) =>
        match RSplitOnce(front, '|')
        case None => Err(ValueError("not enough values to unpack"))
        case Some((fileKey, employeeId)) => Ok(TokenFields(expiration, fileKey, employeeId, companyId))
  }

  /** The corrected decoding only splits: the fields put back together are the value. */
  lemma DecodeFixedSplits(v: string)
    requires DecodeTokenValueFixed(v).Ok?
    ensures var f := DecodeTokenValueFixed(v).value;
      v == f.expiration + "|" + ((f.fileKey + "|" + f.employeeId) + "|" + f.companyId)
  {
  }

  /** With the corrected decoding any file key survives the round trip. */
  lemma DecodeEncodeFixed(expiration: int, fileKey: string, employeeId: string, companyId: string)
    requires '|' !in employeeId && '|' !in companyId
    ensures DecodeTokenValueFixed(EncodeTokenValue(expiration, fileKey, employeeId, companyId))
      == Ok(TokenFields(IntToString(expiration), fileKey, employeeId, companyId))
  {
    var e := IntToString(expiration);
    IntToStringHasNo(expiration, '|');
    var front := fileKey + "|" + employeeId;
    var rest := front + "|" + companyId;
    assert e + "|" + rest == EncodeTokenValue(expiration, fileKey, employeeId, companyId) by {
      assert rest == fileKey + "|" + (employeeId + "|" + companyId);
    }
    SplitOnceOf(e, rest, '|');
    RSplitOnceOf(front, companyId, '|');
    RSplitOnceOf(fileKey, employeeId, '|');
  }

  /**
   * `validate_signed_url`: the result and the KV contents afterwards. A
   * missing or empty value gives None. A value that does not unpack, an
   * employee that `get_employee` cannot find or an expiration that is not an
   * integer raise ValueError and leave the token in place. Otherwise the token
   * is deleted, and the key and employee are returned unless the current time
   * is past the expiration. The value is unpacked with the corrected
   * `DecodeTokenValueFixed`; the code as written splits it at the first three
   * '|' (`DecodeTokenValue`).
   */
  function RedeemOutcome(kv: map<string, string>, token: string, db: Db, now: int)
    : (out: (Result<Option<(string, EmployeeRow)>>, map<string, string>))
    ensures token !in kv || kv[token] == "" ==> out == (Ok(None), kv)
    ensures out.0.Err? ==> out.0.error.ValueError? && out.1 == kv
    ensures out.0.Ok? && out.1 != kv ==> out.1 == kv - {token}
    ensures out.0.Ok? && out.0.value.Some? ==> (token in kv && out.1 == kv - {token}
      && DoesEmployeeExist(db, out.0.value.value.1.id, out.0.value.value.1.companyId))
  {
    if token !in kv || kv[token] == "" then (Ok(None), kv)
    else
      var (result, consumed) := RedeemValue(kv[token], db, now);
      (result, if consumed then kv - {token} else kv)
  }

  /**
   * `validate_signed_url` once a non-empty value was read: the result, and
   * whether the token is deleted. Every error leaves it in place; every
   * result, expired or not, deletes it.
   */
  function RedeemValue(v: string, db: Db, now: int): (r: (Result<Option<(string, EmployeeRow)>>, bool))
    ensures r.0.Err? ==> r.0.error.ValueError? && !r.1
    ensures r.0.Ok? ==> r.1
    ensures r.0.Ok? && r.0.value.Some? ==> DoesEmployeeExist(db, r.0.value.value.1.id, r.0.value.value.1.companyId)
  {
    match DecodeTokenValueFixed(v)
    case Err(e) => (Err(e), false)
    case Ok(f) =>
      match GetEmployee(db, f.employeeId, f.companyId)
      case Err(e) => (Err(e), false)
      case Ok(row) =>
        match ParseInt(f.expiration)
        case Err(e) => (Err(e), false)
        case Ok(expiration) =>
          if now > expiration then (Ok(None), true)
          else (Ok(Some((f.fileKey, row))), true)
  }

  /**
   * A token issued at `issuedAt` for a registered employee whose ids hold no
   * '|' redeems to that key, whatever it holds, and to that employee at any time up to and including
   * `issuedAt + 300`, and to None afterwards; either way it is consumed.
   */
  lemma IssueThenRedeem(kv: map<string, string>, db: Db, token: string, fileKey: string,
                        employeeId: string, companyId: string, issuedAt: int, now: int)
    requires '|' !in employeeId && '|' !in companyId
    requires DoesEmployeeExist(db, employeeId, companyId)
    ensures var kv1 := kv[token := EncodeTokenValue(issuedAt + ExpirationSeconds, fileKey, employeeId, companyId)];
      RedeemOutcome(kv1, token, db, now)
        == (if now > issuedAt + ExpirationSeconds then Ok(None)
            else Ok(Some((fileKey, EmployeeRow(employeeId, companyId, db.employees[(employeeId, companyId)])))),
            kv1 - {token})
  {
    var v := EncodeTokenValue(issuedAt + ExpirationSeconds, fileKey, employeeId, companyId);
    RedeemEncoded(issuedAt + ExpirationSeconds, fileKey, employeeId, companyId, db, now);
    var kv1 := kv[token := v];
    assert token in kv1 && kv1[token] == v && v != "";
  }

  /** The stored value of a well-formed token redeems by its expiration alone. */
  lemma RedeemEncoded(expiration: int, fileKey: string, employeeId: string, companyId: string, db: Db, now: int)
    requires '|' !in employeeId && '|' !in companyId
    requires DoesEmployeeExist(db, employeeId, companyId)
    ensures RedeemValue(EncodeTokenValue(expiration, fileKey, employeeId, companyId), db, now)
      == (if now > expiration then Ok(None)
          else Ok(Some((fileKey, EmployeeRow(employeeId, companyId, db.employees[(employeeId, companyId)])))), true)
  {
    DecodeEncodeFixed(expiration, fileKey, employeeId, companyId);
    ParseIntOfInt(expiration);
  }

  /** Tokens are one-time: after a successful redemption the same token gives None. */
  lemma RedeemOnce(kv: map<string, string>, token: string, db: Db, now: int, later: int)
    requires RedeemOutcome(kv, token, db, now).0.Ok?
    requires RedeemOutcome(kv, token, db, now).0.value.Some?
    ensures var after := RedeemOutcome(kv, token, db, now).1;
      RedeemOutcome(after, token, db, later) == (Ok(None), after)
  {
  }

  /** The KV namespace SIGNED_URL_KEYS. */
  class TokenStore {
    var kv: map<string, string>

    constructor ()
      ensures kv == map[]
    {
      kv := map[];
    }

    /**
     * `generate_signed_url_token`: `token` stands for the fresh uuid4 and `now`
     * for `int(time.time())`. The stored value is never empty, so the
     * read-back check never raises.
     */
    method GenerateSignedUrlToken(fileKey: string, employeeId: string, companyId: string,
                                  now: int, token: string, expirationSeconds: int) returns (r: Result<string>)
      modifies this
      ensures r == Ok(token)
      ensures kv == old(kv)[token := EncodeTokenValue(now + expirationSeconds, fileKey, employeeId, companyId)]
    {
      var value := EncodeTokenValue(now + expirationSeconds, fileKey, employeeId, companyId);
      kv := kv[token := value];
      var readBack := kv[token];
      if readBack == "" {
        return Err(ValueError("Failed to generate signed URL token"));
      }
      return Ok(token);
    }

    /** `validate_signed_url`, with `now` for `int(time.time())`. */
    method ValidateSignedUrl(token: string, store: AccessStore, now: int)
      returns (r: Result<Option<(string, EmployeeRow)>>)
      modifies this
      ensures (r, kv) == RedeemOutcome(old(kv), token, store.State(), now)
    {
      if token !in kv || kv[token] == "" {
        return Ok(None);
      }
      var fields :- DecodeTokenValueFixed(kv[token]);
      var employee :- GetEmployee(store.State(), fields.employeeId, fields.companyId);
      var expiration :- ParseInt(fields.expiration);
      if now > expiration {
        kv := kv - {token};
        return Ok(None);
      }
      kv := kv - {token};
      return Ok(Some((fields.fileKey, employee)));
    }
  }
}

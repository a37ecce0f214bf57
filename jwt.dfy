/**
 * The HS256 JSON Web Token codec of `workers/src/jwt.py`: the JWS compact
 * serialization (section 7.1 of RFC 7515) of RFC 7519 tokens. Base64url,
 * JSON and HMAC-SHA256 are not modelled; they are passed in as functions, and
 * the round-trip facts the proofs need of them are stated by `WellBehaved`.
 */
module Jwt {
  import opened Wrappers
  import opened Strings
  import opened Values

  datatype Primitives = Primitives(
    /** `base64.urlsafe_b64encode(b).rstrip(b'=').decode()` */
    b64Encode: seq<byte> -> string,
    /** `base64.urlsafe_b64decode(s + '==')`, None where it raises */
    b64Decode: string -> Option<seq<byte>>,
    /** `json.dumps(v).encode()` */
    dumps: Value -> seq<byte>,
    /** `json.loads(b.decode('utf-8'))`, None where it raises */
    loads: seq<byte> -> Option<Value>,
    /** `hmac.new(key, message, hashlib.sha256).digest()` */
    hmac: (seq<byte>, seq<byte>) -> seq<byte>,
    /** `s.encode('utf-8')` */
    utf8: string -> seq<byte>)

  /**
   * What the libraries guarantee: unpadded url-safe base64 decodes back, uses
   * neither '.' nor '=', and JSON text of a JSON value parses back to it.
   */
  ghost predicate WellBehaved(p: Primitives) {
    && (forall b :: p.b64Decode(p.b64Encode(b)) == Some(b))
    && (forall b :: '.' !in p.b64Encode(b) && '=' !in p.b64Encode(b))
    && (forall v :: IsJson(v) ==> p.loads(p.dumps(v)) == Some(v))
  }

  /** The fixed header `{"alg": "HS256", "typ": "JWT"}`. */
  const Header: Value := PyDict(map["alg" := PyStr("HS256"), "typ" := PyStr("JWT")])

  /** The HMAC of `header_b64.payload_b64` under the secret, as `decode_jwt` recomputes it. */
  function ExpectedSignature(p: Primitives, secret: string, headerB64: string, payloadB64: string): seq<byte> {
    p.hmac(p.utf8(secret), p.utf8(headerB64 + "." + payloadB64))
  }

  /**
   * `decode_jwt`: three '.'-separated segments, the payload segment decoded
   * and parsed, and the payload returned only when the decoded signature
   * segment equals the HMAC of the first two segments. The header segment is
   * never decoded and no claim is looked at. Every failure is a ValueError.
   */
  function DecodeJwt(token: string, secret: string, p: Primitives): (r: Result<Value>)
    ensures r.Err? ==> r.error.ValueError?
    ensures r.Ok? ==> |Split(token, '.')| == 3
    ensures r.Ok? ==> var parts := Split(token, '.');
      p.b64Decode(parts[2]) == Some(ExpectedSignature(p, secret, parts[0], parts[1]))
      && p.b64Decode(parts[1]).Some? && p.loads(p.b64Decode(parts[1]).value) == Some(r.value)
  {
    var parts := Split(token, '.');
    if |parts| != 3 then Err(ValueError("Decoding JWT: not enough values to unpack"))
    else
      match p.b64Decode(parts[1])
      case None => Err(ValueError("Decoding JWT: invalid base64"))
      case Some(payloadBytes) =>
        match p.loads(payloadBytes)
        case None => Err(ValueError("Decoding JWT: invalid JSON"))
        case Some(payload) =>
          match p.b64Decode(parts[2])
          case None => Err(ValueError("Decoding JWT: invalid base64"))
          case Some(signature) =>
            if signature == ExpectedSignature(p, secret, parts[0], parts[1]) then Ok(payload)
            else Err(ValueError("Decoding JWT: Invalid signature"))
  }

  /** `encode_jwt`; `json.dumps` raises TypeError on a payload holding bytes. */
  function EncodeJwt(payload: Value, secret: string, p: Primitives): (r: Result<string>)
    ensures r.Ok? <==> Serializable(payload)
    ensures r.Err? ==> r.error.TypeError?
  {
    if !Serializable(payload) then Err(TypeError("Object of type bytes is not JSON serializable"))
    else
      var headerB64 := p.b64Encode(p.dumps(Header));
      var payloadB64 := p.b64Encode(p.dumps(payload));
      var signatureB64 := p.b64Encode(ExpectedSignature(p, secret, headerB64, payloadB64));
      Ok(headerB64 + "." + (payloadB64 + "." + signatureB64))
  }

  lemma Split3(a: string, b: string, c: string)
    requires '.' !in a && '.' !in b && '.' !in c
    ensures Split(a + "." + (b + "." + c), '.') == [a, b, c]
  {
    SplitConcat(a, b + "." + c, '.');
    SplitConcat(b, c, '.');
    SplitNoSep(a, '.');
    SplitNoSep(b, '.');
    SplitNoSep(c, '.');
  }

  /** An encoded token is three segments around exactly two '.' and carries no '=' padding. */
  lemma EncodeShape(payload: Value, secret: string, p: Primitives)
    requires WellBehaved(p) && Serializable(payload)
    ensures var t := EncodeJwt(payload, secret, p).value;
      |Split(t, '.')| == 3 && '=' !in t
  {
    var h := p.b64Encode(p.dumps(Header));
    var pl := p.b64Encode(p.dumps(payload));
    var s := p.b64Encode(ExpectedSignature(p, secret, h, pl));
    Split3(h, pl, s);
    var t := h + "." + (pl + "." + s);
    assert forall i :: 0 <= i < |t| ==> t[i] != '=' by {
      forall i | 0 <= i < |t| ensures t[i] != '=' {
        if i < |h| {
          assert t[i] == h[i] && h[i] in h;
        } else if i == |h| {
        } else if i < |h| + 1 + |pl| {
          assert t[i] == pl[i - |h| - 1] && pl[i - |h| - 1] in pl;
        } else if i == |h| + 1 + |pl| {
        } else {
          assert t[i] == s[i - |h| - 2 - |pl|] && s[i - |h| - 2 - |pl|] in s;
        }
      }
    }
  }

  /** `decode_jwt(encode_jwt(payload, secret), secret) == payload` for a JSON payload. */
  lemma RoundTrip(payload: Value, secret: string, p: Primitives)
    requires WellBehaved(p) && IsJson(payload)
    ensures Serializable(payload) && DecodeJwt(EncodeJwt(payload, secret, p).value, secret, p) == Ok(payload)
  {
    JsonSerializable(payload);
    var h := p.b64Encode(p.dumps(Header));
    var pl := p.b64Encode(p.dumps(payload));
    var s := p.b64Encode(ExpectedSignature(p, secret, h, pl));
    Split3(h, pl, s);
  }

  lemma {:induction false} JsonSerializable(v: Value)
    requires IsJson(v)
    ensures Serializable(v)
  {
    match v
    case PyList(xs) =>
      forall x | x in xs ensures Serializable(x) {
        JsonSerializable(x);
      }
    case PyDict(m) =>
      forall k | k in m ensures Serializable(m[k]) {
        JsonSerializable(m[k]);
      }
    case _ =>
  }

  /**
   * The header is never checked: a token whose header segment is any text
   * without '.' (another alg, or not base64 at all) decodes as long as its
   * signature is the HMAC of that header and the payload.
   */
  lemma AcceptsAnyHeader(header: string, payload: Value, secret: string, p: Primitives)
    requires WellBehaved(p) && IsJson(payload) && '.' !in header
    ensures var pl := p.b64Encode(p.dumps(payload));
      var s := p.b64Encode(ExpectedSignature(p, secret, header, pl));
      DecodeJwt(header + "." + (pl + "." + s), secret, p) == Ok(payload)
  {
    var pl := p.b64Encode(p.dumps(payload));
    var s := p.b64Encode(ExpectedSignature(p, secret, header, pl));
    Split3(header, pl, s);
  }

  /** A token signed with another key is refused whenever the two HMACs differ. */
  lemma WrongSecretRefused(payload: Value, secret: string, other: string, p: Primitives)
    requires WellBehaved(p) && IsJson(payload)
    requires var h := p.b64Encode(p.dumps(Header));
      var pl := p.b64Encode(p.dumps(payload));
      ExpectedSignature(p, secret, h, pl) != ExpectedSignature(p, other, h, pl)
    ensures Serializable(payload) && DecodeJwt(EncodeJwt(payload, secret, p).value, other, p).Err?
  {
    JsonSerializable(payload);
    var h := p.b64Encode(p.dumps(Header));
    var pl := p.b64Encode(p.dumps(payload));
    var s := p.b64Encode(ExpectedSignature(p, secret, h, pl));
    Split3(h, pl, s);
  }
}

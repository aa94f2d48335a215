/**
 * Token issuing and checking on the server (simple_webapp_k8s/auth_utils.py).
 *
 * `create_access_token` copies the caller's claims, sets `exp` (section
 * 4.1.4 of RFC 7519) and signs the result; `get_current_user` decodes a
 * presented token and answers with its `sub` claim (section 4.1.2 of RFC
 * 7519) or with a 401 error. JWT signing and decoding are foreign code: they
 * are passed in as functions. Times are integer seconds since the epoch (the
 * NumericDate of RFC 7519), and `now` is a parameter.
 */
module AuthUtils {
  import opened Wrappers

  /** A claim value: the JSON null, booleans, integers and strings. */
  datatype Value = Null | Bool(b: bool) | Int(i: int) | Str(s: string)

  /** A token payload: claim names to values. */
  type Claims = map<string, Value>

  /** The lifetime of a token when the caller gives no (or a zero) lifetime: 15 minutes. */
  const DefaultExpireSeconds: int := 15 * 60

  const Unauthorized: int := 401

  /** An `HTTPException`: status code, detail text and response headers. */
  datatype HttpError = HttpError(status: int, detail: string, headers: map<string, string>)

  /** The exception `get_current_user` raises for every token it does not accept. */
  const CredentialsError: HttpError :=
    HttpError(Unauthorized, "Could not validate credentials", map["WWW-Authenticate" := "Bearer"])

  /** Python truthiness of an optional `timedelta`: absent and zero are falsy. */
  predicate TruthyDelta(delta: Option<int>)
  {
    delta.Some? && delta.value != 0
  }

  /**
   * The payload `create_access_token` signs: a copy of `data` with `exp`
   * added or overwritten. A truthy `expiresDelta` (negative ones included)
   * is added to `now`; otherwise the token lives 15 minutes.
   */
  function TokenPayload(data: Claims, expiresDelta: Option<int>, now: int): (payload: Claims)
    ensures payload.Keys == data.Keys + {"exp"}
    ensures forall k :: k in data && k != "exp" ==> payload[k] == data[k]
    ensures TruthyDelta(expiresDelta) ==> payload["exp"] == Int(now + expiresDelta.value)
    ensures !TruthyDelta(expiresDelta) ==> payload["exp"] == Int(now + DefaultExpireSeconds)
  {
    var expire := if TruthyDelta(expiresDelta)
                  then now + expiresDelta.value
                  else now + DefaultExpireSeconds;
    data["exp" := Int(expire)]
  }

  /** `create_access_token`: the signed payload. `data` is a value, so the caller's copy is never changed. */
  function CreateAccessToken(data: Claims, expiresDelta: Option<int>, now: int,
                             encode: Claims -> string): (token: string)
    ensures token == encode(TokenPayload(data, expiresDelta, now))
  {
    encode(TokenPayload(data, expiresDelta, now))
  }

  /**
   * How `jwt.decode` fails. python-jose raises a `JWTError` (or a subclass)
   * for a bad signature or format, an expired token, or a registered claim
   * it refuses. A few malformed claims raise another exception instead, such
   * as the `TypeError` of `int(None)` for `"exp": null`.
   */
  datatype DecodeError = JwtError | OtherException

  /**
   * How `get_current_user` fails: the 401 it raises, or an exception that
   * its `except JWTError` does not catch and that escapes it (the framework
   * then answers 500).
   */
  datatype AuthFailure = Raised(error: HttpError) | Escaped

  /** `get_current_user`: the `sub` claim of a token that decodes at time `now`, or the failure. */
  function GetCurrentUser(token: string, now: int,
                          decode: (string, int) -> Result<Claims, DecodeError>): (r: Result<string, AuthFailure>)
    ensures r.Success? <==> decode(token, now).Success?
                            && "sub" in decode(token, now).value
                            && decode(token, now).value["sub"].Str?
    ensures r.Success? ==> decode(token, now).value["sub"] == Str(r.value)
    // any `JWTError`, and a missing or null `sub`, give the one 401
    ensures decode(token, now) == Failure(JwtError) ==> r == Failure(Raised(CredentialsError))
    ensures decode(token, now).Success?
            && ("sub" !in decode(token, now).value || decode(token, now).value["sub"] == Null)
            ==> r == Failure(Raised(CredentialsError))
    // another exception from the decoder is not caught
    ensures decode(token, now) == Failure(OtherException) ==> r == Failure(Escaped)
    // and neither is the validation error of a `sub` that is neither a string nor null
    ensures decode(token, now).Success? && "sub" in decode(token, now).value
            && !decode(token, now).value["sub"].Str? && decode(token, now).value["sub"] != Null
            ==> r == Failure(Escaped)
    ensures r.Failure? && r.error.Raised? ==> r.error.error == CredentialsError
  {
    match decode(token, now)
    case Failure(JwtError) => Failure(Raised(CredentialsError))
    case Failure(OtherException) => Failure(Escaped)
    case Success(payload) =>
      // `payload.get("sub")` is None for a missing claim and for a JSON null
      if "sub" !in payload || payload["sub"] == Null then Failure(Raised(CredentialsError))
      else if payload["sub"].Str? then Success(payload["sub"].s)
      // `TokenData` refuses a `sub` that is not a string with a validation error,
      // which is not a `JWTError` (python-jose's decoder already rejects such a `sub`)
      else Failure(Escaped)
  }

  /** Only a null `sub` is rejected: an empty subject is accepted as the user "". */
  lemma EmptySubjectAccepted(token: string, now: int,
                             decode: (string, int) -> Result<Claims, DecodeError>)
    requires decode(token, now).Success? && "sub" in decode(token, now).value
    requires decode(token, now).value["sub"] == Str("")
    ensures GetCurrentUser(token, now, decode) == Success("")
  {
  }

  // ---------------------------------------------------------------------
  // What python-jose's `jwt.decode`, called with the signing key and no
  // audience, does with a token that `encode` produced with the same key.
  // ---------------------------------------------------------------------

  /** The time claims are integers wherever present, so reading them raises nothing. */
  predicate TimeClaimsWellTyped(payload: Claims)
  {
    && ("iat" in payload ==> payload["iat"].Int?)
    && ("nbf" in payload ==> payload["nbf"].Int?)
    && ("exp" in payload ==> payload["exp"].Int?)
  }

  /** The claims other than `exp` that the decoder accepts at `now`. */
  predicate OtherClaimsAcceptable(payload: Claims, now: int)
  {
    && ("iat" in payload ==> payload["iat"].Int?)
    && ("nbf" in payload ==> payload["nbf"].Int? && payload["nbf"].i <= now)
    && "aud" !in payload       // refused whenever no audience is expected
    && ("sub" in payload ==> payload["sub"].Str?)
    && ("jti" in payload ==> payload["jti"].Str?)
    && "at_hash" !in payload   // refused whenever no access token is given
  }

  /** A payload the decoder hands back unchanged at `now`. */
  predicate Acceptable(payload: Claims, now: int)
  {
    && "exp" in payload && payload["exp"].Int? && now <= payload["exp"].i
    && OtherClaimsAcceptable(payload, now)
  }

  /** A payload the decoder refuses with a `JWTError` at `now`: expired, not yet valid, or with an audience. */
  predicate Refused(payload: Claims, now: int)
  {
    && TimeClaimsWellTyped(payload)
    && (|| ("exp" in payload && now > payload["exp"].i)
        || ("nbf" in payload && payload["nbf"].i > now)
        || "aud" in payload)
  }

  /** `decode` undoes `encode` on the payloads python-jose accepts, and refuses those it refuses. */
  ghost predicate DecodesLikeJose(encode: Claims -> string, decode: (string, int) -> Result<Claims, DecodeError>)
  {
    && (forall payload: Claims, now: int ::
          Acceptable(payload, now) ==> decode(encode(payload), now) == Success(payload))
    && (forall payload: Claims, now: int ::
          Refused(payload, now) ==> decode(encode(payload), now) == Failure(JwtError))
  }

  /** A token issued for a subject identifies that subject until its `exp`. */
  lemma IssuedTokenIdentifiesSubject(data: Claims, expiresDelta: Option<int>, issuedAt: int, now: int,
                                     encode: Claims -> string,
                                     decode: (string, int) -> Result<Claims, DecodeError>)
    requires DecodesLikeJose(encode, decode)
    requires "sub" in data && data["sub"].Str? && OtherClaimsAcceptable(data, now)
    requires now <= TokenPayload(data, expiresDelta, issuedAt)["exp"].i
    ensures GetCurrentUser(CreateAccessToken(data, expiresDelta, issuedAt, encode), now, decode)
            == Success(data["sub"].s)
  {
  }

  /** After its `exp` an issued token gets the 401, as does one whose claims name an audience. */
  lemma IssuedTokenRefused(data: Claims, expiresDelta: Option<int>, issuedAt: int, now: int,
                           encode: Claims -> string,
                           decode: (string, int) -> Result<Claims, DecodeError>)
    requires DecodesLikeJose(encode, decode)
    requires ("iat" in data ==> data["iat"].Int?) && ("nbf" in data ==> data["nbf"].Int?)
    requires now > TokenPayload(data, expiresDelta, issuedAt)["exp"].i || "aud" in data
    ensures GetCurrentUser(CreateAccessToken(data, expiresDelta, issuedAt, encode), now, decode)
            == Failure(Raised(CredentialsError))
  {
  }
}

/**
 What the dispatcher can observe of the JSON Web Token libraries it calls.
 Their internals (base64url decoding, JSON parsing, HMAC-SHA256 and the
 clock checks of `jsonwebtoken`) are not part of this model: the dispatcher
 receives them as functions returning these result types.
 */
module Jwt {
  import opened JsValues

  /** The HMAC-SHA256 algorithm name of section 3.2 of RFC 7518. */
  const HS256: string := "HS256"

  /**
   The result of `JSON.parse` on the base64url-decoded first token segment.
   `DecodeFail` is a parse error. `NullHeader` is the JSON text `null`, the one
   parse result whose `alg` property cannot be read. Every other result is a
   `Header` whose `alg` is the property when it is a string, and `Undefined` when
   it is absent or not a string (a number, an array, a JSON primitive).
   */
  datatype HeaderDecode = DecodeFail | NullHeader | Header(alg: Maybe<string>)

  /**
   The result of `jwt.verify(token, key, { algorithms })`. `Expired` is a thrown
   `TokenExpiredError`; `OtherFailure` any other thrown error (bad signature,
   disallowed algorithm, not-before); `StringPayload` a verified payload that is
   a string; `Claims` a verified object payload, with its string-valued
   `sub`, `email` and `role` claims.
   */
  datatype VerifyResult =
    | Expired
    | OtherFailure
    | StringPayload
    | Claims(sub: Maybe<string>, email: Maybe<string>, role: Maybe<string>)
}

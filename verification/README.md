# Flexible bearer-token authentication dispatcher, in Dafny

This project models `flexibleAuthMiddleware`. This request-time dispatcher sits in front of the interview API. It accepts two kinds of bearer token: tokens issued by the identity provider, and locally signed HS256 tokens that grant scoped, anonymous access to one public interview. For each request it reads the `Authorization` header and decides on exactly one of four outcomes:

- **Rejected**: it sends a 401 reply `{ success: false, error }` with one of four fixed messages.
- **Scoped**: it assigns `request.user = { id, email, role: "public_interviewee" }` and binds a data client to the raw token. It then returns without running any further middleware.
- **Delegated**: it runs `authMiddleware` and then `subscriptionTierMiddleware`.
- **Uncaught**: an exception escapes the dispatcher, and the framework answers the request (see Findings).

The decision is sequential:

1. The scheme check uses the bearer scheme of section 2.1 of RFC 6750. The test is the exact, case-sensitive prefix `"Bearer "`.
2. The token is cut from the header with `substring(7)`.
3. The token is split on `'.'` and must have three parts, as in the compact serialization of section 7.1 of RFC 7515.
4. The first segment is decoded without verification to read `alg`.
5. The algorithm check is exact: only `alg === "HS256"` takes the local path (section 3.2 of RFC 7518).
6. On the local path, `jwt.verify` runs with the configured key and the fixed list `["HS256"]`, and then the verified `role` claim is checked.

Modules:

- `Strings` (`strings.dfy`): the JavaScript string operations the dispatcher uses: `startsWith`, the clamping `substring` and `split`. `Split` is paired with `Join` as its inverse and with `IndexOf` as a reference for "the first segment".
- `Jwt` (`jwt.dfy`): the result types of the two libraries the dispatcher calls. `HeaderDecode` is the result of `JSON.parse` on the decoded header. `VerifyResult` is the result of `jwt.verify`.
- `FlexibleAuth` (`flexible_auth.dfy`): the dispatcher. The `Env` datatype holds its collaborators and configuration as parameters: the signing key, the header decoder, `jwt.verify` as a function of (token, key, allowed algorithms), and whether the client factory throws. `Classify` holds the scheme check, the split and the decode, and returns a closed `Route`. `VerifyLocally` holds the HS256 branch. `Dispatch` is the whole middleware. Every call the dispatcher makes is recorded in order in the trace of the returned `Run`. So statements like "no verification happens" or "the delegated middlewares never run" are statements about that trace.
- `AuthProperties` (`auth_properties.dfy`): lemmas that relate outcomes to what the collaborators return, plus three whole requests: scoped access, an expired token and a provider token.

Behaviour kept as written and called out:

- A correctly signed HS256 token whose role is not `"public_interviewee"` is not rejected. It is verified locally, then handed to the provider middlewares (`AuthProperties.OtherRoleFallsThrough`). The `if` at server/src/middleware/flexibleAuth.ts:68 has no `else`, so control reaches :95. The comment at lines 93-94 presents the delegated path as the one for provider tokens, yet this HS256 token reaches it too.
- `subscriptionTierMiddleware` always runs after `authMiddleware`. Nothing checks whether the first one already replied (lines 95-96). `Dispatch` has no input for what `authMiddleware` did. Its contract fixes that every delegation ends with the pair `[AuthMiddleware, TierMiddleware]`. The model follows the code, so the tier middleware runs even after a rejection by `authMiddleware`.
- A client factory that throws at line 76 is caught at line 79 and answered as 401 "Invalid token". By then `request.user` has already been assigned (lines 70-74). The trace shows `AssignUser` before the rejection (`AuthProperties.ClientFactoryFailureIsInvalidToken`).
- A verified payload that is a string gets 401 "Invalid token format" (lines 59-64). The `catch` at lines 79-90 handles only thrown errors; this case is the separate `typeof` check before it.

## Model

| member | source | states |
|---|---|---|
| `Strings.Substring` | server/src/middleware/flexibleAuth.ts:26 | `substring(start)` clamps: past the end it gives "", otherwise the prefix of length `start` followed by the result is the original string |
| `Strings.SubstringAfterPrefix` | server/src/middleware/flexibleAuth.ts:19-26 | after a successful `startsWith(p)`, `p` followed by `substring(\|p\|)` is the whole header, so nothing but the prefix is removed |
| `Strings.StartsWithConcat` | server/src/middleware/flexibleAuth.ts:19 | `startsWith(p)` holds exactly when the string is `p` followed by something |
| `Strings.Split` | server/src/middleware/flexibleAuth.ts:32 | `split('.')` yields one more part than there are dots, and no part contains a dot; "" yields one part |
| `Strings.IndexOf` | server/src/middleware/flexibleAuth.ts:42 | the position of the first separator (or the length): no separator before it, the separator at it |
| `Strings.JoinSplit` | server/src/middleware/flexibleAuth.ts:32 | joining the parts of a split with the separator restores the token: splitting loses nothing |
| `Strings.SplitJoin` | server/src/middleware/flexibleAuth.ts:32 | splitting a join of separator-free parts gives back exactly those parts |
| `Strings.SplitHead` | server/src/middleware/flexibleAuth.ts:42 | `tokenParts[0]` is the token up to its first dot |
| `Strings.SplitThree` | server/src/middleware/flexibleAuth.ts:32-33 | three dot-free segments joined by dots split back into those three |
| `FlexibleAuth.BearerToken` | server/src/middleware/flexibleAuth.ts:26 | the token is the header with exactly `"Bearer "` removed: prefix plus token is the header |
| `FlexibleAuth.Classify` | server/src/middleware/flexibleAuth.ts:19-52 | missing or wrong scheme gives "Missing or invalid authorization header" with nothing decoded; a dot count other than two gives "Invalid token format" with nothing decoded; otherwise only the segment before the first dot is decoded; a parse failure gives "Invalid token format"; `null` is unreadable; the local route is taken iff `alg` is exactly "HS256", and every other header is delegated with the token the header carried |
| `FlexibleAuth.VerifyLocally` | server/src/middleware/flexibleAuth.ts:52-91 | the first call is `jwt.verify(token, key, ["HS256"])` and it is the only verification; every client is built from the same token; every reply is a 401 with one of the four messages; the scoped client is bound to the token with role "public_interviewee"; delegation, when it happens, is the verify followed by auth then tier, and otherwise neither middleware runs |
| `FlexibleAuth.Dispatch` | server/src/middleware/flexibleAuth.ts:13-97 | every reply is 401, `success: false`, with one of the four messages; a header that is missing or has the wrong scheme is refused with an empty trace; a token without exactly two dots is refused with an empty trace; scoped access binds the client to the header's token and sets the role "public_interviewee"; delegation always ends with auth then tier; no other outcome runs either middleware; an exception escapes exactly when the header segment decodes to `null` |
| `FlexibleAuth.DispatchGuarded` | server/src/middleware/flexibleAuth.ts:40-52 | with the `alg` read guarded, no exception escapes and every reply is still a 401 with one of the four messages; on every input where the code as written does not throw, the outcome is identical; a well-framed token whose header segment decodes to `null` gets 401 "Invalid token format" after the one decode, exactly like an unparsable header |
| `AuthProperties.ThreeSegmentToken` | server/src/middleware/flexibleAuth.ts:32-42 | `h.p.s` with dot-free segments passes the three-part check and its first part is `h` |
| `AuthProperties.BearerHeader` | server/src/middleware/flexibleAuth.ts:19-26 | every `"Bearer " + t` header passes the scheme check and yields back exactly `t` |
| `AuthProperties.LowercaseSchemeIsRefused` | server/src/middleware/flexibleAuth.ts:19-24 | the scheme test is case-sensitive: `"bearer ..."` is refused with "Missing or invalid authorization header" and no call |
| `AuthProperties.UnparsableHeaderIsRefused` | server/src/middleware/flexibleAuth.ts:40-48 | a header segment that fails to parse gives 401 "Invalid token format" after the one decode, with no verification and no delegation |
| `AuthProperties.ForeignAlgorithmIsDelegated` | server/src/middleware/flexibleAuth.ts:52-96 | any `alg` other than exactly "HS256" (absent, "hs256", "ES256") is decoded and then goes straight to auth then tier, with no local verification |
| `AuthProperties.LocalRoute` | server/src/middleware/flexibleAuth.ts:50-91 | when the unverified header says exactly "HS256", the request's run is the single header decode followed by the run of the HS256 branch, with nothing in between and nothing after |
| `AuthProperties.LocalFailuresAreTerminal` | server/src/middleware/flexibleAuth.ts:55-90 | on the HS256 path, expiry gives "Token expired", any other verify failure gives "Invalid token", and a string payload gives "Invalid token format"; in each case the trace ends with the verify and no middleware runs |
| `AuthProperties.PublicIntervieweeIsScoped` | server/src/middleware/flexibleAuth.ts:68-77 | a verified public-interviewee payload yields the user `{ id: sub or "", email, role }` and a client built from the raw token, and the trace is decode, verify, assign, create with no middleware |
| `AuthProperties.ClientFactoryFailureIsInvalidToken` | server/src/middleware/flexibleAuth.ts:68-90 | a throwing client factory gives 401 "Invalid token", after the user has been assigned |
| `AuthProperties.OtherRoleFallsThrough` | server/src/middleware/flexibleAuth.ts:68-96 | a verified HS256 payload with any other role is not rejected: decode, verify, then auth and tier |
| `AuthProperties.VerifyArgumentsAreFixed` | server/src/middleware/flexibleAuth.ts:56-58 | every verification uses the configured key and the list ["HS256"], and gets the header with exactly "Bearer " removed; so does every client construction |
| `AuthProperties.LocalVerificationIffExactAlgorithm` | server/src/middleware/flexibleAuth.ts:52-58 | a verification call appears in the trace iff the unverified header of a well-framed bearer token says exactly `alg: "HS256"` |
| `AuthProperties.AllowedAlgorithmsIgnoreToken` | server/src/middleware/flexibleAuth.ts:56-58 | any two requests verify with the same algorithm list and key, whatever their tokens contain |
| `AuthProperties.PublicTokenGrantsScopedAccess` | server/src/middleware/flexibleAuth.ts:68-77 | a valid public-interviewee token with `sub: "u1"` gives identity `{ id: "u1", role: "public_interviewee" }` and neither middleware runs |
| `AuthProperties.ExpiredPublicTokenIsRejected` | server/src/middleware/flexibleAuth.ts:80-85 | the same token, expired, gives `401 { success: false, error: "Token expired" }` |
| `AuthProperties.ProviderTokenIsDelegated` | server/src/middleware/flexibleAuth.ts:93-96 | an ES256 header skips local verification; auth then tier run, in that order |
| `AuthProperties.NullHeaderEscapes` | server/src/middleware/flexibleAuth.ts:40-52 | a well-framed token whose header segment is `bnVsbA` (base64url of `null`) makes the dispatcher throw, while the guarded version answers 401 "Invalid token format" |

## Left out

- The internals of `jsonwebtoken` are not modelled: HMAC-SHA256 and the clock-based `exp`/`nbf` checks. `jwt.verify` is the function `Env.verify`, and only its result kind is used. A not-before failure is an `OtherFailure`, because it is not a `TokenExpiredError`.
- Base64url decoding and JSON parsing are not modelled. `Env.decodeHeader` gives a parse failure, `null`, or an optional string `alg`. An `alg` that is not a string counts as absent, since it fails `=== "HS256"` either way. So does any non-object JSON value other than `null`.
- The claims are modelled as optional strings. A non-string `sub` would become a non-string `id` through `decoded.sub || ""`. An `email` is passed on without a check (`as string`). Neither is modelled.
- `authMiddleware` and `subscriptionTierMiddleware` are not shown. They appear only as events, in order. What happens if either one throws is not modelled.
- Fastify request/reply plumbing, `async`/`await`, and reading the key through `request.server.config` are left out. The key is `Env.signingKey`. What the framework replies when an exception escapes is outside the dispatcher; the model records only that one escaped.
- The data client is represented by the token it was built from. The client library and row-level security are not part of this model.
- src/App.tsx is not modelled. It is UI composition and query-client configuration; its retry predicate is a UI policy outside the authentication decision.
- src/lib/supabase/typed-client.ts is not modelled. It loads environment variables, calls a third-party client constructor and declares type aliases.

## Findings

| source | as written | input that shows it | evidently intended | confidence | as-written member | corrected member |
|---|---|---|---|---|---|---|
| server/src/middleware/flexibleAuth.ts:40-52 | `JSON.parse` may return `null`, and `tokenHeader.alg` at line 52 is read outside the try of lines 41-48, so the resulting TypeError escapes the middleware | `Authorization: Bearer bnVsbA.e30.c2ln` (`bnVsbA` is base64url of `null`) | refuse it with 401 "Invalid token format", like any other unreadable header (every other malformed token gets this reply, lines 33-48) | medium; not executed | `AuthProperties.NullHeaderEscapes` | `FlexibleAuth.DispatchGuarded` |

The corrected dispatcher differs from `Dispatch` only on the inputs that throw. Its contract says so, so every property proved above about non-throwing outcomes carries over to it.

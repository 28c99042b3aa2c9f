/**
 Properties of the dispatcher that relate its outcome to what its
 collaborators return: the HS256 branch case by case, the delegated path, the
 escaped exception of a `null` header, and three whole requests built from
 token segments: scoped access, an expired token and a provider token.
 */
module AuthProperties {
  import opened JsValues
  import opened Strings
  import opened Jwt
  import opened FlexibleAuth

  /** Three dot-free segments form a three-segment token whose header segment is the first. */
  lemma ThreeSegmentToken(h: string, p: string, s: string)
    requires '.' !in h && '.' !in p && '.' !in s
    ensures HasThreeSegments(h + "." + p + "." + s)
    ensures HeaderSegment(h + "." + p + "." + s) == h
  {
    var token := h + "." + p + "." + s;
    assert token == h + ['.'] + p + ['.'] + s;
    SplitThree(h, p, s, '.');
    SplitHead(token, '.');
  }

  /** Any header in the bearer scheme yields back the token it was built from. */
  lemma BearerHeader(token: string)
    ensures HasBearerScheme(Defined(BearerPrefix + token))
    ensures BearerToken(Defined(BearerPrefix + token)) == token
  {
    var header := BearerPrefix + token;
    assert header[..|BearerPrefix|] == BearerPrefix;
  }

  /** A scheme other than the exact, case-sensitive "Bearer " is refused before anything is called. */
  lemma LowercaseSchemeIsRefused(rest: string, env: Env)
    ensures Dispatch(Defined("bearer " + rest), env) == Run(Rejected(Unauthorized(MissingHeaderMessage)), [])
  {
    var header := "bearer " + rest;
    assert header[0] != BearerPrefix[0];
  }

  /** A header segment that does not parse is refused after the one decode, and nothing else runs. */
  lemma UnparsableHeaderIsRefused(header: Maybe<string>, env: Env)
    requires HasBearerScheme(header) && HasThreeSegments(BearerToken(header))
    requires env.decodeHeader(HeaderSegment(BearerToken(header))) == DecodeFail
    ensures Dispatch(header, env) ==
      Run(Rejected(Unauthorized(InvalidFormatMessage)), [DecodeHeader(HeaderSegment(BearerToken(header)))])
  {
  }

  /**
   Every `alg` other than exactly "HS256" (absent, "hs256", "ES256", ...)
   goes straight to the two delegated middlewares, with no local verification.
   */
  lemma ForeignAlgorithmIsDelegated(header: Maybe<string>, env: Env, alg: Maybe<string>)
    requires HasBearerScheme(header) && HasThreeSegments(BearerToken(header))
    requires env.decodeHeader(HeaderSegment(BearerToken(header))) == Header(alg)
    requires alg != Defined(HS256)
    ensures Dispatch(header, env) ==
      Run(Delegated, [DecodeHeader(HeaderSegment(BearerToken(header))), AuthMiddleware, TierMiddleware])
  {
  }

  /** On the HS256 route the dispatcher's run is the one decode followed by the local verification's run. */
  lemma LocalRoute(header: Maybe<string>, env: Env)
    requires ClaimsLocalAlgorithm(header, env.decodeHeader)
    ensures
      var token := BearerToken(header);
      var v := VerifyLocally(token, env);
      Dispatch(header, env) == Run(v.outcome, [DecodeHeader(HeaderSegment(token))] + v.trace)
  {
    var c := Classify(header, env.decodeHeader);
    assert c.route == LocalVerify(BearerToken(header));
  }

  /** The outcome of the HS256 branch for each failure `jwt.verify` can report; none reaches delegation. */
  lemma LocalFailuresAreTerminal(header: Maybe<string>, env: Env)
    requires ClaimsLocalAlgorithm(header, env.decodeHeader)
    ensures
      var token := BearerToken(header);
      var v := env.verify(token, env.signingKey, [HS256]);
      var r := Dispatch(header, env);
      var calls := [DecodeHeader(HeaderSegment(token)), Verify(token, env.signingKey, [HS256])];
      && (v.Expired? ==> r == Run(Rejected(Unauthorized(ExpiredMessage)), calls))
      && (v.OtherFailure? ==> r == Run(Rejected(Unauthorized(InvalidTokenMessage)), calls))
      && (v.StringPayload? ==> r == Run(Rejected(Unauthorized(InvalidFormatMessage)), calls))
  {
    LocalRoute(header, env);
  }

  /**
   A verified public-interviewee token is granted scoped access: the user is
   `{ id: sub or "", email, role }`, the client is bound to the raw token, and
   neither delegated middleware runs.
   */
  lemma PublicIntervieweeIsScoped(header: Maybe<string>, env: Env)
    requires ClaimsLocalAlgorithm(header, env.decodeHeader)
    requires
      var token := BearerToken(header);
      var v := env.verify(token, env.signingKey, [HS256]);
      v.Claims? && v.role == Defined(PublicIntervieweeRole) && !env.clientFactoryThrows(token)
    ensures
      var token := BearerToken(header);
      var v := env.verify(token, env.signingKey, [HS256]);
      var user := RequestUser(v.sub.Or(""), v.email, PublicIntervieweeRole);
      Dispatch(header, env) == Run(Scoped(user, ScopedClient(token)),
        [DecodeHeader(HeaderSegment(token)), Verify(token, env.signingKey, [HS256]),
         AssignUser(user), CreateClient(token)])
  {
    LocalRoute(header, env);
  }

  /**
   A throwing client factory is answered as an invalid token, after the user
   has already been assigned to the request.
   */
  lemma ClientFactoryFailureIsInvalidToken(header: Maybe<string>, env: Env)
    requires ClaimsLocalAlgorithm(header, env.decodeHeader)
    requires
      var token := BearerToken(header);
      var v := env.verify(token, env.signingKey, [HS256]);
      v.Claims? && v.role == Defined(PublicIntervieweeRole) && env.clientFactoryThrows(token)
    ensures
      var token := BearerToken(header);
      var v := env.verify(token, env.signingKey, [HS256]);
      var r := Dispatch(header, env);
      && r.outcome == Rejected(Unauthorized(InvalidTokenMessage))
      && AssignUser(RequestUser(v.sub.Or(""), v.email, PublicIntervieweeRole)) in r.trace
  {
    LocalRoute(header, env);
  }

  /**
   A correctly signed HS256 token with any other role is not rejected: it is
   verified locally and then handed to the delegated middlewares.
   */
  lemma OtherRoleFallsThrough(header: Maybe<string>, env: Env)
    requires ClaimsLocalAlgorithm(header, env.decodeHeader)
    requires
      var token := BearerToken(header);
      var v := env.verify(token, env.signingKey, [HS256]);
      v.Claims? && v.role != Defined(PublicIntervieweeRole)
    ensures
      var token := BearerToken(header);
      Dispatch(header, env) == Run(Delegated,
        [DecodeHeader(HeaderSegment(token)), Verify(token, env.signingKey, [HS256]),
         AuthMiddleware, TierMiddleware])
  {
    LocalRoute(header, env);
  }

  /**
   Every verification call uses the configured key and the fixed list
   ["HS256"], and every verification and client construction gets the header
   with exactly "Bearer " removed.
   */
  lemma VerifyArgumentsAreFixed(header: Maybe<string>, env: Env)
    ensures forall e :: e in Dispatch(header, env).trace && e.Verify? ==>
      && e.key == env.signingKey
      && e.algorithms == [HS256]
      && header == Defined(BearerPrefix + e.token)
    ensures forall e :: e in Dispatch(header, env).trace && e.CreateClient? ==>
      header == Defined(BearerPrefix + e.token)
  {
    var c := Classify(header, env.decodeHeader);
    var r := Dispatch(header, env);
    match c.route
    case LocalVerify(token) =>
      var v := VerifyLocally(token, env);
      assert r.trace == c.trace + v.trace;
      assert header == Defined(BearerPrefix + token);
      forall e | e in r.trace && (e.Verify? || e.CreateClient?)
        ensures e in v.trace
      {
        assert e in c.trace || e in v.trace;
        assert e !in c.trace;
      }
    case Delegate(token) =>
      assert r.trace == c.trace + DelegationEvents;
      forall e | e in r.trace
        ensures !e.Verify? && !e.CreateClient?
      {
        assert e in c.trace || e in DelegationEvents;
      }
    case Refused(reply) =>
      assert r.trace == c.trace;
    case HeaderUnreadable =>
      assert r.trace == c.trace;
  }

  /** Local verification is attempted exactly when the unverified `alg` is exactly "HS256". */
  lemma LocalVerificationIffExactAlgorithm(header: Maybe<string>, env: Env)
    ensures Verified(Dispatch(header, env).trace) <==> ClaimsLocalAlgorithm(header, env.decodeHeader)
  {
    var c := Classify(header, env.decodeHeader);
    var r := Dispatch(header, env);
    match c.route
    case LocalVerify(token) =>
      var v := VerifyLocally(token, env);
      assert r.trace == c.trace + v.trace;
      assert v.trace[0] in r.trace;
    case Delegate(token) =>
      assert r.trace == c.trace + DelegationEvents;
      forall e | e in r.trace
        ensures !e.Verify?
      {
        assert e in c.trace || e in DelegationEvents;
      }
    case Refused(reply) =>
      assert r.trace == c.trace;
    case HeaderUnreadable =>
      assert r.trace == c.trace;
  }

  /** Two requests see the same allowed-algorithm list and key, whatever their tokens say. */
  lemma AllowedAlgorithmsIgnoreToken(h1: Maybe<string>, h2: Maybe<string>, env: Env)
    ensures forall e1, e2 ::
      e1 in Dispatch(h1, env).trace && e1.Verify? && e2 in Dispatch(h2, env).trace && e2.Verify? ==>
      e1.algorithms == e2.algorithms && e1.key == e2.key
  {
    VerifyArgumentsAreFixed(h1, env);
    VerifyArgumentsAreFixed(h2, env);
  }

  /**
   Three dot-free segments `h`, `p`, `s`: the whole-request lemmas below use
   the token `h.p.s`, whose header segment `h` decodes to the `alg` they name.
   */
  predicate Segments(h: string, p: string, s: string) {
    '.' !in h && '.' !in p && '.' !in s
  }

  /** A valid public-interviewee token gives the identity `{ id: "u1", role }` and no delegation. */
  lemma PublicTokenGrantsScopedAccess(h: string, p: string, s: string, env: Env)
    requires Segments(h, p, s)
    requires env.decodeHeader(h) == Header(Defined(HS256))
    requires env.verify(h + "." + p + "." + s, env.signingKey, [HS256]) ==
      Claims(Defined("u1"), Undefined, Defined(PublicIntervieweeRole))
    requires !env.clientFactoryThrows(h + "." + p + "." + s)
    ensures
      var r := Dispatch(Defined(BearerPrefix + (h + "." + p + "." + s)), env);
      && r.outcome == Scoped(RequestUser("u1", Undefined, PublicIntervieweeRole), ScopedClient(h + "." + p + "." + s))
      && AuthMiddleware !in r.trace && TierMiddleware !in r.trace
  {
    var token := h + "." + p + "." + s;
    ThreeSegmentToken(h, p, s);
    ScopedToken(token, env);
  }

  /** `PublicIntervieweeIsScoped` for the header built from a given token. */
  lemma ScopedToken(token: string, env: Env)
    requires HasThreeSegments(token)
    requires env.decodeHeader(HeaderSegment(token)) == Header(Defined(HS256))
    requires
      var v := env.verify(token, env.signingKey, [HS256]);
      v.Claims? && v.role == Defined(PublicIntervieweeRole) && !env.clientFactoryThrows(token)
    ensures
      var v := env.verify(token, env.signingKey, [HS256]);
      var r := Dispatch(Defined(BearerPrefix + token), env);
      && r.outcome == Scoped(RequestUser(v.sub.Or(""), v.email, PublicIntervieweeRole), ScopedClient(token))
      && AuthMiddleware !in r.trace && TierMiddleware !in r.trace
  {
    BearerHeader(token);
    PublicIntervieweeIsScoped(Defined(BearerPrefix + token), env);
  }

  /** The same token, expired, gives 401 `{ success: false, error: "Token expired" }`. */
  lemma ExpiredPublicTokenIsRejected(h: string, p: string, s: string, env: Env)
    requires Segments(h, p, s)
    requires env.decodeHeader(h) == Header(Defined(HS256))
    requires env.verify(h + "." + p + "." + s, env.signingKey, [HS256]) == Expired
    ensures Dispatch(Defined(BearerPrefix + (h + "." + p + "." + s)), env).outcome ==
      Rejected(Reply(401, false, "Token expired"))
  {
    var token := h + "." + p + "." + s;
    ThreeSegmentToken(h, p, s);
    BearerHeader(token);
    LocalFailuresAreTerminal(Defined(BearerPrefix + token), env);
  }

  /** A header naming ES256 skips local verification; auth then tier run, in that order. */
  lemma ProviderTokenIsDelegated(h: string, p: string, s: string, env: Env)
    requires Segments(h, p, s)
    requires env.decodeHeader(h) == Header(Defined("ES256"))
    ensures Dispatch(Defined(BearerPrefix + (h + "." + p + "." + s)), env) ==
      Run(Delegated, [DecodeHeader(h), AuthMiddleware, TierMiddleware])
  {
    var token := h + "." + p + "." + s;
    ThreeSegmentToken(h, p, s);
    BearerHeader(token);
    ForeignAlgorithmIsDelegated(Defined(BearerPrefix + token), env, Defined("ES256"));
  }

  /** "bnVsbA" is the base64url encoding of the JSON text `null`. */
  const NullHeaderSegment: string := "bnVsbA"

  /**
   As written, a well-framed token whose header segment is `null` makes the
   `alg` read throw outside any catch; with the read guarded it is refused
   with 401 "Invalid token format".
   */
  lemma NullHeaderEscapes(payload: string, signature: string, env: Env)
    requires Segments(NullHeaderSegment, payload, signature)
    requires env.decodeHeader(NullHeaderSegment) == NullHeader
    ensures
      var header := Defined(BearerPrefix + (NullHeaderSegment + "." + payload + "." + signature));
      && Dispatch(header, env).outcome == Uncaught
      && DispatchGuarded(header, env).outcome == Rejected(Unauthorized(InvalidFormatMessage))
  {
    var token := NullHeaderSegment + "." + payload + "." + signature;
    ThreeSegmentToken(NullHeaderSegment, payload, signature);
    BearerHeader(token);
  }
}

/**
 The request-time authentication dispatcher `flexibleAuthMiddleware`.

 Given the raw `Authorization` header it either rejects the request with a
 401 reply, grants scoped public-interview access (a request identity plus a
 data client bound to the raw token, with no further middleware), or
 delegates to `authMiddleware` followed by `subscriptionTierMiddleware`.

 The collaborators it calls are parameters (`Env`), and every call it makes
 is recorded, in order, in the trace of the `Run` it returns, so that "no
 verification happens" or "the delegated middlewares never run" are
 statements about that trace.
 */
module FlexibleAuth {
  import opened JsValues
  import opened Strings
  import opened Jwt

  /** The bearer scheme of section 2.1 of RFC 6750, with its separating space. */
  const BearerPrefix: string := "Bearer "
  /** The offset the token is cut at: the length of `BearerPrefix`. */
  const TokenOffset: nat := 7
  /** The role marker of a locally issued public-interview token. */
  const PublicIntervieweeRole: string := "public_interviewee"
  /** The allowed-algorithm list handed to every local verification. */
  const LocalAlgorithms: seq<string> := [HS256]

  const MissingHeaderMessage: string := "Missing or invalid authorization header"
  const InvalidFormatMessage: string := "Invalid token format"
  const ExpiredMessage: string := "Token expired"
  const InvalidTokenMessage: string := "Invalid token"

  /** The four error strings this dispatcher sends itself. */
  const LocalMessages: set<string> :=
    {MissingHeaderMessage, InvalidFormatMessage, ExpiredMessage, InvalidTokenMessage}

  /** A reply body `{ success, error }` with its status code. */
  datatype Reply = Reply(status: int, success: bool, error: string)

  /** The 401 reply `{ success: false, error: message }`. */
  function Unauthorized(message: string): (r: Reply)
  {
    Reply(401, false, message)
  }

  /** The identity assigned to `request.user` on the scoped path. */
  datatype RequestUser = RequestUser(id: string, email: Maybe<string>, role: string)

  /** A data client built from, and bound to, a raw token. */
  datatype DataClient = ScopedClient(token: string)

  /**
   The collaborators and configuration the dispatcher reads: the configured
   signing key, the decoder of the first token segment, `jwt.verify` as a
   function of (token, key, allowed algorithms), and whether the data-client
   factory throws for a token.
   */
  datatype Env = Env(
    signingKey: string,
    decodeHeader: string -> HeaderDecode,
    verify: (string, string, seq<string>) -> VerifyResult,
    clientFactoryThrows: string -> bool)

  /** One observable step of the dispatcher, with the arguments it was given. */
  datatype Event =
    | DecodeHeader(segment: string)
    | Verify(token: string, key: string, algorithms: seq<string>)
    | AssignUser(user: RequestUser)
    | CreateClient(token: string)
    | AuthMiddleware
    | TierMiddleware

  /**
   How the request leaves the dispatcher: a reply it sent, the scoped
   context it built, delegation to the two middlewares, or an exception that
   escapes it for the framework to answer.
   */
  datatype Outcome =
    | Rejected(reply: Reply)
    | Scoped(user: RequestUser, client: DataClient)
    | Delegated
    | Uncaught

  datatype Run = Run(outcome: Outcome, trace: seq<Event>)

  /** The trust domain chosen from the unverified header, decided once. */
  datatype Route =
    | Refused(reply: Reply)
    | HeaderUnreadable
    | LocalVerify(token: string)
    | Delegate(token: string)

  datatype Classification = Classification(route: Route, trace: seq<Event>)

  /** `authHeader && authHeader.startsWith("Bearer ")`; an empty header is falsy. */
  predicate HasBearerScheme(header: Maybe<string>) {
    header.Defined? && header.value != "" && StartsWith(header.value, BearerPrefix)
  }

  /** `authHeader.substring(7)`: the header with the scheme removed. */
  function BearerToken(header: Maybe<string>): (token: string)
    requires HasBearerScheme(header)
    ensures header.value == BearerPrefix + token
  {
    Substring(header.value, TokenOffset)
  }

  /** Compact serialization (section 7.1 of RFC 7515): exactly two dots. */
  predicate HasThreeSegments(token: string) {
    multiset(token)['.'] == 2
  }

  /** The encoded JOSE header: everything before the first dot. */
  function HeaderSegment(token: string): (h: string)
  {
    token[..IndexOf(token, '.')]
  }

  /** The header claims, unverified, exactly the local algorithm. */
  predicate ClaimsLocalAlgorithm(header: Maybe<string>, decode: string -> HeaderDecode) {
    && HasBearerScheme(header)
    && HasThreeSegments(BearerToken(header))
    && decode(HeaderSegment(BearerToken(header))) == Header(Defined(HS256))
  }

  predicate Verified(trace: seq<Event>) {
    exists e :: e in trace && e.Verify?
  }

  /**
   The scheme check, the segment split and the unverified `alg` decode.
   Only the first segment is decoded, and only when there are three.
   */
  function Classify(header: Maybe<string>, decode: string -> HeaderDecode): (c: Classification)
    ensures !HasBearerScheme(header) ==>
      c == Classification(Refused(Unauthorized(MissingHeaderMessage)), [])
    ensures HasBearerScheme(header) && !HasThreeSegments(BearerToken(header)) ==>
      c == Classification(Refused(Unauthorized(InvalidFormatMessage)), [])
    ensures HasBearerScheme(header) && HasThreeSegments(BearerToken(header)) ==>
      var token := BearerToken(header);
      var decoded := decode(HeaderSegment(token));
      && c.trace == [DecodeHeader(HeaderSegment(token))]
      && (decoded.DecodeFail? ==> c.route == Refused(Unauthorized(InvalidFormatMessage)))
      && (decoded.NullHeader? ==> c.route == HeaderUnreadable)
      && (decoded.Header? && decoded.alg != Defined(HS256) ==> c.route == Delegate(token))
    ensures forall e :: e in c.trace ==> e.DecodeHeader?
    ensures c.route.LocalVerify? <==> ClaimsLocalAlgorithm(header, decode)
    ensures c.route.LocalVerify? || c.route.Delegate? ==> header == Defined(BearerPrefix + c.route.token)
  {
    if !HasBearerScheme(header) then
      Classification(Refused(Unauthorized(MissingHeaderMessage)), [])
    else
      var token := BearerToken(header);
      var parts := Split(token, '.');
      if |parts| != 3 then
        Classification(Refused(Unauthorized(InvalidFormatMessage)), [])
      else
        SplitHead(token, '.');
        var trace := [DecodeHeader(parts[0])];
        match decode(parts[0])
        case DecodeFail => Classification(Refused(Unauthorized(InvalidFormatMessage)), trace)
        case NullHeader => Classification(HeaderUnreadable, trace)
        case Header(alg) =>
          if alg == Defined(HS256) then Classification(LocalVerify(token), trace)
          else Classification(Delegate(token), trace)
  }

  /** The calls of the delegated path: `authMiddleware`, then `subscriptionTierMiddleware`, unconditionally. */
  const DelegationEvents: seq<Event> := [AuthMiddleware, TierMiddleware]

  /** The outcome every reply this dispatcher sends itself satisfies. */
  predicate LocalReply(o: Outcome) {
    o.Rejected? ==> o.reply.status == 401 && !o.reply.success && o.reply.error in LocalMessages
  }

  /**
   The HS256 branch: verify with the configured key and the fixed algorithm
   list, then check the verified role. The user is assigned before the client
   is built, so a throwing factory leaves it assigned and is answered as an
   invalid token by the surrounding catch. The trace holds this branch's
   calls only.
   */
  function VerifyLocally(token: string, env: Env): (r: Run)
    ensures |r.trace| >= 1 && r.trace[0] == Verify(token, env.signingKey, [HS256])
    ensures forall e :: e in r.trace && e.Verify? ==> e == Verify(token, env.signingKey, [HS256])
    ensures forall e :: e in r.trace && e.CreateClient? ==> e.token == token
    ensures LocalReply(r.outcome)
    ensures !r.outcome.Uncaught?
    ensures r.outcome.Scoped? ==>
      r.outcome.client == ScopedClient(token) && r.outcome.user.role == PublicIntervieweeRole
    ensures r.outcome.Delegated? ==> r.trace == [Verify(token, env.signingKey, [HS256])] + DelegationEvents
    ensures !r.outcome.Delegated? ==> AuthMiddleware !in r.trace && TierMiddleware !in r.trace
  {
    var call := [Verify(token, env.signingKey, LocalAlgorithms)];
    match env.verify(token, env.signingKey, LocalAlgorithms)
    case Expired => Run(Rejected(Unauthorized(ExpiredMessage)), call)
    case OtherFailure => Run(Rejected(Unauthorized(InvalidTokenMessage)), call)
    case StringPayload => Run(Rejected(Unauthorized(InvalidFormatMessage)), call)
    case Claims(sub, email, role) =>
      if role == Defined(PublicIntervieweeRole) then
        var user := RequestUser(sub.Or(""), email, PublicIntervieweeRole);
        var t := call + [AssignUser(user), CreateClient(token)];
        if env.clientFactoryThrows(token) then Run(Rejected(Unauthorized(InvalidTokenMessage)), t)
        else Run(Scoped(user, ScopedClient(token)), t)
      else
        Run(Delegated, call + DelegationEvents)
  }

  /** `flexibleAuthMiddleware` as written. */
  function Dispatch(header: Maybe<string>, env: Env): (r: Run)
    ensures LocalReply(r.outcome)
    ensures !HasBearerScheme(header) ==> r == Run(Rejected(Unauthorized(MissingHeaderMessage)), [])
    ensures HasBearerScheme(header) && !HasThreeSegments(BearerToken(header)) ==>
      r == Run(Rejected(Unauthorized(InvalidFormatMessage)), [])
    ensures r.outcome.Scoped? ==>
      && header == Defined(BearerPrefix + r.outcome.client.token)
      && r.outcome.user.role == PublicIntervieweeRole
    ensures r.outcome.Delegated? ==>
      |r.trace| >= 2 && r.trace[|r.trace| - 2..] == DelegationEvents
    ensures !r.outcome.Delegated? ==> AuthMiddleware !in r.trace && TierMiddleware !in r.trace
    ensures r.outcome.Uncaught? <==>
      && HasBearerScheme(header)
      && HasThreeSegments(BearerToken(header))
      && env.decodeHeader(HeaderSegment(BearerToken(header))) == NullHeader
  {
    var c := Classify(header, env.decodeHeader);
    match c.route
    case Refused(reply) => Run(Rejected(reply), c.trace)
    case HeaderUnreadable => Run(Uncaught, c.trace)
    case LocalVerify(token) =>
      var v := VerifyLocally(token, env);
      Run(v.outcome, c.trace + v.trace)
    case Delegate(token) => Run(Delegated, c.trace + DelegationEvents)
  }

  /**
   The dispatcher with the `alg` read guarded: a header segment that decodes
   to `null` is refused as an invalid format, like one that does not parse.
   */
  function DispatchGuarded(header: Maybe<string>, env: Env): (r: Run)
    ensures !r.outcome.Uncaught?
    ensures LocalReply(r.outcome)
    ensures !Dispatch(header, env).outcome.Uncaught? ==> r == Dispatch(header, env)
    ensures
      && HasBearerScheme(header)
      && HasThreeSegments(BearerToken(header))
      && env.decodeHeader(HeaderSegment(BearerToken(header))) == NullHeader
      ==> r == Run(Rejected(Unauthorized(InvalidFormatMessage)), [DecodeHeader(HeaderSegment(BearerToken(header)))])
  {
    var w := Dispatch(header, env);
    if w.outcome.Uncaught? then Run(Rejected(Unauthorized(InvalidFormatMessage)), w.trace) else w
  }
}

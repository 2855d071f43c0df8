/** Rate-limit configuration and request keys (src/middleware/rateLimit.ts).
    The request-counting window itself belongs to express-rate-limit and is
    not part of this model. */
module RateLimit {
  import opened Prelude
  import opened Http

  datatype KeyType = Ip | UserId

  /** An absent optional flag reads as `false`. */
  datatype RateLimitConfig = RateLimitConfig(
    windowMs: nat,
    max: nat,
    errorCode: string,
    errorMessage: string,
    keyType: KeyType,
    skipSuccessfulRequests: bool,
    skipUnauthenticated: bool)

  const Hour := 60 * 60 * 1000

  const Signup := RateLimitConfig(Hour, 5, "TOO_MANY_SIGNUP_ATTEMPTS",
    "Too many signup attempts. Please try again in 1 hour.", Ip, false, false)
  const LoginFailure := RateLimitConfig(Hour, 10, "TOO_MANY_LOGIN_ATTEMPTS",
    "Too many failed login attempts. Please try again in 1 hour.", Ip, true, false)
  const MeetingCreation := RateLimitConfig(24 * Hour, 10, "MEETING_LIMIT_EXCEEDED",
    "Daily meeting creation limit exceeded. Please try again tomorrow.", UserId, false, true)
  const GeneralApi := RateLimitConfig(60 * 1000, 100, "TOO_MANY_REQUESTS",
    "Too many requests. Please try again later.", Ip, false, false)

  const Configs: seq<RateLimitConfig> := [Signup, LoginFailure, MeetingCreation, GeneralApi]

  /** What the key generators read from a request; an empty string is as
      falsy as an absent value. */
  datatype RateRequest = RateRequest(
    ip: Option<string>,
    remoteAddress: Option<string>,
    user: Option<ReqUser>,
    userIdHeader: Option<string>)

  /** `a || b` on an optional string. */
  function OrElse(a: Option<string>, b: string): (r: string)
    ensures a.Some? && a.value != "" ==> r == a.value
    ensures (a.None? || a.value == "") ==> r == b
  {
    if a.Some? && a.value != "" then a.value else b
  }

  /** `req.user?.id`, `undefined` when there is no user. */
  function UserIdOf(req: RateRequest): Option<string>
  {
    match req.user
    case None => None
    case Some(u) => Some(u.id)
  }

  /** `req.ip || req.connection.remoteAddress || 'unknown'` */
  function GetClientIP(req: RateRequest): (key: string)
    ensures key != ""
    ensures key == "unknown" || Some(key) == req.ip || Some(key) == req.remoteAddress
    ensures req.ip.Some? && req.ip.value != "" ==> key == req.ip.value
    ensures (req.ip.None? || req.ip.value == "") && req.remoteAddress.Some? && req.remoteAddress.value != ""
      ==> key == req.remoteAddress.value
    ensures (req.ip.None? || req.ip.value == "") && (req.remoteAddress.None? || req.remoteAddress.value == "")
      ==> key == "unknown"
  {
    OrElse(req.ip, OrElse(req.remoteAddress, "unknown"))
  }

  /** `user?.id || req.headers['user-id'] || getClientIP(req)` */
  function GetUserId(req: RateRequest): (key: string)
    ensures key != ""
    ensures UserIdOf(req).Some? && UserIdOf(req).value != "" ==> key == UserIdOf(req).value
    ensures (UserIdOf(req).None? || UserIdOf(req).value == "") && req.userIdHeader.Some? && req.userIdHeader.value != ""
      ==> key == req.userIdHeader.value
    ensures (UserIdOf(req).None? || UserIdOf(req).value == "") && (req.userIdHeader.None? || req.userIdHeader.value == "")
      ==> key == GetClientIP(req)
  {
    OrElse(UserIdOf(req), OrElse(req.userIdHeader, GetClientIP(req)))
  }

  /** `createKeyGenerator(keyType)(req)` */
  function KeyFor(keyType: KeyType, req: RateRequest): (key: string)
    ensures key != ""
    ensures keyType == Ip ==> key == GetClientIP(req)
    ensures keyType == UserId ==> key == GetUserId(req)
  {
    match keyType
    case UserId => GetUserId(req)
    case Ip => GetClientIP(req)
  }

  /** The `skip` option: only for configurations that skip unauthenticated
      requests, and then exactly when there is no truthy user id. */
  predicate Skip(config: RateLimitConfig, req: RateRequest)
  {
    config.skipUnauthenticated && !(UserIdOf(req).Some? && UserIdOf(req).value != "")
  }

  /** An IP key never looks at the user or the `user-id` header. */
  lemma IpKeyIgnoresIdentity(req: RateRequest, user: Option<ReqUser>, header: Option<string>)
    ensures KeyFor(Ip, req) == KeyFor(Ip, req.(user := user, userIdHeader := header))
  {
  }

  /** Of the four limiters only the meeting-creation one skips requests, and
      it skips exactly those without a user id. */
  lemma OnlyMeetingCreationSkips(i: nat, req: RateRequest)
    requires i < |Configs|
    ensures Skip(Configs[i], req) ==> Configs[i] == MeetingCreation
    ensures Skip(MeetingCreation, req) <==> req.user.None? || req.user.value.id == ""
  {
  }

  /** The budgets: 5 signups an hour; 10 failed logins an hour, successes not
      counted; 10 meetings a day keyed by user; 100 API requests a minute. */
  lemma Budgets()
    ensures Signup.max == 5 && Signup.windowMs == 3_600_000 && Signup.keyType == Ip
    ensures LoginFailure.max == 10 && LoginFailure.windowMs == 3_600_000 && LoginFailure.skipSuccessfulRequests
    ensures MeetingCreation.max == 10 && MeetingCreation.windowMs == 86_400_000 && MeetingCreation.keyType == UserId
    ensures GeneralApi.max == 100 && GeneralApi.windowMs == 60_000 && GeneralApi.keyType == Ip
  {
  }
}

/** `authenticateUser` and `optionalAuth` (src/middleware/auth.ts). The
    identity provider's `auth.getUser(token)` is an oracle: a function from
    the token to what the call produced. */
module AuthMiddleware {
  import opened Prelude
  import opened Http

  const BearerPrefix := "Bearer "

  /** The user record returned by the identity provider. */
  datatype ProviderUser = ProviderUser(id: string, email: Option<string>, role: Option<string>)

  /** What `createClient(...).auth.getUser(token)` produced: it threw, or it
      resolved to `{ data: { user }, error }`. */
  datatype ProviderReply =
    | Threw
    | Answered(user: Option<ProviderUser>, error: bool)

  /** What the middleware does with the request: answer it, or pass it on
      (with the user it attached, if any). */
  datatype Decision = Respond(reply: Reply) | Continue(user: Option<ReqUser>)

  /** The token of a usable authorization header: present, non-empty and
      starting with exactly "Bearer "; the token is the rest of it. */
  function BearerToken(header: Option<string>): (token: Option<string>)
    ensures token.Some? <==> header.Some? && StartsWith(header.value, BearerPrefix)
    ensures token.Some? ==> header.value == BearerPrefix + token.value
  {
    if header.Some? && header.value != "" && StartsWith(header.value, BearerPrefix) then
      Some(header.value[|BearerPrefix|..])
    else
      None
  }

  /** `user.email || ''` */
  function EmailOrEmpty(email: Option<string>): string
  {
    match email
    case Some(e) => e
    case None => ""
  }

  /** The decision of `authenticateUser`, in the order of its checks. */
  function Authenticate(header: Option<string>, supabaseUrl: string, supabaseAnonKey: string,
                        getUser: string -> ProviderReply): (d: Decision)
    ensures BearerToken(header).None? ==> d == Respond(Unauthorized("No valid authorization header found"))
    ensures BearerToken(header).Some? && (supabaseUrl == "" || supabaseAnonKey == "") ==>
      d == Respond(InternalError("Authentication configuration error"))
    ensures d.Continue? <==>
      BearerToken(header).Some? && supabaseUrl != "" && supabaseAnonKey != ""
      && getUser(BearerToken(header).value).Answered?
      && !getUser(BearerToken(header).value).error
      && getUser(BearerToken(header).value).user.Some?
    ensures d.Continue? ==>
      var u := getUser(BearerToken(header).value).user.value;
      d.user == Some(ReqUser(u.id, EmailOrEmpty(u.email), u.role))
    ensures (BearerToken(header).Some? && supabaseUrl != "" && supabaseAnonKey != ""
             && getUser(BearerToken(header).value).Threw?)
              ==> d == Respond(InternalError("Authentication failed"))
    ensures (BearerToken(header).Some? && supabaseUrl != "" && supabaseAnonKey != ""
             && getUser(BearerToken(header).value).Answered?
             && (getUser(BearerToken(header).value).error || getUser(BearerToken(header).value).user.None?))
              ==> d == Respond(Unauthorized("Invalid or expired token"))
    ensures d.Respond? ==> d.reply.statusCode == 401 || d.reply.statusCode == 500
  {
    match BearerToken(header)
    case None => Respond(Unauthorized("No valid authorization header found"))
    case Some(token) =>
      if supabaseUrl == "" || supabaseAnonKey == "" then
        Respond(InternalError("Authentication configuration error"))
      else
        match getUser(token)
        case Threw => Respond(InternalError("Authentication failed"))
        case Answered(user, error) =>
          if error || user.None? then Respond(Unauthorized("Invalid or expired token"))
          else
            var u := user.value;
            Continue(Some(ReqUser(u.id, EmailOrEmpty(u.email), u.role)))
  }

  /** The decision of `optionalAuth`: without a Bearer header the request
      goes on without a user; otherwise `authenticateUser` decides, and as it
      never throws, the catch clause never runs. */
  function OptionalAuth(header: Option<string>, supabaseUrl: string, supabaseAnonKey: string,
                        getUser: string -> ProviderReply): (d: Decision)
    ensures BearerToken(header).None? ==> d == Continue(None)
    ensures BearerToken(header).Some? ==> d == Authenticate(header, supabaseUrl, supabaseAnonKey, getUser)
  {
    if BearerToken(header).None? then Continue(None)
    else Authenticate(header, supabaseUrl, supabaseAnonKey, getUser)
  }

  /** A Bearer token the provider rejects is answered with 401 even by the
      optional middleware: the request does not go on anonymously. */
  lemma OptionalAuthRejectsBadToken(token: string, supabaseUrl: string, supabaseAnonKey: string,
                                    getUser: string -> ProviderReply)
    requires supabaseUrl != "" && supabaseAnonKey != ""
    requires getUser(token).Answered? && (getUser(token).error || getUser(token).user.None?)
    ensures OptionalAuth(Some(BearerPrefix + token), supabaseUrl, supabaseAnonKey, getUser)
      == Respond(Unauthorized("Invalid or expired token"))
  {
    var h := BearerPrefix + token;
    assert StartsWith(h, BearerPrefix);
    assert h[|BearerPrefix|..] == token;
  }

  /** The provider is asked about exactly the header minus its first seven
      characters. */
  lemma TokenIsHeaderTail(header: string)
    requires StartsWith(header, BearerPrefix)
    ensures BearerToken(Some(header)) == Some(header[7..])
  {
  }

  /** `authenticateUser` applied to the request: the decision's reply is
      sent, or the user is attached and `next` is called once. */
  method AuthenticateUser(ex: Exchange, header: Option<string>, supabaseUrl: string, supabaseAnonKey: string,
                          getUser: string -> ProviderReply)
    modifies ex
    ensures Authenticate(header, supabaseUrl, supabaseAnonKey, getUser).Respond? ==>
      ex.replies == old(ex.replies) + [Authenticate(header, supabaseUrl, supabaseAnonKey, getUser).reply]
      && ex.nextCalls == old(ex.nextCalls) && ex.user == old(ex.user)
    ensures Authenticate(header, supabaseUrl, supabaseAnonKey, getUser).Continue? ==>
      ex.user == Authenticate(header, supabaseUrl, supabaseAnonKey, getUser).user
      && ex.nextCalls == old(ex.nextCalls) + 1 && ex.replies == old(ex.replies)
  {
    var d := Authenticate(header, supabaseUrl, supabaseAnonKey, getUser);
    match d
    case Respond(reply) =>
      ex.Send(reply);
    case Continue(user) =>
      ex.SetUser(user.value);
      ex.Next();
  }

  /** `optionalAuth` applied to the request. */
  method OptionalAuthenticate(ex: Exchange, header: Option<string>, supabaseUrl: string, supabaseAnonKey: string,
                              getUser: string -> ProviderReply)
    modifies ex
    ensures BearerToken(header).None? ==>
      ex.nextCalls == old(ex.nextCalls) + 1 && ex.user == old(ex.user) && ex.replies == old(ex.replies)
    ensures OptionalAuth(header, supabaseUrl, supabaseAnonKey, getUser).Respond? ==>
      ex.replies == old(ex.replies) + [OptionalAuth(header, supabaseUrl, supabaseAnonKey, getUser).reply]
      && ex.nextCalls == old(ex.nextCalls) && ex.user == old(ex.user)
    ensures BearerToken(header).Some? && OptionalAuth(header, supabaseUrl, supabaseAnonKey, getUser).Continue? ==>
      ex.user == OptionalAuth(header, supabaseUrl, supabaseAnonKey, getUser).user
      && ex.nextCalls == old(ex.nextCalls) + 1 && ex.replies == old(ex.replies)
  {
    if BearerToken(header).None? {
      ex.Next();
    } else {
      AuthenticateUser(ex, header, supabaseUrl, supabaseAnonKey, getUser);
    }
  }
}

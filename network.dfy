/**
 * The session client: a bearer token and its expiry, renewed before a
 * request whenever the token is missing or expired. The HTTP exchanges
 * are inputs (the reply the server gives), and the clock is the
 * parameter `now`, in milliseconds.
 */
module Net {
  import opened Wrappers
  import opened FliprConfig

  /** Every request goes to this host. */
  const ApiBaseUrl: string := "https://apis.goflipr.com"

  /** The only status accepted as success (`HttpStatusCode.OK`). */
  const HttpOk: int := 200

  /** The message of the error a failed login rejects with. */
  const LoginFailed: string := "Login failed."

  /** A JavaScript Date: a time value in milliseconds, or the invalid date (time value NaN). */
  datatype Instant = At(ms: int) | InvalidDate

  /** `expires > new Date()`: compares time values, and every comparison with NaN is false. */
  predicate Later(e: Instant, now: int) {
    e.At? && e.ms > now
  }

  /** The expiry the authentication reply is meant to give: `expires` seconds from now. */
  function Expiry(now: int, expiresIn: int): (e: Instant)
    ensures forall t: int :: Later(e, t) <==> t < now + 1000 * expiresIn
  {
    At(now + 1000 * expiresIn)
  }

  /**
   * The expiry the code computes: it adds the function `getSeconds`
   * itself, not its result, to the reply's `expires`, which yields text;
   * `setSeconds` of that text is NaN, so the date is invalid whatever the
   * reply says.
   */
  function ExpiryAsWritten(now: int, expiresIn: int): (e: Instant)
    ensures forall t: int :: !Later(e, t)
  {
    InvalidDate
  }

  /**
   * Which expiry a client computes: the one the code means to compute, or
   * the one its line 42 actually computes.
   */
  datatype ExpiryRule = Intended | AsWritten

  function ExpiryBy(rule: ExpiryRule, now: int, expiresIn: int): Instant {
    match rule
    case Intended => Expiry(now, expiresIn)
    case AsWritten => ExpiryAsWritten(now, expiresIn)
  }

  /** `ensureAuth`'s test: a token is held and its expiry lies in the future. */
  predicate SessionValid(token: Option<string>, expires: Option<Instant>, now: int) {
    token.Some? && expires.Some? && Later(expires.value, now)
  }

  /**
   * With the intended expiry, a fresh token is reused exactly until
   * `expires` seconds after it was obtained.
   */
  lemma TokenReusedUntilExpiry(token: string, obtained: int, expiresIn: int, now: int)
    ensures SessionValid(Some(token), Some(Expiry(obtained, expiresIn)), now) <==>
      now < obtained + 1000 * expiresIn
  {
  }

  /** With the expiry as written, a token is never reused: every check asks for a new one. */
  lemma AsWrittenTokenNeverReused(token: string, obtained: int, expiresIn: int, now: int)
    ensures !SessionValid(Some(token), Some(ExpiryAsWritten(obtained, expiresIn)), now)
  {
  }

  /** The form posted to the token endpoint. */
  datatype TokenRequest = TokenRequest(url: string, grantType: string, username: JsValue, password: JsValue)

  /** What the token endpoint answers: the status and the body's `access_token` and `expires`. */
  datatype AuthReply = AuthReply(status: int, accessToken: string, expiresIn: int)

  /** An authenticated GET: the URL and the Authorization header sent. */
  datatype GetRequest = GetRequest(url: string, authorization: string)

  /** The transport's `error` argument, opaque to the client. */
  datatype TransportError = TransportError(description: string)

  /** What the server answers to a GET: the status, the body and the transport's error (null when there was none). */
  datatype Reply<B> = Reply(status: int, body: B, error: Option<TransportError>)

  /**
   * How the promise returned by `get` ends: resolved with the body,
   * rejected with the transport's error value (possibly null), or never
   * settled, when authentication failed and its rejection was dropped.
   */
  datatype GetOutcome<B> = Resolved(body: B) | Rejected(error: Option<TransportError>) | Unsettled

  class Network {
    const config: Config
    const expiryRule: ExpiryRule
    var accessToken: Option<string>
    var expires: Option<Instant>

    /** A new client holds no token and no expiry. */
    constructor(config: Config, expiryRule: ExpiryRule)
      ensures this.config == config && this.expiryRule == expiryRule
      ensures accessToken == None && expires == None
      ensures Valid()
    {
      this.config := config;
      this.expiryRule := expiryRule;
      accessToken := None;
      expires := None;
    }

    /**
     * A token and its expiry are only ever stored together. Every method
     * preserves this invariant; none of their other promises depends on it.
     */
    predicate Valid()
      reads this
    {
      accessToken.Some? <==> expires.Some?
    }

    /** The expiry this client stores for a token obtained at `now`. */
    function ExpiryAfter(now: int, expiresIn: int): Instant {
      ExpiryBy(expiryRule, now, expiresIn)
    }

    predicate HasValidSession(now: int)
      reads this
    {
      SessionValid(accessToken, expires, now)
    }

    /**
     * `auth`: posts the credentials; a non-200 reply rejects with
     * "Login failed." and leaves the session as it was, a 200 reply stores
     * the token and its expiry.
     */
    method Auth(now: int, reply: AuthReply) returns (sent: TokenRequest, r: Outcome<string>)
      requires Valid()
      modifies this
      ensures Valid()
      ensures sent == TokenRequest(ApiBaseUrl + "/OAuth2/token", "password", config.username, config.password)
      ensures reply.status != HttpOk ==>
        r == Fail(LoginFailed) && accessToken == old(accessToken) && expires == old(expires)
      ensures reply.status == HttpOk ==>
        r == Pass && accessToken == Some(reply.accessToken) &&
        expires == Some(ExpiryAfter(now, reply.expiresIn))
      ensures r == Pass && expiryRule == Intended && reply.expiresIn > 0 ==> HasValidSession(now)
      ensures r == Pass && expiryRule == AsWritten ==> forall t: int :: !HasValidSession(t)
    {
      sent := TokenRequest(ApiBaseUrl + "/OAuth2/token", "password", config.username, config.password);
      if reply.status != HttpOk {
        return sent, Fail(LoginFailed);
      }
      accessToken := Some(reply.accessToken);
      expires := Some(ExpiryAfter(now, reply.expiresIn));
      r := Pass;
    }

    /**
     * `ensureAuth`: nothing to do while the session is valid; otherwise
     * authenticate, with `reply` as the token endpoint's answer.
     */
    method EnsureAuth(now: int, reply: AuthReply) returns (sent: Option<TokenRequest>, r: Outcome<string>)
      requires Valid()
      modifies this
      ensures Valid()
      ensures sent.None? <==> old(HasValidSession(now))
      ensures sent.Some? ==>
        sent.value == TokenRequest(ApiBaseUrl + "/OAuth2/token", "password", config.username, config.password)
      ensures sent.None? ==>
        r == Pass && accessToken == old(accessToken) && expires == old(expires)
      ensures sent.Some? && reply.status != HttpOk ==>
        r == Fail(LoginFailed) && accessToken == old(accessToken) && expires == old(expires)
      ensures sent.Some? && reply.status == HttpOk ==>
        r == Pass && accessToken == Some(reply.accessToken) &&
        expires == Some(ExpiryAfter(now, reply.expiresIn))
      ensures r == Pass ==> accessToken.Some?
    {
      if HasValidSession(now) {
        return None, Pass;
      }
      var request;
      request, r := Auth(now, reply);
      sent := Some(request);
    }

    /**
     * `get(endpoint)`: first `ensureAuth`, then the request with the
     * bearer token; the body is accepted exactly when the status is 200.
     */
    method Get<B>(endpoint: string, now: int, authReply: AuthReply, reply: Reply<B>)
      returns (authSent: Option<TokenRequest>, sent: Option<GetRequest>, r: GetOutcome<B>)
      requires Valid()
      modifies this
      ensures Valid()
      ensures authSent.None? <==> old(HasValidSession(now))
      ensures authSent.Some? ==>
        authSent.value == TokenRequest(ApiBaseUrl + "/OAuth2/token", "password", config.username, config.password)
      ensures authSent.None? ==> accessToken == old(accessToken) && expires == old(expires)
      ensures authSent.Some? && authReply.status != HttpOk ==>
        accessToken == old(accessToken) && expires == old(expires) &&
        sent == None && r == Unsettled
      ensures authSent.Some? && authReply.status == HttpOk ==>
        accessToken == Some(authReply.accessToken) &&
        expires == Some(ExpiryAfter(now, authReply.expiresIn))
      ensures sent.None? <==> r == Unsettled
      ensures r == Unsettled <==> authSent.Some? && authReply.status != HttpOk
      ensures sent.Some? ==>
        accessToken.Some? &&
        sent.value == GetRequest(ApiBaseUrl + endpoint, "Bearer " + accessToken.value)
      ensures sent.Some? ==> (r.Resolved? <==> reply.status == HttpOk)
      ensures r.Resolved? ==> r.body == reply.body
      ensures r.Rejected? ==> r.error == reply.error
    {
      var authResult;
      authSent, authResult := EnsureAuth(now, authReply);
      if authResult.Fail? {
        return authSent, None, Unsettled;
      }
      sent := Some(GetRequest(ApiBaseUrl + endpoint, "Bearer " + accessToken.value));
      if reply.status == HttpOk {
        r := Resolved(reply.body);
      } else {
        r := Rejected(reply.error);
      }
    }
  }

  /**
   * Two requests on one client computing the intended expiry: the second reuses the token the first
   * obtained as long as it comes before that token's expiry, so only one
   * authentication exchange takes place; after the expiry it authenticates
   * again, exactly once.
   */
  method TwoRequests<B>(n: Network, endpoint: string, t1: int, t2: int,
                        auth1: AuthReply, auth2: AuthReply, reply1: Reply<B>, reply2: Reply<B>)
    returns (firstAuthenticated: bool, secondAuthenticated: bool)
    requires n.Valid() && n.expiryRule == Intended && !n.HasValidSession(t1)
    requires auth1.status == HttpOk
    modifies n
    ensures firstAuthenticated
    ensures secondAuthenticated <==> t2 >= t1 + 1000 * auth1.expiresIn
  {
    var a1, s1, r1 := n.Get(endpoint, t1, auth1, reply1);
    firstAuthenticated := a1.Some?;
    var a2, s2, r2 := n.Get(endpoint, t2, auth2, reply2);
    secondAuthenticated := a2.Some?;
  }

  /**
   * The same two requests on a client computing the expiry as the code
   * does: the second request logs in again, however soon it follows.
   */
  method TwoRequestsAsWritten<B>(n: Network, endpoint: string, t1: int, t2: int,
                                 auth1: AuthReply, auth2: AuthReply, reply1: Reply<B>, reply2: Reply<B>)
    returns (firstAuthenticated: bool, secondAuthenticated: bool)
    requires n.Valid() && n.expiryRule == AsWritten && !n.HasValidSession(t1)
    requires auth1.status == HttpOk
    modifies n
    ensures firstAuthenticated && secondAuthenticated
  {
    var a1, s1, r1 := n.Get(endpoint, t1, auth1, reply1);
    firstAuthenticated := a1.Some?;
    var a2, s2, r2 := n.Get(endpoint, t2, auth2, reply2);
    secondAuthenticated := a2.Some?;
  }
}

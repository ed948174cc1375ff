/**
 * The `isAuthenticated` middleware. It reads the `token` cookie and either
 * answers 401 or records the decoded claims on the request and hands over to
 * the next handler. It verifies with the environment's secret as it is: no
 * fallback.
 */
module Gate {
  import opened Wrappers
  import opened Jwt
  import opened Http
  import opened Auth

  /** One request/response exchange as the middleware sees it. */
  class Exchange {
    /** The request's `token` cookie. */
    var cookie: Option<Token>
    /** `req.user`. */
    var user: Option<Claims>
    /** What has been written to the response, if anything. */
    var response: Option<Response>
    /** How many times `next()` was called. */
    var nextCalls: nat

    /** A request that has just arrived: no user, no response, no handler run. */
    predicate Fresh()
      reads this
    {
      user.None? && response.None? && nextCalls == 0
    }

    constructor (cookie: Option<Token>)
      ensures this.cookie == cookie && Fresh()
    {
      this.cookie := cookie;
      user, response, nextCalls := None, None, 0;
    }
  }

  /**
   * `isAuthenticated(req, res, next)` with `process.env.JWT_SECRET == secret`:
   * 401 'Unauthorized' without a token, 401 'Invalid token' when it fails to
   * verify, otherwise `req.user` is the decoded payload and `next` runs once.
   */
  method IsAuthenticated(x: Exchange, secret: Option<string>, now: int)
    requires x.Fresh()
    modifies x
    ensures x.cookie == old(x.cookie)
    ensures NoToken(x.cookie) ==> x.response == Some(Fail(401, "Unauthorized")) && x.nextCalls == 0 && x.user.None?
    ensures !NoToken(x.cookie) && Verify(x.cookie.value, secret, now).None? ==>
      x.response == Some(Fail(401, "Invalid token")) && x.nextCalls == 0 && x.user.None?
    ensures !NoToken(x.cookie) && Verify(x.cookie.value, secret, now).Some? ==>
      x.user == Verify(x.cookie.value, secret, now) && x.nextCalls == 1 && x.response.None?
    ensures x.response.Some? <==> x.nextCalls == 0
    ensures x.response.Some? ==> x.response.value.status == 401
  {
    if NoToken(x.cookie) {
      x.response := Some(Fail(401, "Unauthorized"));
      return;
    }
    var decoded := Verify(x.cookie.value, secret, now);
    if decoded.None? {
      x.response := Some(Fail(401, "Invalid token"));
      return;
    }
    x.user := decoded;
    x.nextCalls := x.nextCalls + 1;
  }

  /**
   * With the secret variable unset or empty, the controllers sign with the
   * fallback secret while the gate has no usable secret: a token the
   * controllers issue never passes the gate, and the request is answered
   * 'Invalid token'.
   */
  method FallbackTokenBlocked(env: Env, claims: Claims, signedAt: int, now: int) returns (x: Exchange)
    requires Blank(env.jwtSecret)
    ensures x.response == Some(Fail(401, "Invalid token")) && x.nextCalls == 0
  {
    var token := Sign(claims, ControllerSecret(env), signedAt);
    x := new Exchange(Some(token));
    IsAuthenticated(x, env.jwtSecret, now);
  }

  /** With the secret variable set and non-empty, the gate and the controllers decide every token alike. */
  lemma GateAgreesWithControllers(env: Env, token: Token, now: int)
    requires env.jwtSecret.Some? && env.jwtSecret.value != ""
    ensures Verify(token, env.jwtSecret, now) == Verify(token, Some(ControllerSecret(env)), now)
  {
  }
}

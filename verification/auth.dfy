/**
 * The account controllers: sign up, sign in, sign out, "am I logged in", and
 * "who am I". Each runs its checks in order and answers at the first failure;
 * only sign-up writes to the store. Password hashing and comparison are
 * parameters (`hash`, `compare`), and `now` is the clock in seconds.
 */
module Auth {
  import opened Wrappers
  import opened Records
  import opened Jwt
  import opened Http
  import opened Store

  /** The process environment the controllers read. */
  datatype Env = Env(jwtSecret: Option<string>, nodeEnv: Option<string>)

  const FallbackSecret := "fallback_secret"

  /** `process.env.JWT_SECRET || 'fallback_secret'`: the secret the controllers sign and verify with. */
  function ControllerSecret(env: Env): (s: string)
    ensures s != ""
    ensures env.jwtSecret.Some? && env.jwtSecret.value != "" ==> s == env.jwtSecret.value
    ensures env.jwtSecret.None? || env.jwtSecret.value == "" ==> s == FallbackSecret
  {
    if env.jwtSecret.Some? && env.jwtSecret.value != "" then env.jwtSecret.value else FallbackSecret
  }

  /** The `token` cookie's options: HTTP-only, site-wide, one day; cross-site and secure only in production. */
  function Options(env: Env): (o: CookieOptions)
    ensures o.httpOnly && o.path == "/"
    ensures o.secure <==> env.nodeEnv == Some("production")
    ensures o.sameSite == "none" <==> o.secure
    ensures o.sameSite in {"none", "lax"}
    ensures o.maxAge == 86400000
  {
    var production := env.nodeEnv == Some("production");
    CookieOptions(true, production, if production then "none" else "lax", "/", 24 * 60 * 60 * 1000)
  }

  /** The cookie lives exactly as long as the token it carries: `maxAge` is the token lifetime in milliseconds. */
  lemma CookieMatchesTokenLifetime(env: Env)
    ensures Options(env).maxAge == Lifetime * 1000
  {
  }

  const MinPasswordLength := 6

  /** The cookie a successful sign-up or sign-in sets for `u`. */
  function SessionCookie(u: User, env: Env, now: int): (c: CookieEffect)
    ensures c.SetToken? && c.options == Options(env)
    ensures Verify(c.token, Some(ControllerSecret(env)), now) == Some(Claims(u.id, u.email))
  {
    SetToken(Sign(Claims(u.id, u.email), ControllerSecret(env), now), Options(env))
  }

  /**
   * `s.length`: the number of UTF-16 code units, so a character beyond the
   * Basic Multilingual Plane (U+10000 and above) counts twice.
   */
  function Utf16Length(s: string): (n: nat)
    ensures |s| <= n <= 2 * |s|
    ensures (forall i :: 0 <= i < |s| ==> s[i] < '\U{10000}') ==> n == |s|
    decreases |s|
  {
    if |s| == 0 then 0
    else Utf16Length(s[..|s| - 1]) + (if s[|s| - 1] >= '\U{10000}' then 2 else 1)
  }

  /** Three emoji are six code units long, so they pass the length rule though they are three characters. */
  lemma AstralPasswordLength()
    ensures |"\U{1F600}\U{1F600}\U{1F600}"| == 3
    ensures Utf16Length("\U{1F600}\U{1F600}\U{1F600}") == MinPasswordLength
  {
    var s := "\U{1F600}\U{1F600}\U{1F600}";
    assert s[..2] == "\U{1F600}\U{1F600}" && s[..2][..1] == "\U{1F600}" && s[..2][..1][..0] == "";
  }

  /**
   * `signupController`: 400 when a field is missing, 400 for a short password,
   * 409 for a registered email; otherwise one new user holding the hashed
   * password, a session cookie, and 201 with the public part of the user.
   */
  method Signup(db: Db, env: Env, name: Option<string>, email: Option<string>, password: Option<string>,
                hash: string -> string, now: int) returns (resp: Response)
    requires db.Valid()
    modifies db
    ensures db.Valid()
    ensures db.records == old(db.records) && db.conversations == old(db.conversations)
    ensures db.messages == old(db.messages)
    ensures Blank(name) || Blank(email) || Blank(password) ==>
      resp == Fail(400, "All fields are required") && db.users == old(db.users) && db.nextId == old(db.nextId)
    ensures !Blank(name) && !Blank(email) && !Blank(password) && Utf16Length(password.value) < MinPasswordLength ==>
      resp == Fail(400, "Password must be at least 6 characters") && db.users == old(db.users) && db.nextId == old(db.nextId)
    ensures (!Blank(name) && !Blank(email) && !Blank(password) && Utf16Length(password.value) >= MinPasswordLength
             && FindUserByEmail(old(db.users), email.value).Some?) ==>
      resp == Fail(409, "Email already in use") && db.users == old(db.users) && db.nextId == old(db.nextId)
    ensures (!Blank(name) && !Blank(email) && !Blank(password) && Utf16Length(password.value) >= MinPasswordLength
             && FindUserByEmail(old(db.users), email.value).None?) ==>
      var u := User(old(db.nextId), name.value, email.value, hash(password.value));
      && db.users == old(db.users) + [u]
      && resp == Response(201, Account(Public(u), "Account created successfully"), SessionCookie(u, env, now))
  {
    if Blank(name) || Blank(email) || Blank(password) {
      return Fail(400, "All fields are required");
    }
    if Utf16Length(password.value) < MinPasswordLength {
      return Fail(400, "Password must be at least 6 characters");
    }
    var existing := FindUserByEmail(db.users, email.value);
    if existing.Some? {
      return Fail(409, "Email already in use");
    }
    var hashed := hash(password.value);
    var u := db.AddUser(name.value, email.value, hashed);
    resp := Response(201, Account(Public(u), "Account created successfully"), SessionCookie(u, env, now));
  }

  /**
   * `signinController`: 400 when a field is missing; the same 401 for an
   * unknown email and for a wrong password; otherwise a session cookie and
   * 200 with the public part of the user. It never writes to the store.
   */
  function Signin(users: seq<User>, env: Env, email: Option<string>, password: Option<string>,
                  compare: (string, string) -> bool, now: int): (resp: Response)
    ensures Blank(email) || Blank(password) ==> resp == Fail(400, "Email and password are required")
    ensures !Blank(email) && !Blank(password) ==>
      var found := FindUserByEmail(users, email.value);
      && (found.None? || !compare(password.value, found.value.password) ==> resp == Fail(401, "Invalid credentials"))
      && (found.Some? && compare(password.value, found.value.password) ==>
            resp == Response(200, Account(Public(found.value), "Login successful"), SessionCookie(found.value, env, now)))
  {
    if Blank(email) || Blank(password) then Fail(400, "Email and password are required")
    else
      var found := FindUserByEmail(users, email.value);
      if found.None? || !compare(password.value, found.value.password) then Fail(401, "Invalid credentials")
      else Response(200, Account(Public(found.value), "Login successful"), SessionCookie(found.value, env, now))
  }

  /** Signing in with the password just registered succeeds, as the user just created. */
  lemma SignupThenSignin(users: seq<User>, u: User, env: Env, password: string,
                         hash: string -> string, compare: (string, string) -> bool, now: int)
    requires FindUserByEmail(users, u.email).None?
    requires u.email != "" && password != "" && u.password == hash(password)
    requires compare(password, hash(password))
    ensures Signin(users + [u], env, Some(u.email), Some(password), compare, now)
      == Response(200, Account(Public(u), "Login successful"), SessionCookie(u, env, now))
  {
    FindNewUserByEmail(users, u);
  }

  /** `signoutController`: clears the cookie and answers 200, whatever the request. */
  function Signout(env: Env): (resp: Response)
    ensures resp.status == 200 && resp.body == Note("Logged out successfully")
    ensures resp.cookie == Clear(Options(env))
  {
    Response(200, Note("Logged out successfully"), Clear(Options(env)))
  }

  /** Signing out twice leaves the browser as signing out once: no cookie. */
  lemma SignoutIdempotent(env: Env, jar: Option<Token>)
    ensures ApplyCookie(ApplyCookie(jar, Signout(env).cookie), Signout(env).cookie)
      == ApplyCookie(jar, Signout(env).cookie) == None
  {
  }

  /** `checkAuthController`: logged in exactly when a token is present and verifies; never an error status. */
  function CheckAuth(env: Env, cookie: Option<Token>, now: int): (resp: Response)
    ensures resp.status == 200 && resp.cookie == Keep && resp.body.LoggedIn?
    ensures resp.body.loggedIn <==> !NoToken(cookie) && Verify(cookie.value, Some(ControllerSecret(env)), now).Some?
  {
    if NoToken(cookie) then Response(200, LoggedIn(false), Keep)
    else if Verify(cookie.value, Some(ControllerSecret(env)), now).Some? then Response(200, LoggedIn(true), Keep)
    else Response(200, LoggedIn(false), Keep)
  }

  /** The cookie a successful sign-in sets counts as logged in for one day, and not after. */
  lemma SessionChecksForOneDay(users: seq<User>, env: Env, email: string, password: string,
                               compare: (string, string) -> bool, signedAt: int, now: int)
    requires Signin(users, env, Some(email), Some(password), compare, signedAt).status == 200
    ensures var jar := ApplyCookie(None, Signin(users, env, Some(email), Some(password), compare, signedAt).cookie);
      CheckAuth(env, jar, now).body.loggedIn <==> now < signedAt + Lifetime
  {
  }

  /** After signing out, the check reports not logged in. */
  lemma SignedOutIsLoggedOut(env: Env, jar: Option<Token>, now: int)
    ensures CheckAuth(env, ApplyCookie(jar, Signout(env).cookie), now).body == LoggedIn(false)
  {
  }

  /**
   * `getUserController`: 401 when the token is missing or fails to verify;
   * otherwise 200 with the public part of the user the token names, or with
   * no user when that user no longer exists.
   */
  function GetUser(users: seq<User>, env: Env, cookie: Option<Token>, now: int): (resp: Response)
    ensures cookie.None? || Verify(cookie.value, Some(ControllerSecret(env)), now).None? ==>
      resp == Fail(401, "Unauthorized")
    ensures cookie.Some? && Verify(cookie.value, Some(ControllerSecret(env)), now).Some? ==>
      var found := FindUserById(users, cookie.value.claims.id);
      && resp.status == 200 && resp.cookie == Keep && resp.body.UserOf?
      && (found.None? ==> resp.body.found.None?)
      && (found.Some? ==> resp.body.found == Some(Public(found.value)))
  {
    if cookie.None? then Fail(401, "Unauthorized")
    else
      var claims := Verify(cookie.value, Some(ControllerSecret(env)), now);
      if claims.None? then Fail(401, "Unauthorized")
      else
        var found := FindUserById(users, claims.value.id);
        Response(200, UserOf(if found.Some? then Some(Public(found.value)) else None), Keep)
  }
}

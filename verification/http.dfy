/**
 * What a handler answers: a status, a JSON body, and what it does to the
 * `token` cookie.
 */
module Http {
  import opened Wrappers
  import opened Records
  import opened ChatSchema
  import opened Jwt

  /** The options a cookie is set or cleared with. `maxAge` is in milliseconds. */
  datatype CookieOptions = CookieOptions(httpOnly: bool, secure: bool, sameSite: string, path: string, maxAge: int)

  datatype CookieEffect =
    | Keep
    | SetToken(token: Token, options: CookieOptions)
    | Clear(options: CookieOptions)

  datatype Body =
    | Error(error: string)
    | Account(user: PublicUser, message: string)
    | Note(message: string)
    | LoggedIn(loggedIn: bool)
    | UserOf(found: Option<PublicUser>)
    | Saved(message: string, data: FinancialRecord)
    | Data(data: FinancialRecord)
    | ChatTurn(conversation: Conversation, messages: seq<Message>)

  datatype Response = Response(status: int, body: Body, cookie: CookieEffect)

  /** A request field JavaScript finds falsy: absent or the empty string. */
  predicate Blank(o: Option<string>) {
    o.None? || o.value == ""
  }

  /** An error answer: no cookie change. */
  function Fail(status: int, error: string): (r: Response)
    ensures r.status == status && r.body == Error(error) && r.cookie == Keep
  {
    Response(status, Error(error), Keep)
  }

  /** The browser's `token` cookie after a response: set, cleared, or as it was. */
  function ApplyCookie(jar: Option<Token>, effect: CookieEffect): (after: Option<Token>)
    ensures effect.Keep? ==> after == jar
    ensures effect.SetToken? ==> after == Some(effect.token)
    ensures effect.Clear? ==> after.None?
  {
    match effect
    case Keep => jar
    case SetToken(t, _) => Some(t)
    case Clear(_) => None
  }

  /** `!token` on the cookie: absent or empty text. */
  predicate NoToken(cookie: Option<Token>) {
    cookie.None? || cookie.value == Forged("")
  }
}

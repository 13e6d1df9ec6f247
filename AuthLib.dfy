/** What the account handlers share: the request body with the credentials,
    the signed-in response with its session cookie, and the reading of the
    session token. Password hashing, token signing and token checking are
    library calls and enter as inputs: `hash` stands for `hashPassword`,
    `sign` for `generateToken`, and `tokens` maps each token that
    `verifyToken` accepts to the claims it decodes to; a token outside the
    map is one it rejects. */
module AuthLib {
  import opened Js

  const CookieName := "auth_token"

  /** Seven days, in seconds. */
  const SessionSeconds := 7 * 24 * 60 * 60

  /** The claims a signed-in response puts in its token. */
  datatype TokenPayload = TokenPayload(id: string, email: string)

  /** The decoded token, read through its `id` claim. */
  datatype Claims = Claims(id: Option<string>)

  datatype Cookie = Cookie(name: string, value: string, httpOnly: bool, secure: bool, sameSite: string, maxAge: int)

  /** The body of a register or login request. */
  datatype Credentials = Credentials(email: Option<string>, password: Option<string>, companyName: Option<string>)

  /** `{ success: true, user: { id, email } }` with the session cookie set,
      or an error status with its message. */
  datatype AuthResponse = SignedIn(user: TokenPayload, cookie: Cookie) | Refused(status: int, error: string)

  const MissingCredentials := "Email and password are required"
  const InternalError := "Internal server error"

  /** Both fields are there and non-empty. */
  predicate HasCredentials(c: Credentials) {
    Truthy(c.email) && Truthy(c.password)
  }

  /** `cookies.set("auth_token", token, { … })` after a sign-in: readable by
      the server only, sent to this site only, secure in production, valid
      for a week. */
  function SessionCookie(token: string, production: bool): (c: Cookie)
    ensures c.name == CookieName && c.value == token
    ensures c.httpOnly && c.sameSite == "strict" && c.secure == production
    ensures c.maxAge == 604800
  {
    Cookie(CookieName, token, true, production, "strict", SessionSeconds)
  }

  /** The response of a successful sign-in of the user (id, email): the
      token is signed over exactly those two fields. */
  function SignedInAs(id: string, email: string, sign: TokenPayload -> string, production: bool): (r: AuthResponse)
    ensures r.SignedIn? && r.user.id == id && r.user.email == email
    ensures r.cookie == SessionCookie(sign(r.user), production)
  {
    var payload := TokenPayload(id, email);
    SignedIn(payload, SessionCookie(sign(payload), production))
  }

  /** The token check of the protected handlers: the cookie is there and
      non-empty, `verifyToken` accepts it, and the claims carry a non-empty
      id. That id, if all three hold. */
  function Authenticate(token: Option<string>, tokens: map<string, Claims>): (r: Option<string>)
    ensures r.Some? <==> Truthy(token) && token.value in tokens && Truthy(tokens[token.value].id)
    ensures r.Some? ==> r.value != "" && r.value == tokens[token.value].id.value
  {
    if !Truthy(token) then None
    else if token.value !in tokens then None
    else if !Truthy(tokens[token.value].id) then None
    else tokens[token.value].id
  }
}

/** POST /api/auth/login: signs in the user with that email when the
    password matches the stored hash. It only reads the user table. */
module LoginRoute {
  import opened Js
  import opened Database
  import opened AuthLib
  import RegisterRoute

  const InvalidCredentials := "Invalid credentials"

  /** The password checks out against the stored hash. */
  predicate PasswordMatches(u: User, password: string, hash: string -> string) {
    hash(password) == u.passwordHash
  }

  /** `POST`. An unknown email and a wrong password get the same answer. */
  function Post(users: seq<User>, body: Option<Credentials>, hash: string -> string,
                sign: TokenPayload -> string, production: bool): (r: AuthResponse)
    ensures body.None? ==> r == Refused(500, InternalError)
    ensures body.Some? && !HasCredentials(body.value) ==> r == Refused(400, MissingCredentials)
    ensures r.SignedIn? <==>
              body.Some? && HasCredentials(body.value)
              && FindUnique(users, ByEmail(body.value.email.value)).Some?
              && PasswordMatches(FindUnique(users, ByEmail(body.value.email.value)).value, body.value.password.value, hash)
    ensures r.SignedIn? ==>
              var u := FindUnique(users, ByEmail(body.value.email.value)).value;
              u in users && r == SignedInAs(u.id, u.email, sign, production)
    ensures r.Refused? && body.Some? && HasCredentials(body.value) ==> r == Refused(401, InvalidCredentials)
  {
    match body
    case None => Refused(500, InternalError)
    case Some(b) =>
      if !HasCredentials(b) then Refused(400, MissingCredentials)
      else
        match FindUnique(users, ByEmail(b.email.value))
        case None => Refused(401, InvalidCredentials)
        case Some(u) =>
          if !PasswordMatches(u, b.password.value, hash) then Refused(401, InvalidCredentials)
          else SignedInAs(u.id, u.email, sign, production)
  }

  /** Whoever registered with an email and a password can log in with them
      afterwards, as the user that registration created. */
  lemma RegisteredUserCanLogIn(users: seq<User>, id: string, email: string, password: string,
                               companyName: Option<string>, hash: string -> string,
                               sign: TokenPayload -> string, production: bool)
    requires email != "" && password != ""
    requires UniqueUsers(users + [RegisterRoute.NewUser(id, email, hash(password), companyName)])
    ensures Post(users + [RegisterRoute.NewUser(id, email, hash(password), companyName)],
                 Some(Credentials(Some(email), Some(password), None)), hash, sign, production)
            == SignedInAs(id, email, sign, production)
  {
    var u := RegisterRoute.NewUser(id, email, hash(password), companyName);
    FindUniqueFinds(users + [u], u, ByEmail(email));
  }
}

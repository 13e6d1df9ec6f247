/** POST /api/auth/register: creates an account for a new email, storing
    only the password's hash, and signs the new user in. */
module RegisterRoute {
  import opened Js
  import opened Database
  import opened AuthLib

  const AlreadyExists := "User already exists"

  /** The row `user.create` is given. Fields the handler does not set take
      the table defaults: no logo, no custom key, no average rate and a
      generation count of 0. */
  function NewUser(id: string, email: string, passwordHash: string, companyName: Option<string>): (u: User)
    ensures u.id == id && u.email == email && u.passwordHash == passwordHash && u.companyName == companyName
    ensures u.logoUrl.None? && u.customApiKey.None? && u.averageRate.None? && u.generationCount == 0
  {
    User(id, email, passwordHash, companyName, None, None, 0, None)
  }

  /** `POST`. `body` is None when the request is not JSON; `id` is the id
      the database generates. */
  method Post(db: Db, body: Option<Credentials>, hash: string -> string, sign: TokenPayload -> string,
              id: string, production: bool) returns (r: AuthResponse)
    requires db.Valid()
    modifies db
    ensures db.Valid() && db.proposals == old(db.proposals)
    ensures body.None? ==> r == Refused(500, InternalError)
    ensures body.Some? && !HasCredentials(body.value) ==> r == Refused(400, MissingCredentials)
    ensures (body.Some? && HasCredentials(body.value) && FindUnique(old(db.users), ByEmail(body.value.email.value)).Some?)
              ==> r == Refused(400, AlreadyExists)
    ensures r.SignedIn? <==>
              body.Some? && HasCredentials(body.value)
              && FindUnique(old(db.users), ByEmail(body.value.email.value)).None?
              && FindUnique(old(db.users), ById(id)).None?
    ensures r.SignedIn? ==>
              (db.users == old(db.users) + [NewUser(id, body.value.email.value, hash(body.value.password.value), body.value.companyName)]
               && r == SignedInAs(id, body.value.email.value, sign, production))
    ensures r.Refused? ==> db.users == old(db.users) && r.status in {400, 500}
  {
    if body.None? {
      return Refused(500, InternalError);
    }
    var b := body.value;
    if !HasCredentials(b) {
      return Refused(400, MissingCredentials);
    }
    var existing := FindUnique(db.users, ByEmail(b.email.value));
    if existing.Some? {
      return Refused(400, AlreadyExists);
    }
    var user := NewUser(id, b.email.value, hash(b.password.value), b.companyName);
    var ok := db.CreateUser(user);
    if !ok {
      return Refused(500, InternalError);
    }
    r := SignedInAs(user.id, user.email, sign, production);
  }
}

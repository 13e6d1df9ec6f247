/** GET /api/auth/me: the signed-in user's profile, with the API key
    reduced to whether there is one. It only reads the user table. */
module MeRoute {
  import opened Js
  import opened Database
  import opened AuthLib

  /** The `user` object of the response. */
  datatype Profile = Profile(
    id: string,
    email: string,
    companyName: Option<string>,
    logoUrl: Option<string>,
    hasCustomKey: bool,
    generationCount: int,
    averageRate: Option<int>)

  /** `{ authenticated: true, user }`, or `{ authenticated: false }` with 401. */
  datatype MeResponse = Authenticated(user: Profile) | Anonymous(status: int)

  /** The projection of a user row the response shows. */
  function ProfileOf(u: User): (p: Profile)
    ensures p.id == u.id && p.email == u.email && p.companyName == u.companyName && p.logoUrl == u.logoUrl
    ensures p.generationCount == u.generationCount && p.averageRate == u.averageRate
    ensures p.hasCustomKey <==> Truthy(u.customApiKey)
  {
    Profile(u.id, u.email, u.companyName, u.logoUrl, Truthy(u.customApiKey), u.generationCount, u.averageRate)
  }

  /** `GET`: no cookie, a token that does not verify or has no id, and an id
      with no user all give the same 401. */
  function Get(users: seq<User>, token: Option<string>, tokens: map<string, Claims>): (r: MeResponse)
    ensures r.Authenticated? <==>
              Authenticate(token, tokens).Some? && FindUnique(users, ById(Authenticate(token, tokens).value)).Some?
    ensures r.Authenticated? ==>
              var u := FindUnique(users, ById(Authenticate(token, tokens).value)).value;
              u in users && u.id == Authenticate(token, tokens).value && r.user == ProfileOf(u)
    ensures r.Anonymous? ==> r.status == 401
  {
    match Authenticate(token, tokens)
    case None => Anonymous(401)
    case Some(id) =>
      match FindUnique(users, ById(id))
      case None => Anonymous(401)
      case Some(u) => Authenticated(ProfileOf(u))
  }

  /** The key itself never reaches the response: two tables that differ only
      in a user's key, and agree on whether it has one, give every caller
      the same answer. */
  lemma KeyIsNotDisclosed(users: seq<User>, id: string, k1: Option<string>, k2: Option<string>,
                          token: Option<string>, tokens: map<string, Claims>)
    requires Truthy(k1) == Truthy(k2)
    ensures Get(SetKey(users, id, k1), token, tokens) == Get(SetKey(users, id, k2), token, tokens)
  {
    var a := Authenticate(token, tokens);
    if a.Some? {
      FindUniqueAfterSetKey(users, id, k1, ById(a.value));
      FindUniqueAfterSetKey(users, id, k2, ById(a.value));
    }
  }

  /** After the update handler stores a key, the profile reports it. */
  lemma ProfileShowsStoredKey(users: seq<User>, id: string, k: Option<string>,
                              token: Option<string>, tokens: map<string, Claims>)
    requires Authenticate(token, tokens) == Some(id) && FindUnique(users, ById(id)).Some?
    ensures Get(SetKey(users, id, k), token, tokens).Authenticated?
    ensures Get(SetKey(users, id, k), token, tokens).user.hasCustomKey <==> Truthy(k)
  {
    FindUniqueAfterSetKey(users, id, k, ById(id));
  }
}

/** PUT /api/auth/update: sets or clears the signed-in user's own API key. */
module UpdateRoute {
  import opened Js
  import opened Database
  import opened AuthLib

  /** The body fields a client sends; `averageRate` is not read. */
  datatype UpdateBody = UpdateBody(customApiKey: Option<string>, averageRate: Option<int>)

  datatype UpdateResponse = KeyUpdated(hasCustomKey: bool) | UpdateFailed(status: int, error: string)

  const Unauthorized := "Unauthorized"
  const ServerError := "Server error"

  /** `custom_api_key || null`: an empty or missing key clears it. */
  function StoredKey(key: Option<string>): (r: Option<string>)
    ensures r.Some? <==> Truthy(key)
    ensures r.Some? ==> r == key
  {
    if Truthy(key) then key else None
  }

  /** `PUT`. The token is checked before the body is read; a user id that
      is not in the table makes the update throw (500). `body` is None when
      the request is not JSON. */
  method Put(db: Db, token: Option<string>, tokens: map<string, Claims>, body: Option<UpdateBody>)
    returns (r: UpdateResponse)
    requires db.Valid()
    modifies db
    ensures db.Valid() && db.proposals == old(db.proposals)
    ensures Authenticate(token, tokens).None? ==> r == UpdateFailed(401, Unauthorized)
    ensures r.KeyUpdated? <==>
              Authenticate(token, tokens).Some? && body.Some?
              && FindUnique(old(db.users), ById(Authenticate(token, tokens).value)).Some?
    ensures r.KeyUpdated? ==>
              var id := Authenticate(token, tokens).value;
              var key := StoredKey(body.value.customApiKey);
              db.users == SetKey(old(db.users), id, key)
              && FindUnique(db.users, ById(id)).Some?
              && FindUnique(db.users, ById(id)).value.customApiKey == key
              && (r.hasCustomKey <==> key.Some?)
    ensures r.UpdateFailed? ==> db.users == old(db.users)
    ensures r.UpdateFailed? && Authenticate(token, tokens).Some? ==> r == UpdateFailed(500, ServerError)
  {
    var id := Authenticate(token, tokens);
    if id.None? {
      return UpdateFailed(401, Unauthorized);
    }
    if body.None? {
      return UpdateFailed(500, ServerError);
    }
    var updated := db.UpdateCustomKey(id.value, StoredKey(body.value.customApiKey));
    if updated.None? {
      return UpdateFailed(500, ServerError);
    }
    FindUniqueAfterSetKey(old(db.users), id.value, StoredKey(body.value.customApiKey), ById(id.value));
    r := KeyUpdated(Truthy(updated.value.customApiKey));
  }
}

/** An in-memory stand-in for the two tables the handlers use through the
    database client: users and proposals (each proposal with its line
    items). Lookups by a unique key, and the inserts and updates the
    handlers make, with the failures the database would raise as errors:
    a duplicate unique key, a missing foreign key, an update of a missing
    row. */
module Database {
  import opened Js
  import opened LineItemCalculator

  /** A row of the user table. */
  datatype User = User(
    id: string,
    email: string,
    passwordHash: string,
    companyName: Option<string>,
    logoUrl: Option<string>,
    customApiKey: Option<string>,
    generationCount: int,
    averageRate: Option<int>)

  /** A row of the proposal table, with the line items created with it. */
  datatype Proposal = Proposal(
    id: string,
    userId: string,
    clientName: string,
    rawInput: string,
    refinedMarkdown: string,
    status: string,
    totalAmount: int,
    createdAt: int,
    lineItems: seq<Item>)

  /** The two unique keys of the user table. */
  datatype Key = ById(id: string) | ByEmail(email: string)

  predicate Matches(u: User, key: Key) {
    match key
    case ById(id) => u.id == id
    case ByEmail(email) => u.email == email
  }

  /** No two users share an id or an email. */
  predicate UniqueUsers(users: seq<User>) {
    forall i, j :: 0 <= i < j < |users| ==> users[i].id != users[j].id && users[i].email != users[j].email
  }

  /** No two proposals share an id. */
  predicate UniqueProposals(proposals: seq<Proposal>) {
    forall i, j :: 0 <= i < j < |proposals| ==> proposals[i].id != proposals[j].id
  }

  /** `findUnique({ where: key })`: the user with that key, if any. */
  function FindUnique(users: seq<User>, key: Key): (r: Option<User>)
    ensures r.Some? ==> r.value in users && Matches(r.value, key)
    ensures r.None? <==> forall u :: u in users ==> !Matches(u, key)
  {
    if users == [] then None
    else if Matches(users[0], key) then Some(users[0])
    else FindUnique(users[1..], key)
  }

  /** Under unique keys the lookup finds the one user that has the key. */
  lemma {:induction false} FindUniqueFinds(users: seq<User>, u: User, key: Key)
    requires UniqueUsers(users)
    requires u in users && Matches(u, key)
    ensures FindUnique(users, key) == Some(u)
  {
    if users[0] != u {
      assert u in users[1..];
      assert !Matches(users[0], key) by {
        var k :| 0 <= k < |users| && users[k] == u;
        assert 0 < k;
      }
      FindUniqueFinds(users[1..], u, key);
    }
  }

  /** `custom_api_key` written into the user with that id. */
  function SetKey(users: seq<User>, id: string, key: Option<string>): (r: seq<User>)
    ensures |r| == |users|
    ensures forall i :: 0 <= i < |users| ==> r[i] == if users[i].id == id then users[i].(customApiKey := key) else users[i]
  {
    seq(|users|, i requires 0 <= i < |users| => if users[i].id == id then users[i].(customApiKey := key) else users[i])
  }

  /** Setting a key keeps the keys unique, and a lookup then finds the
      updated user; lookups of other users find what they found before. */
  lemma SetKeyLookups(users: seq<User>, id: string, key: Option<string>, u: User)
    requires UniqueUsers(users) && FindUnique(users, ById(id)) == Some(u)
    ensures UniqueUsers(SetKey(users, id, key))
    ensures FindUnique(SetKey(users, id, key), ById(id)) == Some(u.(customApiKey := key))
    ensures forall v :: v in users && v.id != id ==> v in SetKey(users, id, key)
  {
    var r := SetKey(users, id, key);
    var k :| 0 <= k < |users| && users[k] == u;
    assert r[k] == u.(customApiKey := key);
    FindUniqueFinds(r, r[k], ById(id));
    forall v | v in users && v.id != id ensures v in r {
      var j :| 0 <= j < |users| && users[j] == v;
      assert r[j] == v;
    }
  }

  /** What a lookup finds once a key has been set: the same user, carrying
      the new key when it is the user that was updated. Ids and emails do
      not move, so every lookup still finds the same row. */
  lemma {:induction false} FindUniqueAfterSetKey(users: seq<User>, id: string, k: Option<string>, key: Key)
    ensures var before := FindUnique(users, key);
            FindUnique(SetKey(users, id, k), key)
            == if before.None? then None
               else Some(if before.value.id == id then before.value.(customApiKey := k) else before.value)
  {
    if users != [] {
      assert SetKey(users, id, k)[1..] == SetKey(users[1..], id, k);
      FindUniqueAfterSetKey(users[1..], id, k, key);
    }
  }

  /** The database: the two tables, updated in place by the handlers. */
  class Db {
    var users: seq<User>
    var proposals: seq<Proposal>

    predicate Valid()
      reads this
    {
      UniqueUsers(users) && UniqueProposals(proposals)
    }

    constructor ()
      ensures Valid() && users == [] && proposals == []
    {
      users, proposals := [], [];
    }

    /** `user.create`: fails, changing nothing, when the id or the email is
        already taken. */
    method CreateUser(u: User) returns (ok: bool)
      requires Valid()
      modifies this
      ensures Valid()
      ensures ok <==> FindUnique(old(users), ById(u.id)).None? && FindUnique(old(users), ByEmail(u.email)).None?
      ensures users == if ok then old(users) + [u] else old(users)
      ensures proposals == old(proposals)
    {
      ok := FindUnique(users, ById(u.id)).None? && FindUnique(users, ByEmail(u.email)).None?;
      if ok {
        ghost var before := users;
        users := users + [u];
        forall i, j | 0 <= i < j < |users| ensures users[i].id != users[j].id && users[i].email != users[j].email {
          if j == |before| {
            assert users[i] in before;
          }
        }
      }
    }

    /** `user.update({ where: { id }, data: { custom_api_key } })`: fails,
        changing nothing, when no user has that id; otherwise returns the
        updated row. */
    method UpdateCustomKey(id: string, key: Option<string>) returns (r: Option<User>)
      requires Valid()
      modifies this
      ensures Valid()
      ensures old(FindUnique(users, ById(id))).None? ==> r.None? && users == old(users)
      ensures old(FindUnique(users, ById(id))).Some? ==>
                r == Some(old(FindUnique(users, ById(id))).value.(customApiKey := key))
                && users == SetKey(old(users), id, key)
      ensures proposals == old(proposals)
    {
      var found := FindUnique(users, ById(id));
      if found.None? {
        r := None;
      } else {
        SetKeyLookups(users, id, key, found.value);
        users := SetKey(users, id, key);
        r := Some(found.value.(customApiKey := key));
      }
    }

    /** `proposal.create`: fails, changing nothing, when the id is taken or
        the owner is not a user. */
    method CreateProposal(p: Proposal) returns (ok: bool)
      requires Valid()
      modifies this
      ensures Valid()
      ensures ok <==> (forall q :: q in old(proposals) ==> q.id != p.id) && FindUnique(users, ById(p.userId)).Some?
      ensures proposals == if ok then old(proposals) + [p] else old(proposals)
      ensures users == old(users)
    {
      ok := (forall q :: q in proposals ==> q.id != p.id) && FindUnique(users, ById(p.userId)).Some?;
      if ok {
        proposals := proposals + [p];
      }
    }
  }
}

/** /api/proposals: GET lists every proposal with its line items, newest
    first; POST makes sure the built-in default user exists and stores a new
    proposal owned by it, filling defaults for the fields the body leaves
    out. Generated ids and the clock are inputs. */
module ProposalsRoute {
  import opened Js
  import opened LineItemCalculator
  import opened Database

  const DefaultUserId := "cm0testuser000000000001"

  /** The user `ensureDefaultUser` creates when there is none with the
      default id. */
  const DefaultUser := User(DefaultUserId, "test@example.com", "hashed", Some("Test Agency"), None, None, 0, None)

  const CreateFailure := "Failed to create proposal."
  const FetchFailure := "Failed to fetch proposals."

  /** The default user can be in place after `ensureDefaultUser`: it is
      there already, or its email is free so that it can be created. */
  predicate DefaultUserPossible(users: seq<User>) {
    FindUnique(users, ById(DefaultUserId)).Some? || FindUnique(users, ByEmail(DefaultUser.email)).None?
  }

  /** `ensureDefaultUser()`: a user with the default id is left as it is;
      otherwise the default user is inserted, which fails, changing nothing,
      when another user already has its email. Calling it again after it
      succeeded changes nothing. */
  method EnsureDefaultUser(db: Db) returns (ok: bool)
    requires db.Valid()
    modifies db
    ensures db.Valid() && db.proposals == old(db.proposals)
    ensures ok <==> FindUnique(db.users, ById(DefaultUserId)).Some?
    ensures ok <==> DefaultUserPossible(old(db.users))
    ensures old(FindUnique(db.users, ById(DefaultUserId))).Some? ==> db.users == old(db.users)
    ensures old(FindUnique(db.users, ById(DefaultUserId))).None? ==>
              db.users == if ok then old(db.users) + [DefaultUser] else old(db.users)
  {
    var user := FindUnique(db.users, ById(DefaultUserId));
    if user.Some? {
      ok := true;
    } else {
      ok := db.CreateUser(DefaultUser);
      if ok {
        assert DefaultUser in db.users;
      }
    }
  }

  /** The fields of a POST body. `userId` stands for a `user_id` the client
      might send: the handler never reads it. */
  datatype CreateBody = CreateBody(
    clientName: Option<string>,
    rawInput: Option<string>,
    refinedMarkdown: Option<string>,
    status: Option<string>,
    totalAmount: Option<int>,
    lineItems: Option<seq<Item>>,
    userId: Option<string>)

  /** `total_amount || 0` */
  function AmountOrZero(a: Option<int>): (r: int)
    ensures a.Some? ==> r == a.value
    ensures a.None? ==> r == 0
  {
    if a.Some? && a.value != 0 then a.value else 0
  }

  /** The row `proposal.create` is given: the body's fields with their
      defaults, always owned by the default user, stamped with the given
      id and time. */
  function NewProposal(body: CreateBody, id: string, now: int): (r: Proposal)
    ensures r.id == id && r.createdAt == now && r.userId == DefaultUserId
    ensures r.clientName != ""
    ensures r.clientName == if Truthy(body.clientName) then body.clientName.value else "New Client"
    ensures r.rawInput == if body.rawInput.Some? then body.rawInput.value else ""
    ensures r.refinedMarkdown == if body.refinedMarkdown.Some? then body.refinedMarkdown.value else ""
    ensures r.status == if Truthy(body.status) then body.status.value else "Draft"
    ensures r.totalAmount == if body.totalAmount.Some? then body.totalAmount.value else 0
    ensures r.lineItems == if body.lineItems.Some? then body.lineItems.value else []
  {
    Proposal(
      id, DefaultUserId,
      OrElse(body.clientName, "New Client"),
      OrElse(body.rawInput, ""),
      OrElse(body.refinedMarkdown, ""),
      OrElse(body.status, "Draft"),
      AmountOrZero(body.totalAmount),
      now,
      if body.lineItems.Some? then body.lineItems.value else [])
  }

  /** The stored total is the one sent; it is not recomputed from the line
      items, so the two can disagree. */
  lemma TotalIsNotRecomputed(body: CreateBody, id: string, now: int)
    requires body.totalAmount == Some(100) && body.lineItems == Some([])
    ensures NewProposal(body, id, now).totalAmount != Sum(NewProposal(body, id, now).lineItems)
  {
  }

  datatype PostResponse = Created(proposal: Proposal) | Failed(status: int, error: string)

  /** `POST`. The default user is ensured before the body is read, so a
      body that is not JSON still leaves the default user created. `body`
      is None for such a body; `id` and `now` are the generated id and the
      creation time. */
  method Post(db: Db, body: Option<CreateBody>, id: string, now: int) returns (r: PostResponse)
    requires db.Valid()
    modifies db
    ensures db.Valid()
    ensures r.Created? <==>
              DefaultUserPossible(old(db.users)) && body.Some?
              && forall q :: q in old(db.proposals) ==> q.id != id
    ensures r.Created? ==> (r.proposal == NewProposal(body.value, id, now)
                            && db.proposals == old(db.proposals) + [r.proposal])
    ensures r.Failed? ==> r == Failed(500, CreateFailure) && db.proposals == old(db.proposals)
    ensures DefaultUserPossible(old(db.users)) ==> FindUnique(db.users, ById(DefaultUserId)).Some?
    ensures db.users == old(db.users) || db.users == old(db.users) + [DefaultUser]
  {
    var ok := EnsureDefaultUser(db);
    if !ok {
      return Failed(500, CreateFailure);
    }
    if body.None? {
      return Failed(500, CreateFailure);
    }
    var p := NewProposal(body.value, id, now);
    var stored := db.CreateProposal(p);
    if stored {
      r := Created(p);
    } else {
      r := Failed(500, CreateFailure);
    }
  }

  /** Newer proposals come before older ones. */
  predicate NewestFirst(ps: seq<Proposal>) {
    forall i, j :: 0 <= i < j < |ps| ==> ps[i].createdAt >= ps[j].createdAt
  }

  /** p placed before the first proposal that is not newer than it. */
  function Insert(p: Proposal, s: seq<Proposal>): (r: seq<Proposal>)
    ensures multiset(r) == multiset(s) + multiset{p}
    ensures r[0] == p || (s != [] && r[0] == s[0])
    ensures NewestFirst(s) ==> NewestFirst(r)
  {
    if s == [] || s[0].createdAt <= p.createdAt then
      NewestFirstCons(p, s);
      [p] + s
    else
      var rest := Insert(p, s[1..]);
      assert s == [s[0]] + s[1..];
      NewestFirstCons(s[0], rest);
      [s[0]] + rest
  }

  /** Putting in front a proposal no older than the head keeps the order. */
  lemma NewestFirstCons(x: Proposal, t: seq<Proposal>)
    ensures NewestFirst(t) && (t != [] ==> x.createdAt >= t[0].createdAt) ==> NewestFirst([x] + t)
  {
  }

  /** `orderBy: { createdAt: "desc" }` */
  function SortNewestFirst(ps: seq<Proposal>): (r: seq<Proposal>)
    ensures multiset(r) == multiset(ps)
    ensures NewestFirst(r)
  {
    if ps == [] then []
    else
      assert ps == [ps[0]] + ps[1..];
      Insert(ps[0], SortNewestFirst(ps[1..]))
  }

  datatype ListResponse = Listed(proposals: seq<Proposal>) | ListFailed(status: int, error: string)

  /** `GET`: every stored proposal, each once, newest first. `stored` is
      None when the read fails. */
  function Get(stored: Option<seq<Proposal>>): (r: ListResponse)
    ensures stored.None? ==> r == ListFailed(500, FetchFailure)
    ensures stored.Some? ==> (r.Listed? && NewestFirst(r.proposals)
                              && multiset(r.proposals) == multiset(stored.value))
  {
    match stored
    case None => ListFailed(500, FetchFailure)
    case Some(ps) => Listed(SortNewestFirst(ps))
  }

  /** The listing has exactly the stored proposals, each with its line items. */
  lemma ListingKeepsEveryProposal(ps: seq<Proposal>, p: Proposal)
    ensures |Get(Some(ps)).proposals| == |ps|
    ensures p in Get(Some(ps)).proposals <==> p in ps
  {
    var r := Get(Some(ps)).proposals;
    assert |multiset(r)| == |multiset(ps)|;
    assert p in r <==> p in multiset(r);
    assert p in ps <==> p in multiset(ps);
  }
}

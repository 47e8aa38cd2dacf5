/** The users repository: the `users` collection as a map from id to record,
    what each repository call does to it, and the repository object with its
    lazily created single instance. The users schema file is not part of this
    model, so a record holds the body it was created from as given: every
    field but the id and the `knowledges` list may be absent. */
module UsersRepository {
  import opened Base
  import Store

  /** A stored user. `password` holds whatever the creator stored (the
      register handler stores a hash); `knowledges` lists owned item ids. */
  datatype User = User(
    id: string,
    email: Option<string>,
    userName: Option<string>,
    password: Option<string>,
    knowledges: seq<string>)

  /** `Partial<UserStructure>`: a request body or an update. */
  datatype UserFields = UserFields(
    id: Option<string>,
    email: Option<string>,
    userName: Option<string>,
    password: Option<string>,
    knowledges: Option<seq<string>>)

  /** Every user is stored under its own id. */
  predicate Keyed(users: map<string, User>) {
    forall id :: id in users ==> users[id].id == id
  }

  const QueryIdNotFound := HttpError(StatusNotFound, "Not found", "ID not found in queryID")
  const UpdateNotFound := HttpError(StatusNotFound, "Not found", "ID not found in update")
  const DestroyNotFound := HttpError(StatusNotFound, "Not found", "Delete not possible: ID not found ")

  /** `queryId`: the user stored under `id`, or 404. */
  function QueryIdIn(users: map<string, User>, id: string): (r: Result<User>)
    ensures r.Ok? <==> id in users
    ensures r.Ok? ==> r.value == users[id]
    ensures r.Err? ==> r.error == QueryIdNotFound
  {
    if id in users then Ok(users[id]) else Err(QueryIdNotFound)
  }

  /** `create`: stores a record made of the given fields under the id the
      store assigned (an absent `knowledges` list defaults to empty), and
      changes nothing else; a duplicate id fails. */
  function CreateIn(users: map<string, User>, newId: string, f: UserFields): (w: Written<User, map<string, User>>)
    ensures w.result.Ok? <==> newId !in users
    ensures w.result.Ok? ==> && w.state == users[newId := w.result.value]
                             && w.result.value.id == newId
                             && w.result.value.email == f.email
                             && w.result.value.userName == f.userName
                             && w.result.value.password == f.password
                             && w.result.value.knowledges == f.knowledges.GetOr([])
    ensures w.result.Err? ==> w == Written(Err(DuplicateKey), users)
    ensures Keyed(users) ==> Keyed(w.state)
  {
    if newId in users then Written(Err(DuplicateKey), users)
    else
      var u := User(newId, f.email, f.userName, f.password, f.knowledges.GetOr([]));
      Written(Ok(u), users[newId := u])
  }

  /** The fields of `f` that are present replace those of `u`; the id stays. */
  function Merge(u: User, f: UserFields): (m: User)
    ensures m.id == u.id
    ensures m.email == (if f.email.Some? then f.email else u.email)
    ensures m.userName == (if f.userName.Some? then f.userName else u.userName)
    ensures m.password == (if f.password.Some? then f.password else u.password)
    ensures m.knowledges == f.knowledges.GetOr(u.knowledges)
  {
    User(
      u.id,
      if f.email.Some? then f.email else u.email,
      if f.userName.Some? then f.userName else u.userName,
      if f.password.Some? then f.password else u.password,
      f.knowledges.GetOr(u.knowledges))
  }

  /** `update`: merges `f` into the user stored under `f.id` and returns the
      new version; 404 and no change when that id is absent or unknown. */
  function UpdateIn(users: map<string, User>, f: UserFields): (w: Written<User, map<string, User>>)
    ensures w.result.Ok? <==> f.id.Some? && f.id.value in users
    ensures w.result.Ok? ==> && w.result.value == Merge(users[f.id.value], f)
                             && w.state == users[f.id.value := w.result.value]
    ensures w.result.Err? ==> w == Written(Err(UpdateNotFound), users)
    ensures Keyed(users) ==> Keyed(w.state)
  {
    if f.id.None? || f.id.value !in users then Written(Err(UpdateNotFound), users)
    else
      var u := Merge(users[f.id.value], f);
      Written(Ok(u), users[f.id.value := u])
  }

  /** `destroy`: removes the user stored under `id`; 404 and no change when
      there is none. */
  function DestroyIn(users: map<string, User>, id: string): (w: Written<(), map<string, User>>)
    ensures w.result.Ok? <==> id in users
    ensures w.result.Ok? ==> w.state == users - {id} && |w.state| == |users| - 1
    ensures w.result.Err? ==> w == Written(Err(DestroyNotFound), users)
    ensures Keyed(users) ==> Keyed(w.state)
  {
    if id in users then Written(Ok(()), users - {id}) else Written(Err(DestroyNotFound), users)
  }

  /** The value a `find({[key]: value})` compares for one user; `None` for a
      field the user does not have. `id` is a virtual of the document, not a
      stored field, so a filter on it matches nothing. */
  function Field(u: User, key: string): Option<Value> {
    match key
    case "_id" => Some(Str(u.id))
    case "email" => if u.email.Some? then Some(Str(u.email.value)) else None
    case "userName" => if u.userName.Some? then Some(Str(u.userName.value)) else None
    case "password" => if u.password.Some? then Some(Str(u.password.value)) else None
    case _ => None
  }

  /** A whole record handed back to `update`, as a controller does with a
      document it loaded and edited. */
  function AsFields(u: User): UserFields {
    UserFields(Some(u.id), u.email, u.userName, u.password, Some(u.knowledges))
  }

  /** Loading a user, replacing its `knowledges` list and handing the whole
      record back to `update` stores exactly the edited record. */
  lemma {:induction false} UpdateWithEditedList(users: map<string, User>, id: string, knowledges: seq<string>)
    requires Keyed(users) && id in users
    ensures var edited := users[id].(knowledges := knowledges);
      UpdateIn(users, AsFields(edited)) == Written(Ok(edited), users[id := edited])
  {
    var edited := users[id].(knowledges := knowledges);
    assert Merge(users[id], AsFields(edited)) == edited;
  }

  /** `UsersMongoRepo`: the repository object over the collection. */
  class UsersMongoRepo {
    var users: map<string, User>

    predicate Valid()
      reads this
    {
      Keyed(users)
    }

    /** A repository over the collection as the database already holds it;
        creating the object changes nothing in the collection. */
    constructor (stored: map<string, User>)
      requires Keyed(stored)
      ensures Valid() && users == stored
    {
      users := stored;
    }

    /** `query`: every stored user, once. */
    method Query() returns (r: seq<User>, ghost keys: seq<string>)
      ensures Store.IsListing(users, (u: User) => true, r, keys)
      ensures forall u :: u in r <==> u in users.Values
      ensures |r| == |users|
    {
      r, keys := Store.Find(users, (u: User) => true);
      Store.FullListingCount(users, r, keys);
    }

    method QueryId(id: string) returns (r: Result<User>)
      ensures r == QueryIdIn(users, id)
    {
      if id !in users {
        return Err(QueryIdNotFound);
      }
      r := Ok(users[id]);
    }

    /** `search`: exactly the users whose field `key` equals `value`, each once. */
    method Search(key: string, value: Value) returns (r: seq<User>, ghost keys: seq<string>)
      ensures Store.IsListing(users, (u: User) => Field(u, key) == Some(value), r, keys)
      ensures forall u :: u in r <==> u in users.Values && Field(u, key) == Some(value)
    {
      r, keys := Store.Find(users, (u: User) => Field(u, key) == Some(value));
    }

    method Create(newId: string, info: UserFields) returns (r: Result<User>)
      requires Valid()
      modifies this
      ensures Valid()
      ensures Written(r, users) == CreateIn(old(users), newId, info)
    {
      if newId in users {
        return Err(DuplicateKey);
      }
      var u := User(newId, info.email, info.userName, info.password, info.knowledges.GetOr([]));
      users := users[newId := u];
      r := Ok(u);
    }

    method Update(info: UserFields) returns (r: Result<User>)
      requires Valid()
      modifies this
      ensures Valid()
      ensures Written(r, users) == UpdateIn(old(users), info)
    {
      if info.id.None? || info.id.value !in users {
        return Err(UpdateNotFound);
      }
      var u := Merge(users[info.id.value], info);
      users := users[info.id.value := u];
      r := Ok(u);
    }

    method Destroy(id: string) returns (r: Result<()>)
      requires Valid()
      modifies this
      ensures Valid()
      ensures Written(r, users) == DestroyIn(old(users), id)
    {
      if id !in users {
        return Err(DestroyNotFound);
      }
      users := users - {id};
      r := Ok(());
    }
  }

  /** The static `instance` field of `UsersMongoRepo`. */
  class UsersMongoRepoStatic {
    var instance: UsersMongoRepo?

    constructor ()
      ensures instance == null
    {
      instance := null;
    }

    /** `getInstance`: creates the repository on the first call, over the
        collection `stored` the database holds at that moment, and returns
        that same object on every later call. */
    method GetInstance(stored: map<string, User>) returns (repo: UsersMongoRepo)
      requires Keyed(stored)
      modifies this
      ensures instance == repo
      ensures old(instance) != null ==> repo == old(instance)
      ensures old(instance) == null ==> fresh(repo) && repo.Valid() && repo.users == stored
    {
      if instance == null {
        instance := new UsersMongoRepo(stored);
      }
      repo := instance;
    }
  }
}

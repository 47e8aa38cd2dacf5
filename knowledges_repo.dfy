/** The knowledges repository: the `knowledges` collection as a map from id
    to item, what each repository call does to it, and the repository object
    with its lazily created single instance. */
module KnowledgesRepository {
  import opened Base
  import opened KnowledgeSchema
  import Store

  /** Every item is stored under its own id. */
  predicate Keyed(items: map<string, Knowledge>) {
    forall id :: id in items ==> items[id].id == id
  }

  /** The invariant the collection keeps: items are keyed by their ids and
      the unique index on `name` holds. */
  predicate ValidStore(items: map<string, Knowledge>) {
    Keyed(items) && NamesUnique(items)
  }

  /** Some item other than the one stored under `except` is named `name`. */
  predicate NameTaken(items: map<string, Knowledge>, name: string, except: string) {
    exists id :: id in items && id != except && items[id].name == name
  }

  const QueryIdNotFound := HttpError(StatusNotFound, "Not found", "ID not found in queryID")
  const UpdateNotFound := HttpError(StatusNotFound, "Not found", "ID not found in update")
  const DestroyNotFound := HttpError(StatusNotFound, "Not found", "Delete not possible: ID not found ")

  /** `queryId`: the item stored under `id`, or 404. */
  function QueryIdIn(items: map<string, Knowledge>, id: string): (r: Result<Knowledge>)
    ensures r.Ok? <==> id in items
    ensures r.Ok? ==> r.value == items[id]
    ensures r.Err? ==> r.error == QueryIdNotFound
  {
    if id in items then Ok(items[id]) else Err(QueryIdNotFound)
  }

  /** `create`: the schema validators run first; then the insert fails on a
      duplicate key (the new `_id`, or a `name` already used); otherwise the
      new item is stored under the id the store assigned, and nothing else
      changes. */
  function CreateIn(items: map<string, Knowledge>, newId: string, f: KnowledgeFields): (w: Written<Knowledge, map<string, Knowledge>>)
    ensures w.result.Ok? <==> Validate(newId, f).Ok? && newId !in items && !NameTaken(items, f.name.value, newId)
    ensures w.result.Ok? ==> && w.result.value == Validate(newId, f).value
                             && w.state == items[newId := w.result.value]
    ensures Validate(newId, f).Err? ==> w == Written(Err(ValidationFailed), items)
    ensures Validate(newId, f).Ok? && (newId in items || NameTaken(items, f.name.value, newId)) ==>
              w == Written(Err(DuplicateKey), items)
    ensures w.result.Err? ==> w.state == items
    ensures ValidStore(items) ==> ValidStore(w.state)
  {
    match Validate(newId, f)
    case Err(e) => Written(Err(e), items)
    case Ok(k) =>
      if newId in items || NameTaken(items, k.name, newId) then Written(Err(DuplicateKey), items)
      else Written(Ok(k), items[newId := k])
  }

  /** The fields of `f` that are present replace those of `k`; the id stays. */
  function Merge(k: Knowledge, f: KnowledgeFields): (m: Knowledge)
    ensures m.id == k.id
    ensures m.name == f.name.GetOr(k.name) && m.owner == (if f.owner.Some? then f.owner else k.owner)
    ensures m.interestingScore == f.interestingScore.GetOr(k.interestingScore)
    ensures m.difficultyLevel == f.difficultyLevel.GetOr(k.difficultyLevel)
  {
    Knowledge(
      k.id,
      f.name.GetOr(k.name),
      f.interestingScore.GetOr(k.interestingScore),
      f.difficultyLevel.GetOr(k.difficultyLevel),
      if f.owner.Some? then f.owner else k.owner)
  }

  /** `update`: merges `f` into the item stored under `f.id` and returns the
      new version; 404 and no change when that id is absent or unknown. Only
      the unique index is enforced, the schema validators do not run. */
  function UpdateIn(items: map<string, Knowledge>, f: KnowledgeFields): (w: Written<Knowledge, map<string, Knowledge>>)
    ensures (f.id.None? || f.id.value !in items) ==> w == Written(Err(UpdateNotFound), items)
    ensures w.result.Ok? <==> (&& f.id.Some? && f.id.value in items
                               && !NameTaken(items, Merge(items[f.id.value], f).name, f.id.value))
    ensures w.result.Ok? ==> && w.result.value == Merge(items[f.id.value], f)
                             && w.state == items[f.id.value := w.result.value]
    ensures w.result.Err? ==> w.state == items
    ensures f.id.Some? && f.id.value in items && w.result.Err? ==> w.result == Err(DuplicateKey)
    ensures ValidStore(items) ==> ValidStore(w.state)
  {
    if f.id.None? || f.id.value !in items then Written(Err(UpdateNotFound), items)
    else
      var id := f.id.value;
      var k := Merge(items[id], f);
      if NameTaken(items, k.name, id) then Written(Err(DuplicateKey), items)
      else Written(Ok(k), items[id := k])
  }

  /** `destroy`: removes the item stored under `id`; 404 and no change when
      there is none. */
  function DestroyIn(items: map<string, Knowledge>, id: string): (w: Written<(), map<string, Knowledge>>)
    ensures w.result.Ok? <==> id in items
    ensures w.result.Ok? ==> w.state == items - {id} && |w.state| == |items| - 1
    ensures w.result.Err? ==> w == Written(Err(DestroyNotFound), items)
    ensures ValidStore(items) ==> ValidStore(w.state)
  {
    if id in items then Written(Ok(()), items - {id}) else Written(Err(DestroyNotFound), items)
  }

  /** The value a `find({[key]: value})` compares for one item; `None` for a
      field the item does not have. `id` is a virtual of the document, not a
      stored field, so a filter on it matches nothing. */
  function Field(k: Knowledge, key: string): Option<Value> {
    match key
    case "_id" => Some(Str(k.id))
    case "name" => Some(Str(k.name))
    case "interestingScore" => Some(Num(k.interestingScore))
    case "difficultyLevel" => Some(Num(k.difficultyLevel))
    case "owner" => if k.owner.Some? then Some(Str(k.owner.value)) else None
    case _ => None
  }

  /** `KnowledgesMongoRepo`: the repository object over the collection. */
  class KnowledgesMongoRepo {
    var items: map<string, Knowledge>

    predicate Valid()
      reads this
    {
      ValidStore(items)
    }

    /** A repository over the collection as the database already holds it;
        creating the object changes nothing in the collection. */
    constructor (stored: map<string, Knowledge>)
      requires ValidStore(stored)
      ensures Valid() && items == stored
    {
      items := stored;
    }

    /** `query`: every stored item, once. */
    method Query() returns (r: seq<Knowledge>, ghost keys: seq<string>)
      ensures Store.IsListing(items, (k: Knowledge) => true, r, keys)
      ensures forall k :: k in r <==> k in items.Values
      ensures |r| == |items|
    {
      r, keys := Store.Find(items, (k: Knowledge) => true);
      Store.FullListingCount(items, r, keys);
    }

    method QueryId(id: string) returns (r: Result<Knowledge>)
      ensures r == QueryIdIn(items, id)
    {
      if id in items {
        r := Ok(items[id]);
      } else {
        r := Err(QueryIdNotFound);
      }
    }

    method Create(newId: string, knowledge: KnowledgeFields) returns (r: Result<Knowledge>)
      requires Valid()
      modifies this
      ensures Valid()
      ensures Written(r, items) == CreateIn(old(items), newId, knowledge)
    {
      var validated := Validate(newId, knowledge);
      if validated.Err? {
        return Err(validated.error);
      }
      var k := validated.value;
      if newId in items || NameTaken(items, k.name, newId) {
        return Err(DuplicateKey);
      }
      items := items[newId := k];
      r := Ok(k);
    }

    method Update(knowledge: KnowledgeFields) returns (r: Result<Knowledge>)
      requires Valid()
      modifies this
      ensures Valid()
      ensures Written(r, items) == UpdateIn(old(items), knowledge)
    {
      if knowledge.id.None? || knowledge.id.value !in items {
        return Err(UpdateNotFound);
      }
      var id := knowledge.id.value;
      var k := Merge(items[id], knowledge);
      if NameTaken(items, k.name, id) {
        return Err(DuplicateKey);
      }
      items := items[id := k];
      r := Ok(k);
    }

    method Destroy(id: string) returns (r: Result<()>)
      requires Valid()
      modifies this
      ensures Valid()
      ensures Written(r, items) == DestroyIn(old(items), id)
    {
      if id !in items {
        return Err(DestroyNotFound);
      }
      items := items - {id};
      r := Ok(());
    }

    /** `search`: exactly the items whose field `key` equals `value`, each once. */
    method Search(key: string, value: Value) returns (r: seq<Knowledge>, ghost keys: seq<string>)
      ensures Store.IsListing(items, (k: Knowledge) => Field(k, key) == Some(value), r, keys)
      ensures forall k :: k in r <==> k in items.Values && Field(k, key) == Some(value)
    {
      r, keys := Store.Find(items, (k: Knowledge) => Field(k, key) == Some(value));
    }
  }

  /** The static `instance` field of `KnowledgesMongoRepo`. */
  class KnowledgesMongoRepoStatic {
    var instance: KnowledgesMongoRepo?

    constructor ()
      ensures instance == null
    {
      instance := null;
    }

    /** `getInstance`: creates the repository on the first call, over the
        collection `stored` the database holds at that moment, and returns
        that same object on every later call. */
    method GetInstance(stored: map<string, Knowledge>) returns (repo: KnowledgesMongoRepo)
      requires ValidStore(stored)
      modifies this
      ensures instance == repo
      ensures old(instance) != null ==> repo == old(instance)
      ensures old(instance) == null ==> fresh(repo) && repo.Valid() && repo.items == stored
    {
      if instance == null {
        instance := new KnowledgesMongoRepo(stored);
      }
      repo := instance;
    }
  }

  /** Creating an item makes it retrievable by its id, and the store keeps
      every other item. */
  lemma CreatedItemIsFound(items: map<string, Knowledge>, newId: string, f: KnowledgeFields, id: string)
    requires CreateIn(items, newId, f).result.Ok?
    ensures QueryIdIn(CreateIn(items, newId, f).state, newId) == CreateIn(items, newId, f).result
    ensures id != newId ==> QueryIdIn(CreateIn(items, newId, f).state, id) == QueryIdIn(items, id)
  {
  }

  /** After a destroy, the id is no longer found; other items are. */
  lemma DestroyedItemIsGone(items: map<string, Knowledge>, id: string, other: string)
    ensures QueryIdIn(DestroyIn(items, id).state, id) == Err(QueryIdNotFound)
    ensures other != id ==> QueryIdIn(DestroyIn(items, id).state, other) == QueryIdIn(items, other)
  {
  }
}

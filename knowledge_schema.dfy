/** The knowledge schema: the stored record, the partial record a request
    body carries, the constraints the schema declares, and the `toJSON`
    transform applied when a document is serialised. */
module KnowledgeSchema {
  import opened Base

  /** A stored knowledge item. `owner` is the id of a User record; the schema
      does not require it, so it may be absent. */
  datatype Knowledge = Knowledge(
    id: string,
    name: string,
    interestingScore: real,
    difficultyLevel: real,
    owner: Option<string>)

  /** `Partial<KnowledgeStructure>`: a request body or an update; absent
      fields are `None`. */
  datatype KnowledgeFields = KnowledgeFields(
    id: Option<string>,
    name: Option<string>,
    interestingScore: Option<real>,
    difficultyLevel: Option<real>,
    owner: Option<string>)

  /** The `min`/`max` bounds of the two scores. */
  predicate InBounds(k: Knowledge) {
    0.0 <= k.interestingScore <= 10.0 && 1.0 <= k.difficultyLevel <= 5.0
  }

  /** Everything the schema validators check on one record: the required
      string `name` is non-empty (the two required scores are present by
      construction) and the scores lie within their bounds. */
  predicate Conforms(k: Knowledge) {
    k.name != "" && InBounds(k)
  }

  /** The unique index on `name`: no two stored items share a name. */
  predicate NamesUnique(items: map<string, Knowledge>) {
    forall a, b :: a in items && b in items && items[a].name == items[b].name ==> a == b
  }

  const ValidationFailed := Thrown("ValidationError", "Knowledge validation failed")

  /** Validation of a new document with id `id` built from `f`: it fails
      unless every required field is present and within bounds. The body's own
      `id` plays no part. */
  function Validate(id: string, f: KnowledgeFields): (r: Result<Knowledge>)
    ensures r.Ok? <==> && f.name.Some? && f.name.value != ""
                       && f.interestingScore.Some? && 0.0 <= f.interestingScore.value <= 10.0
                       && f.difficultyLevel.Some? && 1.0 <= f.difficultyLevel.value <= 5.0
    ensures r.Ok? ==> && Conforms(r.value) && r.value.id == id
                      && Some(r.value.name) == f.name
                      && Some(r.value.interestingScore) == f.interestingScore
                      && Some(r.value.difficultyLevel) == f.difficultyLevel
                      && r.value.owner == f.owner
    ensures r.Err? ==> r.error == ValidationFailed
  {
    if f.name.None? || f.name.value == "" || f.interestingScore.None? || f.difficultyLevel.None? then
      Err(ValidationFailed)
    else
      var k := Knowledge(id, f.name.value, f.interestingScore.value, f.difficultyLevel.value, f.owner);
      if InBounds(k) then Ok(k) else Err(ValidationFailed)
  }

  /** The stored document of a record, with its internal `_id` and version
      key `__v`. */
  function Document(k: Knowledge): map<string, Value> {
    var doc := map[
      "_id" := Str(k.id),
      "__v" := Num(0.0),
      "name" := Str(k.name),
      "interestingScore" := Num(k.interestingScore),
      "difficultyLevel" := Num(k.difficultyLevel)];
    if k.owner.Some? then doc["owner" := Str(k.owner.value)] else doc
  }

  /** The `toJSON` transform on a document's fields: `id` takes the value of
      `_id`, and `_id` and `__v` are gone; every other field is kept. */
  function ToJson(fields: map<string, Value>): (r: map<string, Value>)
    ensures "id" in r && r["id"] == (if "_id" in fields then fields["_id"] else Undefined)
    ensures "_id" !in r && "__v" !in r
    ensures forall key :: key != "id" && key != "_id" && key != "__v" ==>
              (key in r <==> key in fields) && (key in r ==> r[key] == fields[key])
  {
    var id := if "_id" in fields then fields["_id"] else Undefined;
    fields["id" := id] - {"__v", "_id"}
  }

  /** The object `toJSON` is about to return, which the transform edits in place. */
  class ReturnedObject {
    var fields: map<string, Value>

    constructor (fields: map<string, Value>)
      ensures this.fields == fields
    {
      this.fields := fields;
    }
  }

  /** The transform as the schema runs it: assign `id`, delete `__v`, delete `_id`. */
  method Transform(returnedObject: ReturnedObject)
    modifies returnedObject
    ensures returnedObject.fields == ToJson(old(returnedObject.fields))
  {
    var id := if "_id" in returnedObject.fields then returnedObject.fields["_id"] else Undefined;
    returnedObject.fields := returnedObject.fields["id" := id];
    returnedObject.fields := returnedObject.fields - {"__v"};
    returnedObject.fields := returnedObject.fields - {"_id"};
  }

  /** The JSON form of a stored item carries its id as `id` and its fields
      unchanged, and nothing else. */
  lemma {:induction false} JsonOfStoredItem(k: Knowledge)
    ensures var j := ToJson(Document(k));
      && j["id"] == Str(k.id)
      && j["name"] == Str(k.name)
      && j["interestingScore"] == Num(k.interestingScore)
      && j["difficultyLevel"] == Num(k.difficultyLevel)
      && (k.owner.Some? <==> "owner" in j)
      && (k.owner.Some? ==> j["owner"] == Str(k.owner.value))
      && j.Keys <= {"id", "name", "interestingScore", "difficultyLevel", "owner"}
  {
    var doc := Document(k);
    assert "_id" in doc && doc["_id"] == Str(k.id);
    assert "name" in doc && "interestingScore" in doc && "difficultyLevel" in doc;
  }
}

/** The knowledges controller: listing, reading, creating, updating and
    deleting knowledge items. Each handler is given as the effect it has on
    the request body and the collections, and as the controller method that
    performs it step by step against the repository objects. */
module KnowledgesEndpoints {
  import opened Base
  import opened Auth
  import opened KnowledgeSchema
  import opened LoggedInterceptor
  import KR = KnowledgesRepository
  import UR = UsersRepository
  import AuthorizedInterceptor

  const NotFoundUserId := HttpError(StatusNotFound, "Not found", "Not found user ID")

  /** `req.info?.id`: the caller's id, absent when no identity was stored. */
  function CallerId(info: Option<TokenPayload>): Option<string> {
    if info.Some? then Some(info.value.id) else None
  }

  /** Every item's owner, when it has one, is a stored user. */
  predicate OwnersRegistered(items: map<string, Knowledge>, users: map<string, UR.User>) {
    forall id :: id in items && items[id].owner.Some? ==> items[id].owner.value in users
  }

  /** What `populate` leaves of a list of item ids: the ids whose item is
      still stored, in their order. Once the document is written back, the
      ids of removed items are gone from it. */
  function Present(list: seq<string>, items: map<string, Knowledge>): (r: seq<string>)
    ensures forall id :: id in r <==> id in list && id in items
    ensures |r| <= |list|
    ensures (forall id :: id in list ==> id in items) ==> r == list
    decreases |list|
  {
    if list == [] then []
    else (if list[0] in items then [list[0]] else []) + Present(list[1..], items)
  }

  /** `get`: the item named in the path, as a one-element list. */
  function GetStep(paramsId: string, items: map<string, Knowledge>): (out: Outcome<seq<Knowledge>>)
    ensures out.Respond? <==> paramsId in items
    ensures out.Respond? ==> out == Respond(StatusOk, [items[paramsId]])
    ensures out.Fail? ==> out == Fail(KR.QueryIdNotFound)
  {
    match KR.QueryIdIn(items, paramsId)
    case Err(e) => Fail(e)
    case Ok(data) => Respond(StatusOk, [data])
  }

  /** What `post` leaves behind: its outcome, the request body as it
      rewrote it, and both collections. */
  datatype PostEffect = PostEffect(
    out: Outcome<seq<Knowledge>>,
    body: KnowledgeFields,
    items: map<string, Knowledge>,
    users: map<string, UR.User>)

  /** `post`, with `newId` the id the store assigns to the new item. */
  function PostStep(info: Option<TokenPayload>, body: KnowledgeFields, items: map<string, Knowledge>,
                    users: map<string, UR.User>, newId: string): (e: PostEffect)
    ensures Falsy(CallerId(info)) ==> e == PostEffect(Fail(NotFoundUserId), body, items, users)
    ensures !Falsy(CallerId(info)) && info.value.id !in users ==>
              e == PostEffect(Fail(UR.QueryIdNotFound), body, items, users)
    ensures !Falsy(CallerId(info)) && info.value.id in users ==> e.body == body.(owner := Some(info.value.id))
    ensures !Falsy(CallerId(info)) && info.value.id in users ==>
              var body' := body.(owner := Some(info.value.id));
              && (e.out.Respond? <==> Validate(newId, body').Ok? && newId !in items
                                      && !KR.NameTaken(items, body.name.value, newId))
              && (Validate(newId, body').Err? ==> e.out == Fail(ValidationFailed))
              && ((Validate(newId, body').Ok? && (newId in items || KR.NameTaken(items, body.name.value, newId)))
                    ==> e.out == Fail(DuplicateKey))
    ensures e.out.Fail? ==> e.items == items && e.users == users
    ensures e.out.Respond? ==>
              && !Falsy(CallerId(info)) && info.value.id in users
              && newId !in items && newId in e.items
              && e.out == Respond(StatusOk, [e.items[newId]])
              && e.items == items[newId := e.items[newId]]
              && e.items[newId] == Validate(newId, body.(owner := Some(info.value.id))).value
              && e.items[newId].owner == Some(info.value.id)
              && Conforms(e.items[newId])
    ensures KR.ValidStore(items) ==> KR.ValidStore(e.items)
    ensures e.out.Respond? && UR.Keyed(users) ==>
              var uid := info.value.id;
              e.users == users[uid := users[uid].(knowledges := Present(users[uid].knowledges, items) + [newId])]
  {
    var userId := CallerId(info);
    if Falsy(userId) then PostEffect(Fail(NotFoundUserId), body, items, users)
    else
      match UR.QueryIdIn(users, userId.value)
      case Err(e) => PostEffect(Fail(e), body, items, users)
      case Ok(actualUser) =>
        var loaded := Present(actualUser.knowledges, items);
        var body' := body.(owner := userId);
        var created := KR.CreateIn(items, newId, body');
        match created.result
        case Err(e) => PostEffect(Fail(e), body', created.state, users)
        case Ok(data) =>
          var edited := actualUser.(knowledges := loaded + [data.id]);
          var updated := UR.UpdateIn(users, UR.AsFields(edited));
          assert UR.Keyed(users) ==> updated.state == users[userId.value := edited] by {
            if UR.Keyed(users) {
              UR.UpdateWithEditedList(users, userId.value, edited.knowledges);
            }
          }
          PostEffect(Respond(StatusOk, [data]), body', created.state, updated.state)
  }

  /** What `patch` leaves behind: its outcome, the rewritten body and the collection. */
  datatype PatchEffect = PatchEffect(out: Outcome<seq<Knowledge>>, body: KnowledgeFields, items: map<string, Knowledge>)

  /** The id `patch` updates: the path's when non-empty, else the body's. */
  function PatchTarget(paramsId: string, body: KnowledgeFields): Option<string> {
    if paramsId != "" then Some(paramsId) else body.id
  }

  /** `patch`: the item named by the path id (or, with an empty path id, the
      body's id) gets the body's fields. */
  function PatchStep(paramsId: string, body: KnowledgeFields, items: map<string, Knowledge>): (e: PatchEffect)
    ensures paramsId != "" ==> e.body == body.(id := Some(paramsId))
    ensures paramsId == "" ==> e.body == body
    ensures PatchTarget(paramsId, body).None? || PatchTarget(paramsId, body).value !in items ==>
              e == PatchEffect(Fail(KR.UpdateNotFound), e.body, items)
    ensures PatchTarget(paramsId, body).Some? && PatchTarget(paramsId, body).value in items ==>
              var target := PatchTarget(paramsId, body).value;
              && (e.out.Respond? <==> !KR.NameTaken(items, KR.Merge(items[target], body).name, target))
              && (e.out.Fail? ==> e.out == Fail(DuplicateKey))
    ensures e.out.Fail? ==> e.items == items
    ensures e.out.Respond? ==>
              var target := PatchTarget(paramsId, body).value;
              && target in items
              && e.items == items[target := KR.Merge(items[target], body)]
              && e.out == Respond(StatusOk, [KR.Merge(items[target], body)])
  {
    var body' := body.(id := PatchTarget(paramsId, body));
    var w := KR.UpdateIn(items, body');
    assert body'.id.Some? && body'.id.value in items ==> KR.Merge(items[body'.id.value], body') == KR.Merge(items[body'.id.value], body);
    match w.result
    case Err(e) => PatchEffect(Fail(e), body', w.state)
    case Ok(data) => PatchEffect(Respond(StatusOk, [data]), body', w.state)
  }

  /** What `delete` leaves behind: its outcome and the collection. */
  datatype DeleteEffect = DeleteEffect(out: Outcome<seq<Knowledge>>, items: map<string, Knowledge>)

  /** `delete`: removes the item named in the path and answers with an empty list. */
  function DeleteStep(paramsId: string, items: map<string, Knowledge>): (e: DeleteEffect)
    ensures paramsId in items ==> e == DeleteEffect(Respond(StatusOk, []), items - {paramsId})
    ensures paramsId !in items ==> e == DeleteEffect(Fail(KR.DestroyNotFound), items)
  {
    var d := KR.DestroyIn(items, paramsId);
    match d.result
    case Err(e) => DeleteEffect(Fail(e), d.state)
    case Ok(_) => DeleteEffect(Respond(StatusOk, []), d.state)
  }

  /** `KnowledgesController`. */
  class KnowledgesController {
    const repoKnowledges: KR.KnowledgesMongoRepo
    const repoUser: UR.UsersMongoRepo

    constructor (repoKnowledges: KR.KnowledgesMongoRepo, repoUser: UR.UsersMongoRepo)
      ensures this.repoKnowledges == repoKnowledges && this.repoUser == repoUser
    {
      this.repoKnowledges := repoKnowledges;
      this.repoUser := repoUser;
    }

    /** `getAll`: every stored item, unfiltered. */
    method GetAll() returns (out: Outcome<seq<Knowledge>>)
      requires repoKnowledges.Valid()
      ensures out.Respond? && out.status == StatusOk
      ensures forall k :: k in out.results <==> k in repoKnowledges.items.Values
      ensures |out.results| == |repoKnowledges.items|
    {
      var data;
      ghost var keys;
      data, keys := repoKnowledges.Query();
      out := Respond(StatusOk, data);
    }

    method Get(req: RequestPlus<KnowledgeFields>) returns (out: Outcome<seq<Knowledge>>)
      ensures out == GetStep(req.paramsId, repoKnowledges.items)
    {
      var idNumber := req.paramsId;
      var data := repoKnowledges.QueryId(idNumber);
      if data.Err? {
        return Fail(data.error);
      }
      out := Respond(StatusOk, [data.value]);
    }

    /** `post`: the caller is loaded with its list populated, the item is
        created with the caller as owner, then appended to that list and the
        caller written back (a second, separate write whose result nobody
        waits for). */
    method Post(req: RequestPlus<KnowledgeFields>, newId: string) returns (out: Outcome<seq<Knowledge>>)
      requires repoKnowledges.Valid() && repoUser.Valid()
      modifies req`body, repoKnowledges, repoUser
      ensures repoKnowledges.Valid() && repoUser.Valid()
      ensures PostEffect(out, req.body, repoKnowledges.items, repoUser.users)
              == PostStep(req.info, old(req.body), old(repoKnowledges.items), old(repoUser.users), newId)
    {
      var userId := CallerId(req.info);
      if Falsy(userId) {
        return Fail(NotFoundUserId);
      }
      var actualUser := repoUser.QueryId(userId.value);
      if actualUser.Err? {
        return Fail(actualUser.error);
      }
      var loaded := Present(actualUser.value.knowledges, repoKnowledges.items);
      req.body := req.body.(owner := userId);
      var newKnowledge := req.body;
      var data := repoKnowledges.Create(newId, newKnowledge);
      if data.Err? {
        return Fail(data.error);
      }
      var edited := actualUser.value.(knowledges := loaded + [data.value.id]);
      var ignored := repoUser.Update(UR.AsFields(edited));
      out := Respond(StatusOk, [data.value]);
    }

    /** `patch`: the path id, when non-empty, overrides the body's id. */
    method Patch(req: RequestPlus<KnowledgeFields>) returns (out: Outcome<seq<Knowledge>>)
      requires repoKnowledges.Valid()
      modifies req`body, repoKnowledges
      ensures repoKnowledges.Valid()
      ensures PatchEffect(out, req.body, repoKnowledges.items) == PatchStep(req.paramsId, old(req.body), old(repoKnowledges.items))
    {
      req.body := req.body.(id := if req.paramsId != "" then Some(req.paramsId) else req.body.id);
      var data := repoKnowledges.Update(req.body);
      if data.Err? {
        return Fail(data.error);
      }
      out := Respond(StatusOk, [data.value]);
    }

    method Delete(req: RequestPlus<KnowledgeFields>) returns (out: Outcome<seq<Knowledge>>)
      requires repoKnowledges.Valid()
      modifies repoKnowledges
      ensures repoKnowledges.Valid()
      ensures DeleteEffect(out, repoKnowledges.items) == DeleteStep(req.paramsId, old(repoKnowledges.items))
    {
      var idNumber := req.paramsId;
      var done := repoKnowledges.Destroy(idNumber);
      if done.Err? {
        return Fail(done.error);
      }
      out := Respond(StatusOk, []);
    }
  }

  /** The item a caller posts passes the ownership check for that caller,
      and fails it with 401 for every other identity. */
  lemma {:induction false} PostedItemIsOwnedByCaller(p: TokenPayload, q: TokenPayload, body: KnowledgeFields,
                                                    items: map<string, Knowledge>, users: map<string, UR.User>, newId: string)
    requires PostStep(Some(p), body, items, users, newId).out.Respond?
    ensures AuthorizedInterceptor.Authorize(Some(p), newId, PostStep(Some(p), body, items, users, newId).items) == Next
    ensures q.id != p.id ==>
              AuthorizedInterceptor.Authorize(Some(q), newId, PostStep(Some(p), body, items, users, newId).items)
              == NextError(AuthorizedInterceptor.NotOwner)
  {
    var e := PostStep(Some(p), body, items, users, newId);
    assert e.items[newId].owner == Some(p.id);
  }

  /** Posting keeps every owner reference pointing at a stored user. */
  lemma {:induction false} PostKeepsOwnersRegistered(info: Option<TokenPayload>, body: KnowledgeFields,
                                                    items: map<string, Knowledge>, users: map<string, UR.User>, newId: string)
    requires UR.Keyed(users) && OwnersRegistered(items, users)
    ensures var e := PostStep(info, body, items, users, newId); OwnersRegistered(e.items, e.users)
  {
    var e := PostStep(info, body, items, users, newId);
    if e.out.Respond? {
      assert e.users.Keys == users.Keys;
      forall id | id in e.items && e.items[id].owner.Some?
        ensures e.items[id].owner.value in e.users
      {
        if id != newId {
          assert e.items[id] == items[id];
        }
      }
    }
  }

  /** Once an item is deleted, reading it answers 404. */
  lemma DeletedItemIsNotFound(paramsId: string, items: map<string, Knowledge>)
    ensures GetStep(paramsId, DeleteStep(paramsId, items).items) == Fail(KR.QueryIdNotFound)
  {
  }

  /** A successful patch is what a later read of the same id returns. */
  lemma PatchedItemIsRead(paramsId: string, body: KnowledgeFields, items: map<string, Knowledge>)
    requires PatchStep(paramsId, body, items).out.Respond?
    ensures var e := PatchStep(paramsId, body, items);
      GetStep(PatchTarget(paramsId, body).value, e.items) == e.out
  {
  }

  /** The owner can hand an item to another user through `patch`, since the
      body's `owner` field is merged like any other; afterwards the previous
      owner fails the ownership check. */
  lemma {:induction false} PatchCanReassignOwner(previous: TokenPayload, next: string, paramsId: string,
                                                items: map<string, Knowledge>)
    requires KR.ValidStore(items) && paramsId != "" && paramsId in items
    requires items[paramsId].owner == Some(previous.id) && next != previous.id
    ensures var e := PatchStep(paramsId, KnowledgeFields(None, None, None, None, Some(next)), items);
      && e.out.Respond?
      && e.items[paramsId].owner == Some(next)
      && AuthorizedInterceptor.Authorize(Some(previous), paramsId, e.items) == NextError(AuthorizedInterceptor.NotOwner)
  {
    var body := KnowledgeFields(None, None, None, None, Some(next));
    var merged := KR.Merge(items[paramsId], body);
    assert merged.name == items[paramsId].name;
    assert !KR.NameTaken(items, merged.name, paramsId);
  }

  /** Bounds are enforced when an item is created but not when it is
      updated: a patch may store a score outside them. */
  lemma {:induction false} PatchSkipsBounds(paramsId: string, items: map<string, Knowledge>)
    requires KR.ValidStore(items) && paramsId != "" && paramsId in items
    ensures var e := PatchStep(paramsId, KnowledgeFields(None, None, Some(11.0), None, None), items);
      e.out.Respond? && !InBounds(e.items[paramsId])
  {
    var body := KnowledgeFields(None, None, Some(11.0), None, None);
    var merged := KR.Merge(items[paramsId], body);
    assert merged.name == items[paramsId].name;
    assert !KR.NameTaken(items, merged.name, paramsId);
  }

  /** The id of a removed item stays in its owner's list only until that
      owner's next post, which writes the populated list back. */
  lemma {:induction false} PostDropsRemovedIds(p: TokenPayload, body: KnowledgeFields, items: map<string, Knowledge>,
                                              users: map<string, UR.User>, newId: string, removed: string)
    requires UR.Keyed(users) && p.id in users
    requires removed in users[p.id].knowledges && removed !in items && removed != newId
    requires PostStep(Some(p), body, items, users, newId).out.Respond?
    ensures removed !in PostStep(Some(p), body, items, users, newId).users[p.id].knowledges
  {
    var e := PostStep(Some(p), body, items, users, newId);
    assert e.users[p.id].knowledges == Present(users[p.id].knowledges, items) + [newId];
  }
}

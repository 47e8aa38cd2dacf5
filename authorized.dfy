/** The ownership interceptor `authorized`: it lets a request through only
    when the knowledge item named in the path belongs to the authenticated
    user. It reads the request and the knowledges collection and writes
    nothing, so it is a function of the two. */
module AuthorizedInterceptor {
  import opened Base
  import opened Auth
  import opened KnowledgeSchema
  import KnowledgesRepository

  const TokenNotFound := HttpError(StatusNotFound, "Not found", "Token not found in authorized interceptor")
  const NotOwner := HttpError(StatusUnauthorized, "Not authorized", "User ID is different from Owner ID")
  /** Reading `owner.id` of an item stored without an owner. */
  const NoOwner := Thrown("TypeError", "Cannot read properties of undefined (reading 'id')")

  /** The call `authorized` makes to `next`, given `req.info`, `req.params.id`
      and the collection. */
  function Authorize(info: Option<TokenPayload>, knowledgeId: string, items: map<string, Knowledge>): (r: NextCall)
    ensures info.None? ==> r == NextError(TokenNotFound)
    ensures info.Some? && knowledgeId !in items ==> r == NextError(KnowledgesRepository.QueryIdNotFound)
    ensures info.Some? && knowledgeId in items && items[knowledgeId].owner.None? ==> r == NextError(NoOwner)
    ensures r == Next <==> info.Some? && knowledgeId in items && items[knowledgeId].owner == Some(info.value.id)
    ensures (&& info.Some? && knowledgeId in items && items[knowledgeId].owner.Some?
             && items[knowledgeId].owner.value != info.value.id) ==> r == NextError(NotOwner)
  {
    if info.None? then NextError(TokenNotFound)
    else
      var userId := info.value.id;
      match KnowledgesRepository.QueryIdIn(items, knowledgeId)
      case Err(e) => NextError(e)
      case Ok(knowledge) =>
        if knowledge.owner.None? then NextError(NoOwner)
        else if knowledge.owner.value != userId then NextError(NotOwner)
        else Next
  }

  /** Two different identities are never both let through to the same item. */
  lemma {:induction false} OneOwnerPerItem(a: TokenPayload, b: TokenPayload, knowledgeId: string, items: map<string, Knowledge>)
    requires Authorize(Some(a), knowledgeId, items) == Next
    requires Authorize(Some(b), knowledgeId, items) == Next
    ensures a.id == b.id
  {
    assert items[knowledgeId].owner == Some(a.id);
  }
}

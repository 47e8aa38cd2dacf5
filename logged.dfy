/** The authentication interceptor `logged` and the request object it
    extends with the verified identity. */
module LoggedInterceptor {
  import opened Base
  import opened Auth

  /** An Express request as the pipeline sees it: the `Authorization` header,
      the `:id` path parameter, the body (of type `B`, which differs per route)
      and the `info` field that `logged` fills in. */
  class RequestPlus<B> {
    const authorization: Option<string>
    const paramsId: string
    var body: B
    var info: Option<TokenPayload>

    constructor (authorization: Option<string>, paramsId: string, body: B)
      ensures this.authorization == authorization && this.paramsId == paramsId
      ensures this.body == body && info == None
    {
      this.authorization := authorization;
      this.paramsId := paramsId;
      this.body := body;
      info := None;
    }
  }

  const NoValueInHeader := HttpError(StatusInvalidToken, "Invalid Token", "Not value in auth header")
  const NotBearerInHeader := HttpError(StatusInvalidToken, "Invalid Token", "Not Bearer in auth header")

  predicate StartsWith(s: string, prefix: string) {
    |prefix| <= |s| && s[..|prefix|] == prefix
  }

  /** `authHeader.slice(7)`: the header without its first seven characters
      (empty when the header is shorter). */
  function SliceSeven(header: string): (token: string)
    ensures |header| >= 7 ==> header == header[..7] + token
    ensures |header| < 7 ==> token == ""
  {
    if |header| >= 7 then header[7..] else ""
  }

  /** The decision `logged` takes on a header: the identity it stores in
      `req.info`, or the error it hands to `next`. */
  function Authenticate(header: Option<string>, c: Crypto): (r: Result<TokenPayload>)
    ensures Falsy(header) ==> r == Err(NoValueInHeader)
    ensures !Falsy(header) && !StartsWith(header.value, "Bearer") ==> r == Err(NotBearerInHeader)
    ensures r.Ok? ==> && !Falsy(header) && StartsWith(header.value, "Bearer")
                      && c.verify(SliceSeven(header.value)) == Ok(Claims(r.value))
    ensures !Falsy(header) && StartsWith(header.value, "Bearer") ==>
              r == VerifyJWT(c, SliceSeven(header.value))
  {
    if Falsy(header) then Err(NoValueInHeader)
    else if !StartsWith(header.value, "Bearer") then Err(NotBearerInHeader)
    else VerifyJWT(c, SliceSeven(header.value))
  }

  /** `logged`: calls `next` exactly once (the returned call); on success
      `req.info` holds the verified payload, on failure it is left as it was. */
  method Logged<B>(req: RequestPlus<B>, c: Crypto) returns (next: NextCall)
    modifies req`info
    ensures Authenticate(req.authorization, c).Ok? ==>
              next == Next && req.info == Some(Authenticate(req.authorization, c).value)
    ensures Authenticate(req.authorization, c).Err? ==>
              next == NextError(Authenticate(req.authorization, c).error) && req.info == old(req.info)
  {
    var authHeader := req.authorization;
    if Falsy(authHeader) {
      return NextError(NoValueInHeader);
    }
    if !StartsWith(authHeader.value, "Bearer") {
      return NextError(NotBearerInHeader);
    }
    var token := SliceSeven(authHeader.value);
    var payload := VerifyJWT(c, token);
    if payload.Err? {
      return NextError(payload.error);
    }
    req.info := Some(payload.value);
    next := Next;
  }

  /** A header that fails the two guards never reaches verification: the
      decision is the same whatever the crypto primitives do. */
  lemma GuardsNeverVerify(header: Option<string>, c1: Crypto, c2: Crypto)
    requires Falsy(header) || !StartsWith(header.value, "Bearer")
    ensures Authenticate(header, c1) == Authenticate(header, c2)
    ensures Authenticate(header, c1) == Err(NoValueInHeader) || Authenticate(header, c1) == Err(NotBearerInHeader)
  {
  }

  /** A token issued by the service and presented as `Bearer <token>` is
      accepted, and the identity stored is the payload it was signed over. */
  lemma {:induction false} IssuedTokenAccepted(c: Crypto, payload: TokenPayload)
    requires Lawful(c)
    ensures Authenticate(Some("Bearer " + c.sign(payload)), c) == Ok(payload)
  {
    var header := "Bearer " + c.sign(payload);
    assert header[..6] == "Bearer";
    assert SliceSeven(header) == c.sign(payload);
  }

  /** A header that starts with "Bearer" but has no separating space loses
      the first character of its token to the fixed seven-character strip. */
  lemma {:induction false} StripIsFixedWidth(token: string)
    requires |token| > 0 && token[0] != ' '
    ensures StartsWith("Bearer" + token, "Bearer")
    ensures SliceSeven("Bearer" + token) == token[1..]
  {
    var header := "Bearer" + token;
    assert header[..6] == "Bearer";
    assert header[7..] == token[1..];
  }
}

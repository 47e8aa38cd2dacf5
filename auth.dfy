/** The credential service (`Auth`): password hashing and comparison, token
    signing and verification. The libraries behind them (bcrypt and
    jsonwebtoken with the process secret) are not modelled; they are a value of
    type `Crypto` handed to whoever needs them, and `Lawful` states the laws
    the rest of the system relies on. */
module Auth {
  import opened Base

  /** The claims carried by a bearer token. */
  datatype TokenPayload = TokenPayload(id: string, email: string, role: string)

  /** What `jwt.verify` hands back for a well-signed token: an object of
      claims, or a bare string when the token was signed over a string. */
  datatype Decoded = Claims(payload: TokenPayload) | Text(text: string)

  /** The four library primitives. `verify` may fail (bad signature, malformed
      token, wrong secret) with the library's own error. */
  datatype Crypto = Crypto(
    hash: string -> string,
    compare: (string, string) -> bool,
    sign: TokenPayload -> string,
    verify: string -> Result<Decoded>)

  /** The contract of the primitives: a password matches its own hash and no
      other password does, and a signed payload verifies back to itself. */
  ghost predicate Lawful(c: Crypto) {
    && (forall p :: c.compare(p, c.hash(p)))
    && (forall p, q | p != q :: !c.compare(q, c.hash(p)))
    && (forall payload :: c.verify(c.sign(payload)) == Ok(Claims(payload)))
  }

  /** `Auth.verifyJWT`: a library failure passes through unchanged, a bare
      string result becomes a 498, an object of claims is the payload. */
  function VerifyJWT(c: Crypto, token: string): (r: Result<TokenPayload>)
    ensures r.Ok? <==> c.verify(token).Ok? && c.verify(token).value.Claims?
    ensures r.Ok? ==> c.verify(token) == Ok(Claims(r.value))
    ensures c.verify(token).Err? ==> r == Err(c.verify(token).error)
    ensures c.verify(token).Ok? && c.verify(token).value.Text? ==>
              r == Err(HttpError(StatusInvalidToken, "Invalid Token", c.verify(token).value.text))
  {
    match c.verify(token)
    case Err(e) => Err(e)
    case Ok(Text(s)) => Err(HttpError(StatusInvalidToken, "Invalid Token", s))
    case Ok(Claims(p)) => Ok(p)
  }
}

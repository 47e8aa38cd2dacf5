/** The users controller: listing, registration and login. Each handler is
    given as the effect it has on the request body and the users collection
    (a function, or for login a relation, since the store picks the order of
    search results), and as the controller method that performs it step by
    step against the repository object. */
module UsersEndpoints {
  import opened Base
  import opened Auth
  import opened UsersRepository
  import opened LoggedInterceptor

  /** The `results` of a users response: a list of records, or a token. */
  datatype UsersBody = Records(users: seq<User>) | TokenBody(token: string)

  const InvalidEmailOrPassword := HttpError(StatusUnauthorized, "Unauthorized", "Invalid email o password")
  const EmailNotFound := HttpError(StatusUnauthorized, "Unauthorized", "Email not found")
  const PasswordNotMatch := HttpError(StatusUnauthorized, "Unauthorized", "Password not match")
  /** What bcrypt's `compare` throws when the stored hash is missing. */
  const IllegalArguments := Thrown("Error", "Illegal arguments: string, undefined")

  /** What `register` leaves behind: its outcome, the request body as it
      rewrote it, and the collection. */
  datatype RegisterEffect = RegisterEffect(out: Outcome<UsersBody>, body: UserFields, users: map<string, User>)

  /** `register`, with `newId` the id the store assigns to the new document. */
  function RegisterStep(users: map<string, User>, body: UserFields, c: Crypto, newId: string): (e: RegisterEffect)
    ensures Falsy(body.email) || Falsy(body.password) ==>
              e == RegisterEffect(Fail(InvalidEmailOrPassword), body, users)
    ensures !Falsy(body.email) && !Falsy(body.password) ==>
              e.body == body.(password := Some(c.hash(body.password.value)), knowledges := Some([]))
    ensures e.out.Respond? ==>
              && !Falsy(body.email) && !Falsy(body.password) && newId !in users && newId in e.users
              && e.out == Respond(StatusCreated, Records([e.users[newId]]))
              && e.users == users[newId := e.users[newId]]
              && e.users[newId] == User(newId, body.email, body.userName,
                                        Some(c.hash(body.password.value)), [])
    ensures !Falsy(body.email) && !Falsy(body.password) ==> (e.out.Respond? <==> newId !in users)
    ensures !Falsy(body.email) && !Falsy(body.password) && newId in users ==> e.out == Fail(DuplicateKey)
    ensures e.out.Fail? ==> e.users == users
  {
    if Falsy(body.email) || Falsy(body.password) then
      RegisterEffect(Fail(InvalidEmailOrPassword), body, users)
    else
      var hashed := body.(password := Some(c.hash(body.password.value)));
      var body' := hashed.(knowledges := Some([]));
      var w := CreateIn(users, newId, body');
      match w.result
      case Err(e) => RegisterEffect(Fail(e), body', w.state)
      case Ok(data) => RegisterEffect(Respond(StatusCreated, Records([data])), body', w.state)
  }

  /** The payload `login` signs for user `u`. An absent email (which a user
      found by email search cannot have) is written as the empty string. */
  function PayloadOf(u: User): TokenPayload {
    TokenPayload(u.id, u.email.GetOr(""), "Admin")
  }

  /** The password check and token issue `login` performs on the user `u`
      its search found first. */
  function LoginWith(u: User, password: string, c: Crypto): (out: Outcome<UsersBody>)
    ensures out.Respond? <==> u.password.Some? && c.compare(password, u.password.value)
    ensures out.Respond? ==> out == Respond(StatusAccepted, TokenBody(c.sign(PayloadOf(u))))
    ensures u.password.Some? && !c.compare(password, u.password.value) ==> out == Fail(PasswordNotMatch)
    ensures u.password.None? ==> out == Fail(IllegalArguments)
  {
    if u.password.None? then Fail(IllegalArguments)
    else if !c.compare(password, u.password.value) then Fail(PasswordNotMatch)
    else
      var payload := TokenPayload(u.id, u.email.GetOr(""), "Admin");
      Respond(StatusAccepted, TokenBody(c.sign(payload)))
  }

  /** Some stored user has the email `email`. */
  ghost predicate HasEmail(users: map<string, User>, email: Option<string>) {
    exists id :: id in users && users[id].email == email
  }

  /** The outcomes `login` may have on `body` against `users`: 401 for missing
      fields or an unknown email; otherwise the check of the first search
      result, which may be any user with that email. */
  ghost predicate LoginAllowed(users: map<string, User>, body: UserFields, c: Crypto, out: Outcome<UsersBody>) {
    if Falsy(body.email) || Falsy(body.password) then out == Fail(InvalidEmailOrPassword)
    else if !HasEmail(users, body.email) then out == Fail(EmailNotFound)
    else exists id :: id in users && users[id].email == body.email
                      && out == LoginWith(users[id], body.password.value, c)
  }

  /** `UsersController`. */
  class UsersController {
    const repoUser: UsersMongoRepo

    constructor (repoUser: UsersMongoRepo)
      ensures this.repoUser == repoUser
    {
      this.repoUser := repoUser;
    }

    /** `getAll`: every stored user, unfiltered. */
    method GetAll() returns (out: Outcome<UsersBody>)
      requires repoUser.Valid()
      ensures out.Respond? && out.status == StatusOk && out.results.Records?
      ensures forall u :: u in out.results.users <==> u in repoUser.users.Values
      ensures |out.results.users| == |repoUser.users|
    {
      var data;
      ghost var keys;
      data, keys := repoUser.Query();
      out := Respond(StatusOk, Records(data));
    }

    /** `register`: rewrites the body (hashed password, empty `knowledges`)
        and creates the user from it. */
    method Register(req: RequestPlus<UserFields>, c: Crypto, newId: string) returns (out: Outcome<UsersBody>)
      requires repoUser.Valid()
      modifies req`body, repoUser
      ensures repoUser.Valid()
      ensures RegisterEffect(out, req.body, repoUser.users) == RegisterStep(old(repoUser.users), old(req.body), c, newId)
    {
      if Falsy(req.body.email) || Falsy(req.body.password) {
        return Fail(InvalidEmailOrPassword);
      }
      req.body := req.body.(password := Some(c.hash(req.body.password.value)));
      req.body := req.body.(knowledges := Some([]));
      var data := repoUser.Create(newId, req.body);
      if data.Err? {
        return Fail(data.error);
      }
      out := Respond(StatusCreated, Records([data.value]));
    }

    /** `login`: searches by exact email and checks the first match. */
    method Login(req: RequestPlus<UserFields>, c: Crypto) returns (out: Outcome<UsersBody>)
      ensures LoginAllowed(repoUser.users, req.body, c, out)
    {
      var body := req.body;
      if Falsy(body.email) || Falsy(body.password) {
        return Fail(InvalidEmailOrPassword);
      }
      var data;
      ghost var keys;
      data, keys := repoUser.Search("email", Str(body.email.value));
      if |data| == 0 {
        assert forall id :: id in repoUser.users ==> id !in keys;
        return Fail(EmailNotFound);
      }
      assert keys[0] in keys && data[0] == repoUser.users[keys[0]];
      out := LoginWith(data[0], body.password.value, c);
    }
  }

  /** A token is issued only to a stored user whose email is the one given
      and whose stored hash the given password matches, and it names that
      user with the role "Admin". */
  lemma {:induction false} TokenOnlyAfterChecks(users: map<string, User>, body: UserFields, c: Crypto, out: Outcome<UsersBody>)
    requires Keyed(users)
    requires LoginAllowed(users, body, c, out) && out.Respond?
    ensures exists id :: && id in users && users[id].email == body.email
                         && users[id].password.Some? && c.compare(body.password.value, users[id].password.value)
                         && out == Respond(StatusAccepted, TokenBody(c.sign(TokenPayload(id, body.email.value, "Admin"))))
  {
    var id :| id in users && users[id].email == body.email
              && out == LoginWith(users[id], body.password.value, c);
    assert users[id].id == id;
  }

  /** Registering an email no one uses and then logging in with the same
      credentials yields a token for the new user. */
  lemma {:induction false} RegisteredUserCanLogIn(users: map<string, User>, body: UserFields, c: Crypto, newId: string, out: Outcome<UsersBody>)
    requires Lawful(c)
    requires !HasEmail(users, body.email)
    requires !Falsy(body.email) && !Falsy(body.password) && newId !in users
    requires LoginAllowed(RegisterStep(users, body, c, newId).users, body, c, out)
    ensures out == Respond(StatusAccepted, TokenBody(c.sign(TokenPayload(newId, body.email.value, "Admin"))))
  {
    var after := RegisterStep(users, body, c, newId).users;
    assert after[newId].email == body.email;
    assert HasEmail(after, body.email);
    var id :| id in after && after[id].email == body.email
              && out == LoginWith(after[id], body.password.value, c);
    assert id == newId;
  }

  /** After that registration, logging in with any other password fails with 401. */
  lemma {:induction false} WrongPasswordRejected(users: map<string, User>, body: UserFields, c: Crypto, newId: string,
                                                 wrong: string, out: Outcome<UsersBody>)
    requires Lawful(c)
    requires !HasEmail(users, body.email)
    requires !Falsy(body.email) && !Falsy(body.password) && newId !in users
    requires wrong != "" && Some(wrong) != body.password
    requires LoginAllowed(RegisterStep(users, body, c, newId).users, body.(password := Some(wrong)), c, out)
    ensures out == Fail(PasswordNotMatch)
  {
    var after := RegisterStep(users, body, c, newId).users;
    var attempt := body.(password := Some(wrong));
    assert after[newId].email == body.email;
    assert HasEmail(after, attempt.email);
    var id :| id in after && after[id].email == attempt.email
              && out == LoginWith(after[id], wrong, c);
    assert id == newId;
    assert !c.compare(wrong, c.hash(body.password.value));
  }
}

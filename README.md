# Knowledges API — a Dafny model

This project models the core of a small REST backend (Express, Mongoose,
jsonwebtoken, bcrypt). Users register and log in. Logged-in users then keep
a catalogue of "knowledges": named items with an interest score (0 to 10)
and a difficulty level (1 to 5). Every item belongs to the user who
created it.

The model covers:

- **The request pipeline.** The `logged` interceptor checks the bearer
  token and stores the caller's identity in `req.info`. The `authorized`
  interceptor lets a request through only when the item named in the path
  belongs to the caller.
- **The two controllers.** The users controller has `getAll`, `register` and
  `login`. The knowledges controller has `getAll`, `get`, `post`, `patch` and
  `delete`.
- **The two Mongo repositories.** Each has a lazily created single instance,
  `query`, `queryId`, `search`, `create`, `update` and `destroy`.
- **The knowledge schema.** This covers the required fields, the bounds, the
  unique name and the `toJSON` transform.

Each collection is a map from document id to record.

State-changing code keeps its imperative form:

- The repositories and controllers are classes with `modifies` clauses.
- `RequestPlus` is a class whose `body` and `info` the handlers reassign.

Every such method is proved equal to a value-level function of the old
state. Examples are `KnowledgesRepository.CreateIn` and
`KnowledgesEndpoints.PostStep`. The lemmas about the system are stated over
those functions.

The store's `find` returns matches in an order it chooses. `Store.Find`
models it as a scan of the map in an arbitrary order. `login` reads the
first search result, so its outcome is specified as a relation,
`UsersEndpoints.LoginAllowed`.

The cryptographic primitives are a `Auth.Crypto` value passed as a
parameter. These are hash, compare, sign and verify. `Auth.Lawful` states
the laws they obey:

- a password matches its own hash;
- a password never matches the hash of a different password;
- a signed payload verifies back to itself.

Three behaviours of the code are worth stating on their own, and each
has a lemma:

- **`patch` can reassign an item's owner.** It passes the whole request
  body to `update` (src/controllers/knowledges.controller.ts:82-84), so a
  body carrying `owner` hands the item to another user
  (`KnowledgesEndpoints.PatchCanReassignOwner`).
- **The schema's bounds are checked only on create.** Its `required`, `min`
  and `max` checks run when an item is created. They do not run on
  `findByIdAndUpdate` (src/repository/knowledges.mongo.repo.ts:61-67),
  because Mongoose runs no validators on updates by default. So a `patch`
  can store an out-of-bounds score
  (`KnowledgesEndpoints.PatchSkipsBounds`). The unique index on `name`
  holds on both paths.
- **The token strip is fixed-width.** `logged` checks the six-character
  prefix `Bearer` but always strips seven characters
  (src/interceptors/logged.ts:17-20). So a header with no space after
  `Bearer` loses the first character of its token
  (`LoggedInterceptor.StripIsFixedWidth`).

## Model

| member | source | states |
|---|---|---|
| Auth.VerifyJWT | src/helpers/auth.ts:19-26 | a library failure passes through unchanged; a string payload becomes 498 "Invalid Token" carrying that string; success exactly when verification yields claims, and the result is those claims |
| Store.Find | src/repository/knowledges.mongo.repo.ts:87-96 | `find` with a filter lists each stored document the filter accepts exactly once (distinct ids, exactly the accepted ones, each entry the record under its id), so its members are exactly the accepted records and there are no more entries than documents |
| Store.FullListingCount | src/repository/users.mongo.repo.ts:24-28 | a listing of every document has exactly as many entries as there are documents |
| LoggedInterceptor.RequestPlus.constructor | src/interceptors/logged.ts:6-8 | a request starts with its header, path id and body, and no identity stored in `info` |
| LoggedInterceptor.SliceSeven | src/interceptors/logged.ts:20 | the token is the header minus its first seven characters, or empty for a shorter header |
| LoggedInterceptor.Authenticate | src/interceptors/logged.ts:12-24 | missing or empty header gives 498 "Not value in auth header"; no `Bearer` prefix gives 498 "Not Bearer in auth header"; otherwise the verdict of `verifyJWT` on the stripped token; an identity only when both guards pass and the token verifies to it |
| LoggedInterceptor.Logged | src/interceptors/logged.ts:10-30 | calls `next` once: bare, with `req.info` set to the verified identity, or with the error, leaving `req.info` as it was |
| LoggedInterceptor.GuardsNeverVerify | src/interceptors/logged.ts:14-18 | a header that fails either guard is rejected with one of the two 498 errors, whatever the token primitives do |
| LoggedInterceptor.IssuedTokenAccepted | src/interceptors/logged.ts:17-24 | with lawful primitives, `Bearer <signed payload>` is accepted and yields exactly that payload |
| LoggedInterceptor.StripIsFixedWidth | src/interceptors/logged.ts:17-20 | `Bearer` followed directly by a token passes the prefix guard but loses the token's first character |
| KnowledgeSchema.Validate | src/repository/knowledges.mongo.model.ts:4-28 | a new document is valid exactly when the name is present and non-empty and both scores are present and within [0,10] and [1,5]; the record then carries the given id and the body's fields; otherwise a validation error |
| KnowledgeSchema.ToJson | src/repository/knowledges.mongo.model.ts:31-37 | the JSON form has `id` equal to `_id`, no `_id` and no `__v`, and every other field unchanged |
| KnowledgeSchema.ReturnedObject.constructor | src/repository/knowledges.mongo.model.ts:32 | the object the transform receives holds the given fields |
| KnowledgeSchema.Transform | src/repository/knowledges.mongo.model.ts:31-37 | the in-place transform leaves the object's fields equal to `ToJson` of what they were |
| KnowledgeSchema.JsonOfStoredItem | src/repository/knowledges.mongo.model.ts:5-37 | a stored item serialises to its id as `id`, its name and scores, its owner exactly when it has one, and no other key |
| KnowledgesRepository.QueryIdIn | src/repository/knowledges.mongo.repo.ts:32-42 | the item stored under the id, or 404 "ID not found in queryID" exactly when there is none |
| KnowledgesRepository.CreateIn | src/repository/knowledges.mongo.repo.ts:44-54 | succeeds exactly when the body validates, the id is new and the name is not taken; then the collection gains exactly the validated record; a body that fails validation gives a validation error, a taken id or name a duplicate-key error, both with no change; a valid, name-unique collection stays so |
| KnowledgesRepository.Merge | src/repository/knowledges.mongo.repo.ts:56-72 | each field present in the update replaces the stored one; absent fields and the id are kept |
| KnowledgesRepository.UpdateIn | src/repository/knowledges.mongo.repo.ts:56-72 | an absent or unknown id gives 404 "ID not found in update" and no change; otherwise succeeds exactly when the merged name is not taken by another item, else a duplicate-key error; on success only that item changes, to the merge, which is returned; validity is preserved |
| KnowledgesRepository.DestroyIn | src/repository/knowledges.mongo.repo.ts:74-85 | removes exactly the item under the id, one fewer document; 404 "Delete not possible: ID not found " and no change when absent; validity is preserved |
| KnowledgesRepository.KnowledgesMongoRepo.constructor | src/repository/knowledges.mongo.repo.ts:20-22 | a new repository sees the collection exactly as the database already holds it (valid and name-unique); creating it changes nothing |
| KnowledgesRepository.KnowledgesMongoRepo.Query | src/repository/knowledges.mongo.repo.ts:24-30 | every stored item, one entry per document: exactly the stored items, as many entries as documents |
| KnowledgesRepository.KnowledgesMongoRepo.QueryId | src/repository/knowledges.mongo.repo.ts:32-42 | agrees with `QueryIdIn` on the current collection |
| KnowledgesRepository.KnowledgesMongoRepo.Create | src/repository/knowledges.mongo.repo.ts:44-54 | result and new collection are those of `CreateIn`; the collection stays valid |
| KnowledgesRepository.KnowledgesMongoRepo.Update | src/repository/knowledges.mongo.repo.ts:56-72 | result and new collection are those of `UpdateIn`; the collection stays valid |
| KnowledgesRepository.KnowledgesMongoRepo.Destroy | src/repository/knowledges.mongo.repo.ts:74-85 | result and new collection are those of `DestroyIn`; the collection stays valid |
| KnowledgesRepository.KnowledgesMongoRepo.Search | src/repository/knowledges.mongo.repo.ts:87-96 | exactly the stored items whose stored field `key` equals the value, one entry per document; a filter on the virtual `id` matches nothing |
| KnowledgesRepository.KnowledgesMongoRepoStatic.constructor | src/repository/knowledges.mongo.repo.ts:10 | no instance exists before the first request for one |
| KnowledgesRepository.KnowledgesMongoRepoStatic.GetInstance | src/repository/knowledges.mongo.repo.ts:12-18 | the first call creates a fresh repository over the collection as the database holds it; every later call returns that same object |
| KnowledgesRepository.CreatedItemIsFound | src/repository/knowledges.mongo.repo.ts:32-54 | after a successful create, `queryId` of the new id returns the created item, and every other id reads as before |
| KnowledgesRepository.DestroyedItemIsGone | src/repository/knowledges.mongo.repo.ts:32-85 | after `destroy`, `queryId` of that id gives 404, and every other id reads as before |
| UsersRepository.QueryIdIn | src/repository/users.mongo.repo.ts:30-37 | the user stored under the id, or 404 "ID not found in queryID" exactly when there is none |
| UsersRepository.CreateIn | src/repository/users.mongo.repo.ts:48-54 | succeeds exactly when the id is new; the collection then gains a user with the body's fields, with `knowledges` defaulting to empty; a duplicate id gives a duplicate-key error and no change |
| UsersRepository.Merge | src/repository/users.mongo.repo.ts:56-63 | each field present in the update replaces the stored one; absent fields and the id are kept |
| UsersRepository.UpdateIn | src/repository/users.mongo.repo.ts:56-63 | succeeds exactly when the id is given and stored; only that user changes, to the merge, which is returned; otherwise 404 "ID not found in update" and no change |
| UsersRepository.DestroyIn | src/repository/users.mongo.repo.ts:65-74 | removes exactly the user under the id; 404 and no change when absent |
| UsersRepository.UpdateWithEditedList | src/repository/users.mongo.repo.ts:56-63 | handing a loaded user back to `update` with only its `knowledges` list replaced stores exactly that edited user |
| UsersRepository.UsersMongoRepo.constructor | src/repository/users.mongo.repo.ts:20-22 | a new repository sees the collection exactly as the database already holds it (keyed by id); creating it changes nothing |
| UsersRepository.UsersMongoRepo.Query | src/repository/users.mongo.repo.ts:24-28 | every stored user, one entry per document: exactly the stored users, as many entries as documents |
| UsersRepository.UsersMongoRepo.QueryId | src/repository/users.mongo.repo.ts:30-37 | agrees with `QueryIdIn` on the current collection |
| UsersRepository.UsersMongoRepo.Search | src/repository/users.mongo.repo.ts:39-46 | exactly the stored users whose stored field `key` equals the value, one entry per document; a filter on the virtual `id` matches nothing |
| UsersRepository.UsersMongoRepo.Create | src/repository/users.mongo.repo.ts:48-54 | result and new collection are those of `CreateIn`; the collection stays keyed by id |
| UsersRepository.UsersMongoRepo.Update | src/repository/users.mongo.repo.ts:56-63 | result and new collection are those of `UpdateIn`; the collection stays keyed by id |
| UsersRepository.UsersMongoRepo.Destroy | src/repository/users.mongo.repo.ts:65-74 | result and new collection are those of `DestroyIn`; the collection stays keyed by id |
| UsersRepository.UsersMongoRepoStatic.constructor | src/repository/users.mongo.repo.ts:10 | no instance exists before the first request for one |
| UsersRepository.UsersMongoRepoStatic.GetInstance | src/repository/users.mongo.repo.ts:12-18 | the first call creates a fresh repository over the collection as the database holds it; every later call returns that same object |
| AuthorizedInterceptor.Authorize | src/interceptors/authorized.ts:6-37 | no identity gives 404 "Token not found…"; an unknown item gives the `queryId` 404; an item owned by someone else gives 401 "User ID is different from Owner ID"; an item stored without an owner gives the TypeError from reading its `id`; bare `next` exactly when the item exists and its owner is the caller |
| AuthorizedInterceptor.OneOwnerPerItem | src/interceptors/authorized.ts:20-33 | two identities both let through to the same item have the same id |
| UsersEndpoints.RegisterStep | src/controllers/users.controller.ts:30-50 | a missing or empty email or password gives 401 "Invalid email o password" and no change; otherwise the body gets the hashed password and an empty list, and registration succeeds exactly when the store's new id is free (else a duplicate-key error and no change); on success the new user has exactly the rewritten fields and the answer is 201 with it |
| UsersEndpoints.LoginWith | src/controllers/users.controller.ts:67-83 | 202 with a token signed over the found user's id and email and role "Admin" exactly when the password matches the stored hash; a mismatch gives 401 "Password not match"; no stored hash gives bcrypt's illegal-arguments error |
| UsersEndpoints.UsersController.constructor | src/controllers/users.controller.ts:11-14 | the controller uses the given repository |
| UsersEndpoints.UsersController.GetAll | src/controllers/users.controller.ts:16-28 | 200 with exactly the stored users, one entry per user |
| UsersEndpoints.UsersController.Register | src/controllers/users.controller.ts:30-50 | outcome, rewritten body and new collection are those of `RegisterStep`; the collection stays keyed by id |
| UsersEndpoints.UsersController.Login | src/controllers/users.controller.ts:52-87 | missing fields give 401 "Invalid email o password"; an email no user has gives 401 "Email not found"; otherwise the outcome is `LoginWith` on some user with that email |
| UsersEndpoints.TokenOnlyAfterChecks | src/controllers/users.controller.ts:52-87 | a token is issued only for a stored user with the given email whose stored hash matches the given password, and it carries that user's id |
| UsersEndpoints.RegisteredUserCanLogIn | src/controllers/users.controller.ts:30-87 | with lawful primitives, registering an unused email with a free id and then logging in with the same credentials yields a token for the new user |
| UsersEndpoints.WrongPasswordRejected | src/controllers/users.controller.ts:52-87 | with lawful primitives, logging in as that newly registered user with any other non-empty password gives 401 "Password not match" |
| KnowledgesEndpoints.GetStep | src/controllers/knowledges.controller.ts:35-48 | 200 with the one item exactly when it is stored, else the `queryId` 404 |
| KnowledgesEndpoints.PostStep | src/controllers/knowledges.controller.ts:50-76 | no caller id gives 404 "Not found user ID"; an unknown caller gives the `queryId` 404; otherwise the body's owner becomes the caller and the post succeeds exactly when that body validates, the new id is free and the name is not taken (else the validation or duplicate-key error); on success the collection gains exactly one item, the posted body validated under the new id with the caller as owner (so conforming), the answer is 200 with it, and the caller's list, with the ids of removed items dropped as `populate` drops them, gains its id; on failure neither collection changes; a valid, name-unique collection stays so |
| KnowledgesEndpoints.PatchStep | src/controllers/knowledges.controller.ts:78-92 | a non-empty path id overrides the body's id; an unknown target gives 404 and no change; a stored target is updated exactly when its merged name is not taken by another item (else a duplicate-key error and no change); on success only the target changes, to its merge with the body, and the answer is 200 with it |
| KnowledgesEndpoints.DeleteStep | src/controllers/knowledges.controller.ts:94-107 | a stored item is removed and the answer is 200 with an empty list; otherwise 404 "Delete not possible…" and no change |
| KnowledgesEndpoints.KnowledgesController.constructor | src/controllers/knowledges.controller.ts:12-19 | the controller uses the given repositories |
| KnowledgesEndpoints.Present | src/repository/users.mongo.repo.ts:30-33 | the ids kept are exactly those of the list whose item is stored, no more of them than the list has, and the whole list when every item is stored |
| KnowledgesEndpoints.PostDropsRemovedIds | src/controllers/knowledges.controller.ts:58-68 | after a successful post, an id whose item was removed is no longer in the caller's list |
| KnowledgesEndpoints.KnowledgesController.GetAll | src/controllers/knowledges.controller.ts:21-33 | 200 with exactly the stored items, one entry per item |
| KnowledgesEndpoints.KnowledgesController.Get | src/controllers/knowledges.controller.ts:35-48 | agrees with `GetStep` |
| KnowledgesEndpoints.KnowledgesController.Post | src/controllers/knowledges.controller.ts:50-76 | outcome, rewritten body and both collections are those of `PostStep`; both collections stay valid |
| KnowledgesEndpoints.KnowledgesController.Patch | src/controllers/knowledges.controller.ts:78-92 | outcome, rewritten body and collection are those of `PatchStep`; the collection stays valid |
| KnowledgesEndpoints.KnowledgesController.Delete | src/controllers/knowledges.controller.ts:94-107 | outcome and collection are those of `DeleteStep`; the collection stays valid |
| KnowledgesEndpoints.PostedItemIsOwnedByCaller | src/controllers/knowledges.controller.ts:54-68 | an item a caller posts passes `authorized` for that caller and gives 401 for every other identity |
| KnowledgesEndpoints.PostKeepsOwnersRegistered | src/controllers/knowledges.controller.ts:54-68 | if every item's owner is a stored user before a post, that still holds after it |
| KnowledgesEndpoints.DeletedItemIsNotFound | src/controllers/knowledges.controller.ts:94-107 | after `delete` of an id, `get` of it answers 404 |
| KnowledgesEndpoints.PatchedItemIsRead | src/controllers/knowledges.controller.ts:78-92 | after a successful patch, `get` of the target returns exactly what the patch answered |
| KnowledgesEndpoints.PatchCanReassignOwner | src/controllers/knowledges.controller.ts:82-84 | a body carrying only another `owner` succeeds, stores the new owner, and the previous owner then fails `authorized` with 401 |
| KnowledgesEndpoints.PatchSkipsBounds | src/controllers/knowledges.controller.ts:78-92 | a patch setting the interest score to 11 succeeds and stores an out-of-bounds item |

## Left out

- **Library internals.** The internals of jsonwebtoken and bcrypt are not
  modelled. Their behaviour enters only through `Auth.Crypto` and the
  `Auth.Lawful` laws.
- **Token claims.** The token's `iat` claim is not modelled. Neither is the
  cast of an arbitrary decoded object to the payload shape: a verified
  token is assumed to carry an id, an email and a role.
- **Hashing is infallible.** It is a pure total function; its asynchrony and
  salt are not modelled.
- **Infrastructure.** Database connection failures and driver exceptions are
  not modelled, nor are timeouts. So `query`, `search` and `queryId` never
  throw except with the 404s the code raises.
- **Id casting.** Mongoose's cast of a malformed id string to `ObjectId`
  (a `CastError`) is not distinguished. Every id that is not stored reads as
  not found.
- **Generated ids.** The id of a newly created document is generated by the
  store. Here it is a parameter, `newId`, of `create`, `register` and `post`.
- **`populate`.** References are stored as ids, and a read returns them as
  ids rather than as the referenced documents. One effect of `populate` is
  kept: it drops references to removed items, and `post` writes the
  populated list back, so `KnowledgesEndpoints.Present` filters the
  caller's list there.
- **Dangling owners.** A dangling owner reference populates to `null`, and
  `authorized` then throws on it. That case is not modelled: it is treated
  like an item whose owner is the stored id.
- **Non-string queries.** `search` on array-valued fields is not modelled,
  nor are query operators or values of other types. `Field` compares
  scalar fields for equality only.
- **The users schema.** The users schema file is not part of this model. A
  user record therefore has every field optional, and no uniqueness of
  email is enforced. `login` may thus find several users with one email,
  and the model lets it check any of them.
- **Friends/enemies.** The friend/enemy operations and `updateUserDetails`
  are not part of this core.
- **Wiring.** The router wiring, the app set-up and the error-handling
  middleware are not modelled. A handler's outcome stops at the error it
  hands to `next` or the body it passes to `resp.json`.
- **Concurrency.** Concurrency and async interleaving are not modelled.
  `post` writes the item and then the caller's list in two separate store
  writes, without waiting for the second. Here the second write is applied
  at once, and its failure is ignored, as in the code.
- **Listing order.** The order in which the store lists documents is
  unspecified here. `query` and `search` results are characterised as
  listings that hold each matching document once, in any order.
- **Scores are real numbers.** They are modelled as reals, so JavaScript
  floating point, `NaN` and type casts of non-numeric scores are not
  modelled.
- **Delete keeps the owner's list.** `delete` does not remove the item's id
  from its owner's `knowledges` list. The model keeps that behaviour: the
  removed id stays in the list until the owner's next `post`, which writes
  back the populated list without it (`KnowledgesEndpoints.PostDropsRemovedIds`).
  No invariant links those lists to the items collection.
- UsersEndpoints.UsersController.Login: states the outcome as a relation
  (`LoginAllowed`), not as one value. The store picks which matching user
  comes first.
- KnowledgesRepository.KnowledgesMongoRepo.Search, UsersRepository.UsersMongoRepo.Search:
  assume Mongoose's `strictQuery` setting is off. The connection settings
  are not part of this model. A filter on a key outside the schema, such as
  the virtual `id`, then matches nothing. With `strictQuery` on, such a key
  would be stripped from the filter and every document returned.

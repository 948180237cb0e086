# Users controller of a minimal account service

This project models the users controller of a small Express service. The
controller has two request handlers, which the users router binds to
`POST /` and `POST /login`. `registerUser` creates an account from
`{email, password}` and returns a signed token. `loginUser` checks those
credentials against the
stored password digest and returns a token. The local helper `createToken`
signs the token for a user id.

Each handler is a short chain of early returns. The model keeps those steps
in the code's order and stops where the code stops:

- `registerUser`: validate, look up the email, generate a salt, hash, insert (in a try block), sign (in the same try block), respond.
- `loginUser`: validate, look up the email, compare the password with the digest, sign (in a try block), respond.

Files:

- `types.dfy` (module `CredentialTypes`) holds the data: requests whose fields may be absent, stored user records, the store as a map from email to record, the password hasher, the token issuer, responses, and the `Outcome` of one handler call.
- `users_controller.dfy` (module `UsersController`) models the controller. `RegisterUser` and `LoginUser` are functions of the store before the request. `UserCollection` is the user store as a class. Its `Register` method updates the store in place, step by step, and is proved equal to `RegisterUser`.
- `request_log.dfy` (module `RequestLog`) runs a sequence of register and login requests against one store. It proves by induction what holds across such a sequence, and derives the register-then-login round trip as its two-request case.

Collaborators are inputs, not code:

- `RegisterEffects` and `LoginEffects` say, for one request, whether `User.findOne`, `bcrypt.genSalt`, `bcrypt.hash` or `bcrypt.compare` reject. They also give the salt, and either the id that `User.create` assigns or the message it rejects with.
- An `Issuer` maps a user id to a token, or to a thrown message. This stands for `createToken`.
- A `Hasher` is a pair of uninterpreted functions, `hash` and `compare`. The only thing assumed about it is `Sound`: a password always verifies against its own digest.

A rejection outside a try block means the handler sends no response. This covers `findOne`, `genSalt`, `hash` and `compare`. The model records it as `Unhandled(step)`, not as a 500. Only the insert and the signing sit inside a try block, and a failure of either becomes a 500 carrying the thrown message (`src/controllers/usersController.ts:34-46`, `72-79`).

Where the tests disagree with the code, the model follows the code:

- Registration's validation message is `"All fields are required"`, with no trailing period (`src/controllers/usersController.ts:21`). The register tests expect a period (`tests/controllers/usersControllerRegister.test.ts:90`). Login's message does end in a period (`src/controllers/usersController.ts:57`).
- The tests stub `createToken` in a `tokenUtils` module. The controller calls its own local `createToken` instead, so the model ties tokens to that local function.

## Model

| member | source | states |
|---|---|---|
| UsersController.RegisterUser | src/controllers/usersController.ts:15-47 | A falsy email or password gives 400 "All fields are required" (no period) and leaves the store alone. A taken email gives 400 "Email is already in use", with no hashing and no insert. A rejection of findOne, genSalt or hash sends no response and changes nothing. The store changes exactly when the insert succeeds. It then gains one entry, under the request email, holding the new id and the salted digest of the password. Every earlier entry is kept. A rejected insert gives 500 with its message and leaves the store unchanged. A signing failure after the insert gives 500 with its message, and the new user stays (no rollback). The response is 200 exactly when the insert and the signing both succeed. Its body is then the request email and the token for the new id. |
| UsersController.LoginUser | src/controllers/usersController.ts:51-80 | Errors come in precedence order. A falsy field gives 400 "All fields are required." (with a period). Otherwise an email not in the store gives 400 "Incorrect email". Otherwise a failed compare against the stored digest gives 400 "Incorrect password", and this happens in no other case. Rejections of findOne or compare send no response. The response is 200 exactly when every check passes and the token for the stored user's id is signed. Its body is then the request email and that token. A signing failure gives 500 with its message. Login takes the store as a value and returns none, so it cannot change it. |
| UsersController.UserCollection.FindOne | src/controllers/usersController.ts:25 | The lookup returns a user exactly when the email is in the store, and then returns that user's record. |
| UsersController.UserCollection.Create | src/controllers/usersController.ts:36 | A successful insert stores the record (the assigned id and the given digest) under the email and returns it. A rejected insert returns its message and leaves the store unchanged. |
| UsersController.UserCollection.Register | src/controllers/usersController.ts:15-47 | The in-place handler, with early returns, gives the same outcome as RegisterUser. It also leaves the store exactly as RegisterUser describes. |
| RequestLog.RegisterThenLogin | src/controllers/usersController.ts:31-76 | Assume the hasher is sound. Then after a successful registration of (email, password), a login with the same pair returns 200 with that email. It does so whenever its lookup, compare and signing succeed. The token is the one signed for the id assigned at registration. |
| RequestLog.Handle | src/routes/usersRoutes.ts:6-7 | Each of the two routes keeps every existing user unchanged. The login route leaves the store exactly as it was. |
| RequestLog.Run | src/controllers/usersController.ts:36 | A sequence of requests yields one outcome per request. No stored user is ever deleted or changed, since the only write is the insert of a new email. |
| RequestLog.SecondRegistrationRejected | src/controllers/usersController.ts:25-28 | Once a registration of an email has returned 200, no later registration of that email returns 200. This holds however many requests come between. The later registration never changes the store. If it has both fields and its lookup is answered, it gets 400 "Email is already in use". |
| RequestLog.LoginAfterRegistration | src/controllers/usersController.ts:31-80 | Assume the hasher is sound and a registration of (email, password) returned 200. Then a later login with the same pair succeeds, however many requests came between, provided its lookup and compare succeed. The response is 200 with the email and a token signed for the id assigned at registration, or 500 with the signing failure's message. |

## Left out

- Express routing, the HTTP server and process bootstrap are not modelled (`src/app.ts`, `src/routes/usersRoutes.ts`, `dist/server.js`). `RequestLog.Call` stands for the two routes of the users router.
- The users router is not mounted in the app shown: `src/app.ts` registers only `GET /`, and the mount in `dist/server.js` is commented out. The model does not depend on the path at which the routes would be served.
- What happens to the process after a rejection escapes a handler is not modelled. Depending on the Node and Express versions, it may end the process or reach Express's default error handler. The request-sequence lemmas in `RequestLog` assume the service keeps running and keeps the same store.
- The database connection is not modelled either. The store is an in-memory map keyed by email.
- The user schema (`src/models/User.ts`) is not modelled: its required fields, its unique indexes and its timestamps. `User.create` is an operation that either assigns an id or rejects with a message. One consequence of the schema is not captured. The schema requires a `username`, and registration never sends one, so a real insert would be rejected by schema validation.
- Two registrations running at the same time can both pass the lookup before either inserts. The model handles requests one at a time, so it does not capture this race. Atomic email uniqueness is the database's job.
- bcrypt internals are not modelled: salt generation, adaptive hashing and constant-time comparison. The salt is an input, and hash and compare are uninterpreted functions. `Sound` is the only property assumed of them. Nothing is proved about wrong passwords being refused, because that would need a property of bcrypt beyond `Sound`.
- JWT signing is not modelled: the `JWT_SECRET` environment read and the "10d" expiry. `createToken` is the `Issuer` each handler is given: a function from a user id to an opaque token or a thrown message.
- A body field is modelled as absent (or `null`) or a string. Other JSON values, such as numbers or objects, are not modelled. A thrown value is assumed to carry a message string. The case where `error.message` is `undefined` is not modelled.
- Asynchronous scheduling is not modelled. Every awaited call runs in sequence, so the handlers are sequential code.

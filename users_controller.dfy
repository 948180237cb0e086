/** The users controller: `registerUser` and `loginUser`. The local
    `createToken` is the `Issuer` each handler is given. */
module UsersController {
  import opened CredentialTypes

  const RegisterMissingFields := "All fields are required"
  const EmailInUse := "Email is already in use"
  const LoginMissingFields := "All fields are required."
  const IncorrectEmail := "Incorrect email"
  const IncorrectPassword := "Incorrect password"

  /** How each awaited collaborator of `registerUser` behaves on one request. */
  datatype RegisterEffects = RegisterEffects(
    lookupThrows: bool,       // User.findOne rejects
    salt: Attempt<Salt>,      // bcrypt.genSalt
    hashThrows: bool,         // bcrypt.hash rejects
    create: Attempt<UserId>)  // User.create: the assigned id, or the rejection

  /** How each awaited collaborator of `loginUser` behaves on one request. */
  datatype LoginEffects = LoginEffects(
    lookupThrows: bool,       // User.findOne rejects
    compareThrows: bool)      // bcrypt.compare rejects

  /** A handler's outcome together with the store it leaves behind. */
  datatype Handled = Handled(outcome: Outcome, users: Store)

  /** Registration gets as far as the try block: fields present, lookup
      answered, email free, salt and digest computed. */
  predicate ReachesInsert(users: Store, req: Request, fx: RegisterEffects)
  {
    !MissingField(req) && !fx.lookupThrows && req.email.value !in users
    && fx.salt.Done? && !fx.hashThrows
  }

  /** Registration inserts a user: it reaches the try block and the store accepts the document. */
  predicate Inserts(users: Store, req: Request, fx: RegisterEffects)
  {
    ReachesInsert(users, req, fx) && fx.create.Done?
  }

  /** The document registration inserts: the new id and the salted digest of the password. */
  function NewUser(req: Request, h: Hasher, fx: RegisterEffects): UserRecord
    requires req.password.Some? && fx.salt.Done? && fx.create.Done?
  {
    UserRecord(fx.create.value, h.hash(req.password.value, fx.salt.value))
  }

  /** `registerUser` as a function of the store before the request:
      validate, check uniqueness, hash, insert, issue a token, respond. */
  function RegisterUser(users: Store, req: Request, h: Hasher, fx: RegisterEffects, issue: Issuer): (r: Handled)
    // a falsy field: the validation message (no trailing period), store untouched
    ensures MissingField(req) ==> r == Handled(BadRequest(RegisterMissingFields), users)
    // a taken email: the conflict message, no hashing and no insert
    ensures !MissingField(req) && !fx.lookupThrows && req.email.value in users
            ==> r == Handled(BadRequest(EmailInUse), users)
    // rejections before the try block produce no response and change nothing
    ensures r.outcome.Unhandled? <==>
              !MissingField(req) && (fx.lookupThrows || (req.email.value !in users && (fx.salt.Threw? || fx.hashThrows)))
    ensures r.outcome.Unhandled? ==> r.users == users
    // the store changes exactly when the insert succeeds, by one new entry holding the digest
    ensures r.users != users <==> Inserts(users, req, fx)
    ensures Inserts(users, req, fx) ==>
              req.email.value !in users && r.users == users[req.email.value := NewUser(req, h, fx)]
    ensures Extends(users, r.users)
    // a rejected insert: 500 with its message, store unchanged
    ensures ReachesInsert(users, req, fx) && fx.create.Threw?
            ==> r == Handled(ServerError(fx.create.message), users)
    // a failed token after the insert: 500 with its message, the user stays
    ensures Inserts(users, req, fx) && issue(fx.create.value).Threw?
            ==> r.outcome == ServerError(issue(fx.create.value).message)
    // success exactly when the insert and the token both succeed
    ensures IsOk(r.outcome) <==> Inserts(users, req, fx) && issue(fx.create.value).Done?
    ensures IsOk(r.outcome) ==> r.outcome == Ok(req.email.value, issue(fx.create.value).value)
  {
    if MissingField(req) then Handled(BadRequest(RegisterMissingFields), users)
    else if fx.lookupThrows then Handled(Unhandled(LookupStep), users)
    else if req.email.value in users then Handled(BadRequest(EmailInUse), users)
    else if fx.salt.Threw? then Handled(Unhandled(SaltStep), users)
    else if fx.hashThrows then Handled(Unhandled(HashStep), users)
    else
      match fx.create
      case Threw(m) => Handled(ServerError(m), users)
      case Done(id) =>
        var users' := users[req.email.value := UserRecord(id, h.hash(req.password.value, fx.salt.value))];
        match issue(id)
        case Threw(m) => Handled(ServerError(m), users')
        case Done(token) => Handled(Ok(req.email.value, token), users')
  }

  /** Login passes every check before token issuance: fields present, lookup
      answered, email known, password verified against the stored digest. */
  predicate Admitted(users: Store, req: Request, h: Hasher, fx: LoginEffects)
  {
    !MissingField(req) && !fx.lookupThrows && req.email.value in users
    && !fx.compareThrows && h.compare(req.password.value, users[req.email.value].passwordHash)
  }

  /** `loginUser`: validate, look up, verify, issue a token, respond. It only
      reads the store. */
  function LoginUser(users: Store, req: Request, h: Hasher, fx: LoginEffects, issue: Issuer): (o: Outcome)
    // error precedence: missing field, then unknown email, then wrong password
    ensures MissingField(req) ==> o == BadRequest(LoginMissingFields)
    ensures !MissingField(req) && !fx.lookupThrows && req.email.value !in users
            ==> o == BadRequest(IncorrectEmail)
    ensures o == BadRequest(IncorrectPassword) <==>
              !MissingField(req) && !fx.lookupThrows && req.email.value in users && !fx.compareThrows
              && !h.compare(req.password.value, users[req.email.value].passwordHash)
    // rejections of findOne and compare produce no response
    ensures o.Unhandled? <==>
              !MissingField(req) && (fx.lookupThrows || (req.email.value in users && fx.compareThrows))
    // success: the request email and a token for the stored user's id
    ensures IsOk(o) <==> Admitted(users, req, h, fx) && issue(users[req.email.value].id).Done?
    ensures IsOk(o) ==> o == Ok(req.email.value, issue(users[req.email.value].id).value)
    // a token failure: 500 with its message
    ensures Admitted(users, req, h, fx) && issue(users[req.email.value].id).Threw?
            ==> o == ServerError(issue(users[req.email.value].id).message)
  {
    if MissingField(req) then BadRequest(LoginMissingFields)
    else if fx.lookupThrows then Unhandled(LookupStep)
    else if req.email.value !in users then BadRequest(IncorrectEmail)
    else
      var user := users[req.email.value];
      if fx.compareThrows then Unhandled(CompareStep)
      else if !h.compare(req.password.value, user.passwordHash) then BadRequest(IncorrectPassword)
      else
        match issue(user.id)
        case Threw(m) => ServerError(m)
        case Done(token) => Ok(req.email.value, token)
  }

  /** The user collection, updated in place by registration. */
  class UserCollection {
    var users: Store

    constructor ()
      ensures users == map[]
    {
      users := map[];
    }

    /** `User.findOne({ email })`. */
    method FindOne(email: Email) returns (found: Option<UserRecord>)
      ensures found.Some? <==> email in users
      ensures found.Some? ==> found.value == users[email]
    {
      if email in users {
        found := Some(users[email]);
      } else {
        found := None;
      }
    }

    /** `User.create({ email, password })`: the store either assigns `result`'s
        id and keeps the document, or rejects with `result`'s message. */
    method Create(email: Email, passwordHash: Digest, result: Attempt<UserId>) returns (created: Attempt<UserRecord>)
      modifies this
      ensures result.Done? ==> created == Done(UserRecord(result.value, passwordHash))
                               && users == old(users)[email := created.value]
      ensures result.Threw? ==> created == Threw(result.message) && users == old(users)
    {
      match result
      case Threw(m) =>
        created := Threw(m);
      case Done(id) =>
        var user := UserRecord(id, passwordHash);
        users := users[email := user];
        created := Done(user);
    }

    /** `registerUser`, step by step with early returns, against this collection. */
    method Register(req: Request, h: Hasher, fx: RegisterEffects, issue: Issuer) returns (o: Outcome)
      modifies this
      ensures o == RegisterUser(old(users), req, h, fx, issue).outcome
      ensures users == RegisterUser(old(users), req, h, fx, issue).users
    {
      if MissingField(req) {
        return BadRequest(RegisterMissingFields);
      }
      var email, password := req.email.value, req.password.value;

      if fx.lookupThrows {
        return Unhandled(LookupStep);
      }
      var exist := FindOne(email);
      if exist.Some? {
        return BadRequest(EmailInUse);
      }

      if fx.salt.Threw? {
        return Unhandled(SaltStep);
      }
      if fx.hashThrows {
        return Unhandled(HashStep);
      }
      var hashed := h.hash(password, fx.salt.value);

      // the try block: insert, then sign; either failure becomes a 500
      var created := Create(email, hashed, fx.create);
      if created.Threw? {
        return ServerError(created.message);
      }
      var token := issue(created.value.id);
      if token.Threw? {
        return ServerError(token.message);
      }
      o := Ok(email, token.value);
    }
  }
}

/** Values exchanged between the users controller and its collaborators:
    request bodies, stored user records, the password hasher, the token
    issuer and the responses the controller sends. */
module CredentialTypes {

  type Email = string
  type Password = string
  type Salt = string
  type Digest = string
  type Token = string
  /** The identifier the user store assigns on creation (a document id). */
  type UserId = string

  datatype Option<T> = None | Some(value: T)

  /** The result of an awaited collaborator call: a value, or a thrown error
      carrying its message. */
  datatype Attempt<T> = Done(value: T) | Threw(message: string)

  /** A request body `{email, password}`; a field that is absent or null is `None`. */
  datatype Request = Request(email: Option<string>, password: Option<string>)

  /** JavaScript falsiness of a body field: absent, null or the empty string. */
  predicate Falsy(field: Option<string>)
  {
    field.None? || field.value == ""
  }

  /** The guard `!email || !password` shared by both handlers. */
  predicate MissingField(req: Request)
  {
    Falsy(req.email) || Falsy(req.password)
  }

  /** A stored user document: its id and the password digest (never the plaintext). */
  datatype UserRecord = UserRecord(id: UserId, passwordHash: Digest)

  /** The user store, keyed by email. */
  type Store = map<Email, UserRecord>

  /** The password hasher: `hash` digests a password with a salt, `compare`
      checks a password against a stored digest. Both are uninterpreted. */
  datatype Hasher = Hasher(hash: (Password, Salt) -> Digest, compare: (Password, Digest) -> bool)

  /** The one property the controller relies on: every password verifies
      against its own digest, whatever salt was used. */
  ghost predicate Sound(h: Hasher)
  {
    forall p: Password, s: Salt :: h.compare(p, h.hash(p, s))
  }

  /** Token issuance for a user id; signing may throw. */
  type Issuer = UserId -> Attempt<Token>

  /** The JSON body of a response: `{email, token}` or `{error}`. */
  datatype Body = Credentials(email: Email, token: Token) | ErrorBody(error: string)

  datatype Response = Response(status: nat, body: Body)

  /** An awaited call outside any try block whose rejection escapes the handler. */
  datatype Step = LookupStep | SaltStep | HashStep | CompareStep

  /** What a handler invocation ends in: exactly one response sent, or a
      rejection that leaves the request without a response. */
  datatype Outcome = Sent(response: Response) | Unhandled(step: Step)

  function BadRequest(message: string): Outcome
  {
    Sent(Response(400, ErrorBody(message)))
  }

  function ServerError(message: string): Outcome
  {
    Sent(Response(500, ErrorBody(message)))
  }

  function Ok(email: Email, token: Token): Outcome
  {
    Sent(Response(200, Credentials(email, token)))
  }

  predicate IsOk(o: Outcome)
  {
    o.Sent? && o.response.status == 200
  }

  /** Every entry of `before` is still in `after`, with the same record. */
  ghost predicate Extends(before: Store, after: Store)
  {
    forall e :: e in before ==> e in after && after[e] == before[e]
  }
}

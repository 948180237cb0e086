/** A sequence of register and login requests handled one after another
    against the same user store, and what holds across it: users are created
    once and never changed, an email registers at most once, and registered
    credentials keep logging in. */
module RequestLog {
  import opened CredentialTypes
  import opened UsersController

  /** One request to the router's `POST /` or `POST /login`, with what
      its collaborators do while it is handled. */
  datatype Call =
    | RegisterCall(req: Request, rfx: RegisterEffects, issue: Issuer)
    | LoginCall(req: Request, lfx: LoginEffects, issue: Issuer)

  /** Dispatches one call to its handler. */
  function Handle(users: Store, h: Hasher, c: Call): (r: Handled)
    ensures Extends(users, r.users)
    ensures c.LoginCall? ==> r.users == users
  {
    match c
    case RegisterCall(req, fx, issue) => RegisterUser(users, req, h, fx, issue)
    case LoginCall(req, fx, issue) => Handled(LoginUser(users, req, h, fx, issue), users)
  }

  /** The outcome of every call, in order, and the store after the last one. */
  datatype Log = Log(outcomes: seq<Outcome>, users: Store)

  /** Handles `calls` in order, each against the store the earlier ones left. */
  function Run(users: Store, h: Hasher, calls: seq<Call>): (r: Log)
    ensures |r.outcomes| == |calls|
    ensures Extends(users, r.users)
    decreases |calls|
  {
    if calls == [] then Log([], users)
    else
      var prior := Run(users, h, calls[..|calls| - 1]);
      var last := Handle(prior.users, h, calls[|calls| - 1]);
      Log(prior.outcomes + [last.outcome], last.users)
  }

  /** Running a prefix of the calls gives a prefix of the outcomes, and the
      rest of the calls only extend the store it left. */
  lemma {:induction false} RunPrefix(users: Store, h: Hasher, calls: seq<Call>, k: nat)
    requires k <= |calls|
    ensures Run(users, h, calls[..k]).outcomes == Run(users, h, calls).outcomes[..k]
    ensures Extends(Run(users, h, calls[..k]).users, Run(users, h, calls).users)
    decreases |calls|
  {
    if k == |calls| {
      assert calls[..k] == calls;
    } else {
      var init := calls[..|calls| - 1];
      RunPrefix(users, h, init, k);
      assert init[..k] == calls[..k];
    }
  }

  /** The k-th outcome is what the k-th call gets against the store the
      first k calls left, and the store after it is the one that call leaves. */
  lemma {:induction false} OutcomeAt(users: Store, h: Hasher, calls: seq<Call>, k: nat)
    requires k < |calls|
    ensures Run(users, h, calls).outcomes[k] == Handle(Run(users, h, calls[..k]).users, h, calls[k]).outcome
    ensures Run(users, h, calls[..k + 1]).users == Handle(Run(users, h, calls[..k]).users, h, calls[k]).users
  {
    RunPrefix(users, h, calls, k + 1);
    var upto := calls[..k + 1];
    assert upto[..|upto| - 1] == calls[..k];
    assert upto[|upto| - 1] == calls[k];
  }

  /** The store left after the first j calls keeps every user present after the first i. */
  lemma StoreGrows(users: Store, h: Hasher, calls: seq<Call>, i: nat, j: nat)
    requires i <= j <= |calls|
    ensures Extends(Run(users, h, calls[..i]).users, Run(users, h, calls[..j]).users)
  {
    RunPrefix(users, h, calls[..j], i);
    assert calls[..j][..i] == calls[..i];
  }

  /** After a registration of an email succeeds, no later registration of
      that email succeeds: with a password and an answered lookup it is
      refused as already in use. */
  lemma SecondRegistrationRejected(users: Store, h: Hasher, calls: seq<Call>, i: nat, j: nat, email: Email)
    requires i < j < |calls|
    requires calls[i].RegisterCall? && calls[i].req.email == Some(email)
    requires calls[j].RegisterCall? && calls[j].req.email == Some(email)
    requires IsOk(Run(users, h, calls).outcomes[i])
    ensures !IsOk(Run(users, h, calls).outcomes[j])
    ensures !MissingField(calls[j].req) && !calls[j].rfx.lookupThrows
            ==> Run(users, h, calls).outcomes[j] == BadRequest(EmailInUse)
    ensures Run(users, h, calls[..j + 1]).users == Run(users, h, calls[..j]).users
  {
    OutcomeAt(users, h, calls, i);
    OutcomeAt(users, h, calls, j);
    StoreGrows(users, h, calls, i + 1, j);
    assert email in Run(users, h, calls[..i + 1]).users;
    assert email in Run(users, h, calls[..j]).users;
  }

  /** A user registered with `(email, password)` can log in with them at any
      later point, however many requests came between: the response carries
      the email and a token issued for the id assigned at registration. */
  lemma LoginAfterRegistration(users: Store, h: Hasher, calls: seq<Call>, i: nat, j: nat,
                               email: Email, password: Password, id: UserId)
    requires Sound(h)
    requires i < j < |calls|
    requires calls[i].RegisterCall? && calls[i].req == Request(Some(email), Some(password))
    requires IsOk(Run(users, h, calls).outcomes[i]) && calls[i].rfx.create == Done(id)
    requires calls[j].LoginCall? && calls[j].req == Request(Some(email), Some(password))
    requires !calls[j].lfx.lookupThrows && !calls[j].lfx.compareThrows
    ensures calls[j].issue(id).Done? ==>
              Run(users, h, calls).outcomes[j] == Ok(email, calls[j].issue(id).value)
    ensures calls[j].issue(id).Threw? ==>
              Run(users, h, calls).outcomes[j] == ServerError(calls[j].issue(id).message)
  {
    OutcomeAt(users, h, calls, i);
    OutcomeAt(users, h, calls, j);
    StoreGrows(users, h, calls, i + 1, j);
    var registered := NewUser(calls[i].req, h, calls[i].rfx);
    assert Run(users, h, calls[..i + 1]).users[email] == registered;
    assert Run(users, h, calls[..j]).users[email] == registered;
    assert h.compare(password, h.hash(password, calls[i].rfx.salt.value));
  }

  /** The two-request case: registering and then logging in with the same
      credentials succeeds whenever the hasher is sound and the login's
      collaborators do not fail. */
  lemma RegisterThenLogin(users: Store, email: Email, password: Password, h: Hasher,
                          rfx: RegisterEffects, rissue: Issuer, lfx: LoginEffects, lissue: Issuer)
    requires Sound(h)
    requires IsOk(RegisterUser(users, Request(Some(email), Some(password)), h, rfx, rissue).outcome)
    requires !lfx.lookupThrows && !lfx.compareThrows && lissue(rfx.create.value).Done?
    ensures LoginUser(RegisterUser(users, Request(Some(email), Some(password)), h, rfx, rissue).users,
                      Request(Some(email), Some(password)), h, lfx, lissue)
            == Ok(email, lissue(rfx.create.value).value)
  {
    var req := Request(Some(email), Some(password));
    var calls := [RegisterCall(req, rfx, rissue), LoginCall(req, lfx, lissue)];
    OutcomeAt(users, h, calls, 0);
    OutcomeAt(users, h, calls, 1);
    assert calls[..0] == [];
    assert calls[..1] == [calls[0]];
    LoginAfterRegistration(users, h, calls, 0, 1, email, password, rfx.create.value);
  }
}

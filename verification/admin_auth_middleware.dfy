/**
 * `protectAdmin` and `admin`, the two guards every admin CRUD route runs, in that
 * order, before its handler.
 */
module AdminAuthMiddleware {
  import opened Wrappers
  import opened Users
  import opened Http
  import opened AuthMiddleware

  /** `protectAdmin`'s decision: 403 without a bearer header, 401 when verification
      fails, 404 when the token's account is gone; otherwise the account is admitted. */
  function ProtectAdminDecision(header: Option<string>, users: map<Id, User>, crypto: Crypto): (d: Decision)
    ensures d == Deny(403, "Access denied, token missing") <==> ReadBearer(header).NoBearer?
    ensures d == Deny(401, "Invalid or expired token") <==>
      ReadBearer(header).Token? && Verify(ReadBearer(header).field, crypto).None?
    ensures d == Deny(404, "Admin not found") <==>
      ReadBearer(header).Token? && Verify(ReadBearer(header).field, crypto).Some?
      && Verify(ReadBearer(header).field, crypto).value !in users
    ensures d.Admit? ==>
      var id := Verify(ReadBearer(header).field, crypto).value;
      ReadBearer(header).Token? && id in users && d.account == Some(Public(id, users[id]))
    ensures ReadBearer(header).Token? && Verify(ReadBearer(header).field, crypto).Some?
            && Verify(ReadBearer(header).field, crypto).value in users ==>
      var id := Verify(ReadBearer(header).field, crypto).value;
      d == Admit(Some(Public(id, users[id])))
  {
    match ReadBearer(header)
    case NoBearer => Deny(403, "Access denied, token missing")
    case Token(field) =>
      match Verify(field, crypto)
      case None => Deny(401, "Invalid or expired token")
      case Some(id) =>
        if id !in users then Deny(404, "Admin not found") else Admit(Some(Public(id, users[id])))
  }

  /** `protectAdmin`: on admission `req.admin` is set and `next()` runs. */
  method ProtectAdmin(req: Request, users: map<Id, User>, crypto: Crypto) returns (out: Outcome)
    modifies req`admin
    ensures match ProtectAdminDecision(req.authorization, users, crypto)
      case Deny(status, message) => out == Reply(Response(status, MessageBody(message))) && req.admin == old(req.admin)
      case Admit(account) => out == Next && req.admin == account
  {
    var d := ProtectAdminDecision(req.authorization, users, crypto);
    match d
    case Deny(status, message) =>
      out := Reply(Response(status, MessageBody(message)));
    case Admit(account) =>
      req.admin := account;
      out := Next;
  }

  /** `admin`: the privilege gate on what `protectAdmin` attached. */
  function AdminGate(admin: Option<PublicUser>): (out: Outcome)
    ensures out == Next <==> admin.Some? && admin.value.isAdmin
    ensures out != Next ==> out == Reply(Response(403, MessageBody("Access denied, admin privileges required")))
  {
    if admin.Some? && admin.value.isAdmin then Next
    else Reply(Response(403, MessageBody("Access denied, admin privileges required")))
  }

  /** The chain of an admin CRUD route, `protectAdmin` then `admin`: `Next` means the
      handler runs. */
  function AdminRoute(header: Option<string>, users: map<Id, User>, crypto: Crypto): (out: Outcome)
    ensures out == Next <==>
      ReadBearer(header).Token? && Verify(ReadBearer(header).field, crypto).Some?
      && Verify(ReadBearer(header).field, crypto).value in users
      && users[Verify(ReadBearer(header).field, crypto).value].isAdmin
  {
    match ProtectAdminDecision(header, users, crypto)
    case Deny(status, message) => Reply(Response(status, MessageBody(message)))
    case Admit(account) => AdminGate(account)
  }

  /** A valid token for an account without the admin flag gets through `protect` but
      never reaches an admin handler: the chain answers 403. */
  lemma NonAdminStoppedAtGate(header: Option<string>, users: map<Id, User>, crypto: Crypto)
    requires ReadBearer(header).Token? && Verify(ReadBearer(header).field, crypto).Some?
    requires Verify(ReadBearer(header).field, crypto).value in users
    requires !users[Verify(ReadBearer(header).field, crypto).value].isAdmin
    ensures ProtectDecision(header, users, crypto).Admit?
    ensures AdminRoute(header, users, crypto) == Reply(Response(403, MessageBody("Access denied, admin privileges required")))
  {
  }

  /** The header `"Bearer "` passes the prefix test but carries an empty token: both guards
      refuse it as a failed verification, whatever the secret. */
  lemma EmptyTokenRefused(users: map<Id, User>, crypto: Crypto)
    ensures ProtectDecision(Some("Bearer "), users, crypto) == Deny(401, "Not authorized, token failed")
    ensures ProtectAdminDecision(Some("Bearer "), users, crypto) == Deny(401, "Invalid or expired token")
  {
    BearerTokenRead("");
    assert "Bearer " + "" == "Bearer ";
  }

  /** The two guards answer a missing token and a vanished account differently. */
  lemma GuardsDiffer(header: Option<string>, users: map<Id, User>, crypto: Crypto)
    ensures ReadBearer(header).NoBearer? ==>
      ProtectDecision(header, users, crypto).status == 401 && ProtectAdminDecision(header, users, crypto).status == 403
    ensures ReadBearer(header).Token? && Verify(ReadBearer(header).field, crypto).Some?
            && Verify(ReadBearer(header).field, crypto).value !in users ==>
      ProtectDecision(header, users, crypto) == Admit(None)
      && ProtectAdminDecision(header, users, crypto) == Deny(404, "Admin not found")
  {
  }
}

/**
 * `protect`, the guard in front of the end-user routes: read the bearer token,
 * verify it, and attach the account (without its password) to the request.
 */
module AuthMiddleware {
  import opened Wrappers
  import opened Text
  import opened Users
  import opened Http

  /** A middleware either passes the request on (`next()`) or answers it; never both. */
  datatype Outcome = Next | Reply(response: Response)

  /** An incoming request: its `Authorization` header and the slots the guards fill. */
  class Request {
    const authorization: Option<string>
    var user: Option<PublicUser>
    var admin: Option<PublicUser>

    constructor (authorization: Option<string>)
      ensures this.authorization == authorization && user.None? && admin.None?
    {
      this.authorization := authorization;
      user := None;
      admin := None;
    }
  }

  /** The header test shared by both guards: absent, or not starting with `"Bearer"`,
      gives `NoBearer`; otherwise the token is the second space-separated field. */
  datatype Bearer = NoBearer | Token(field: Option<string>)

  function ReadBearer(header: Option<string>): (b: Bearer)
    ensures b.NoBearer? <==> header.None? || !StartsWith(header.value, "Bearer")
    ensures b.Token? ==> b.field == Field(header.value, ' ', 1)
  {
    if header.Some? && StartsWith(header.value, "Bearer") then Token(Field(header.value, ' ', 1))
    else NoBearer
  }

  /** For `Bearer <t>` with a space-free `t`, the token read is exactly `t`. */
  lemma BearerTokenRead(t: string)
    requires ' ' !in t
    ensures ReadBearer(Some("Bearer " + t)) == Token(Some(t))
  {
    var parts := ["Bearer", t];
    assert Join(parts, ' ') == "Bearer " + t by {
      assert Join(parts[1..], ' ') == t;
    }
    assert ' ' !in parts[0];
    SplitJoin(parts, ' ');
    assert StartsWith("Bearer " + t, "Bearer") by {
      assert ("Bearer " + t)[..6] == "Bearer";
    }
  }

  /** `jwt.verify` on the field read. A missing or empty field is refused before the
      signature is looked at ("jwt must be provided"), as a bad token is. */
  function Verify(field: Option<string>, crypto: Crypto): (id: Option<Id>)
    ensures field.None? || field == Some("") ==> id.None?
    ensures field.Some? && field.value != "" ==> id == crypto.verify(field.value)
  {
    if field.None? || field.value == "" then None else crypto.verify(field.value)
  }

  /** What a guard decides: refuse with a status and message, or admit with the account it found. */
  datatype Decision = Deny(status: nat, message: string) | Admit(account: Option<PublicUser>)

  /** The token's account, password removed; `None` when it no longer exists. */
  function Lookup(users: map<Id, User>, id: Id): (r: Option<PublicUser>)
    ensures r.Some? <==> id in users
    ensures r.Some? ==> r.value.id == id && r.value.email == users[id].email && r.value.isAdmin == users[id].isAdmin
  {
    if id in users then Some(Public(id, users[id])) else None
  }

  /** `protect`'s decision. Every refusal is a 401; a verified token is admitted even when
      its account no longer exists, with no account attached. */
  function ProtectDecision(header: Option<string>, users: map<Id, User>, crypto: Crypto): (d: Decision)
    ensures d.Deny? ==> d.status == 401
    ensures d == Deny(401, "Not authorized, no token") <==> ReadBearer(header).NoBearer?
    ensures d == Deny(401, "Not authorized, token failed") <==>
      ReadBearer(header).Token? && Verify(ReadBearer(header).field, crypto).None?
    ensures d.Admit? <==> ReadBearer(header).Token? && Verify(ReadBearer(header).field, crypto).Some?
    ensures d.Admit? ==>
      var id := Verify(ReadBearer(header).field, crypto).value;
      && (id in users ==> d.account == Some(Public(id, users[id])))
      && (id !in users ==> d.account.None?)
  {
    match ReadBearer(header)
    case NoBearer => Deny(401, "Not authorized, no token")
    case Token(field) =>
      match Verify(field, crypto)
      case None => Deny(401, "Not authorized, token failed")
      case Some(id) => Admit(Lookup(users, id))
  }

  /** `protect`: on admission `req.user` is set and `next()` runs; otherwise one response
      is sent and the request is left as it was. */
  method Protect(req: Request, users: map<Id, User>, crypto: Crypto) returns (out: Outcome)
    modifies req`user
    ensures match ProtectDecision(req.authorization, users, crypto)
      case Deny(status, message) => out == Reply(Response(status, MessageBody(message))) && req.user == old(req.user)
      case Admit(account) => out == Next && req.user == account
  {
    var d := ProtectDecision(req.authorization, users, crypto);
    match d
    case Deny(status, message) =>
      out := Reply(Response(status, MessageBody(message)));
    case Admit(account) =>
      req.user := account;
      out := Next;
  }
}

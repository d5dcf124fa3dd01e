/**
 * The user collection as the controllers see it through Mongoose: documents
 * keyed by id, a unique index on `email`, and `select("-password")`.
 */
module Users {
  import opened Wrappers

  type Id = nat

  /** A stored user document. The password is kept only as its bcrypt hash. */
  datatype User = User(
    name: string,
    email: string,
    passwordHash: string,
    isAdmin: bool,
    profileImage: Option<string>,
    createdAt: nat,
    updatedAt: nat)

  /** A document without its password: the shape of `select("-password")` and of the
      `user` object the controllers put in their responses. It has no password field at all. */
  datatype PublicUser = PublicUser(
    id: Id,
    name: string,
    email: string,
    isAdmin: bool,
    profileImage: Option<string>,
    createdAt: nat,
    updatedAt: nat)

  function Public(id: Id, u: User): (r: PublicUser)
    ensures r.id == id && r.email == u.email && r.isAdmin == u.isAdmin
  {
    PublicUser(id, u.name, u.email, u.isAdmin, u.profileImage, u.createdAt, u.updatedAt)
  }

  /** The projection forgets the password hash and nothing else: two documents under the
      same id project alike exactly when they differ at most in their hash. */
  lemma PublicForgetsOnlyPassword(id: Id, u: User, v: User)
    ensures Public(id, u) == Public(id, v) <==> u.(passwordHash := v.passwordHash) == v
  {
    if Public(id, u) == Public(id, v) {
      assert Public(id, u).name == u.name && Public(id, v).name == v.name;
      assert Public(id, u).profileImage == u.profileImage && Public(id, v).profileImage == v.profileImage;
      assert Public(id, u).createdAt == u.createdAt && Public(id, v).createdAt == v.createdAt;
      assert Public(id, u).updatedAt == u.updatedAt && Public(id, v).updatedAt == v.updatedAt;
    }
  }

  /** The foreign collaborators: bcrypt's `hash` (whose `compare(p, h)` is `hash(p) == h`),
      and jsonwebtoken's `sign` over a user id and `verify`, which yields the id a token
      carries or nothing when it throws (bad signature, expired, malformed). */
  datatype Crypto = Crypto(hash: string -> string, sign: Id -> string, verify: string -> Option<Id>)

  /** `bcrypt.compare(password, hash)` */
  predicate PasswordMatches(crypto: Crypto, password: string, hash: string)
    ensures PasswordMatches(crypto, password, hash) <==> hash == crypto.hash(password)
  {
    crypto.hash(password) == hash
  }

  /** What the unique index on `email` guarantees. */
  predicate UniqueEmails(users: map<Id, User>) {
    forall a, b :: a in users && b in users && users[a].email == users[b].email ==> a == b
  }

  predicate EmailTaken(users: map<Id, User>, email: string) {
    exists id :: id in users && users[id].email == email
  }

  /** Some document other than `id` holds `email`: saving `email` under `id` breaks the index. */
  predicate EmailHeldByOther(users: map<Id, User>, id: Id, email: string) {
    exists other :: other in users && other != id && users[other].email == email
  }

  /** `User.findOne({ email })` */
  function FindOne(users: map<Id, User>, email: string): (r: Option<Id>)
    requires UniqueEmails(users)
    ensures r.Some? <==> EmailTaken(users, email)
    ensures r.Some? ==> r.value in users && users[r.value].email == email
  {
    if EmailTaken(users, email) then
      Some(var id :| id in users && users[id].email == email; id)
    else
      None
  }

  /** The Mongoose model `User`: the documents and the id generator. */
  class UserCollection {
    var docs: map<Id, User>
    var nextId: Id

    ghost predicate Valid()
      reads this
    {
      UniqueEmails(docs) && forall id :: id in docs ==> id < nextId
    }

    constructor ()
      ensures Valid() && docs == map[]
    {
      docs := map[];
      nextId := 0;
    }

    /** `User.findById(id)` */
    method FindById(id: Id) returns (u: Option<User>)
      ensures u.Some? <==> id in docs
      ensures u.Some? ==> u.value == docs[id]
    {
      u := if id in docs then Some(docs[id]) else None;
    }

    /** `User.create(u)`, called only once the email has been found free. */
    method Create(u: User) returns (id: Id)
      requires Valid() && !EmailTaken(docs, u.email)
      modifies this
      ensures Valid()
      ensures id == old(nextId) && id !in old(docs)
      ensures docs == old(docs)[id := u]
    {
      id := nextId;
      docs := docs[id := u];
      nextId := nextId + 1;
    }

    /** `doc.save()` for an existing document; the unique index refuses an email
        another document holds (MongoDB error code 11000), leaving the collection as it was. */
    method Save(id: Id, u: User) returns (ok: bool)
      requires Valid() && id in docs
      modifies this
      ensures Valid() && nextId == old(nextId)
      ensures ok == !EmailHeldByOther(old(docs), id, u.email)
      ensures docs == if ok then old(docs)[id := u] else old(docs)
    {
      ok := !EmailHeldByOther(docs, id, u.email);
      if ok {
        docs := docs[id := u];
      }
    }

    /** `User.findByIdAndDelete(id)` */
    method Delete(id: Id)
      requires Valid()
      modifies this
      ensures Valid() && nextId == old(nextId)
      ensures docs == old(docs) - {id}
    {
      docs := docs - {id};
    }
  }
}

/** The JSON responses the controllers send, and the shared `catch` block. */
module Http {
  import opened Users

  /** The `admin` object of an admin login response; the source spells its last key `updatedAT`. */
  datatype AdminView = AdminView(email: string, isAdmin: bool, id: Id, createdAt: nat, updatedAT: nat)

  datatype Body =
    | ErrorBody(error: string)                                    // { error }
    | MessageBody(message: string)                                // { message }
    | ValidationBody(messages: seq<string>)                       // { message: [...] }
    | ThrownBody(json: string)                                    // { message: error }, `json` the error as JSON
    | SessionBody(message: string, token: string, user: PublicUser) // { message, token, user }
    | UserBody(message: string, user: PublicUser)                // { message, user }
    | AdminSessionBody(message: string, token: string, admin: AdminView)
    | ListBody(data: seq<PublicUser>)                             // { data }

  datatype Response = Response(status: nat, body: Body)

  /** What a store call can throw: a schema `ValidationError` with its messages, a
      duplicate-key error (code 11000, as when `create` loses a race for an email that
      `findOne` found free), or anything else. Express writes a response with `JSON.stringify`,
      which keeps only an error's enumerable own fields, so anything else is given by the
      JSON text of those fields. */
  datatype StoreError = ValidationError(messages: seq<string>) | DuplicateKeyError | OtherError(json: string)

  /** `JSON.stringify` of a plain `Error` or `TypeError`: its `name`, `message` and `stack`
      are not enumerable, so nothing of it reaches the response. */
  const PlainErrorJson := "{}"

  /** The `catch` block shared by the user controllers and by `addUser` and `updateUser`:
      a validation error is answered 400 with its messages, a duplicate key 400 "Email already
      exists", and anything else 500 with the error, as `JSON.stringify` renders it, in the body. */
  function Caught(e: StoreError): (r: Response)
    ensures r.status == 400 <==> !e.OtherError?
    ensures e.ValidationError? ==> r == Response(400, ValidationBody(e.messages))
    ensures e.DuplicateKeyError? ==> r == DuplicateKey
    ensures e.OtherError? ==> r == Response(500, ThrownBody(e.json))
  {
    match e
    case ValidationError(messages) => Response(400, ValidationBody(messages))
    case DuplicateKeyError => DuplicateKey
    case OtherError(json) => Response(500, ThrownBody(json))
  }

  /** The same block's answer to error code 11000. */
  const DuplicateKey := Response(400, MessageBody("Email already exists"))

  const UserNotFound := Response(404, MessageBody("User not found"))
}

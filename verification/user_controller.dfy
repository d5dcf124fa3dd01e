/**
 * The end-user controllers: `register`, `login`, `updateData` and `updateProfile`.
 * The check chain and the login decision are functions of a snapshot of the
 * collection; the operations that write go through `UserCollection`.
 */
module UserController {
  import opened Wrappers
  import opened Users
  import opened Http
  import opened Email

  /** The `{ name, email, password }` request body; `None` is an absent field. */
  datatype AccountForm = AccountForm(name: Option<string>, email: Option<string>, password: Option<string>)

  /** JavaScript truthiness of a body field that is a string or absent. */
  predicate Truthy(field: Option<string>) {
    field.Some? && field.value != ""
  }

  predicate FieldsPresent(f: AccountForm) {
    Truthy(f.name) && Truthy(f.email) && Truthy(f.password)
  }

  /** Why a new account is refused, in the order the checks run. */
  datatype Rejection = MissingFields | BadEmail | ShortPassword | EmailInUse

  /** The check chain of `register` (and of the admin's `addUser`): the first failing
      check decides, and the collection is consulted only by the last one. */
  function AccountCheck(f: AccountForm, users: map<Id, User>): (r: Option<Rejection>)
    ensures r == Some(MissingFields) <==> !FieldsPresent(f)
    ensures r == Some(BadEmail) <==> FieldsPresent(f) && !ValidEmail(f.email.value)
    ensures r == Some(ShortPassword) <==>
      FieldsPresent(f) && ValidEmail(f.email.value) && |f.password.value| < 6
    ensures r == Some(EmailInUse) <==>
      FieldsPresent(f) && ValidEmail(f.email.value) && |f.password.value| >= 6
      && EmailTaken(users, f.email.value)
    ensures r == None <==>
      FieldsPresent(f) && ValidEmail(f.email.value) && |f.password.value| >= 6
      && !EmailTaken(users, f.email.value)
  {
    if !Truthy(f.name) || !Truthy(f.email) || !Truthy(f.password) then Some(MissingFields)
    else if !ValidEmail(f.email.value) then Some(BadEmail)
    else if |f.password.value| < 6 then Some(ShortPassword)
    else if EmailTaken(users, f.email.value) then Some(EmailInUse)
    else None
  }

  /** Only the last check looks at the collection: two snapshots can change the outcome
      only between acceptance and "already exists". */
  lemma StoreConsultedLast(f: AccountForm, users1: map<Id, User>, users2: map<Id, User>)
    ensures AccountCheck(f, users1) != AccountCheck(f, users2) ==>
      AccountCheck(f, users1) in {None, Some(EmailInUse)} && AccountCheck(f, users2) in {None, Some(EmailInUse)}
  {
  }

  /** The document `register` and `addUser` create: a non-admin holding the password's hash. */
  function NewAccount(f: AccountForm, crypto: Crypto, now: nat): (u: User)
    requires FieldsPresent(f)
    ensures !u.isAdmin && u.passwordHash == crypto.hash(f.password.value)
    ensures u.name == f.name.value && u.email == f.email.value && u.profileImage.None?
  {
    User(f.name.value, f.email.value, crypto.hash(f.password.value), false, None, now, now)
  }

  /** Once an account exists, a second one with the same email is refused as a duplicate,
      whatever its name and password. */
  lemma SecondRegistrationRefused(users: map<Id, User>, id: Id, first: AccountForm, second: AccountForm,
                                  crypto: Crypto, now: nat)
    requires AccountCheck(first, users).None?
    requires Truthy(second.name) && Truthy(second.password) && |second.password.value| >= 6
    requires second.email == first.email
    ensures AccountCheck(second, users[id := NewAccount(first, crypto, now)]) == Some(EmailInUse)
  {
    var users' := users[id := NewAccount(first, crypto, now)];
    assert users'[id].email == second.email.value;
  }

  /** The 400 answers of `register` to a failed check. */
  function RegisterRejection(r: Rejection): (res: Response)
    ensures res.status == 400
    ensures res.body == ErrorBody("please provide all required fields") <==> r == MissingFields
    ensures res.body == ErrorBody("Invalid email format.") <==> r == BadEmail
    ensures res.body == ErrorBody("Password must be at least 6 characters long.") <==> r == ShortPassword
    ensures res.body == MessageBody("User already exists") <==> r == EmailInUse
  {
    match r
    case MissingFields => Response(400, ErrorBody("please provide all required fields"))
    case BadEmail => Response(400, ErrorBody("Invalid email format."))
    case ShortPassword => Response(400, ErrorBody("Password must be at least 6 characters long."))
    case EmailInUse => Response(400, MessageBody("User already exists"))
  }

  /** `register`. `thrown` is what `bcrypt.hash` or `User.create` throws, if anything. */
  method Register(db: UserCollection, form: AccountForm, crypto: Crypto, now: nat, thrown: Option<StoreError>)
    returns (res: Response)
    requires db.Valid()
    modifies db
    ensures db.Valid()
    ensures AccountCheck(form, old(db.docs)).Some? ==>
      res == RegisterRejection(AccountCheck(form, old(db.docs)).value) && db.docs == old(db.docs)
    ensures AccountCheck(form, old(db.docs)).None? && thrown.Some? ==>
      res == Caught(thrown.value) && db.docs == old(db.docs)
    ensures AccountCheck(form, old(db.docs)).None? && thrown.None? ==>
      var id := old(db.nextId);
      && id !in old(db.docs)
      && db.docs == old(db.docs)[id := NewAccount(form, crypto, now)]
      && res == Response(201, SessionBody("User registered successfully", crypto.sign(id), Public(id, db.docs[id])))
  {
    var check := AccountCheck(form, db.docs);
    if check.Some? {
      return RegisterRejection(check.value);
    }
    if thrown.Some? {
      return Caught(thrown.value);
    }
    var id := db.Create(NewAccount(form, crypto, now));
    res := Response(201, SessionBody("User registered successfully", crypto.sign(id), Public(id, db.docs[id])));
  }

  /** `login`: a lookup by email, then the hash comparison. */
  function Login(users: map<Id, User>, email: string, password: string, crypto: Crypto): (r: Response)
    requires UniqueEmails(users)
    ensures r.status == 200 || r.status == 401
    ensures r.status == 200 <==>
      exists id :: id in users && users[id].email == email && PasswordMatches(crypto, password, users[id].passwordHash)
    ensures !EmailTaken(users, email) ==> r == Response(401, MessageBody("Invalid email or password"))
    ensures EmailTaken(users, email) && r.status == 401 ==>
      r == Response(401, MessageBody("Password wrong.please try agian"))
    ensures r.status == 200 ==>
      && r.body.SessionBody?
      && r.body.user.id in users
      && r.body.user == Public(r.body.user.id, users[r.body.user.id])
      && r.body.user.email == email
      && r.body.token == crypto.sign(r.body.user.id)
  {
    match FindOne(users, email)
    case None => Response(401, MessageBody("Invalid email or password"))
    case Some(id) =>
      if !PasswordMatches(crypto, password, users[id].passwordHash) then
        Response(401, MessageBody("Password wrong.please try agian"))
      else
        Response(200, SessionBody("Login successful", crypto.sign(id), Public(id, users[id])))
  }

  /** The two failed logins answer differently, so the response tells whether the email is registered. */
  lemma LoginRevealsRegisteredEmail(users: map<Id, User>, unknown: string, known: string,
                                    p1: string, p2: string, crypto: Crypto)
    requires UniqueEmails(users)
    requires !EmailTaken(users, unknown)
    requires EmailTaken(users, known) && Login(users, known, p2, crypto).status == 401
    ensures Login(users, unknown, p1, crypto) != Login(users, known, p2, crypto)
  {
  }

  /** The partial update of `updateData` and `updateUser`: `name` and `email` change only when
      a non-empty value is supplied, and `save` stamps `updatedAt`; nothing else changes. */
  function Patch(u: User, name: Option<string>, email: Option<string>, now: nat): (r: User)
    ensures r.name == (if Truthy(name) then name.value else u.name)
    ensures r.email == (if Truthy(email) then email.value else u.email)
    ensures r.passwordHash == u.passwordHash && r.isAdmin == u.isAdmin
    ensures r.profileImage == u.profileImage && r.createdAt == u.createdAt
    ensures r.updatedAt == now
  {
    var named := if Truthy(name) then u.(name := name.value) else u;
    var mailed := if Truthy(email) then named.(email := email.value) else named;
    mailed.(updatedAt := now)
  }

  /** `updateData` (also the body of the admin's `updateUser`). `thrown` is a `ValidationError`
      or other failure of `save`; a taken email is refused by the unique index. */
  method UpdateData(db: UserCollection, id: Id, name: Option<string>, email: Option<string>,
                    now: nat, thrown: Option<StoreError>)
    returns (res: Response)
    requires db.Valid()
    modifies db
    ensures db.Valid()
    ensures id !in old(db.docs) ==> res == UserNotFound && db.docs == old(db.docs)
    ensures id in old(db.docs) ==>
      var edited := Patch(old(db.docs)[id], name, email, now);
      if thrown.Some? then
        res == Caught(thrown.value) && db.docs == old(db.docs)
      else if EmailHeldByOther(old(db.docs), id, edited.email) then
        res == DuplicateKey && db.docs == old(db.docs)
      else
        db.docs == old(db.docs)[id := edited]
        && res == Response(200, UserBody("User updated successfully", Public(id, edited)))
  {
    var found := db.FindById(id);
    if found.None? {
      return UserNotFound;
    }
    var edited := Patch(found.value, name, email, now);
    if thrown.Some? {
      return Caught(thrown.value);
    }
    var ok := db.Save(id, edited);
    if !ok {
      return DuplicateKey;
    }
    res := Response(200, UserBody("User updated successfully", Public(id, edited)));
  }

  /** `updateProfile`, behind `protect`. `reqUser` is what `protect` attached (`None` when the
      token's account no longer exists), `file` the upload's path, `thrown` a failure of `save`
      (which skips validation), as the JSON text of its enumerable fields. Dereferencing a missing
      `req.user` or `req.file` throws a TypeError, which reaches the response as an empty object. */
  method UpdateProfile(db: UserCollection, reqUser: Option<PublicUser>, file: Option<string>,
                       now: nat, thrown: Option<string>)
    returns (res: Response)
    requires db.Valid()
    modifies db
    ensures db.Valid()
    ensures reqUser.None? ==> res == Response(500, ThrownBody(PlainErrorJson)) && db.docs == old(db.docs)
    ensures reqUser.Some? && reqUser.value.id !in old(db.docs) ==>
      res == UserNotFound && db.docs == old(db.docs)
    ensures reqUser.Some? && reqUser.value.id in old(db.docs) ==>
      var id := reqUser.value.id;
      if file.None? then
        res == Response(500, ThrownBody(PlainErrorJson)) && db.docs == old(db.docs)
      else if thrown.Some? then
        res == Response(500, ThrownBody(thrown.value)) && db.docs == old(db.docs)
      else
        && db.docs == old(db.docs)[id := old(db.docs)[id].(profileImage := Some(file.value), updatedAt := now)]
        && res == Response(200, UserBody("Profile image uploaded successfully", Public(id, db.docs[id])))
  {
    if reqUser.None? {
      return Response(500, ThrownBody(PlainErrorJson));
    }
    var id := reqUser.value.id;
    var found := db.FindById(id);
    if found.None? {
      return UserNotFound;
    }
    if file.None? {
      return Response(500, ThrownBody(PlainErrorJson));
    }
    if thrown.Some? {
      return Response(500, ThrownBody(thrown.value));
    }
    var updated := found.value.(profileImage := Some(file.value), updatedAt := now);
    var ok := db.Save(id, updated);
    assert ok;
    res := Response(200, UserBody("Profile image uploaded successfully", Public(id, updated)));
  }
}

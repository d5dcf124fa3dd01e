/**
 * The admin controllers: `adminLogin`, `dataFetching`, `addUser`, `updateUser`
 * and `deleteUser`, over the same collection as the user controllers.
 */
module AdminController {
  import opened Wrappers
  import opened Users
  import opened Http
  import UserController

  /** `adminLogin`: lookup by email, then the admin flag, then the hash comparison. */
  function AdminLogin(users: map<Id, User>, email: string, password: string, crypto: Crypto): (r: Response)
    requires UniqueEmails(users)
    ensures r.status == 200 || r.status == 401
    ensures r.status == 200 <==>
      exists id :: id in users && users[id].email == email && users[id].isAdmin
                   && PasswordMatches(crypto, password, users[id].passwordHash)
    ensures !EmailTaken(users, email) ==> r == Response(401, MessageBody("Invalid email or password"))
    ensures (exists id :: id in users && users[id].email == email && !users[id].isAdmin) ==>
      r == Response(401, MessageBody("Access denied. Admin privileges required."))
    ensures (exists id :: id in users && users[id].email == email && users[id].isAdmin
                          && !PasswordMatches(crypto, password, users[id].passwordHash)) ==>
      r == Response(401, MessageBody("Admin login failed: Password mismatch"))
    ensures r.status == 200 ==>
      && r.body.AdminSessionBody?
      && var id := r.body.admin.id;
      && id in users && users[id].email == email
      && r.body.admin == AdminView(email, true, id, users[id].createdAt, users[id].updatedAt)
      && r.body.token == crypto.sign(id)
  {
    match FindOne(users, email)
    case None => Response(401, MessageBody("Invalid email or password"))
    case Some(id) =>
      var admin := users[id];
      if !admin.isAdmin then
        Response(401, MessageBody("Access denied. Admin privileges required."))
      else if !PasswordMatches(crypto, password, admin.passwordHash) then
        Response(401, MessageBody("Admin login failed: Password mismatch"))
      else
        Response(200, AdminSessionBody("Admin Login successful", crypto.sign(id),
                                       AdminView(admin.email, admin.isAdmin, id, admin.createdAt, admin.updatedAt)))
  }

  /** The admin flag is checked before the password: a non-admin account gets the same
      answer whatever password is sent. */
  lemma NonAdminPasswordIrrelevant(users: map<Id, User>, email: string, p1: string, p2: string, crypto: Crypto)
    requires UniqueEmails(users)
    requires exists id :: id in users && users[id].email == email && !users[id].isAdmin
    ensures AdminLogin(users, email, p1, crypto) == AdminLogin(users, email, p2, crypto)
  {
  }

  /** `id` is among `keys`, and no document in `keys` was created after it. */
  ghost predicate IsNewest(users: map<Id, User>, keys: set<Id>, id: Id)
    requires keys <= users.Keys
  {
    id in keys && forall o :: o in keys ==> users[o].createdAt <= users[id].createdAt
  }

  lemma {:induction false} NewestExists(users: map<Id, User>, keys: set<Id>)
    requires keys != {} && keys <= users.Keys
    ensures exists id :: IsNewest(users, keys, id)
    decreases |keys|
  {
    var some :| some in keys;
    var rest := keys - {some};
    if rest == {} {
      assert keys == {some};
      assert IsNewest(users, keys, some);
    } else {
      NewestExists(users, rest);
      var best :| IsNewest(users, rest, best);
      if users[some].createdAt <= users[best].createdAt {
        assert IsNewest(users, keys, best);
      } else {
        assert IsNewest(users, keys, some);
      }
    }
  }

  /** The document `sort({ createdAt: -1 })` puts first among `keys` (one of them, on a tie). */
  ghost function Newest(users: map<Id, User>, keys: set<Id>): (id: Id)
    requires keys != {} && keys <= users.Keys
    ensures IsNewest(users, keys, id)
  {
    NewestExists(users, keys);
    var id :| IsNewest(users, keys, id);
    id
  }

  /** The documents of `keys`, newest first, without their passwords. */
  ghost function ListOf(users: map<Id, User>, keys: set<Id>): (r: seq<PublicUser>)
    requires keys <= users.Keys
    ensures |r| == |keys|
    ensures forall k :: 0 <= k < |r| ==> r[k].id in keys && r[k] == Public(r[k].id, users[r[k].id])
    decreases |keys|
  {
    if keys == {} then []
    else
      var id := Newest(users, keys);
      [Public(id, users[id])] + ListOf(users, keys - {id})
  }

  /** `User.find({}).select("-password").sort({ createdAt: -1 })`: each entry is a stored
      document without its password; `ListCoversAll` and `ListNewestFirst` give the rest. */
  ghost function ListUsers(users: map<Id, User>): (r: seq<PublicUser>)
    ensures |r| == |users|
    ensures forall k :: 0 <= k < |r| ==> r[k].id in users && r[k] == Public(r[k].id, users[r[k].id])
  {
    assert |users.Keys| == |users|;
    ListOf(users, users.Keys)
  }

  /** Some entry of `r` is the document `id`. */
  predicate Listed(r: seq<PublicUser>, id: Id) {
    exists k :: 0 <= k < |r| && r[k].id == id
  }

  lemma {:induction false} ListOfCovers(users: map<Id, User>, keys: set<Id>)
    requires keys <= users.Keys
    ensures forall id :: id in keys ==> Listed(ListOf(users, keys), id)
    decreases |keys|
  {
    if keys != {} {
      var top := Newest(users, keys);
      var rest := keys - {top};
      ListOfCovers(users, rest);
      var r := ListOf(users, keys);
      var tail := ListOf(users, rest);
      assert r == [Public(top, users[top])] + tail;
      forall id | id in keys ensures Listed(r, id) {
        if id == top {
          assert r[0].id == id;
        } else {
          assert id in rest;
          assert Listed(tail, id);
          var k :| 0 <= k < |tail| && tail[k].id == id;
          assert r[k + 1].id == id;
        }
      }
    }
  }

  /** Every stored document appears in the listing. */
  lemma ListCoversAll(users: map<Id, User>)
    ensures forall id :: id in users ==> Listed(ListUsers(users), id)
  {
    ListOfCovers(users, users.Keys);
  }

  lemma {:induction false} ListOfNewestFirst(users: map<Id, User>, keys: set<Id>)
    requires keys <= users.Keys
    ensures forall a, b :: 0 <= a < b < |ListOf(users, keys)| ==> ListOf(users, keys)[a].createdAt >= ListOf(users, keys)[b].createdAt
    decreases |keys|
  {
    if keys != {} {
      var top := Newest(users, keys);
      var rest := keys - {top};
      ListOfNewestFirst(users, rest);
      var r := ListOf(users, keys);
      var tail := ListOf(users, rest);
      assert r == [Public(top, users[top])] + tail;
      forall a, b | 0 <= a < b < |r| ensures r[a].createdAt >= r[b].createdAt {
        assert r[b] == tail[b - 1];
        if a > 0 {
          assert r[a] == tail[a - 1];
        } else {
          assert tail[b - 1].id in keys;
        }
      }
    }
  }

  /** The listing is ordered by `createdAt`, newest first. */
  lemma ListNewestFirst(users: map<Id, User>)
    ensures forall a, b :: 0 <= a < b < |ListUsers(users)| ==> ListUsers(users)[a].createdAt >= ListUsers(users)[b].createdAt
  {
    ListOfNewestFirst(users, users.Keys);
  }

  /** `dataFetching`; `failed` stands for a store failure while reading. */
  ghost function DataFetching(users: map<Id, User>, failed: bool): (r: Response)
    ensures failed ==> r == Response(500, MessageBody("Server error while fetching users"))
    ensures !failed ==> r == Response(200, ListBody(ListUsers(users))) && |r.body.data| == |users|
  {
    if failed then Response(500, MessageBody("Server error while fetching users"))
    else Response(200, ListBody(ListUsers(users)))
  }

  /** The 400 answers of `addUser` to a failed check (its first message is capitalised,
      unlike `register`'s). */
  function AddUserRejection(r: UserController.Rejection): (res: Response)
    ensures res.status == 400
    ensures r == UserController.MissingFields ==> res == Response(400, ErrorBody("Please provide all required fields"))
    ensures r != UserController.MissingFields ==> res == UserController.RegisterRejection(r)
    ensures res != UserController.RegisterRejection(r) <==> r == UserController.MissingFields
  {
    if r == UserController.MissingFields then Response(400, ErrorBody("Please provide all required fields"))
    else UserController.RegisterRejection(r)
  }

  /** `addUser`: the check chain of `register`, then a non-admin document; the response
      carries no token. */
  method AddUser(db: UserCollection, form: UserController.AccountForm, crypto: Crypto, now: nat,
                 thrown: Option<StoreError>)
    returns (res: Response)
    requires db.Valid()
    modifies db
    ensures db.Valid()
    ensures UserController.AccountCheck(form, old(db.docs)).Some? ==>
      res == AddUserRejection(UserController.AccountCheck(form, old(db.docs)).value) && db.docs == old(db.docs)
    ensures UserController.AccountCheck(form, old(db.docs)).None? && thrown.Some? ==>
      res == Caught(thrown.value) && db.docs == old(db.docs)
    ensures UserController.AccountCheck(form, old(db.docs)).None? && thrown.None? ==>
      var id := old(db.nextId);
      && id !in old(db.docs)
      && db.docs == old(db.docs)[id := UserController.NewAccount(form, crypto, now)]
      && !db.docs[id].isAdmin
      && res == Response(201, UserBody("User registered successfully", Public(id, db.docs[id])))
  {
    var check := UserController.AccountCheck(form, db.docs);
    if check.Some? {
      return AddUserRejection(check.value);
    }
    if thrown.Some? {
      return Caught(thrown.value);
    }
    var id := db.Create(UserController.NewAccount(form, crypto, now));
    res := Response(201, UserBody("User registered successfully", Public(id, db.docs[id])));
  }

  /** `updateUser`: the id comes from the body (`None` when absent, which `findById` answers
      with no document); the rest is `updateData`'s partial update of name and email. */
  method UpdateUser(db: UserCollection, id: Option<Id>, name: Option<string>, email: Option<string>,
                    now: nat, thrown: Option<StoreError>)
    returns (res: Response)
    requires db.Valid()
    modifies db
    ensures db.Valid()
    ensures (id.None? || id.value !in old(db.docs)) ==> res == UserNotFound && db.docs == old(db.docs)
    ensures id.Some? && id.value in old(db.docs) ==>
      var edited := UserController.Patch(old(db.docs)[id.value], name, email, now);
      && edited.isAdmin == old(db.docs)[id.value].isAdmin
      && if thrown.Some? then
           res == Caught(thrown.value) && db.docs == old(db.docs)
         else if EmailHeldByOther(old(db.docs), id.value, edited.email) then
           res == DuplicateKey && db.docs == old(db.docs)
         else
           db.docs == old(db.docs)[id.value := edited]
           && res == Response(200, UserBody("User updated successfully", Public(id.value, edited)))
  {
    if id.None? {
      return UserNotFound;
    }
    res := UserController.UpdateData(db, id.value, name, email, now, thrown);
  }

  /** `deleteUser`: a 404 for an unknown id, otherwise exactly that document goes.
      `failed` stands for a store failure, answered with 500. */
  method DeleteUser(db: UserCollection, id: Option<Id>, failed: bool) returns (res: Response)
    requires db.Valid()
    modifies db
    ensures db.Valid()
    ensures (id.None? || id.value !in old(db.docs)) && !failed ==>
      res == UserNotFound && db.docs == old(db.docs)
    ensures failed ==>
      res == Response(500, MessageBody("Server error while deleting user")) && db.docs == old(db.docs)
    ensures id.Some? && id.value in old(db.docs) && !failed ==>
      && db.docs == old(db.docs) - {id.value}
      && (forall other :: other in old(db.docs) && other != id.value ==> other in db.docs && db.docs[other] == old(db.docs)[other])
      && res == Response(200, MessageBody("User deleted successfully"))
  {
    if failed {
      return Response(500, MessageBody("Server error while deleting user"));
    }
    if id.None? {
      return UserNotFound;
    }
    var found := db.FindById(id.value);
    if found.None? {
      return UserNotFound;
    }
    db.Delete(id.value);
    res := Response(200, MessageBody("User deleted successfully"));
  }

  /** A freshly registered account can log in but is refused by the admin login,
      because registration never sets the admin flag. */
  lemma RegisteredAccountIsNotAdmin(users: map<Id, User>, id: Id, form: UserController.AccountForm,
                                    crypto: Crypto, now: nat)
    requires UniqueEmails(users) && id !in users
    requires UserController.AccountCheck(form, users).None?
    ensures UniqueEmails(users[id := UserController.NewAccount(form, crypto, now)])
    ensures UserController.Login(users[id := UserController.NewAccount(form, crypto, now)],
                                 form.email.value, form.password.value, crypto).status == 200
    ensures AdminLogin(users[id := UserController.NewAccount(form, crypto, now)],
                       form.email.value, form.password.value, crypto)
            == Response(401, MessageBody("Access denied. Admin privileges required."))
  {
    var users' := users[id := UserController.NewAccount(form, crypto, now)];
    assert users'[id].email == form.email.value;
    assert PasswordMatches(crypto, form.password.value, users'[id].passwordHash);
  }
}

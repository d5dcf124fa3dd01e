/** The protected end-user routes: `protect`, then the handler (for `update-profile`, after
    the upload, which is outside this model). */
module UserRoutes {
  import opened Wrappers
  import opened Users
  import opened Http
  import opened AuthMiddleware
  import UserController

  /** A token that still verifies for an account that has since been deleted gets through
      `protect` with no account attached, and `updateProfile` then fails with a 500. */
  method UpdateProfileRoute(db: UserCollection, req: Request, crypto: Crypto, file: Option<string>,
                            now: nat, thrown: Option<string>)
    returns (res: Response)
    requires db.Valid()
    modifies db, req`user
    ensures db.Valid()
    ensures ProtectDecision(req.authorization, old(db.docs), crypto).Deny? ==>
      res.status == 401 && db.docs == old(db.docs)
    ensures var b := ReadBearer(req.authorization);
      b.Token? && Verify(b.field, crypto).Some? && Verify(b.field, crypto).value !in old(db.docs) ==>
      res == Response(500, ThrownBody(PlainErrorJson)) && db.docs == old(db.docs)
  {
    var out := Protect(req, db.docs, crypto);
    if out.Reply? {
      return out.response;
    }
    res := UserController.UpdateProfile(db, req.user, file, now, thrown);
  }

  /** The `update-data/:id` route. The account edited is the one named in the path; `protect`
      only establishes that the caller holds some valid token, and nothing compares the path's
      id with the caller's account, so any signed-in user can edit any account. */
  method UpdateDataRoute(db: UserCollection, req: Request, crypto: Crypto, id: Id,
                         name: Option<string>, email: Option<string>, now: nat, thrown: Option<StoreError>)
    returns (res: Response)
    requires db.Valid()
    modifies db, req`user
    ensures db.Valid()
    ensures ProtectDecision(req.authorization, old(db.docs), crypto).Deny? ==>
      res.status == 401 && db.docs == old(db.docs)
    ensures (ProtectDecision(req.authorization, old(db.docs), crypto).Admit? && id in old(db.docs) && thrown.None?
      && !EmailHeldByOther(old(db.docs), id, UserController.Patch(old(db.docs)[id], name, email, now).email)) ==>
      && db.docs == old(db.docs)[id := UserController.Patch(old(db.docs)[id], name, email, now)]
      && res.status == 200
  {
    var out := Protect(req, db.docs, crypto);
    if out.Reply? {
      return out.response;
    }
    res := UserController.UpdateData(db, id, name, email, now, thrown);
  }
}

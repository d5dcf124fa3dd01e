/**
 * The `adminData` slice: the administrator session, mirrored in the `admin-token`
 * and `admin` storage keys. It is independent of the end-user session: neither
 * slice reads or writes the other's keys.
 */
module AdminDataReducer {
  import opened Wrappers
  import opened ClientData
  import opened Browser
  import UserDataReducer

  datatype AdminState = AdminState(
    email: string,
    id: string,
    loading: bool,
    error: Option<string>,
    token: Option<string>,
    isAuthenticated: bool,
    isAdmin: bool)

  function ProfileOf(s: AdminState): AdminInfo {
    AdminInfo(s.id, s.email, s.isAdmin)
  }

  const NoAdmin := AdminInfo("", "", false)

  /** The storage mirror of the administrator session. */
  predicate Mirrored(s: AdminState, storage: map<string, Stored>) {
    && (s.isAuthenticated <==> TokenAt(storage, "admin-token").Some?)
    && (s.isAuthenticated ==> s.token == TokenAt(storage, "admin-token"))
    && ProfileOf(s) == (if AdminAt(storage, "admin").Some? then AdminAt(storage, "admin").value else NoAdmin)
  }

  /** The initial state, read from storage. */
  function InitialState(storage: map<string, Stored>): (s: AdminState)
    ensures s.isAuthenticated <==> TokenAt(storage, "admin-token").Some?
    ensures !s.loading && s.error.None?
    ensures Mirrored(s, storage)
  {
    var a := AdminAt(storage, "admin");
    AdminState(
      if a.Some? then a.value.email else "",
      if a.Some? then a.value.id else "",
      false,
      None,
      TokenAt(storage, "admin-token"),
      TokenAt(storage, "admin-token").Some?,
      if a.Some? then a.value.isAdmin else false)
  }

  /** `logout`: the session is gone, `loading` and `error` stay. */
  function SignedOut(s: AdminState): (r: AdminState)
    ensures r.token.None? && !r.isAuthenticated && ProfileOf(r) == NoAdmin
    ensures r.loading == s.loading && r.error == s.error
  {
    s.(email := "", id := "", token := None, isAuthenticated := false, isAdmin := false)
  }

  /** `adminLogin.fulfilled` */
  function SignedIn(s: AdminState, token: string, admin: AdminInfo): (r: AdminState)
    ensures r.isAuthenticated <==> token != ""
    ensures r.token == Some(token) && ProfileOf(r) == admin
    ensures !r.loading && r.error == s.error
  {
    s.(email := admin.email, token := Some(token), id := admin.id, loading := false,
       isAdmin := admin.isAdmin, isAuthenticated := token != "")
  }

  function SignedOutStorage(storage: map<string, Stored>): map<string, Stored> {
    storage - {"admin", "admin-token"}
  }

  function SignedInStorage(storage: map<string, Stored>, token: string, admin: AdminInfo): map<string, Stored> {
    storage["admin-token" := Text(token)]["admin" := AdminJson(admin)]
  }

  lemma LogoutMirrored(s: AdminState, storage: map<string, Stored>)
    ensures Mirrored(SignedOut(s), SignedOutStorage(storage))
  {
  }

  lemma SignInMirrored(s: AdminState, storage: map<string, Stored>, token: string, admin: AdminInfo)
    ensures Mirrored(SignedIn(s, token, admin), SignedInStorage(storage, token, admin))
  {
  }

  /** Signing the administrator in or out keeps an end-user session's mirror, and the
      end user's logout keeps the administrator's: the two sessions live side by side. */
  lemma SessionsIndependent(u: UserDataReducer.UserState, a: AdminState, storage: map<string, Stored>,
                            token: string, admin: AdminInfo)
    requires UserDataReducer.Mirrored(u, storage) && Mirrored(a, storage)
    ensures UserDataReducer.Mirrored(u, SignedOutStorage(storage))
    ensures UserDataReducer.Mirrored(u, SignedInStorage(storage, token, admin))
    ensures Mirrored(a, UserDataReducer.SignedOutStorage(storage))
  {
  }

  /** The `adminData` slice in a tab. */
  class AdminSlice {
    var email: string
    var id: string
    var loading: bool
    var error: Option<string>
    var token: Option<string>
    var isAuthenticated: bool
    var isAdmin: bool

    function State(): AdminState
      reads this
    {
      AdminState(email, id, loading, error, token, isAuthenticated, isAdmin)
    }

    constructor (w: Window)
      ensures State() == InitialState(w.storage)
    {
      var s := InitialState(w.storage);
      email, id, loading, error := s.email, s.id, s.loading, s.error;
      token, isAuthenticated, isAdmin := s.token, s.isAuthenticated, s.isAdmin;
    }

    /** `logout`: removes `admin` and `admin-token`; no broadcast and no `logout-event`. */
    method Logout(w: Window)
      modifies this, w`storage, w`writes
      ensures State() == SignedOut(old(State()))
      ensures w.storage == SignedOutStorage(old(w.storage))
      ensures w.writes == old(w.writes) + [Removed("admin"), Removed("admin-token")]
      ensures Mirrored(State(), w.storage)
    {
      ghost var s0, st0 := State(), w.storage;
      email, id, token, isAuthenticated, isAdmin := "", "", None, false, false;
      w.RemoveItem("admin");
      w.RemoveItem("admin-token");
      assert w.storage == SignedOutStorage(st0);
      LogoutMirrored(s0, st0);
    }

    /** `adminLogin.pending` */
    method Pending()
      modifies this`loading, this`error
      ensures State() == old(State()).(loading := true, error := None)
    {
      loading := true;
      error := None;
    }

    /** `adminLogin.rejected` */
    method Rejected(payload: string)
      modifies this`loading, this`error
      ensures State() == old(State()).(loading := false, error := Some(payload))
    {
      loading := false;
      error := Some(payload);
    }

    /** `adminLogin.fulfilled` */
    method Fulfilled(w: Window, token: string, admin: AdminInfo)
      modifies this, w`storage, w`writes
      ensures State() == SignedIn(old(State()), token, admin)
      ensures w.storage == SignedInStorage(old(w.storage), token, admin)
      ensures w.writes == old(w.writes) + [Wrote("admin-token", Text(token)), Wrote("admin", AdminJson(admin))]
      ensures Mirrored(State(), w.storage)
    {
      ghost var s0, st0 := State(), w.storage;
      email, this.token, id, loading, isAdmin, isAuthenticated := admin.email, Some(token), admin.id, false, admin.isAdmin, token != "";
      w.SetItem("admin-token", Text(token));
      w.SetItem("admin", AdminJson(admin));
      SignInMirrored(s0, st0, token, admin);
    }
  }
}

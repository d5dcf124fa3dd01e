/**
 * The `userData` slice: the end-user session held in memory, mirrored in the
 * `token` and `user` storage keys, and cleared across tabs on logout.
 */
module UserDataReducer {
  import opened Wrappers
  import opened ClientData
  import opened Browser

  /** The slice's fields (`profile_Image` in the source is `profileImage` here). */
  datatype UserState = UserState(
    name: string,
    email: string,
    id: string,
    profileImage: string,
    loading: bool,
    error: Option<string>,
    token: Option<string>,
    isAuthenticated: bool,
    isAdmin: bool)

  /** The profile fields of a state, as a user object. */
  function ProfileOf(s: UserState): UserInfo {
    UserInfo(s.id, s.name, s.email, s.isAdmin, s.profileImage)
  }

  /** The profile of a state with nobody signed in. */
  const NoProfile := UserInfo("", "", "", false, "")

  /** The storage mirror: the session is authenticated exactly when a non-empty `token`
      is stored, and then holds that token; the profile fields are those of the stored
      `user` object, or empty when there is none. */
  predicate Mirrored(s: UserState, storage: map<string, Stored>) {
    && (s.isAuthenticated <==> TokenAt(storage, "token").Some?)
    && (s.isAuthenticated ==> s.token == TokenAt(storage, "token"))
    && ProfileOf(s) == (if UserAt(storage, "user").Some? then UserAt(storage, "user").value else NoProfile)
  }

  /** The initial state, read from storage. */
  function InitialState(storage: map<string, Stored>): (s: UserState)
    ensures s.isAuthenticated <==> TokenAt(storage, "token").Some?
    ensures !s.loading && s.error.None?
    ensures Mirrored(s, storage)
  {
    var u := UserAt(storage, "user");
    UserState(
      if u.Some? then u.value.name else "",
      if u.Some? then u.value.email else "",
      if u.Some? then u.value.id else "",
      if u.Some? then u.value.profileImage else "",
      false,
      None,
      TokenAt(storage, "token"),
      TokenAt(storage, "token").Some?,
      if u.Some? then u.value.isAdmin else false)
  }

  /** The fields `logout` and `syncLogout` write: the session is gone, `loading` and `error` stay. */
  function SignedOut(s: UserState): (r: UserState)
    ensures r.token.None? && !r.isAuthenticated && ProfileOf(r) == NoProfile
    ensures r.loading == s.loading && r.error == s.error
  {
    s.(token := None, name := "", email := "", id := "", profileImage := "", isAuthenticated := false, isAdmin := false)
  }

  /** Every `pending` case. */
  function Started(s: UserState): (r: UserState)
    ensures r.loading && r.error.None?
    ensures r.(loading := s.loading, error := s.error) == s
  {
    s.(loading := true, error := None)
  }

  /** Every `rejected` case. */
  function Failed(s: UserState, payload: string): (r: UserState)
    ensures !r.loading && r.error == Some(payload)
    ensures r.(loading := s.loading, error := s.error) == s
  {
    s.(loading := false, error := Some(payload))
  }

  /** `clearError` */
  function ErrorCleared(s: UserState): (r: UserState)
    ensures r.error.None? && r.(error := s.error) == s
  {
    s.(error := None)
  }

  /** The `fulfilled` cases of `setUserData` and `loginUserData`. */
  function SignedIn(s: UserState, token: string, user: UserInfo): (r: UserState)
    ensures r.isAuthenticated <==> token != ""
    ensures r.token == Some(token) && ProfileOf(r) == user
    ensures !r.loading && r.error == s.error
  {
    s.(token := Some(token), loading := false, name := user.name, profileImage := user.profileImage,
       id := user.id, email := user.email, isAuthenticated := token != "", isAdmin := user.isAdmin)
  }

  /** The `fulfilled` cases of `updateUserData`, `imageUpdateUpload` and `fetchUserProfile`:
      the profile is refreshed, the session itself is not touched. */
  function Refreshed(s: UserState, user: UserInfo): (r: UserState)
    ensures ProfileOf(r) == user
    ensures r.token == s.token && r.isAuthenticated == s.isAuthenticated
    ensures !r.loading && r.error == s.error
  {
    s.(loading := false, name := user.name, id := user.id, profileImage := user.profileImage,
       email := user.email, isAdmin := user.isAdmin)
  }

  /** `logout` and `syncLogout` are idempotent. */
  lemma SignedOutIdempotent(s: UserState)
    ensures SignedOut(SignedOut(s)) == SignedOut(s)
  {
  }

  /** What `logout` leaves in storage. */
  function SignedOutStorage(storage: map<string, Stored>): map<string, Stored> {
    storage - {"user", "token", "logout-event"}
  }

  /** The four storage writes of `logout`, applied in order, leave `SignedOutStorage`. */
  lemma LogoutWrites(storage: map<string, Stored>, stamp: string)
    ensures ((storage - {"user"}) - {"token"})["logout-event" := Text(stamp)] - {"logout-event"}
      == SignedOutStorage(storage)
  {
  }

  /** `logout` restores the mirror whatever state it starts from. */
  lemma LogoutMirrored(s: UserState, storage: map<string, Stored>)
    ensures Mirrored(SignedOut(s), SignedOutStorage(storage))
  {
  }

  /** `syncLogout` writes no storage: its state mirrors storage once the logging-out tab
      has removed the two keys from the storage all tabs share. */
  lemma SyncLogoutMirrored(s: UserState, storage: map<string, Stored>)
    requires "token" !in storage && "user" !in storage
    ensures Mirrored(SignedOut(s), storage)
  {
  }

  /** A successful sign-in stores what it puts in memory. */
  lemma SignInMirrored(s: UserState, storage: map<string, Stored>, token: string, user: UserInfo)
    ensures Mirrored(SignedIn(s, token, user), storage["token" := Text(token)]["user" := UserJson(user)])
  {
  }

  /** A profile refresh keeps the mirror. */
  lemma RefreshMirrored(s: UserState, storage: map<string, Stored>, user: UserInfo)
    requires Mirrored(s, storage)
    ensures Mirrored(Refreshed(s, user), storage["user" := UserJson(user)])
  {
  }

  /** The `userData` slice in a tab. */
  class UserSlice {
    var name: string
    var email: string
    var id: string
    var profileImage: string
    var loading: bool
    var error: Option<string>
    var token: Option<string>
    var isAuthenticated: bool
    var isAdmin: bool

    function State(): UserState
      reads this
    {
      UserState(name, email, id, profileImage, loading, error, token, isAuthenticated, isAdmin)
    }

    constructor (w: Window)
      ensures State() == InitialState(w.storage)
    {
      var s := InitialState(w.storage);
      name, email, id, profileImage := s.name, s.email, s.id, s.profileImage;
      loading, error, token, isAuthenticated, isAdmin := s.loading, s.error, s.token, s.isAuthenticated, s.isAdmin;
    }

    /** `logout`: clears the session, removes `user` and `token`, posts the logout message
        when the channel exists, and sets then removes `logout-event` for tabs that only
        see storage events. `stamp` is `Date.now().toString()`. */
    method Logout(w: Window, stamp: string)
      modifies this, w`storage, w`writes, w`posted
      ensures State() == SignedOut(old(State()))
      ensures w.storage == SignedOutStorage(old(w.storage))
      ensures w.writes == old(w.writes)
        + [Removed("user"), Removed("token"), Wrote("logout-event", Text(stamp)), Removed("logout-event")]
      ensures w.posted == if w.hasBroadcastChannel then old(w.posted) + [Message("LOGOUT", "user")] else old(w.posted)
      ensures Mirrored(State(), w.storage)
    {
      ghost var s0, st0 := State(), w.storage;
      token, name, email, id, profileImage, isAuthenticated, isAdmin := None, "", "", "", "", false, false;
      assert State() == SignedOut(s0);
      w.RemoveItem("user");
      w.RemoveItem("token");
      w.Post(Message("LOGOUT", "user"));
      w.SetItem("logout-event", Text(stamp));
      w.RemoveItem("logout-event");
      LogoutWrites(st0, stamp);
      LogoutMirrored(s0, st0);
    }

    /** `syncLogout`: the same fields as `logout`, and no storage write or broadcast. */
    method SyncLogout()
      modifies this
      ensures State() == SignedOut(old(State()))
    {
      token := None;
      name := "";
      email := "";
      id := "";
      profileImage := "";
      isAuthenticated := false;
      isAdmin := false;
    }

    /** `clearError` */
    method ClearError()
      modifies this`error
      ensures State() == ErrorCleared(old(State()))
    {
      error := None;
    }

    /** The `pending` case of every thunk. */
    method Pending()
      modifies this`loading, this`error
      ensures State() == Started(old(State()))
    {
      loading := true;
      error := None;
    }

    /** The `rejected` case of every thunk. */
    method Rejected(payload: string)
      modifies this`loading, this`error
      ensures State() == Failed(old(State()), payload)
    {
      loading := false;
      error := Some(payload);
    }

    /** The `fulfilled` case of `setUserData` and of `loginUserData`. */
    method SessionFulfilled(w: Window, token: string, user: UserInfo)
      modifies this, w`storage, w`writes
      ensures State() == SignedIn(old(State()), token, user)
      ensures w.storage == old(w.storage)["token" := Text(token)]["user" := UserJson(user)]
      ensures w.writes == old(w.writes) + [Wrote("token", Text(token)), Wrote("user", UserJson(user))]
      ensures Mirrored(State(), w.storage)
    {
      ghost var s0, st0 := State(), w.storage;
      this.token, loading, name, profileImage := Some(token), false, user.name, user.profileImage;
      id, email, isAuthenticated, isAdmin := user.id, user.email, token != "", user.isAdmin;
      assert State() == SignedIn(s0, token, user);
      w.SetItem("token", Text(token));
      w.SetItem("user", UserJson(user));
      SignInMirrored(s0, st0, token, user);
    }

    /** The `fulfilled` case of `updateUserData`, `imageUpdateUpload` and `fetchUserProfile`. */
    method ProfileFulfilled(w: Window, user: UserInfo)
      modifies this, w`storage, w`writes
      ensures State() == Refreshed(old(State()), user)
      ensures w.storage == old(w.storage)["user" := UserJson(user)]
      ensures w.writes == old(w.writes) + [Wrote("user", UserJson(user))]
      ensures old(Mirrored(State(), w.storage)) ==> Mirrored(State(), w.storage)
    {
      loading := false;
      name := user.name;
      id := user.id;
      profileImage := user.profileImage;
      email := user.email;
      isAdmin := user.isAdmin;
      w.SetItem("user", UserJson(user));
      if old(Mirrored(State(), w.storage)) {
        RefreshMirrored(old(State()), old(w.storage), user);
      }
    }
  }

  /** Logging out in one tab and delivering its message to a second tab leaves both tabs
      with the same cleared session, mirrored by the shared storage, after exactly one
      broadcast: the receiving tab does not post again. */
  method CrossTabLogout(a: UserSlice, b: UserSlice, w: Window, stamp: string)
    requires a != b && w.hasBroadcastChannel
    modifies a, b, w`storage, w`writes, w`posted
    ensures a.State() == SignedOut(old(a.State())) && b.State() == SignedOut(old(b.State()))
    ensures ProfileOf(a.State()) == ProfileOf(b.State()) && a.token == b.token == None
    ensures Mirrored(a.State(), w.storage) && Mirrored(b.State(), w.storage)
    ensures w.posted == old(w.posted) + [Message("LOGOUT", "user")]
  {
    a.Logout(w, stamp);
    b.SyncLogout();
    SyncLogoutMirrored(old(b.State()), w.storage);
  }
}

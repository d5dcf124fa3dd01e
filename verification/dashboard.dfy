/**
 * The admin dashboard's listing logic: admins are hidden, the search term is matched
 * case-insensitively against name or email, and the result is shown seven per page.
 */
module Dashboard {
  import opened Wrappers
  import opened Text
  import opened ClientData

  const UsersPerPage := 7

  /** The search test of the filter. */
  predicate Matches(u: UserInfo, term: string) {
    Includes(Lower(u.name), Lower(term)) || Includes(Lower(u.email), Lower(term))
  }

  /** `filteredUsers` */
  function FilteredUsers(users: seq<UserInfo>, term: string): (r: seq<UserInfo>)
    ensures |r| <= |users|
    ensures forall k :: 0 <= k < |r| ==> !r[k].isAdmin && Matches(r[k], term)
    decreases |users|
  {
    if users == [] then []
    else
      var rest := FilteredUsers(users[1..], term);
      if !users[0].isAdmin && Matches(users[0], term) then [users[0]] + rest else rest
  }

  /** `sub` is `s` with some entries dropped, the rest in their original order. */
  predicate IsSubsequence<T(==)>(sub: seq<T>, s: seq<T>)
    decreases |s|
  {
    if sub == [] then true
    else if s == [] then false
    else if sub[0] == s[0] then IsSubsequence(sub[1..], s[1..])
    else IsSubsequence(sub, s[1..])
  }

  /** The filter keeps the order of the listing. */
  lemma {:induction false} FilteredIsSubsequence(users: seq<UserInfo>, term: string)
    ensures IsSubsequence(FilteredUsers(users, term), users)
    decreases |users|
  {
    if users != [] {
      FilteredIsSubsequence(users[1..], term);
      var rest := FilteredUsers(users[1..], term);
      if !users[0].isAdmin && Matches(users[0], term) {
        assert ([users[0]] + rest)[1..] == rest;
      } else if rest != [] && rest[0] == users[0] {
        // the entry was dropped, yet an equal one later in the listing was kept
        SkipEqualHead(rest, users);
      }
    }
  }

  /** Dropping an entry equal to the next wanted one still leaves a subsequence. */
  lemma {:induction false} SkipEqualHead<T>(sub: seq<T>, s: seq<T>)
    requires s != [] && IsSubsequence(sub, s[1..])
    ensures IsSubsequence(sub, s)
    decreases |sub| + |s|
  {
    if sub != [] && sub[0] == s[0] {
      TailOfSubsequence(sub, s[1..]);
    }
  }

  lemma {:induction false} TailOfSubsequence<T>(sub: seq<T>, s: seq<T>)
    requires sub != [] && IsSubsequence(sub, s)
    ensures IsSubsequence(sub[1..], s)
    decreases |sub| + |s|
  {
    if s != [] {
      if sub[0] == s[0] {
        if sub[1..] != [] {
          SkipEqualHead(sub[1..], s);
        }
      } else {
        TailOfSubsequence(sub, s[1..]);
        SkipEqualHead(sub[1..], s);
      }
    }
  }

  /** A user is listed exactly when they are in the listing, are not an admin and match. */
  lemma {:induction false} FilteredMembership(users: seq<UserInfo>, term: string, u: UserInfo)
    ensures u in FilteredUsers(users, term) <==> u in users && !u.isAdmin && Matches(u, term)
    decreases |users|
  {
    if users != [] {
      FilteredMembership(users[1..], term, u);
      assert users == [users[0]] + users[1..];
    }
  }

  /** With an empty search term every non-admin is listed. */
  lemma EmptyTermKeepsNonAdmins(users: seq<UserInfo>, u: UserInfo)
    ensures u in FilteredUsers(users, "") <==> u in users && !u.isAdmin
  {
    FilteredMembership(users, "", u);
    IncludesEmpty(Lower(u.name));
    assert Lower("") == "";
  }

  /** `Array.prototype.slice(start, end)`: negative bounds count from the end, and
      out-of-range bounds are clamped. */
  function JsSlice<T>(s: seq<T>, start: int, end: int): (r: seq<T>)
    ensures |r| <= |s|
    ensures exists b, e :: 0 <= b <= e <= |s| && r == s[b..e]
    ensures 0 <= start <= end <= |s| ==> r == s[start..end]
    ensures start >= |s| || 0 <= end <= start ==> r == []
  {
    var b := if start < 0 then (if |s| + start < 0 then 0 else |s| + start) else (if start > |s| then |s| else start);
    var e := if end < 0 then (if |s| + end < 0 then 0 else |s| + end) else (if end > |s| then |s| else end);
    if b >= e then assert s[b..b] == []; [] else s[b..e]
  }

  /** A negative bound counts back from the end, and a bound past the end stops at it. */
  lemma SliceBounds<T>(s: seq<T>, k: int, start: int, end: int)
    ensures 0 < k <= |s| ==> JsSlice(s, -k, |s|) == s[|s| - k..]
    ensures k >= |s| ==> JsSlice(s, -k, end) == JsSlice(s, 0, end)
    ensures end >= |s| ==> JsSlice(s, start, end) == JsSlice(s, start, |s|)
  {
  }

  /** `currentUsers` for `currentPage == page`. */
  function CurrentUsers(filtered: seq<UserInfo>, page: int): (r: seq<UserInfo>)
    ensures |r| <= UsersPerPage
    ensures page >= 1 ==>
      r == if (page - 1) * UsersPerPage >= |filtered| then []
           else filtered[(page - 1) * UsersPerPage .. if page * UsersPerPage < |filtered| then page * UsersPerPage else |filtered|]
  {
    JsSlice(filtered, page * UsersPerPage - UsersPerPage, page * UsersPerPage)
  }

  /** `totalPages`: `Math.ceil(n / 7)`. */
  function TotalPages(n: nat): (t: nat)
    ensures t * UsersPerPage >= n
    ensures t == 0 || (t - 1) * UsersPerPage < n
  {
    (n + UsersPerPage - 1) / UsersPerPage
  }

  /** The page buttons, `1..totalPages`. */
  function PageButtons(total: nat): (r: seq<int>)
    ensures |r| == total
    ensures forall i :: 0 <= i < |r| ==> r[i] == i + 1
  {
    seq(total, i => i + 1)
  }

  /** The pages `1..k` one after another. */
  function Pages(filtered: seq<UserInfo>, k: nat): seq<UserInfo> {
    if k == 0 then [] else Pages(filtered, k - 1) + CurrentUsers(filtered, k)
  }

  lemma {:induction false} PagesPrefix(filtered: seq<UserInfo>, k: nat)
    ensures Pages(filtered, k) == filtered[..if k * UsersPerPage < |filtered| then k * UsersPerPage else |filtered|]
  {
    if k > 0 {
      PagesPrefix(filtered, k - 1);
    }
  }

  /** Going through the page buttons in order shows every listed user exactly once, in order. */
  lemma AllPagesShowAll(filtered: seq<UserInfo>)
    ensures Pages(filtered, TotalPages(|filtered|)) == filtered
  {
    PagesPrefix(filtered, TotalPages(|filtered|));
  }

  /** A page past the last one is empty. */
  lemma PastLastPageEmpty(filtered: seq<UserInfo>, page: int)
    requires page > TotalPages(|filtered|)
    ensures CurrentUsers(filtered, page) == []
  {
  }

  /** What `handleUpdateUser` dispatches: `updateUser` with the selected user's id and the
      form's name and email. */
  datatype UpdateCall = UpdateCall(id: string, name: string, email: string)

  /** `handleUpdateUser`: nothing is dispatched while no user is selected. */
  function UpdateRequest(selected: Option<UserInfo>, name: string, email: string): (r: Option<UpdateCall>)
    ensures r.Some? <==> selected.Some?
    ensures r.Some? ==> r.value.id == selected.value.id && r.value.name == name && r.value.email == email
  {
    if selected.Some? then Some(UpdateCall(selected.value.id, name, email)) else None
  }

  /** `handleDelete`: the id `deleteUser` is dispatched with, or nothing without a selection. */
  function DeleteRequest(selected: Option<UserInfo>): (r: Option<string>)
    ensures r.Some? <==> selected.Some?
    ensures r.Some? ==> r.value == selected.value.id
  {
    if selected.Some? then Some(selected.value.id) else None
  }
}

/**
 * The `users` slice: the listing the admin dashboard shows. Only the three
 * `fetchUsers` cases have reducers; the `addUser`, `updateUser` and `deleteUser`
 * thunks dispatch actions no case handles.
 */
module AllUsersDataReducer {
  import opened Wrappers
  import opened ClientData

  datatype UsersState = UsersState(data: seq<UserInfo>, loading: bool, error: Option<string>)

  const Initial := UsersState([], false, None)

  /** The actions that reach the slice. `Unhandled` stands for every lifecycle action of
      `addUser`, `updateUser` and `deleteUser`. */
  datatype Action =
    | FetchPending
    | FetchFulfilled(payload: seq<UserInfo>)
    | FetchRejected(reason: string)
    | Unhandled

  /** The slice's reducer. */
  function Reduce(s: UsersState, a: Action): (r: UsersState)
    ensures a.FetchFulfilled? ==> r.data == a.payload && !r.loading && r.error == s.error
    ensures !a.FetchFulfilled? ==> r.data == s.data
    ensures a.FetchPending? ==> r.loading && r.error.None?
    ensures a.FetchRejected? ==> !r.loading && r.error == Some(a.reason)
    ensures a.Unhandled? ==> r == s
  {
    match a
    case FetchPending => s.(loading := true, error := None)
    case FetchFulfilled(d) => s.(data := d, loading := false)
    case FetchRejected(e) => s.(loading := false, error := Some(e))
    case Unhandled => s
  }

  /** The state after dispatching `acts` in order. */
  function ReduceAll(s: UsersState, acts: seq<Action>): UsersState
    decreases |acts|
  {
    if acts == [] then s else Reduce(ReduceAll(s, acts[..|acts| - 1]), acts[|acts| - 1])
  }

  /** The payload of the last fulfilled fetch among `acts`, or `[]` when none. */
  function LastFetched(acts: seq<Action>): seq<UserInfo>
    decreases |acts|
  {
    if acts == [] then []
    else if acts[|acts| - 1].FetchFulfilled? then acts[|acts| - 1].payload
    else LastFetched(acts[..|acts| - 1])
  }

  /** The index of the last `fetchUsers` action among `acts`, or -1 when none. */
  function LastFetchAction(acts: seq<Action>): (k: int)
    ensures -1 <= k < |acts|
    ensures k >= 0 ==> !acts[k].Unhandled?
    ensures forall j :: k < j < |acts| ==> acts[j].Unhandled?
    decreases |acts|
  {
    if acts == [] then -1
    else if !acts[|acts| - 1].Unhandled? then |acts| - 1
    else LastFetchAction(acts[..|acts| - 1])
  }

  /** From the initial state, the list shown is the payload of the last successful fetch:
      a failed fetch keeps the previous list, and the other thunks never touch it. The
      spinner shows exactly when the last `fetchUsers` action is its pending one. */
  lemma {:induction false} HistoryDetermines(acts: seq<Action>)
    ensures ReduceAll(Initial, acts).data == LastFetched(acts)
    ensures ReduceAll(Initial, acts).loading <==>
      (LastFetchAction(acts) >= 0 && acts[LastFetchAction(acts)].FetchPending?)
    decreases |acts|
  {
    if acts != [] {
      var init := acts[..|acts| - 1];
      HistoryDetermines(init);
      if acts[|acts| - 1].Unhandled? {
        assert LastFetchAction(acts) == LastFetchAction(init);
        var k := LastFetchAction(init);
        if k >= 0 {
          assert acts[k] == init[k];
        }
      }
    }
  }

  /** A fetch that completes clears any earlier error; a fulfilled case without a pending
      one before it keeps a stale error. */
  lemma FetchCycle(s: UsersState, d: seq<UserInfo>)
    ensures ReduceAll(s, [FetchPending, FetchFulfilled(d)]) == UsersState(d, false, None)
    ensures Reduce(s, FetchFulfilled(d)).error == s.error
  {
  }

  /** The `users` slice. */
  class UsersSlice {
    var data: seq<UserInfo>
    var loading: bool
    var error: Option<string>

    function State(): UsersState
      reads this
    {
      UsersState(data, loading, error)
    }

    constructor ()
      ensures State() == Initial
    {
      data := [];
      loading := false;
      error := None;
    }

    /** Running the slice's reducer on one dispatched action. */
    method Dispatch(a: Action)
      modifies this
      ensures State() == Reduce(old(State()), a)
    {
      match a {
        case FetchPending =>
          loading := true;
          error := None;
        case FetchFulfilled(d) =>
          data := d;
          loading := false;
        case FetchRejected(e) =>
          loading := false;
          error := Some(e);
        case Unhandled =>
      }
    }
  }
}

/**
 * The signed-in user's session slice (client/src/store/auth/authSlice.ts):
 * the current user, a loading flag and the last error, updated in place by
 * the slice's own reducers and by the lifecycle cases of its five requests.
 */
module AuthSlice {
  import opened Wrappers
  import opened Domain

  /** The five asynchronous requests whose pending / rejected / fulfilled cases the slice handles. */
  datatype Thunk = FetchUser | SignInUser | SignUpUser | SignOutUser | UpdateUser

  class UserSlice {
    var user: Option<User>
    var loading: bool
    var error: Option<string>

    /**
     * While a request is in flight no error is shown: every pending case
     * clears the error, and every case that records an error stops loading.
     * Each method below keeps this, so an error on screen always means no
     * request of the slice is running.
     */
    predicate Valid()
      reads this
    {
      loading ==> error.None?
    }

    /** `initialState` */
    constructor ()
      ensures Valid()
      ensures user == None && error == None && !loading
    {
      user := None;
      error := None;
      loading := false;
    }

    /** `setUser` */
    method SetUser(payload: User)
      requires Valid()
      modifies this`user
      ensures Valid()
      ensures user == Some(payload) && loading == old(loading) && error == old(error)
    {
      user := Some(payload);
    }

    /** `resetUser` */
    method ResetUser()
      requires Valid()
      modifies this`user
      ensures Valid()
      ensures user == None && loading == old(loading) && error == old(error)
    {
      user := None;
    }

    /** The `pending` case of every request: start loading, clear the error, keep the user. */
    method Pending(thunk: Thunk)
      requires Valid()
      modifies this`loading, this`error
      ensures Valid()
      ensures loading && error == None && user == old(user)
    {
      loading := true;
      error := None;
    }

    /** The `rejected` case of every request: record the message, stop loading, keep the user. */
    method Rejected(thunk: Thunk, message: string)
      requires Valid()
      modifies this`loading, this`error
      ensures Valid()
      ensures error == Some(message) && !loading && user == old(user)
    {
      error := Some(message);
      loading := false;
    }

    /**
     * The `fulfilled` case: stop loading, clear the error, and take the
     * returned user, except that a completed sign-out leaves no user.
     */
    method Fulfilled(thunk: Thunk, payload: User)
      requires Valid()
      modifies this`loading, this`error, this`user
      ensures Valid()
      ensures !loading && error == None
      ensures user == if thunk == SignOutUser then None else Some(payload)
    {
      error := None;
      loading := false;
      if thunk == SignOutUser {
        user := None;
      } else {
        user := Some(payload);
      }
    }
  }
}

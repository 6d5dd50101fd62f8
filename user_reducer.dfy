/** The `users` slice of the client store (src/userReducer.ts). */
module UserReducer {
  import opened Types

  class UsersStore {
    var users: seq<User>
    var loading: bool

    /** `initialState`: no users, not loading. */
    constructor ()
      ensures users == [] && !loading
    {
      users := [];
      loading := false;
    }

    method FetchUsersStarted()
      modifies this
      ensures loading && users == old(users)
    {
      loading := true;
    }

    /** The fetched list replaces the previous one wholesale. */
    method FetchUsersSuccess(fetched: seq<User>)
      modifies this
      ensures !loading && users == fetched
    {
      loading := false;
      users := fetched;
    }

    /** The previous users are kept. */
    method FetchUsersFailure()
      modifies this
      ensures !loading && users == old(users)
    {
      loading := false;
    }
  }

}

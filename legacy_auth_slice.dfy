/** src/features/auth/authSlice.ts: the older auth reducer, two fields and no
    side effects. */
module LegacyAuthSlice {
  import opened Common
  import opened Records

  class LegacyAuthStore {
    var user: Option<User>
    var isAuthenticated: bool

    /** Authenticated exactly when a user is present. */
    predicate Valid()
      reads this
    {
      isAuthenticated <==> user.Some?
    }

    /** `initialState`. */
    constructor()
      ensures user == None && !isAuthenticated
      ensures Valid()
    {
      user := None;
      isAuthenticated := false;
    }

    /** `login`: replaces any previous user, with or without a logout in between. */
    method Login(u: User)
      modifies this
      ensures user == Some(u) && isAuthenticated
      ensures Valid()
    {
      user := Some(u);
      isAuthenticated := true;
    }

    /** `logout`: idempotent, the result does not depend on the previous state. */
    method Logout()
      modifies this
      ensures user == None && !isAuthenticated
      ensures Valid()
    {
      user := None;
      isAuthenticated := false;
    }
  }
}

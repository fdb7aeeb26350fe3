/** The browser state the storefront reads and writes: localStorage (split by the
    kind of value each key holds), the `auth` cookie and sessionStorage. */
module Storage {
  import opened Common
  import opened Records

  class Browser {
    /** localStorage entries that hold a cart list: `cart_<userId>` and the shared `cart`.
        An entry whose JSON does not parse is modelled as absent. */
    var carts: map<string, seq<Item>>
    /** localStorage `currentUser`. */
    var currentUser: Option<User>
    /** localStorage `registered_users` (`None`: no such key). */
    var registeredUsers: Option<seq<User>>
    /** When true, `localStorage.setItem` throws (the storage quota is exhausted). */
    var quotaFull: bool
    /** The `auth` cookie (`None`: absent or expired). */
    var authCookie: Option<Cookie>
    /** sessionStorage `isLoggedIn` is "true". */
    var sessionLoggedIn: bool
    /** sessionStorage `currentUser`. */
    var sessionUser: Option<User>

    constructor(carts: map<string, seq<Item>>, currentUser: Option<User>,
                registeredUsers: Option<seq<User>>, quotaFull: bool, authCookie: Option<Cookie>)
      ensures this.carts == carts && this.currentUser == currentUser
      ensures this.registeredUsers == registeredUsers && this.quotaFull == quotaFull
      ensures this.authCookie == authCookie
      ensures !sessionLoggedIn && sessionUser == None
    {
      this.carts := carts;
      this.currentUser := currentUser;
      this.registeredUsers := registeredUsers;
      this.quotaFull := quotaFull;
      this.authCookie := authCookie;
      sessionLoggedIn := false;
      sessionUser := None;
    }
  }

  /** `auth=true; path=/`: the cookie the auth reducer and the registration form set. */
  const SessionAuthCookie := Cookie("true", None)
}

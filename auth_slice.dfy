/** src/store/slices/authSlice.ts: the auth reducer the running store mounts.
    Besides its two fields it writes localStorage `currentUser` and the `auth` cookie. */
module AuthSlice {
  import opened Common
  import opened Records
  import opened Storage
  import opened Text

  datatype AuthState = AuthState(user: Option<User>, isAuthenticated: bool)

  /** `loadInitialState()`: the flag comes from a substring test on the whole cookie
      header, the user from `currentUser`; the two are read independently. */
  function InitialAuth(hasWindow: bool, cookieHeader: string, storedUser: Option<User>): (s: AuthState)
    ensures s.isAuthenticated <==> hasWindow && Contains(cookieHeader, "auth=true")
    ensures !hasWindow ==> s.user == None
    ensures hasWindow ==> s.user == storedUser
  {
    if hasWindow then AuthState(storedUser, Contains(cookieHeader, "auth=true"))
    else AuthState(None, false)
  }

  /** Any cookie whose text contains `auth=true` counts, `oauth=true` included. */
  lemma SubstringTestAcceptsOtherCookies()
    ensures InitialAuth(true, "oauth=true", None).isAuthenticated
  {
    assert OccursAt("oauth=true", "auth=true", 1);
  }

  /** A cookie without a stored user loads as authenticated with no user; outside
      a browser nothing is loaded. */
  lemma FlagWithoutUser(cookieHeader: string, storedUser: Option<User>)
    ensures InitialAuth(true, "auth=true", None) == AuthState(None, true)
    ensures InitialAuth(false, cookieHeader, storedUser) == AuthState(None, false)
  {
    assert OccursAt("auth=true", "auth=true", 0);
  }

  class AuthStore {
    var user: Option<User>
    var isAuthenticated: bool
    const browser: Browser

    constructor(b: Browser, hasWindow: bool, cookieHeader: string)
      ensures browser == b
      ensures AuthState(user, isAuthenticated) == InitialAuth(hasWindow, cookieHeader, b.currentUser)
    {
      browser := b;
      var s := InitialAuth(hasWindow, cookieHeader, b.currentUser);
      user := s.user;
      isAuthenticated := s.isAuthenticated;
    }

    /** `login`. The `currentUser` write is not guarded: when localStorage rejects it
        the reducer throws, the dispatch fails (`ok` false) and the state stays as it was. */
    method Login(u: User) returns (ok: bool)
      modifies this`user, this`isAuthenticated, browser`currentUser, browser`authCookie
      ensures ok == !browser.quotaFull
      ensures ok ==> user == Some(u) && isAuthenticated
      ensures ok ==> browser.currentUser == Some(u) && browser.authCookie == Some(SessionAuthCookie)
      ensures !ok ==> user == old(user) && isAuthenticated == old(isAuthenticated)
      ensures !ok ==> browser.currentUser == old(browser.currentUser) && browser.authCookie == old(browser.authCookie)
    {
      if browser.quotaFull {
        return false;
      }
      user := Some(u);
      isAuthenticated := true;
      browser.currentUser := Some(u);
      browser.authCookie := Some(SessionAuthCookie);
      ok := true;
    }

    /** `logout`. The resulting state does not depend on the previous one, so a
        second logout changes nothing. */
    method Logout()
      modifies this`user, this`isAuthenticated, browser`currentUser, browser`authCookie
      ensures user == None && !isAuthenticated
      ensures browser.currentUser == None && browser.authCookie == None
    {
      user := None;
      isAuthenticated := false;
      browser.currentUser := None;
      browser.authCookie := None;
    }
  }
}

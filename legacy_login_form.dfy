/** src/components/auth/LoginForm.tsx: the older sign-in form, the one /login renders, matching a username
    or an email exactly and recording the session in sessionStorage. Its `login`
    action (from src/features/auth/authSlice.ts) carries the type `auth/login`,
    which the mounted reducer of src/store/slices/authSlice.ts handles. */
module LegacyLoginForm {
  import opened Common
  import opened Records
  import opened Storage
  import opened FormRules
  import opened Registry
  import opened AuthSlice

  datatype LegacyLoginFields = LegacyLoginFields(username: string, password: string)

  /** The form's own schema: both fields required. */
  predicate LegacyLoginValid(f: LegacyLoginFields)
  {
    Required(f.username) && Required(f.password)
  }

  datatype Outcome =
    | Invalid
    | NoRegistry
    | NotRegistered
    | BadPassword
    | Failed
    | LoggedIn(payload: User)

  /** `loginError` after the attempt (empty when none is shown). */
  function ErrorMessage(o: Outcome): string
  {
    match o
    case NoRegistry => "No registered users found. Please register first."
    case NotRegistered => "User not registered. Please create an account first."
    case BadPassword => "Invalid credentials. Please check your username and password."
    case Failed => "Login failed. Please try again."
    case _ => ""
  }

  /** `isUserNotRegistered`: the prompt to register is shown. */
  predicate RegisterPromptShown(o: Outcome)
  {
    o == NoRegistry || o == NotRegistered
  }

  /** The `find` predicate: the input is the account's username or its email. */
  predicate Identifies(u: User, login: string)
  {
    u.username == login || u.email == login
  }

  /** `users.find(u => u.username === input || u.email === input)`: the first
      account the input identifies. */
  function Lookup(users: seq<User>, login: string): (r: Option<User>)
    ensures r.None? <==> forall k :: 0 <= k < |users| ==> users[k].username != login && users[k].email != login
    ensures r.Some? ==> r.value in users && (r.value.username == login || r.value.email == login)
    ensures r.Some? ==> exists k :: 0 <= k < |users| && users[k] == r.value &&
                                    forall j :: 0 <= j < k ==> !Identifies(users[j], login)
  {
    Find(users, (u: User) => Identifies(u, login))
  }

  /** `userForLogin`: the record dispatched and kept in the session, without the
      password, the user id or the address, and with `lastName || ""`. */
  function LoginPayload(u: User): (p: User)
    ensures p.password.None? && p.userId.None? && p.address.None?
    ensures p.username == u.username && p.email == u.email && p.firstName == u.firstName
    ensures p.lastName.Some? && (u.lastName.Some? ==> p.lastName == u.lastName)
    ensures u.lastName.None? ==> p.lastName == Some("")
  {
    User(None, u.firstName, Some(if u.lastName.Some? then u.lastName.value else ""),
         u.username, None, u.email, None)
  }

  /** `handleSubmit(onSubmit)`: four refusals in a fixed order, then the session. */
  method Submit(f: LegacyLoginFields, auth: AuthStore) returns (out: Outcome)
    modifies auth`user, auth`isAuthenticated, auth.browser`currentUser, auth.browser`authCookie
    modifies auth.browser`sessionLoggedIn, auth.browser`sessionUser
    ensures out == Invalid <==> !LegacyLoginValid(f)
    ensures !out.LoggedIn? ==> unchanged(auth, auth.browser)
    ensures LegacyLoginValid(f) ==>
      && (auth.browser.registeredUsers.None? ==> out == NoRegistry)
      && (auth.browser.registeredUsers.Some? ==>
            var found := Lookup(auth.browser.registeredUsers.value, f.username);
            && (found.None? ==> out == NotRegistered)
            && (found.Some? && found.value.password != Some(f.password) ==> out == BadPassword)
            && (found.Some? && found.value.password == Some(f.password) ==>
                  if auth.browser.quotaFull then out == Failed
                  else
                    && out == LoggedIn(LoginPayload(found.value))
                    && auth.user == Some(out.payload) && auth.isAuthenticated
                    && auth.browser.currentUser == Some(out.payload)
                    && auth.browser.authCookie == Some(SessionAuthCookie)
                    && auth.browser.sessionLoggedIn
                    && auth.browser.sessionUser == Some(out.payload)))
  {
    if !LegacyLoginValid(f) {
      return Invalid;
    }
    var b := auth.browser;
    if b.registeredUsers.None? {
      return NoRegistry;
    }
    var found := Lookup(b.registeredUsers.value, f.username);
    if found.None? {
      return NotRegistered;
    }
    if found.value.password != Some(f.password) {
      return BadPassword;
    }
    var payload := LoginPayload(found.value);
    var ok := auth.Login(payload);
    if !ok {
      // The reducer's `currentUser` write throws inside `dispatch`.
      return Failed;
    }
    b.sessionLoggedIn := true;
    b.sessionUser := Some(payload);
    out := LoggedIn(payload);
  }

  /** Every outcome but success and schema refusal shows a message, and only the two
      "not registered" outcomes offer to register. */
  lemma RefusalsExplain(o: Outcome)
    requires !o.LoggedIn? && o != Invalid
    ensures ErrorMessage(o) != ""
    ensures RegisterPromptShown(o) <==> o == NoRegistry || o == NotRegistered
  {
  }

  /** A stored but empty registry is not "no registry": no identifier is found in it. */
  lemma EmptyRegistryFindsNobody(login: string)
    ensures Lookup([], login) == None
  {
  }

  /** An account is found by its username unless an earlier account has that username
      or uses it as its email. */
  lemma UsernameFindsAccount(users: seq<User>, k: int)
    requires 0 <= k < |users|
    requires forall j :: 0 <= j < k ==> users[j].username != users[k].username && users[j].email != users[k].username
    ensures Lookup(users, users[k].username) == Some(users[k])
  {
    var i := FindIndex(users, (u: User) => u.username == users[k].username || u.email == users[k].username);
    assert i == k;
  }

  /** An email that is also another account's username is looked up as that username
      first: the account owning the email then meets its neighbour's password check. */
  lemma EarlierUsernameShadowsEmail(a: User, b: User)
    requires b.email == a.username && a != b
    ensures Lookup([a, b], b.email) == Some(a)
  {
  }
}

/** src/components/auth/forms/LoginForm.tsx: the newer sign-in form. No page renders
    it: /login renders the older src/components/auth/LoginForm.tsx
    (src/app/login/page.tsx:3), so what is modelled here is latent. */
module LoginForm {
  import opened Common
  import opened Records
  import opened Text
  import opened Storage
  import opened AuthSchemas
  import opened Registry
  import opened AuthSlice
  import opened CartSlice
  import RegistrationForm

  /** `auth=true; path=/; max-age=86400`. */
  const LongAuthCookie := Cookie("true", Some(86400))

  const InvalidCredentials := "Invalid email or password"
  const LoginError := "An error occurred during login. Please try again."

  datatype Redirect = ToProduct(id: int) | ToPath(path: string)

  datatype Outcome =
    | Invalid                   // the schema refused: `onSubmit` never runs
    | Failed(message: string)
    | LoggedIn(user: User, redirect: Redirect)

  /** `data.email.trim().toLowerCase()`. */
  function NormaliseEmail(s: string): (r: string)
    ensures |r| <= |s|
    ensures forall k :: 0 <= k < |r| ==> !IsUpper(r[k])
    ensures r == [] || (!IsSpace(r[0]) && !IsSpace(r[|r| - 1]))
    ensures r == ToLower(Trim(s))
  {
    ToLower(Trim(s))
  }

  /** The `find` predicate as written: the stored email against the normalised
      input, the stored password against the trimmed input. */
  predicate Matches(u: User, email: string, password: string)
  {
    u.email == NormaliseEmail(email) && u.password == Some(Trim(password))
  }

  /** `users.find(...)` with the form's inputs: the first matching account. */
  function Authenticate(users: seq<User>, email: string, password: string): (r: Option<User>)
    ensures r.None? <==> forall k :: 0 <= k < |users| ==> !Matches(users[k], email, password)
    ensures r.Some? ==> Matches(r.value, email, password) && r.value in users
    ensures r.Some? ==> exists k :: 0 <= k < |users| && users[k] == r.value &&
                                    forall j :: 0 <= j < k ==> !Matches(users[j], email, password)
  {
    Find(users, (u: User) => Matches(u, email, password))
  }

  /** Where the form sends a signed-in user: to the product a guest tried to add to
      the cart, else to `from || "/"`. */
  function RedirectAfterLogin(pending: Option<int>, from: Option<string>): (r: Redirect)
    ensures pending.Some? ==> r == ToProduct(pending.value)
    ensures pending.None? && from.Some? && from.value != "" ==> r == ToPath(from.value)
    ensures pending.None? && (from.None? || from.value == "") ==> r == ToPath("/")
  {
    if pending.Some? then ToProduct(pending.value)
    else if from.Some? && from.value != "" then ToPath(from.value)
    else ToPath("/")
  }

  /** The success branch as written: the long-lived cookie, `currentUser`, then the
      `login` and `setUserId` dispatches. The reducer's own `auth=true; path=/`
      replaces the long-lived cookie (same name and path). When localStorage is full
      the `currentUser` write throws after the cookie is already set. */
  method SignIn(user: User, auth: AuthStore, cart: CartStore) returns (ok: bool)
    requires auth.browser == cart.browser
    modifies auth.browser`authCookie, auth.browser`currentUser
    modifies auth`user, auth`isAuthenticated, cart`items, cart`userId
    ensures ok == !auth.browser.quotaFull
    ensures ok ==> auth.browser.authCookie == Some(SessionAuthCookie)
    ensures !ok ==> auth.browser.authCookie == Some(LongAuthCookie)
    ensures ok ==> && auth.browser.currentUser == Some(user)
                   && auth.user == Some(user) && auth.isAuthenticated
                   && cart.userId == user.username
                   && cart.items == Loaded(auth.browser.carts, user.username)
                   && cart.Synced()
    ensures !ok ==> && auth.browser.currentUser == old(auth.browser.currentUser)
                    && unchanged(auth, cart)
  {
    var b := auth.browser;
    b.authCookie := Some(LongAuthCookie);
    if b.quotaFull {
      return false;
    }
    b.currentUser := Some(user);
    ok := auth.Login(user);
    cart.SetUserId(user.username);
  }

  /** The success branch with the long-lived cookie written after the dispatches:
      the 24-hour cookie survives, and a failed sign-in leaves no cookie behind. */
  method SignInKeepingLongCookie(user: User, auth: AuthStore, cart: CartStore) returns (ok: bool)
    requires auth.browser == cart.browser
    modifies auth.browser`authCookie, auth.browser`currentUser
    modifies auth`user, auth`isAuthenticated, cart`items, cart`userId
    ensures ok == !auth.browser.quotaFull
    ensures ok ==> auth.browser.authCookie == Some(LongAuthCookie)
    ensures ok ==> && auth.browser.currentUser == Some(user)
                   && auth.user == Some(user) && auth.isAuthenticated
                   && cart.userId == user.username
                   && cart.items == Loaded(auth.browser.carts, user.username)
                   && cart.Synced()
    ensures !ok ==> unchanged(auth, cart, auth.browser)
  {
    var b := auth.browser;
    if b.quotaFull {
      return false;
    }
    b.currentUser := Some(user);
    ok := auth.Login(user);
    cart.SetUserId(user.username);
    b.authCookie := Some(LongAuthCookie);
  }

  /** `handleSubmit(onSubmit)`. `pending` is the product id kept in sessionStorage
      `pendingCartItem`, `from` the `from` search parameter. */
  method Submit(f: LoginFields, isEmail: string -> bool, pending: Option<int>, from: Option<string>,
                auth: AuthStore, cart: CartStore)
    returns (out: Outcome)
    requires auth.browser == cart.browser
    modifies auth.browser`authCookie, auth.browser`currentUser
    modifies auth`user, auth`isAuthenticated, cart`items, cart`userId
    ensures out == Invalid <==> !LoginValid(f, isEmail)
    ensures !LoginValid(f, isEmail) ==> unchanged(auth, cart, auth.browser)
    ensures LoginValid(f, isEmail) ==>
      var found := Authenticate(UsersOf(auth.browser.registeredUsers), f.email, f.password);
      && (found.None? ==> out == Failed(InvalidCredentials) && unchanged(auth, cart, auth.browser))
      && (found.Some? && auth.browser.quotaFull ==>
            && out == Failed(LoginError)
            && auth.browser.authCookie == Some(LongAuthCookie)
            && unchanged(auth, cart)
            && auth.browser.currentUser == old(auth.browser.currentUser))
      && (found.Some? && !auth.browser.quotaFull ==>
            && out == LoggedIn(found.value, RedirectAfterLogin(pending, from))
            && auth.browser.authCookie == Some(SessionAuthCookie)
            && auth.browser.currentUser == found
            && auth.user == found && auth.isAuthenticated
            && cart.userId == found.value.username
            && cart.items == Loaded(auth.browser.carts, found.value.username)
            && cart.Synced())
  {
    if !LoginValid(f, isEmail) {
      return Invalid;
    }
    var found := Authenticate(UsersOf(auth.browser.registeredUsers), f.email, f.password);
    if found.None? {
      return Failed(InvalidCredentials);
    }
    var ok := SignIn(found.value, auth, cart);
    assert found == Authenticate(UsersOf(auth.browser.registeredUsers), f.email, f.password);
    if !ok {
      return Failed(LoginError);
    }
    out := LoggedIn(found.value, RedirectAfterLogin(pending, from));
  }

  /** Whatever is typed, a signed-in account's stored email has no capital letter and
      its stored password neither starts nor ends with whitespace. */
  lemma SignedInAccountShape(users: seq<User>, email: string, password: string)
    requires Authenticate(users, email, password).Some?
    ensures var u := Authenticate(users, email, password).value;
      && (forall k :: 0 <= k < |u.email| ==> !IsUpper(u.email[k]))
      && u.password.Some? && u.password.value == Trim(password)
  {
  }

  /** An account registered with a capital letter in its email is stored as typed,
      so no input can ever sign it in through this form. */
  lemma MixedCaseRegistrantLockedOut(users: seq<User>, reg: RegisterFields, email: string, password: string)
    requires HasUpper(reg.email)
    ensures Authenticate(users + [RegistrationForm.NewUser(reg)], email, password)
            != Some(RegistrationForm.NewUser(reg))
  {
  }

  /** The same holds for a password registered with surrounding whitespace: the typed
      password is trimmed before it is compared with the one stored as typed. */
  lemma PaddedPasswordLockedOut(users: seq<User>, reg: RegisterFields, email: string, password: string)
    requires reg.password != [] && IsSpace(reg.password[|reg.password| - 1])
    ensures Authenticate(users + [RegistrationForm.NewUser(reg)], email, password)
            != Some(RegistrationForm.NewUser(reg))
  {
  }

  /** The matching the normalisation evidently intends: emails compared after trimming
      and lower-casing both sides, the password exactly as registered. */
  predicate MatchesNormalised(u: User, email: string, password: string)
  {
    NormaliseEmail(u.email) == NormaliseEmail(email) && u.password == Some(password)
  }

  /** `find` with the corrected matching: still the first matching account. */
  function AuthenticateNormalised(users: seq<User>, email: string, password: string): (r: Option<User>)
    ensures r.None? <==> forall k :: 0 <= k < |users| ==> !MatchesNormalised(users[k], email, password)
    ensures r.Some? ==> MatchesNormalised(r.value, email, password) && r.value in users
    ensures r.Some? ==> exists k :: 0 <= k < |users| && users[k] == r.value &&
                                    forall j :: 0 <= j < k ==> !MatchesNormalised(users[j], email, password)
  {
    Find(users, (u: User) => MatchesNormalised(u, email, password))
  }

  /** With the normalised matching, every account just registered can sign in with
      the email and password it registered with. */
  lemma RegisteredUserCanSignIn(users: seq<User>, reg: RegisterFields)
    ensures AuthenticateNormalised(users + [RegistrationForm.NewUser(reg)], reg.email, reg.password).Some?
  {
    var s := users + [RegistrationForm.NewUser(reg)];
    assert MatchesNormalised(s[|users|], reg.email, reg.password);
  }

  /** As written, the round trip holds only for an email already in normal form and
      a password without surrounding whitespace. */
  lemma NormalisedRegistrantCanSignIn(users: seq<User>, reg: RegisterFields)
    requires NormaliseEmail(reg.email) == reg.email && Trim(reg.password) == reg.password
    ensures Authenticate(users + [RegistrationForm.NewUser(reg)], reg.email, reg.password).Some?
  {
    var s := users + [RegistrationForm.NewUser(reg)];
    assert Matches(s[|users|], reg.email, reg.password);
  }
}

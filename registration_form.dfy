/** src/components/auth/forms/RegistrationForm.tsx: the newer sign-up form. No page
    renders it: /register renders the older src/components/auth/RegistrationForm.tsx
    (src/app/register/page.tsx:3). */
module RegistrationForm {
  import opened Common
  import opened Records
  import opened Storage
  import opened AuthSchemas
  import opened Registry
  import opened AuthSlice
  import opened CartSlice

  datatype Outcome =
    | Invalid                   // the schema refused: `onSubmit` never runs
    | Failed(message: string)   // the `error` shown under the form
    | Registered(redirect: string)

  /** `newUser`: the form's fields, with the username doubling as the user id and
      no address. */
  function NewUser(f: RegisterFields): User
  {
    User(Some(f.username), f.firstName, f.lastName, f.username, Some(f.password), f.email, None)
  }

  /** `handleSubmit(onSubmit)`. On success the registry gains the account, the user
      is logged in (cookie, `currentUser`, auth state), the cart of the previous
      user id is cleared and the cart switches to the new username. */
  method Submit(f: RegisterFields, isEmail: string -> bool, auth: AuthStore, cart: CartStore)
    returns (out: Outcome)
    requires auth.browser == cart.browser
    modifies auth.browser`registeredUsers, auth.browser`authCookie, auth.browser`currentUser
    modifies auth`user, auth`isAuthenticated, cart`items, cart`userId, cart.browser`carts
    ensures out == Invalid <==> !RegisterValid(f, isEmail)
    ensures !RegisterValid(f, isEmail) ==> unchanged(auth, cart, auth.browser)
    ensures RegisterValid(f, isEmail) ==>
      var a := CheckNew(UsersOf(old(auth.browser.registeredUsers)), f.username, f.email);
      && (a != Available ==> out == Failed(Message(a)) && unchanged(auth, cart, auth.browser))
      && (a == Available && auth.browser.quotaFull ==>
            out == Failed(RegistrationFailed) && unchanged(auth, cart, auth.browser))
      && (a == Available && !auth.browser.quotaFull ==>
            && out == Registered("/")
            && auth.browser.registeredUsers == Some(UsersOf(old(auth.browser.registeredUsers)) + [NewUser(f)])
            && auth.browser.authCookie == Some(SessionAuthCookie)
            && auth.browser.currentUser == Some(NewUser(f))
            && auth.user == Some(NewUser(f)) && auth.isAuthenticated
            && auth.browser.carts == Cleared(old(auth.browser.carts), old(cart.userId))
            && cart.userId == f.username
            && cart.items == Loaded(auth.browser.carts, f.username)
            && cart.Synced())
  {
    if !RegisterValid(f, isEmail) {
      return Invalid;
    }
    var b := auth.browser;
    var users := UsersOf(b.registeredUsers);
    var a := CheckNew(users, f.username, f.email);
    if a != Available {
      return Failed(Message(a));
    }
    var u := NewUser(f);
    if b.quotaFull {
      // `localStorage.setItem("registered_users", ...)` throws.
      return Failed(RegistrationFailed);
    }
    b.registeredUsers := Some(users + [u]);
    b.authCookie := Some(SessionAuthCookie);
    b.currentUser := Some(u);
    var ok := auth.Login(u);
    cart.ClearCart();
    cart.SetUserId(u.username);
    out := Registered("/");
  }

  /** A successful registration keeps the registry free of duplicate usernames and
      emails, and a second attempt with the same username is refused. */
  lemma RegistrationKeepsRegistryUnique(users: seq<User>, f: RegisterFields)
    requires UniqueAccounts(users)
    requires CheckNew(users, f.username, f.email) == Available
    ensures UniqueAccounts(users + [NewUser(f)])
    ensures CheckNew(users + [NewUser(f)], f.username, f.email) == UsernameExists
  {
    AvailableKeepsUnique(users, NewUser(f));
    SecondRegistrationRefused(users, NewUser(f), f.email);
  }
}

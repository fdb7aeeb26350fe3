/** src/components/auth/RegistrationForm.tsx: the older sign-up form, the one /register
    renders. It stores the
    account, logs the user in through the mounted auth reducer and records the
    session in sessionStorage; it leaves the cart alone. */
module LegacyRegistrationForm {
  import opened Common
  import opened Records
  import opened Storage
  import opened FormRules
  import opened AuthSchemas
  import opened Registry
  import opened AuthSlice
  import LegacyLoginForm

  datatype LegacyRegisterFields = LegacyRegisterFields(
    firstName: string, lastName: string, username: string, password: string,
    email: string, address: string)

  /** The form's own schema: the password rules of the newer schema, no confirmation. */
  predicate LegacyRegisterValid(f: LegacyRegisterFields, isEmail: string -> bool)
  {
    Required(f.firstName) && Required(f.username) && PasswordRule(f.password) &&
    Required(f.email) && isEmail(f.email)
  }

  datatype Outcome = Invalid | Failed(message: string) | Registered(payload: User)

  /** `userData`: no user id; an empty last name is dropped. */
  function LegacyNewUser(f: LegacyRegisterFields): (u: User)
    ensures u.lastName.None? <==> f.lastName == ""
    ensures u.password == Some(f.password) && u.username == f.username && u.email == f.email
  {
    User(None, f.firstName, if f.lastName == "" then None else Some(f.lastName),
         f.username, Some(f.password), f.email, Some(f.address))
  }

  method Submit(f: LegacyRegisterFields, isEmail: string -> bool, auth: AuthStore) returns (out: Outcome)
    modifies auth`user, auth`isAuthenticated, auth.browser`registeredUsers
    modifies auth.browser`currentUser, auth.browser`authCookie
    modifies auth.browser`sessionLoggedIn, auth.browser`sessionUser
    ensures out == Invalid <==> !LegacyRegisterValid(f, isEmail)
    ensures !out.Registered? ==> unchanged(auth, auth.browser)
    ensures LegacyRegisterValid(f, isEmail) ==>
      var a := CheckNew(UsersOf(old(auth.browser.registeredUsers)), f.username, f.email);
      && (a != Available ==> out == Failed(Message(a)))
      && (a == Available && auth.browser.quotaFull ==> out == Failed(RegistrationFailed))
      && (a == Available && !auth.browser.quotaFull ==>
            && out == Registered(LegacyLoginForm.LoginPayload(LegacyNewUser(f)))
            && auth.browser.registeredUsers == Some(UsersOf(old(auth.browser.registeredUsers)) + [LegacyNewUser(f)])
            && auth.user == Some(out.payload) && auth.isAuthenticated
            && auth.browser.currentUser == Some(out.payload)
            && auth.browser.authCookie == Some(SessionAuthCookie)
            && auth.browser.sessionLoggedIn
            && auth.browser.sessionUser == Some(out.payload))
  {
    if !LegacyRegisterValid(f, isEmail) {
      return Invalid;
    }
    var b := auth.browser;
    var users := UsersOf(b.registeredUsers);
    var a := CheckNew(users, f.username, f.email);
    if a != Available {
      return Failed(Message(a));
    }
    if b.quotaFull {
      return Failed(RegistrationFailed);
    }
    var u := LegacyNewUser(f);
    b.registeredUsers := Some(users + [u]);
    var payload := LegacyLoginForm.LoginPayload(u);
    var ok := auth.Login(payload);
    b.sessionLoggedIn := true;
    b.sessionUser := Some(payload);
    out := Registered(payload);
  }

  /** Every password this form accepts also passes the newer registration schema's
      password rule, and the payload keeps the typed last name. */
  lemma LegacyAccountShape(f: LegacyRegisterFields, isEmail: string -> bool)
    requires LegacyRegisterValid(f, isEmail)
    ensures PasswordRule(f.password)
    ensures LegacyLoginForm.LoginPayload(LegacyNewUser(f)).lastName == Some(f.lastName)
    ensures LegacyLoginForm.LoginPayload(LegacyNewUser(f)).password.None?
  {
  }

  /** Round trip with the older login form: an account that passed the duplicate checks,
      and whose username is nobody's email, is found by its username and accepted
      with the password it registered with. */
  lemma RegisteredCanLogIn(users: seq<User>, f: LegacyRegisterFields)
    requires CheckNew(users, f.username, f.email) == Available
    requires !EmailTaken(users, f.username)
    ensures LegacyLoginForm.Lookup(users + [LegacyNewUser(f)], f.username) == Some(LegacyNewUser(f))
    ensures LegacyNewUser(f).password == Some(f.password)
  {
    var s := users + [LegacyNewUser(f)];
    forall j | 0 <= j < |users|
      ensures s[j].username != s[|users|].username && s[j].email != s[|users|].username
    {
      assert s[j] == users[j];
    }
    LegacyLoginForm.UsernameFindsAccount(s, |users|);
  }
}

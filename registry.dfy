/** The `registered_users` list both registration forms append to and both login
    forms search, with the duplicate checks the registration forms share
    (src/components/auth/forms/RegistrationForm.tsx and
    src/components/auth/RegistrationForm.tsx run the same two checks in the same order). */
module Registry {
  import opened Common
  import opened Records

  /** `existing ? JSON.parse(existing) : []`. */
  function UsersOf(stored: Option<seq<User>>): seq<User>
  {
    if stored.Some? then stored.value else []
  }

  /** `Array.prototype.some`. */
  predicate Some<T>(s: seq<T>, p: T -> bool)
  {
    FindIndex(s, p) != -1
  }

  predicate UsernameTaken(users: seq<User>, name: string)
  {
    exists k :: 0 <= k < |users| && users[k].username == name
  }

  predicate EmailTaken(users: seq<User>, email: string)
  {
    exists k :: 0 <= k < |users| && users[k].email == email
  }

  /** No two accounts share a username or an email. */
  predicate UniqueAccounts(users: seq<User>)
  {
    forall i, j :: 0 <= i < j < |users| ==>
      users[i].username != users[j].username && users[i].email != users[j].email
  }

  datatype Availability = Available | UsernameExists | EmailExists

  /** The error each refusal shows. */
  function Message(a: Availability): string
  {
    match a
    case Available => ""
    case UsernameExists => "Username already exists. Please choose another one."
    case EmailExists => "Email already exists. Please use another email or login."
  }

  /** The message shown when writing the registry throws. */
  const RegistrationFailed := "Registration failed. Please try again."

  /** The two `users.some(...)` checks: the username first, then the email. */
  function CheckNew(users: seq<User>, username: string, email: string): (a: Availability)
    ensures a == UsernameExists <==> UsernameTaken(users, username)
    ensures a == EmailExists <==> !UsernameTaken(users, username) && EmailTaken(users, email)
    ensures a == Available <==> !UsernameTaken(users, username) && !EmailTaken(users, email)
  {
    if Some(users, (u: User) => u.username == username) then UsernameExists
    else if Some(users, (u: User) => u.email == email) then EmailExists
    else Available
  }

  /** Appending an account that passed both checks keeps the registry free of duplicates. */
  lemma AvailableKeepsUnique(users: seq<User>, u: User)
    requires UniqueAccounts(users)
    requires CheckNew(users, u.username, u.email) == Available
    ensures UniqueAccounts(users + [u])
  {
    var r := users + [u];
    forall i, j | 0 <= i < j < |r|
      ensures r[i].username != r[j].username && r[i].email != r[j].email
    {
      if j == |users| {
        assert r[i] == users[i] && r[j] == u;
      } else {
        assert r[i] == users[i] && r[j] == users[j];
      }
    }
  }

  /** Once registered, the same username is refused, whatever the email. */
  lemma SecondRegistrationRefused(users: seq<User>, u: User, email: string)
    ensures CheckNew(users + [u], u.username, email) == UsernameExists
  {
    assert (users + [u])[|users|] == u;
  }
}

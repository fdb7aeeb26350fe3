/** src/schemas/authSchemas.ts: the login and registration rules, as predicates.
    The library's `.email()` format check is not part of this model; it is a
    parameter `isEmail`. */
module AuthSchemas {
  import opened Common
  import opened Text
  import opened FormRules

  datatype LoginFields = LoginFields(email: string, password: string)

  datatype RegisterFields = RegisterFields(
    firstName: string, lastName: Option<string>, username: string, password: string,
    confirmPassword: string, email: string, address: Option<string>)

  /** Required, at least 8 characters, and matching `/[0-9]/`, `/[A-Z]/` and `/[^A-Za-z0-9]/`. */
  predicate PasswordRule(p: string)
  {
    Required(p) && |p| >= 8 && HasDigit(p) && HasUpper(p) && HasNonAlnum(p)
  }

  /** `.oneOf([ref("password")]).required()`. */
  predicate ConfirmRule(confirm: string, password: string)
  {
    Required(confirm) && confirm == password
  }

  predicate LoginValid(f: LoginFields, isEmail: string -> bool)
  {
    Required(f.email) && isEmail(f.email) && Required(f.password)
  }

  /** lastName and address carry no rule. */
  predicate RegisterValid(f: RegisterFields, isEmail: string -> bool)
  {
    && Required(f.firstName)
    && Required(f.username)
    && PasswordRule(f.password)
    && ConfirmRule(f.confirmPassword, f.password)
    && Required(f.email) && isEmail(f.email)
  }

  /** The four character classes the password regular expressions distinguish. */
  datatype CharClass = Digit | Capital | Small | Other

  function ClassOf(c: char): CharClass
  {
    if IsDigit(c) then Digit else if IsUpper(c) then Capital else if IsLower(c) then Small else Other
  }

  /** The classes a password draws its characters from. */
  function Classes(p: string): set<CharClass>
  {
    set i | 0 <= i < |p| :: ClassOf(p[i])
  }

  /** The password rule as a covering condition: at least 8 characters drawn from the
      digit, capital and "other" classes at least, lower case optional. */
  lemma PasswordRuleMeaning(p: string)
    ensures PasswordRule(p) <==> |p| >= 8 && {Digit, Capital, Other} <= Classes(p)
  {
    if PasswordRule(p) {
      var d :| 0 <= d < |p| && IsDigit(p[d]);
      var u :| 0 <= u < |p| && IsUpper(p[u]);
      var o :| 0 <= o < |p| && !IsAlnum(p[o]);
      assert ClassOf(p[d]) == Digit && ClassOf(p[u]) == Capital && ClassOf(p[o]) == Other;
    }
    if |p| >= 8 && {Digit, Capital, Other} <= Classes(p) {
      assert Digit in Classes(p) && Capital in Classes(p) && Other in Classes(p);
      var d :| 0 <= d < |p| && ClassOf(p[d]) == Digit;
      var u :| 0 <= u < |p| && ClassOf(p[u]) == Capital;
      var o :| 0 <= o < |p| && ClassOf(p[o]) == Other;
      assert IsDigit(p[d]) && IsUpper(p[u]) && !IsAlnum(p[o]);
    }
  }

  /** No lower-case letter is needed and a space counts as the special character. */
  lemma PasswordRuleExamples()
    ensures PasswordRule("ABCDEFG1!")
    ensures PasswordRule("ABCDEFG1 ")
    ensures !PasswordRule("abcdefg1!")
    ensures !PasswordRule("ABCDE1!")
  {
    var p, q := "ABCDEFG1!", "ABCDEFG1 ";
    var r := "abcdefg1!";
    assert forall k :: 0 <= k < |r| ==> !IsUpper(r[k]) by {
      forall k | 0 <= k < |r| ensures !IsUpper(r[k]) {
        assert r[k] in {'a', 'b', 'c', 'd', 'e', 'f', 'g', '1', '!'};
      }
    }
    assert IsDigit(p[7]) && IsUpper(p[0]) && !IsAlnum(p[8]);
    assert IsDigit(q[7]) && IsUpper(q[0]) && !IsAlnum(q[8]);
  }

  /** A registered password always satisfies the login form's password rule, and an
      accepted registration always passes the login schema with the same email. */
  lemma RegisterPasswordPassesLogin(f: RegisterFields, isEmail: string -> bool)
    requires RegisterValid(f, isEmail)
    ensures LoginValid(LoginFields(f.email, f.password), isEmail)
  {
  }

  /** The confirmation is held to the password rule too, through the equality, and a
      form whose confirmation differs from its password is refused whatever else it holds. */
  lemma ConfirmationMeetsPasswordRule(f: RegisterFields, isEmail: string -> bool)
    ensures RegisterValid(f, isEmail) ==> PasswordRule(f.confirmPassword)
    ensures f.confirmPassword != f.password ==> !RegisterValid(f, isEmail)
  {
  }
}

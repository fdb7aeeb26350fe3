/** src/components/checkout/ShippingForm.tsx: the address fields' validation rules. */
module ShippingForm {
  import opened Text
  import opened FormRules

  datatype ShippingData = ShippingData(
    firstName: string, lastName: string, address1: string, address2: string,
    city: string, state: string, postalCode: string, country: string,
    email: string, phone: string, saveAddress: bool)

  const EmptyShipping := ShippingData("", "", "", "", "", "", "", "", "", "", false)

  /** '@' at i and '.' at j split `s` into three non-empty runs. */
  predicate EmailAt(s: string, i: int, j: int)
  {
    0 < i && i + 1 < j && j + 1 < |s| && s[i] == '@' && s[j] == '.'
  }

  /** `/^\S+@\S+\.\S+$/`: no whitespace anywhere, and some '@' followed later by a
      '.' with at least one character before, between and after. */
  predicate EmailPattern(s: string)
  {
    NoSpace(s) && exists i, j | 0 <= i < j < |s| :: EmailAt(s, i, j)
  }

  /** address2 and saveAddress carry no rule. */
  predicate ShippingValid(d: ShippingData)
  {
    && Required(d.firstName) && Required(d.lastName) && Required(d.address1)
    && Required(d.city) && Required(d.state) && Required(d.postalCode)
    && Required(d.country) && Required(d.email) && EmailPattern(d.email)
    && Required(d.phone)
  }

  /** Every whitespace-free local part, domain and suffix compose an accepted address. */
  lemma EmailPatternOfParts(a: string, b: string, c: string)
    requires a != "" && b != "" && c != ""
    requires NoSpace(a) && NoSpace(b) && NoSpace(c)
    ensures EmailPattern(a + "@" + b + "." + c)
  {
    var s := a + "@" + b + "." + c;
    assert EmailAt(s, |a|, |a| + 1 + |b|);
    forall k | 0 <= k < |s| ensures !IsSpace(s[k]) {
      if k < |a| { assert s[k] == a[k]; }
      else if k == |a| { assert s[k] == '@'; }
      else if k < |a| + 1 + |b| { assert s[k] == b[k - |a| - 1]; }
      else if k == |a| + 1 + |b| { assert s[k] == '.'; }
      else { assert s[k] == c[k - |a| - 2 - |b|]; }
    }
  }

  /** Every accepted address is non-empty and holds both separators. */
  lemma EmailPatternHasSeparators(s: string)
    requires EmailPattern(s)
    ensures |s| >= 5 && '@' in s && '.' in s
  {
    var i, j :| 0 <= i < j < |s| && EmailAt(s, i, j);
    assert s[i] == '@' && s[j] == '.';
  }

  /** A second '@' is let through; a missing suffix, a space or an empty local part is not. */
  lemma EmailPatternExamples()
    ensures EmailPattern("a@b.c")
    ensures EmailPattern("a@b@c.d")
    ensures !EmailPattern("a@b")
    ensures !EmailPattern("a b@c.d")
    ensures !EmailPattern("@b.c")
  {
    EmailPatternOfParts("a", "b", "c");
    assert "a" + "@" + "b" + "." + "c" == "a@b.c";
    EmailPatternOfParts("a", "b@c", "d");
    assert "a" + "@" + "b@c" + "." + "d" == "a@b@c.d";
    var t := "a@b";
    assert forall i, j :: !EmailAt(t, i, j);
    var u := "a b@c.d";
    assert IsSpace(u[1]);
    var v := "@b.c";
    assert forall i | 0 < i < |v| :: v[i] != '@';
  }

  /** Postal code, phone and the other plain fields accept any non-empty text, and
      address2 may be empty. */
  lemma FreeFormFields(d: ShippingData, text: string)
    requires text != "" && EmailPattern(d.email)
    ensures ShippingValid(d.(firstName := text, lastName := text, address1 := text, address2 := "",
                             city := text, state := text, postalCode := text, country := text,
                             phone := text))
  {
  }

  lemma EmptyShippingRejected()
    ensures !ShippingValid(EmptyShipping)
  {
  }
}

/** src/schemas/contactSchema.ts: the contact form rules. The `.email()` format
    check is a parameter `isEmail`. */
module ContactSchema {
  import opened FormRules

  datatype ContactFields = ContactFields(name: string, email: string, subject: string, message: string)

  /** `.required().min(lo).max(hi)` on a string: non-empty and lo <= length <= hi. */
  predicate Bounded(s: string, lo: nat, hi: nat)
  {
    Required(s) && lo <= |s| <= hi
  }

  predicate NameRule(s: string) { Bounded(s, 2, 50) }
  predicate EmailRule(s: string, isEmail: string -> bool) { Required(s) && isEmail(s) && |s| <= 100 }
  predicate SubjectRule(s: string) { Bounded(s, 5, 100) }
  predicate MessageRule(s: string) { Bounded(s, 20, 1000) }

  predicate ContactValid(f: ContactFields, isEmail: string -> bool)
  {
    NameRule(f.name) && EmailRule(f.email, isEmail) && SubjectRule(f.subject) && MessageRule(f.message)
  }

  /** Every field rejects the empty string, so an empty form is never sent. */
  lemma EmptyFieldsRejected(isEmail: string -> bool)
    ensures !NameRule("") && !EmailRule("", isEmail) && !SubjectRule("") && !MessageRule("")
    ensures !ContactValid(ContactFields("", "", "", ""), isEmail)
  {
  }

  /** The maxima are inclusive: a 50-character name passes although the message
      says "less than 50"; 51 characters fail. */
  lemma NameMaximumInclusive(s: string)
    ensures |s| == 50 ==> NameRule(s)
    ensures |s| == 51 ==> !NameRule(s)
    ensures |s| == 1 ==> !NameRule(s)
  {
  }

  /** The length windows of the other fields. */
  lemma FieldWindows(s: string, isEmail: string -> bool)
    ensures SubjectRule(s) <==> 5 <= |s| <= 100
    ensures MessageRule(s) <==> 20 <= |s| <= 1000
    ensures EmailRule(s, isEmail) <==> 1 <= |s| <= 100 && isEmail(s)
  {
  }
}

/** The `required` rule shared by the form libraries: a string field is missing
    when it is the empty string (no trimming: a lone space passes). */
module FormRules {
  predicate Required(s: string) { s != "" }
}

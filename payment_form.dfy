/** src/components/checkout/PaymentForm.tsx: the card fields' validation rules. */
module PaymentForm {
  import opened Text
  import opened FormRules

  datatype PaymentData = PaymentData(cardName: string, cardNumber: string, expDate: string, cvv: string, saveCard: bool)

  const EmptyPayment := PaymentData("", "", "", "", false)

  /** `/^[0-9]{16}$/`. */
  predicate CardNumberRule(s: string) { Required(s) && |s| == 16 && AllDigits(s) }

  /** `0[1-9]` or `1[0-2]`. */
  predicate MonthDigits(a: char, b: char)
  {
    (a == '0' && '1' <= b <= '9') || (a == '1' && '0' <= b <= '2')
  }

  /** `/^(0[1-9]|1[0-2])\/\d{2}$/`. */
  predicate ExpDateRule(s: string)
  {
    Required(s) && |s| == 5 && MonthDigits(s[0], s[1]) && s[2] == '/' && IsDigit(s[3]) && IsDigit(s[4])
  }

  /** `/^[0-9]{3,4}$/`. */
  predicate CvvRule(s: string) { Required(s) && (|s| == 3 || |s| == 4) && AllDigits(s) }

  /** The form's submit handler runs only when every rule holds; saveCard has none. */
  predicate PaymentValid(d: PaymentData)
  {
    Required(d.cardName) && CardNumberRule(d.cardNumber) && ExpDateRule(d.expDate) && CvvRule(d.cvv)
  }

  function DigitValue(c: char): int
  {
    c as int - '0' as int
  }

  /** The expiry rule reads "MM/YY" with a month between 1 and 12; the year is any
      two digits (no check against the current date). */
  lemma ExpDateMeaning(s: string)
    ensures ExpDateRule(s) <==>
      |s| == 5 && IsDigit(s[0]) && IsDigit(s[1]) && s[2] == '/' && IsDigit(s[3]) && IsDigit(s[4]) &&
      1 <= 10 * DigitValue(s[0]) + DigitValue(s[1]) <= 12
  {
    if |s| == 5 && IsDigit(s[0]) && IsDigit(s[1]) {
      var m := 10 * DigitValue(s[0]) + DigitValue(s[1]);
      if s[0] == '0' {
        assert m == DigitValue(s[1]);
      } else if s[0] == '1' {
        assert m == 10 + DigitValue(s[1]);
      } else {
        assert DigitValue(s[0]) >= 2;
      }
    }
  }

  lemma ExpDateExamples()
    ensures ExpDateRule("12/99") && ExpDateRule("01/00")
    ensures !ExpDateRule("00/25") && !ExpDateRule("13/25") && !ExpDateRule("1/25") && !ExpDateRule("12-25")
  {
  }

  /** Exactly sixteen ASCII digits: grouped numbers are refused and no checksum is applied. */
  /** The card-number rule reads exactly sixteen decimal digits; `required` adds nothing. */
  lemma CardNumberMeaning(s: string)
    ensures CardNumberRule(s) <==> |s| == 16 && forall k :: 0 <= k < |s| ==> 0 <= DigitValue(s[k]) <= 9
  {
  }

  /** The CVV rule reads three or four decimal digits; `required` adds nothing. */
  lemma CvvMeaning(s: string)
    ensures CvvRule(s) <==> (|s| == 3 || |s| == 4) && forall k :: 0 <= k < |s| ==> 0 <= DigitValue(s[k]) <= 9
  {
  }

  lemma CardNumberExamples()
    ensures CardNumberRule("0000000000000000")
    ensures !CardNumberRule("4111 1111 1111 1111")
    ensures !CardNumberRule("411111111111111")
  {
    var z := "0000000000000000";
    assert forall k :: 0 <= k < |z| ==> z[k] == '0';
  }

  lemma CvvExamples()
    ensures CvvRule("123") && CvvRule("1234")
    ensures !CvvRule("12") && !CvvRule("12345") && !CvvRule("12a")
  {
    var a := "12a";
    assert !IsDigit(a[2]);
  }

  /** The initial data never passes: the payment step cannot be skipped with empty fields. */
  lemma EmptyPaymentRejected()
    ensures !PaymentValid(EmptyPayment)
  {
  }
}

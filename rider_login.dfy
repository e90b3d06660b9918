/**
 * The phone-number step of the login: the typed text keeps its ASCII digits,
 * ten of them make the number valid, and Continue opens the OTP step for a
 * rider.
 */
module RiderLogin {
  import opened Wrappers
  import opened Text
  import Lists

  /** `text.replace(/[^0-9]/g, '')`: the digits of `text`, in order. */
  function Digits(text: string): (r: string)
    ensures |r| <= |text|
    ensures forall i :: 0 <= i < |r| ==> IsDigit(r[i])
    ensures forall i :: 0 <= i < |text| && IsDigit(text[i]) ==> text[i] in r
    ensures Lists.IsSubseq(r, text)
  {
    Lists.FilterIsSubseq(text, IsDigit);
    Lists.Filter(text, IsDigit)
  }

  /** Filtering digits twice is filtering once, so re-entering the shown
      number leaves it unchanged. */
  lemma DigitsIdempotent(text: string)
    ensures Digits(Digits(text)) == Digits(text)
  {
    Lists.FilterIdempotent(text, IsDigit);
  }

  /** Pasting two pieces keeps the digits of each, in order. */
  lemma DigitsConcat(a: string, b: string)
    ensures Digits(a + b) == Digits(a) + Digits(b)
  {
    Lists.FilterConcat(a, b, IsDigit);
  }

  /** Text that holds no digit clears the field. */
  lemma DigitsOfNone(text: string)
    requires forall i :: 0 <= i < |text| ==> !IsDigit(text[i])
    ensures Digits(text) == ""
  {
  }

  /** The phone is valid at exactly ten characters. */
  predicate IsValid(phone: string) { |phone| == 10 }

  /** The parameters of the OTP step. */
  datatype OtpParams = OtpParams(phone: string, role: string)

  /** `handleContinue`: nothing for an invalid phone, otherwise the trimmed phone
      and the role RIDER. */
  function Continue(phone: string): (r: Option<OtpParams>)
    ensures r.Some? <==> IsValid(phone)
    ensures r.Some? ==> r.value.role == "RIDER" && r.value.phone == Trim(phone)
  {
    if !IsValid(phone) then None else Some(OtpParams(Trim(phone), "RIDER"))
  }

  /** A number typed through the digit filter reaches the OTP step unchanged,
      since digits are never white space. */
  lemma ContinueWithTypedPhone(text: string)
    requires IsValid(Digits(text))
    ensures Continue(Digits(text)) == Some(OtpParams(Digits(text), "RIDER"))
  {
    TrimOfNoSpace(Digits(text));
  }

  /** A number typed in two groups with a space between still reaches the OTP
      step as its ten digits. */
  lemma GroupedNumber(a: string, b: string)
    requires forall i :: 0 <= i < |a| ==> IsDigit(a[i])
    requires forall i :: 0 <= i < |b| ==> IsDigit(b[i])
    requires |a| + |b| == 10
    ensures Continue(Digits(a + " " + b)) == Some(OtpParams(a + b, "RIDER"))
  {
    var typed := a + " " + b;
    DigitsOfDigits(a);
    DigitsOfNone(" ");
    DigitsConcat(a, " ");
    assert Digits(a + " ") == a by { assert a + "" == a; }
    DigitsOfDigits(b);
    DigitsConcat(a + " ", b);
    ContinueWithTypedPhone(typed);
  }

  /** Text made of digits passes through the filter unchanged. */
  lemma {:induction false} DigitsOfDigits(text: string)
    requires forall i :: 0 <= i < |text| ==> IsDigit(text[i])
    ensures Digits(text) == text
    decreases |text|
  {
    if text != [] {
      DigitsOfDigits(text[1..]);
      assert text == [text[0]] + text[1..];
    }
  }
}

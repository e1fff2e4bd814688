/**
 * The simulated phone-and-OTP login dialog (components/AuthModal.tsx). No code is
 * sent or checked; the dialog only moves between its two steps.
 */
module Auth {

  datatype Step = PhoneStep | OtpStep

  /** The number of one-character code boxes. */
  const OtpLength: nat := 6

  /** The digits "\d" matches without the `u` flag: ASCII 0 to 9 only. */
  predicate IsDigit(c: char) {
    '0' <= c <= '9'
  }

  /** `value.replace(/\D/g, '')`: the digits of `s`, in order. */
  function DigitsOnly(s: string): (r: string)
    ensures |r| <= |s|
    ensures forall i :: 0 <= i < |r| ==> IsDigit(r[i])
  {
    if s == [] then []
    else if IsDigit(s[0]) then [s[0]] + DigitsOnly(s[1..])
    else DigitsOnly(s[1..])
  }

  /** The sanitiser works character by character, so it keeps the digits in their order. */
  lemma {:induction false} DigitsOnlyAppend(a: string, b: string)
    ensures DigitsOnly(a + b) == DigitsOnly(a) + DigitsOnly(b)
    decreases |a|
  {
    if a == [] {
      assert a + b == b;
    } else {
      DigitsOnlyAppend(a[1..], b);
      assert (a + b)[1..] == a[1..] + b;
    }
  }

  /** A single character is kept exactly when it is a digit. */
  lemma DigitsOnlySingle(c: char)
    ensures DigitsOnly([c]) == if IsDigit(c) then [c] else []
  {
    assert [c][1..] == [];
  }

  /** A string of digits passes unchanged; in particular sanitising twice is sanitising once. */
  lemma {:induction false} DigitsOnlyKeepsDigits(s: string)
    requires forall i :: 0 <= i < |s| ==> IsDigit(s[i])
    ensures DigitsOnly(s) == s
    decreases |s|
  {
    if s != [] {
      DigitsOnlyKeepsDigits(s[1..]);
    }
  }

  lemma DigitsOnlyIdempotent(s: string)
    ensures DigitsOnly(DigitsOnly(s)) == DigitsOnly(s)
  {
    DigitsOnlyKeepsDigits(DigitsOnly(s));
  }

  /** `val.slice(-1)`: the last character, or the empty string. */
  function LastChar(s: string): (r: string)
    ensures |r| <= 1
    ensures s == [] <==> r == []
    ensures s != [] ==> r == [s[|s| - 1]]
  {
    if s == [] then [] else s[|s| - 1..]
  }

  class AuthModal {
    var step: Step
    var phone: string
    var otp: seq<string>

    /** Six boxes of at most one character each, and a phone number of digits only. */
    ghost predicate Valid()
      reads this
    {
      |otp| == OtpLength &&
      (forall i :: 0 <= i < |otp| ==> |otp[i]| <= 1) &&
      (forall i :: 0 <= i < |phone| ==> IsDigit(phone[i]))
    }

    constructor ()
      ensures Valid()
      ensures step == PhoneStep && phone == "" && otp == ["", "", "", "", "", ""]
    {
      step := PhoneStep;
      phone := "";
      otp := ["", "", "", "", "", ""];
    }

    /** Typing in the phone box: only the digits are kept. */
    method SetPhone(raw: string)
      requires Valid()
      modifies this
      ensures Valid()
      ensures phone == DigitsOnly(raw)
      ensures step == old(step) && otp == old(otp)
    {
      phone := DigitsOnly(raw);
    }

    /** "Send OTP": go on to the code step when the number has at least ten characters. */
    method SendOtp()
      requires Valid()
      modifies this
      ensures Valid()
      ensures step == (if |old(phone)| >= 10 then OtpStep else old(step))
      ensures phone == old(phone) && otp == old(otp)
    {
      if |phone| >= 10 {
        step := OtpStep;
      }
    }

    /** `updateOtp(val, index)`: box `index` takes the last character typed into it. */
    method UpdateOtp(val: string, index: nat)
      requires Valid()
      requires index < |otp|
      modifies this
      ensures Valid()
      ensures |otp| == OtpLength
      ensures otp[index] == LastChar(val)
      ensures forall i :: 0 <= i < |otp| && i != index ==> otp[i] == old(otp[i])
      ensures step == old(step) && phone == old(phone)
    {
      otp := otp[index := LastChar(val)];
    }

    /** "Change Phone Number": back to the phone step with the number kept. */
    method ChangePhone()
      requires Valid()
      modifies this
      ensures Valid()
      ensures step == PhoneStep
      ensures phone == old(phone) && otp == old(otp)
    {
      step := PhoneStep;
    }

    /** "Verify & Login": asks the page to close the dialog whatever the code boxes hold; nothing is checked. */
    method Verify() returns (close: bool)
      requires Valid()
      ensures close
      ensures step == old(step) && phone == old(phone) && otp == old(otp)
    {
      close := true;
    }
  }
}

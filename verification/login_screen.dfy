/** The login screen: a phone step and an OTP step, each with a digits-only
    input and a length-gated submit.  The simulated network delays are
    modelled as immediate transitions. */
module LoginScreen {
  import opened Types
  import opened Decimal

  const PhoneLength: nat := 10
  const OtpLength: nat := 6

  /** A submit button is enabled only at the exact length and while no
      request is in flight. */
  predicate SubmitEnabled(value: string, length: nat, isLoading: bool) {
    |value| == length && !isLoading
  }

  /** What typing does to a submit button: after the sanitiser has run, the
      button is enabled exactly when the typed text held at least `length`
      digits and nothing is loading; while loading it is never enabled. */
  lemma EnabledAfterTyping(raw: string, length: nat, isLoading: bool)
    ensures SubmitEnabled(Sanitize(raw, length), length, isLoading) <==>
            !isLoading && |DigitsOnly(raw)| >= length
  {
  }

  predicate AllDigits(s: string) {
    forall i :: 0 <= i < |s| ==> IsDigit(s[i])
  }

  datatype Step = PhoneStep | OtpStep

  class LoginForm {
    var step: Step
    var phoneNumber: string
    var otp: string

    /** The fields hold what their sanitisers produce, and the OTP step is
        reached only with a full phone number. */
    ghost predicate Valid()
      reads this
    {
      && |phoneNumber| <= PhoneLength && AllDigits(phoneNumber)
      && |otp| <= OtpLength && AllDigits(otp)
      && (step == OtpStep ==> |phoneNumber| == PhoneLength)
    }

    constructor ()
      ensures step == PhoneStep && phoneNumber == "" && otp == ""
      ensures Valid()
    {
      step := PhoneStep;
      phoneNumber := "";
      otp := "";
    }

    /** Typing in the phone field (shown in the phone step only). */
    method PhoneInput(raw: string)
      requires Valid() && step == PhoneStep
      modifies this`phoneNumber
      ensures phoneNumber == Sanitize(raw, PhoneLength)
      ensures Valid()
    {
      phoneNumber := Sanitize(raw, PhoneLength);
    }

    /** Typing in the OTP field (shown in the OTP step only). */
    method OtpInput(raw: string)
      requires Valid() && step == OtpStep
      modifies this`otp
      ensures otp == Sanitize(raw, OtpLength)
      ensures Valid()
    {
      otp := Sanitize(raw, OtpLength);
    }

    /** handlePhoneSubmit: the OTP step follows only a ten-digit number, the
        same test that enables the button. */
    method SubmitPhone()
      requires Valid() && step == PhoneStep
      modifies this`step
      ensures step == (if |phoneNumber| == PhoneLength then OtpStep else PhoneStep)
      ensures step == OtpStep <==> SubmitEnabled(phoneNumber, PhoneLength, false)
      ensures Valid()
    {
      if |phoneNumber| == PhoneLength {
        step := OtpStep;
      }
    }

    /** handleOtpSubmit: a six-digit code (the test that enables the button)
        logs in with the phone number; the form itself does not change. */
    method SubmitOtp() returns (login: Option<string>)
      requires Valid() && step == OtpStep
      ensures login.Some? <==> |otp| == OtpLength
      ensures login.Some? <==> SubmitEnabled(otp, OtpLength, false)
      ensures login.Some? ==> login.value == phoneNumber && |login.value| == PhoneLength && AllDigits(login.value)
    {
      if |otp| == OtpLength {
        login := Some(phoneNumber);
      } else {
        login := None;
      }
    }

    /** "Change Number": back to the phone step with the number kept. */
    method ChangeNumber()
      requires Valid()
      modifies this`step
      ensures step == PhoneStep
      ensures Valid()
    {
      step := PhoneStep;
    }
  }
}

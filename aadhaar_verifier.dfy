/** The identity-verification widget: a three-step machine
    INPUT -> OTP -> SUCCESS driven by two form submissions and a
    "Go Back" button, with an error line and a loading flag.  Each handler
    runs as one atomic transition; `serviceThrows` stands for a rejected
    service promise and `now` for the clock. */
module AadhaarVerifierComponent {
  import opened Common
  import opened Types
  import Service = MockAadhaarService

  datatype Step = Input | Otp | Success

  /** The interactive controls on screen. */
  datatype Control = AadhaarField | SendButton | OtpField | VerifyButton | GoBackButton

  const ServiceUnavailableMessage: string := "Service unavailable. Please try again."
  const VerificationServiceErrorMessage: string := "Verification service error."
  const VerificationFailedMessage: string := "Verification failed"

  /** What each step renders; the success screen is a message only, so
      SUCCESS offers no way out. */
  function Controls(step: Step): (r: set<Control>)
    ensures r == {} <==> step == Success
    ensures AadhaarField in r <==> step == Input
    ensures SendButton in r <==> step == Input
    ensures OtpField in r <==> step == Otp
    ensures VerifyButton in r <==> step == Otp
    ensures GoBackButton in r <==> step == Otp
  {
    match step
    case Input => {AadhaarField, SendButton}
    case Otp => {OtpField, VerifyButton, GoBackButton}
    case Success => {}
  }

  /** `value.replace(/\D/g, '')`: the digits of the typed value, in order. */
  function DigitsOnly(value: string): (r: string)
    ensures AllDigits(r)
    ensures forall c :: c in r <==> c in value && IsDigit(c)
    ensures forall c :: IsDigit(c) ==> multiset(r)[c] == multiset(value)[c]
    ensures SubsequenceOf(r, value)
  {
    FilterMembership(value, IsDigit);
    FilterSubsequence(value, IsDigit);
    FilterCount(value, IsDigit);
    var r := Filter(value, IsDigit);
    assert forall i :: 0 <= i < |r| ==> r[i] in r;
    r
  }

  /** Filtering a filtered value changes nothing, and digits pass as is. */
  lemma DigitsOnlyIdempotent(value: string)
    ensures DigitsOnly(DigitsOnly(value)) == DigitsOnly(value)
    ensures AllDigits(value) ==> DigitsOnly(value) == value
  {
    FilterIdempotent(value, IsDigit);
    if AllDigits(value) {
      FilterAll(value, IsDigit);
    }
  }

  /** `error || "Verification failed"`: a missing or empty message is
      replaced by the generic one. */
  function FailureMessage(message: Option<string>): (r: string)
    ensures r != ""
    ensures message.Some? && message.value != "" ==> r == message.value
    ensures message.None? || message.value == "" ==> r == VerificationFailedMessage
  {
    if message.Some? && message.value != "" then message.value else VerificationFailedMessage
  }

  class AadhaarVerifier {
    var aadhaarInput: string
    var otpInput: string
    var step: Step
    var isLoading: bool
    var error: Option<string>
    /** The response passed on to `onVerificationSuccess`, once verified. */
    var handedOff: Option<AadhaarResponse>

    /** Both inputs hold digits only, so the enabled Send button submits a
        well-formed number, and a six-digit code matches `\d{6}`; the
        verified response is kept exactly while the step is SUCCESS. */
    ghost predicate Valid(): (r: bool)
      reads this
      ensures r ==> (Service.WellFormedAadhaar(aadhaarInput) <==> |aadhaarInput| == 12)
      ensures r ==> (Service.MatchesDigits(otpInput, 6) <==> |otpInput| == 6)
      ensures r ==> (step == Success <==> handedOff.Some?)
    {
      && AllDigits(aadhaarInput)
      && AllDigits(otpInput)
      && !isLoading
      && (handedOff.Some? <==> step == Success)
      && (handedOff.Some? ==> handedOff.value.success && handedOff.value.token.Some?)
      && (step == Success ==> error.None?)
    }

    constructor ()
      ensures Valid()
      ensures step == Input && error.None? && !isLoading
      ensures aadhaarInput == "" && otpInput == "" && handedOff.None?
    {
      aadhaarInput := "";
      otpInput := "";
      step := Input;
      isLoading := false;
      error := None;
      handedOff := None;
    }

    /** The Send OTP button is enabled; it then submits a number the
        service accepts. */
    function SendEnabled(): (r: bool)
      reads this
      ensures r && Valid() ==> Service.SendOtp(aadhaarInput).success
    {
      !isLoading && |aadhaarInput| == 12
    }

    /** The Verify button is enabled; it then submits a six-digit code. */
    function VerifyEnabled(): (r: bool)
      reads this
      ensures r && Valid() ==> |otpInput| == 6 && AllDigits(otpInput)
    {
      !isLoading && |otpInput| == 6
    }

    /** Typing in the Aadhaar field keeps only the digits. */
    method ChangeAadhaarInput(value: string)
      requires Valid() && AadhaarField in Controls(step)
      modifies this`aadhaarInput
      ensures Valid()
      ensures aadhaarInput == DigitsOnly(value)
    {
      aadhaarInput := DigitsOnly(value);
    }

    /** Typing in the OTP field keeps only the digits. */
    method ChangeOtpInput(value: string)
      requires Valid() && OtpField in Controls(step)
      modifies this`otpInput
      ensures Valid()
      ensures otpInput == DigitsOnly(value)
    {
      otpInput := DigitsOnly(value);
    }

    /** `handleSendOtp`: clear the error, call the service, advance to OTP
        on success or show the service's message; loading ends in every
        case. */
    method HandleSendOtp(serviceThrows: bool)
      requires Valid() && SendButton in Controls(step)
      modifies this`step, this`error, this`isLoading
      ensures Valid() && !isLoading
      ensures var res := Service.SendOtp(aadhaarInput);
        if serviceThrows then step == Input && error == Some(ServiceUnavailableMessage)
        else if res.success then step == Otp && error.None?
        else step == Input && error == Some(res.message)
      ensures old(SendEnabled()) && !serviceThrows ==> step == Otp && error.None?
    {
      isLoading := true;
      error := None;
      if serviceThrows {
        error := Some(ServiceUnavailableMessage);
      } else {
        var res := Service.SendOtp(aadhaarInput);
        if res.success {
          step := Otp;
        } else {
          error := Some(res.message);
        }
      }
      isLoading := false;
    }

    /** `handleVerifyOtp`: clear the error, call the service, move to
        SUCCESS and hand the response on when it succeeds, otherwise stay
        and show its message (or the generic one). */
    method HandleVerifyOtp(now: nat, serviceThrows: bool)
      requires Valid() && VerifyButton in Controls(step)
      modifies this`step, this`error, this`isLoading, this`handedOff
      ensures Valid() && !isLoading
      ensures var res := Service.VerifyOtp(otpInput, now);
        if serviceThrows then step == Otp && error == Some(VerificationServiceErrorMessage) && handedOff.None?
        else if res.success then step == Success && error.None? && handedOff == Some(res)
        else step == Otp && error == Some(FailureMessage(res.message)) && handedOff.None?
      ensures !serviceThrows ==> (step == Success <==> otpInput == Service.DemoOtp)
      ensures step == Otp ==> error.Some?
    {
      isLoading := true;
      error := None;
      if serviceThrows {
        error := Some(VerificationServiceErrorMessage);
      } else {
        var res := Service.VerifyOtp(otpInput, now);
        if res.success {
          step := Success;
          handedOff := Some(res);
        } else {
          error := Some(FailureMessage(res.message));
        }
      }
      isLoading := false;
    }

    /** "Go Back": return to the number form; the inputs and any error
        message stay as they are. */
    method GoBack()
      requires Valid() && GoBackButton in Controls(step)
      modifies this`step
      ensures Valid() && step == Input
    {
      step := Input;
    }
  }
}

/** The mock identity service: a format check on the 12-digit Aadhaar
    number before an OTP is "sent", and a fixed demo code that yields a
    verification token and minimal KYC data.  The simulated latency is
    left out and the clock is a parameter. */
module MockAadhaarService {
  import opened Common
  import opened Types

  datatype SendOtpResponse = SendOtpResponse(success: bool, message: string)

  const InvalidFormatMessage: string := "Invalid Aadhaar Number format."
  const OtpSentMessage: string := "OTP sent to registered mobile ending in ******1234"
  const DemoOtp: string := "123456"
  const IncorrectOtpMessage: string := "Incorrect OTP. Please try again."
  const KycData: UserData := UserData("Rahul Kumar", "Delhi")

  /** `/^\d{n}$/.test(s)`, matched one character at a time. */
  function MatchesDigits(s: string, n: nat): (r: bool)
    ensures r <==> |s| == n && AllDigits(s)
  {
    if n == 0 then s == []
    else s != [] && IsDigit(s[0]) && MatchesDigits(s[1..], n - 1)
  }

  /** A well-formed Aadhaar number: exactly twelve ASCII digits. */
  predicate WellFormedAadhaar(s: string): (r: bool)
    ensures r <==> MatchesDigits(s, 12)
  {
    |s| == 12 && AllDigits(s)
  }

  /** `sendOtp`: rejects anything but twelve digits; otherwise reports the
      OTP as sent. */
  function SendOtp(aadhaarNumber: string): (r: SendOtpResponse)
    ensures r.success <==> WellFormedAadhaar(aadhaarNumber)
    ensures !r.success ==> r.message == InvalidFormatMessage
    ensures r.success ==> r.message == OtpSentMessage
  {
    if !MatchesDigits(aadhaarNumber, 12) then
      SendOtpResponse(false, InvalidFormatMessage)
    else
      SendOtpResponse(true, OtpSentMessage)
  }

  /** The reply to `sendOtp` is fixed by whether the number is well formed:
      nothing else about the number reaches the caller. */
  lemma SendOtpForgetsNumber(a: string, b: string)
    requires WellFormedAadhaar(a) == WellFormedAadhaar(b)
    ensures SendOtp(a) == SendOtp(b)
  {
  }

  /** The decimal rendering of a number, as a template literal renders
      `Date.now()`. */
  function Decimal(n: nat): (s: string)
    ensures |s| >= 1 && AllDigits(s)
    ensures s[0] == '0' ==> n == 0
    decreases n
  {
    if n < 10 then [DigitChar(n)]
    else Decimal(n / 10) + [DigitChar(n % 10)]
  }

  function DigitChar(d: nat): (c: char)
    requires d < 10
    ensures IsDigit(c)
    ensures (c == '0') == (d == 0)
  {
    ['0', '1', '2', '3', '4', '5', '6', '7', '8', '9'][d]
  }

  /** The value of a string of decimal digits. */
  function DecimalValue(s: string): nat
    requires AllDigits(s)
  {
    if s == [] then 0
    else DecimalValue(s[..|s| - 1]) * 10 + (s[|s| - 1] as int - '0' as int)
  }

  /** Reading a rendered number back gives the number. */
  lemma {:induction false} DecimalRoundTrip(n: nat)
    ensures DecimalValue(Decimal(n)) == n
    decreases n
  {
    var s := Decimal(n);
    if n >= 10 {
      DecimalRoundTrip(n / 10);
      assert s[..|s| - 1] == Decimal(n / 10);
    }
  }

  /** The token issued at time `now`. */
  function VerificationToken(now: nat): (r: string)
    ensures |r| > 20 && r[..13] == "VERIFIED_UID_" && r[|r| - 7..] == "_SECURE"
    ensures AllDigits(r[13..|r| - 7])
  {
    "VERIFIED_UID_" + Decimal(now) + "_SECURE"
  }

  /** `verifyOtp`: only the demo code succeeds; success carries a token
      and the KYC name and state, failure only a message. */
  function VerifyOtp(otp: string, now: nat): (r: AadhaarResponse)
    ensures r.success <==> otp == DemoOtp
    ensures r.success ==> r.token == Some(VerificationToken(now)) && r.userData == Some(KycData) && r.message.None?
    ensures !r.success ==> r.token.None? && r.userData.None? && r.message == Some(IncorrectOtpMessage)
  {
    if otp == DemoOtp then
      AadhaarResponse(true, Some(VerificationToken(now)), Some(KycData), None)
    else
      AadhaarResponse(false, None, None, Some(IncorrectOtpMessage))
  }

  /** Tokens issued at different times differ: the token carries its
      timestamp. */
  lemma TokenDeterminesTime(t1: nat, t2: nat)
    requires VerificationToken(t1) == VerificationToken(t2)
    ensures t1 == t2
  {
    var d1, d2 := Decimal(t1), Decimal(t2);
    var prefix, suffix := "VERIFIED_UID_", "_SECURE";
    var tok := VerificationToken(t1);
    assert |d1| == |d2|;
    assert d1 == tok[|prefix|..|tok| - |suffix|];
    assert d2 == VerificationToken(t2)[|prefix|..|tok| - |suffix|];
    DecimalRoundTrip(t1);
    DecimalRoundTrip(t2);
  }
}

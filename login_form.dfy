/**
 * The login form (src/components/auth/LoginForm.jsx): its validation
 * schemas, the OTP it generates, the digit filter on the OTP field, and
 * the handlers that drive the `auth` store. Each `setTimeout` callback is a
 * pending timer that a separate step fires; `Math.random` is a parameter.
 */
module LoginForm {
  import opened Wrappers
  import opened JsString
  import opened Seqs
  import opened AuthReducer
  import opened AuthSlice

  // ---- Validation ----

  /** The check at the top of `handleSendOtp`. */
  predicate CredentialsOk(phone: string, code: string) {
    |phone| >= 10 && |code| >= 2
  }

  /**
   * The form schema in force: `baseSchema` before an OTP was sent,
   * `withOtpSchema` (an OTP of exactly six characters) after.
   */
  predicate SchemaAccepts(otpSent: bool, phone: string, code: string, otp: string) {
    CredentialsOk(phone, code) && (otpSent ==> |otp| == 6)
  }

  lemma SchemaOnceSent(phone: string, code: string, otp: string)
    ensures SchemaAccepts(true, phone, code, otp) <==> |phone| >= 10 && |code| >= 2 && |otp| == 6
    ensures SchemaAccepts(false, phone, code, otp) <==> |phone| >= 10 && |code| >= 2
  {
  }

  // ---- OTP generation and comparison ----

  /** `Math.floor(Math.random() * 900000)`: an integer in [0, 900000). */
  type OtpDraw = k: int | 0 <= k < 900000

  /** A six-digit code without a leading zero. */
  predicate IsOtpCode(s: string) {
    |s| == 6 && AllDigits(s) && s[0] != '0'
  }

  /** `String(Math.floor(100000 + Math.random() * 900000))`. */
  function GenerateOtp(draw: OtpDraw): (otp: string)
    ensures IsOtpCode(otp)
    ensures DecimalValue(otp) == 100000 + draw
  {
    DecimalStringLength(100000 + draw, 5);
    DecimalRoundTrip(100000 + draw);
    DecimalString(100000 + draw)
  }

  /** Different draws give different codes. */
  lemma GenerateOtpInjective(d1: OtpDraw, d2: OtpDraw)
    requires d1 != d2
    ensures GenerateOtp(d1) != GenerateOtp(d2)
  {
    var a, b := GenerateOtp(d1), GenerateOtp(d2);
    assert DecimalValue(a) != DecimalValue(b);
  }

  /** `data.otp === tempOtp`: exact string equality; a cleared code matches nothing. */
  predicate OtpMatches(candidate: string, expected: Option<string>) {
    expected == Some(candidate)
  }

  /** Sending twice replaces the code: only the newer one is accepted, unless both draws agree. */
  lemma ResendSupersedes(s: AuthState, phone: string, code: string, d1: OtpDraw, d2: OtpDraw)
    requires d1 != d2
    ensures var s1 := SendOtpSuccess(SendOtpStart(SetCredentials(s, phone, code)), GenerateOtp(d1));
      var s2 := SendOtpSuccess(SendOtpStart(SetCredentials(s1, phone, code)), GenerateOtp(d2));
      !OtpMatches(GenerateOtp(d1), s2.tempOtp) && OtpMatches(GenerateOtp(d2), s2.tempOtp)
  {
    GenerateOtpInjective(d1, d2);
  }

  // ---- The OTP input filter ----

  /** `value.replace(/\D/g, '')`: every character that is not an ASCII digit removed. */
  function DigitsOnly(s: string): (r: string)
    ensures AllDigits(r)
    ensures forall c | c in s :: IsDigit(c) ==> c in r
    ensures IsSubsequence(r, s)
    ensures forall c | c in s :: multiset(r)[c] == if IsDigit(c) then multiset(s)[c] else 0
  {
    Filter(s, IsDigit)
  }

  /** A string of digits passes the filter unchanged, so filtering twice is filtering once. */
  lemma DigitsOnlyIdempotent(s: string)
    ensures DigitsOnly(DigitsOnly(s)) == DigitsOnly(s)
  {
    var r := DigitsOnly(s);
    FilterKeepsAll(r, IsDigit);
  }

  // ---- The handlers ----

  /** A `setTimeout` callback scheduled by the form. */
  datatype AuthTimer =
    | OtpDelivery                                           // in handleSendOtp, after 1200 ms
    | VerifyCheck(candidate: string, expected: Option<string>) // in onVerify, after 900 ms; `tempOtp` as captured

  /** The login flow never skips a step: the flags agree with each other and any kept code is well formed. */
  predicate FlowConsistent(s: AuthState) {
    && (s.isAuthenticated ==> s.otpSent && s.tempOtp.None?)
    && s.otpVerified == s.isAuthenticated
    && (s.tempOtp.Some? ==> s.otpSent && IsOtpCode(s.tempOtp.value))
  }

  class LoginController {
    const auth: AuthStore
    var pending: seq<AuthTimer>

    /**
     * What holds between user actions: one timer at most, running exactly
     * while `isLoading`, never beside a feedback message; the flags consistent.
     */
    ghost predicate Settled()
      reads this, auth
    {
      && |pending| <= 1
      && (auth.isLoading <==> |pending| == 1)
      && (|pending| == 1 ==> auth.error.None? && auth.success.None?)
      && OneFeedback(auth.State())
      && FlowConsistent(auth.State())
      && (|pending| == 1 && pending[0].OtpDelivery? ==> !auth.isAuthenticated)
      && (|pending| == 1 && pending[0].VerifyCheck? ==> pending[0].expected == auth.tempOtp && auth.otpSent)
    }

    constructor (auth: AuthStore)
      requires auth.State() == AuthReducer.Initial
      ensures this.auth == auth && pending == [] && Settled()
    {
      this.auth := auth;
      pending := [];
    }

    /** `handleSendOtp`: nothing for bad input; otherwise store the credentials, start, and schedule delivery. */
    method HandleSendOtp(phone: string, code: string)
      modifies this, auth
      ensures !CredentialsOk(phone, code) ==>
        auth.State() == old(auth.State()) && pending == old(pending)
      ensures CredentialsOk(phone, code) ==>
        && auth.State() == SendOtpStart(SetCredentials(old(auth.State()), phone, code))
        && pending == old(pending) + [OtpDelivery]
    {
      if !CredentialsOk(phone, code) {
        return;   // a toast only
      }
      auth.SetCredentials(phone, code);
      auth.SendOtpStart();
      pending := pending + [OtpDelivery];
    }

    /** `onVerify`: start, and schedule the comparison with the code as it is now. */
    method OnVerify(otp: string)
      modifies this, auth
      ensures auth.State() == VerifyOtpStart(old(auth.State()))
      ensures pending == old(pending) + [VerifyCheck(otp, old(auth.tempOtp))]
    {
      var expected := auth.tempOtp;
      auth.VerifyOtpStart();
      pending := pending + [VerifyCheck(otp, expected)];
    }

    /** `onPrimarySubmit`: send a code until one was sent, verify afterwards. */
    method OnPrimarySubmit(phone: string, code: string, otp: string)
      modifies this, auth
      ensures !old(auth.otpSent) && !CredentialsOk(phone, code) ==>
        auth.State() == old(auth.State()) && pending == old(pending)
      ensures !old(auth.otpSent) && CredentialsOk(phone, code) ==>
        && auth.State() == SendOtpStart(SetCredentials(old(auth.State()), phone, code))
        && pending == old(pending) + [OtpDelivery]
      ensures old(auth.otpSent) ==>
        && auth.State() == VerifyOtpStart(old(auth.State()))
        && pending == old(pending) + [VerifyCheck(otp, old(auth.tempOtp))]
    {
      if !auth.otpSent {
        HandleSendOtp(phone, code);
        return;
      }
      OnVerify(otp);
    }

    /**
     * Submitting the form: ignored while the submit button is disabled
     * (`isLoading`) or while the schema rejects the fields.
     */
    method SubmitForm(phone: string, code: string, otp: string)
      modifies this, auth
      ensures old(auth.isLoading) || !SchemaAccepts(old(auth.otpSent), phone, code, otp) ==>
        auth.State() == old(auth.State()) && pending == old(pending)
      ensures !old(auth.isLoading) && SchemaAccepts(old(auth.otpSent), phone, code, otp) && !old(auth.otpSent) ==>
        && auth.State() == SendOtpStart(SetCredentials(old(auth.State()), phone, code))
        && pending == old(pending) + [OtpDelivery]
      ensures !old(auth.isLoading) && SchemaAccepts(old(auth.otpSent), phone, code, otp) && old(auth.otpSent) ==>
        && auth.State() == VerifyOtpStart(old(auth.State()))
        && pending == old(pending) + [VerifyCheck(otp, old(auth.tempOtp))]
      ensures old(Settled()) ==> Settled()
    {
      if auth.isLoading || !SchemaAccepts(auth.otpSent, phone, code, otp) {
        return;
      }
      OnPrimarySubmit(phone, code, otp);
    }

    /** The "Resend OTP" button: shown once a code was sent and not yet verified, disabled while loading. */
    method ClickResend(phone: string, code: string)
      modifies this, auth
      ensures !old(auth.otpSent) || old(auth.otpVerified) || old(auth.isLoading) || !CredentialsOk(phone, code) ==>
        auth.State() == old(auth.State()) && pending == old(pending)
      ensures old(auth.otpSent) && !old(auth.otpVerified) && !old(auth.isLoading) && CredentialsOk(phone, code) ==>
        && auth.State() == SendOtpStart(SetCredentials(old(auth.State()), phone, code))
        && pending == old(pending) + [OtpDelivery]
      ensures old(Settled()) ==> Settled()
    {
      if !auth.otpSent || auth.otpVerified || auth.isLoading {
        return;
      }
      HandleSendOtp(phone, code);
    }

    /** The delivery timer fires: a fresh code from the draw replaces the old one. */
    method FireOtpDelivery(i: nat, draw: OtpDraw)
      requires i < |pending| && pending[i].OtpDelivery?
      modifies this, auth
      ensures auth.State() == SendOtpSuccess(old(auth.State()), GenerateOtp(draw))
      ensures pending == old(pending[..i] + pending[i + 1..])
      ensures old(Settled()) ==> Settled()
    {
      auth.SendOtpSuccess(GenerateOtp(draw));
      pending := pending[..i] + pending[i + 1..];
    }

    /** The verification timer fires: success exactly when the codes are equal. */
    method FireVerifyCheck(i: nat)
      requires i < |pending| && pending[i].VerifyCheck?
      modifies this, auth
      ensures OtpMatches(old(pending[i].candidate), old(pending[i].expected)) ==>
        auth.State() == VerifyOtpSuccess(old(auth.State()))
      ensures !OtpMatches(old(pending[i].candidate), old(pending[i].expected)) ==>
        auth.State() == VerifyOtpFailure(old(auth.State()), Some("Invalid OTP"))
      ensures pending == old(pending[..i] + pending[i + 1..])
      ensures old(Settled()) ==> Settled()
    {
      var t := pending[i];
      if OtpMatches(t.candidate, t.expected) {
        auth.VerifyOtpSuccess();
      } else {
        auth.VerifyOtpFailure(Some("Invalid OTP"));
      }
      pending := pending[..i] + pending[i + 1..];
    }
  }

  /**
   * The whole login: submit the credentials, let the code arrive, submit
   * that code, let the check run. The user ends up signed in and the code
   * is cleared.
   */
  method SignIn(ctl: LoginController, phone: string, code: string, draw: OtpDraw)
    requires ctl.Settled() && ctl.pending == [] && !ctl.auth.otpSent
    requires CredentialsOk(phone, code)
    modifies ctl, ctl.auth
    ensures ctl.auth.isAuthenticated && ctl.auth.otpVerified && ctl.auth.tempOtp.None?
    ensures ctl.auth.success == Some("OTP verified") && ctl.auth.error.None?
    ensures ctl.auth.phoneNumber == phone && ctl.auth.countryCode == code
    ensures ctl.pending == [] && ctl.Settled()
  {
    ctl.SubmitForm(phone, code, "");
    ctl.FireOtpDelivery(0, draw);
    var otp := GenerateOtp(draw);
    ctl.SubmitForm(phone, code, otp);
    ctl.FireVerifyCheck(0);
  }
}

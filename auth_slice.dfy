/**
 * The `auth` slice (src/redux/authSlice.js): the flags of the phone-OTP
 * login, as pure reducers over an immutable state.
 */
module AuthReducer {
  import opened Wrappers

  datatype AuthState = AuthState(
    isAuthenticated: bool,
    phoneNumber: string,
    countryCode: string,
    otpSent: bool,
    otpVerified: bool,
    isLoading: bool,
    error: Option<string>,
    success: Option<string>,
    tempOtp: Option<string>)   // the code last sent, kept in the client

  const Initial := AuthState(false, "", "+91", false, false, false, None, None, None)

  /** The fields that say how far the login has got. */
  predicate SameFlow(r: AuthState, s: AuthState) {
    r.otpSent == s.otpSent && r.otpVerified == s.otpVerified
    && r.tempOtp == s.tempOtp && r.isAuthenticated == s.isAuthenticated
  }

  predicate SameCredentials(r: AuthState, s: AuthState) {
    r.phoneNumber == s.phoneNumber && r.countryCode == s.countryCode
  }

  /** At most one of the two feedback slots is filled. */
  predicate OneFeedback(s: AuthState) {
    s.error.None? || s.success.None?
  }

  /** `action.payload || fallback`. */
  function PayloadOr(payload: Option<string>, fallback: string): (m: string)
    ensures payload.Some? && payload.value != "" ==> m == payload.value
    ensures payload.None? || payload.value == "" ==> m == fallback
  {
    if payload.Some? && payload.value != "" then payload.value else fallback
  }

  function SetCredentials(s: AuthState, phone: string, code: string): (r: AuthState)
    ensures r.phoneNumber == phone && r.countryCode == code
    ensures r.error.None? && r.success.None?
    ensures SameFlow(r, s) && r.isLoading == s.isLoading
  {
    s.(phoneNumber := phone, countryCode := code, error := None, success := None)
  }

  function SendOtpStart(s: AuthState): (r: AuthState)
    ensures r.isLoading && r.error.None? && r.success.None?
    ensures SameFlow(r, s) && SameCredentials(r, s)
  {
    s.(isLoading := true, error := None, success := None)
  }

  function SendOtpSuccess(s: AuthState, otp: string): (r: AuthState)
    ensures !r.isLoading && r.otpSent && r.tempOtp == Some(otp) && r.success == Some("OTP sent")
    ensures r.error == s.error && r.otpVerified == s.otpVerified && r.isAuthenticated == s.isAuthenticated
    ensures SameCredentials(r, s)
  {
    s.(isLoading := false, otpSent := true, tempOtp := Some(otp), success := Some("OTP sent"))
  }

  function SendOtpFailure(s: AuthState, payload: Option<string>): (r: AuthState)
    ensures !r.isLoading && r.error == Some(PayloadOr(payload, "Failed to send OTP"))
    ensures r.success == s.success && SameFlow(r, s) && SameCredentials(r, s)
  {
    s.(isLoading := false, error := Some(PayloadOr(payload, "Failed to send OTP")))
  }

  function VerifyOtpStart(s: AuthState): (r: AuthState)
    ensures r.isLoading && r.error.None? && r.success.None?
    ensures SameFlow(r, s) && SameCredentials(r, s)
  {
    s.(isLoading := true, error := None, success := None)
  }

  function VerifyOtpSuccess(s: AuthState): (r: AuthState)
    ensures !r.isLoading && r.otpVerified && r.isAuthenticated && r.tempOtp.None?
    ensures r.success == Some("OTP verified") && r.error == s.error
    ensures r.otpSent == s.otpSent && SameCredentials(r, s)
  {
    s.(isLoading := false, otpVerified := true, isAuthenticated := true,
       success := Some("OTP verified"), tempOtp := None)
  }

  function VerifyOtpFailure(s: AuthState, payload: Option<string>): (r: AuthState)
    ensures !r.isLoading && r.error == Some(PayloadOr(payload, "Invalid OTP"))
    ensures r.success == s.success && SameFlow(r, s) && SameCredentials(r, s)
  {
    s.(isLoading := false, error := Some(PayloadOr(payload, "Invalid OTP")))
  }

  function ResetAuthFlags(s: AuthState): (r: AuthState)
    ensures !r.isLoading && r.error.None? && r.success.None?
    ensures SameFlow(r, s) && SameCredentials(r, s)
  {
    s.(isLoading := false, error := None, success := None)
  }

  /** `logout`: back to the start of the flow; the credentials and `isLoading` stay. */
  function Logout(s: AuthState): (r: AuthState)
    ensures !r.isAuthenticated && !r.otpSent && !r.otpVerified && r.tempOtp.None?
    ensures r.error.None? && r.success.None?
    ensures SameCredentials(r, s) && r.isLoading == s.isLoading
  {
    s.(isAuthenticated := false, otpSent := false, otpVerified := false,
       tempOtp := None, error := None, success := None)
  }

  /** A start action followed by its success or failure leaves at most one feedback message. */
  lemma StartThenFinishOneFeedback(s: AuthState, otp: string, payload: Option<string>)
    ensures OneFeedback(SendOtpSuccess(SendOtpStart(s), otp))
    ensures OneFeedback(SendOtpFailure(SendOtpStart(s), payload))
    ensures OneFeedback(VerifyOtpSuccess(VerifyOtpStart(s)))
    ensures OneFeedback(VerifyOtpFailure(VerifyOtpStart(s), payload))
  {
  }

  /** Without its start action, a failure can leave both slots filled. */
  lemma FailureAloneKeepsSuccess()
    ensures !OneFeedback(VerifyOtpFailure(SendOtpSuccess(Initial, "123456"), None))
  {
  }
}

/** The `auth` slice as the store holds it: its reducers assign fields in place. */
module AuthSlice {
  import opened Wrappers
  import opened AuthReducer

  class AuthStore {
    var isAuthenticated: bool
    var phoneNumber: string
    var countryCode: string
    var otpSent: bool
    var otpVerified: bool
    var isLoading: bool
    var error: Option<string>
    var success: Option<string>
    var tempOtp: Option<string>

    function State(): AuthState
      reads this
    {
      AuthState(isAuthenticated, phoneNumber, countryCode, otpSent, otpVerified,
                isLoading, error, success, tempOtp)
    }

    constructor ()
      ensures State() == Initial
    {
      isAuthenticated, phoneNumber, countryCode := false, "", "+91";
      otpSent, otpVerified, isLoading := false, false, false;
      error, success, tempOtp := None, None, None;
    }

    method SetCredentials(phone: string, code: string)
      modifies this
      ensures State() == AuthReducer.SetCredentials(old(State()), phone, code)
    {
      phoneNumber := phone;
      countryCode := code;
      error := None;
      success := None;
    }

    method SendOtpStart()
      modifies this
      ensures State() == AuthReducer.SendOtpStart(old(State()))
    {
      isLoading := true;
      error := None;
      success := None;
    }

    method SendOtpSuccess(otp: string)
      modifies this
      ensures State() == AuthReducer.SendOtpSuccess(old(State()), otp)
    {
      isLoading := false;
      otpSent := true;
      tempOtp := Some(otp);
      success := Some("OTP sent");
    }

    method SendOtpFailure(payload: Option<string>)
      modifies this
      ensures State() == AuthReducer.SendOtpFailure(old(State()), payload)
    {
      isLoading := false;
      error := Some(PayloadOr(payload, "Failed to send OTP"));
    }

    method VerifyOtpStart()
      modifies this
      ensures State() == AuthReducer.VerifyOtpStart(old(State()))
    {
      isLoading := true;
      error := None;
      success := None;
    }

    method VerifyOtpSuccess()
      modifies this
      ensures State() == AuthReducer.VerifyOtpSuccess(old(State()))
    {
      isLoading := false;
      otpVerified := true;
      isAuthenticated := true;
      success := Some("OTP verified");
      tempOtp := None;
    }

    method VerifyOtpFailure(payload: Option<string>)
      modifies this
      ensures State() == AuthReducer.VerifyOtpFailure(old(State()), payload)
    {
      isLoading := false;
      error := Some(PayloadOr(payload, "Invalid OTP"));
    }

    method ResetAuthFlags()
      modifies this
      ensures State() == AuthReducer.ResetAuthFlags(old(State()))
    {
      isLoading := false;
      error := None;
      success := None;
    }

    method Logout()
      modifies this
      ensures State() == AuthReducer.Logout(old(State()))
    {
      isAuthenticated := false;
      otpSent := false;
      otpVerified := false;
      tempOtp := None;
      error := None;
      success := None;
    }
  }
}

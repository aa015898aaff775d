/** The signup verification page: it wires the two passcode cards to the
    hook, sends the phone passcode once the email is verified, and leaves for
    the dashboard when both are verified. */
module OtpSignup {
  import opened Wrappers
  import opened JsString
  import opened OtpAuth
  import DualOtpVerification

  const SIGNUP_ROUTE := "/signup"
  const LISTER_DASHBOARD := "/lister-dashboard"
  const BUYER_DASHBOARD := "/buyer-dashboard"
  const LISTER_ROLE := "lister"

  /** The navigation state the page is opened with. `password` is optional:
      the signup page does not put one there. */
  datatype SignupData = SignupData(
    email: string,
    phone: string,
    role: string,
    fullName: string,
    address: string,
    organizationName: string,
    password: Option<string>)

  /** Lines 29-41: without signup data the page sends the user back to the
      signup form and renders nothing. */
  function MountRedirect(data: Option<SignupData>): (r: Option<string>)
    ensures r.Some? <==> data.None?
    ensures r.Some? ==> r.value == SIGNUP_ROUTE
  {
    if data.None? then Some(SIGNUP_ROUTE) else None
  }

  /** Line 80: where a verified account goes. */
  function DashboardFor(role: string): (r: string)
    ensures r == LISTER_DASHBOARD <==> role == LISTER_ROLE
    ensures r == BUYER_DASHBOARD <==> role != LISTER_ROLE
  {
    if role == LISTER_ROLE then LISTER_DASHBOARD else BUYER_DASHBOARD
  }

  /** Lines 46-58: the requests that follow a successful email verification:
      the password, when one is present, then the phone passcode for the
      formatted number, which the hook sends only with a session. */
  function AfterEmailVerified(data: SignupData, hasSession: bool): (rs: seq<AuthRequest>)
    ensures |rs| <= 2
    ensures |rs| == (if Truthy(data.password) then 1 else 0) + (if hasSession then 1 else 0)
    ensures Truthy(data.password) ==> rs[0] == UpdatePassword(data.password.value)
    ensures hasSession ==> rs[|rs| - 1] == UpdatePhone(NormalizePhone(data.phone))
  {
    (if Truthy(data.password) then [UpdatePassword(data.password.value)] else [])
    + (if hasSession then [UpdatePhone(NormalizePhone(data.phone))] else [])
  }

  /** After the email is verified, a password is set iff the signup data
      holds one, and a phone passcode is requested iff there is a session;
      nothing else is sent, and the password comes first. */
  lemma AfterEmailVerifiedRequests(data: SignupData, hasSession: bool)
    ensures var rs := AfterEmailVerified(data, hasSession);
      && ((exists pw :: UpdatePassword(pw) in rs) <==> Truthy(data.password))
      && (Truthy(data.password) ==> rs[0] == UpdatePassword(data.password.value))
      && ((exists p :: UpdatePhone(p) in rs) <==> hasSession)
      && (hasSession ==> rs[|rs| - 1] == UpdatePhone(NormalizePhone(data.phone)))
      && (forall r :: r in rs ==> r.UpdatePassword? || r.UpdatePhone?)
  {
  }

  /** Concatenation regroups; stated once so the request log can be split. */
  lemma SeqAssoc<T>(a: seq<T>, b: seq<T>, c: seq<T>)
    ensures a + b + c == a + (b + c)
  {
  }

  class OtpSignupPage {
    const data: SignupData
    const hook: OtpAuthHook
    const dual: DualOtpVerification.DualOtpVerification
    var navigatedTo: Option<string>

    constructor (data: SignupData, hook: OtpAuthHook, dual: DualOtpVerification.DualOtpVerification)
      ensures this.data == data && this.hook == hook && this.dual == dual && navigatedTo == None
    {
      this.data := data;
      this.hook := hook;
      this.dual := dual;
      navigatedTo := None;
    }

    /** `handleEmailVerify` (lines 43-61): a failed verification is returned
        as it is and triggers nothing else. `verifyError` and `phoneError` are
        the provider's answers; `hasSession` whether the verification left a
        session. A failed password update is only shown, so it is not an
        input. */
    method HandleEmailVerify(otp: string, verifyError: Option<string>, hasSession: bool, phoneError: Option<string>)
      returns (result: Option<string>)
      modifies hook.client
      ensures result == verifyError
      ensures hook.client.requests == old(hook.client.requests)
        + [VerifyOtp(EmailToken(data.email, otp))]
        + (if verifyError.None? then AfterEmailVerified(data, hasSession) else [])
    {
      result := hook.VerifySignupOtp(data.email, otp, Email, verifyError);
      if result.None? {
        SetPasswordAndSendPhoneOtp(hasSession, phoneError);
      }
    }

    /** Lines 47-58: the password update, when a password is present (its
        failure is only shown), then `sendPhoneOtp` for the formatted number. */
    method SetPasswordAndSendPhoneOtp(hasSession: bool, phoneError: Option<string>)
      modifies hook.client
      ensures hook.client.requests == old(hook.client.requests) + AfterEmailVerified(data, hasSession)
    {
      var passwordUpdate := if Truthy(data.password) then [UpdatePassword(data.password.value)] else [];
      hook.client.requests := hook.client.requests + passwordUpdate;
      ghost var mid := hook.client.requests;
      // `formatPhone` (line 37) is the same expression as the hook's `normalizePhone`.
      var formatted := NormalizePhone(data.phone);
      NormalizePhoneIdempotent(data.phone);
      var phoneUpdate := if hasSession then [UpdatePhone(formatted)] else [];
      var _ := hook.SendPhoneOtp(formatted, hasSession, phoneError);
      assert hook.client.requests == mid + phoneUpdate;
      assert AfterEmailVerified(data, hasSession) == passwordUpdate + phoneUpdate;
      SeqAssoc(old(hook.client.requests), passwordUpdate, phoneUpdate);
    }

    /** `handlePhoneVerify` (lines 63-65): an `sms` check of the formatted number. */
    method HandlePhoneVerify(otp: string, verifyError: Option<string>) returns (result: Option<string>)
      modifies hook.client
      ensures result == verifyError
      ensures hook.client.requests == old(hook.client.requests) + [VerifyOtp(SmsToken(NormalizePhone(data.phone), otp))]
    {
      VerifyPhoneIgnoresFormatting(data.phone, otp);
      result := hook.VerifySignupOtp(NormalizePhone(data.phone), otp, Phone, verifyError);
    }

    /** `handleEmailResend` (lines 66-68): resent to the address as entered. */
    method HandleEmailResend(sendError: Option<string>) returns (result: Option<string>)
      modifies hook.client
      ensures result == sendError
      ensures hook.client.requests == old(hook.client.requests) + [SignInWithOtp(data.email, None, None)]
    {
      result := hook.ResendSignupOtp(data.email, Email, false, sendError);
    }

    /** `handlePhoneResend` (lines 70-72): resent to the formatted number, and
        only from a session. */
    method HandlePhoneResend(hasSession: bool, sendError: Option<string>) returns (result: Option<string>)
      modifies hook.client
      ensures !hasSession ==> result == Some(SESSION_REQUIRED_RESEND) && hook.client.requests == old(hook.client.requests)
      ensures hasSession ==>
        result == sendError && hook.client.requests == old(hook.client.requests) + [UpdatePhone(NormalizePhone(data.phone))]
    {
      NormalizePhoneIdempotent(data.phone);
      result := hook.ResendSignupOtp(NormalizePhone(data.phone), Phone, hasSession, sendError);
    }

    /** `handleComplete` (lines 73-82), with the two-second delay left out. */
    method HandleComplete()
      modifies this`navigatedTo
      ensures navigatedTo == Some(DashboardFor(data.role))
    {
      navigatedTo := Some(DashboardFor(data.role));
    }

    /** An email code is submitted on the email card: the page's handler runs,
        the card records the answer, and completion leads to the dashboard. */
    method SubmitEmailCode(otp: string, verifyError: Option<string>, hasSession: bool, phoneError: Option<string>)
      returns (completed: bool)
      modifies this`navigatedTo, hook.client, dual
      ensures (dual.State(), completed)
        == DualOtpVerification.Step(old(dual.State()), DualOtpVerification.EmailAnswer(verifyError.None?))
      ensures navigatedTo == if completed then Some(DashboardFor(data.role)) else old(navigatedTo)
      ensures hook.client.requests == old(hook.client.requests)
        + [VerifyOtp(EmailToken(data.email, otp))]
        + (if verifyError.None? then AfterEmailVerified(data, hasSession) else [])
    {
      var result := HandleEmailVerify(otp, verifyError, hasSession, phoneError);
      var _, done := dual.HandleEmailVerify(result);
      completed := done;
      if completed {
        HandleComplete();
      }
    }

    /** A phone code is submitted on the phone card. */
    method SubmitPhoneCode(otp: string, verifyError: Option<string>) returns (completed: bool)
      modifies this`navigatedTo, hook.client, dual
      ensures (dual.State(), completed)
        == DualOtpVerification.Step(old(dual.State()), DualOtpVerification.PhoneAnswer(verifyError.None?))
      ensures navigatedTo == if completed then Some(DashboardFor(data.role)) else old(navigatedTo)
      ensures hook.client.requests == old(hook.client.requests) + [VerifyOtp(SmsToken(NormalizePhone(data.phone), otp))]
    {
      var result := HandlePhoneVerify(otp, verifyError);
      var _, done := dual.HandlePhoneVerify(result);
      completed := done;
      if completed {
        HandleComplete();
      }
    }
  }
}

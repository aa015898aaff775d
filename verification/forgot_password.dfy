/** The password-reset page (src/pages/ForgotPassword.tsx): a three-step
    machine — email, passcode, new password — whose step only advances on a
    successful answer from the provider. The `signInWithOtp` and `verifyOtp`
    wrappers it calls build their requests as in src/hooks/useAuth.tsx:96-134. */
module ForgotPassword {
  import opened Wrappers
  import opened JsString
  import opened OtpAuth
  import OtpVerification
  import Signup

  const MIN_PASSWORD_LENGTH := 6
  const LOGIN_ROUTE := "/login"

  /** A submission of the form shown at some step. */
  datatype Event =
    | SendCode(sendError: Option<string>)
    | CheckCode(code: string, verifyError: Option<string>)
    | ResetPassword(password: string, confirmPassword: string, updateError: Option<string>)

  predicate SentOk(e: Event) {
    e.SendCode? && e.sendError.None?
  }

  predicate VerifiedOk(e: Event) {
    e.CheckCode? && |e.code| == OtpVerification.CODE_LENGTH && e.verifyError.None?
  }

  /** Lines 33 and 45: the step after one submission. Only a successful send
      at step 1 and a successful check of a six-character code at step 2
      advance it, by one; nothing moves it back. */
  function Next(step: nat, e: Event): (r: nat)
    ensures r == step || r == step + 1
    ensures r == step + 1 <==> (step == 1 && SentOk(e)) || (step == 2 && VerifiedOk(e))
  {
    if step == 1 && SentOk(e) then 2
    else if step == 2 && VerifiedOk(e) then 3
    else step
  }

  /** The step after a sequence of submissions, from the initial step 1
      (line 14). */
  function Run(events: seq<Event>): nat {
    if events == [] then 1 else Next(Run(events[..|events| - 1]), events[|events| - 1])
  }

  /** The step stays within 1..3; step 2 is only reached through a successful
      send and step 3 only through a successful check of a six-character
      code. */
  lemma {:induction false} RunOnlyAdvancesOnSuccess(events: seq<Event>)
    ensures 1 <= Run(events) <= 3
    ensures Run(events) >= 2 ==> exists i :: 0 <= i < |events| && SentOk(events[i])
    ensures Run(events) == 3 ==> exists i :: 0 <= i < |events| && VerifiedOk(events[i])
  {
    if events != [] {
      var prefix := events[..|events| - 1];
      var last := events[|events| - 1];
      RunOnlyAdvancesOnSuccess(prefix);
      if Run(events) >= 2 {
        if Run(prefix) >= 2 {
          var i :| 0 <= i < |prefix| && SentOk(prefix[i]);
          assert events[i] == prefix[i];
        } else {
          assert SentOk(last);
        }
      }
      if Run(events) == 3 {
        if Run(prefix) == 3 {
          var i :| 0 <= i < |prefix| && VerifiedOk(prefix[i]);
          assert events[i] == prefix[i];
        } else {
          assert VerifiedOk(last);
        }
      }
    }
  }

  /** The step never decreases along a sequence of submissions. */
  lemma {:induction false} RunMonotone(events: seq<Event>, k: nat)
    requires k <= |events|
    ensures Run(events[..k]) <= Run(events)
    decreases |events|
  {
    if k < |events| {
      var prefix := events[..|events| - 1];
      assert events[..k] == prefix[..k];
      RunMonotone(prefix, k);
    } else {
      assert events[..k] == events;
    }
  }

  /** Line 50: a reset is refused for a short or unconfirmed password. */
  predicate ResetRefused(password: string, confirmPassword: string) {
    |password| < MIN_PASSWORD_LENGTH || password != confirmPassword
  }

  /** The reset page accepts exactly the passwords the signup form accepts
      once its other required fields are filled. */
  lemma SamePasswordPolicy(f: Signup.SignupForm)
    requires f.email != "" && f.phone != ""
    ensures Signup.Validate(f).None? <==> !ResetRefused(f.password, f.confirmPassword)
  {
    Signup.AcceptedForms(f);
  }

  class ForgotPasswordPage {
    var step: nat
    var email: string
    var otp: string
    var password: string
    var confirmPassword: string
    var loading: bool
    var navigatedTo: Option<string>
    const client: AuthClient

    /** The step is one of 1, 2, 3 and the passcode field holds at most six
        digits. */
    ghost predicate Valid()
      reads this
    {
      && 1 <= step <= 3
      && |otp| <= OtpVerification.CODE_LENGTH
      && forall i :: 0 <= i < |otp| ==> IsDigit(otp[i])
    }

    constructor (client: AuthClient)
      ensures Valid() && this.client == client
      ensures step == 1 && email == "" && otp == "" && password == "" && confirmPassword == ""
      ensures !loading && navigatedTo.None?
    {
      this.client := client;
      step := 1;
      email := "";
      otp := "";
      password := "";
      confirmPassword := "";
      loading := false;
      navigatedTo := None;
    }

    /** Line 104: the passcode field keeps at most six characters and drops
        every non-digit. */
    method TypeOtp(typed: string)
      requires Valid()
      modifies this`otp
      ensures Valid() && otp == OtpVerification.EnteredCode(typed)
    {
      otp := OtpVerification.EnteredCode(typed);
    }

    /** `handleSendOtp` (lines 28-34), submitted from the step-1 form: a
        login passcode for the email that must not create an account. */
    method HandleSendOtp(sendError: Option<string>)
      requires Valid() && step == 1
      modifies this`step, this`loading, client
      ensures Valid() && step == Next(old(step), SendCode(sendError)) && !loading
      ensures client.requests == old(client.requests) + [SignInWithOtp(email, Some(false), None)]
    {
      loading := true;
      client.requests := client.requests + [SignInWithOtp(email, Some(false), None)];
      loading := false;
      if sendError.None? {
        step := 2;
      }
    }

    /** `handleVerifyOtp` (lines 36-46), submitted from the step-2 form: a
        code that is not six characters long is refused without a call. */
    method HandleVerifyOtp(verifyError: Option<string>)
      requires Valid() && step == 2
      modifies this`step, this`loading, client
      ensures Valid() && step == Next(old(step), CheckCode(otp, verifyError))
      ensures |otp| != OtpVerification.CODE_LENGTH ==>
        client.requests == old(client.requests) && loading == old(loading)
      ensures |otp| == OtpVerification.CODE_LENGTH ==>
        client.requests == old(client.requests) + [VerifyOtp(EmailToken(email, otp))] && !loading
    {
      if |otp| != OtpVerification.CODE_LENGTH {
        return;
      }
      loading := true;
      client.requests := client.requests + [VerifyOtp(EmailToken(email, otp))];
      loading := false;
      if verifyError.None? {
        step := 3;
      }
    }

    /** `handleResetPassword` (lines 48-63), submitted from the step-3 form:
        a refused password makes no call; otherwise the password is updated
        and the page leaves for the login page when that succeeded. */
    method HandleResetPassword(updateError: Option<string>) returns (refused: bool)
      requires Valid() && step == 3
      modifies this`loading, this`navigatedTo, client
      ensures Valid() && step == Next(old(step), ResetPassword(password, confirmPassword, updateError))
      ensures refused <==> ResetRefused(password, confirmPassword)
      ensures refused ==>
        client.requests == old(client.requests) && loading == old(loading) && navigatedTo == old(navigatedTo)
      ensures !refused ==>
        && client.requests == old(client.requests) + [UpdatePassword(password)]
        && !loading
        && navigatedTo == if updateError.None? then Some(LOGIN_ROUTE) else old(navigatedTo)
    {
      refused := ResetRefused(password, confirmPassword);
      if refused {
        return;
      }
      loading := true;
      client.requests := client.requests + [UpdatePassword(password)];
      loading := false;
      if updateError.None? {
        navigatedTo := Some(LOGIN_ROUTE);
      }
    }
  }
}

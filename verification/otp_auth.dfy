/** The passcode hook: phone normalisation, the verify options, and the
    guarded calls that send, verify and resend signup passcodes. The auth
    provider itself is not modelled: its answers are parameters and the
    requests it receives are logged. */
module OtpAuth {
  import opened Wrappers
  import opened JsString

  const SESSION_REQUIRED_RESEND := "Session required to resend phone OTP"
  const SESSION_REQUIRED_SEND := "Session required to send phone OTP"

  /** The channel a passcode travels over (the hook's `type` argument). */
  datatype Channel = Email | Phone

  /** The metadata attached to a new account. */
  datatype UserData = UserData(
    fullName: string,
    role: string,
    phone: string,
    address: string,
    organizationName: string)

  /** The options of `verifyOtp`: an email passcode has type `email`, a phone
      passcode type `sms`. */
  datatype VerifyOptions = EmailToken(email: string, token: string) | SmsToken(phone: string, token: string)

  /** A request sent to the auth provider. */
  datatype AuthRequest =
    | SignInWithOtp(email: string, shouldCreateUser: Option<bool>, data: Option<UserData>)
    | VerifyOtp(options: VerifyOptions)
    | UpdatePhone(phone: string)
    | UpdatePassword(password: string)

  /** The auth provider's client, as the requests it has been sent. */
  class AuthClient {
    var requests: seq<AuthRequest>

    constructor ()
      ensures requests == []
    {
      requests := [];
    }
  }

  /** `normalizePhone` (line 8): the trimmed number, with a `+` put in front
      unless it already starts with one. */
  function NormalizePhone(p: string): (r: string)
    ensures |r| > 0 && r[0] == '+'
  {
    var t := Trim(p);
    if StartsWith(t, "+") then t else "+" + t
  }

  /** The normalised number is the trimmed input, prefixed with `+` exactly
      when it does not already start with one. */
  lemma NormalizePhoneShape(p: string)
    ensures StartsWith(Trim(p), "+") ==> NormalizePhone(p) == Trim(p)
    ensures !StartsWith(Trim(p), "+") ==> NormalizePhone(p) == "+" + Trim(p)
  {
  }

  /** Normalising an already normalised number changes nothing, so the page's
      own formatting before the hook's is harmless. */
  lemma NormalizePhoneIdempotent(p: string)
    ensures NormalizePhone(NormalizePhone(p)) == NormalizePhone(p)
  {
    var t := Trim(p);
    var r := NormalizePhone(p);
    if r == t {
      TrimIdempotent(p);
    } else {
      assert r == "+" + t;
      assert r[|r| - 1] == (if t == [] then '+' else t[|t| - 1]);
      TrimOfTrimmed(r);
    }
    assert Trim(r) == r;
    assert StartsWith(r, "+");
  }

  /** Lines 50-52: which passcode a verification checks. */
  function VerifyOptionsFor(contact: string, otp: string, channel: Channel): (r: VerifyOptions)
    ensures channel == Email ==> r == EmailToken(contact, otp)
    ensures channel == Phone ==> r.SmsToken? && r.token == otp && |r.phone| > 0 && r.phone[0] == '+'
    ensures channel == Phone ==> r.phone == NormalizePhone(contact)
  {
    if channel == Email then EmailToken(contact, otp) else SmsToken(NormalizePhone(contact), otp)
  }

  /** A phone verification checks the same number however it was formatted
      before. */
  lemma VerifyPhoneIgnoresFormatting(p: string, otp: string)
    ensures VerifyOptionsFor(NormalizePhone(p), otp, Phone) == VerifyOptionsFor(p, otp, Phone)
  {
    NormalizePhoneIdempotent(p);
  }

  /** `useOtpAuth`: its `loading` state and the client it talks to. */
  class OtpAuthHook {
    var loading: bool
    const client: AuthClient

    constructor (client: AuthClient)
      ensures this.client == client && !loading
    {
      this.client := client;
      loading := false;
    }

    /** `sendSignupOtp` (lines 10-47): one email passcode request that may
        create the account and carries the user data with the normalised
        phone. No phone passcode is requested. `emailError` is the provider's
        answer. */
    method SendSignupOtp(email: string, phone: string, userData: UserData, emailError: Option<string>)
      returns (error: Option<string>)
      modifies this, client
      ensures client.requests
        == old(client.requests) + [SignInWithOtp(email, Some(true), Some(userData.(phone := NormalizePhone(phone))))]
      ensures error == emailError
      ensures !loading
    {
      loading := true;
      var formattedPhone := NormalizePhone(phone);
      client.requests := client.requests
        + [SignInWithOtp(email, Some(true), Some(userData.(phone := formattedPhone)))];
      error := emailError;
      loading := false;
    }

    /** `verifySignupOtp` (lines 49-65). */
    method VerifySignupOtp(contact: string, otp: string, channel: Channel, verifyError: Option<string>)
      returns (error: Option<string>)
      modifies client
      ensures client.requests == old(client.requests) + [VerifyOtp(VerifyOptionsFor(contact, otp, channel))]
      ensures error == verifyError
    {
      client.requests := client.requests + [VerifyOtp(VerifyOptionsFor(contact, otp, channel))];
      error := verifyError;
    }

    /** `resendSignupOtp` (lines 67-120): a phone passcode can only be resent
        from a signed-in session, by updating the user's phone; an email
        passcode is resent to the address as given. */
    method ResendSignupOtp(contact: string, channel: Channel, hasSession: bool, sendError: Option<string>)
      returns (error: Option<string>)
      modifies client
      ensures channel == Phone && !hasSession ==>
        error == Some(SESSION_REQUIRED_RESEND) && client.requests == old(client.requests)
      ensures channel == Phone && hasSession ==>
        error == sendError && client.requests == old(client.requests) + [UpdatePhone(NormalizePhone(contact))]
      ensures channel == Email ==>
        error == sendError && client.requests == old(client.requests) + [SignInWithOtp(contact, None, None)]
    {
      if channel == Phone {
        if !hasSession {
          return Some(SESSION_REQUIRED_RESEND);
        }
        client.requests := client.requests + [UpdatePhone(NormalizePhone(contact))];
        return sendError;
      }
      client.requests := client.requests + [SignInWithOtp(contact, None, None)];
      return sendError;
    }

    /** `sendPhoneOtp` (lines 122-150): as the phone resend. */
    method SendPhoneOtp(phone: string, hasSession: bool, sendError: Option<string>)
      returns (error: Option<string>)
      modifies client
      ensures !hasSession ==> error == Some(SESSION_REQUIRED_SEND) && client.requests == old(client.requests)
      ensures hasSession ==>
        error == sendError && client.requests == old(client.requests) + [UpdatePhone(NormalizePhone(phone))]
    {
      if !hasSession {
        return Some(SESSION_REQUIRED_SEND);
      }
      client.requests := client.requests + [UpdatePhone(NormalizePhone(phone))];
      return sendError;
    }
  }
}

/** The signup form (src/pages/Signup.tsx): its validation chain, the user
    data it hands to the passcode hook, and the hand-over to the passcode
    page. */
module Signup {
  import opened Wrappers
  import opened OtpAuth
  import OtpSignup

  const MIN_PASSWORD_LENGTH := 6
  const OTP_SIGNUP_ROUTE := "/otp-signup"

  /** The two tabs of the form (`signupType`). */
  datatype AccountType = Buyer | Lister

  function RoleName(t: AccountType): (r: string)
    ensures r == OtpSignup.LISTER_ROLE <==> t == Lister
    ensures t == Buyer ==> r == "buyer"
  {
    match t
    case Buyer => "buyer"
    case Lister => OtpSignup.LISTER_ROLE
  }

  /** The form's state fields. */
  datatype SignupForm = SignupForm(
    accountType: AccountType,
    email: string,
    password: string,
    confirmPassword: string,
    fullName: string,
    phone: string,
    address: string,
    organizationName: string)

  /** The three toasts of the validation chain. */
  datatype SignupError = MissingInformation | PasswordMismatch | WeakPassword

  /** Lines 38-65: required fields first, then the confirmation, then the
      length; the first failing check is the one reported. */
  function Validate(f: SignupForm): (r: Option<SignupError>)
    ensures r == Some(MissingInformation) <==> f.email == "" || f.password == "" || f.phone == ""
    ensures r == Some(PasswordMismatch)
      <==> f.email != "" && f.password != "" && f.phone != "" && f.password != f.confirmPassword
    ensures r == Some(WeakPassword)
      <==> (f.email != "" && f.password != "" && f.phone != "" && f.password == f.confirmPassword
        && |f.password| < MIN_PASSWORD_LENGTH)
  {
    if f.email == "" || f.password == "" || f.phone == "" then Some(MissingInformation)
    else if f.password != f.confirmPassword then Some(PasswordMismatch)
    else if |f.password| < MIN_PASSWORD_LENGTH then Some(WeakPassword)
    else None
  }

  /** An accepted form has every required field, a confirmed password and a
      password of at least six characters; and any such form is accepted. */
  lemma AcceptedForms(f: SignupForm)
    ensures Validate(f).None?
      <==> (f.email != "" && f.phone != "" && f.password == f.confirmPassword
        && |f.password| >= MIN_PASSWORD_LENGTH)
  {
    if Validate(f).None? {
      assert f.password != "";
    }
  }

  /** Lines 72-78: the user data sent with the email passcode. The
      organisation is the typed one for a buyer and the full name for a
      lister. */
  function UserDataFor(f: SignupForm): (r: UserData)
    ensures r.fullName == f.fullName && r.role == RoleName(f.accountType)
    ensures r.phone == f.phone && r.address == f.address
    ensures r.organizationName == if f.accountType == Buyer then f.organizationName else f.fullName
  {
    UserData(
      f.fullName,
      RoleName(f.accountType),
      f.phone,
      f.address,
      if f.accountType == Buyer then f.organizationName else f.fullName)
  }

  /** Lines 85-96: the navigation state for the passcode page. It carries no
      password. */
  function SignupDataFor(f: SignupForm): (r: OtpSignup.SignupData)
    ensures r.password.None?
    ensures r.email == f.email && r.phone == f.phone && r.role == RoleName(f.accountType)
    ensures r.fullName == f.fullName && r.address == f.address && r.organizationName == f.organizationName
  {
    OtpSignup.SignupData(f.email, f.phone, RoleName(f.accountType), f.fullName, f.address, f.organizationName, None)
  }

  /** The password typed on the signup form never reaches the account: once
      the passcode page has verified the email it sends no password update,
      only (with a session) the phone passcode. */
  lemma SignupPasswordIsNeverSet(f: SignupForm, hasSession: bool)
    ensures forall r :: r in OtpSignup.AfterEmailVerified(SignupDataFor(f), hasSession) ==> !r.UpdatePassword?
    ensures OtpSignup.AfterEmailVerified(SignupDataFor(f), hasSession)
      == if hasSession then [UpdatePhone(NormalizePhone(f.phone))] else []
  {
    OtpSignup.AfterEmailVerifiedRequests(SignupDataFor(f), hasSession);
  }

  /** A buyer and a lister who type the same fields differ in the role and the
      organisation they register, and in nothing else. */
  lemma RoleDecidesOrganisation(f: SignupForm)
    ensures var b := UserDataFor(f.(accountType := Buyer));
      var l := UserDataFor(f.(accountType := Lister));
      && b.role != l.role
      && b.organizationName == f.organizationName && l.organizationName == f.fullName
      && b.(role := l.role, organizationName := l.organizationName) == l
  {
  }

  class SignupPage {
    var form: SignupForm
    var loading: bool
    /** The `ff_pending_password` session-storage item. */
    var pendingPassword: Option<string>
    /** The route and navigation state the page left for, if any. */
    var navigatedTo: Option<(string, OtpSignup.SignupData)>
    const hook: OtpAuthHook

    constructor (hook: OtpAuthHook)
      ensures this.hook == hook && !loading && pendingPassword.None? && navigatedTo.None?
      ensures form == SignupForm(Buyer, "", "", "", "", "", "", "")
    {
      this.hook := hook;
      form := SignupForm(Buyer, "", "", "", "", "", "", "");
      loading := false;
      pendingPassword := None;
      navigatedTo := None;
    }

    /** `handleSubmit` (lines 36-98). A rejected form sends nothing and changes
        nothing. An accepted one stores the password, sends one email passcode
        that may create the account, and opens the passcode page exactly when
        the send succeeded. `sendError` is the provider's answer. */
    method HandleSubmit(sendError: Option<string>) returns (rejected: Option<SignupError>)
      modifies this`loading, this`pendingPassword, this`navigatedTo, hook, hook.client
      ensures rejected == Validate(form) && form == old(form)
      ensures rejected.Some? ==>
        && hook.client.requests == old(hook.client.requests) && unchanged(hook)
        && loading == old(loading) && pendingPassword == old(pendingPassword) && navigatedTo == old(navigatedTo)
      ensures rejected.None? ==>
        && hook.client.requests == old(hook.client.requests)
          + [SignInWithOtp(form.email, Some(true), Some(UserDataFor(form).(phone := NormalizePhone(form.phone))))]
        && !loading && !hook.loading
        && pendingPassword == Some(form.password)
        && navigatedTo == if sendError.None? then Some((OTP_SIGNUP_ROUTE, SignupDataFor(form))) else old(navigatedTo)
    {
      rejected := Validate(form);
      if rejected.Some? {
        return;
      }
      loading := true;
      pendingPassword := Some(form.password);
      var error := hook.SendSignupOtp(form.email, form.phone, UserDataFor(form), sendError);
      loading := false;
      if error.None? {
        navigatedTo := Some((OTP_SIGNUP_ROUTE, SignupDataFor(form)));
      }
    }
  }
}

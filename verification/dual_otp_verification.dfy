/** The two-card verification screen: one flag per channel, and the
    completion callback that fires when the second flag is set. */
module DualOtpVerification {
  import opened Wrappers

  const BOTH_COMPLETE := "Both verifications complete! Redirecting..."

  /** The two flags (`emailVerified`, `phoneVerified`). */
  datatype Flags = Flags(email: bool, phone: bool)

  /** The answer of one channel's `onVerify`. */
  datatype Outcome = EmailAnswer(ok: bool) | PhoneAnswer(ok: bool)

  /** Lines 29-49: the flags after one answer, and whether `onComplete` is
      called. */
  function Step(f: Flags, o: Outcome): (r: (Flags, bool))
    ensures r.0.email <==> f.email || o == EmailAnswer(true)
    ensures r.0.phone <==> f.phone || o == PhoneAnswer(true)
    ensures r.1 <==> o.ok && Both(r.0)
  {
    match o
    case EmailAnswer(ok) => if ok then (f.(email := true), f.phone) else (f, false)
    case PhoneAnswer(ok) => if ok then (f.(phone := true), f.email) else (f, false)
  }

  /** The flags after a run of answers, and how often `onComplete` was called. */
  function Run(outcomes: seq<Outcome>): (Flags, nat) {
    if outcomes == [] then (Flags(false, false), 0)
    else
      var (f, n) := Run(outcomes[..|outcomes| - 1]);
      var (g, fired) := Step(f, outcomes[|outcomes| - 1]);
      (g, if fired then n + 1 else n)
  }

  predicate Both(f: Flags) {
    f.email && f.phone
  }

  /** A flag, once set, stays set; a failed answer changes nothing; and
      `onComplete` is called only when both flags are then set. */
  lemma StepProperties(f: Flags, o: Outcome)
    ensures f.email ==> Step(f, o).0.email
    ensures f.phone ==> Step(f, o).0.phone
    ensures !o.ok ==> Step(f, o) == (f, false)
    ensures Step(f, o).1 ==> Both(Step(f, o).0)
  {
  }

  /** `onComplete` has been called iff both channels are verified, whatever
      the order of the answers. */
  lemma {:induction false} CompletesIffBoth(outcomes: seq<Outcome>)
    ensures Run(outcomes).1 > 0 <==> Both(Run(outcomes).0)
  {
    if outcomes != [] {
      CompletesIffBoth(outcomes[..|outcomes| - 1]);
    }
  }

  /** A channel is verified iff some answer on it succeeded. */
  lemma {:induction false} VerifiedIffSomeSuccess(outcomes: seq<Outcome>)
    ensures Run(outcomes).0.email <==> EmailAnswer(true) in outcomes
    ensures Run(outcomes).0.phone <==> PhoneAnswer(true) in outcomes
  {
    if outcomes != [] {
      var prefix := outcomes[..|outcomes| - 1];
      VerifiedIffSomeSuccess(prefix);
      assert outcomes == prefix + [outcomes[|outcomes| - 1]];
    }
  }

  /** Lines 95-101: the status line, shown once at least one channel is
      verified. */
  function StatusLine(f: Flags): (r: Option<string>)
    ensures r.Some? <==> f.email || f.phone
    ensures r == Some(BOTH_COMPLETE) <==> Both(f)
    ensures f.email && !f.phone ==> r == Some("Email verified. Please verify your phone to continue.")
    ensures f.phone && !f.email ==> r == Some("Phone verified. Please verify your email to continue.")
  {
    if !(f.email || f.phone) then None
    else if Both(f) then Some(BOTH_COMPLETE)
    else if f.email then Some("Email verified. Please verify your phone to continue.")
    else Some("Phone verified. Please verify your email to continue.")
  }

  class DualOtpVerification {
    var emailVerified: bool
    var phoneVerified: bool

    function State(): Flags
      reads this
    {
      Flags(emailVerified, phoneVerified)
    }

    constructor ()
      ensures State() == Flags(false, false)
    {
      emailVerified, phoneVerified := false, false;
    }

    /** `handleEmailVerify`: `result` is what `onEmailVerify` answered; it is
        passed back unchanged, and `completed` says whether `onComplete` was
        called. */
    method HandleEmailVerify(result: Option<string>) returns (r: Option<string>, completed: bool)
      modifies this
      ensures r == result
      ensures (State(), completed) == Step(old(State()), EmailAnswer(result.None?))
    {
      r := result;
      completed := false;
      if result.None? {
        emailVerified := true;
        if phoneVerified {
          completed := true;
        }
      }
    }

    /** `handlePhoneVerify`, symmetric to the email handler. */
    method HandlePhoneVerify(result: Option<string>) returns (r: Option<string>, completed: bool)
      modifies this
      ensures r == result
      ensures (State(), completed) == Step(old(State()), PhoneAnswer(result.None?))
    {
      r := result;
      completed := false;
      if result.None? {
        phoneVerified := true;
        if emailVerified {
          completed := true;
        }
      }
    }
  }
}

/** One passcode entry card: the code field, the verify guard and the resend
    button with its 60-second cooldown. The interval timer is modelled as a
    `Tick` method, one call per second. */
module OtpVerification {
  import opened Wrappers
  import opened JsString

  const CODE_LENGTH := 6
  const RESEND_COOLDOWN := 60
  const INVALID_OTP := "Please enter a 6-digit OTP"

  /** What a field with `maxLength={6}` and the digit filter of line 101 keeps
      of the typed text. */
  function EnteredCode(typed: string): (r: string)
    ensures |r| <= CODE_LENGTH
    ensures forall i :: 0 <= i < |r| ==> IsDigit(r[i])
    ensures multiset(r) <= multiset(typed)
    ensures |typed| <= CODE_LENGTH && (forall i :: 0 <= i < |typed| ==> IsDigit(typed[i])) ==> r == typed
  {
    var kept := Truncate(typed, CODE_LENGTH);
    assert typed == kept + typed[|kept|..];
    DigitsOnly(kept)
  }

  /** The field holds the digits among the first six characters typed, every
      one of them, in order; what is typed after the sixth character is
      dropped. */
  lemma EnteredCodeKeepsLeadingDigits(typed: string, rest: string)
    ensures |typed| <= CODE_LENGTH ==> EnteredCode(typed) == DigitsOnly(typed)
    ensures |typed| == CODE_LENGTH ==> EnteredCode(typed + rest) == EnteredCode(typed)
  {
    if |typed| == CODE_LENGTH {
      assert (typed + rest)[..CODE_LENGTH] == typed;
    }
  }

  /** A letter between digits is dropped. */
  lemma EnteredCodeDropsLetters()
    ensures EnteredCode("1a2") == "12"
  {
    var typed := "1a2";
    assert Truncate(typed, CODE_LENGTH) == typed;
    assert typed[1..] == "a2" && "a2"[1..] == "2";
    assert DigitsOnly("2") == "2" by {
      DigitsOnlyChar('2');
    }
    assert DigitsOnly("a2") == "2";
    assert DigitsOnly(typed) == "12";
  }

  /** A seventh digit is cut off. */
  lemma EnteredCodeCutsSeventhDigit()
    ensures EnteredCode("1234567") == "123456"
  {
    var six := "123456";
    assert Truncate("1234567", CODE_LENGTH) == six;
    assert forall i :: 0 <= i < |six| ==> IsDigit(six[i]);
  }

  /** One firing of the interval (lines 58-64): the countdown drops by one, to
      0 at the latest. */
  function NextCount(prev: nat): (r: nat)
    ensures prev > 0 ==> r == prev - 1
    ensures prev == 0 ==> r == 0
  {
    if prev <= 1 then 0 else prev - 1
  }

  /** The countdown after `k` firings. */
  function CountAfter(c: nat, k: nat): nat {
    if k == 0 then c else CountAfter(NextCount(c), k - 1)
  }

  /** A countdown started at `c` keeps resend blocked for exactly `c` ticks. */
  lemma {:induction false} CountdownLastsItsLength(c: nat, k: nat)
    ensures CountAfter(c, k) == if k >= c then 0 else c - k
  {
    if k > 0 {
      CountdownLastsItsLength(NextCount(c), k - 1);
    }
  }

  class OtpEntry {
    var otp: string
    var verifying: bool
    var resending: bool
    var countdown: nat
    /** Whether the resend interval is still scheduled. */
    var timerRunning: bool

    /** The code is at most six digits; the interval runs exactly while the
        countdown is positive; no call is in flight between events. */
    ghost predicate Valid()
      reads this
    {
      && |otp| <= CODE_LENGTH
      && (forall i :: 0 <= i < |otp| ==> IsDigit(otp[i]))
      && (timerRunning <==> countdown > 0)
      && countdown <= RESEND_COOLDOWN
      && !verifying && !resending
    }

    constructor ()
      ensures Valid() && otp == "" && countdown == 0
    {
      otp := "";
      verifying, resending := false, false;
      countdown := 0;
      timerRunning := false;
    }

    /** The field's `onChange`. */
    method Type(typed: string)
      requires Valid()
      modifies this`otp
      ensures Valid()
      ensures otp == EnteredCode(typed)
    {
      otp := EnteredCode(typed);
    }

    /** Line 111: the verify button is enabled. */
    predicate CanVerify(loading: bool)
      reads this
    {
      !verifying && !loading && |otp| == CODE_LENGTH
    }

    /** Between events the button is enabled exactly for a six-digit code
        while the page is not loading, so a click on it always reaches
        `onVerify`. */
    lemma VerifyEnabledIffSixDigits(loading: bool)
      requires Valid()
      ensures CanVerify(loading) <==> !loading && |otp| == CODE_LENGTH
      ensures CanVerify(loading) ==> forall i :: 0 <= i < |otp| ==> IsDigit(otp[i])
    {
    }

    /** `handleVerify` (lines 24-46): a code that is not six characters long is
        refused without calling `onVerify`; otherwise `onVerify` is called with
        it and its error, if any, is shown. `verifyError` is what `onVerify`
        answers. */
    method HandleVerify(verifyError: Option<string>) returns (submitted: Option<string>, shown: Option<string>)
      requires Valid()
      modifies this`verifying
      ensures Valid() && otp == old(otp)
      ensures submitted.Some? <==> |otp| == CODE_LENGTH
      ensures submitted.Some? ==> submitted.value == otp && shown == verifyError
      ensures submitted.None? ==> shown == Some(INVALID_OTP)
      ensures submitted.Some? <==> CanVerify(false)
    {
      if otp == "" || |otp| != CODE_LENGTH {
        return None, Some(INVALID_OTP);
      }
      verifying := true;
      submitted := Some(otp);
      shown := verifyError;
      verifying := false;
    }

    /** `handleResend` (lines 48-72): ignored while the countdown runs;
        otherwise `onResend` is called, and only a successful resend starts a
        new 60-second countdown. `resendError` is what `onResend` answers. */
    method HandleResend(resendError: Option<string>) returns (called: bool)
      requires Valid()
      modifies this`resending, this`countdown, this`timerRunning
      ensures Valid() && otp == old(otp)
      ensures called <==> old(countdown) == 0
      ensures !called ==> countdown == old(countdown) && timerRunning == old(timerRunning)
      ensures called && resendError.None? ==> countdown == RESEND_COOLDOWN && timerRunning
      ensures called && resendError.Some? ==> countdown == 0 && !timerRunning
    {
      if countdown > 0 {
        return false;
      }
      resending := true;
      called := true;
      resending := false;
      if resendError.None? {
        countdown := RESEND_COOLDOWN;
        timerRunning := true;
      }
    }

    /** One second passes: a running interval updates the countdown and is
        cleared once the countdown reaches 0. */
    method Tick()
      requires Valid()
      modifies this`countdown, this`timerRunning
      ensures Valid() && otp == old(otp)
      ensures countdown == NextCount(old(countdown))
    {
      if timerRunning {
        if countdown <= 1 {
          countdown := 0;
          timerRunning := false;
        } else {
          countdown := countdown - 1;
        }
      }
    }
  }
}

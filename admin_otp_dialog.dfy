/**
 * The administrator verification dialog: a two-step machine (`request`, then `verify`) over
 * `step`, `otp`, `loading` and `error`, with the input sanitiser of the code field.
 */
module AdminOtpDialog {
  import opened Options
  import JsString

  datatype Step = RequestStep | VerifyStep

  /** How a `fetch` ends: it throws, or it answers with `ok` and the `error` field of its JSON
      body (`""` when absent). */
  datatype FetchResult = NetworkFailure | Response(ok: bool, errorField: string)

  // ---------------------------------------------------------------- the code field

  /** `value.replace(/\D/g, '').slice(0, 6)`. */
  function SanitizeOtp(input: string): (r: string)
    ensures JsString.AllDigits(r) && |r| <= 6
  {
    JsString.Slice(JsString.KeepDigits(input), 0, 6)
  }

  /** The field holds the first six digits of what was typed, in order. */
  lemma SanitizeKeepsFirstDigits(input: string)
    ensures var digits := JsString.KeepDigits(input);
      var r := SanitizeOtp(input);
      |r| == JsString.Min(6, |digits|) && r == digits[..|r|]
  {
  }

  /** Sanitising a sanitised value changes nothing. */
  lemma SanitizeIdempotent(input: string)
    ensures SanitizeOtp(SanitizeOtp(input)) == SanitizeOtp(input)
  {
    var r := SanitizeOtp(input);
    JsString.KeepDigitsOfDigits(r);
  }

  /** `otp && otp.length === 6`, the test `verifyOTP` starts with. */
  predicate IsSixDigitEntry(otp: string) {
    otp != "" && |otp| == 6
  }

  /** A sanitised field passes that test exactly when at least six digits were typed. */
  lemma SanitizedPassesIff(input: string)
    ensures IsSixDigitEntry(SanitizeOtp(input)) <==> |JsString.KeepDigits(input)| >= 6
  {
    SanitizeKeepsFirstDigits(input);
  }

  /** `data.error || fallback`. */
  function ErrorOr(errorField: string, fallback: string): (r: string)
    ensures r != "" || fallback == ""
    ensures errorField != "" ==> r == errorField
  {
    if errorField != "" then errorField else fallback
  }

  const NetworkError: string := "Network error. Please try again."

  // ---------------------------------------------------------------- the dialog

  class Dialog {
    const userEmail: string
    var step: Step
    var otp: string
    var loading: bool
    var error: string
    /** `localStorage` `admin_verified` is `'true'`. */
    var adminVerified: bool
    /** `localStorage` `admin_verified_at`. */
    var adminVerifiedAt: Option<int>
    /** The parent's `onClose` has been called. */
    var closeRequested: bool
    /** The route `router.push` was given. */
    var navigatedTo: Option<string>

    constructor (userEmail: string)
      ensures this.userEmail == userEmail
      ensures step == RequestStep && otp == "" && !loading && error == ""
      ensures !adminVerified && adminVerifiedAt.None? && !closeRequested && navigatedTo.None?
    {
      this.userEmail := userEmail;
      step := RequestStep;
      otp := "";
      loading := false;
      error := "";
      adminVerified := false;
      adminVerifiedAt := None;
      closeRequested := false;
      navigatedTo := None;
    }

    /** The code field's `onChange`. */
    method ChangeOtp(typed: string)
      modifies this`otp
      ensures otp == SanitizeOtp(typed)
    {
      otp := SanitizeOtp(typed);
    }

    /** `requestOTP`, given how the POST to request-otp ends. */
    method RequestOtp(result: FetchResult)
      modifies this`step, this`error, this`loading
      ensures !loading
      ensures result.Response? && result.ok ==> step == VerifyStep && error == ""
      ensures result.Response? && !result.ok ==>
        step == old(step) && error == ErrorOr(result.errorField, "Failed to send OTP")
      ensures result.NetworkFailure? ==> step == old(step) && error == NetworkError
    {
      loading := true;
      error := "";
      match result {
        case Response(ok, errorField) =>
          if ok {
            step := VerifyStep;
          } else {
            error := ErrorOr(errorField, "Failed to send OTP");
          }
        case NetworkFailure =>
          error := NetworkError;
      }
      loading := false;
    }

    /**
     * `verifyOTP`, given how the POST to verify-otp ends and the clock. `sent` says whether the
     * request was made at all.
     */
    method VerifyOtp(result: FetchResult, now: int) returns (sent: bool)
      modifies this`error, this`loading, this`adminVerified, this`adminVerifiedAt,
        this`closeRequested, this`navigatedTo
      ensures sent == IsSixDigitEntry(old(otp))
      ensures !sent ==>
        && error == "Please enter a valid 6-digit OTP"
        && loading == old(loading) && adminVerified == old(adminVerified)
        && adminVerifiedAt == old(adminVerifiedAt) && closeRequested == old(closeRequested)
        && navigatedTo == old(navigatedTo)
      ensures sent ==> !loading
      ensures sent && result.Response? && result.ok ==>
        && error == "" && adminVerified && adminVerifiedAt == Some(now)
        && closeRequested && navigatedTo == Some("/admin")
      ensures sent && !(result.Response? && result.ok) ==>
        && error == (if result.NetworkFailure? then NetworkError else ErrorOr(result.errorField, "Invalid OTP"))
        && adminVerified == old(adminVerified) && adminVerifiedAt == old(adminVerifiedAt)
        && closeRequested == old(closeRequested) && navigatedTo == old(navigatedTo)
    {
      if !IsSixDigitEntry(otp) {
        error := "Please enter a valid 6-digit OTP";
        return false;
      }
      loading := true;
      error := "";
      match result {
        case Response(ok, errorField) =>
          if ok {
            adminVerified := true;
            adminVerifiedAt := Some(now);
            closeRequested := true;
            navigatedTo := Some("/admin");
          } else {
            error := ErrorOr(errorField, "Invalid OTP");
          }
        case NetworkFailure =>
          error := NetworkError;
      }
      loading := false;
      return true;
    }

    /** `handleClose`. */
    method HandleClose()
      modifies this`step, this`otp, this`error, this`closeRequested
      ensures step == RequestStep && otp == "" && error == "" && closeRequested
    {
      step := RequestStep;
      otp := "";
      error := "";
      closeRequested := true;
    }

    /** The "Resend OTP" button. */
    method Resend()
      modifies this`step
      ensures step == RequestStep
    {
      step := RequestStep;
    }

    /** The Verify button is enabled: `!(loading || otp.length !== 6)`. */
    predicate VerifyEnabled()
      reads this
    {
      !loading && |otp| == 6
    }
  }

  /** The Verify button is enabled exactly when the dialog is not loading and its field meets
      `verifyOTP`'s own test, so pressing an enabled button always sends the request
      (`VerifyOtp` sends exactly when `IsSixDigitEntry(otp)` holds); with a sanitised field that
      means at least six digits were typed. */
  lemma EnabledButtonSends(d: Dialog, typed: string)
    ensures d.VerifyEnabled() <==> !d.loading && IsSixDigitEntry(d.otp)
    ensures d.otp == SanitizeOtp(typed) ==>
      (d.VerifyEnabled() <==> !d.loading && |JsString.KeepDigits(typed)| >= 6)
  {
    if d.otp == SanitizeOtp(typed) {
      SanitizedPassesIff(typed);
    }
  }
}

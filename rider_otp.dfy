/**
 * The OTP step of the login: the four-character code, the guard sequence of
 * Verify, and the loading flag around it. The build flavour (`__DEV__`) is the
 * parameter `isDev`; the 800 ms delay is left out.
 *
 * The navigator renders this screen with a login callback named `onLogin`,
 * while the screen calls a prop named `setIsLoggedIn` that nobody passes.
 * `HandleVerify` models the screen as wired; `HandleVerifyWired` is the same
 * sequence calling the callback it is given.
 */
module RiderOtp {
  import opened Wrappers

  /** The OTP accepted in development builds. */
  const DevOtp := "1234"

  predicate IsValid(otp: string) { |otp| == 4 }

  /** The Verify button. */
  predicate VerifyDisabled(otp: string, loading: bool) {
    !IsValid(otp) || loading
  }

  /** How a tap on Verify ends. */
  datatype Verification =
    /** No phone reached the screen: "Phone missing". */
    | PhoneMissing
    /** Fewer or more than four characters: nothing happens. */
    | Ignored
    /** A development build and a code other than 1234: "Invalid OTP". */
    | InvalidOtp
    /** Calling the missing callback throws: "Verification Failed". */
    | VerificationFailed
    /** The login callback ran. */
    | LoginRequested

  class Screen {
    /** `route.params.phone`. */
    const phone: Option<string>
    var otp: string
    var loading: bool

    constructor(phone0: Option<string>)
      ensures phone == phone0 && otp == "" && !loading
    {
      phone := phone0;
      otp := "";
      loading := false;
    }

    method SetOtp(text: string)
      modifies this
      ensures otp == text && loading == old(loading)
    {
      otp := text;
    }

    /** The guard sequence shared by both wirings: a missing phone, then an
        invalid code, both before loading is set; then the development code. */
    method Guards(isDev: bool) returns (stop: Option<Verification>)
      modifies this
      ensures stop == Some(PhoneMissing) <==> !TextTruthy(phone)
      ensures stop == Some(Ignored) <==> TextTruthy(phone) && !IsValid(otp)
      ensures stop == Some(InvalidOtp) <==> TextTruthy(phone) && IsValid(otp) && isDev && otp != DevOtp
      ensures stop.Some? ==> stop.value == PhoneMissing || stop.value == Ignored || stop.value == InvalidOtp
      ensures stop.None? ==> TextTruthy(phone) && IsValid(otp) && (isDev ==> otp == DevOtp)
      ensures stop.None? ==> loading
      ensures stop == Some(InvalidOtp) ==> !loading
      ensures stop == Some(PhoneMissing) || stop == Some(Ignored) ==> loading == old(loading)
      ensures otp == old(otp)
    {
      if !TextTruthy(phone) {
        return Some(PhoneMissing);
      }
      if !IsValid(otp) {
        return Some(Ignored);
      }
      loading := true;
      if isDev && otp != DevOtp {
        loading := false;
        return Some(InvalidOtp);
      }
      stop := None;
    }

    /** `handleVerify` as the screen is rendered: past the guards it calls a
        callback that is undefined, lands in the catch, and always clears
        loading in the finally. */
    method HandleVerify(isDev: bool) returns (v: Verification)
      modifies this
      ensures v == PhoneMissing <==> !TextTruthy(phone)
      ensures v == Ignored <==> TextTruthy(phone) && !IsValid(otp)
      ensures v == InvalidOtp <==> TextTruthy(phone) && IsValid(otp) && isDev && otp != DevOtp
      ensures v == VerificationFailed <==> TextTruthy(phone) && IsValid(otp) && (isDev ==> otp == DevOtp)
      ensures v != LoginRequested
      ensures v == PhoneMissing || v == Ignored ==> loading == old(loading)
      ensures v == InvalidOtp || v == VerificationFailed ==> !loading
      ensures otp == old(otp)
    {
      var stop := Guards(isDev);
      if stop.Some? {
        return stop.value;
      }
      v := VerificationFailed;
      loading := false;
    }

    /** `handleVerify` with the callback the navigator supplies: a code that
        passes the guards logs the rider in. */
    method HandleVerifyWired(isDev: bool) returns (v: Verification)
      modifies this
      ensures v == PhoneMissing <==> !TextTruthy(phone)
      ensures v == Ignored <==> TextTruthy(phone) && !IsValid(otp)
      ensures v == InvalidOtp <==> TextTruthy(phone) && IsValid(otp) && isDev && otp != DevOtp
      ensures v == LoginRequested <==> TextTruthy(phone) && IsValid(otp) && (isDev ==> otp == DevOtp)
      ensures v != VerificationFailed
      ensures v == PhoneMissing || v == Ignored ==> loading == old(loading)
      ensures v == InvalidOtp || v == LoginRequested ==> !loading
      ensures otp == old(otp)
    {
      var stop := Guards(isDev);
      if stop.Some? {
        return stop.value;
      }
      v := LoginRequested;
      loading := false;
    }
  }

  /** As rendered, the development code itself never logs the rider in: it
      fails verification, while the wired screen logs in with it. */
  method DevCodeNeverLogsIn(phone: string) returns (asRendered: Verification, wired: Verification)
    requires phone != ""
    ensures asRendered == VerificationFailed && wired == LoginRequested
  {
    var s := new Screen(Some(phone));
    s.SetOtp(DevOtp);
    asRendered := s.HandleVerify(true);
    var t := new Screen(Some(phone));
    t.SetOtp(DevOtp);
    wired := t.HandleVerifyWired(true);
  }

  /** Whenever Verify is enabled the code has four characters. */
  lemma EnabledVerifyHasValidCode(otp: string, loading: bool)
    requires !VerifyDisabled(otp, loading)
    ensures |otp| == 4 && !loading
  {
  }
}

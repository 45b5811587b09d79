/** The one-time-code form shown after the password step of the login. */
module OtpForm {
  import opened Wrappers

  /** `c.repeat(n)`. */
  function Repeat(c: char, n: nat): (r: string)
    ensures |r| == n && forall i :: 0 <= i < n ==> r[i] == c
  {
    if n == 0 then "" else [c] + Repeat(c, n - 1)
  }

  /**
   * `maskUsername`: nothing for a missing or empty name, a name of one or two
   * characters as it is, otherwise the first and last characters around stars.
   */
  function MaskUsername(username: Option<string>): (r: string)
    ensures !Truthy(username) ==> r == ""
    ensures Truthy(username) && |username.value| <= 2 ==> r == username.value
    ensures Truthy(username) && |username.value| > 2 ==>
      && |r| == |username.value|
      && r[0] == username.value[0]
      && r[|r| - 1] == username.value[|r| - 1]
      && forall i :: 0 < i < |r| - 1 ==> r[i] == '*'
  {
    if !Truthy(username) then ""
    else
      var u := username.value;
      if |u| <= 2 then u
      else [u[0]] + Repeat('*', |u| - 2) + [u[|u| - 1]]
  }

  /** Masking a masked name changes nothing. */
  lemma MaskUsernameIdempotent(username: Option<string>)
    ensures MaskUsername(Some(MaskUsername(username))) == MaskUsername(username)
  {
    var m := MaskUsername(username);
    if Truthy(username) && |username.value| > 2 {
      var mm := MaskUsername(Some(m));
      assert |mm| == |m|;
      forall i | 0 <= i < |m|
        ensures mm[i] == m[i]
      {
      }
    }
  }

  /** What one handler call does: the code it stores and the code it hands to `onVerify`, if any. */
  datatype OtpOutcome = OtpOutcome(otpValue: string, verify: Option<string>)

  /** `handleComplete`: store the value and submit it when it has six characters. */
  function HandleComplete(value: string): (r: OtpOutcome)
    ensures r.otpValue == value
    ensures r.verify.Some? <==> |value| == 6
    ensures r.verify.Some? ==> r.verify.value == value
  {
    OtpOutcome(value, if |value| == 6 then Some(value) else None)
  }

  /**
   * The Verify button: disabled while verifying or unless six characters are
   * entered; `handleManualSubmit` checks the length again.
   */
  function ManualSubmit(otpValue: string, isVerifying: bool): (r: Option<string>)
    ensures r.Some? <==> !isVerifying && |otpValue| == 6
    ensures r.Some? ==> r.value == otpValue
  {
    if !isVerifying && |otpValue| == 6 then Some(otpValue) else None
  }
}

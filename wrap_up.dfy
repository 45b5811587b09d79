/**
 * The status timer: every second the provider shows how long the agent has been
 * in the current status, or, in 'Wrap Up', a countdown that ends the wrap-up
 * with an automatic 'nd' disposition and a switch to 'Idle'.
 */
module WrapUp {
  import opened Wrappers
  import opened Text
  import opened CallModel

  const WrapUpStatus := "Wrap Up"
  const IdleStatus := "Idle"
  const AutoDispositionCode := "nd"

  /** `Math.floor((now - last_status_change * 1000) / 1000)`: whole seconds since the change. */
  function ElapsedSeconds(nowMs: int, lastStatusChange: int): (e: int)
    ensures e * 1000 <= nowMs - lastStatusChange * 1000 < e * 1000 + 1000
  {
    (nowMs - lastStatusChange * 1000) / 1000
  }

  /** `Math.min(0, elapsed - wrap_up_time)`: never positive, zero exactly when the wrap-up time is used up. */
  function Countdown(elapsed: int, wrapUpTime: int): (c: int)
    ensures c <= 0
    ensures c == 0 <==> elapsed >= wrapUpTime
    ensures c < 0 ==> c == elapsed - wrapUpTime
  {
    if elapsed - wrapUpTime < 0 then elapsed - wrapUpTime else 0
  }

  function Abs(x: int): nat {
    if x < 0 then -x else x
  }

  /** `(±MM:SS)`, minutes and seconds of the magnitude padded to two digits, '-' only for negatives. */
  function FormatTime(seconds: int): (r: string)
    ensures |r| >= 7 && r[0] == '(' && r[|r| - 1] == ')'
    ensures r[1] == '-' <==> seconds < 0
    ensures -6000 < seconds < 6000 ==> |r| == (if seconds < 0 then 8 else 7)
  {
    "(" + SignedClock(seconds) + ")"
  }

  function SignedClock(seconds: int): string {
    (if seconds < 0 then "-" else "") + ClockDigits(Abs(seconds))
  }

  function ClockDigits(a: nat): string {
    Pad2(a / 60) + ":" + Pad2(a % 60)
  }

  /** Reads a `(±M…M:SS)` display back into seconds: the partner of `FormatTime`. */
  function ParseClock(s: string): Option<int> {
    if |s| < 7 || s[0] != '(' || s[|s| - 1] != ')' then None
    else ParseSigned(s[1..|s| - 1])
  }

  function ParseSigned(body: string): Option<int>
    requires |body| > 0
  {
    if body[0] == '-' then
      match ParseMagnitude(body[1..])
      case Some(v) => Some(-v)
      case None => None
    else ParseMagnitude(body)
  }

  function ParseMagnitude(mag: string): Option<int> {
    if |mag| < 5 || mag[|mag| - 3] != ':' then None
    else
      var mins := mag[..|mag| - 3];
      var secs := mag[|mag| - 2..];
      if !AllDigits(mins) || !AllDigits(secs) then None
      else Some(DigitsValue(mins) * 60 + DigitsValue(secs))
  }

  lemma ParseMagnitudeOfSplit(mag: string, m: string, sc: string)
    requires AllDigits(m) && |m| >= 2 && AllDigits(sc) && |sc| == 2
    requires |mag| == |m| + 3 && mag[|m|] == ':' && mag[..|m|] == m && mag[|m| + 1..] == sc
    ensures ParseMagnitude(mag) == Some(DigitsValue(m) * 60 + DigitsValue(sc))
  {
  }

  lemma ParseClockDigits(a: nat)
    ensures |ClockDigits(a)| >= 5 && IsDigit(ClockDigits(a)[0])
    ensures ParseMagnitude(ClockDigits(a)) == Some(a)
  {
    var m := Pad2(a / 60);
    var sc := Pad2(a % 60);
    var mag := ClockDigits(a);
    assert mag[..|m|] == m;
    assert mag[|m| + 1..] == sc;
    assert mag[0] == m[0];
    ParseMagnitudeOfSplit(mag, m, sc);
  }

  lemma ParseSignedClock(x: int)
    ensures |SignedClock(x)| >= 5
    ensures ParseSigned(SignedClock(x)) == Some(x)
  {
    var body := SignedClock(x);
    var mag := ClockDigits(Abs(x));
    ParseClockDigits(Abs(x));
    if x < 0 {
      assert body[0] == '-' && body[1..] == mag;
    } else {
      assert body == mag;
    }
  }

  /** The display loses nothing: the seconds can be read back from it exactly. */
  lemma FormatTimeRoundTrip(x: int)
    ensures ParseClock(FormatTime(x)) == Some(x)
  {
    var s := FormatTime(x);
    var body := SignedClock(x);
    ParseSignedClock(x);
    assert s[1..|s| - 1] == body;
  }

  /** What one timer tick shows and does. */
  datatype TickOutcome = TickOutcome(display: string, disposeNd: bool, requestIdle: bool)

  predicate InWrapUp(pbx: Option<Presence>) {
    pbx.Some? && pbx.value.Snapshot? && pbx.value.status == WrapUpStatus
  }

  /**
   * One tick. No snapshot: '(00:00)'. In 'Wrap Up': the countdown, and at zero
   * an 'nd' disposition (when one is owed) and a request for 'Idle'. Otherwise
   * the elapsed time, clamped at zero; a blank snapshot has no times, so JS
   * arithmetic yields NaN and the display is '(NaN:NaN)'.
   */
  function Tick(pbx: Option<Presence>, nowMs: int, shouldDisposition: bool): (t: TickOutcome)
    ensures pbx.None? ==> t == TickOutcome("(00:00)", false, false)
    ensures pbx == Some(BlankSnapshot) ==> t == TickOutcome("(NaN:NaN)", false, false)
    ensures t.disposeNd ==> t.requestIdle && shouldDisposition
    ensures t.requestIdle ==> InWrapUp(pbx)
  {
    match pbx
    case None => TickOutcome("(00:00)", false, false)
    case Some(BlankSnapshot) => TickOutcome("(NaN:NaN)", false, false)
    case Some(Snapshot(status, last, wrapUp)) =>
      var e := ElapsedSeconds(nowMs, last);
      if status == WrapUpStatus then
        var c := Countdown(e, wrapUp);
        TickOutcome(FormatTime(c), c == 0 && shouldDisposition, c == 0)
      else
        TickOutcome(FormatTime(if e < 0 then 0 else e), false, false)
  }

  /**
   * The wrap-up ends exactly at `(last_status_change + wrap_up_time)` seconds:
   * from that millisecond on every tick asks for 'Idle', and disposes 'nd' when
   * a disposition is owed; before it no tick does either.
   */
  lemma {:induction false} WrapUpEndsOnTime(status: string, last: int, wrapUp: int, nowMs: int, shouldDisposition: bool)
    requires status == WrapUpStatus
    ensures var t := Tick(Some(Snapshot(status, last, wrapUp)), nowMs, shouldDisposition);
      && (t.requestIdle <==> nowMs >= (last + wrapUp) * 1000)
      && (t.disposeNd <==> shouldDisposition && nowMs >= (last + wrapUp) * 1000)
  {
    var e := ElapsedSeconds(nowMs, last);
    if e >= wrapUp {
      assert e * 1000 >= wrapUp * 1000;
    } else {
      assert e + 1 <= wrapUp;
      assert (e + 1) * 1000 <= wrapUp * 1000;
    }
  }

  /**
   * The display read back: in 'Wrap Up' a count-down that is never positive and
   * reaches zero at the end; in any other status the non-negative elapsed time.
   */
  lemma {:induction false} TickDisplayMeaning(status: string, last: int, wrapUp: int, nowMs: int, shouldDisposition: bool)
    ensures var t := Tick(Some(Snapshot(status, last, wrapUp)), nowMs, shouldDisposition);
      var e := ElapsedSeconds(nowMs, last);
      && (status == WrapUpStatus ==> ParseClock(t.display) == Some(Countdown(e, wrapUp)))
      && (status != WrapUpStatus ==> ParseClock(t.display) == Some(if e < 0 then 0 else e))
  {
    var e := ElapsedSeconds(nowMs, last);
    if status == WrapUpStatus {
      FormatTimeRoundTrip(Countdown(e, wrapUp));
    } else {
      FormatTimeRoundTrip(if e < 0 then 0 else e);
    }
  }
}

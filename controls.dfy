/**
 * The computations of the transport controls (Controls.js): the seek
 * target, the `m:ss` clock and the progress-bar percentage.
 */
module Controls {
  import opened JsMath
  import opened Text

  const SeekStep: real := 10.0

  /** `direction === 'forward' ? 10 : -10` */
  function SeekAmount(direction: string): real
  {
    if direction == "forward" then SeekStep else -SeekStep
  }

  /** `handleSeek`: the position handed to the engine, clamped into `[0, duration]`. */
  function SeekTarget(direction: string, currentTime: real, duration: real): (p: real)
    ensures p >= 0.0
    ensures duration >= 0.0 ==> p <= duration
    ensures 0.0 <= currentTime + SeekAmount(direction) <= duration ==> p == currentTime + SeekAmount(direction)
    ensures duration >= 0.0 && currentTime + SeekAmount(direction) > duration ==> p == duration
    ensures duration < 0.0 || currentTime + SeekAmount(direction) < 0.0 ==> p == 0.0
  {
    Max(0.0, Min(duration, currentTime + SeekAmount(direction)))
  }

  /** From a position inside the track, seeking forward never moves back and seeking backward never moves on. */
  lemma SeekMonotone(currentTime: real, duration: real)
    requires 0.0 <= currentTime <= duration
    ensures currentTime <= SeekTarget("forward", currentTime, duration)
    ensures SeekTarget("backward", currentTime, duration) <= currentTime
  {
  }

  /** `formatTime`: whole minutes, a colon, whole seconds padded to two places. */
  function FormatTime(seconds: real): string
  {
    var mins := Floor(seconds / 60.0);
    var secs := Floor(Rem(seconds, 60.0));
    IntToString(mins) + ":" + PadStart(IntToString(secs), 2, '0')
  }

  /** Seconds field of `formatTime`. */
  function SecondsField(seconds: real): int
  {
    Floor(Rem(seconds, 60.0))
  }

  /**
   * For a non-negative time the clock reads `mins:ss` with `ss` two digits
   * in 00..59, and `mins * 60 + ss` is the whole number of seconds.
   */
  lemma FormatTimeFields(seconds: real)
    requires seconds >= 0.0
    ensures var mins, secs := Floor(seconds / 60.0), SecondsField(seconds);
      && 0 <= mins && 0 <= secs < 60
      && mins * 60 + secs == Floor(seconds)
      && FormatTime(seconds) == NatToString(mins) + ":" + [DigitChar(secs / 10), DigitChar(secs % 10)]
  {
    RemSixty(seconds);
    var secs := SecondsField(seconds);
    TwoDigits(secs);
  }

  /** The progress-bar fill, in percent. */
  function Progress(currentTime: real, duration: real): (p: real)
    ensures duration <= 0.0 ==> p == 0.0
    ensures 0.0 <= currentTime <= duration ==> 0.0 <= p <= 100.0
    ensures duration > 0.0 && currentTime == duration ==> p == 100.0
  {
    if duration > 0.0 then
      assert 0.0 <= currentTime <= duration ==> currentTime / duration <= 1.0 by {
        assert currentTime / duration * duration == currentTime;
      }
      (currentTime / duration) * 100.0
    else 0.0
  }
}

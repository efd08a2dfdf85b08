/** Tempo matching by constant-rate playback (pitch-corrected time stretch). */
module Tempo {

  /** Rate at which a track of tempo `originalBPM` must play to sound at `targetBPM`. */
  function PlaybackRate(targetBPM: real, originalBPM: real): (rate: real)
    requires originalBPM != 0.0
    ensures rate * originalBPM == targetBPM
  {
    targetBPM / originalBPM
  }

  /** The rate is exactly 1 when, and only when, the two tempos agree. */
  lemma RateIsOneIffSameTempo(targetBPM: real, originalBPM: real)
    requires originalBPM != 0.0
    ensures PlaybackRate(targetBPM, originalBPM) == 1.0 <==> targetBPM == originalBPM
  {
    assert targetBPM == originalBPM * PlaybackRate(targetBPM, originalBPM);
  }

  /** Positive tempos give a positive rate. */
  lemma RatePositive(targetBPM: real, originalBPM: real)
    requires targetBPM > 0.0 && originalBPM > 0.0
    ensures PlaybackRate(targetBPM, originalBPM) > 0.0
  {
    assert targetBPM == originalBPM * PlaybackRate(targetBPM, originalBPM);
  }
}

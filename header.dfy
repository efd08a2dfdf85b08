/**
 * The two numeric inputs of the header (Header.js): target tempo and fade
 * length. Each handler computes `Math.max(lo, Math.min(hi, parseInt(text) || fallback))`.
 * The result of `parseInt` is taken as given: `None` for `NaN`, `Some(n)` otherwise.
 */
module Header {
  import opened Wrappers
  import opened JsMath

  const DefaultBPM: int := 128
  const MinBPM: int := 60
  const MaxBPM: int := 200
  const DefaultFade: int := 8
  const MinFade: int := 2
  const MaxFade: int := 20

  /** `parsed || fallback`: `NaN` and `0` are falsy, every other number is kept. */
  function OrFallback(parsed: Option<int>, fallback: int): (v: int)
    ensures parsed == None || parsed == Some(0) ==> v == fallback
    ensures parsed.Some? && parsed.value != 0 ==> v == parsed.value
  {
    match parsed
    case None => fallback
    case Some(n) => if n == 0 then fallback else n
  }

  /** The value stored as target tempo after the tempo field changes. */
  function TargetBPMFromInput(parsed: Option<int>): (bpm: int)
    ensures MinBPM <= bpm <= MaxBPM
    ensures parsed == None || parsed == Some(0) ==> bpm == DefaultBPM
    ensures parsed.Some? && MinBPM <= parsed.value <= MaxBPM ==> bpm == parsed.value
    ensures parsed.Some? && parsed.value != 0 && parsed.value < MinBPM ==> bpm == MinBPM
    ensures parsed.Some? && parsed.value > MaxBPM ==> bpm == MaxBPM
  {
    var value := OrFallback(parsed, DefaultBPM);
    MaxInt(MinBPM, MinInt(MaxBPM, value))
  }

  /** The value stored as fade length after the fade field changes. */
  function FadeFromInput(parsed: Option<int>): (fade: int)
    ensures MinFade <= fade <= MaxFade
    ensures parsed == None || parsed == Some(0) ==> fade == DefaultFade
    ensures parsed.Some? && MinFade <= parsed.value <= MaxFade ==> fade == parsed.value
    ensures parsed.Some? && parsed.value != 0 && parsed.value < MinFade ==> fade == MinFade
    ensures parsed.Some? && parsed.value > MaxFade ==> fade == MaxFade
  {
    var value := OrFallback(parsed, DefaultFade);
    MaxInt(MinFade, MinInt(MaxFade, value))
  }

  /** The field shows the stored tempo; reading it back stores the same tempo again. */
  lemma TargetBPMIdempotent(parsed: Option<int>)
    ensures TargetBPMFromInput(Some(TargetBPMFromInput(parsed))) == TargetBPMFromInput(parsed)
  {
  }

  /** The field shows the stored fade; reading it back stores the same fade again. */
  lemma FadeIdempotent(parsed: Option<int>)
    ensures FadeFromInput(Some(FadeFromInput(parsed))) == FadeFromInput(parsed)
  {
  }
}

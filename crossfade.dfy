/**
 * The volume ramp of `startCrossfade` (MixEngine.js:107-125): the loop
 * runs for i = 0..20 and at each step sets the outgoing player to
 * `1 - i/20`, the incoming one to `i/20`, then waits `fade * 1000 / 20` ms.
 */
module Crossfade {

  const Steps: nat := 20

  /** One loop iteration: the two volumes set and the wait that follows. */
  datatype VolumeStep = VolumeStep(outgoing: real, incoming: real, waitMillis: real)

  function Progress(i: int): real
  {
    (i as real) / (Steps as real)
  }

  function StepMillis(fadeDuration: real): real
  {
    (fadeDuration * 1000.0) / (Steps as real)
  }

  /** The iterations of the ramp loop, in order. */
  function Ramp(fadeDuration: real): seq<VolumeStep>
  {
    seq(Steps + 1, i => VolumeStep(1.0 - Progress(i), Progress(i), StepMillis(fadeDuration)))
  }

  /**
   * The ramp has 21 steps; at every step the two volumes lie in [0, 1] and
   * add up to 1; it starts at full outgoing volume and ends at full incoming volume.
   */
  lemma RampShape(fadeDuration: real)
    ensures var r := Ramp(fadeDuration);
      && |r| == 21
      && (forall i :: 0 <= i < |r| ==>
            && r[i].outgoing + r[i].incoming == 1.0
            && 0.0 <= r[i].outgoing <= 1.0 && 0.0 <= r[i].incoming <= 1.0
            && r[i].waitMillis == fadeDuration * 50.0)
      && r[0].outgoing == 1.0 && r[0].incoming == 0.0
      && r[20].outgoing == 0.0 && r[20].incoming == 1.0
  {
  }

  /** The outgoing volume only falls and the incoming volume only rises. */
  lemma RampMonotone(fadeDuration: real)
    ensures var r := Ramp(fadeDuration);
      forall i, j :: 0 <= i <= j < |r| ==> r[j].outgoing <= r[i].outgoing && r[i].incoming <= r[j].incoming
  {
  }

  function TotalWait(r: seq<VolumeStep>): real
  {
    if r == [] then 0.0 else r[0].waitMillis + TotalWait(r[1..])
  }

  lemma {:induction false} TotalWaitUniform(r: seq<VolumeStep>, w: real)
    requires forall i :: 0 <= i < |r| ==> r[i].waitMillis == w
    ensures TotalWait(r) == |r| as real * w
  {
    if r != [] {
      TotalWaitUniform(r[1..], w);
      assert (|r| - 1) as real * w + w == |r| as real * w;
    }
  }

  /** The loop waits 21 times, so the whole ramp lasts 21/20 of the fade length. */
  lemma RampLasts(fadeDuration: real)
    ensures TotalWait(Ramp(fadeDuration)) == fadeDuration * 1050.0
  {
    RampShape(fadeDuration);
    TotalWaitUniform(Ramp(fadeDuration), fadeDuration * 50.0);
  }
}

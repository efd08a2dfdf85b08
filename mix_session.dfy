/**
 * The playback-status handler that `startMix` registers (MixEngine.js:52-92),
 * as a step function on the control state it reads and writes: whether the
 * engine holds a current and a next player, the crossfading flag, and the
 * handler's own track index. Runs over sequences of status snapshots give
 * the properties that span many calls.
 */
module MixSession {
  import opened Wrappers

  /** A playback-status snapshot as the platform delivers it. */
  datatype Status = Status(isLoaded: bool, positionMillis: real, durationMillis: real, didJustFinish: bool)

  /** The argument of `onUpdate`. */
  datatype PlaybackUpdate = PlaybackUpdate(currentIndex: nat, currentTime: real, duration: real, isCrossfading: bool)

  /** What the handler's closure holds fixed: the number of songs, the fade, and which callbacks were given. */
  datatype MixConfig = MixConfig(trackCount: nat, fadeDuration: real, hasOnUpdate: bool, hasOnComplete: bool)

  datatype Session = Session(hasCurrent: bool, hasNext: bool, isCrossfading: bool, currentIndex: nat)

  /** What one snapshot did: the new state, the update sent, whether a crossfade began, whether `onComplete` ran. */
  datatype Outcome = Outcome(after: Session, update: Option<PlaybackUpdate>, crossfadeStarted: bool, completed: bool)

  function CurrentTime(status: Status): real { status.positionMillis / 1000.0 }

  function Duration(status: Status): real { status.durationMillis / 1000.0 }

  /** The guard of MixEngine.js:70, evaluated on the state before the snapshot. */
  predicate StartsCrossfade(s: Session, cfg: MixConfig, status: Status)
  {
    && status.isLoaded
    && Duration(status) - CurrentTime(status) <= cfg.fadeDuration
    && !s.isCrossfading
    && s.currentIndex < cfg.trackCount - 1
  }

  /** The control state `stop` leaves: no players, not crossfading; the index is untouched. */
  function Stopped(s: Session): Session
  {
    s.(hasCurrent := false, hasNext := false, isCrossfading := false)
  }

  function Step(s: Session, cfg: MixConfig, status: Status): Outcome
  {
    if !status.isLoaded then Outcome(s, None, false, false)
    else
      var update :=
        if cfg.hasOnUpdate then Some(PlaybackUpdate(s.currentIndex, CurrentTime(status), Duration(status), s.isCrossfading))
        else None;
      var crossfade := StartsCrossfade(s, cfg, status);
      var s1 := if crossfade then s.(isCrossfading := true, hasNext := true) else s;
      if !status.didJustFinish then Outcome(s1, update, crossfade, false)
      else if s1.currentIndex < cfg.trackCount - 1 then
        Outcome(Session(s1.hasNext, false, false, s1.currentIndex + 1), update, crossfade, false)
      else Outcome(Stopped(s1), update, crossfade, cfg.hasOnComplete)
  }

  /** A snapshot that is not loaded is ignored: no update, no change. */
  lemma IgnoresUnloaded(s: Session, cfg: MixConfig, status: Status)
    requires !status.isLoaded
    ensures Step(s, cfg, status) == Outcome(s, None, false, false)
  {
  }

  /**
   * A loaded snapshot produces an update, when `onUpdate` was given, carrying
   * the index and crossfading flag from before the step and the snapshot's
   * time and duration converted to seconds.
   */
  lemma UpdateCarriesPreState(s: Session, cfg: MixConfig, status: Status)
    requires status.isLoaded
    ensures var o := Step(s, cfg, status);
      && (o.update.Some? <==> cfg.hasOnUpdate)
      && (cfg.hasOnUpdate ==>
            o.update.value ==
            PlaybackUpdate(s.currentIndex, status.positionMillis / 1000.0, status.durationMillis / 1000.0, s.isCrossfading))
  {
  }

  /**
   * A crossfade begins exactly when the remaining time is within the fade,
   * no crossfade is under way and a later song exists; so never on the last
   * or only song.
   */
  lemma CrossfadeGuard(s: Session, cfg: MixConfig, status: Status)
    ensures var o := Step(s, cfg, status);
      && (o.crossfadeStarted <==>
            status.isLoaded && Duration(status) - CurrentTime(status) <= cfg.fadeDuration
            && !s.isCrossfading && s.currentIndex + 1 < cfg.trackCount)
      && (o.crossfadeStarted && !status.didJustFinish ==> o.after.isCrossfading && o.after.hasNext)
  {
  }

  /**
   * A finish with songs left promotes the next player to current, clears
   * the next slot and the flag, and advances the index by exactly one; when
   * there was no next player, no current player remains.
   */
  lemma FinishPromotes(s: Session, cfg: MixConfig, status: Status)
    requires status.isLoaded && status.didJustFinish && s.currentIndex + 1 < cfg.trackCount
    ensures var o := Step(s, cfg, status);
      && o.after == Session(s.hasNext || o.crossfadeStarted, false, false, s.currentIndex + 1)
      && !o.completed
  {
  }

  /** A finish on the last song stops the engine, keeps the index, and reports completion once if `onComplete` was given. */
  lemma FinishLastStops(s: Session, cfg: MixConfig, status: Status)
    requires status.isLoaded && status.didJustFinish && s.currentIndex + 1 >= cfg.trackCount
    ensures var o := Step(s, cfg, status);
      o.after == Stopped(s) && o.completed == cfg.hasOnComplete && !o.crossfadeStarted
  {
  }

  /**
   * Everything a sequence of snapshots did. `crossfadeFrom` lists, in order,
   * the index of the song each crossfade started from.
   */
  datatype Trace = Trace(final: Session, crossfadeFrom: seq<nat>, updates: seq<PlaybackUpdate>, completions: nat)

  function Run(s: Session, cfg: MixConfig, statuses: seq<Status>): Trace
    decreases |statuses|
  {
    if statuses == [] then Trace(s, [], [], 0)
    else
      var o := Step(s, cfg, statuses[0]);
      var t := Run(o.after, cfg, statuses[1..]);
      Trace(
        t.final,
        (if o.crossfadeStarted then [s.currentIndex] else []) + t.crossfadeFrom,
        (if o.update.Some? then [o.update.value] else []) + t.updates,
        t.completions + (if o.completed then 1 else 0))
  }

  /** The index names a song, and a crossfade is only ever under way towards an existing next song. */
  predicate Inv(s: Session, cfg: MixConfig)
  {
    && s.currentIndex < cfg.trackCount
    && (s.isCrossfading ==> s.currentIndex + 1 < cfg.trackCount)
  }

  /** The state `startMix` on a fresh engine hands to its handler. */
  function Started(hasNext: bool): Session
  {
    Session(true, hasNext, false, 0)
  }

  /** Songs passed or being left: each crossfade uses up one of these, and there are at most n - 1. */
  function Potential(s: Session): nat
  {
    s.currentIndex + (if s.isCrossfading then 1 else 0)
  }

  lemma StepKeepsInv(s: Session, cfg: MixConfig, status: Status)
    requires Inv(s, cfg)
    ensures var o := Step(s, cfg, status);
      && Inv(o.after, cfg)
      && s.currentIndex <= o.after.currentIndex
      && Potential(s) + (if o.crossfadeStarted then 1 else 0) <= Potential(o.after)
  {
  }

  lemma {:induction false} RunKeepsInv(s: Session, cfg: MixConfig, statuses: seq<Status>)
    requires Inv(s, cfg)
    ensures var t := Run(s, cfg, statuses);
      && Inv(t.final, cfg)
      && Potential(s) + |t.crossfadeFrom| <= Potential(t.final)
      && s.currentIndex <= t.final.currentIndex
      && (forall i :: 0 <= i < |t.crossfadeFrom| ==>
            Potential(s) <= t.crossfadeFrom[i] < Potential(t.final) && t.crossfadeFrom[i] + 1 < cfg.trackCount)
      && (forall i, j :: 0 <= i < j < |t.crossfadeFrom| ==> t.crossfadeFrom[i] < t.crossfadeFrom[j])
    decreases |statuses|
  {
    if statuses != [] {
      var o := Step(s, cfg, statuses[0]);
      StepKeepsInv(s, cfg, statuses[0]);
      RunKeepsInv(o.after, cfg, statuses[1..]);
      var t := Run(o.after, cfg, statuses[1..]);
      var from := if o.crossfadeStarted then [s.currentIndex] else [];
      assert o.crossfadeStarted ==> Potential(s) == s.currentIndex && s.currentIndex + 1 < cfg.trackCount;
      assert Run(s, cfg, statuses).crossfadeFrom == from + t.crossfadeFrom;
    }
  }

  /** Over any sequence of snapshots the reported indices never decrease and stay between the first and the final index. */
  lemma {:induction false} RunUpdatesOrdered(s: Session, cfg: MixConfig, statuses: seq<Status>)
    requires Inv(s, cfg)
    ensures var t := Run(s, cfg, statuses);
      && (forall i :: 0 <= i < |t.updates| ==> s.currentIndex <= t.updates[i].currentIndex <= t.final.currentIndex)
      && (forall i, j :: 0 <= i < j < |t.updates| ==> t.updates[i].currentIndex <= t.updates[j].currentIndex)
    decreases |statuses|
  {
    if statuses != [] {
      var o := Step(s, cfg, statuses[0]);
      StepKeepsInv(s, cfg, statuses[0]);
      RunKeepsInv(o.after, cfg, statuses[1..]);
      RunUpdatesOrdered(o.after, cfg, statuses[1..]);
      var t := Run(o.after, cfg, statuses[1..]);
      var first := if o.update.Some? then [o.update.value] else [];
      assert o.update.Some? ==> o.update.value.currentIndex == s.currentIndex;
      assert Run(s, cfg, statuses).updates == first + t.updates;
    }
  }

  /**
   * Over any sequence of snapshots after `startMix` on a fresh engine, each
   * song starts at most one crossfade, the last song none: the indices the
   * crossfades start from strictly increase and stay below n - 1, so there are
   * at most n - 1 of them. The indices the updates report never decrease and
   * always name a song.
   */
  lemma MixCrossfadesAtMostOncePerTransition(cfg: MixConfig, hasNext: bool, statuses: seq<Status>)
    requires cfg.trackCount >= 1
    ensures var t := Run(Started(hasNext), cfg, statuses);
      && (forall i, j :: 0 <= i < j < |t.crossfadeFrom| ==> t.crossfadeFrom[i] < t.crossfadeFrom[j])
      && (forall i :: 0 <= i < |t.crossfadeFrom| ==> t.crossfadeFrom[i] < cfg.trackCount - 1)
      && |t.crossfadeFrom| <= cfg.trackCount - 1
      && (cfg.trackCount == 1 ==> t.crossfadeFrom == [])
      && (forall i :: 0 <= i < |t.updates| ==> t.updates[i].currentIndex < cfg.trackCount)
      && (forall i, j :: 0 <= i < j < |t.updates| ==> t.updates[i].currentIndex <= t.updates[j].currentIndex)
  {
    RunKeepsInv(Started(hasNext), cfg, statuses);
    RunUpdatesOrdered(Started(hasNext), cfg, statuses);
  }
}

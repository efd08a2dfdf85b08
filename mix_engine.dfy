/**
 * The mix engine (MixEngine.js). `MixEngine` owns the current and next
 * players and the crossfading flag; `MixHandler` is the status callback
 * that `startMix` registers, with the variables its closure captures
 * (the songs, the tempo, the fade, which callbacks exist, and the mutable
 * `currentIndex`). Awaited platform calls complete before the next
 * statement; snapshots arrive one at a time.
 */
module MixEngine {
  import opened Wrappers
  import opened Tempo
  import opened Playlist
  import opened Crossfade
  import opened MixSession
  import opened Audio

  /** Every song has a tempo the rate computation can divide by. */
  predicate Playable(songs: seq<Song>)
  {
    forall i :: 0 <= i < |songs| ==> songs[i].originalBPM != 0.0
  }

  /** Songs added through `addSong` carry an estimated tempo of at least 120, so the playlist stays playable. */
  lemma AddSongKeepsPlayable(songs: seq<Song>, newSong: NewSong, fadeDuration: real, now: int, random: real)
    requires 0.0 <= random < 1.0 && Playable(songs)
    ensures Playable(AddSong(songs, newSong, fadeDuration, now, random))
  {
  }

  class MixEngine {
    var currentPlayer: Sound?
    var nextPlayer: Sound?
    var isCrossfading: bool

    /** The two slots never hold the same handle. */
    ghost predicate Valid()
      reads this
    {
      currentPlayer != null ==> currentPlayer != nextPlayer
    }

    /** The handles the engine holds. */
    function Players(): set<Sound>
      reads this
    {
      (if currentPlayer != null then {currentPlayer} else {}) + (if nextPlayer != null then {nextPlayer} else {})
    }

    function CurrentPlayers(): set<Sound>
      reads this
    {
      if currentPlayer != null then {currentPlayer} else {}
    }

    constructor ()
      ensures Valid()
      ensures currentPlayer == null && nextPlayer == null && !isCrossfading
    {
      currentPlayer := null;
      nextPlayer := null;
      isCrossfading := false;
    }

    /** `loadSong`: a paused handle at full volume, at the rate matching the tempos, positioned in milliseconds. */
    method LoadSong(uri: string, targetBPM: real, originalBPM: real, startPosition: real := 0.0) returns (sound: Sound)
      requires originalBPM != 0.0
      ensures fresh(sound) && sound.uri == uri
      ensures sound.View() == PlayerView(true, false, 1.0, PlaybackRate(targetBPM, originalBPM), startPosition * 1000.0, 0)
    {
      var playbackRate := PlaybackRate(targetBPM, originalBPM);
      sound := new Sound.Create(uri, playbackRate, startPosition * 1000.0, 1.0);
    }

    /**
     * `startMix`: nothing happens for an empty list; otherwise the first song
     * is loaded into the current slot and played, and the returned handler
     * watches that player. The next slot and the flag are left as they were.
     */
    method StartMix(songs: seq<Song>, targetBPM: real, fadeDuration: real, hasOnUpdate: bool, hasOnComplete: bool)
      returns (handler: MixHandler?)
      requires Valid() && Playable(songs)
      modifies this
      ensures Valid()
      ensures songs == [] ==> handler == null && unchanged(this)
      ensures songs != [] ==>
        && handler != null && fresh(handler)
        && handler.engine == this && handler.songs == songs && handler.targetBPM == targetBPM
        && handler.fadeDuration == fadeDuration
        && handler.hasOnUpdate == hasOnUpdate && handler.hasOnComplete == hasOnComplete
        && handler.currentIndex == 0
        && currentPlayer != null && fresh(currentPlayer) && handler.watched == currentPlayer
        && currentPlayer.uri == songs[0].uri
        && currentPlayer.View() == PlayerView(true, true, 1.0, PlaybackRate(targetBPM, songs[0].originalBPM), 0.0, 0)
        && nextPlayer == old(nextPlayer) && isCrossfading == old(isCrossfading)
        && (!old(isCrossfading) ==> handler.Control() == Started(nextPlayer != null))
    {
      if |songs| == 0 {
        return null;
      }
      var currentIndex := 0;
      var sound := LoadSong(songs[currentIndex].uri, targetBPM, songs[currentIndex].originalBPM);
      currentPlayer := sound;
      sound.Play();
      handler := new MixHandler(this, songs, targetBPM, fadeDuration, hasOnUpdate, hasOnComplete, sound);
    }

    /**
     * `startCrossfade`: loads the next song into the next slot, starts it at
     * volume 0, then runs the 21-step ramp, ending with the outgoing player
     * silent and the incoming one at full volume. Returns the steps taken.
     */
    method StartCrossfade(songs: seq<Song>, nextIndex: nat, targetBPM: real, fadeDuration: real)
      returns (ramp: seq<VolumeStep>)
      requires Valid()
      requires nextIndex < |songs| && songs[nextIndex].originalBPM != 0.0
      modifies this, Players()
      ensures Valid()
      ensures currentPlayer == old(currentPlayer) && isCrossfading == old(isCrossfading)
      ensures nextPlayer != null && fresh(nextPlayer) && nextPlayer.uri == songs[nextIndex].uri
      ensures nextPlayer.View() == PlayerView(true, true, 1.0, PlaybackRate(targetBPM, songs[nextIndex].originalBPM), 0.0, 0)
      ensures currentPlayer != null ==> currentPlayer.View() == old(currentPlayer.View()).(volume := 0.0)
      ensures old(nextPlayer) != null ==> unchanged(old(nextPlayer))
      ensures ramp == Ramp(fadeDuration)
    {
      var sound := LoadSong(songs[nextIndex].uri, targetBPM, songs[nextIndex].originalBPM);
      nextPlayer := sound;
      sound.SetVolume(0.0);
      sound.Play();

      var steps := Steps;
      var stepDuration := (fadeDuration * 1000.0) / (steps as real);
      ramp := [];
      for i := 0 to steps + 1
        invariant nextPlayer == sound && currentPlayer == old(currentPlayer) && isCrossfading == old(isCrossfading)
        invariant ramp == Ramp(fadeDuration)[..i]
        invariant old(nextPlayer) != null ==> unchanged(old(nextPlayer))
        invariant sound.View() ==
          PlayerView(true, true, if i == 0 then 0.0 else Progress(i - 1), PlaybackRate(targetBPM, songs[nextIndex].originalBPM), 0.0, 0)
        invariant currentPlayer != null ==>
          currentPlayer.View() == old(currentPlayer.View()).(volume := if i == 0 then old(currentPlayer.volume) else 1.0 - Progress(i - 1))
      {
        var progress := (i as real) / (steps as real);
        if currentPlayer != null {
          currentPlayer.SetVolume(1.0 - progress);
        }
        if nextPlayer != null {
          nextPlayer.SetVolume(progress);
        }
        ramp := ramp + [VolumeStep(1.0 - progress, progress, stepDuration)];
      }
    }

    /** `pause`: every held player stops playing; nothing else changes. */
    method Pause()
      requires Valid()
      modifies Players()
      ensures currentPlayer != null ==> currentPlayer.View() == old(currentPlayer.View()).(playing := false)
      ensures nextPlayer != null ==> nextPlayer.View() == old(nextPlayer.View()).(playing := false)
    {
      if currentPlayer != null {
        currentPlayer.Pause();
      }
      if nextPlayer != null {
        nextPlayer.Pause();
      }
    }

    /** `resume`: every held player plays again; nothing else changes. */
    method Resume()
      requires Valid()
      modifies Players()
      ensures currentPlayer != null ==> currentPlayer.View() == old(currentPlayer.View()).(playing := true)
      ensures nextPlayer != null ==> nextPlayer.View() == old(nextPlayer.View()).(playing := true)
    {
      if currentPlayer != null {
        currentPlayer.Play();
      }
      if nextPlayer != null {
        nextPlayer.Play();
      }
    }

    /**
     * `stop`: every held player is stopped and unloaded exactly once, both
     * slots are emptied and the flag cleared. On an engine already stopped it
     * changes nothing, so a second `stop` is harmless.
     */
    method Stop()
      requires Valid()
      modifies this, Players()
      ensures Valid()
      ensures currentPlayer == null && nextPlayer == null && !isCrossfading
      ensures old(currentPlayer) != null ==> old(currentPlayer).View() == Released(old(currentPlayer.View()))
      ensures old(nextPlayer) != null ==> old(nextPlayer).View() == Released(old(nextPlayer.View()))
      ensures old(currentPlayer) == null && old(nextPlayer) == null && !old(isCrossfading) ==> unchanged(this)
    {
      if currentPlayer != null {
        currentPlayer.Stop();
        currentPlayer.Unload();
        currentPlayer := null;
      }
      if nextPlayer != null {
        nextPlayer.Stop();
        nextPlayer.Unload();
        nextPlayer := null;
      }
      isCrossfading := false;
    }

    /** `seek`: moves only the current player, to `position` seconds in milliseconds, without clamping. */
    method Seek(position: real)
      requires Valid()
      modifies CurrentPlayers()
      ensures currentPlayer != null ==> currentPlayer.View() == old(currentPlayer.View()).(positionMillis := position * 1000.0)
      ensures nextPlayer != null ==> unchanged(nextPlayer)
    {
      if currentPlayer != null {
        currentPlayer.SetPosition(position * 1000.0);
      }
    }
  }

  /** Two `stop` calls in a row release each held player once, as a single call does. */
  method StopTwice(engine: MixEngine)
    requires engine.Valid()
    modifies engine, engine.Players()
    ensures engine.currentPlayer == null && engine.nextPlayer == null && !engine.isCrossfading
    ensures old(engine.currentPlayer) != null ==>
      old(engine.currentPlayer).View() == Released(old(engine.currentPlayer.View()))
    ensures old(engine.nextPlayer) != null ==>
      old(engine.nextPlayer).View() == Released(old(engine.nextPlayer.View()))
  {
    engine.Stop();
    engine.Stop();
  }

  /** The status callback of one `startMix` call, with the state its closure captures. */
  class MixHandler {
    const engine: MixEngine
    const songs: seq<Song>
    const targetBPM: real
    const fadeDuration: real
    const hasOnUpdate: bool
    const hasOnComplete: bool
    /** The player the callback is registered on: always the mix's first player. */
    const watched: Sound
    var currentIndex: nat

    constructor (engine: MixEngine, songs: seq<Song>, targetBPM: real, fadeDuration: real,
                 hasOnUpdate: bool, hasOnComplete: bool, watched: Sound)
      ensures this.engine == engine && this.songs == songs && this.targetBPM == targetBPM
      ensures this.fadeDuration == fadeDuration
      ensures this.hasOnUpdate == hasOnUpdate && this.hasOnComplete == hasOnComplete
      ensures this.watched == watched && currentIndex == 0
    {
      this.engine := engine;
      this.songs := songs;
      this.targetBPM := targetBPM;
      this.fadeDuration := fadeDuration;
      this.hasOnUpdate := hasOnUpdate;
      this.hasOnComplete := hasOnComplete;
      this.watched := watched;
      this.currentIndex := 0;
    }

    function Config(): MixConfig
    {
      MixConfig(|songs|, fadeDuration, hasOnUpdate, hasOnComplete)
    }

    /** The control state the handler and the engine share. */
    function Control(): Session
      reads this, engine
    {
      Session(engine.currentPlayer != null, engine.nextPlayer != null, engine.isCrossfading, currentIndex)
    }

    /** `p` holds song `k`, playing at full volume from the start at the song's rate. */
    predicate Incoming(p: Sound?, k: nat)
      reads p
    {
      && p != null && k < |songs| && songs[k].originalBPM != 0.0
      && p.uri == songs[k].uri
      && p.View() == PlayerView(true, true, 1.0, PlaybackRate(targetBPM, songs[k].originalBPM), 0.0, 0)
    }

    /**
     * One status snapshot. The control state moves as `Step` says; the
     * players are loaded, faded, unloaded and promoted as the branches of
     * the handler do.
     */
    method OnStatus(status: Status) returns (update: Option<PlaybackUpdate>, completed: bool)
      requires engine.Valid() && Playable(songs)
      modifies this, engine, engine.Players()
      ensures engine.Valid()
      ensures var o := Step(old(Control()), Config(), status);
        Control() == o.after && update == o.update && completed == o.completed
      ensures !status.isLoaded ==> unchanged(this, engine) && unchanged(old(engine.Players()))
      ensures status.isLoaded && !StartsCrossfade(old(Control()), Config(), status) && !status.didJustFinish ==>
        unchanged(this, engine) && unchanged(old(engine.Players()))
      // a crossfade began and the song has not finished yet
      ensures StartsCrossfade(old(Control()), Config(), status) && !status.didJustFinish ==>
        && engine.currentPlayer == old(engine.currentPlayer)
        && fresh(engine.nextPlayer) && Incoming(engine.nextPlayer, old(currentIndex) + 1)
        && (old(engine.nextPlayer) != null ==> unchanged(old(engine.nextPlayer)))
        && (engine.currentPlayer != null ==>
              engine.currentPlayer.View() == old(engine.currentPlayer.View()).(volume := 0.0))
      // the song finished with more to come: the old current player is unloaded once and replaced
      ensures status.isLoaded && status.didJustFinish && old(currentIndex) + 1 < |songs| ==>
        && (old(engine.currentPlayer) != null ==>
              && !old(engine.currentPlayer).loaded && !old(engine.currentPlayer).playing
              && old(engine.currentPlayer).unloads == old(engine.currentPlayer.unloads) + 1)
        && (StartsCrossfade(old(Control()), Config(), status) ==>
              fresh(engine.currentPlayer) && Incoming(engine.currentPlayer, old(currentIndex) + 1))
        && (!StartsCrossfade(old(Control()), Config(), status) ==>
              engine.currentPlayer == old(engine.nextPlayer)
              && (engine.currentPlayer != null ==> unchanged(engine.currentPlayer)))
      // the last song finished: every held player is stopped and unloaded once
      ensures status.isLoaded && status.didJustFinish && old(currentIndex) + 1 >= |songs| ==>
        && (old(engine.currentPlayer) != null ==>
              old(engine.currentPlayer).View() == Released(old(engine.currentPlayer.View())))
        && (old(engine.nextPlayer) != null ==>
              old(engine.nextPlayer).View() == Released(old(engine.nextPlayer.View())))
    {
      update, completed := None, false;
      if !status.isLoaded {
        return;
      }

      var currentTime := status.positionMillis / 1000.0;
      var duration := status.durationMillis / 1000.0;
      var timeRemaining := duration - currentTime;

      if hasOnUpdate {
        update := Some(PlaybackUpdate(currentIndex, currentTime, duration, engine.isCrossfading));
      }

      if timeRemaining <= fadeDuration && !engine.isCrossfading && currentIndex < |songs| - 1 {
        engine.isCrossfading := true;
        var ramp := engine.StartCrossfade(songs, currentIndex + 1, targetBPM, fadeDuration);
      }

      if status.didJustFinish {
        if currentIndex < |songs| - 1 {
          if engine.currentPlayer != null {
            engine.currentPlayer.Unload();
          }
          engine.currentPlayer := engine.nextPlayer;
          engine.nextPlayer := null;
          engine.isCrossfading := false;
          currentIndex := currentIndex + 1;
        } else {
          engine.Stop();
          if hasOnComplete {
            completed := true;
          }
        }
      }
    }
  }
}

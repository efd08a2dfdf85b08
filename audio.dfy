/**
 * An abstract playback handle standing for an expo-av `Audio.Sound`: only
 * the state the engine drives (loaded, playing, volume, rate, position) and
 * a count of how often it has been unloaded.
 */
module Audio {

  /** The observable state of one handle. */
  datatype PlayerView = PlayerView(loaded: bool, playing: bool, volume: real, rate: real, positionMillis: real, unloads: nat)

  /** `stopAsync` followed by `unloadAsync`. */
  function Released(v: PlayerView): PlayerView
  {
    v.(loaded := false, playing := false, positionMillis := 0.0, unloads := v.unloads + 1)
  }

  class Sound {
    const uri: string
    var loaded: bool
    var playing: bool
    var volume: real
    var rate: real
    var positionMillis: real
    var unloads: nat

    function View(): PlayerView
      reads this
    {
      PlayerView(loaded, playing, volume, rate, positionMillis, unloads)
    }

    /** `Audio.Sound.createAsync({ uri }, { shouldPlay: false, rate, positionMillis, volume })` */
    constructor Create(uri: string, rate: real, positionMillis: real, volume: real)
      ensures this.uri == uri
      ensures View() == PlayerView(true, false, volume, rate, positionMillis, 0)
    {
      this.uri := uri;
      this.loaded := true;
      this.playing := false;
      this.volume := volume;
      this.rate := rate;
      this.positionMillis := positionMillis;
      this.unloads := 0;
    }

    /** `playAsync` */
    method Play()
      modifies this
      ensures View() == old(View()).(playing := true)
    {
      playing := true;
    }

    /** `pauseAsync`: playback halts, the position is kept. */
    method Pause()
      modifies this
      ensures View() == old(View()).(playing := false)
    {
      playing := false;
    }

    /** `stopAsync`: playback halts and the position returns to the start. */
    method Stop()
      modifies this
      ensures View() == old(View()).(playing := false, positionMillis := 0.0)
    {
      playing := false;
      positionMillis := 0.0;
    }

    /** `unloadAsync`: the handle releases its media. */
    method Unload()
      modifies this
      ensures View() == old(View()).(loaded := false, playing := false, unloads := old(unloads) + 1)
    {
      loaded := false;
      playing := false;
      unloads := unloads + 1;
    }

    /** `setVolumeAsync` */
    method SetVolume(v: real)
      modifies this
      ensures View() == old(View()).(volume := v)
    {
      volume := v;
    }

    /** `setPositionAsync` */
    method SetPosition(millis: real)
      modifies this
      ensures View() == old(View()).(positionMillis := millis)
    {
      positionMillis := millis;
    }
  }
}

/** The duration each song-list row displays once the song is stretched to the target tempo (SongList.js). */
module SongList {
  import opened Tempo

  /** `calculateSyncedDuration`: natural duration divided by the playback rate. */
  function SyncedDuration(targetBPM: real, originalBPM: real, duration: real): (d: real)
    requires targetBPM != 0.0 && originalBPM != 0.0
    ensures d == duration * originalBPM / targetBPM
    ensures d * PlaybackRate(targetBPM, originalBPM) == duration
  {
    var playbackRate := PlaybackRate(targetBPM, originalBPM);
    assert duration == (duration / playbackRate) * playbackRate;
    assert playbackRate * targetBPM == targetBPM * targetBPM / originalBPM;
    duration / playbackRate
  }

  /** At the song's own tempo the synced duration is the natural one. */
  lemma SyncedAtOwnTempo(bpm: real, duration: real)
    requires bpm != 0.0
    ensures SyncedDuration(bpm, bpm, duration) == duration
  {
  }

  /** Positive duration and tempos give a positive synced duration. */
  lemma SyncedPositive(targetBPM: real, originalBPM: real, duration: real)
    requires targetBPM > 0.0 && originalBPM > 0.0 && duration > 0.0
    ensures SyncedDuration(targetBPM, originalBPM, duration) > 0.0
  {
    var d := SyncedDuration(targetBPM, originalBPM, duration);
    RatePositive(targetBPM, originalBPM);
    assert d * PlaybackRate(targetBPM, originalBPM) == duration;
  }

  /** A faster target tempo never lengthens a song. */
  lemma FasterTargetNeverLonger(slower: real, faster: real, originalBPM: real, duration: real)
    requires 0.0 < slower <= faster && originalBPM > 0.0 && duration >= 0.0
    ensures SyncedDuration(faster, originalBPM, duration) <= SyncedDuration(slower, originalBPM, duration)
  {
    var p := duration * originalBPM;
    assert p >= 0.0;
    assert p / faster <= p / slower by {
      assert p / faster * faster == p;
      assert p / slower * slower == p;
      assert p / slower * faster >= p / slower * slower;
    }
  }
}

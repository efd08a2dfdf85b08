/**
 * The playlist held by the application root (App.js): an ordered list of
 * songs, and the three operations that build a new list from the old one.
 * Ids (`Date.now()`) and the random tempo estimate (`Math.random()`) are
 * supplied by the caller.
 */
module Playlist {
  import opened JsMath

  datatype Song = Song(id: int, name: string, uri: string, originalBPM: real, startTime: real, duration: real)

  /** What the import step hands to `addSong`: file name, location and probed duration. */
  datatype NewSong = NewSong(name: string, uri: string, duration: real)

  /** Lowest and (exclusive) highest tempo that `120 + Math.random() * 40` can produce. */
  const MinEstimatedBPM: real := 120.0
  const MaxEstimatedBPM: real := 160.0

  /** Start offset given to a song appended after `songs` (App.js:22-25,31). */
  function NextStartTime(songs: seq<Song>, fadeDuration: real): real
  {
    var startTime :=
      if |songs| > 0 then
        var previousSong := songs[|songs| - 1];
        previousSong.startTime + previousSong.duration - fadeDuration
      else 0.0;
    Max(0.0, startTime)
  }

  /** `addSong`: appends exactly one song built from `newSong`, keeping every earlier song. */
  function AddSong(songs: seq<Song>, newSong: NewSong, fadeDuration: real, now: int, random: real): (r: seq<Song>)
    requires 0.0 <= random < 1.0
    ensures |r| == |songs| + 1 && r[..|songs|] == songs
    ensures var added := r[|songs|];
      && added.id == now
      && added.name == newSong.name && added.uri == newSong.uri && added.duration == newSong.duration
      && MinEstimatedBPM <= added.originalBPM < MaxEstimatedBPM
      && added.startTime >= 0.0
      && (songs == [] ==> added.startTime == 0.0)
      && (songs != [] ==>
            var previousSong := songs[|songs| - 1];
            added.startTime == Max(0.0, previousSong.startTime + previousSong.duration - fadeDuration))
  {
    songs + [Song(now, newSong.name, newSong.uri, 120.0 + random * 40.0, NextStartTime(songs, fadeDuration), newSong.duration)]
  }

  /** When the fade is no longer than the previous song, the new song does not start before it. */
  lemma AddSongStartsNoEarlier(songs: seq<Song>, newSong: NewSong, fadeDuration: real, now: int, random: real)
    requires 0.0 <= random < 1.0
    requires songs != [] && fadeDuration <= songs[|songs| - 1].duration
    ensures AddSong(songs, newSong, fadeDuration, now, random)[|songs|].startTime >= songs[|songs| - 1].startTime
  {
  }

  /** Every start offset in the playlist is non-negative. */
  predicate NonNegativeStarts(songs: seq<Song>)
  {
    forall i :: 0 <= i < |songs| ==> songs[i].startTime >= 0.0
  }

  /**
   * The start offsets follow the chain `addSong` builds with one fade length:
   * the first song at 0, each later one `max(0, prev.startTime + prev.duration - fade)`.
   */
  predicate ChainedStarts(songs: seq<Song>, fadeDuration: real)
  {
    && (|songs| > 0 ==> songs[0].startTime == 0.0)
    && forall i :: 0 < i < |songs| ==>
         songs[i].startTime == Max(0.0, songs[i - 1].startTime + songs[i - 1].duration - fadeDuration)
  }

  lemma AddSongKeepsInvariants(songs: seq<Song>, newSong: NewSong, fadeDuration: real, now: int, random: real)
    requires 0.0 <= random < 1.0
    ensures NonNegativeStarts(songs) ==> NonNegativeStarts(AddSong(songs, newSong, fadeDuration, now, random))
    ensures ChainedStarts(songs, fadeDuration) ==> ChainedStarts(AddSong(songs, newSong, fadeDuration, now, random), fadeDuration)
  {
  }

  /** `removeSong`: keeps, in order, exactly the songs whose id differs from `id`. */
  function RemoveSong(songs: seq<Song>, id: int): (r: seq<Song>)
    ensures |r| <= |songs|
    ensures forall s :: s in r ==> s in songs && s.id != id
    ensures forall s :: s in songs && s.id != id ==> s in r
  {
    if songs == [] then []
    else (if songs[0].id != id then [songs[0]] else []) + RemoveSong(songs[1..], id)
  }

  /** Filtering distributes over concatenation: the survivors keep their relative order. */
  lemma {:induction false} RemoveSongConcat(a: seq<Song>, b: seq<Song>, id: int)
    ensures RemoveSong(a + b, id) == RemoveSong(a, id) + RemoveSong(b, id)
  {
    if a == [] {
      EmptyConcat(a, b);
    } else {
      RemoveSongConcat(a[1..], b, id);
      RemoveSongStep(a, b, id);
    }
  }

  /** One step of `RemoveSongConcat`: peel the first song off `a`. */
  lemma RemoveSongStep(a: seq<Song>, b: seq<Song>, id: int)
    requires a != []
    requires RemoveSong(a[1..] + b, id) == RemoveSong(a[1..], id) + RemoveSong(b, id)
    ensures RemoveSong(a + b, id) == RemoveSong(a, id) + RemoveSong(b, id)
  {
    var head := if a[0].id != id then [a[0]] else [];
    TailOfConcat(a, b);
    assert RemoveSong(a + b, id) == head + RemoveSong(a[1..] + b, id);
    assert RemoveSong(a, id) == head + RemoveSong(a[1..], id);
    ConcatAssoc(head, RemoveSong(a[1..], id), RemoveSong(b, id));
  }

  lemma EmptyConcat(a: seq<Song>, b: seq<Song>)
    requires a == []
    ensures a + b == b
  {
  }

  lemma TailOfConcat(a: seq<Song>, b: seq<Song>)
    requires a != []
    ensures (a + b)[0] == a[0] && (a + b)[1..] == a[1..] + b
  {
  }

  lemma ConcatAssoc(x: seq<Song>, y: seq<Song>, z: seq<Song>)
    ensures x + (y + z) == (x + y) + z
  {
  }

  /** Removing an id nobody has leaves the playlist as it was. */
  lemma {:induction false} RemoveSongAbsent(songs: seq<Song>, id: int)
    requires forall s :: s in songs ==> s.id != id
    ensures RemoveSong(songs, id) == songs
  {
    if songs != [] {
      RemoveSongAbsent(songs[1..], id);
    }
  }

  /** Removing twice is removing once. */
  lemma RemoveSongIdempotent(songs: seq<Song>, id: int)
    ensures RemoveSong(RemoveSong(songs, id), id) == RemoveSong(songs, id)
  {
    RemoveSongAbsent(RemoveSong(songs, id), id);
  }

  /** Removing the id just stamped on a new song undoes `addSong`, when no older song shares it. */
  lemma RemoveUndoesAdd(songs: seq<Song>, newSong: NewSong, fadeDuration: real, now: int, random: real)
    requires 0.0 <= random < 1.0
    requires forall s :: s in songs ==> s.id != now
    ensures RemoveSong(AddSong(songs, newSong, fadeDuration, now, random), now) == songs
  {
    var r := AddSong(songs, newSong, fadeDuration, now, random);
    assert r == songs + [r[|songs|]];
    RemoveSongConcat(songs, [r[|songs|]], now);
    RemoveSongAbsent(songs, now);
  }

  /** `updateSongStartTime`: the songs with id `id` get start time `t`; nothing else changes. */
  function UpdateSongStartTime(songs: seq<Song>, id: int, t: real): (r: seq<Song>)
    ensures |r| == |songs|
    ensures forall i :: 0 <= i < |songs| ==>
      r[i] == if songs[i].id == id then songs[i].(startTime := t) else songs[i]
  {
    if songs == [] then []
    else [if songs[0].id == id then songs[0].(startTime := t) else songs[0]] + UpdateSongStartTime(songs[1..], id, t)
  }

  /** The songs an update of `id` touches are exactly the ones a removal of `id` drops. */
  lemma {:induction false} UpdateThenRemove(songs: seq<Song>, id: int, t: real)
    ensures RemoveSong(UpdateSongStartTime(songs, id, t), id) == RemoveSong(songs, id)
  {
    if songs != [] {
      var u := UpdateSongStartTime(songs, id, t);
      assert u[1..] == UpdateSongStartTime(songs[1..], id, t);
      UpdateThenRemove(songs[1..], id, t);
    }
  }

  /** A second update of the same id overrides the first. */
  lemma UpdateTwice(songs: seq<Song>, id: int, t1: real, t2: real)
    ensures UpdateSongStartTime(UpdateSongStartTime(songs, id, t1), id, t2) == UpdateSongStartTime(songs, id, t2)
  {
  }
}

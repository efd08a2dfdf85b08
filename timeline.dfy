/**
 * The mix timeline (Timeline.js): the total length of the mix, with each
 * transition overlapping consecutive songs by the fade length, and the
 * properties of the block drawn for each song.
 */
module Timeline {
  import opened Wrappers
  import opened JsMath
  import opened Text
  import opened Playlist

  const Colors: seq<string> := ["#00ff88", "#00ccff", "#ff6b6b", "#ffd93d", "#a29bfe"]

  /** Width, in points, of the whole mix on screen. */
  const TimelineWidth: real := 600.0

  /** The reducer of `totalDuration`: the first song contributes its length, each later one its length minus the fade. */
  function ReduceStep(acc: real, song: Song, index: nat, fadeDuration: real): real
  {
    if index == 0 then song.duration else acc + song.duration - fadeDuration
  }

  /** `songs.reduce(ReduceStep, acc)` resumed at position `index`. */
  function ReduceFrom(songs: seq<Song>, fadeDuration: real, acc: real, index: nat): real
    requires index <= |songs|
    decreases |songs| - index
  {
    if index == |songs| then acc
    else ReduceFrom(songs, fadeDuration, ReduceStep(acc, songs[index], index, fadeDuration), index + 1)
  }

  function TotalDuration(songs: seq<Song>, fadeDuration: real): real
  {
    ReduceFrom(songs, fadeDuration, 0.0, 0)
  }

  /** Sum of the natural durations. */
  function SumDurations(songs: seq<Song>): real
  {
    if songs == [] then 0.0 else SumDurations(songs[..|songs| - 1]) + songs[|songs| - 1].duration
  }

  lemma {:induction false} ReduceFromSum(songs: seq<Song>, fadeDuration: real, k: nat, acc: real)
    requires 1 <= k <= |songs|
    requires acc == SumDurations(songs[..k]) - (k - 1) as real * fadeDuration
    ensures ReduceFrom(songs, fadeDuration, acc, k) == SumDurations(songs) - (|songs| - 1) as real * fadeDuration
    decreases |songs| - k
  {
    if k == |songs| {
      assert songs[..k] == songs;
    } else {
      var next := acc + songs[k].duration - fadeDuration;
      OverlappedPrefixStep(songs, fadeDuration, k);
      ReduceFromUnfold(songs, fadeDuration, acc, k);
      ReduceFromSum(songs, fadeDuration, k + 1, next);
    }
  }

  /** One reducer step past position `k >= 1` adds that song's length less one fade. */
  lemma ReduceFromUnfold(songs: seq<Song>, fadeDuration: real, acc: real, k: nat)
    requires 1 <= k < |songs|
    ensures ReduceFrom(songs, fadeDuration, acc, k) == ReduceFrom(songs, fadeDuration, acc + songs[k].duration - fadeDuration, k + 1)
  {
  }

  /** Extending the prefix by one song adds its length and one more fade of overlap. */
  lemma OverlappedPrefixStep(songs: seq<Song>, fadeDuration: real, k: nat)
    requires 1 <= k < |songs|
    ensures SumDurations(songs[..k]) - (k - 1) as real * fadeDuration + songs[k].duration - fadeDuration
         == SumDurations(songs[..k + 1]) - k as real * fadeDuration
  {
    assert songs[..k + 1][..k] == songs[..k];
    SumDurationsSplitLast(songs[..k + 1]);
    MulSucc(k - 1, fadeDuration);
  }

  /** For n >= 1 songs the mix lasts the sum of their durations minus n - 1 fades. */
  lemma TotalDurationOverlaps(songs: seq<Song>, fadeDuration: real)
    requires |songs| >= 1
    ensures TotalDuration(songs, fadeDuration) == SumDurations(songs) - (|songs| - 1) as real * fadeDuration
  {
    var rhs := SumDurations(songs) - (|songs| - 1) as real * fadeDuration;
    assert songs[..1][..0] == [];
    assert SumDurations(songs[..1]) == songs[0].duration;
    ReduceFromSum(songs, fadeDuration, 1, songs[0].duration);
    assert ReduceFrom(songs, fadeDuration, songs[0].duration, 1) == rhs;
    assert TotalDuration(songs, fadeDuration) == ReduceFrom(songs, fadeDuration, songs[0].duration, 1);
  }

  /** A single song is the whole mix. */
  lemma TotalDurationSingle(song: Song, fadeDuration: real)
    ensures TotalDuration([song], fadeDuration) == song.duration
  {
    assert ReduceFrom([song], fadeDuration, 0.0, 0) == ReduceFrom([song], fadeDuration, song.duration, 1);
  }

  /**
   * A playlist built by `addSong` with one fade length no longer than any
   * song but the last: each start offset is the sum of the durations before
   * it minus one fade per transition, so the offsets never decrease and the
   * last song ends exactly when the timeline's total says the mix ends.
   */
  lemma {:induction false} ChainedStartsClosedForm(songs: seq<Song>, fadeDuration: real, k: nat)
    requires ChainedStarts(songs, fadeDuration)
    requires forall i :: 0 <= i < |songs| - 1 ==> fadeDuration <= songs[i].duration
    requires k < |songs|
    ensures songs[k].startTime == SumDurations(songs[..k]) - k as real * fadeDuration
    ensures songs[k].startTime >= 0.0
  {
    if k == 0 {
      assert songs[..0] == [];
    } else {
      ChainedStartsClosedForm(songs, fadeDuration, k - 1);
      assert songs[..k][..k - 1] == songs[..k - 1];
      assert SumDurations(songs[..k]) == SumDurations(songs[..k - 1]) + songs[k - 1].duration;
      assert (k - 1) as real * fadeDuration + fadeDuration == k as real * fadeDuration;
    }
  }

  lemma MixEndsWithLastSong(songs: seq<Song>, fadeDuration: real)
    requires |songs| >= 1 && ChainedStarts(songs, fadeDuration)
    requires forall i :: 0 <= i < |songs| - 1 ==> fadeDuration <= songs[i].duration
    ensures var last := songs[|songs| - 1];
      last.startTime + last.duration == TotalDuration(songs, fadeDuration)
  {
    ChainedStartsClosedForm(songs, fadeDuration, |songs| - 1);
    LastSongEndsMix(songs, fadeDuration);
  }

  /** A last song starting at the overlapped sum of the songs before it ends when the mix does. */
  lemma LastSongEndsMix(songs: seq<Song>, fadeDuration: real)
    requires |songs| >= 1
    requires songs[|songs| - 1].startTime == SumDurations(songs[..|songs| - 1]) - (|songs| - 1) as real * fadeDuration
    ensures var last := songs[|songs| - 1];
      last.startTime + last.duration == TotalDuration(songs, fadeDuration)
  {
    var n := |songs|;
    var last := songs[n - 1];
    TotalDurationOverlaps(songs, fadeDuration);
    SumDurationsSplitLast(songs);
    EndOfMix(last.startTime, last.duration, SumDurations(songs[..n - 1]), SumDurations(songs),
      TotalDuration(songs, fadeDuration), (n - 1) as real * fadeDuration);
  }

  lemma SumDurationsSplitLast(songs: seq<Song>)
    requires songs != []
    ensures SumDurations(songs) == SumDurations(songs[..|songs| - 1]) + songs[|songs| - 1].duration
  {
  }

  /** The last song starts `front - overlap` in and the mix lasts `front + d - overlap`: it ends with the mix. */
  lemma EndOfMix(start: real, d: real, front: real, sum: real, total: real, overlap: real)
    requires start == front - overlap && sum == front + d && total == sum - overlap
    ensures start + d == total
  {
  }

  /** Under the same conditions the start offsets never decrease. */
  lemma ChainedStartsNonDecreasing(songs: seq<Song>, fadeDuration: real)
    requires ChainedStarts(songs, fadeDuration)
    requires forall i :: 0 <= i < |songs| - 1 ==> fadeDuration <= songs[i].duration
    ensures forall i :: 0 < i < |songs| ==> songs[i - 1].startTime <= songs[i].startTime
  {
  }

  /** One block of the timeline. `width` is `None` where JavaScript would divide by a zero total. */
  datatype Block = Block(
    number: int,
    width: Option<real>,
    color: string,
    highlighted: bool,
    opacity: real,
    borderWidth: int,
    durationLabel: int,
    fadeIndicator: bool)

  datatype View = EmptyState | MixTimeline(title: string, totalDuration: real, blocks: seq<Block>)

  /** `(song.duration / totalDuration) * 600` */
  function BlockWidth(duration: real, totalDuration: real): Option<real>
  {
    if totalDuration == 0.0 then None else Some((duration / totalDuration) * TimelineWidth)
  }

  function RenderBlock(songs: seq<Song>, index: nat, totalDuration: real, fadeDuration: real, currentSongIndex: int): Block
    requires index < |songs|
  {
    var isPlaying := index == currentSongIndex;
    Block(
      index + 1,
      BlockWidth(songs[index].duration, totalDuration),
      Colors[index % |Colors|],
      isPlaying,
      if isPlaying then 1.0 else 0.6,
      if isPlaying then 3 else 0,
      Floor(songs[index].duration),
      index < |songs| - 1)
  }

  /** The whole component: the empty-state view for no songs, else a title and one block per song. */
  function Render(songs: seq<Song>, fadeDuration: real, currentSongIndex: int): (v: View)
    ensures songs == [] <==> v == EmptyState
    ensures v.MixTimeline? ==> v.totalDuration == TotalDuration(songs, fadeDuration) && |v.blocks| == |songs|
    ensures v.MixTimeline? ==> v.title == TitleClockAsWritten(v.totalDuration)
    ensures v.MixTimeline? ==> forall i :: 0 <= i < |songs| ==>
      && v.blocks[i].number == i + 1
      && v.blocks[i].color == Colors[i % 5]
      && (v.blocks[i].highlighted <==> i == currentSongIndex)
      && (v.blocks[i].fadeIndicator <==> i < |songs| - 1)
      && v.blocks[i].width == BlockWidth(songs[i].duration, v.totalDuration)
      && v.blocks[i].opacity == (if i == currentSongIndex then 1.0 else 0.6)
      && v.blocks[i].borderWidth == (if i == currentSongIndex then 3 else 0)
      && v.blocks[i].durationLabel == Floor(songs[i].duration)
  {
    if |songs| == 0 then EmptyState
    else
      var totalDuration := TotalDuration(songs, fadeDuration);
      MixTimeline(
        TitleClockAsWritten(totalDuration),
        totalDuration,
        seq(|songs|, i requires 0 <= i < |songs| => RenderBlock(songs, i, totalDuration, fadeDuration, currentSongIndex)))
  }

  /** At most one block is highlighted, and exactly one when the current index names a song. */
  lemma OneHighlightedBlock(songs: seq<Song>, fadeDuration: real, currentSongIndex: int)
    requires songs != []
    ensures var v := Render(songs, fadeDuration, currentSongIndex);
      && (forall i, j :: 0 <= i < j < |v.blocks| ==> !(v.blocks[i].highlighted && v.blocks[j].highlighted))
      && ((exists i :: 0 <= i < |v.blocks| && v.blocks[i].highlighted) <==> 0 <= currentSongIndex < |songs|)
  {
    var v := Render(songs, fadeDuration, currentSongIndex);
    if 0 <= currentSongIndex < |songs| {
      assert v.blocks[currentSongIndex].highlighted;
    }
  }

  /** Neighbouring blocks always get different colours. */
  lemma NeighboursDifferInColour(songs: seq<Song>, fadeDuration: real, currentSongIndex: int, i: nat)
    requires i + 1 < |songs|
    ensures var v := Render(songs, fadeDuration, currentSongIndex);
      v.blocks[i].color != v.blocks[i + 1].color
  {
    var v := Render(songs, fadeDuration, currentSongIndex);
    assert v.blocks[i].color == Colors[i % 5];
    assert v.blocks[i + 1].color == Colors[(i + 1) % 5];
    ColorsOfNeighbours(i);
  }

  lemma ColorsOfNeighbours(i: nat)
    ensures Colors[i % 5] != Colors[(i + 1) % 5]
  {
    assert (i + 1) % 5 == if i % 5 == 4 then 0 else i % 5 + 1;
  }

  /** Songs of equal length get blocks of equal width. */
  lemma EqualDurationsEqualWidths(songs: seq<Song>, fadeDuration: real, currentSongIndex: int, i: nat, j: nat)
    requires i < |songs| && j < |songs| && songs[i].duration == songs[j].duration
    ensures var v := Render(songs, fadeDuration, currentSongIndex);
      v.blocks[i].width == v.blocks[j].width
  {
  }

  /**
   * A song of positive length in a playlist whose other songs are each at
   * least one fade long gets a block of positive width that fits the
   * timeline: the total is its own length plus, for every other song, that
   * song's length minus one fade.
   */
  lemma WidthsWithinTimeline(songs: seq<Song>, fadeDuration: real, currentSongIndex: int, i: nat)
    requires i < |songs| && songs[i].duration > 0.0
    requires forall j :: 0 <= j < |songs| && j != i ==> fadeDuration <= songs[j].duration
    ensures var v := Render(songs, fadeDuration, currentSongIndex);
      v.blocks[i].width.Some? && 0.0 < v.blocks[i].width.value <= TimelineWidth
  {
    TotalDurationOverlaps(songs, fadeDuration);
    SumCoversOneSong(songs, fadeDuration, i);
    BlockWidthWithin(songs[i].duration, TotalDuration(songs, fadeDuration));
  }

  /** When every other song is at least one fade long, the overlapped total is at least song `i`'s length. */
  lemma {:induction false} SumCoversOneSong(songs: seq<Song>, fadeDuration: real, i: nat)
    requires i < |songs|
    requires forall j :: 0 <= j < |songs| && j != i ==> fadeDuration <= songs[j].duration
    ensures SumDurations(songs) - (|songs| - 1) as real * fadeDuration >= songs[i].duration
  {
    var n := |songs|;
    var front := songs[..n - 1];
    SumDurationsSplitLast(songs);
    if i == n - 1 {
      SumAtLeastFades(front, fadeDuration);
    } else {
      forall j | 0 <= j < |front| && j != i
        ensures fadeDuration <= front[j].duration
      {
        assert front[j] == songs[j];
      }
      SumCoversOneSong(front, fadeDuration, i);
      MulSucc(n - 2, fadeDuration);
      assert songs[n - 1].duration >= fadeDuration;
      Covers(SumDurations(front), songs[n - 1].duration, (n - 2) as real * fadeDuration, fadeDuration, songs[i].duration);
    }
  }

  lemma MulSucc(k: nat, f: real)
    ensures (k + 1) as real * f == k as real * f + f
  {
  }

  /** Adding a song at least one fade long, and one more fade of overlap, keeps the bound. */
  lemma Covers(front: real, last: real, overlap: real, f: real, d: real)
    requires front - overlap >= d && last >= f
    ensures (front + last) - (overlap + f) >= d
  {
  }

  /** Songs each at least one fade long add up to at least one fade per song. */
  lemma {:induction false} SumAtLeastFades(songs: seq<Song>, fadeDuration: real)
    requires forall j :: 0 <= j < |songs| ==> fadeDuration <= songs[j].duration
    ensures SumDurations(songs) >= |songs| as real * fadeDuration
  {
    if songs != [] {
      var n := |songs|;
      var front := songs[..n - 1];
      assert forall j :: 0 <= j < |front| ==> front[j] == songs[j];
      SumAtLeastFades(front, fadeDuration);
      assert (n - 1) as real * fadeDuration + fadeDuration == n as real * fadeDuration;
    }
  }

  lemma BlockWidthWithin(d: real, t: real)
    requires 0.0 < d <= t
    ensures BlockWidth(d, t).Some? && 0.0 < BlockWidth(d, t).value <= TimelineWidth
  {
    assert d / t <= 1.0 by {
      assert d / t * t == d;
    }
  }

  /*
   * The title clock. As written, the component shows
   * `Math.floor(total / 60) + ":" + (total % 60).toFixed(0).padStart(2, "0")`:
   * the seconds are rounded on their own, so 59.5 seconds or more past a
   * minute read as ":60" instead of carrying into the minutes.
   */

  /** `x.toFixed(0)`: sign, then the magnitude rounded to the nearest integer, halves upward. */
  function ToFixed0(x: real): string
  {
    if x < 0.0 then "-" + NatToString(RoundHalfUp(-x)) else NatToString(RoundHalfUp(x))
  }

  function RoundHalfUp(x: real): nat
    requires x >= 0.0
  {
    (x + 0.5).Floor
  }

  /** The title clock exactly as the component computes it. */
  function TitleClockAsWritten(totalDuration: real): string
  {
    IntToString(Floor(totalDuration / 60.0)) + ":" + PadStart(ToFixed0(Rem(totalDuration, 60.0)), 2, '0')
  }

  /** A mix of 119.6 seconds is titled "1:60". */
  lemma TitleClockShowsSixty()
    ensures TitleClockAsWritten(119.6) == "1:60"
  {
    assert Floor(119.6 / 60.0) == 1;
    assert Trunc(119.6 / 60.0) == 1;
    assert Rem(119.6, 60.0) == 59.6;
    assert RoundHalfUp(59.6) == 60;
    assert NatToString(60) == NatToString(6) + [DigitChar(0)];
    assert NatToString(1) == "1";
  }

  /** Minutes and two-digit seconds of a whole number of seconds. */
  function Clock(total: nat): string
  {
    NatToString(total / 60) + ":" + PadStart(NatToString(total % 60), 2, '0')
  }

  /** The title clock as intended: round the whole total to seconds first, then split into minutes and seconds. */
  function TitleClock(totalDuration: real): string
  {
    if totalDuration < 0.0 then "-" + Clock(RoundHalfUp(-totalDuration)) else Clock(RoundHalfUp(totalDuration))
  }

  /** The intended title always has a seconds field of two digits below 60 that, with the minutes, gives the rounded total. */
  lemma TitleClockFields(totalDuration: real)
    requires totalDuration >= 0.0
    ensures var rounded := RoundHalfUp(totalDuration);
      var mins, secs := rounded / 60, rounded % 60;
      && secs < 60
      && mins * 60 + secs == rounded
      && rounded as real - 0.5 <= totalDuration < rounded as real + 0.5
      && TitleClock(totalDuration) == NatToString(mins) + ":" + [DigitChar(secs / 10), DigitChar(secs % 10)]
  {
    ClockDigits(RoundHalfUp(totalDuration));
  }

  /** The clock of a whole number of seconds: minutes, a colon and two seconds digits. */
  lemma ClockDigits(total: nat)
    ensures Clock(total) == NatToString(total / 60) + ":" + [DigitChar(total % 60 / 10), DigitChar(total % 60 % 10)]
  {
    TwoDigits(total % 60);
  }
}

/**
 * The root component's state and its event handlers, without the rendering.
 * Randomness and the clock are parameters; the audio element is an opaque handle.
 */
module App {
  import opened Wrappers
  import opened MusicStore
  import MusicData
  import Clock
  import AudioProgress

  /** An `Audio` element created for one track's resource path. */
  class AudioHandle {
    const src: string

    constructor (src: string)
      ensures this.src == src
    {
      this.src := src;
    }
  }

  const NoTracksFound: string := "No tracks found for this mood"

  /** `Math.floor(random * n)` for a `random` drawn from [0, 1). */
  function PickIndex(random: real, n: nat): (i: nat)
    requires 0.0 <= random < 1.0 && n > 0
    ensures i < n
    ensures i as real <= random * n as real < (i + 1) as real
  {
    (random * n as real).Floor
  }

  /** Every entry can be drawn: the draw k/n picks index k. */
  lemma PickIndexReachesAll(k: nat, n: nat)
    requires k < n
    ensures PickIndex(k as real / n as real, n) == k
  {
    var r := k as real / n as real;
    assert r * n as real == k as real;
  }

  /** The track built from catalog entry `e` for the selection at time `now`. */
  ghost predicate DrawnFrom(t: Track, e: MusicData.Entry, mood: string, genre: string, now: nat)
  {
    && t.id == mood + "_" + Clock.NatToString(e.id) + "_" + Clock.NatToString(now)
    && t.title == e.name
    && t.description == Some(e.description)
    && t.mood == mood
    && t.genre == genre
    && t.audioUrl == e.track
    && t.duration == 0.0
  }

  /** The body of `generateTrack`'s `try` block up to the simulated delay. */
  function NewTrack(mood: string, genre: string, random: real, now: nat): (r: Result<Track, string>)
    requires 0.0 <= random < 1.0
    ensures r.Failure? <==> mood !in MusicData.Music || |MusicData.Music[mood]| == 0
    ensures r.Failure? ==> r.error == NoTracksFound
    ensures r.Success? ==>
      exists i :: 0 <= i < |MusicData.Music[mood]| && DrawnFrom(r.value, MusicData.Music[mood][i], mood, genre, now)
    ensures r.Success? ==>
      DrawnFrom(r.value, MusicData.Music[mood][PickIndex(random, |MusicData.Music[mood]|)], mood, genre, now)
  {
    if mood !in MusicData.Music || |MusicData.Music[mood]| == 0 then Failure(NoTracksFound)
    else
      var moodTracks := MusicData.Music[mood];
      var i := PickIndex(random, |moodTracks|);
      var e := moodTracks[i];
      var t := Track(mood + "_" + Clock.NatToString(e.id) + "_" + Clock.NatToString(now),
                     e.name, Some(e.description), mood, genre, e.track, 0.0);
      assert DrawnFrom(t, moodTracks[i], mood, genre, now);
      Success(t)
  }

  /** Generation can produce a track from every entry of a non-empty slice: the draw k/n yields entry k. */
  lemma GenerationReachesEveryEntry(mood: string, genre: string, k: nat, now: nat)
    requires mood in MusicData.Music && k < |MusicData.Music[mood]|
    ensures var n := |MusicData.Music[mood]|;
      0.0 <= k as real / n as real < 1.0 &&
      NewTrack(mood, genre, k as real / n as real, now).Success? &&
      DrawnFrom(NewTrack(mood, genre, k as real / n as real, now).value, MusicData.Music[mood][k], mood, genre, now)
  {
    var n := |MusicData.Music[mood]|;
    PickIndexReachesAll(k, n);
  }

  /** Generation never reaches the error path for a mood of the catalog. */
  lemma CatalogMoodsGenerate(mood: string, genre: string, random: real, now: nat)
    requires 0.0 <= random < 1.0 && mood in MusicData.Music
    ensures NewTrack(mood, genre, random, now).Success?
  {
    MusicData.CatalogSizes();
  }

  /** Two generations at different times give tracks with different ids, whatever moods, genres and draws they used. */
  lemma GeneratedIdsDiffer(m1: string, g1: string, r1: real, t1: nat, m2: string, g2: string, r2: real, t2: nat)
    requires 0.0 <= r1 < 1.0 && 0.0 <= r2 < 1.0 && t1 != t2
    requires NewTrack(m1, g1, r1, t1).Success? && NewTrack(m2, g2, r2, t2).Success?
    ensures NewTrack(m1, g1, r1, t1).value.id != NewTrack(m2, g2, r2, t2).value.id
  {
    var e1 := MusicData.Music[m1][PickIndex(r1, |MusicData.Music[m1]|)];
    var e2 := MusicData.Music[m2][PickIndex(r2, |MusicData.Music[m2]|)];
    var p1 := m1 + "_" + Clock.NatToString(e1.id) + "_";
    var p2 := m2 + "_" + Clock.NatToString(e2.id) + "_";
    var s1, s2 := Clock.NatToString(t1), Clock.NatToString(t2);
    if p1 + s1 == p2 + s2 {
      // Entry ids and timestamps are digit strings, so the last '_' separates them.
      LastUnderscore(p1, s1);
      LastUnderscore(p2, s2);
      assert s1 == s2;
      Clock.NatToStringInjective(t1, t2);
    }
  }

  /** In `p + s` with `p` ending in '_' and `s` all digits, `s` is what follows the last '_'. */
  lemma LastUnderscore(p: string, s: string)
    requires |p| >= 1 && p[|p| - 1] == '_' && Clock.IsDigits(s)
    ensures SuffixAfterLast(p + s, '_') == s
  {
    var w := p + s;
    assert w[..|p|] == p;
    assert w[|p|..] == s;
    SuffixAfterLastStep(w, |p| - 1, '_');
  }

  /** The part of `w` after its last occurrence of `c` (all of `w` when there is none). */
  function SuffixAfterLast(w: string, c: char): string
  {
    if w == [] then []
    else if w[|w| - 1] == c then []
    else SuffixAfterLast(w[..|w| - 1], c) + [w[|w| - 1]]
  }

  lemma {:induction false} SuffixAfterLastStep(w: string, k: nat, c: char)
    requires k < |w| && w[k] == c
    requires forall i :: k < i < |w| ==> w[i] != c
    ensures SuffixAfterLast(w, c) == w[k + 1..]
    decreases |w|
  {
    if k < |w| - 1 {
      SuffixAfterLastStep(w[..|w| - 1], k, c);
      assert w[k + 1..] == w[..|w| - 1][k + 1..] + [w[|w| - 1]];
    }
  }

  /** `(time / duration) * 100`, the percentage shown by the playback bar. */
  function Percent(time: real, duration: real): (p: real)
    requires duration != 0.0
    ensures p * duration == time * 100.0
    ensures duration > 0.0 && 0.0 <= time <= duration ==> 0.0 <= p <= 100.0
  {
    var p := (time / duration) * 100.0;
    assert duration > 0.0 && 0.0 <= time <= duration ==> 0.0 <= time / duration <= 1.0;
    p
  }

  /** Clicking at a fraction of the bar's width and seeking there shows that fraction as progress. */
  lemma ClickThenSeekShowsClickedFraction(duration: real, clickX: real, width: real)
    requires width > 0.0 && duration > 0.0
    ensures var seek := AudioProgress.HandleProgressClick(true, duration, clickX, width);
      seek.Some? && Percent(seek.value, duration) == (clickX / width) * 100.0
  {
    var t := AudioProgress.HandleProgressClick(true, duration, clickX, width).value;
    assert t * width == clickX * duration;
    var p := Percent(t, duration);
    assert p * duration == t * 100.0;
    assert p * duration * width == clickX * duration * 100.0;
    assert p * width == clickX * 100.0;
  }

  /** The component: its `useState` variables plus the shared store. */
  class Component {
    var selectedMood: string
    var selectedGenre: string
    var isGenerating: bool
    var currentTrack: Option<Track>
    var isPlaying: bool
    var audio: AudioHandle?
    var progress: real
    var currentTime: real
    var duration: real
    const store: Store

    ghost predicate Valid()
      reads this, store
    {
      store.Valid() && (isPlaying ==> audio != null && currentTrack.Some?)
    }

    /** The initial render. */
    constructor (store: Store)
      requires store.Valid()
      ensures Valid() && this.store == store
      ensures selectedMood == "" && selectedGenre == "" && !isGenerating
      ensures currentTrack == None && !isPlaying && audio == null
      ensures progress == 0.0 && currentTime == 0.0 && duration == 0.0
    {
      this.store := store;
      selectedMood, selectedGenre := "", "";
      isGenerating := false;
      currentTrack := None;
      isPlaying := false;
      audio := null;
      progress, currentTime, duration := 0.0, 0.0, 0.0;
    }

    /** The generate button is enabled exactly when both selections are made and nothing is pending. */
    function GenerateEnabled(): (enabled: bool)
      reads this
      ensures enabled ==> selectedMood != "" && selectedGenre != ""
      ensures isGenerating ==> !enabled
      ensures selectedMood != "" && selectedGenre != "" && !isGenerating ==> enabled
    {
      !(selectedMood == "" || selectedGenre == "" || isGenerating)
    }

    method SelectMood(mood: string)
      modifies this
      ensures selectedMood == mood
      ensures selectedGenre == old(selectedGenre) && isGenerating == old(isGenerating)
      ensures currentTrack == old(currentTrack) && isPlaying == old(isPlaying) && audio == old(audio)
      ensures progress == old(progress) && currentTime == old(currentTime) && duration == old(duration)
    {
      selectedMood := mood;
    }

    method SelectGenre(genre: string)
      modifies this
      ensures selectedGenre == genre
      ensures selectedMood == old(selectedMood) && isGenerating == old(isGenerating)
      ensures currentTrack == old(currentTrack) && isPlaying == old(isPlaying) && audio == old(audio)
      ensures progress == old(progress) && currentTime == old(currentTime) && duration == old(duration)
    {
      selectedGenre := genre;
    }

    /**
     * `generateTrack` up to the simulated delay: the guard, the reset, the
     * catalog lookup and the draw. On the error path the `finally` runs here;
     * otherwise the built track is returned as pending.
     */
    method StartGeneration(random: real, now: nat) returns (pending: Option<Track>)
      requires Valid() && 0.0 <= random < 1.0
      modifies this
      ensures Valid()
      ensures selectedMood == old(selectedMood) && selectedGenre == old(selectedGenre)
      ensures old(selectedMood) == "" || old(selectedGenre) == "" ==>
        pending == None && isGenerating == old(isGenerating) && currentTrack == old(currentTrack) &&
        isPlaying == old(isPlaying) && audio == old(audio) &&
        progress == old(progress) && currentTime == old(currentTime) && duration == old(duration)
      ensures old(selectedMood) != "" && old(selectedGenre) != "" ==>
        pending == NewTrack(old(selectedMood), old(selectedGenre), random, now).ToOption() &&
        isGenerating == pending.Some? && currentTrack == None && !isPlaying && audio == null &&
        progress == 0.0 && currentTime == 0.0 && duration == 0.0
    {
      pending := None;
      if selectedMood == "" || selectedGenre == "" {
        return;
      }
      isGenerating := true;
      currentTrack := None;
      isPlaying := false;
      currentTime := 0.0;
      duration := 0.0;
      progress := 0.0;
      if audio != null {
        audio := null;
      }
      var built := NewTrack(selectedMood, selectedGenre, random, now);
      match built
      case Failure(_) =>
        isGenerating := false;
      case Success(track) =>
        pending := Some(track);
    }

    /**
     * `generateTrack` after the delay: publish the track, record it as recent,
     * attach a new audio handle, and run the `finally`.
     */
    method CompleteGeneration(track: Track)
      requires Valid()
      modifies this, store
      ensures Valid()
      ensures currentTrack == Some(track) && !isGenerating
      ensures fresh(audio) && audio.src == track.audioUrl
      ensures store.recentTracks == AddRecent(old(store.recentTracks), track)
      ensures store.likedTracks == old(store.likedTracks)
      ensures selectedMood == old(selectedMood) && selectedGenre == old(selectedGenre)
      ensures isPlaying == old(isPlaying)
      ensures progress == old(progress) && currentTime == old(currentTime) && duration == old(duration)
    {
      currentTrack := Some(track);
      store.AddRecentTrack(track);
      audio := new AudioHandle(track.audioUrl);
      isGenerating := false;
    }

    /** The whole `generateTrack` handler, with no other event between its two halves. */
    method GenerateTrack(random: real, now: nat)
      requires Valid() && 0.0 <= random < 1.0
      modifies this, store
      ensures Valid()
      ensures !old(isGenerating) ==> !isGenerating
      ensures old(selectedMood) == "" || old(selectedGenre) == "" ==>
        isGenerating == old(isGenerating) && currentTrack == old(currentTrack) && audio == old(audio) &&
        isPlaying == old(isPlaying) && store.recentTracks == old(store.recentTracks) &&
        progress == old(progress) && currentTime == old(currentTime) && duration == old(duration)
      ensures old(selectedMood) != "" && old(selectedGenre) != "" ==>
        !isGenerating && !isPlaying && progress == 0.0 && currentTime == 0.0 && duration == 0.0 &&
        match NewTrack(old(selectedMood), old(selectedGenre), random, now)
        case Failure(_) =>
          currentTrack == None && audio == null && store.recentTracks == old(store.recentTracks)
        case Success(t) =>
          currentTrack == Some(t) && audio != null && fresh(audio) && audio.src == t.audioUrl &&
          store.recentTracks == AddRecent(old(store.recentTracks), t)
      ensures selectedMood == old(selectedMood) && selectedGenre == old(selectedGenre)
      ensures store.likedTracks == old(store.likedTracks)
    {
      var pending := StartGeneration(random, now);
      if pending.Some? {
        CompleteGeneration(pending.value);
      }
    }

    /** `togglePlayPause`: flips the playing flag when a track and its handle exist. */
    method TogglePlayPause()
      requires Valid()
      modifies this
      ensures Valid()
      ensures isPlaying == if old(audio) != null && old(currentTrack).Some? then !old(isPlaying) else old(isPlaying)
      ensures currentTrack == old(currentTrack) && audio == old(audio) && isGenerating == old(isGenerating)
      ensures progress == old(progress) && currentTime == old(currentTime) && duration == old(duration)
      ensures selectedMood == old(selectedMood) && selectedGenre == old(selectedGenre)
    {
      if audio == null || currentTrack.None? {
        return;
      }
      isPlaying := !isPlaying;
    }

    /** `toggleLike`: unlike the current track if it is liked, like it otherwise. */
    method ToggleLike()
      requires Valid()
      modifies store
      ensures Valid()
      ensures store.recentTracks == old(store.recentTracks)
      ensures currentTrack.None? ==> store.likedTracks == old(store.likedTracks)
      ensures currentTrack.Some? ==>
        store.IsTrackLiked(currentTrack.value.id) == !old(store.IsTrackLiked(currentTrack.value.id)) &&
        store.likedTracks == if old(store.IsTrackLiked(currentTrack.value.id))
                             then WithoutId(old(store.likedTracks), currentTrack.value.id)
                             else AddLiked(old(store.likedTracks), currentTrack.value)
    {
      if currentTrack.None? {
        return;
      }
      var track := currentTrack.value;
      if store.IsTrackLiked(track.id) {
        store.RemoveLikedTrack(track.id);
      } else {
        store.AddLikedTrack(track);
        assert store.likedTracks[|store.likedTracks| - 1].id == track.id;
      }
    }

    /** `playTrackFromList`: switch to the given track, paused, from time zero, on a new handle. */
    method PlayTrackFromList(track: Track)
      requires Valid()
      modifies this
      ensures Valid()
      ensures currentTrack == Some(track) && !isPlaying
      ensures fresh(audio) && audio.src == track.audioUrl
      ensures progress == 0.0 && currentTime == 0.0 && duration == 0.0
      ensures isGenerating == old(isGenerating)
      ensures selectedMood == old(selectedMood) && selectedGenre == old(selectedGenre)
    {
      currentTrack := Some(track);
      currentTime := 0.0;
      duration := 0.0;
      progress := 0.0;
      audio := new AudioHandle(track.audioUrl);
      isPlaying := false;
    }

    /** `seekToTime`: only with a handle and a positive known duration. */
    method SeekToTime(time: real)
      requires Valid()
      modifies this
      ensures Valid()
      ensures duration == old(duration)
      ensures old(audio) != null && old(duration) > 0.0 ==>
        currentTime == time && progress == Percent(time, duration)
      ensures !(old(audio) != null && old(duration) > 0.0) ==>
        currentTime == old(currentTime) && progress == old(progress)
      ensures isPlaying == old(isPlaying) && currentTrack == old(currentTrack) && audio == old(audio)
      ensures selectedMood == old(selectedMood) && selectedGenre == old(selectedGenre) && isGenerating == old(isGenerating)
    {
      if audio != null && duration > 0.0 {
        currentTime := time;
        progress := Percent(time, duration);
      }
    }

    /** The handle's `timeupdate` listener: copy its position and length once the length is known. */
    method OnTimeUpdate(audioTime: real, audioDuration: real)
      requires Valid() && audio != null
      modifies this
      ensures Valid()
      ensures audioDuration != 0.0 ==>
        currentTime == audioTime && duration == audioDuration &&
        progress == Percent(audioTime, audioDuration)
      ensures audioDuration == 0.0 ==>
        currentTime == old(currentTime) && duration == old(duration) && progress == old(progress)
      ensures isPlaying == old(isPlaying) && currentTrack == old(currentTrack) && audio == old(audio)
      ensures selectedMood == old(selectedMood) && selectedGenre == old(selectedGenre) && isGenerating == old(isGenerating)
    {
      if audioDuration != 0.0 {
        currentTime := audioTime;
        duration := audioDuration;
        progress := Percent(audioTime, audioDuration);
      }
    }

    /** The handle's `loadedmetadata` listener. */
    method OnLoadedMetadata(audioDuration: real)
      requires Valid() && audio != null
      modifies this
      ensures Valid()
      ensures duration == audioDuration
      ensures currentTime == old(currentTime) && progress == old(progress)
      ensures isPlaying == old(isPlaying) && currentTrack == old(currentTrack) && audio == old(audio)
      ensures selectedMood == old(selectedMood) && selectedGenre == old(selectedGenre) && isGenerating == old(isGenerating)
    {
      duration := audioDuration;
    }

    /** The handle's `ended` listener: stop, rewind the display, keep the track. */
    method OnEnded()
      requires Valid() && audio != null
      modifies this
      ensures Valid()
      ensures !isPlaying && progress == 0.0 && currentTime == 0.0
      ensures currentTrack == old(currentTrack) && audio == old(audio) && duration == old(duration)
      ensures selectedMood == old(selectedMood) && selectedGenre == old(selectedGenre) && isGenerating == old(isGenerating)
    {
      isPlaying := false;
      progress := 0.0;
      currentTime := 0.0;
    }
  }
}

# WubbleQuickTune core, modelled in Dafny

WubbleQuickTune is a browser music-preview app. The user picks a mood and a
genre, and the app "generates" a track by drawing one at random from a static
catalog. The user can then play it, seek in it, like it, and replay it from
the recent and liked lists. This project models the parts of the app whose
behaviour can be stated exactly:

- `music_store.dfy`: the liked/recent track store. This is the class `Store`,
  which has the two list fields. Its actions replace each list with a pure
  function of the old one: `WithoutId` (filter by id), `AddLiked` (drop the
  old copy, then append) and `AddRecent` (put the track first, drop its old
  copy, then keep at most ten). Lemmas cover order preservation, idempotence,
  the add/remove round trip, move-to-head and eviction. They also show that
  the recent list built from the empty list never has duplicate ids and never
  holds more than ten entries.
- `app.dfy`: the root component's handlers as a state machine, the class
  `Component`. `generateTrack` is split at its `await`:
  - `StartGeneration` runs the guard, the reset, the catalog lookup, the draw
    and, on the error path, the `finally`.
  - `CompleteGeneration` publishes the track, records it as recent, attaches
    a new audio handle and runs the `finally`.
  - `GenerateTrack` runs the two in sequence.

  `Math.random()` is the parameter `random` in [0, 1), and `Date.now()` is the
  parameter `now`. The audio element is an opaque `AudioHandle` that
  remembers its source path.
- `clock.dfy`: decimal rendering of whole numbers and the `m:ss` clock text.
  It also has an independent reader, `ParseClock`, which the renderings are
  proved to round-trip through.
- `track_info.dfy` and `audio_progress.dfy`: `formatDuration`, `formatTime`,
  the duration-label rule, the emoji lookups with their placeholder glyphs,
  and click-to-seek.
- `music_data.dfy`: the catalog constant, with its shape proved: four moods,
  four entries each, ids 1..16 pairwise distinct, and track paths
  `/<mood>/<k>.mp3`.
- `progress_bar.dfy`: the decorative generation progress counter. It steps
  by 2 per interval tick and the interval clears itself at 100.

`App.tsx` defines its own `getMoodEmoji`/`getGenreEmoji`
(src/App.tsx:182-188), identical to the ones in `track-info.tsx`. Both are
modelled by `TrackInfo.MoodEmoji` and `TrackInfo.GenreEmoji`.

A mood that is not a catalog key always ends in the error path. For most
keys, `music[mood]` is undefined and the code throws "No tracks found". For
inherited property names such as `constructor`, the entry lookup fails with
a `TypeError` that the same `catch` handles. The model treats every key
outside the catalog as a lookup failure.

## Model

| member | source | states |
|---|---|---|
| MusicStore.HasId | src/store/music-store.ts:52-55 | true exactly when some entry carries the id |
| MusicStore.WithoutId | src/store/music-store.ts:39-42 | no entry of the result has the id; never longer; returns the list unchanged when the id is absent |
| MusicStore.WithoutIdKeepsOthers | src/store/music-store.ts:39-42 | every entry with another id is kept exactly as often as it occurred, and nothing new appears |
| MusicStore.WithoutIdAppend | src/store/music-store.ts:39-42 | filtering distributes over concatenation, so kept entries stay in their relative order |
| MusicStore.WithoutIdTwice | src/store/music-store.ts:39-42 | filtering the same id twice is the same as once |
| MusicStore.WithoutIdLacks | src/store/music-store.ts:39-42 | filtering never introduces an id that was absent |
| MusicStore.WithoutIdNoDup | src/store/music-store.ts:39-42 | filtering preserves "no duplicate ids" |
| MusicStore.AddLiked | src/store/music-store.ts:31-37 | the track is the last element and the only one with its id; every other entry is kept with its multiplicity |
| MusicStore.AddLikedKeepsOthers | src/store/music-store.ts:33-36 | apart from the new track, the list is the old list without that id, in the original order |
| MusicStore.AddLikedIdempotent | src/store/music-store.ts:33-36 | liking the same track twice gives the same list as liking it once |
| MusicStore.AddLikedNoDup | src/store/music-store.ts:31-37 | liking preserves "no duplicate ids" |
| MusicStore.AddThenRemoveLiked | src/store/music-store.ts:31-42 | liking a track whose id was not liked, then removing that id, restores the original list |
| MusicStore.Take | src/store/music-store.ts:49 | `slice(0, n)`: the prefix of length min(n, length) |
| MusicStore.AddRecent | src/store/music-store.ts:44-50 | the track is at the head; no other entry has its id; length is min(10, 1 + kept); the rest is a prefix of the old list without that id |
| MusicStore.AddRecentNoDup | src/store/music-store.ts:44-50 | adding a recent track preserves "no duplicate ids" |
| MusicStore.AddRecentEvictsOldest | src/store/music-store.ts:44-50 | a new id on a full list goes first and the oldest (last) entry is dropped |
| MusicStore.WithoutIdSingle | src/store/music-store.ts:48 | filtering the id of its only holder removes exactly that entry |
| MusicStore.AddRecentMovesToHead | src/store/music-store.ts:44-50 | re-adding an id found at position k moves it to the head and keeps all other entries in order |
| MusicStore.RecentAfterInvariant | src/store/music-store.ts:28-50 | from the initial empty list, any sequence of additions gives distinct ids and at most 10 entries |
| MusicStore.Store.constructor | src/store/music-store.ts:28-29 | both lists start empty |
| MusicStore.Store.AddLikedTrack | src/store/music-store.ts:31-37 | the liked list becomes `AddLiked` of the old one; the recent list is unchanged; the invariant is kept |
| MusicStore.Store.RemoveLikedTrack | src/store/music-store.ts:39-42 | the liked list becomes the old one without the id; the recent list is unchanged |
| MusicStore.Store.AddRecentTrack | src/store/music-store.ts:44-50 | the recent list becomes `AddRecent` of the old one; the liked list is unchanged |
| MusicStore.Store.IsTrackLiked | src/store/music-store.ts:52-55 | true exactly when some liked entry has the id |
| MusicStore.Store.ClearRecentTracks | src/store/music-store.ts:57 | empties the recent list only |
| MusicStore.Store.ClearLikedTracks | src/store/music-store.ts:58 | empties the liked list only |
| App.AudioHandle.constructor | src/App.tsx:141 | a new handle plays the given resource path |
| App.PickIndex | src/App.tsx:120-121 | `Math.floor(random * n)` is an index in [0, n) |
| App.PickIndexReachesAll | src/App.tsx:120-121 | every index of the mood's slice can be drawn |
| App.NewTrack | src/App.tsx:111-132 | fails with "No tracks found for this mood" exactly when the slice is missing or empty; otherwise the track copies name, description and path from the slice entry at index `Math.floor(random * n)`, carries the selected mood and genre, has id `mood_entryId_timestamp` and duration 0 |
| App.GenerationReachesEveryEntry | src/App.tsx:113-132 | for every entry of a catalog mood's slice, some draw in [0, 1) makes generation build its track from that entry |
| App.CatalogMoodsGenerate | src/App.tsx:113-117 | for every catalog mood the error path is unreachable |
| App.GeneratedIdsDiffer | src/App.tsx:124-125 | two generations at different timestamps give different track ids, whatever moods, genres and random draws they used |
| App.Percent | src/App.tsx:70 | progress times duration equals time times 100; within [0, 100] when 0 <= time <= duration |
| App.ClickThenSeekShowsClickedFraction | src/App.tsx:203-209 | seeking to the time a click computes shows the clicked fraction of the bar's width as progress |
| App.Component.constructor | src/App.tsx:41-49 | initial state: no selection, not generating, no track, paused, no handle, all times 0 |
| App.Component.GenerateEnabled | src/App.tsx:285 | enabled exactly when both selections are made and nothing is generating |
| App.Component.SelectMood | src/App.tsx:245 | sets the mood selection and nothing else |
| App.Component.SelectGenre | src/App.tsx:264 | sets the genre selection and nothing else |
| App.Component.StartGeneration | src/App.tsx:96-147 | with an empty mood or genre nothing changes; otherwise there is no current track, playback is paused, the handle is dropped and times are reset; the pending track is the drawn one; `isGenerating` stays true only when a track is pending |
| App.Component.CompleteGeneration | src/App.tsx:137-147 | the track becomes current and heads the recent list; a fresh handle for its path is attached; `isGenerating` becomes false; liked list unchanged |
| App.Component.GenerateTrack | src/App.tsx:96-148 | the whole handler: without both selections every field and the store stay as they were; otherwise it ends not generating, paused and at time 0, and either publishes the drawn track (current, head of recent, fresh handle) or, on failure, leaves no track and the recent list unchanged; the selections and the liked list never change |
| App.Component.TogglePlayPause | src/App.tsx:150-159 | flips `isPlaying` exactly when a handle and a current track exist; the track, handle, times, selections and `isGenerating` stay as they were |
| App.Component.ToggleLike | src/App.tsx:161-169 | without a current track nothing changes; otherwise whether its id is liked flips, by removal or by `AddLiked`; the recent list is untouched |
| App.Component.PlayTrackFromList | src/App.tsx:190-201 | the track becomes current on a fresh handle for its path, paused, with time, duration and progress 0 |
| App.Component.SeekToTime | src/App.tsx:203-209 | with a handle and positive duration it sets the time and the matching percentage, otherwise it leaves them; the duration, playback flag, track, handle, selections and `isGenerating` never change |
| App.Component.OnTimeUpdate | src/App.tsx:64-72 | when the handle's duration is non-zero it copies time and duration and sets the matching percentage, otherwise it leaves them; the playback flag, track, handle, selections and `isGenerating` never change |
| App.Component.OnLoadedMetadata | src/App.tsx:74-76 | copies the handle's duration; time, progress, playback flag, track, handle, selections and `isGenerating` stay as they were |
| App.Component.OnEnded | src/App.tsx:78-82 | stops playing and resets progress and time to 0; the track, handle, duration, selections and `isGenerating` stay as they were |
| Clock.NatToString | src/components/track-info.tsx:25 | the decimal form is non-empty digits, with a leading '0' only for 0, and one digit exactly below 10 |
| Clock.ParseNatToString | src/components/track-info.tsx:25 | reading the decimal form back gives the number |
| Clock.NatToStringInjective | src/App.tsx:124-125 | distinct numbers have distinct decimal forms |
| Clock.PadStart2Pads | src/components/track-info.tsx:25 | `padStart(2, "0")` yields at least two characters, keeps its argument as the tail and adds only zeros in front |
| Clock.PadStart2Digits | src/components/track-info.tsx:25 | padding a number below 100 gives exactly two digits denoting that number |
| Clock.MinutesSeconds | src/components/audio-progress.tsx:13-15 | the text is minutes in decimal, ':', then exactly two digits; they denote s / 60 and s % 60 < 60; the minutes field has no leading zero and is exactly `String(s / 60)` |
| Clock.CanonicalIsNatToString | src/components/audio-progress.tsx:13-15 | a digit string without a leading zero is the decimal rendering of its own value |
| Clock.ClockCanonical | src/components/audio-progress.tsx:13-15 | the rendering of s is the only text that reads back as s and has no leading zero in its minutes field |
| Clock.ClockRoundTrip | src/components/audio-progress.tsx:13-15 | reading minutes m and seconds r back gives m * 60 + r = s |
| Clock.ClockInjective | src/components/audio-progress.tsx:13-15 | different second counts render differently |
| TrackInfo.FormatDuration | src/components/track-info.tsx:21-26 | empty exactly for 0; otherwise `m:ss` text that reads back as the given seconds, with no leading zero in the minutes, which by `Clock.ClockCanonical` fixes the text |
| TrackInfo.DurationLabel | src/components/track-info.tsx:40-44 | the label is shown exactly when the duration is positive, and then reads back as that duration, with no leading zero in the minutes |
| TrackInfo.Find | src/components/track-info.tsx:29 | `find`: absent exactly when no entry has the id; otherwise the first entry that has it |
| TrackInfo.Glyph | src/components/track-info.tsx:28-34 | the first match's emoji when non-empty; the placeholder when there is no match or its emoji is empty |
| TrackInfo.MoodEmoji | src/components/track-info.tsx:28-30 | as `Glyph`, with placeholder U+1F3B5; never empty |
| TrackInfo.GenreEmoji | src/components/track-info.tsx:32-34 | as `Glyph`, with placeholder U+1F3B6; never empty |
| AudioProgress.FormatTime | src/components/audio-progress.tsx:11-16 | `m:ss` text that reads back as the given seconds, with no leading zero in the minutes, which by `Clock.ClockCanonical` fixes the text |
| AudioProgress.FormatTimeZero | src/components/audio-progress.tsx:11-15 | zero seconds render as "0:00" |
| AudioProgress.FormatTimeMatchesDuration | src/components/audio-progress.tsx:11-16 | agrees with `formatDuration` on every positive value, and differs at 0 |
| AudioProgress.HandleProgressClick | src/components/audio-progress.tsx:18-27 | seeks exactly when a callback exists and duration is non-zero; the time is the clicked fraction of the duration, within [0, duration] for a click inside the bar |
| MusicData.CatalogMoods | src/data/music-data.ts:1-106 | the keys are exactly chill, energetic, happy and sad |
| MusicData.CatalogSizes | src/data/music-data.ts:2-105 | every mood has four entries |
| MusicData.CatalogIds | src/data/music-data.ts:2-105 | the k-th mood in catalog order numbers its entries 4k+1 .. 4k+4 |
| MusicData.CatalogIdsDistinct | src/data/music-data.ts:2-105 | no two entries of the catalog share an id |
| MusicData.CatalogTrackPaths | src/data/music-data.ts:2-105 | the k-th entry (1-based) of mood m has path "/m/k.mp3" |
| ProgressBar.Advance | src/components/progress-bar.tsx:8-14 | the updater never lowers a counter at or below 100, keeps an even counter in [0, 100] even and in range, and yields 100 exactly from 98 on |
| ProgressBar.AfterTicksClosedForm | src/components/progress-bar.tsx:4-14 | after n ticks from 0 the counter is min(2n, 100) |
| ProgressBar.AfterTicksBounds | src/components/progress-bar.tsx:4-14 | from 0 the counter is even, within [0, 100] and never decreases |
| ProgressBar.FullAfterFiftyTicks | src/components/progress-bar.tsx:4-14 | the counter is 100 exactly from the 50th tick on |
| ProgressBar.Bar.constructor | src/components/progress-bar.tsx:4-7 | starts at 0 with the interval installed |
| ProgressBar.Bar.Tick | src/components/progress-bar.tsx:8-14 | below 100 it adds 2; at 100 it stays at 100 and clears the interval |
| ProgressBar.Bar.RunToCompletion | src/components/progress-bar.tsx:6-18 | from 0 the interval fires 51 times and stops with the counter at 100 |

## Left out

- Persistence of the store to local storage under "wubble-music-storage" is not modelled. It is browser I/O done by a library. The store is in-memory state.
- The behaviour of the audio element is not modelled: `play`, `pause`, writing its `currentTime`, and adding or removing its event listeners. The model keeps only the state changes the handlers make.
- App.Component.OnTimeUpdate, App.Component.OnLoadedMetadata, App.Component.OnEnded: these require an attached handle, because the listeners exist only on the current audio element.
- The 2-second delay, the interval timing and the interval cleared on unmount are not modelled. `GenerateTrack` runs its two halves with no other event in between. Interleavings through `StartGeneration` and `CompleteGeneration` are possible in the model, but no property about them is proved. One example: a track started from a list during the delay. `CompleteGeneration` then attaches a new handle and leaves `isPlaying` as it was.
- `Math.random()` and `Date.now()` are not modelled. They are parameters: a real in [0, 1) and a whole-number timestamp.
- `downloadTrack` is not modelled. It only manipulates the DOM.
- TrackInfo.FormatDuration, AudioProgress.FormatTime: these take whole seconds. Fractional seconds, the `NaN` branches and floating-point rounding are not modelled.
- App.Percent, App.Component.SeekToTime, App.Component.OnTimeUpdate: these use exact real arithmetic, not floating point.
- AudioProgress.HandleProgressClick: requires a bar of positive width. A zero-width bar cannot be clicked, and the division by zero that would follow only yields a floating-point `Infinity` or `NaN`. Pixel geometry is reduced to `clickX` and `width`.
- The rendering is not modelled: JSX, CSS, icons, the ui/* components, and the theme toggle, whose provider is not part of this model.
- TrackInfo.MoodPlaceholder, TrackInfo.GenrePlaceholder: the source text of the fallback glyphs (src/components/track-info.tsx:29, 33 and src/App.tsx:183, 187) is the UTF-8 bytes of U+1F3B5 and U+1F3B6 read back as Windows-1252. The model uses the intended glyphs, not that mis-decoded text.
- The `console.error` call on the error path of `generateTrack` (src/App.tsx:144) is not modelled. It is logging I/O and changes no state.
- The `moods` and `genres` reference lists are not part of this model. They are parameters of `MoodEmoji` and `GenreEmoji`.

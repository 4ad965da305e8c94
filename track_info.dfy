/** The track header: duration text and the mood/genre badge glyphs. */
module TrackInfo {
  import opened Wrappers
  import Clock

  /** A mood or genre of the reference lists: id, display name and glyph. */
  datatype Choice = Choice(id: string, name: string, emoji: string)

  /** Glyph shown for a mood that has none (U+1F3B5, a musical note). */
  const MoodPlaceholder: string := "\U{1F3B5}"
  /** Glyph shown for a genre that has none (U+1F3B6, musical notes). */
  const GenrePlaceholder: string := "\U{1F3B6}"

  /** `formatDuration` over whole seconds: nothing for zero, otherwise `m:ss`. */
  function FormatDuration(seconds: nat): (r: string)
    ensures seconds == 0 <==> r == ""
    ensures seconds > 0 ==> Clock.ParseClock(r) == Some(seconds)
    ensures seconds > 0 ==> |r| >= 4 && Clock.NoLeadingZero(r[..|r| - 3])
  {
    if seconds == 0 then ""
    else
      var r := Clock.MinutesSeconds(seconds);
      assert Clock.NoLeadingZero(r[..|r| - 3]);
      Clock.ClockRoundTrip(seconds);
      r
  }

  /** The duration label next to the title: shown only for a positive duration. */
  function DurationLabel(duration: nat): (shown: Option<string>)
    ensures shown.Some? <==> duration > 0
    ensures shown.Some? ==> shown.value != "" && Clock.ParseClock(shown.value) == Some(duration)
    ensures shown.Some? ==> |shown.value| >= 4 && Clock.NoLeadingZero(shown.value[..|shown.value| - 3])
  {
    if duration > 0 then
      var r := FormatDuration(duration);
      Some(r)
    else None
  }

  /** Index i holds the first entry whose id is `id`. */
  ghost predicate IsFirstMatch(choices: seq<Choice>, id: string, i: int)
  {
    0 <= i < |choices| && choices[i].id == id &&
    forall j :: 0 <= j < i ==> choices[j].id != id
  }

  /** `choices.find(c => c.id === id)`. */
  function Find(choices: seq<Choice>, id: string): (r: Option<Choice>)
    ensures r.None? <==> forall i :: 0 <= i < |choices| ==> choices[i].id != id
    ensures r.Some? ==> exists i :: IsFirstMatch(choices, id, i) && r.value == choices[i]
  {
    if choices == [] then None
    else if choices[0].id == id then
      assert IsFirstMatch(choices, id, 0);
      Some(choices[0])
    else
      var r := Find(choices[1..], id);
      assert forall i :: 1 <= i < |choices| ==> choices[i] == choices[1..][i - 1];
      assert r.Some? ==> exists i :: IsFirstMatch(choices, id, i) && r.value == choices[i] by {
        if r.Some? {
          var k :| IsFirstMatch(choices[1..], id, k) && r.value == choices[1..][k];
          assert IsFirstMatch(choices, id, k + 1);
        }
      }
      r
  }

  /** `choices.find(c => c.id === id)?.emoji || placeholder`. */
  function Glyph(choices: seq<Choice>, id: string, placeholder: string): (g: string)
    ensures forall i :: IsFirstMatch(choices, id, i) ==>
      g == if choices[i].emoji != "" then choices[i].emoji else placeholder
    ensures (forall i :: 0 <= i < |choices| ==> choices[i].id != id) ==> g == placeholder
  {
    var found := Find(choices, id);
    FirstMatchUnique(choices, id);
    if found.Some? && found.value.emoji != "" then found.value.emoji else placeholder
  }

  lemma FirstMatchUnique(choices: seq<Choice>, id: string)
    ensures forall i, j :: IsFirstMatch(choices, id, i) && IsFirstMatch(choices, id, j) ==> i == j
  {
  }

  /** `getMoodEmoji`. */
  function MoodEmoji(moods: seq<Choice>, moodId: string): (g: string)
    ensures g != ""
    ensures forall i :: IsFirstMatch(moods, moodId, i) && moods[i].emoji != "" ==> g == moods[i].emoji
    ensures (forall i :: IsFirstMatch(moods, moodId, i) ==> moods[i].emoji == "") ==> g == MoodPlaceholder
  {
    Glyph(moods, moodId, MoodPlaceholder)
  }

  /** `getGenreEmoji`. */
  function GenreEmoji(genres: seq<Choice>, genreId: string): (g: string)
    ensures g != ""
    ensures forall i :: IsFirstMatch(genres, genreId, i) && genres[i].emoji != "" ==> g == genres[i].emoji
    ensures (forall i :: IsFirstMatch(genres, genreId, i) ==> genres[i].emoji == "") ==> g == GenrePlaceholder
  {
    Glyph(genres, genreId, GenrePlaceholder)
  }
}

/** The static catalog that generation draws from: mood -> entries. */
module MusicData {
  import Clock

  datatype Entry = Entry(id: nat, name: string, description: string, track: string)

  const Music: map<string, seq<Entry>> := map[
    "chill" := [
      Entry(1, "Chill Vibes", "Relaxing and soothing music to unwind.", "/chill/1.mp3"),
      Entry(2, "Evening Calm", "Soft tunes for a peaceful evening.", "/chill/2.mp3"),
      Entry(3, "Morning Serenity", "Gentle melodies to start your day.", "/chill/3.mp3"),
      Entry(4, "Nature's Embrace", "Sounds of nature blended with soft music.", "/chill/4.mp3")
    ],
    "energetic" := [
      Entry(5, "Upbeat Energy", "High-energy tracks to get you moving.", "/energetic/1.mp3"),
      Entry(6, "Dance Fever", "Catchy beats to dance to.", "/energetic/2.mp3"),
      Entry(7, "Workout Motivation", "Pumping tracks to fuel your workout.", "/energetic/3.mp3"),
      Entry(8, "Party Anthems", "Lively tunes to keep the party going.", "/energetic/4.mp3")
    ],
    "happy" := [
      Entry(9, "Joyful Moments", "Uplifting music to brighten your day.", "/happy/1.mp3"),
      Entry(10, "Sunny Days", "Feel-good tracks for a sunny disposition.", "/happy/2.mp3"),
      Entry(11, "Celebration Time", "Music for celebrating life's little victories.", "/happy/3.mp3"),
      Entry(12, "Feel Good Vibes", "Positive tunes to lift your spirits.", "/happy/4.mp3")
    ],
    "sad" := [
      Entry(13, "Melancholy Moments", "Reflective music for quiet moments.", "/sad/1.mp3"),
      Entry(14, "Heartfelt Tunes", "Emotional tracks for introspection.", "/sad/2.mp3"),
      Entry(15, "Quiet Reflections", "Soft melodies for contemplation.", "/sad/3.mp3"),
      Entry(16, "Sombre Sounds", "Deep and moving music for somber times.", "/sad/4.mp3")
    ]
  ]

  /** The moods in catalog order. */
  const Moods: seq<string> := ["chill", "energetic", "happy", "sad"]

  lemma CatalogMoods()
    ensures Music.Keys == {"chill", "energetic", "happy", "sad"}
  {
  }

  lemma CatalogSizes()
    ensures forall m :: m in Music ==> |Music[m]| == 4
  {
  }

  /** Mood number `k` (0-based, catalog order) numbers its entries 4k+1 .. 4k+4. */
  lemma CatalogIds()
    ensures forall k, i :: 0 <= k < |Moods| && 0 <= i < 4 ==>
      Moods[k] in Music && |Music[Moods[k]]| == 4 && Music[Moods[k]][i].id == 4 * k + i + 1
  {
  }

  /** The position of a catalog mood in `Moods`. */
  function MoodIndex(m: string): (k: nat)
    requires m in Music
    ensures k < |Moods| && Moods[k] == m
  {
    CatalogMoods();
    if m == "chill" then 0 else if m == "energetic" then 1 else if m == "happy" then 2 else 3
  }

  lemma CatalogIdsDistinct()
    ensures forall m1, m2, i, j ::
      m1 in Music && m2 in Music && 0 <= i < |Music[m1]| && 0 <= j < |Music[m2]| &&
      (m1 != m2 || i != j)
      ==> Music[m1][i].id != Music[m2][j].id
  {
    CatalogIds();
    forall m1, m2, i, j |
      m1 in Music && m2 in Music && 0 <= i < |Music[m1]| && 0 <= j < |Music[m2]| &&
      (m1 != m2 || i != j)
      ensures Music[m1][i].id != Music[m2][j].id
    {
      var k1, k2 := MoodIndex(m1), MoodIndex(m2);
      assert Music[m1][i].id == 4 * k1 + i + 1;
      assert Music[m2][j].id == 4 * k2 + j + 1;
    }
  }

  /** The k-th entry (1-based) of mood m plays "/m/k.mp3". */
  lemma CatalogTrackPaths()
    ensures forall m, i :: m in Music && 0 <= i < |Music[m]| ==>
      Music[m][i].track == "/" + m + "/" + Clock.NatToString(i + 1) + ".mp3"
  {
    forall m, i | m in Music && 0 <= i < |Music[m]|
      ensures Music[m][i].track == "/" + m + "/" + Clock.NatToString(i + 1) + ".mp3"
    {
      TrackPath(m, i);
    }
  }

  lemma TrackPath(m: string, i: nat)
    requires m in Music && i < |Music[m]|
    ensures Music[m][i].track == "/" + m + "/" + Clock.NatToString(i + 1) + ".mp3"
  {
    CatalogSizes();
    var d := Digit(i);
    var k := MoodIndex(m);
    assert m == Moods[k];
    if k == 0 {
      ChillPath(i, d);
    } else if k == 1 {
      EnergeticPath(i, d);
    } else if k == 2 {
      HappyPath(i, d);
    } else {
      SadPath(i, d);
    }
  }

  /** The decimal form of i + 1 for the four entry positions. */
  lemma Digit(i: nat) returns (d: char)
    requires i < 4
    ensures Clock.NatToString(i + 1) == [d] && d == "1234"[i]
  {
    d := Clock.DigitChar(i + 1);
  }

  lemma ChillPath(i: nat, d: char)
    requires i < 4 && d == "1234"[i]
    ensures Music["chill"][i].track == "/" + "chill" + "/" + [d] + ".mp3"
  {
    if i == 0 {} else if i == 1 {} else if i == 2 {} else {}
  }

  lemma EnergeticPath(i: nat, d: char)
    requires i < 4 && d == "1234"[i]
    ensures Music["energetic"][i].track == "/" + "energetic" + "/" + [d] + ".mp3"
  {
    if i == 0 {} else if i == 1 {} else if i == 2 {} else {}
  }

  lemma HappyPath(i: nat, d: char)
    requires i < 4 && d == "1234"[i]
    ensures Music["happy"][i].track == "/" + "happy" + "/" + [d] + ".mp3"
  {
    if i == 0 {} else if i == 1 {} else if i == 2 {} else {}
  }

  lemma SadPath(i: nat, d: char)
    requires i < 4 && d == "1234"[i]
    ensures Music["sad"][i].track == "/" + "sad" + "/" + [d] + ".mp3"
  {
    if i == 0 {} else if i == 1 {} else if i == 2 {} else {}
  }
}

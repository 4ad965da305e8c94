/** The playback bar: elapsed/total time text and click-to-seek. */
module AudioProgress {
  import opened Wrappers
  import Clock
  import TrackInfo

  /** `formatTime` over whole seconds: always `m:ss`, also for zero. */
  function FormatTime(seconds: nat): (r: string)
    ensures Clock.ParseClock(r) == Some(seconds)
    ensures |r| >= 4 && r[|r| - 3] == ':'
    ensures Clock.NoLeadingZero(r[..|r| - 3])
  {
    var r := Clock.MinutesSeconds(seconds);
    assert Clock.NoLeadingZero(r[..|r| - 3]);
    Clock.ClockRoundTrip(seconds);
    r
  }

  lemma FormatTimeZero()
    ensures FormatTime(0) == "0:00"
  {
  }

  /** The two renderings agree on every positive duration; only zero differs. */
  lemma FormatTimeMatchesDuration(seconds: nat)
    ensures seconds > 0 ==> FormatTime(seconds) == TrackInfo.FormatDuration(seconds)
    ensures FormatTime(0) != TrackInfo.FormatDuration(0)
  {
    FormatTimeZero();
  }

  /**
   * `handleProgressClick`: nothing without a seek callback or a known duration;
   * otherwise the time at the clicked fraction of the bar's width.
   */
  function HandleProgressClick(hasOnSeek: bool, duration: real, clickX: real, width: real): (seek: Option<real>)
    requires width > 0.0
    ensures seek.Some? <==> hasOnSeek && duration != 0.0
    ensures seek.Some? ==> seek.value * width == clickX * duration
    ensures seek.Some? && duration > 0.0 && 0.0 <= clickX <= width ==> 0.0 <= seek.value <= duration
  {
    if !hasOnSeek || duration == 0.0 then None
    else
      var t := (clickX / width) * duration;
      assert 0.0 < duration && 0.0 <= clickX <= width ==> 0.0 <= t <= duration by {
        if 0.0 < duration && 0.0 <= clickX <= width {
          assert 0.0 <= clickX / width <= 1.0;
        }
      }
      Some(t)
  }
}

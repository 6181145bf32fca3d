/** The player bar shown over every screen (`GlobalAudioPlayer`): what it
    shows for the session's telemetry and which session operation each
    control dispatches. */
module GlobalPlayer {
  import opened Js
  import opened Text
  import Clock
  import opened Media
  import opened AudioSession

  /** The bar renders only for a truthy `audioUri`. */
  predicate Visible(audioUri: Option<string>) {
    Truthy(audioUri)
  }

  /** The bar is hidden exactly when no uri, or the empty uri, is published. */
  lemma HiddenWithoutUri(s: Session)
    ensures Visible(s.audioUri) <==> s.audioUri.Some? && s.audioUri.value != ""
    ensures Idle(s) ==> !Visible(s.audioUri)
  {
  }

  /** Slider value: `duration ? position / duration : 0`. */
  function NormalizedPosition(position: int, duration: int): (v: real)
    ensures duration == 0 ==> v == 0.0
    ensures 0 <= position <= duration ==> 0.0 <= v <= 1.0
    ensures 0 < duration ==> v * duration as real == position as real
  {
    if duration != 0 then position as real / duration as real else 0.0
  }

  /** Slider release: the seek target is `val * duration`. A slider value in
      [0, 1] gives a target inside the track, and normalising the target by
      the duration gives back the slider value. */
  function SliderSeekTarget(val: real, duration: int): (t: real)
    ensures 0.0 <= val <= 1.0 && 0 <= duration ==> 0.0 <= t <= duration as real
    ensures 0 < duration ==> t / duration as real == val
  {
    var d := duration as real;
    assert 0.0 <= val <= 1.0 && 0.0 <= d ==> val * d <= 1.0 * d;
    val * d
  }

  /** `formatTime(ms)`: "0:00" for non-positive times, else whole minutes and
      zero-padded seconds of the elapsed whole seconds. */
  function FormatMillis(time: int): string {
    if time <= 0 then "0:00"
    else
      var totalSeconds := time / 1000;
      Clock.Render(totalSeconds / 60, totalSeconds % 60)
  }

  /** What the clock text means: "0:00" for non-positive times; otherwise it
      reads back as minutes and seconds with seconds < 60, a two-character
      seconds field, and minutes * 60 + seconds equal to the elapsed whole seconds. */
  lemma FormatMillisMeaning(time: int)
    ensures time <= 0 ==> FormatMillis(time) == "0:00"
    ensures time > 0 ==>
              var text := FormatMillis(time);
              var parsed := Clock.Parse(text);
              parsed.Some? && parsed.value.1 < 60 &&
              parsed.value.0 * 60 + parsed.value.1 == time / 1000 &&
              text[|text| - 3] == ':'
  {
    if time > 0 {
      var totalSeconds := time / 1000;
      Clock.RenderParse(totalSeconds / 60, totalSeconds % 60);
    }
  }

  /** The operation the main button dispatches. */
  function MainButton(s: Session): Session {
    if s.isPlaying then Pause(s) else Play(s)
  }

  /** When the bar's telemetry mirrors a loaded sound, the main button flips
      whether that sound plays, and the next status tick shows the flip. */
  lemma MainButtonToggles(s: Session)
    requires Mirrors(s)
    ensures MainButton(s).sound.value.playing == !s.sound.value.playing
    ensures Sync(MainButton(s)).isPlaying == !s.isPlaying
  {
  }
}

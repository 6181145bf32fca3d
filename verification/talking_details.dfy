/** The attraction detail screen (`TalkingDetails`): a player of its own,
    separate from the app-wide session, that keeps the position normalised to
    [0, 1] and the duration in seconds, plus the link to the attraction's
    web page. */
module TalkingDetails {
  import opened Js
  import opened Text
  import Clock
  import opened Media

  /** The screen's player state. `position` is a fraction of the track,
      `duration` is in seconds. */
  datatype Player = Player(sound: Option<Sound>, isPlaying: bool, position: real, duration: real)

  const Initial: Player := Player(None, false, 0.0, 0.0)

  /** Loading the screen's audio (without autoplay): keep the new sound and
      record its duration in seconds, 0 when its status is not loaded. A
      failed load is only logged. */
  function LoadAudio(p: Player, outcome: LoadOutcome): (r: Player)
    ensures outcome.LoadFailed? ==> r == p
    ensures outcome.Created? ==>
              r.sound == Some(outcome.sound) && r.isPlaying == p.isPlaying && r.position == p.position
    ensures outcome.Created? && !outcome.sound.loaded ==> r.duration == 0.0
    ensures outcome.Created? && outcome.sound.loaded ==>
              r.duration * 1000.0 == OrInt(outcome.sound.durationMillis, 0) as real
  {
    match outcome
    case LoadFailed => p
    case Created(sound) =>
      var st := StatusOf(sound);
      var seconds := if st.Loaded? then OrInt(st.durationMillis, 0) as real / 1000.0 else 0.0;
      p.(sound := Some(sound), duration := seconds)
  }

  /** The status callback: a loaded status sets the position to
      `(pos || 0) / (dur || 1)`; an unloaded one changes nothing. */
  function UpdateAudioPosition(p: Player, st: Status): (r: Player)
    ensures st.Unloaded? ==> r == p
    ensures r.(position := p.position) == p
    ensures st.Loaded? ==> r.position * OrInt(st.durationMillis, 1) as real == OrInt(st.positionMillis, 0) as real
    ensures st.Loaded? && st.durationMillis.Some? && 0 <= OrInt(st.positionMillis, 0) <= st.durationMillis.value ==>
              0.0 <= r.position <= 1.0
  {
    match st
    case Loaded(pos, dur, _) => p.(position := OrInt(pos, 0) as real / OrInt(dur, 1) as real)
    case Unloaded => p
  }

  /** The elapsed time the screen prints, `position * duration`, is the
      sound's own position in seconds once both its load and a status tick
      have been seen. */
  lemma ElapsedSecondsMatchSound(p: Player, sound: Sound)
    requires sound.loaded && sound.durationMillis.Some? && sound.durationMillis.value > 0
    ensures var r := UpdateAudioPosition(LoadAudio(p, Created(sound)), StatusOf(sound));
            r.position * r.duration == sound.positionMillis as real / 1000.0
  {
    var d := sound.durationMillis.value as real;
    var q := UpdateAudioPosition(LoadAudio(p, Created(sound)), StatusOf(sound));
    assert q.duration == d / 1000.0;
    assert q.position * d == sound.positionMillis as real;
    calc {
      q.position * q.duration;
      q.position * (d / 1000.0);
      (q.position * d) / 1000.0;
    }
  }

  /** Before its sound is created every control of the screen does nothing. */
  lemma ControlsInertBeforeLoad()
    ensures MainButton(Initial) == Initial
    ensures Forward(Initial) == Initial && Backward(Initial) == Initial
    ensures SeekToBeginning(Initial) == Initial && SeekToEnd(Initial) == Initial
  {
  }

  /** `playSound`: only a loaded, paused sound is started, and only then is
      the flag raised. */
  function PlaySound(p: Player): (r: Player)
    ensures r.position == p.position && r.duration == p.duration
    ensures !(p.sound.Some? && p.sound.value.loaded && !p.sound.value.playing) ==> r == p
    ensures p.sound.Some? && p.sound.value.loaded && !p.sound.value.playing ==>
              r.isPlaying && r.sound == Some(p.sound.value.(playing := true))
  {
    if p.sound.Some? then
      var st := StatusOf(p.sound.value);
      if st.Loaded? && !OrFalse(st.isPlaying) then
        p.(sound := Some(PlayAsync(p.sound.value)), isPlaying := true)
      else p
    else p
  }

  /** `pauseSound`: only a loaded, playing sound is paused, and only then is
      the flag lowered. */
  function PauseSound(p: Player): (r: Player)
    ensures r.position == p.position && r.duration == p.duration
    ensures !(p.sound.Some? && p.sound.value.loaded && p.sound.value.playing) ==> r == p
    ensures p.sound.Some? && p.sound.value.loaded && p.sound.value.playing ==>
              !r.isPlaying && r.sound == Some(p.sound.value.(playing := false))
  {
    if p.sound.Some? then
      var st := StatusOf(p.sound.value);
      if st.Loaded? && OrFalse(st.isPlaying) then
        p.(sound := Some(PauseAsync(p.sound.value)), isPlaying := false)
      else p
    else p
  }

  /** The play/pause button: `isPlaying ? pauseSound : playSound`. */
  function MainButton(p: Player): Player {
    if p.isPlaying then PauseSound(p) else PlaySound(p)
  }

  /** While the flag agrees with a loaded sound, the button flips both the
      sound and the flag, and a second press restores the player. */
  lemma MainButtonToggles(p: Player)
    requires p.sound.Some? && p.sound.value.loaded && p.isPlaying == p.sound.value.playing
    ensures var r := MainButton(p);
            r.isPlaying == !p.isPlaying && r.sound.value.playing == !p.sound.value.playing
    ensures MainButton(MainButton(p)) == p
  {
  }

  /** The slider's seek target for a loaded status: `value * (dur || 1)`.
      A value in [0, 1] stays within the track, and normalising the target
      the way `UpdateAudioPosition` does gives the value back. */
  function SliderTarget(value: real, st: Status): (t: real)
    requires st.Loaded?
    ensures 0.0 <= value <= 1.0 && 0 <= OrInt(st.durationMillis, 1) ==>
              0.0 <= t <= OrInt(st.durationMillis, 1) as real
    ensures t / OrInt(st.durationMillis, 1) as real == value
  {
    var d := OrInt(st.durationMillis, 1) as real;
    assert d != 0.0;
    assert 0.0 <= value <= 1.0 && 0.0 <= d ==> value * d <= 1.0 * d;
    assert (value * d) / d == value;
    value * d
  }

  /** `forward`: on a loaded sound, skip 10 s but not past its duration. */
  function Forward(p: Player): (r: Player)
    ensures r.(sound := p.sound) == p
    ensures p.sound.Some? <==> r.sound.Some?
    ensures !(p.sound.Some? && p.sound.value.loaded) ==> r == p
    ensures p.sound.Some? ==> r.sound.value.(positionMillis := p.sound.value.positionMillis) == p.sound.value
    ensures p.sound.Some? && p.sound.value.loaded ==> r.sound.value.positionMillis <= OrInt(p.sound.value.durationMillis, 0)
    ensures p.sound.Some? && p.sound.value.loaded && p.sound.value.positionMillis + SkipMillis <= OrInt(p.sound.value.durationMillis, 0) ==>
              r.sound.value.positionMillis == p.sound.value.positionMillis + SkipMillis
    ensures p.sound.Some? && p.sound.value.loaded && p.sound.value.positionMillis + SkipMillis > OrInt(p.sound.value.durationMillis, 0) ==>
              r.sound.value.positionMillis == OrInt(p.sound.value.durationMillis, 0)
  {
    if p.sound.Some? then p.(sound := Some(Media.Forward(p.sound.value))) else p
  }

  /** `backward`: on a loaded sound, skip 10 s back but not before the start. */
  function Backward(p: Player): (r: Player)
    ensures r.(sound := p.sound) == p
    ensures p.sound.Some? <==> r.sound.Some?
    ensures !(p.sound.Some? && p.sound.value.loaded) ==> r == p
    ensures p.sound.Some? ==> r.sound.value.(positionMillis := p.sound.value.positionMillis) == p.sound.value
    ensures p.sound.Some? && p.sound.value.loaded ==> r.sound.value.positionMillis >= 0
    ensures p.sound.Some? && p.sound.value.loaded && p.sound.value.positionMillis >= SkipMillis ==>
              r.sound.value.positionMillis == p.sound.value.positionMillis - SkipMillis
    ensures p.sound.Some? && p.sound.value.loaded && p.sound.value.positionMillis < SkipMillis ==>
              r.sound.value.positionMillis == 0
  {
    if p.sound.Some? then p.(sound := Some(Media.Backward(p.sound.value))) else p
  }

  /** `seekToBeginning`: any held sound, loaded or not, is moved to 0. */
  function SeekToBeginning(p: Player): (r: Player)
    ensures r.(sound := p.sound) == p
    ensures p.sound.None? ==> r == p
    ensures p.sound.Some? ==> r.sound == Some(SetPosition(p.sound.value, 0))
  {
    if p.sound.Some? then p.(sound := Some(SetPosition(p.sound.value, 0))) else p
  }

  /** `seekToEnd`: a loaded sound is moved to `dur || 0`; otherwise nothing happens. */
  function SeekToEnd(p: Player): (r: Player)
    ensures r.(sound := p.sound) == p
    ensures !(p.sound.Some? && p.sound.value.loaded) ==> r == p
    ensures p.sound.Some? && p.sound.value.loaded ==>
              r.sound == Some(SetPosition(p.sound.value, OrInt(p.sound.value.durationMillis, 0)))
  {
    if p.sound.Some? then
      var st := StatusOf(p.sound.value);
      if st.Loaded? then p.(sound := Some(SetPosition(p.sound.value, OrInt(st.durationMillis, 0))))
      else p
    else p
  }

  /** The skips saturate at the ends: skipping forward from the end and back
      from the beginning leaves the sound where it is. */
  lemma SkipsSaturateAtEnds(p: Player)
    requires p.sound.Some? && p.sound.value.loaded && OrInt(p.sound.value.durationMillis, 0) >= 0
    ensures Forward(SeekToEnd(p)) == SeekToEnd(p)
    ensures Backward(SeekToBeginning(p)) == SeekToBeginning(p)
  {
  }

  /** `Math.trunc`, which JavaScript's `%` on numbers is built on. */
  function Trunc(x: real): int {
    if x >= 0.0 then x.Floor else -((-x).Floor)
  }

  /** JavaScript's `x % y` on numbers: the remainder takes the sign of `x`. */
  function JsRem(x: real, y: real): real
    requires y != 0.0
  {
    x - y * Trunc(x / y) as real
  }

  /** `formatTime(seconds)`: `Math.floor(t / 60)` minutes and
      `Math.floor(t % 60)` zero-padded seconds. */
  function FormatSeconds(time: real): string {
    Clock.Render((time / 60.0).Floor, JsRem(time, 60.0).Floor)
  }

  /** For a non-negative time the text reads back as minutes and seconds with
      seconds < 60 and minutes * 60 + seconds equal to the whole seconds of
      the time; the seconds field is two characters. */
  lemma FormatSecondsMeaning(time: real)
    requires time >= 0.0
    ensures var text := FormatSeconds(time);
            var parsed := Clock.Parse(text);
            parsed.Some? && parsed.value.1 < 60 &&
            parsed.value.0 * 60 + parsed.value.1 == time.Floor &&
            text[|text| - 3] == ':'
  {
    var q := (time / 60.0).Floor;
    assert q >= 0;
    assert Trunc(time / 60.0) == q;
    var rem := time - 60.0 * q as real;
    assert JsRem(time, 60.0) == rem;
    assert q as real <= time / 60.0 < q as real + 1.0;
    assert 0.0 <= rem < 60.0;
    var sec := rem.Floor;
    assert 0 <= sec < 60;
    assert sec as real <= rem < sec as real + 1.0;
    assert (q * 60 + sec) as real <= time < (q * 60 + sec) as real + 1.0;
    assert q * 60 + sec == time.Floor;
    Clock.RenderParse(q, sec);
  }

  const WebsiteBase: string := "https://www.talkingtrail.com/"

  /** The attraction's page slug: the name lower-cased with all whitespace removed. */
  function Slug(name: string): string {
    RemoveSpaces(LowerAll(name))
  }

  /** `handlePressWebsite`: the site address followed by the slug. */
  function WebsiteUrl(attractionName: string): (url: string)
    ensures StartsWith(url, WebsiteBase)
    ensures url[|WebsiteBase|..] == Slug(attractionName)
  {
    WebsiteBase + Slug(attractionName)
  }

  /** The slug is the name's non-whitespace characters, in order and
      lower-cased; it has no whitespace and no upper-case letter, keeps one
      character per non-whitespace character of the name, and is its own
      slug. */
  lemma SlugShape(name: string)
    ensures Slug(name) == LowerAll(RemoveSpaces(name))
    ensures forall i :: 0 <= i < |Slug(name)| ==> !IsSpace(Slug(name)[i]) && !IsUpper(Slug(name)[i])
    ensures |Slug(name)| == CountNonSpace(name)
    ensures Slug(Slug(name)) == Slug(name)
  {
    var lowered := LowerAll(name);
    var slug := Slug(name);
    forall i | 0 <= i < |lowered|
      ensures !IsUpper(lowered[i])
    {
      ToLowerKeepsSpace(name[i]);
    }
    forall i | 0 <= i < |slug|
      ensures !IsUpper(slug[i])
    {
      assert slug[i] in lowered;
    }
    RemoveSpacesLength(lowered);
    LowerAllCountNonSpace(name);
    assert LowerAll(slug) == slug;
    RemoveSpacesNoSpace(slug);
    RemoveSpacesLowerAll(name);
  }
}

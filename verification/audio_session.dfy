/** The app-wide audio session (`AudioProvider`): one optional sound plus the
    telemetry the provider publishes to every player. Each operation is one
    atomic transition; the provider has no guard against interleaved calls, so
    none is modelled. */
module AudioSession {
  import opened Js
  import opened Media

  /** The provider's state. `live` is not provider state: it is the set of
      sound ids the media layer still holds loaded, kept to state that the
      provider never leaks a resource. */
  datatype Session = Session(
    sound: Option<Sound>,
    isPlaying: bool,
    audioUri: Option<string>,
    position: int,
    duration: int,
    live: set<nat>)

  /** The session at start-up. */
  const Initial: Session := Session(None, false, None, 0, 0, {})

  /** Nothing is selected, nothing is held, and the telemetry is zero. */
  predicate Idle(s: Session) {
    s.sound.None? && !s.isPlaying && s.audioUri.None? && s.position == 0 && s.duration == 0
  }

  /** The session starts idle with nothing open, and stopping or unloading
      it then changes nothing. */
  lemma InitialIdle()
    ensures Idle(Initial) && Initial.live == {}
    ensures Stop(Initial) == Initial && Unload(Initial) == Initial
  {
  }

  function Held(s: Session): set<nat> {
    if s.sound.Some? then {s.sound.value.id} else {}
  }

  /** At most one resource is open, and it is the one the session holds. */
  predicate OneResource(s: Session) {
    s.live <= Held(s)
  }

  /** The published telemetry agrees with the held sound's own status. */
  predicate Mirrors(s: Session) {
    s.sound.Some? && s.sound.value.loaded &&
    s.position == s.sound.value.positionMillis &&
    s.duration == OrInt(s.sound.value.durationMillis, 0) &&
    s.isPlaying == s.sound.value.playing
  }

  /** The playback-status callback: a loaded status is copied into the
      telemetry (missing fields read as 0, 0 and false), an unloaded one
      zeroes it. Sound, uri and resources are untouched. */
  function OnStatus(s: Session, st: Status): (r: Session)
    ensures r.sound == s.sound && r.audioUri == s.audioUri && r.live == s.live
    ensures st.Unloaded? ==> r.position == 0 && r.duration == 0 && !r.isPlaying
    ensures st.Loaded? && st.positionMillis.Some? ==> r.position == st.positionMillis.value
    ensures st.Loaded? && st.durationMillis.Some? ==> r.duration == st.durationMillis.value
    ensures st.Loaded? && st.isPlaying.Some? ==> r.isPlaying == st.isPlaying.value
    ensures st.Loaded? && st.positionMillis.None? ==> r.position == 0
    ensures st.Loaded? && st.durationMillis.None? ==> r.duration == 0
    ensures st.Loaded? && st.isPlaying.None? ==> !r.isPlaying
  {
    match st
    case Loaded(p, d, playing) =>
      s.(position := OrInt(p, 0), duration := OrInt(d, 0), isPlaying := OrFalse(playing))
    case Unloaded =>
      s.(position := 0, duration := 0, isPlaying := false)
  }

  /** A status tick for the held sound, as the media layer would report it. */
  function Sync(s: Session): Session {
    if s.sound.Some? then OnStatus(s, StatusOf(s.sound.value)) else s
  }

  /** After a status tick for a loaded sound the telemetry mirrors it. */
  lemma SyncMirrors(s: Session)
    requires s.sound.Some? && s.sound.value.loaded
    ensures Mirrors(Sync(s))
  {
  }

  /** Delivering the same status twice has the effect of delivering it once. */
  lemma OnStatusIdempotent(s: Session, st: Status)
    ensures OnStatus(OnStatus(s, st), st) == OnStatus(s, st)
  {
  }

  /** `unload`: with a sound held, release it and reset the session to idle;
      with none, change nothing. */
  function Unload(s: Session): (r: Session)
    ensures s.sound.Some? ==> Idle(r) && r.live == s.live - Held(s)
    ensures s.sound.None? ==> r == s
  {
    if s.sound.Some? then
      var released := UnloadAsync(s.sound.value);
      Session(None, false, None, 0, 0, s.live - {released.id})
    else s
  }

  /** `unload` releases every open resource and cannot be repeated to any effect. */
  lemma UnloadReleases(s: Session)
    requires OneResource(s)
    ensures OneResource(Unload(s))
    ensures s.sound.Some? ==> Unload(s).live == {}
    ensures Unload(Unload(s)) == Unload(s)
  {
  }

  /** The telemetry copy made right after loading: only a loaded status is copied. */
  function MirrorLoaded(s: Session, st: Status): Session {
    match st
    case Loaded(p, d, playing) =>
      s.(position := OrInt(p, 0), duration := OrInt(d, 0), isPlaying := OrFalse(playing))
    case Unloaded => s
  }

  /** `playAudio(uri)`: release the held sound, publish `uri` with zeroed
      telemetry and the playing flag set, then create the new sound with
      autoplay. A failed creation is only logged. */
  function PlayAudio(s: Session, uri: string, outcome: LoadOutcome): (r: Session)
    ensures r.audioUri == Some(uri)
    ensures outcome.LoadFailed? ==>
              r.sound.None? && r.isPlaying && r.position == 0 && r.duration == 0 &&
              r.live == s.live - Held(s)
    ensures outcome.Created? ==>
              r.sound == Some(outcome.sound) && r.live == (s.live - Held(s)) + {outcome.sound.id}
    ensures outcome.Created? && outcome.sound.loaded ==> Mirrors(r)
    ensures outcome.Created? && !outcome.sound.loaded ==>
              r.isPlaying && r.position == 0 && r.duration == 0
    ensures OneResource(s) ==> OneResource(r)
  {
    var cleared := Unload(s);
    var pending := cleared.(audioUri := Some(uri), position := 0, duration := 0, isPlaying := true);
    match outcome
    case LoadFailed => pending
    case Created(sound) =>
      var holding := pending.(sound := Some(sound), live := pending.live + {sound.id});
      MirrorLoaded(holding, StatusOf(sound))
  }

  /** Choosing a track always restarts it: whatever was playing before, and
      even when it is the same uri, the new session starts from the new
      sound's own position, which a fresh sound reports as 0. */
  lemma PlayAudioRestarts(s: Session, uri: string, sound: Sound)
    requires sound.loaded && sound.playing && sound.positionMillis == 0
    ensures var r := PlayAudio(s, uri, Created(sound));
            r.position == 0 && r.isPlaying && r.audioUri == Some(uri) && Held(r) == {sound.id}
  {
  }

  /** A failed load leaves the session claiming to play `uri` while holding
      no sound: the provider does not reset on failure. */
  lemma FailedLoadKeepsPlayingFlag(s: Session, uri: string)
    ensures var r := PlayAudio(s, uri, LoadFailed);
            r.isPlaying && r.sound.None? && r.audioUri == Some(uri) && !Idle(r)
  {
  }

  /** Two `playAudio` calls in a row leave exactly one open resource: the
      second sound's. */
  lemma PlayAudioTwiceOneResource(s: Session, a: string, b: string, first: Sound, second: Sound)
    requires OneResource(s)
    ensures var r := PlayAudio(PlayAudio(s, a, Created(first)), b, Created(second));
            r.live == {second.id} && r.sound == Some(second)
  {
    var mid := PlayAudio(s, a, Created(first));
    assert mid.live == {first.id};
  }

  /** `play`: resume a loaded, paused sound; anything else is a no-op. The
      telemetry follows on the next status tick. */
  function Play(s: Session): (r: Session)
    ensures r.sound.Some? <==> s.sound.Some?
    ensures r.(sound := s.sound) == s
    ensures s.sound.Some? ==> r.sound.value.(playing := s.sound.value.playing) == s.sound.value
    ensures s.sound.Some? ==>
              (r.sound.value.playing <==> s.sound.value.playing || s.sound.value.loaded)
  {
    if s.sound.Some? then
      var st := StatusOf(s.sound.value);
      if st.Loaded? && !OrFalse(st.isPlaying) then s.(sound := Some(PlayAsync(s.sound.value)))
      else s
    else s
  }

  /** `pause`: halt a loaded, playing sound; anything else is a no-op. */
  function Pause(s: Session): (r: Session)
    ensures r.sound.Some? <==> s.sound.Some?
    ensures r.(sound := s.sound) == s
    ensures s.sound.Some? ==> r.sound.value.(playing := s.sound.value.playing) == s.sound.value
    ensures s.sound.Some? ==>
              (r.sound.value.playing <==> s.sound.value.playing && !s.sound.value.loaded)
  {
    if s.sound.Some? then
      var st := StatusOf(s.sound.value);
      if st.Loaded? && OrFalse(st.isPlaying) then s.(sound := Some(PauseAsync(s.sound.value)))
      else s
    else s
  }

  /** Pausing right after resuming a paused sound gives back the session. */
  lemma PauseUndoesPlay(s: Session)
    requires s.sound.Some? && s.sound.value.loaded && !s.sound.value.playing
    ensures Pause(Play(s)) == s
  {
  }

  /** Resuming right after pausing a playing sound gives back the session. */
  lemma PlayUndoesPause(s: Session)
    requires s.sound.Some? && s.sound.value.loaded && s.sound.value.playing
    ensures Play(Pause(s)) == s
  {
  }

  /** `Math.min(Math.max(v, 0), bound)` */
  function Clamp(v: int, bound: int): int {
    var low := if v > 0 then v else 0;
    if low < bound then low else bound
  }

  /** `seekTo(v)`: only with a sound held and a known positive duration, move
      the sound to `v` clamped into [0, duration]. */
  function SeekTo(s: Session, v: int): (r: Session)
    ensures r.(sound := s.sound) == s
    ensures r.sound.Some? <==> s.sound.Some?
    ensures !(s.sound.Some? && s.duration > 0) ==> r == s
    ensures s.sound.Some? && s.duration > 0 ==>
              r.sound.value == SetPosition(s.sound.value, r.sound.value.positionMillis) &&
              0 <= r.sound.value.positionMillis <= s.duration &&
              (0 <= v <= s.duration ==> r.sound.value.positionMillis == v) &&
              (v < 0 ==> r.sound.value.positionMillis == 0) &&
              (v > s.duration ==> r.sound.value.positionMillis == s.duration)
  {
    if s.sound.Some? && s.duration > 0 then
      s.(sound := Some(SetPosition(s.sound.value, Clamp(v, s.duration))))
    else s
  }

  /** A seek to a position inside a mirrored track is what the next status
      tick publishes. */
  lemma SeekToPublished(s: Session, v: int)
    requires Mirrors(s) && s.duration > 0 && 0 <= v <= s.duration
    ensures Mirrors(Sync(SeekTo(s, v))) && Sync(SeekTo(s, v)).position == v
  {
  }

  /** `stop`: halt and release the held sound, if any, and in every case
      publish the idle telemetry. */
  function Stop(s: Session): (r: Session)
    ensures Idle(r)
    ensures r.live == s.live - Held(s)
    ensures OneResource(s) ==> r.live == {}
  {
    var released := if s.sound.Some? then Unload(s.(sound := Some(StopAsync(s.sound.value)))) else s;
    released.(audioUri := None, position := 0, duration := 0, isPlaying := false)
  }

  /** Stopping twice is the same as stopping once. */
  lemma StopIdempotent(s: Session)
    ensures Stop(Stop(s)) == Stop(s)
  {
  }

  /** `forward`: on a loaded sound, skip 10 s but not past its duration. */
  function Forward(s: Session): (r: Session)
    ensures r.(sound := s.sound) == s
    ensures r.sound.Some? <==> s.sound.Some?
    ensures !(s.sound.Some? && s.sound.value.loaded) ==> r == s
    ensures s.sound.Some? ==> r.sound.value.(positionMillis := s.sound.value.positionMillis) == s.sound.value
    ensures s.sound.Some? && s.sound.value.loaded ==> r.sound.value.positionMillis <= OrInt(s.sound.value.durationMillis, 0)
    ensures s.sound.Some? && s.sound.value.loaded && s.sound.value.positionMillis + SkipMillis <= OrInt(s.sound.value.durationMillis, 0) ==>
              r.sound.value.positionMillis == s.sound.value.positionMillis + SkipMillis
    ensures s.sound.Some? && s.sound.value.loaded && s.sound.value.positionMillis + SkipMillis > OrInt(s.sound.value.durationMillis, 0) ==>
              r.sound.value.positionMillis == OrInt(s.sound.value.durationMillis, 0)
  {
    if s.sound.Some? then s.(sound := Some(Media.Forward(s.sound.value))) else s
  }

  /** `backward`: on a loaded sound, skip 10 s back but not before the start. */
  function Backward(s: Session): (r: Session)
    ensures r.(sound := s.sound) == s
    ensures r.sound.Some? <==> s.sound.Some?
    ensures !(s.sound.Some? && s.sound.value.loaded) ==> r == s
    ensures s.sound.Some? ==> r.sound.value.(positionMillis := s.sound.value.positionMillis) == s.sound.value
    ensures s.sound.Some? && s.sound.value.loaded ==> r.sound.value.positionMillis >= 0
    ensures s.sound.Some? && s.sound.value.loaded && s.sound.value.positionMillis >= SkipMillis ==>
              r.sound.value.positionMillis == s.sound.value.positionMillis - SkipMillis
    ensures s.sound.Some? && s.sound.value.loaded && s.sound.value.positionMillis < SkipMillis ==>
              r.sound.value.positionMillis == 0
  {
    if s.sound.Some? then s.(sound := Some(Media.Backward(s.sound.value))) else s
  }

  /** After a skip and a status tick, the published position stays inside the
      track: never past the duration going forward, never negative going back. */
  lemma SkipsStayInTrack(s: Session)
    requires s.sound.Some? && s.sound.value.loaded
    ensures Sync(Forward(s)).position <= Sync(Forward(s)).duration
    ensures Sync(Backward(s)).position >= 0
  {
  }

  /** Every transport operation keeps the one-resource invariant. */
  lemma TransportKeepsOneResource(s: Session, v: int, st: Status)
    requires OneResource(s)
    ensures OneResource(Play(s)) && OneResource(Pause(s)) && OneResource(SeekTo(s, v))
    ensures OneResource(Forward(s)) && OneResource(Backward(s)) && OneResource(Stop(s))
    ensures OneResource(OnStatus(s, st))
  {
  }
}

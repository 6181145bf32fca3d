/** The expo-av `Sound` object, abstracted to the record the app queries and
    mutates, and the transport calls both audio players make on it. */
module Media {
  import opened Js

  /** The step of the skip buttons, in milliseconds. */
  const SkipMillis: int := 10000

  /** A sound handle. `id` identifies the native resource behind it. */
  datatype Sound = Sound(
    id: nat,
    loaded: bool,
    playing: bool,
    positionMillis: int,
    durationMillis: Option<int>)

  /** `AVPlaybackStatus`: fields the media layer may leave out are optional. */
  datatype Status =
    | Unloaded
    | Loaded(positionMillis: Option<int>, durationMillis: Option<int>, isPlaying: Option<bool>)

  /** What `Audio.Sound.createAsync` gives back: a new sound, or a thrown error. */
  datatype LoadOutcome = LoadFailed | Created(sound: Sound)

  /** `sound.getStatusAsync()` */
  function StatusOf(s: Sound): (st: Status)
    ensures st.Loaded? <==> s.loaded
  {
    if s.loaded then Loaded(Some(s.positionMillis), s.durationMillis, Some(s.playing))
    else Unloaded
  }

  /** `sound.setPositionAsync(p)` */
  function SetPosition(s: Sound, p: int): Sound {
    s.(positionMillis := p)
  }

  /** `sound.playAsync()` */
  function PlayAsync(s: Sound): Sound {
    s.(playing := true)
  }

  /** `sound.pauseAsync()` */
  function PauseAsync(s: Sound): Sound {
    s.(playing := false)
  }

  /** `sound.stopAsync()`: playback halts and rewinds. */
  function StopAsync(s: Sound): Sound {
    s.(playing := false, positionMillis := 0)
  }

  /** `sound.unloadAsync()`: the native resource is released. */
  function UnloadAsync(s: Sound): Sound {
    s.(loaded := false, playing := false)
  }

  /** Skip forward on a loaded sound: `min((pos || 0) + 10000, dur || 0)`.
      The target never passes the reported duration. */
  function ForwardTarget(st: Status): (p: int)
    requires st.Loaded?
    ensures p <= OrInt(st.durationMillis, 0)
    ensures p <= OrInt(st.positionMillis, 0) + SkipMillis
    ensures p == OrInt(st.durationMillis, 0) || p == OrInt(st.positionMillis, 0) + SkipMillis
  {
    var target := OrInt(st.positionMillis, 0) + SkipMillis;
    var limit := OrInt(st.durationMillis, 0);
    if target < limit then target else limit
  }

  /** Skip back on a loaded sound: `max((pos || 0) - 10000, 0)`.
      The target is never negative. */
  function BackwardTarget(st: Status): (p: int)
    requires st.Loaded?
    ensures p >= 0
    ensures p >= OrInt(st.positionMillis, 0) - SkipMillis
    ensures p == 0 || p == OrInt(st.positionMillis, 0) - SkipMillis
  {
    var target := OrInt(st.positionMillis, 0) - SkipMillis;
    if target > 0 then target else 0
  }

  /** The `forward` handler on a sound: query the status, and on a loaded
      sound seek to the forward target; an unloaded sound is left alone. */
  function Forward(s: Sound): (r: Sound)
    ensures r.loaded == s.loaded && r.playing == s.playing
    ensures r.id == s.id && r.durationMillis == s.durationMillis
    ensures !s.loaded ==> r == s
    ensures s.loaded ==> r.positionMillis <= OrInt(s.durationMillis, 0)
    ensures s.loaded && s.positionMillis + SkipMillis <= OrInt(s.durationMillis, 0) ==>
              r.positionMillis == s.positionMillis + SkipMillis
    ensures s.loaded && s.positionMillis + SkipMillis > OrInt(s.durationMillis, 0) ==>
              r.positionMillis == OrInt(s.durationMillis, 0)
  {
    var st := StatusOf(s);
    if st.Loaded? then SetPosition(s, ForwardTarget(st)) else s
  }

  /** The `backward` handler on a sound. */
  function Backward(s: Sound): (r: Sound)
    ensures r.loaded == s.loaded && r.playing == s.playing
    ensures r.id == s.id && r.durationMillis == s.durationMillis
    ensures !s.loaded ==> r == s
    ensures s.loaded ==> r.positionMillis >= 0
    ensures s.loaded && s.positionMillis >= SkipMillis ==>
              r.positionMillis == s.positionMillis - SkipMillis
    ensures s.loaded && s.positionMillis < SkipMillis ==> r.positionMillis == 0
  {
    var st := StatusOf(s);
    if st.Loaded? then SetPosition(s, BackwardTarget(st)) else s
  }

  /** Skipping forward and then back returns to the same place whenever the
      forward skip did not hit the end of the track. */
  lemma BackwardUndoesForward(s: Sound)
    requires s.loaded && 0 <= s.positionMillis
    requires s.positionMillis + SkipMillis <= OrInt(s.durationMillis, 0)
    ensures Backward(Forward(s)) == s
  {
  }

  /** Skipping back and then forward returns to the same place whenever the
      backward skip did not hit the start of the track. */
  lemma ForwardUndoesBackward(s: Sound)
    requires s.loaded && SkipMillis <= s.positionMillis <= OrInt(s.durationMillis, 0)
    ensures Forward(Backward(s)) == s
  {
  }
}

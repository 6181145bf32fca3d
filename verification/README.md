# TalkingTrail mobile app: a Dafny model of its logic

TalkingTrail is a React Native app for audio-guided walking trails. Each
project (a trail site) is a folder in a public storage bucket. The folder
holds a `project.json` that lists trails, each trail's attractions, and the
attractions' images and audio. This project models the app's logic over that
data and proves properties of it:

- **the app-wide audio session** (`AudioProvider`). It holds one optional
  sound and publishes `isPlaying`, `audioUri`, `position` and `duration` to
  every screen. Its operations are the status callback, `unload`,
  `playAudio`, `play`, `pause`, `seekTo`, `stop`, `forward` and `backward`.
- **the two players.** The global player bar shows the session. The
  attraction screen (`TalkingDetails`) has a player of its own, which keeps
  the position as a fraction of the track and the duration in seconds.
- **the screens' derivations:**
  - The home screen: project addresses, the in-order fetch of the fixed
    project list, card titles, card images and talking-point counts.
  - The details screen: the offline download of one attraction's files.
    This covers the file list, file names, album choice, the recorded
    download and the alerts. It also covers the "NN TALKING POINT" labels.
  - The map screen: the loading of the first trail, the region fitted
    around its attractions, the zoom buttons and the marker images.

Everything is an immutable datatype with pure transition functions, plus four
methods: the home screen's fetch and its refresh, the download loop and the
download handler. The fetch and the download loop carry the loops.

- **Sound.** The expo-av `Sound` is an abstract record `Media.Sound` of
  `loaded`, `playing`, `positionMillis` and `durationMillis`. Its
  `getStatusAsync` view is `Media.Status`.
- **The environment as parameters.** Whatever comes from outside is a
  parameter: a fetch result, a load outcome, the outcome of one file's
  download-and-save attempt, and a thrown error's message.
- **Live resources.** The session carries a `live` set of the
  sound ids the media layer still holds loaded. This lets "at most one
  resource is open" be stated and proved.

JavaScript semantics are written out where they matter:

- `x || d` treats 0 as missing (`Js.OrInt`). So a zero duration reads as 1
  in `(dur || 1)`.
- `!name` also rejects the empty string (`Js.Truthy`).
- `%` on numbers truncates toward zero (`TalkingDetails.JsRem`).
- `split('/').pop() || 'unknown'` is `DetailsScreen.FileName`.
- The regular expression `(?:^|\s)\S` is `HomeScreen.WordStart`.

Where the code does something a reader might not expect, the model follows
the code:

- The session has no guard against stale completions. Every operation is one
  atomic step.
- `playAudio` always unloads and restarts, even for the uri already playing.
  `play` only resumes.
- A failed `playAudio` load is only logged. The session is left publishing
  the new uri with `isPlaying` true and no sound. It is not reset to idle.
  See `AudioSession.FailedLoadKeepsPlayingFlag`.
- The map screen computes `Object.keys(data.Trails)` before its own
  `data.Trails` check. A document without `Trails` therefore throws there.
  The data is kept and the error message is set (`MapScreen.Load`).
- The details screen builds media addresses from the project name unchanged.
  The home and map screens replace whitespace with `_`.

## Model

| member | source | states |
|---|---|---|
| AudioSession.OnStatus | context/AudioContext.tsx:31-41 | a loaded status sets position, duration and isPlaying to the status's own values, with missing fields reading as 0, 0 and false; an unloaded status zeroes all three; the sound, uri and open resources are untouched |
| AudioSession.InitialIdle | context/AudioContext.tsx:23-27 | the session starts idle with no resource open, and stopping or unloading it then changes nothing |
| AudioSession.OnStatusIdempotent | context/AudioContext.tsx:31-41 | delivering the same status twice has the effect of delivering it once |
| AudioSession.SyncMirrors | context/AudioContext.tsx:31-41 | after a status tick for a loaded sound, the published telemetry equals that sound's own position, duration and playing state |
| AudioSession.Unload | context/AudioContext.tsx:49-58 | with a sound held, the session ends idle (no sound, no uri, 0, 0, not playing) and that sound's resource is released; with none, nothing changes |
| AudioSession.UnloadReleases | context/AudioContext.tsx:49-58 | unloading keeps at most one resource open, leaves none open when a sound was held, and a second unload changes nothing |
| AudioSession.PlayAudio | context/AudioContext.tsx:60-91 | the old sound is released first and the uri is published; on success the new sound is the only added resource and a loaded one is mirrored; a failed load leaves no sound, zeroed telemetry and the playing flag raised; one open resource stays one |
| AudioSession.PlayAudioRestarts | context/AudioContext.tsx:60-83 | choosing a track, even the current one, restarts from the fresh sound's position 0, playing, with exactly that sound held |
| AudioSession.FailedLoadKeepsPlayingFlag | context/AudioContext.tsx:66-90 | after a failed load the session claims to play the new uri while holding no sound, so it is not idle |
| AudioSession.PlayAudioTwiceOneResource | context/AudioContext.tsx:60-76 | two track choices in a row leave exactly one resource open, the second sound's |
| AudioSession.Play | context/AudioContext.tsx:94-101 | only the playing flag of the held sound can change, and it ends up set exactly when the sound was playing or is loaded; nothing else in the session changes |
| AudioSession.Pause | context/AudioContext.tsx:103-110 | only the playing flag of the held sound can change, and it ends up set exactly when the sound was playing and is not loaded; nothing else changes |
| AudioSession.PauseUndoesPlay | context/AudioContext.tsx:94-110 | pausing right after resuming a loaded, paused sound restores the session |
| AudioSession.PlayUndoesPause | context/AudioContext.tsx:94-110 | resuming right after pausing a loaded, playing sound restores the session |
| AudioSession.SeekTo | context/AudioContext.tsx:112-117 | acts only with a sound and a positive duration; the new position always lies in [0, duration], is the requested one inside that range and the nearer end outside it; nothing else changes |
| AudioSession.SeekToPublished | context/AudioContext.tsx:112-117 | a seek inside a mirrored track is the position the next status tick publishes |
| AudioSession.Stop | context/AudioContext.tsx:119-129 | whether or not a sound was held, the session ends idle, the held resource is released, and no resource stays open |
| AudioSession.StopIdempotent | context/AudioContext.tsx:119-129 | stopping twice gives the same session as stopping once |
| AudioSession.Forward | context/AudioContext.tsx:132-140 | without a loaded sound nothing changes; otherwise only the sound's position moves: by exactly 10 000 ms when that fits, and onto the duration (0 when unknown) when the skip would pass it |
| AudioSession.Backward | context/AudioContext.tsx:142-150 | without a loaded sound nothing changes; otherwise only the sound's position moves: back by exactly 10 000 ms when that fits, and onto 0 when the position is under 10 000 ms |
| AudioSession.SkipsStayInTrack | context/AudioContext.tsx:132-150 | after a skip and a status tick, the published position is never past the published duration going forward and never negative going back |
| AudioSession.TransportKeepsOneResource | context/AudioContext.tsx:94-150 | play, pause, seek, forward, backward, stop and the status callback all keep at most one resource open |
| Media.ForwardTarget | context/AudioContext.tsx:136 | the forward target never passes the reported duration nor the position plus 10 000 ms, and is one of the two, so it is their minimum |
| Media.BackwardTarget | context/AudioContext.tsx:146 | the backward target is never below 0 nor below the position minus 10 000 ms, and is one of the two, so it is their maximum |
| Media.Forward | components/TalkingDetails/TalkingDetails.tsx:107-118 | an unloaded sound is left alone; on a loaded one only the position moves: by exactly 10 000 ms when that fits, and onto the duration (0 when unknown) when the skip would pass it |
| Media.Backward | components/TalkingDetails/TalkingDetails.tsx:120-128 | an unloaded sound is left alone; on a loaded one only the position moves: back by exactly 10 000 ms when that fits, and onto 0 when the position is under 10 000 ms |
| Media.BackwardUndoesForward | components/TalkingDetails/TalkingDetails.tsx:107-128 | skipping back after a forward skip that did not hit the end returns to the same sound |
| Media.ForwardUndoesBackward | components/TalkingDetails/TalkingDetails.tsx:107-128 | skipping forward after a backward skip that did not hit the start returns to the same sound |
| GlobalPlayer.HiddenWithoutUri | components/GlobalAudioPlayer.tsx:22 | the bar shows exactly when a non-empty uri is published, so an idle session shows no bar |
| GlobalPlayer.NormalizedPosition | components/GlobalAudioPlayer.tsx:24 | the slider value is 0 for an unknown duration, lies in [0, 1] for a position inside the track, and times the duration gives back the position |
| GlobalPlayer.SliderSeekTarget | components/GlobalAudioPlayer.tsx:60 | a slider value in [0, 1] seeks inside [0, duration], and dividing the target by the duration gives back the slider value |
| GlobalPlayer.FormatMillisMeaning | components/GlobalAudioPlayer.tsx:26-32 | "0:00" for non-positive times; otherwise the text reads back as minutes and a two-character seconds field below 60 whose total is the elapsed whole seconds |
| GlobalPlayer.MainButtonToggles | components/GlobalAudioPlayer.tsx:40 | when the telemetry mirrors a loaded sound, the button flips whether it plays, and the next status tick shows the flip |
| Clock.TwoDigitSeconds | components/GlobalAudioPlayer.tsx:31 | the zero-padded seconds field of a value below 60 is exactly two decimal digits that read back as the value |
| Clock.RenderParse | components/TalkingDetails/TalkingDetails.tsx:104 | a clock text built from minutes and seconds below 60 parses back to the same two numbers, with the ':' third from the end |
| TalkingDetails.LoadAudio | components/TalkingDetails/TalkingDetails.tsx:36-55 | a failed load changes nothing; a created sound is kept, with duration in seconds equal to its milliseconds over 1000 when loaded and 0 otherwise |
| TalkingDetails.ControlsInertBeforeLoad | components/TalkingDetails/TalkingDetails.tsx:31-34 | before the screen's sound exists, the play/pause button, the skips and the seeks all leave the player unchanged |
| TalkingDetails.UpdateAudioPosition | components/TalkingDetails/TalkingDetails.tsx:66-70 | only the position changes, and only for a loaded status; it times (dur or 1) is the status position, and it lies in [0, 1] for a position inside the track |
| TalkingDetails.ElapsedSecondsMatchSound | components/TalkingDetails/TalkingDetails.tsx:194 | once the load and a status tick are seen, the elapsed time shown (fraction times seconds) is the sound's own position in seconds |
| TalkingDetails.PlaySound | components/TalkingDetails/TalkingDetails.tsx:72-80 | a loaded, paused sound is started and the flag raised; otherwise nothing changes |
| TalkingDetails.PauseSound | components/TalkingDetails/TalkingDetails.tsx:82-90 | a loaded, playing sound is paused and the flag lowered; otherwise nothing changes |
| TalkingDetails.MainButtonToggles | components/TalkingDetails/TalkingDetails.tsx:203 | while the flag agrees with a loaded sound, the button flips both, and a second press restores the player |
| TalkingDetails.SliderTarget | components/TalkingDetails/TalkingDetails.tsx:92-99 | a slider value in [0, 1] seeks inside the track, and normalising the target the way the status callback does gives the value back |
| TalkingDetails.Forward | components/TalkingDetails/TalkingDetails.tsx:107-118 | without a loaded sound nothing changes; otherwise only the sound's position moves: by exactly 10 000 ms when that fits, and onto the duration (0 when unknown) when the skip would pass it |
| TalkingDetails.Backward | components/TalkingDetails/TalkingDetails.tsx:120-128 | without a loaded sound nothing changes; otherwise only the sound's position moves: back by exactly 10 000 ms when that fits, and onto 0 when the position is under 10 000 ms |
| TalkingDetails.SeekToBeginning | components/TalkingDetails/TalkingDetails.tsx:130-134 | any held sound, loaded or not, is moved to 0; nothing else changes |
| TalkingDetails.SeekToEnd | components/TalkingDetails/TalkingDetails.tsx:136-143 | a loaded sound is moved to its duration (0 when unknown); otherwise nothing changes |
| TalkingDetails.SkipsSaturateAtEnds | components/TalkingDetails/TalkingDetails.tsx:107-143 | skipping forward from the end or back from the beginning leaves the player unchanged |
| TalkingDetails.FormatSecondsMeaning | components/TalkingDetails/TalkingDetails.tsx:101-105 | for a non-negative time the text reads back as minutes and seconds below 60, whose total is the whole seconds of the time, with a two-character seconds field |
| TalkingDetails.WebsiteUrl | components/TalkingDetails/TalkingDetails.tsx:145-149 | the address is the site followed by the attraction's slug |
| TalkingDetails.SlugShape | components/TalkingDetails/TalkingDetails.tsx:146 | the slug is the name's non-whitespace characters in order, lower-cased; it has no whitespace and no upper-case letter, has one character per non-whitespace character of the name, and is its own slug |
| Content.Folder | Screens/HomeScreen/HomeScreen.tsx:63-65 | the folder has the name's length and no whitespace, and differs from the name only by '_' where the name has whitespace |
| Content.FolderOfPlainName | Screens/HomeScreen/HomeScreen.tsx:63-65 | a name without whitespace is its own folder |
| Content.ProjectUrl | Screens/HomeScreen/HomeScreen.tsx:62-67 | the address starts at the storage base, ends in "/project.json", and holds the folder in between |
| Content.ProjectUrlInjective | Screens/HomeScreen/HomeScreen.tsx:62-67 | two names request the same address exactly when their folders are equal |
| HomeScreen.FetchPlaceData | Screens/HomeScreen/HomeScreen.tsx:32-79 | nothing is published exactly when some project's fetch fails; otherwise one place per project, in list order, each with its own name and document |
| HomeScreen.RefreshPlaces | Screens/HomeScreen/HomeScreen.tsx:32-79 | if any listed project fails to arrive the cards stay as they were; otherwise there is one card per listed project, in the listed order, each with its own document |
| HomeScreen.DisplayTitleShape | Screens/HomeScreen/HomeScreen.tsx:127-130 | the title is the name with '_' read as a space, letter for letter up to case, so it has the name's length and no '_'; only word starts may be upper-case, no word start is lower-case, and the title is its own title |
| HomeScreen.ImageUri | Screens/HomeScreen/HomeScreen.tsx:111-120 | an image address exists exactly when the document has Images; it is the storage base, the project's folder, '/' and the first image ("undefined" for an empty list), with exactly that length |
| HomeScreen.TalkingPointCounts | Screens/HomeScreen/HomeScreen.tsx:132-138 | one count per trail, in order, each the number of that trail's attraction keys; none without Trails |
| HomeScreen.CountIsKeySetSize | Screens/HomeScreen/HomeScreen.tsx:136 | with distinct keys, a trail's count is the number of distinct attraction names |
| HomeScreen.Select | Screens/HomeScreen/HomeScreen.tsx:102-107 | pressing a card stores its name in the trail context and opens the details screen with that same name |
| DetailsScreen.FileUris | Screens/DetailsScreen/DetailsScreen.tsx:69-73 | every image address of an array Images in order, then the audio address when Audio is truthy; the count is their sum, and every address lies under the project |
| DetailsScreen.FileName | Screens/DetailsScreen/DetailsScreen.tsx:77 | the file name is never empty and has no '/'; it is "unknown" exactly when the address is empty or ends in '/', and otherwise the text after the address's last '/' (the whole address when there is none) |
| DetailsScreen.FileNameOfAsset | Screens/DetailsScreen/DetailsScreen.tsx:71-77 | a media file's saved name depends only on its path, not on the project |
| DetailsScreen.AlbumFor | Screens/DetailsScreen/DetailsScreen.tsx:91 | the album is "TalkingTrail" exactly when the address contains "Images", and "TalkingTrailMp3" otherwise |
| DetailsScreen.ImagePathsGoToImageAlbum | Screens/DetailsScreen/DetailsScreen.tsx:71-91 | a path under "Images" goes to the image album whatever the project is called |
| DetailsScreen.SaveFile | Screens/DetailsScreen/DetailsScreen.tsx:80-104 | a file fails exactly when some call in its per-file try throws (download, file info, permission, asset or album creation); otherwise it is not found exactly when the file does not exist, refused permission exactly when it exists and permission is denied, and saved exactly when it exists and permission is granted, into the album its address selects |
| DetailsScreen.Record | Screens/DetailsScreen/DetailsScreen.tsx:107-115 | one entry with the first file (or none) is appended and earlier entries are kept; the attraction is marked downloaded and every other key keeps its value |
| DetailsScreen.DownloadFiles | Screens/DetailsScreen/DetailsScreen.tsx:76-105 | one result per file in order, each that file's own outcome; a failing file does not stop the loop, and there is exactly one failure alert per file whose try threw |
| DetailsScreen.HandleDownload | Screens/DetailsScreen/DetailsScreen.tsx:63-122 | without a name only the name alert is raised and nothing is recorded; otherwise every file is tried in order with one failure alert per file whose try threw, then the download is recorded and success reported last |
| DetailsScreen.TalkingPointLabelShape | Screens/DetailsScreen/DetailsScreen.tsx:207-214 | the shown label is the recorded name with a leading "0" for the first nine attractions; its number has at least two digits and reads back as index + 1 |
| MapScreen.Latitudes | Screens/MapScreen/MapScreen.tsx:79-81 | exactly the latitudes in [-90, 90] are kept, each from some attraction |
| MapScreen.Longitudes | Screens/MapScreen/MapScreen.tsx:82-84 | exactly the longitudes in [-180, 180] are kept, each from some attraction, independently of the latitudes |
| MapScreen.Min | Screens/MapScreen/MapScreen.tsx:87 | the result is an element of the list and no element is smaller |
| MapScreen.Max | Screens/MapScreen/MapScreen.tsx:88 | the result is an element of the list and no element is larger |
| MapScreen.FitCoversAll | Screens/MapScreen/MapScreen.tsx:86-97 | the centre lies between the extremes, each delta is at least 0.1 and larger than its span, and every kept coordinate lies strictly inside the window |
| MapScreen.UpdateRegion | Screens/MapScreen/MapScreen.tsx:75-102 | only the first trail counts; the region is refitted exactly when both filtered lists are non-empty and kept otherwise |
| MapScreen.FittedRegionShowsAttractions | Screens/MapScreen/MapScreen.tsx:75-102 | every first-trail attraction with an in-range position lies inside the fitted region |
| MapScreen.UpdateRegionIdempotent | Screens/MapScreen/MapScreen.tsx:75-102 | refitting the region with the same trails a second time changes nothing |
| MapScreen.Load | Screens/MapScreen/MapScreen.tsx:52-73 | a falsy name fails with "Short name is missing" before any request; a failed request keeps the data and region and sets the error to "Network response was not ok" for a non-ok response or to the thrown message; a document is kept, and refits the region when it has Trails or sets the thrown error when it does not |
| MapScreen.LoadIdempotent | Screens/MapScreen/MapScreen.tsx:52-73 | running the load effect again with the same name and the same answers leaves the screen as the first run left it |
| MapScreen.MapOfSelectedCard | Screens/HomeScreen/HomeScreen.tsx:102-107 | after pressing a home card, the map requests the address the card was fetched from, so when storage answers the same it holds that card's document and fits its region from it; an empty name reports the missing name |
| MapScreen.ZoomIn | Screens/MapScreen/MapScreen.tsx:107-117 | with a region and a mounted map, the centre is kept and each delta drops by exactly 0.02 when that stays at or above 0.01 and is 0.01 otherwise, never growing; otherwise nothing changes |
| MapScreen.ZoomOut | Screens/MapScreen/MapScreen.tsx:119-129 | with a region and a mounted map, the centre is kept and each delta grows by exactly 0.02; otherwise nothing changes |
| MapScreen.ZoomInUndoesZoomOut | Screens/MapScreen/MapScreen.tsx:107-129 | zooming in after zooming out restores any region whose deltas are at least 0.01 |
| MapScreen.MarkerImageUrl | Screens/MapScreen/MapScreen.tsx:172-182 | an image exists exactly when Images is a non-empty array; an "http" first image is used as is; any other is the storage base, the project's folder ("undefined" without a name), "/Images/" and the image, with exactly that length |
| MapScreen.MarkerMatchesCard | Screens/MapScreen/MapScreen.tsx:172-182 | a stored marker image is exactly the card image of a project whose first image is "Images/" followed by the marker's image, so the map and home screens use the same folder for a name |

## Left out

- Network requests, `response.json()`, and the file-system and media-library calls (download, file info, permission, asset and album creation). These are I/O. Their results are parameters: `fetch`, `LoadOutcome`, `Attempt` and `Fetch`.
- The details screen's own fetch of the project document (`fetchProjectDetails`) and everything it renders. These are I/O and layout.
- The trail context's AsyncStorage persistence, the trail-details, about-us and splash screens, and the app layouts. These are I/O, timers and navigation wiring.
- All JSX rendering, styles and responsive-size helpers. They are layout with no behaviour to state.
- Interleaving of the asynchronous audio operations. The provider has no concurrency guard, so each operation is one atomic step.
- The provider's unmount cleanup and the attraction screen's cleanup. Both call code captured when the screen was first drawn, when no sound was held, so they release nothing. They are not modelled.
- Floating-point rounding. Coordinates, deltas, normalised positions and the attraction screen's seconds are exact reals.
- AudioSession.SeekTo: takes integer milliseconds. The global bar's slider produces a fractional target (`val * duration`), and its effect is stated on the target only (`GlobalPlayer.SliderSeekTarget`).
- TalkingDetails.SliderTarget: states the target only. Applying a fractional position to the integer-millisecond sound is not modelled.
- Text.IsSpace: covers ASCII whitespace only. JavaScript's `\s`, `toLowerCase` and `toUpperCase` also act on other Unicode characters.
- MapScreen.MarkerImageUrl: a truthy `Images` that is not an array gives no image here. JavaScript would index into it.
- HomeScreen.ImageUri: `Content.Project` holds `Images` as an optional list of strings, so a truthy `Images` that is not an array (HomeScreen.tsx:114-118 would index into it) is not represented.
- MapScreen.Load: a trail entry that is `null`, or a trail without `Attractions`, is not represented by the data model.
- Documents that are JSON `null`, and duplicate keys in JSON objects, are not represented.
- The download loop's outer error handler ("Failed to download and save files"). Every per-file error is caught inside the loop, and the steps after the loop cannot throw, so this handler is never reached.
- The media layer's own behaviour beyond the record fields: `stopAsync` is taken to rewind and halt, and `unloadAsync` to release the resource.
- AudioSession.PlayAudio: every media call other than `createAsync` is taken to succeed. Two other calls sit in the same `try` (AudioContext.tsx:61-90) and are not modelled failing. If the old sound's `unloadAsync` (:63) rejected, the track switch would be abandoned: the old sound stays held and the new uri is not published. If `getStatusAsync` (:78) rejected, the new sound would stay held with telemetry 0, 0 and playing, and no status callback registered.
- AudioSession.Play, Pause, SeekTo, Forward, Backward and Stop: their media calls (AudioContext.tsx:94-150) are taken to succeed. These handlers have no `catch`, so a rejection would surface as an unhandled promise rejection after whatever state updates had already run.

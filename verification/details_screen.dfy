/** The project details screen: the download of one attraction's media for
    offline use, and the "NN TALKING POINT" labels. The file system and media
    library calls are the environment; what is modelled is the list of files,
    where each goes, and what the screen records afterwards. */
module DetailsScreen {
  import opened Js
  import opened Text
  import opened Content

  /** An entry of the trail context's `downloadedTrails`. `image` is
      `undefined` when the attraction had no files. */
  datatype DownloadedTrail = DownloadedTrail(name: string, talkingPoint: string, image: Option<string>)

  /** What the screen keeps about downloads. */
  datatype Downloads = Downloads(trails: seq<DownloadedTrail>, status: map<string, bool>)

  datatype Alert = Alert(title: string, message: string)

  const MissingNameAlert: Alert := Alert("Error", "shortName is not defined")
  const FileFailedAlert: Alert := Alert("Error", "Failed to download file")
  const SuccessAlert: Alert := Alert("Success", "Files downloaded and saved to media library successfully")

  /** How the environment answers for one file: some call inside the
      per-file `try` throws (the download, the file-info query, the
      permission request, or the asset or album creation), or none does and
      the file is (or is not) found and the media-library permission is (or
      is not) granted. */
  datatype Attempt = Threw | Completed(fileExists: bool, granted: bool)

  /** What became of one file. */
  datatype Saved = SavedTo(album: string) | NotFound | PermissionDenied | Failed

  /** One file of the loop; it is written to the documents directory under `FileName(uri)`. */
  datatype FileResult = FileResult(uri: string, saved: Saved)

  /** A media file's address; this screen uses the name unchanged. */
  function AssetUrl(shortName: string, path: string): string {
    StorageBase + shortName + "/" + path
  }

  /** The files to fetch: every image of an array `Images` in order, then the
      audio when it is truthy. A missing or non-array `Images` adds nothing. */
  function FileUris(shortName: string, attraction: Attraction): (uris: seq<string>)
    ensures var images := if attraction.images.Array? then attraction.images.items else [];
            |uris| == |images| + (if Truthy(attraction.audio) then 1 else 0) &&
            (forall i :: 0 <= i < |images| ==> uris[i] == AssetUrl(shortName, images[i])) &&
            (Truthy(attraction.audio) ==> uris[|uris| - 1] == AssetUrl(shortName, attraction.audio.value))
    ensures forall i :: 0 <= i < |uris| ==> StartsWith(uris[i], StorageBase + shortName + "/")
  {
    var images := if attraction.images.Array? then attraction.images.items else [];
    var imageUris := seq(|images|, i requires 0 <= i < |images| => AssetUrl(shortName, images[i]));
    var audioUris := if Truthy(attraction.audio) then [AssetUrl(shortName, attraction.audio.value)] else [];
    assert forall i :: 0 <= i < |images| ==> (imageUris + audioUris)[i] == imageUris[i];
    imageUris + audioUris
  }

  /** `uri.split('/').pop() || 'unknown'`: the text after the last '/', or
      "unknown" when that is empty. Never contains '/', never empty. */
  function FileName(uri: string): (name: string)
    ensures '/' !in name && |name| > 0
    ensures |uri| == 0 || uri[|uri| - 1] == '/' ==> name == "unknown"
    ensures |uri| > 0 && uri[|uri| - 1] != '/' ==>
              EndsWith(uri, name) && (|name| == |uri| || uri[|uri| - |name| - 1] == '/')
  {
    var last := LastSegment(uri, '/');
    if last == "" then "unknown" else last
  }

  /** The saved file name depends only on the asset's path, not on the project. */
  lemma FileNameOfAsset(shortName: string, path: string)
    ensures LastSegment(AssetUrl(shortName, path), '/') == LastSegment(path, '/')
    ensures FileName(AssetUrl(shortName, path)) == FileName(path)
  {
    assert AssetUrl(shortName, path) == StorageBase + shortName + ['/'] + path;
    LastSegmentAfterSep(StorageBase + shortName, path, '/');
  }

  /** The album: "TalkingTrail" for an address containing "Images",
      "TalkingTrailMp3" for every other one. */
  function AlbumFor(uri: string): (album: string)
    ensures album == "TalkingTrail" || album == "TalkingTrailMp3"
    ensures album == "TalkingTrail" <==> Contains(uri, "Images")
  {
    if Contains(uri, "Images") then "TalkingTrail" else "TalkingTrailMp3"
  }

  /** An image stored under an "Images" path goes to the image album,
      whatever the project is called. */
  lemma ImagePathsGoToImageAlbum(shortName: string, path: string)
    requires Contains(path, "Images")
    ensures AlbumFor(AssetUrl(shortName, path)) == "TalkingTrail"
  {
    var k :| 0 <= k <= |path| && OccursAt(path, "Images", k);
    var prefix := StorageBase + shortName + "/";
    var uri := AssetUrl(shortName, path);
    assert uri == prefix + path;
    assert uri[|prefix| + k..|prefix| + k + 6] == path[k..k + 6];
    assert OccursAt(uri, "Images", |prefix| + k);
  }

  /** The per-file step of the loop: the download and save outcome, with the
      album chosen only once the file is there and permission is granted. */
  function SaveFile(uri: string, attempt: Attempt): (r: FileResult)
    ensures r.uri == uri
    ensures r.saved.Failed? <==> attempt.Threw?
    ensures r.saved.SavedTo? <==> attempt == Completed(true, true)
    ensures r.saved.NotFound? <==> attempt.Completed? && !attempt.fileExists
    ensures r.saved.PermissionDenied? <==> attempt == Completed(true, false)
    ensures r.saved.SavedTo? ==> r.saved.album == AlbumFor(uri)
  {
    var saved :=
      match attempt
      case Threw => Failed
      case Completed(fileExists, granted) =>
        if !fileExists then NotFound
        else if !granted then PermissionDenied
        else SavedTo(AlbumFor(uri));
    FileResult(uri, saved)
  }

  /** Number of files whose `try` threw. */
  function CountFailed(results: seq<FileResult>): nat {
    if |results| == 0 then 0
    else CountFailed(results[..|results| - 1]) + (if results[|results| - 1].saved.Failed? then 1 else 0)
  }

  lemma CountFailedStep(results: seq<FileResult>, next: FileResult)
    ensures CountFailed(results + [next]) == CountFailed(results) + (if next.saved.Failed? then 1 else 0)
  {
    assert (results + [next])[..|results|] == results;
  }

  /** What the screen records once the loop is over: the trail appended to
      `downloadedTrails` and the attraction marked downloaded. */
  function Record(d: Downloads, shortName: string, talkingPoint: string, attractionKey: string,
                  uris: seq<string>): (r: Downloads)
    ensures |r.trails| == |d.trails| + 1 && r.trails[..|d.trails|] == d.trails
    ensures r.trails[|d.trails|] ==
              DownloadedTrail(shortName, talkingPoint, if |uris| > 0 then Some(uris[0]) else None)
    ensures r.status.Keys == d.status.Keys + {attractionKey}
    ensures attractionKey in r.status && r.status[attractionKey]
    ensures forall k :: k in d.status && k != attractionKey ==> r.status[k] == d.status[k]
  {
    var image := if |uris| > 0 then Some(uris[0]) else None;
    Downloads(d.trails + [DownloadedTrail(shortName, talkingPoint, image)], d.status[attractionKey := true])
  }

  /** What the download loop leaves behind: one result per file, in order,
      and one failure alert per download that threw. */
  predicate LoopOutcome(uris: seq<string>, attempt: string -> Attempt,
                        results: seq<FileResult>, alerts: seq<Alert>) {
    |results| == |uris| &&
    (forall i :: 0 <= i < |uris| ==> results[i] == SaveFile(uris[i], attempt(uris[i]))) &&
    |alerts| == CountFailed(results) &&
    (forall i :: 0 <= i < |alerts| ==> alerts[i] == FileFailedAlert)
  }

  /** The download loop: every file is tried in order, and a file whose
      download throws raises an alert while the loop goes on. */
  method DownloadFiles(uris: seq<string>, attempt: string -> Attempt)
    returns (results: seq<FileResult>, alerts: seq<Alert>)
    ensures LoopOutcome(uris, attempt, results, alerts)
  {
    results := [];
    alerts := [];
    var i := 0;
    while i < |uris|
      invariant 0 <= i <= |uris|
      invariant |results| == i
      invariant forall j :: 0 <= j < i ==> results[j] == SaveFile(uris[j], attempt(uris[j]))
      invariant |alerts| == CountFailed(results)
      invariant forall j :: 0 <= j < |alerts| ==> alerts[j] == FileFailedAlert
    {
      var result := SaveFile(uris[i], attempt(uris[i]));
      CountFailedStep(results, result);
      results := results + [result];
      if result.saved.Failed? {
        alerts := alerts + [FileFailedAlert];
      }
      i := i + 1;
    }
  }

  /** `handleDownload`. Without a truthy project name it only alerts.
      Otherwise it runs the download loop over the attraction's files, then
      records the download and reports success, whatever happened to the
      individual files. */
  method HandleDownload(shortName: Option<string>, attraction: Attraction, talkingPoint: string,
                        attractionKey: string, d: Downloads, attempt: string -> Attempt)
    returns (r: Downloads, results: seq<FileResult>, alerts: seq<Alert>)
    ensures !Truthy(shortName) ==> r == d && results == [] && alerts == [MissingNameAlert]
    ensures Truthy(shortName) ==>
              var uris := FileUris(shortName.value, attraction);
              r == Record(d, shortName.value, talkingPoint, attractionKey, uris) &&
              |alerts| > 0 && alerts[|alerts| - 1] == SuccessAlert &&
              LoopOutcome(uris, attempt, results, alerts[..|alerts| - 1])
  {
    if !Truthy(shortName) {
      return d, [], [MissingNameAlert];
    }
    var uris := FileUris(shortName.value, attraction);
    var failures;
    results, failures := DownloadFiles(uris, attempt);
    r := Record(d, shortName.value, talkingPoint, attractionKey, uris);
    alerts := failures + [SuccessAlert];
    assert alerts[..|alerts| - 1] == failures;
  }

  /** The name recorded for the attraction at `index`: `${index + 1} TALKING POINT`. */
  function TalkingPointName(index: nat): string {
    NatToString(index + 1) + " TALKING POINT"
  }

  /** The label shown for the attraction at `index`: the number padded to two digits. */
  function TalkingPointLabel(index: nat): string {
    (if index + 1 < 10 then "0" else "") + NatToString(index + 1) + " TALKING POINT"
  }

  /** The shown label is the recorded name with a leading "0" for the first
      nine attractions; its number has at least two digits and reads back as
      `index + 1`. */
  lemma TalkingPointLabelShape(index: nat)
    ensures TalkingPointLabel(index) ==
              (if index < 9 then "0" + TalkingPointName(index) else TalkingPointName(index))
    ensures var number := (if index + 1 < 10 then "0" else "") + NatToString(index + 1);
            |number| >= 2 && AllDigits(number) && DigitsValue(number) == index + 1
  {
    DigitsRoundTrip(index + 1);
    if index + 1 < 10 {
      LeadingZero(NatToString(index + 1));
    } else {
      assert "" + NatToString(index + 1) == NatToString(index + 1);
    }
  }
}

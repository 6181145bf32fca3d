/** The map screen: the visible region fitted around the first trail's
    attractions, the zoom buttons, and each marker's image. Coordinates and
    deltas are exact reals here. */
module MapScreen {
  import opened Js
  import opened Text
  import opened Content
  import HomeScreen

  /** The zoom buttons' step, in degrees. */
  const ZoomStep: real := 0.02

  /** The smallest delta zooming in can reach. */
  const MinDelta: real := 0.01

  /** Margin added to each span, and the smallest fitted delta. */
  const Padding: real := 0.1

  const MissingNameError: string := "Short name is missing"
  const NotOkError: string := "Network response was not ok"

  /** A map region: centre and the visible span in each axis. */
  datatype Region = Region(latitude: real, longitude: real, latitudeDelta: real, longitudeDelta: real)

  /** The latitudes in [-90, 90], in order. */
  function Latitudes(attractions: seq<Attraction>): (lats: seq<real>)
    ensures forall x :: x in lats ==> -90.0 <= x <= 90.0
    ensures forall i :: 0 <= i < |attractions| && -90.0 <= attractions[i].latitude <= 90.0 ==>
              attractions[i].latitude in lats
    ensures forall x :: x in lats ==> exists i :: 0 <= i < |attractions| && attractions[i].latitude == x
  {
    if |attractions| == 0 then []
    else
      var rest := Latitudes(attractions[1..]);
      var lat := attractions[0].latitude;
      assert forall i :: 1 <= i < |attractions| ==> attractions[i] == attractions[1..][i - 1];
      if -90.0 <= lat <= 90.0 then [lat] + rest else rest
  }

  /** The longitudes in [-180, 180], in order, filtered independently of the latitudes. */
  function Longitudes(attractions: seq<Attraction>): (lons: seq<real>)
    ensures forall x :: x in lons ==> -180.0 <= x <= 180.0
    ensures forall i :: 0 <= i < |attractions| && -180.0 <= attractions[i].longitude <= 180.0 ==>
              attractions[i].longitude in lons
    ensures forall x :: x in lons ==> exists i :: 0 <= i < |attractions| && attractions[i].longitude == x
  {
    if |attractions| == 0 then []
    else
      var rest := Longitudes(attractions[1..]);
      var lon := attractions[0].longitude;
      assert forall i :: 1 <= i < |attractions| ==> attractions[i] == attractions[1..][i - 1];
      if -180.0 <= lon <= 180.0 then [lon] + rest else rest
  }

  /** `Math.min(...xs)` of a non-empty list. */
  function Min(xs: seq<real>): (m: real)
    requires |xs| > 0
    ensures m in xs && forall x :: x in xs ==> m <= x
  {
    if |xs| == 1 then xs[0]
    else
      var rest := Min(xs[1..]);
      assert forall x :: x in xs ==> x == xs[0] || x in xs[1..];
      if xs[0] <= rest then xs[0] else rest
  }

  /** `Math.max(...xs)` of a non-empty list. */
  function Max(xs: seq<real>): (m: real)
    requires |xs| > 0
    ensures m in xs && forall x :: x in xs ==> x <= m
  {
    if |xs| == 1 then xs[0]
    else
      var rest := Max(xs[1..]);
      assert forall x :: x in xs ==> x == xs[0] || x in xs[1..];
      if xs[0] >= rest then xs[0] else rest
  }

  /** `Math.max(span + 0.1, 0.1)` */
  function PaddedDelta(low: real, high: real): real {
    var padded := high - low + Padding;
    if padded >= Padding then padded else Padding
  }

  /** The region fitted to non-empty coordinate lists: centred on the
      midpoint of the extremes, each delta the padded span. */
  function Fit(lats: seq<real>, lons: seq<real>): Region
    requires |lats| > 0 && |lons| > 0
  {
    var latMin := Min(lats);
    var latMax := Max(lats);
    var lonMin := Min(lons);
    var lonMax := Max(lons);
    Region((latMin + latMax) / 2.0, (lonMin + lonMax) / 2.0,
           PaddedDelta(latMin, latMax), PaddedDelta(lonMin, lonMax))
  }

  /** The fitted region contains every coordinate strictly inside its
      window, its centre lies between the extremes, and each delta is at
      least 0.1 and larger than the span it covers. */
  lemma FitCoversAll(lats: seq<real>, lons: seq<real>)
    requires |lats| > 0 && |lons| > 0
    ensures var r := Fit(lats, lons);
            Min(lats) <= r.latitude <= Max(lats) && Min(lons) <= r.longitude <= Max(lons) &&
            r.latitudeDelta >= Padding && r.latitudeDelta > Max(lats) - Min(lats) &&
            r.longitudeDelta >= Padding && r.longitudeDelta > Max(lons) - Min(lons) &&
            (forall x :: x in lats ==>
               r.latitude - r.latitudeDelta / 2.0 < x < r.latitude + r.latitudeDelta / 2.0) &&
            (forall y :: y in lons ==>
               r.longitude - r.longitudeDelta / 2.0 < y < r.longitude + r.longitudeDelta / 2.0)
  {
  }

  /** `updateRegion`: only the first trail's attractions count; the region
      is replaced only when both filtered lists are non-empty. */
  function UpdateRegion(current: Option<Region>, trails: Obj<Trail>): (r: Option<Region>)
    ensures |trails| == 0 ==> r == current
    ensures |trails| > 0 ==>
              var attractions := Values(trails[0].value.attractions);
              var lats := Latitudes(attractions);
              var lons := Longitudes(attractions);
              (|lats| > 0 && |lons| > 0 ==> r == Some(Fit(lats, lons))) &&
              (|lats| == 0 || |lons| == 0 ==> r == current)
  {
    if |trails| == 0 then current
    else
      var attractions := Values(trails[0].value.attractions);
      var lats := Latitudes(attractions);
      var lons := Longitudes(attractions);
      if |lats| > 0 && |lons| > 0 then Some(Fit(lats, lons)) else current
  }

  /** Every first-trail attraction with an in-range position is inside the
      fitted region. */
  lemma FittedRegionShowsAttractions(current: Option<Region>, trails: Obj<Trail>, i: int)
    requires |trails| > 0
    requires var attractions := Values(trails[0].value.attractions);
             0 <= i < |attractions| &&
             -90.0 <= attractions[i].latitude <= 90.0 && -180.0 <= attractions[i].longitude <= 180.0
    ensures var r := UpdateRegion(current, trails);
            var a := Values(trails[0].value.attractions)[i];
            r.Some? &&
            r.value.latitude - r.value.latitudeDelta / 2.0 < a.latitude < r.value.latitude + r.value.latitudeDelta / 2.0 &&
            r.value.longitude - r.value.longitudeDelta / 2.0 < a.longitude < r.value.longitude + r.value.longitudeDelta / 2.0
  {
    var attractions := Values(trails[0].value.attractions);
    var lats := Latitudes(attractions);
    var lons := Longitudes(attractions);
    assert attractions[i].latitude in lats;
    assert attractions[i].longitude in lons;
    FitCoversAll(lats, lons);
  }

  /** The response to the project request: it threw (fetch or JSON parse,
      with its message), was not ok, or gave a parsed document. */
  datatype Fetch = Threw(message: string) | NotOk | Body(data: Project)

  datatype MapState = MapState(trailData: Option<Project>, error: Option<string>, region: Option<Region>)

  /** The load effect. A falsy name fails with "Short name is missing"
      before any request; otherwise the whitespace-free project address is
      requested. A document without `Trails` makes `Object.keys` throw after
      the data is stored; that engine-specific message is `typeErrorMessage`. */
  function Load(s: MapState, shortName: Option<string>, fetch: string -> Fetch,
                typeErrorMessage: string): (r: MapState)
    ensures !Truthy(shortName) ==> r == s.(error := Some(MissingNameError))
    ensures Truthy(shortName) && fetch(ProjectUrl(shortName.value)).Body? ==>
              var data := fetch(ProjectUrl(shortName.value)).data;
              r.trailData == Some(data) &&
              (data.trails.None? ==> r.region == s.region && r.error == Some(typeErrorMessage)) &&
              (data.trails.Some? ==> r.region == UpdateRegion(s.region, data.trails.value) && r.error == s.error)
    ensures Truthy(shortName) && !fetch(ProjectUrl(shortName.value)).Body? ==>
              r.trailData == s.trailData && r.region == s.region && r.error.Some?
    ensures Truthy(shortName) && fetch(ProjectUrl(shortName.value)).NotOk? ==>
              r.error == Some(NotOkError)
    ensures Truthy(shortName) && fetch(ProjectUrl(shortName.value)).Threw? ==>
              r.error == Some(fetch(ProjectUrl(shortName.value)).message)
  {
    if !Truthy(shortName) then s.(error := Some(MissingNameError))
    else
      match fetch(ProjectUrl(shortName.value))
      case Threw(message) => s.(error := Some(message))
      case NotOk => s.(error := Some(NotOkError))
      case Body(data) =>
        match data.trails
        case None => s.(trailData := Some(data), error := Some(typeErrorMessage))
        case Some(trails) => s.(trailData := Some(data), region := UpdateRegion(s.region, trails))
  }

  /** Refitting with the same trails a second time changes nothing. */
  lemma UpdateRegionIdempotent(current: Option<Region>, trails: Obj<Trail>)
    ensures UpdateRegion(UpdateRegion(current, trails), trails) == UpdateRegion(current, trails)
  {
  }

  /** Loading again with the same answers leaves the screen as the first
      load left it: the effect can run twice without drifting. */
  lemma LoadIdempotent(s: MapState, shortName: Option<string>, fetch: string -> Fetch, typeErrorMessage: string)
    ensures Load(Load(s, shortName, fetch, typeErrorMessage), shortName, fetch, typeErrorMessage) ==
            Load(s, shortName, fetch, typeErrorMessage)
  {
    if Truthy(shortName) && fetch(ProjectUrl(shortName.value)).Body? {
      var data := fetch(ProjectUrl(shortName.value)).data;
      if data.trails.Some? {
        UpdateRegionIdempotent(s.region, data.trails.value);
      }
    }
  }

  /** Opening the map after pressing a home card requests the document the
      card was built from: when the storage answers as it did for the card,
      the map holds that document and fits its region from it. A card with
      an empty name reports the missing name instead. */
  lemma MapOfSelectedCard(place: HomeScreen.Place, s: MapState, fetch: string -> Fetch, typeErrorMessage: string)
    requires fetch(ProjectUrl(place.shortName)) == Body(place.data)
    ensures var r := Load(s, HomeScreen.Select(place).contextShortName, fetch, typeErrorMessage);
            (place.shortName == "" ==> r == s.(error := Some(MissingNameError))) &&
            (place.shortName != "" ==>
               r.trailData == Some(place.data) &&
               (place.data.trails.Some? ==> r.region == UpdateRegion(s.region, place.data.trails.value)))
  {
  }

  /** A marker's stored image and a home card's image share the project's
      folder: the marker for a first image `f` is the card image a project
      listing `Images/f` first would show. */
  lemma MarkerMatchesCard(shortName: string, images: seq<string>, trails: Option<Obj<Trail>>)
    requires |images| > 0 && !StartsWith(images[0], "http")
    ensures var card := HomeScreen.ImageUri(HomeScreen.Place(shortName, Project(Some(["Images/" + images[0]]), trails)));
            MarkerImageUrl(Some(shortName), Array(images)) == card
  {
    var prefix := StorageBase + Folder(shortName);
    assert prefix + "/Images/" + images[0] == prefix + "/" + ("Images/" + images[0]);
  }

  /** `zoomIn`: with a region and a mounted map, shrink both deltas by 0.02
      but not below 0.01, keeping the centre. */
  function ZoomIn(region: Option<Region>, mapReady: bool): (r: Option<Region>)
    ensures region.None? || !mapReady ==> r == region
    ensures region.Some? && mapReady ==>
              r.Some? &&
              r.value.latitude == region.value.latitude && r.value.longitude == region.value.longitude &&
              r.value.latitudeDelta >= MinDelta && r.value.longitudeDelta >= MinDelta &&
              (r.value.latitudeDelta == MinDelta || r.value.latitudeDelta == region.value.latitudeDelta - ZoomStep) &&
              (r.value.longitudeDelta == MinDelta || r.value.longitudeDelta == region.value.longitudeDelta - ZoomStep) &&
              (region.value.latitudeDelta >= MinDelta ==> r.value.latitudeDelta <= region.value.latitudeDelta) &&
              (region.value.longitudeDelta >= MinDelta ==> r.value.longitudeDelta <= region.value.longitudeDelta) &&
              (region.value.latitudeDelta - ZoomStep >= MinDelta ==>
                 r.value.latitudeDelta == region.value.latitudeDelta - ZoomStep) &&
              (region.value.longitudeDelta - ZoomStep >= MinDelta ==>
                 r.value.longitudeDelta == region.value.longitudeDelta - ZoomStep)
  {
    if region.Some? && mapReady then
      var g := region.value;
      var lat := if g.latitudeDelta - ZoomStep > MinDelta then g.latitudeDelta - ZoomStep else MinDelta;
      var lon := if g.longitudeDelta - ZoomStep > MinDelta then g.longitudeDelta - ZoomStep else MinDelta;
      Some(g.(latitudeDelta := lat, longitudeDelta := lon))
    else region
  }

  /** `zoomOut`: with a region and a mounted map, grow both deltas by exactly
      0.02, keeping the centre. */
  function ZoomOut(region: Option<Region>, mapReady: bool): (r: Option<Region>)
    ensures region.None? || !mapReady ==> r == region
    ensures region.Some? && mapReady ==>
              r.Some? &&
              r.value.latitude == region.value.latitude && r.value.longitude == region.value.longitude &&
              r.value.latitudeDelta == region.value.latitudeDelta + ZoomStep &&
              r.value.longitudeDelta == region.value.longitudeDelta + ZoomStep
  {
    if region.Some? && mapReady then
      var g := region.value;
      Some(g.(latitudeDelta := g.latitudeDelta + ZoomStep, longitudeDelta := g.longitudeDelta + ZoomStep))
    else region
  }

  /** Zooming in undoes zooming out on any region whose deltas are at least 0.01. */
  lemma ZoomInUndoesZoomOut(g: Region)
    requires g.latitudeDelta >= MinDelta && g.longitudeDelta >= MinDelta
    ensures ZoomIn(ZoomOut(Some(g), true), true) == Some(g)
  {
  }

  /** The marker image: the first image as-is when it starts with "http",
      otherwise under the project's `Images` folder; none without images. An
      absent name prints as "undefined". */
  function MarkerImageUrl(shortName: Option<string>, images: Images): (url: Option<string>)
    ensures url.Some? <==> images.Array? && |images.items| > 0
    ensures url.Some? && StartsWith(images.items[0], "http") ==> url.value == images.items[0]
    ensures url.Some? && !StartsWith(images.items[0], "http") ==>
              StartsWith(url.value, StorageBase) && EndsWith(url.value, "/Images/" + images.items[0])
    ensures url.Some? && !StartsWith(images.items[0], "http") && shortName.Some? ==>
              StartsWith(url.value, StorageBase + Folder(shortName.value) + "/Images/") &&
              |url.value| == |StorageBase| + |shortName.value| + |"/Images/"| + |images.items[0]|
    ensures url.Some? && !StartsWith(images.items[0], "http") && shortName.None? ==>
              url.value == StorageBase + "undefined/Images/" + images.items[0]
  {
    if images.Array? && |images.items| > 0 then
      var first := images.items[0];
      if StartsWith(first, "http") then Some(first)
      else
        var folder := if shortName.Some? then Folder(shortName.value) else "undefined";
        Some(StorageBase + folder + "/Images/" + first)
    else None
  }
}

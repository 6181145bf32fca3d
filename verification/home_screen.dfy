/** The home screen: the fixed list of projects, fetched one after another,
    and the card shown for each. */
module HomeScreen {
  import opened Js
  import opened Text
  import opened Content

  /** The projects the app lists, in display order. */
  const Projects: seq<string> := [
    "Bismarck_Alley_Art",
    "Camp_Hancock_Historic_Site",
    "Carter_County_Montana",
    "Former_Governors_Mansion",
    "Frontier_Gateway_Museum",
    "Garrison_Talking_Trail",
    "Historic_Downtown_Bismarck",
    "Kenmare_ND",
    "Lawton_OK",
    "Logan_County_Colorado",
    "Missour_River_Heritage_Mural",
    "Missouri_River_Country",
    "Nelson_County",
    "New_York_Mills_MN",
    "North_Dakota_Capitol_Grounds",
    "NPNHA",
    "Otter_Tail_County",
    "Overland_Trail_Museum",
    "Rendezvous_Region",
    "Standing_Rock_Sioux_Tribe",
    "Tri_County_Alliance",
    "Whitefish_Dunes_State_Park"
  ]

  datatype Place = Place(shortName: string, data: Project)

  /** `fetchPlaceData`: fetch each project's `project.json` in order. `fetch`
      stands for the request plus `response.json()`, `None` when either
      throws. The first failure abandons the whole list: nothing is
      published; otherwise one place per project, in order, each with its
      own name and document. */
  method FetchPlaceData(projects: seq<string>, fetch: string -> Option<Project>)
    returns (published: Option<seq<Place>>)
    ensures published.None? <==>
              exists i :: 0 <= i < |projects| && fetch(ProjectUrl(projects[i])).None?
    ensures published.Some? ==>
              |published.value| == |projects| &&
              forall i :: 0 <= i < |projects| ==>
                fetch(ProjectUrl(projects[i])).Some? &&
                published.value[i] == Place(projects[i], fetch(ProjectUrl(projects[i])).value)
  {
    var placesData: seq<Place> := [];
    var i := 0;
    while i < |projects|
      invariant 0 <= i <= |projects|
      invariant |placesData| == i
      invariant forall j :: 0 <= j < i ==>
                  fetch(ProjectUrl(projects[j])).Some? &&
                  placesData[j] == Place(projects[j], fetch(ProjectUrl(projects[j])).value)
    {
      var data := fetch(ProjectUrl(projects[i]));
      if data.None? {
        return None;
      }
      placesData := placesData + [Place(projects[i], data.value)];
      i := i + 1;
    }
    return Some(placesData);
  }

  /** `setPlaces` runs only on success; a failure keeps the current list. */
  function Places(current: seq<Place>, published: Option<seq<Place>>): seq<Place> {
    published.GetOr(current)
  }

  /** The effect on mount: fetch the fixed list and publish it only when every
      project arrived. A single failure leaves the cards as they were;
      otherwise there is one card per listed project, in the listed order. */
  method RefreshPlaces(current: seq<Place>, fetch: string -> Option<Project>) returns (places: seq<Place>)
    ensures (exists i :: 0 <= i < |Projects| && fetch(ProjectUrl(Projects[i])).None?) ==> places == current
    ensures (forall i :: 0 <= i < |Projects| ==> fetch(ProjectUrl(Projects[i])).Some?) ==>
              |places| == |Projects| &&
              forall i :: 0 <= i < |Projects| ==>
                places[i] == Place(Projects[i], fetch(ProjectUrl(Projects[i])).value)
  {
    var published := FetchPlaceData(Projects, fetch);
    places := Places(current, published);
  }

  /** `_` read as a space. */
  function Spaced(s: string): (r: string)
    ensures |r| == |s| && '_' !in r
  {
    seq(|s|, i requires 0 <= i < |s| => if s[i] == '_' then ' ' else s[i])
  }

  /** Position `i` of `s` starts a word: a non-space at the start or after whitespace. */
  predicate WordStart(s: string, i: int)
    requires 0 <= i < |s|
  {
    !IsSpace(s[i]) && (i == 0 || IsSpace(s[i - 1]))
  }

  /** `replace(/(?:^|\s)\S/g, a => a.toUpperCase())`: upper-case every word start. */
  function Capitalize(s: string): (r: string)
    ensures |r| == |s|
  {
    seq(|s|, i requires 0 <= i < |s| => if WordStart(s, i) then ToUpper(s[i]) else s[i])
  }

  /** The card title: `_` to space, lower-case, then each word capitalised. */
  function DisplayTitle(shortName: string): string {
    Capitalize(LowerAll(Spaced(shortName)))
  }

  lemma ToUpperFacts(c: char)
    requires !IsUpper(c)
    ensures ToLower(ToUpper(c)) == c
    ensures IsSpace(ToUpper(c)) == IsSpace(c)
    ensures ToUpper(c) != '_' || c == '_'
  {
  }

  /** The title is the name with `_` read as a space, letter for letter up
      to case; it has no `_`, capitalises each word start and lower-cases
      every other letter, and is its own title. */
  lemma DisplayTitleShape(shortName: string)
    ensures var t := DisplayTitle(shortName);
            |t| == |shortName| && '_' !in t &&
            (forall i :: 0 <= i < |shortName| ==> ToLower(t[i]) == ToLower(Spaced(shortName)[i])) &&
            (forall i :: 0 <= i < |t| && !WordStart(t, i) ==> !IsUpper(t[i])) &&
            (forall i :: 0 <= i < |t| && WordStart(t, i) ==> !IsLower(t[i]))
    ensures DisplayTitle(DisplayTitle(shortName)) == DisplayTitle(shortName)
  {
    var lowered := LowerAll(Spaced(shortName));
    var t := DisplayTitle(shortName);
    forall i | 0 <= i < |lowered|
      ensures !IsUpper(lowered[i]) && lowered[i] != '_'
      ensures ToLower(t[i]) == lowered[i] && IsSpace(t[i]) == IsSpace(lowered[i])
    {
      ToLowerKeepsSpace(Spaced(shortName)[i]);
      ToUpperFacts(lowered[i]);
    }
    assert Spaced(t) == t;
    assert LowerAll(Spaced(t)) == lowered;
  }

  /** The card image: the project's first image under its folder, only when
      the document has `Images`. An empty list prints `undefined` as the
      file name. */
  function ImageUri(place: Place): (uri: Option<string>)
    ensures uri.Some? <==> place.data.images.Some?
    ensures uri.Some? ==> StartsWith(uri.value, StorageBase + Folder(place.shortName) + "/")
    ensures uri.Some? && |place.data.images.value| > 0 ==>
              EndsWith(uri.value, "/" + place.data.images.value[0]) &&
              |uri.value| == |StorageBase| + |place.shortName| + 1 + |place.data.images.value[0]|
    ensures uri.Some? && |place.data.images.value| == 0 ==>
              uri.value == StorageBase + Folder(place.shortName) + "/undefined"
  {
    match place.data.images
    case None => None
    case Some(images) =>
      var first := if |images| > 0 then images[0] else "undefined";
      Some(StorageBase + Folder(place.shortName) + "/" + first)
  }

  /** One "N TALKING POINTS" line per trail, N being the number of its
      attraction keys; none when the document has no `Trails`. */
  function TalkingPointCounts(data: Project): (counts: seq<nat>)
    ensures data.trails.None? ==> counts == []
    ensures data.trails.Some? ==>
              |counts| == |data.trails.value| &&
              forall i :: 0 <= i < |counts| ==>
                counts[i] == |Keys(data.trails.value[i].value.attractions)|
  {
    match data.trails
    case None => []
    case Some(trails) =>
      seq(|trails|, i requires 0 <= i < |trails| => |Keys(trails[i].value.attractions)|)
  }

  /** With distinct keys, a trail's count is the number of distinct attraction names. */
  lemma {:induction false} CountIsKeySetSize<V>(o: Obj<V>)
    requires DistinctKeys(o)
    ensures |Keys(o)| == |set i | 0 <= i < |o| :: o[i].key|
  {
    if |o| > 0 {
      var rest := o[..|o| - 1];
      CountIsKeySetSize(rest);
      var keys := set i | 0 <= i < |o| :: o[i].key;
      var restKeys := set i | 0 <= i < |rest| :: rest[i].key;
      assert keys == restKeys + {o[|o| - 1].key};
      assert o[|o| - 1].key !in restKeys;
    }
  }

  /** What pressing a card does. */
  datatype Selection = Selection(contextShortName: Option<string>, pathname: string, paramShortName: string)

  /** Pressing a card stores its name in the trail context and opens the
      details screen with the same name. */
  function Select(place: Place): (sel: Selection)
    ensures sel.contextShortName == Some(sel.paramShortName)
    ensures sel.paramShortName == place.shortName
    ensures sel.pathname == "/(tabs)/DetailsScreen"
  {
    Selection(Some(place.shortName), "/(tabs)/DetailsScreen", place.shortName)
  }
}

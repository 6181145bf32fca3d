/** The remote content the screens read: the storage bucket's addresses and
    the parts of a project's `project.json` the screens use. */
module Content {
  import opened Js
  import opened Text

  /** Every project lives in a folder under this address. */
  const StorageBase: string := "https://talkingtrailstorage.blob.core.windows.net/projects/"

  const ProjectFile: string := "/project.json"

  /** A project's folder name as the home and map screens spell it:
      `shortName.replace(/\s/g, '_')`. */
  function Folder(shortName: string): (f: string)
    ensures |f| == |shortName|
    ensures forall i :: 0 <= i < |f| ==> !IsSpace(f[i])
    ensures forall i :: 0 <= i < |f| ==> (f[i] == shortName[i] || (f[i] == '_' && IsSpace(shortName[i])))
  {
    ReplaceSpaces(shortName, '_')
  }

  /** A name that has no whitespace is its own folder name. */
  lemma FolderOfPlainName(shortName: string)
    requires forall i :: 0 <= i < |shortName| ==> !IsSpace(shortName[i])
    ensures Folder(shortName) == shortName
  {
  }

  /** The address of a project's `project.json`, with the folder spelled
      without whitespace. */
  function ProjectUrl(shortName: string): (url: string)
    ensures StartsWith(url, StorageBase) && EndsWith(url, ProjectFile)
    ensures |url| == |StorageBase| + |shortName| + |ProjectFile|
    ensures url[|StorageBase|..|StorageBase| + |shortName|] == Folder(shortName)
  {
    StorageBase + Folder(shortName) + ProjectFile
  }

  /** Two names give the same project address exactly when they have the same folder. */
  lemma ProjectUrlInjective(a: string, b: string)
    ensures ProjectUrl(a) == ProjectUrl(b) <==> Folder(a) == Folder(b)
  {
    if ProjectUrl(a) == ProjectUrl(b) {
      assert |a| == |b|;
      assert Folder(a) == ProjectUrl(a)[|StorageBase|..|StorageBase| + |a|];
    }
  }

  /** `Images` of an attraction as parsed: absent, an array of paths, or
      some other value. */
  datatype Images = Absent | Array(items: seq<string>) | NotArray

  /** An attraction entry. `latitude` is spelled `Lattitude` in the data. */
  datatype Attraction = Attraction(
    name: string,
    images: Images,
    audio: Option<string>,
    latitude: real,
    longitude: real)

  datatype Trail = Trail(attractions: Obj<Attraction>)

  /** The parts of a `project.json` the screens read. */
  datatype Project = Project(images: Option<seq<string>>, trails: Option<Obj<Trail>>)
}

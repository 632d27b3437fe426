/** The app's value types: a video entry, a folder summary, and the opaque
    handles the platform hands out (a file uri and a decoded frame). */
module Domain {

  datatype Option<+T> = None | Some(value: T)

  /** A `file://` uri built from a file; only its path is ever read back. */
  datatype Uri = FileUri(path: string)

  /** A decoded frame; the model never looks inside it. */
  datatype Bitmap = Bitmap(handle: nat)

  /** One video as the lists and the player see it. `duration` and the other
      optional fields default to "absent" or zero when a row is first scanned. */
  datatype Video = Video(
    uri: Uri,
    title: string,
    thumbnail: Option<Bitmap>,
    duration: Option<int>,
    dateAdded: int,
    width: int,
    height: int,
    isHdr: bool,
    watchedPosition: int)

  /** A video built from just its uri and title: every other field takes its
      declared default. */
  function NewVideo(uri: Uri, title: string): (v: Video)
    ensures v.uri == uri && v.title == title
    ensures v.thumbnail == None && v.duration == None
    ensures v.dateAdded == 0 && v.width == 0 && v.height == 0 && !v.isHdr && v.watchedPosition == 0
  {
    Video(uri, title, None, None, 0, 0, 0, false, 0)
  }

  /** One row of the folder list. */
  datatype VideoFolder = VideoFolder(
    name: string,
    path: string,
    title: string,
    thumbnail: Option<Bitmap>,
    videoCount: int)

  /** The `ActivityInfo.SCREEN_ORIENTATION_*` values the player requests. */
  datatype ScreenOrientation = Unspecified | Portrait | Landscape | ReverseLandscape

  /** The uris of a list of videos, in order (`map { it.uri }`). */
  function Uris(vs: seq<Video>): (us: seq<Uri>)
    ensures |us| == |vs| && forall i :: 0 <= i < |vs| ==> us[i] == vs[i].uri
  {
    if vs == [] then [] else Uris(vs[..|vs| - 1]) + [vs[|vs| - 1].uri]
  }
}

/** `VideoListViewModel`: the videos of one folder, shown at once without
    thumbnail or duration, then enriched entry by entry as the metadata
    extraction for each video completes. */
module VideoListViewModel {
  import opened Domain
  import opened JvmLib
  import opened VideoRepository

  /** What the metadata extraction of one video produced: it threw (the
      `catch` that ignores the error), or it returned a frame (possibly none)
      and the duration metadata text (possibly absent). */
  datatype Extraction =
    | ExtractionFailed
    | Extracted(frame: Option<Bitmap>, durationText: Option<string>)

  /** `durStr?.toLongOrNull()`. */
  function ParseDuration(text: Option<string>): (d: Option<int>)
    ensures text.None? ==> d.None?
    ensures text.Some? ==> d == ParseLong(text.value)
    ensures d.Some? ==> InLongRange(d.value)
  {
    match text
    case None => None
    case Some(s) => ParseLong(s)
  }

  /** `indexOfFirst { it.uri == uri }`. */
  function IndexOfUri(vs: seq<Video>, uri: Uri): (i: int)
    ensures -1 <= i < |vs|
    ensures i >= 0 ==> vs[i].uri == uri && forall j :: 0 <= j < i ==> vs[j].uri != uri
    ensures i == -1 <==> forall j :: 0 <= j < |vs| ==> vs[j].uri != uri
  {
    if vs == [] then -1
    else if vs[0].uri == uri then 0
    else
      var j := IndexOfUri(vs[1..], uri);
      if j == -1 then -1 else j + 1
  }

  /** The update one completed extraction makes to the list. */
  function Enriched(vs: seq<Video>, video: Video, e: Extraction): seq<Video>
  {
    match e
    case ExtractionFailed => vs
    case Extracted(frame, text) =>
      var idx := IndexOfUri(vs, video.uri);
      if idx == -1 then vs
      else vs[idx := video.(thumbnail := frame, duration := ParseDuration(text))]
  }

  /** The completions of a whole `forEach`, in list order. */
  function EnrichedAll(vs: seq<Video>, list: seq<Video>, results: seq<Extraction>): seq<Video>
    requires |results| == |list|
  {
    if list == [] then vs
    else
      var n := |list| - 1;
      Enriched(EnrichedAll(vs, list[..n], results[..n]), list[n], results[n])
  }

  class VideoListViewModel {
    var videos: seq<Video>

    constructor ()
      ensures videos == []
    {
      videos := [];
    }

    /** `loadVideos` up to the background job: clear, then add the folder's
        videos as scanned. Returns the list the job walks over. */
    method LoadVideos(rows: seq<Row>, folderName: string) returns (list: seq<Video>)
      modifies this
      ensures list == GetVideosInFolder(rows, folderName)
      ensures videos == list
    {
      videos := [];
      list := GetVideosInFolder(rows, folderName);
      videos := videos + list;
    }

    /** The completion for one video (`videos[idx] = video.copy(...)`). */
    method OnExtracted(video: Video, e: Extraction)
      modifies this
      ensures videos == Enriched(old(videos), video, e)
    {
      if e.Extracted? {
        var idx := IndexOfUri(videos, video.uri);
        if idx != -1 {
          videos := videos[idx := video.(thumbnail := e.frame, duration := ParseDuration(e.durationText))];
        }
      }
    }

    /** The background `list.forEach`, each completion applied in turn. */
    method EnrichAll(list: seq<Video>, results: seq<Extraction>)
      requires |results| == |list|
      modifies this
      ensures videos == EnrichedAll(old(videos), list, results)
    {
      var i := 0;
      while i < |list|
        invariant 0 <= i <= |list|
        invariant videos == EnrichedAll(old(videos), list[..i], results[..i])
      {
        OnExtracted(list[i], results[i]);
        assert list[..i + 1][..i] == list[..i] && results[..i + 1][..i] == results[..i];
        i := i + 1;
      }
      assert list[..i] == list && results[..i] == results;
    }
  }

  /** One completion keeps the length and every uri; it changes at most the
      first entry with the video's uri, into the video with the extracted
      frame and duration; a failure or a missing uri changes nothing. */
  lemma EnrichedEffect(vs: seq<Video>, video: Video, e: Extraction)
    ensures var r := Enriched(vs, video, e);
      && |r| == |vs|
      && Uris(r) == Uris(vs)
      && (e.ExtractionFailed? || IndexOfUri(vs, video.uri) == -1 ==> r == vs)
      && (e.Extracted? && IndexOfUri(vs, video.uri) != -1 ==>
            var i := IndexOfUri(vs, video.uri);
            && r[i] == video.(thumbnail := e.frame, duration := ParseDuration(e.durationText))
            && (forall j :: 0 <= j < |vs| && j != i ==> r[j] == vs[j]))
  {
  }

  /** A whole background pass keeps the list's length and uris. */
  lemma {:induction false} EnrichedAllKeepsUris(vs: seq<Video>, list: seq<Video>, results: seq<Extraction>)
    requires |results| == |list|
    ensures |EnrichedAll(vs, list, results)| == |vs|
    ensures Uris(EnrichedAll(vs, list, results)) == Uris(vs)
  {
    if list != [] {
      var n := |list| - 1;
      EnrichedAllKeepsUris(vs, list[..n], results[..n]);
      EnrichedEffect(EnrichedAll(vs, list[..n], results[..n]), list[n], results[n]);
    }
  }

  /** When the uris are distinct, the completion for entry `i` lands on
      entry `i`. */
  lemma EnrichedLandsOnOwnEntry(vs: seq<Video>, i: int, e: Extraction)
    requires 0 <= i < |vs|
    requires forall j, k :: 0 <= j < k < |vs| ==> vs[j].uri != vs[k].uri
    requires e.Extracted?
    ensures Enriched(vs, vs[i], e)[i] == vs[i].(thumbnail := e.frame, duration := ParseDuration(e.durationText))
  {
    assert IndexOfUri(vs, vs[i].uri) == i;
  }

  /** A duration the metadata wrote as a decimal `Long` is read back as is. */
  lemma DurationRoundTrip(ms: int)
    requires InLongRange(ms)
    ensures ParseDuration(Some(IntToString(ms))) == Some(ms)
  {
    ParseLongRoundTrip(ms);
  }
}

/** `FolderViewModel`: the folder list, rebuilt from a fresh scan, and the
    thumbnail that arrives later for each folder. */
module FolderViewModel {
  import opened Domain
  import opened VideoRepository

  /** `replaceFirstChar { it.uppercase() }`; `upper` stands for the
      platform's `Char.uppercase()`, which may yield several characters. */
  function Capitalize(s: string, upper: char -> string): (t: string)
    ensures s == [] ==> t == []
    ensures s != [] ==> t == upper(s[0]) + s[1..]
  {
    if s == [] then [] else upper(s[0]) + s[1..]
  }

  /** The entry one map entry becomes, before its thumbnail is known. */
  function FolderFor(name: string, videos: seq<Video>, upper: char -> string): VideoFolder
  {
    VideoFolder(
      name,
      if videos == [] then "" else videos[0].uri.path,
      Capitalize(name, upper),
      None,
      |videos|)
  }

  /** The list `loadFolders` builds: one entry per key, in key order. */
  function FoldersOf(order: seq<string>, groups: map<string, seq<Video>>, upper: char -> string): (fs: seq<VideoFolder>)
    requires forall k :: k in order ==> k in groups
    ensures |fs| == |order|
    ensures forall i :: 0 <= i < |order| ==> fs[i] == FolderFor(order[i], groups[order[i]], upper)
  {
    if order == [] then []
    else
      var last := order[|order| - 1];
      FoldersOf(order[..|order| - 1], groups, upper) + [FolderFor(last, groups[last], upper)]
  }

  /** `List.indexOf`: the first position holding `x`, or -1. */
  function IndexOf(fs: seq<VideoFolder>, x: VideoFolder): (i: int)
    ensures -1 <= i < |fs|
    ensures i >= 0 ==> fs[i] == x && forall j :: 0 <= j < i ==> fs[j] != x
    ensures i == -1 <==> x !in fs
  {
    if fs == [] then -1
    else if fs[0] == x then 0
    else
      var j := IndexOf(fs[1..], x);
      if j == -1 then -1 else j + 1
  }

  /** A finished thumbnail job: nothing when no frame came back or the
      folder is no longer listed, else the first equal entry gets the frame. */
  function WithThumbnail(fs: seq<VideoFolder>, folder: VideoFolder, frame: Option<Bitmap>): seq<VideoFolder>
  {
    match frame
    case None => fs
    case Some(b) =>
      var i := IndexOf(fs, folder);
      if i == -1 then fs else fs[i := folder.(thumbnail := Some(b))]
  }

  class FolderViewModel {
    var folders: seq<VideoFolder>

    constructor ()
      ensures folders == []
    {
      folders := [];
    }

    /** `loadFolders`: clear, scan, then add one entry per folder in the
        map's iteration order. The thumbnail jobs it starts are delivered
        through `OnThumbnail`. */
    method LoadFolders(rows: seq<Row>, upper: char -> string)
      modifies this
      ensures WellFormed(Group(rows))
      ensures folders == FoldersOf(Group(rows).order, Group(rows).groups, upper)
    {
      folders := [];
      var folderMap := GetFolders(rows);
      GroupWellFormed(rows);
      var i := 0;
      while i < |folderMap.order|
        invariant 0 <= i <= |folderMap.order|
        invariant folders == FoldersOf(folderMap.order[..i], folderMap.groups, upper)
      {
        var folderName := folderMap.order[i];
        var videos := folderMap.groups[folderName];
        var folder := VideoFolder(
          folderName,
          if videos == [] then "" else videos[0].uri.path,
          Capitalize(folderName, upper),
          None,
          |videos|);
        FoldersOfStep(folderMap.order, folderMap.groups, upper, i);
        folders := folders + [folder];
        i := i + 1;
      }
      assert folderMap.order[..i] == folderMap.order;
    }

    /** The completion of one folder's thumbnail job (`folders[index] = ...`). */
    method OnThumbnail(folder: VideoFolder, frame: Option<Bitmap>)
      modifies this
      ensures folders == WithThumbnail(old(folders), folder, frame)
    {
      if frame.Some? {
        var index := IndexOf(folders, folder);
        if index != -1 {
          folders := folders[index := folder.(thumbnail := frame)];
        }
      }
    }
  }

  /** Building the list one key further appends that key's folder. */
  lemma FoldersOfStep(order: seq<string>, groups: map<string, seq<Video>>, upper: char -> string, i: int)
    requires forall k :: k in order ==> k in groups
    requires 0 <= i < |order|
    ensures FoldersOf(order[..i + 1], groups, upper) == FoldersOf(order[..i], groups, upper) + [FolderFor(order[i], groups[order[i]], upper)]
  {
    assert order[..i + 1][..i] == order[..i];
  }

  /** After a load, folder `i` describes key `i` of the scan: its name
      verbatim, the capitalised title, no thumbnail yet, the size of its
      group (never zero) and the path of the group's first video. */
  lemma LoadedFolder(rows: seq<Row>, upper: char -> string, i: int)
    requires WellFormed(Group(rows))
    requires 0 <= i < |Group(rows).order|
    ensures var g := Group(rows);
      var f := FoldersOf(g.order, g.groups, upper)[i];
      var vs := VideosIn(rows, g.order[i]);
      && f.name == g.order[i]
      && f.title == Capitalize(g.order[i], upper)
      && f.thumbnail == None
      && f.videoCount == |vs| >= 1
      && f.path == vs[0].uri.path
  {
    GroupMatchesReference(rows);
  }

  /** The listed folders count every scanned video exactly once. */
  lemma {:induction false} FolderCountsSum(order: seq<string>, groups: map<string, seq<Video>>, upper: char -> string)
    requires forall k :: k in order ==> k in groups
    ensures CountSum(FoldersOf(order, groups, upper)) == SizeSum(order, groups)
  {
    if order != [] {
      var fs := FoldersOf(order, groups, upper);
      FolderCountsSum(order[..|order| - 1], groups, upper);
      assert fs[..|fs| - 1] == FoldersOf(order[..|order| - 1], groups, upper);
    }
  }

  function CountSum(fs: seq<VideoFolder>): int
  {
    if fs == [] then 0 else CountSum(fs[..|fs| - 1]) + fs[|fs| - 1].videoCount
  }

  /** The counts shown add up to the number of rows scanned. */
  lemma LoadedCountsSum(rows: seq<Row>, upper: char -> string)
    ensures WellFormed(Group(rows))
    ensures CountSum(FoldersOf(Group(rows).order, Group(rows).groups, upper)) == |rows|
  {
    GroupSizesSum(rows);
    FolderCountsSum(Group(rows).order, Group(rows).groups, upper);
  }

  /** Folder names are the map's keys, so no two loaded entries are equal and
      each thumbnail job finds its own entry. */
  lemma LoadedIndexOf(rows: seq<Row>, upper: char -> string, i: int)
    requires WellFormed(Group(rows))
    requires 0 <= i < |Group(rows).order|
    ensures var fs := FoldersOf(Group(rows).order, Group(rows).groups, upper);
      IndexOf(fs, fs[i]) == i
  {
  }

  /** A thumbnail update keeps the length, touches at most the first entry
      equal to the folder, and there changes only the thumbnail. */
  lemma ThumbnailUpdate(fs: seq<VideoFolder>, folder: VideoFolder, frame: Option<Bitmap>)
    ensures var r := WithThumbnail(fs, folder, frame);
      && |r| == |fs|
      && (frame.None? || folder !in fs ==> r == fs)
      && (frame.Some? && folder in fs ==>
            var i := IndexOf(fs, folder);
            && r[i] == fs[i].(thumbnail := frame)
            && (forall j :: 0 <= j < |fs| && j != i ==> r[j] == fs[j]))
  {
  }
}

/** `VideoRepository`: one pass over the media index's rows, grouping the
    videos by the name of the directory that holds them. The index query is
    an input here: a cursor becomes the sequence of its rows. */
module VideoRepository {
  import opened Domain

  /** One cursor row: the `DATA` column (a file path) and `DISPLAY_NAME`. */
  datatype Row = Row(path: string, displayName: string)

  /** A Kotlin `LinkedHashMap<String, List<Video>>`: the keys in insertion
      order (the order `forEach` visits them) and the key-to-list map. */
  datatype Grouping = Grouping(order: seq<string>, groups: map<string, seq<Video>>)

  const UNKNOWN_FOLDER: string := "Unknown"

  // ---------------------------------------------------------------------
  // java.io.File on a Unix file system

  /** Drops every `/` that directly follows another `/`. */
  function CollapseSlashes(s: string): (r: string)
    ensures |r| <= |s|
    decreases |s|
  {
    if |s| <= 1 then s
    else if s[0] == '/' && s[1] == '/' then CollapseSlashes(s[1..])
    else [s[0]] + CollapseSlashes(s[1..])
  }

  /** The path a `File` keeps: separators collapsed and a trailing separator
      removed (except for the root itself). */
  function Normalize(s: string): string
  {
    var t := CollapseSlashes(s);
    if |t| > 1 && t[|t| - 1] == '/' then t[..|t| - 1] else t
  }

  /** Length of the root prefix: 1 for an absolute path, 0 for a relative one. */
  function PrefixLength(p: string): nat
  {
    if |p| > 0 && p[0] == '/' then 1 else 0
  }

  /** `lastIndexOf('/')`. */
  function LastSlash(p: string): (i: int)
    ensures -1 <= i < |p|
    ensures i >= 0 ==> p[i] == '/'
    ensures forall j :: i < j < |p| ==> p[j] != '/'
  {
    if p == [] then -1
    else if p[|p| - 1] == '/' then |p| - 1
    else LastSlash(p[..|p| - 1])
  }

  /** `File.getParent()` of a normalized path: `None` stands for `null`. */
  function ParentOf(p: string): Option<string>
  {
    var i := LastSlash(p);
    var n := PrefixLength(p);
    if i < n then (if n > 0 && |p| > n then Some(p[..n]) else None)
    else Some(p[..i])
  }

  /** `File.getName()` of a normalized path: what follows the last separator. */
  function NameOf(p: string): (name: string)
    ensures forall j :: 0 <= j < |name| ==> name[j] != '/'
  {
    var i := LastSlash(p);
    var n := PrefixLength(p);
    if i < n then p[n..] else p[i + 1..]
  }

  /** `File(path).parentFile?.name ?: "Unknown"`: the key a row is grouped under. */
  function FolderNameOf(path: string): string
  {
    match ParentOf(Normalize(path))
    case None => UNKNOWN_FOLDER
    case Some(parent) => NameOf(Normalize(parent))
  }

  /** The video a row becomes: `Video(uri = Uri.fromFile(File(path)), title = name)`. */
  function RowVideo(row: Row): (v: Video)
    ensures v.uri == FileUri(Normalize(row.path)) && v.title == row.displayName
    ensures v == NewVideo(v.uri, v.title)
  {
    NewVideo(FileUri(Normalize(row.path)), row.displayName)
  }

  // ---------------------------------------------------------------------
  // The grouping loop

  /** One iteration of the loop: create the key on first sight, then append. */
  function Insert(g: Grouping, name: string, v: Video): Grouping
  {
    var g' := if name in g.groups then g else Grouping(g.order + [name], g.groups[name := []]);
    Grouping(g'.order, g'.groups[name := g'.groups[name] + [v]])
  }

  /** The map built from all rows, folding `Insert` from the first row on. */
  function Group(rows: seq<Row>): Grouping
  {
    if rows == [] then Grouping([], map[])
    else
      var last := rows[|rows| - 1];
      Insert(Group(rows[..|rows| - 1]), FolderNameOf(last.path), RowVideo(last))
  }

  /** The reference definition of one group: the videos of the rows whose
      folder is `name`, in row order. */
  function VideosIn(rows: seq<Row>, name: string): seq<Video>
  {
    if rows == [] then []
    else
      var last := rows[|rows| - 1];
      VideosIn(rows[..|rows| - 1], name) + (if FolderNameOf(last.path) == name then [RowVideo(last)] else [])
  }

  /** `getFolders`: the `while (cursor.moveToNext())` loop over the rows. */
  method GetFolders(rows: seq<Row>) returns (g: Grouping)
    ensures g == Group(rows)
  {
    var order: seq<string> := [];
    var folderMap: map<string, seq<Video>> := map[];
    var i := 0;
    while i < |rows|
      invariant 0 <= i <= |rows|
      invariant Grouping(order, folderMap) == Group(rows[..i])
    {
      var path := rows[i].path;
      var folderName := FolderNameOf(path);
      var video := RowVideo(rows[i]);
      GroupStep(rows, i);
      if folderName !in folderMap {
        folderMap := folderMap[folderName := []];
        order := order + [folderName];
      }
      folderMap := folderMap[folderName := folderMap[folderName] + [video]];
      i := i + 1;
    }
    assert rows[..i] == rows;
    g := Grouping(order, folderMap);
  }

  /** Grouping one more row inserts that row's video under its folder. */
  lemma GroupStep(rows: seq<Row>, i: int)
    requires 0 <= i < |rows|
    ensures Group(rows[..i + 1]) == Insert(Group(rows[..i]), FolderNameOf(rows[i].path), RowVideo(rows[i]))
  {
    assert rows[..i + 1][..i] == rows[..i];
  }

  /** `getVideosInFolder`: the group under `name`, or the empty list. */
  function GetVideosInFolder(rows: seq<Row>, name: string): (vs: seq<Video>)
    ensures vs == VideosIn(rows, name)
  {
    GroupMatchesReference(rows);
    var g := Group(rows);
    if name in g.groups then g.groups[name] else []
  }

  // ---------------------------------------------------------------------
  // What the grouping promises

  ghost predicate Distinct(s: seq<string>)
  {
    forall i, j :: 0 <= i < j < |s| ==> s[i] != s[j]
  }

  /** The map's shape: no key twice in the order, and the order lists exactly
      the map's keys. */
  ghost predicate WellFormed(g: Grouping)
  {
    && Distinct(g.order)
    && (forall k :: k in g.order <==> k in g.groups)
  }

  /** What one insertion does to the map, and that it keeps its shape. */
  lemma InsertFacts(g: Grouping, name: string, v: Video)
    requires WellFormed(g)
    ensures WellFormed(Insert(g, name, v))
    ensures Insert(g, name, v).groups == g.groups[name := (if name in g.groups then g.groups[name] else []) + [v]]
  {
    if name !in g.groups {
      var order := g.order + [name];
      forall i, j | 0 <= i < j < |order| ensures order[i] != order[j] {
        if j == |order| - 1 {
          assert order[i] == g.order[i];
        }
      }
    }
  }

  /** The grouping agrees with the reference: a key exists exactly when some
      row falls in that folder (so no group is empty), and each group is the
      rows of that folder, in row order. */
  lemma {:induction false} GroupMatchesReference(rows: seq<Row>)
    ensures WellFormed(Group(rows))
    ensures forall k :: k in Group(rows).groups <==> VideosIn(rows, k) != []
    ensures forall k :: k in Group(rows).groups ==> Group(rows).groups[k] == VideosIn(rows, k)
  {
    if rows != [] {
      var init, last := rows[..|rows| - 1], rows[|rows| - 1];
      GroupMatchesReference(init);
      var g := Group(init);
      var name, v := FolderNameOf(last.path), RowVideo(last);
      InsertFacts(g, name, v);
      assert Group(rows) == Insert(g, name, v);
      forall k ensures k in Group(rows).groups <==> VideosIn(rows, k) != []
        ensures k in Group(rows).groups ==> Group(rows).groups[k] == VideosIn(rows, k)
      {
        if k == name {
          assert VideosIn(rows, k) == VideosIn(init, k) + [v];
        } else {
          assert VideosIn(rows, k) == VideosIn(init, k);
        }
      }
    }
  }

  /** Every row lands in the group of its own folder, at a position after the
      rows of that folder before it. */
  lemma {:induction false} RowInItsGroup(rows: seq<Row>, i: int)
    requires 0 <= i < |rows|
    ensures var name := FolderNameOf(rows[i].path);
      name in Group(rows).groups && RowVideo(rows[i]) in Group(rows).groups[name]
  {
    GroupMatchesReference(rows);
    RowInVideosIn(rows, i);
  }

  lemma {:induction false} RowInVideosIn(rows: seq<Row>, i: int)
    requires 0 <= i < |rows|
    ensures RowVideo(rows[i]) in VideosIn(rows, FolderNameOf(rows[i].path))
  {
    if i < |rows| - 1 {
      RowInVideosIn(rows[..|rows| - 1], i);
    }
  }

  /** A group holds only videos of rows from that folder. */
  lemma {:induction false} GroupHoldsOnlyItsFolder(rows: seq<Row>, name: string, v: Video)
    requires v in VideosIn(rows, name)
    ensures exists i :: 0 <= i < |rows| && FolderNameOf(rows[i].path) == name && v == RowVideo(rows[i])
  {
    var init, last := rows[..|rows| - 1], rows[|rows| - 1];
    if v in VideosIn(init, name) {
      GroupHoldsOnlyItsFolder(init, name, v);
      var i :| 0 <= i < |init| && FolderNameOf(init[i].path) == name && v == RowVideo(init[i]);
      assert rows[i] == init[i];
    } else {
      assert FolderNameOf(last.path) == name && v == RowVideo(last);
    }
  }

  /** Total size of the groups, visiting the keys in `order`. */
  function SizeSum(order: seq<string>, groups: map<string, seq<Video>>): int
    requires forall k :: k in order ==> k in groups
  {
    if order == [] then 0
    else SizeSum(order[..|order| - 1], groups) + |groups[order[|order| - 1]]|
  }

  lemma {:induction false} SizeSumAppendAt(order: seq<string>, groups: map<string, seq<Video>>, k: string, v: Video)
    requires forall x :: x in order ==> x in groups
    requires Distinct(order) && k in order
    ensures SizeSum(order, groups[k := groups[k] + [v]]) == SizeSum(order, groups) + 1
  {
    var init, last := order[..|order| - 1], order[|order| - 1];
    if last == k {
      assert k !in init;
      SizeSumUnchanged(init, groups, k, groups[k] + [v]);
    } else {
      SizeSumAppendAt(init, groups, k, v);
    }
  }

  lemma {:induction false} SizeSumUnchanged(order: seq<string>, groups: map<string, seq<Video>>, k: string, vs: seq<Video>)
    requires forall x :: x in order ==> x in groups
    requires k !in order
    ensures SizeSum(order, groups[k := vs]) == SizeSum(order, groups)
  {
    if order != [] {
      SizeSumUnchanged(order[..|order| - 1], groups, k, vs);
    }
  }

  lemma SizeSumNewKey(order: seq<string>, groups: map<string, seq<Video>>, k: string, v: Video)
    requires forall x :: x in order ==> x in groups
    requires k !in order
    ensures SizeSum(order + [k], groups[k := []][k := [v]]) == SizeSum(order, groups) + 1
  {
    var order' := order + [k];
    assert order'[..|order'| - 1] == order;
    assert groups[k := []][k := [v]] == groups[k := [v]];
    SizeSumUnchanged(order, groups, k, [v]);
  }

  lemma GroupWellFormed(rows: seq<Row>)
    ensures WellFormed(Group(rows))
  {
    GroupMatchesReference(rows);
  }

  /** One insertion keeps the map's shape and adds one to the total size. */
  lemma InsertAddsOne(g: Grouping, name: string, v: Video)
    requires WellFormed(g)
    ensures WellFormed(Insert(g, name, v))
    ensures SizeSum(Insert(g, name, v).order, Insert(g, name, v).groups) == SizeSum(g.order, g.groups) + 1
  {
    if name in g.groups {
      SizeSumAppendAt(g.order, g.groups, name, v);
    } else {
      SizeSumNewKey(g.order, g.groups, name, v);
      assert g.groups[name := []][name] + [v] == [v];
    }
  }

  /** The group sizes add up to the number of rows: nothing is lost or
      counted twice. */
  lemma {:induction false} GroupSizesSum(rows: seq<Row>)
    ensures WellFormed(Group(rows))
    ensures SizeSum(Group(rows).order, Group(rows).groups) == |rows|
  {
    if rows != [] {
      var init, last := rows[..|rows| - 1], rows[|rows| - 1];
      GroupSizesSum(init);
      InsertAddsOne(Group(init), FolderNameOf(last.path), RowVideo(last));
    }
  }

  // ---------------------------------------------------------------------
  // Which folder a path falls in

  predicate NoSlash(s: string) { forall j :: 0 <= j < |s| ==> s[j] != '/' }

  /** A path with no repeated separator and no trailing one is kept as is. */
  lemma {:induction false} CollapseKeeps(s: string)
    requires forall j :: 0 <= j < |s| - 1 ==> !(s[j] == '/' && s[j + 1] == '/')
    ensures CollapseSlashes(s) == s
  {
    if |s| > 1 {
      CollapseKeeps(s[1..]);
    }
  }

  lemma LastSlashOf(dir: string, file: string)
    requires NoSlash(file)
    ensures LastSlash(dir + "/" + file) == |dir|
  {
    var p := dir + "/" + file;
    assert p[|dir|] == '/';
  }

  /** A plain path: no repeated separator and no trailing one. */
  ghost predicate Plain(s: string)
  {
    && (forall j :: 0 <= j < |s| - 1 ==> !(s[j] == '/' && s[j + 1] == '/'))
    && (|s| > 1 ==> s[|s| - 1] != '/')
  }

  lemma NormalizeKeepsPlain(s: string)
    requires Plain(s)
    ensures Normalize(s) == s
  {
    CollapseKeeps(s);
  }

  lemma PlainJoin(dir: string, name: string)
    requires Plain(dir) && NoSlash(name) && |name| > 0
    requires |dir| > 0 ==> dir[|dir| - 1] != '/'
    ensures Plain(dir + "/" + name)
  {
    var p := dir + "/" + name;
    forall j | 0 <= j < |p| - 1 ensures !(p[j] == '/' && p[j + 1] == '/') {
      if j < |dir| - 1 {
        assert p[j] == dir[j] && p[j + 1] == dir[j + 1];
      } else if j == |dir| - 1 {
        assert p[j] == dir[j];
      } else {
        assert p[j + 1] == name[j - |dir|];
      }
    }
  }

  /** The parent of a plain `dir/name` is `dir` (the root when `dir` is empty). */
  lemma ParentOfJoin(dir: string, name: string)
    requires NoSlash(name) && |name| > 0
    requires |dir| > 0 && dir[0] == '/'
    ensures ParentOf(dir + "/" + name) == Some(dir)
  {
    var p := dir + "/" + name;
    LastSlashOf(dir, name);
    assert p[..|dir|] == dir;
  }

  /** The name of a plain `dir/name` is `name`. */
  lemma NameOfJoin(dir: string, name: string)
    requires NoSlash(name)
    ensures NameOf(dir + "/" + name) == name
  {
    var p := dir + "/" + name;
    LastSlashOf(dir, name);
    assert p[|dir| + 1..] == name;
  }

  /** The folder of the absolute plain path `dir/folder/file` is `folder`. */
  lemma FolderOfPlainPath(dir: string, folder: string, file: string)
    requires NoSlash(folder) && NoSlash(file) && |file| > 0 && |folder| > 0
    requires Plain(dir) && (|dir| > 0 ==> dir[0] == '/' && dir[|dir| - 1] != '/')
    ensures FolderNameOf(dir + "/" + folder + "/" + file) == folder
  {
    var parent := dir + "/" + folder;
    PlainJoin(dir, folder);
    PlainJoin(parent, file);
    NormalizeKeepsPlain(parent + "/" + file);
    NormalizeKeepsPlain(parent);
    assert parent[0] == '/';
    ParentOfJoin(parent, file);
    NameOfJoin(dir, folder);
  }

  /** A file directly under the root falls in the folder named "" (the root's
      name is empty), not in "Unknown". */
  lemma FolderOfRootFile(file: string)
    requires NoSlash(file) && |file| > 0
    ensures FolderNameOf("/" + file) == ""
  {
    var p := "/" + file;
    CollapseKeeps(p);
    LastSlashOf("", file);
    assert p[..1] == "/";
    assert Normalize("/") == "/";
  }

  /** A bare file name has no parent and falls in "Unknown". */
  lemma FolderOfBareName(file: string)
    requires NoSlash(file) && |file| > 0 && file[0] != '/'
    ensures FolderNameOf(file) == UNKNOWN_FOLDER
  {
    CollapseKeeps(file);
  }
}

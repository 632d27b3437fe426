/** The logic of `VideoListScreen`: the search filter over the loaded list,
    the search toggle that clears the query, and the tap that starts the
    player on the filtered list. The grid, the bottom sheet and the share
    intent are not modelled. */
module VideoListScreen {
  import opened Domain
  import opened JvmLib
  import opened VideoPlayerViewModel

  /** `same(a, b)` stands for `Char.equals(a, b, ignoreCase = true)`. */
  type CharEq = (char, char) -> bool

  /** `query` sits in `text` at `start`, character by character. */
  predicate RegionMatches(text: string, start: int, query: string, same: CharEq)
    requires 0 <= start && start + |query| <= |text|
  {
    forall k :: 0 <= k < |query| ==> same(text[start + k], query[k])
  }

  /** `indexOf(query, from, ignoreCase = true)`: the first start position
      at or after `from` where `query` occurs, or -1. */
  function IndexOfFrom(text: string, query: string, from: nat, same: CharEq): (i: int)
    decreases |text| - from
    ensures i == -1 || (from <= i && i + |query| <= |text| && RegionMatches(text, i, query, same))
    ensures i != -1 ==> forall j :: from <= j < i ==> !RegionMatches(text, j, query, same)
    ensures i == -1 <==> forall j :: from <= j && j + |query| <= |text| ==> !RegionMatches(text, j, query, same)
  {
    if from + |query| > |text| then -1
    else if RegionMatches(text, from, query, same) then from
    else IndexOfFrom(text, query, from + 1, same)
  }

  /** `text.contains(query, ignoreCase = true)`. */
  predicate ContainsIgnoringCase(text: string, query: string, same: CharEq)
  {
    IndexOfFrom(text, query, 0, same) >= 0
  }

  /** The search matches exactly when the query occurs at some position. */
  lemma ContainsIff(text: string, query: string, same: CharEq)
    ensures ContainsIgnoringCase(text, query, same) <==>
      exists i :: 0 <= i && i + |query| <= |text| && RegionMatches(text, i, query, same)
  {
    var i := IndexOfFrom(text, query, 0, same);
    if i >= 0 {
      assert RegionMatches(text, i, query, same);
    }
  }

  /** Every text contains the empty query. */
  lemma EmptyQueryContained(text: string, same: CharEq)
    ensures ContainsIgnoringCase(text, "", same)
  {
    assert RegionMatches(text, 0, "", same);
  }

  /** `videos.filter { it.title.contains(query, ignoreCase = true) }`. */
  function FilterByTitle(vs: seq<Video>, query: string, same: CharEq): (r: seq<Video>)
  {
    if vs == [] then []
    else
      var rest := FilterByTitle(vs[..|vs| - 1], query, same);
      var v := vs[|vs| - 1];
      if ContainsIgnoringCase(v.title, query, same) then rest + [v] else rest
  }

  /** `filteredVideos`: the loaded list itself for an empty query. */
  function Filtered(vs: seq<Video>, query: string, same: CharEq): seq<Video>
  {
    if |query| == 0 then vs else FilterByTitle(vs, query, same)
  }

  /** A video is shown exactly when it is loaded and its title contains the
      query. */
  lemma {:induction false} FilterMembership(vs: seq<Video>, query: string, same: CharEq, v: Video)
    ensures v in Filtered(vs, query, same) <==> v in vs && ContainsIgnoringCase(v.title, query, same)
  {
    if |query| == 0 {
      EmptyQueryContained(v.title, same);
    } else {
      FilterByTitleMembership(vs, query, same, v);
    }
  }

  lemma {:induction false} FilterByTitleMembership(vs: seq<Video>, query: string, same: CharEq, v: Video)
    ensures v in FilterByTitle(vs, query, same) <==> v in vs && ContainsIgnoringCase(v.title, query, same)
  {
    if vs != [] {
      FilterByTitleMembership(vs[..|vs| - 1], query, same, v);
      assert vs == vs[..|vs| - 1] + [vs[|vs| - 1]];
    }
  }

  /** Filtering a concatenation filters each part and keeps them in order,
      so the filter keeps the loaded order. */
  lemma {:induction false} FilterAppend(a: seq<Video>, b: seq<Video>, query: string, same: CharEq)
    ensures FilterByTitle(a + b, query, same) == FilterByTitle(a, query, same) + FilterByTitle(b, query, same)
  {
    if b == [] {
      assert a + b == a;
    } else {
      var n := |b| - 1;
      assert (a + b)[..|a + b| - 1] == a + b[..n];
      FilterAppend(a, b[..n], query, same);
    }
  }

  /** The filter never shows more than was loaded. */
  lemma {:induction false} FilterShrinks(vs: seq<Video>, query: string, same: CharEq)
    ensures |FilterByTitle(vs, query, same)| <= |vs|
  {
    if vs != [] {
      FilterShrinks(vs[..|vs| - 1], query, same);
    }
  }

  /** Applying the filter to the empty query would also show the whole list,
      so the empty-query shortcut does not change what is shown. */
  lemma {:induction false} EmptyQueryKeepsAll(vs: seq<Video>, same: CharEq)
    ensures FilterByTitle(vs, "", same) == vs
  {
    if vs != [] {
      EmptyQueryKeepsAll(vs[..|vs| - 1], same);
      EmptyQueryContained(vs[|vs| - 1].title, same);
    }
  }

  /** The screen's search state. */
  class SearchBar {
    var isSearching: bool
    var query: string

    constructor ()
      ensures !isSearching && query == ""
    {
      isSearching := false;
      query := "";
    }

    /** The search icon: flip the search field; closing it clears the query. */
    method ToggleSearch()
      modifies this
      ensures isSearching == !old(isSearching)
      ensures query == if isSearching then old(query) else ""
    {
      isSearching := !isSearching;
      if !isSearching {
        query := "";
      }
    }

    /** The text field's `onValueChange`. */
    method OnQueryChange(text: string)
      modifies this
      ensures query == text && isSearching == old(isSearching)
    {
      query := text;
    }
  }

  /** Closing the search shows the whole loaded list again. */
  lemma ClosedSearchShowsAll(vs: seq<Video>, same: CharEq)
    ensures Filtered(vs, "", same) == vs
  {
  }

  /** A tap on grid item `index` hands the filtered list and that index to
      the player; the grid only has items for the filtered list. */
  method TapToPlay(player: VideoPlayerViewModel, videos: seq<Video>, query: string, same: CharEq, index: int)
    requires player.Valid()
    requires 0 <= index < |Filtered(videos, query, same)|
    modifies player
    ensures player.Valid()
    ensures player.playlist == Filtered(videos, query, same)
    ensures player.currentIndex == index && player.isPlaying
    ensures player.CurrentVideo() == Some(Filtered(videos, query, same)[index])
  {
    var filteredVideos := Filtered(videos, query, same);
    player.SetPlaylist(filteredVideos, index);
  }
}

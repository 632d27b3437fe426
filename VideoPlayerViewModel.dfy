/** `VideoPlayerViewModel`: the playlist, the current index, the playing flag
    and the one playback engine they drive. The engine is a foreign library;
    here it is the record of the state the view model sets and reads. */
module VideoPlayerViewModel {
  import opened Domain
  import opened JvmLib

  /** The engine's "duration not known yet" (`C.TIME_UNSET`), which it
      reports until the media has been prepared. */
  const TIME_UNSET: int := LONG_MIN + 1

  /** What the view model sets on, and reads from, the engine. */
  datatype Engine = Engine(
    items: seq<Uri>,
    mediaIndex: int,
    position: int,
    duration: int,
    playWhenReady: bool,
    speed: real)

  /** The fields of the view model, as one value. */
  datatype Session = Session(
    engine: Option<Engine>,
    playlist: seq<Video>,
    currentIndex: int,
    isPlaying: bool)

  /** The view model's invariant: with no playlist the index is 0 and there
      is no engine; otherwise the index is within the playlist, and any
      engine holds the playlist's items and sits on the current one. */
  predicate SessionValid(s: Session)
  {
    && (s.playlist == [] ==> s.currentIndex == 0 && s.engine.None?)
    && (s.playlist != [] ==> 0 <= s.currentIndex < |s.playlist|)
    && (s.engine.Some? ==>
          s.engine.value.items == Uris(s.playlist) && s.engine.value.mediaIndex == s.currentIndex)
  }

  const InitialSession := Session(None, [], 0, false)

  /** A freshly built engine after `setMediaItems`, `seekTo(index, 0)` and
      `playWhenReady = true`; its duration is not known yet. */
  function NewEngine(items: seq<Uri>, index: int): Engine
  {
    Engine(items, index, 0, TIME_UNSET, true, 1.0)
  }

  /** `seekTo(index, 0)` followed by `playWhenReady = true`. */
  function MoveTo(e: Engine, index: int): Engine
  {
    e.(mediaIndex := index, position := 0, playWhenReady := true)
  }

  function SetPlaylistSpec(s: Session, videos: seq<Video>, startIndex: int): (t: Session)
    ensures videos == [] ==> t == s
    ensures videos != [] ==>
      && t.playlist == videos
      && t.currentIndex == CoerceIn(startIndex, 0, |videos| - 1)
      && t.engine == Some(NewEngine(Uris(videos), t.currentIndex))
      && t.isPlaying
  {
    if videos == [] then s
    else
      var index := CoerceIn(startIndex, 0, |videos| - 1);
      Session(Some(NewEngine(Uris(videos), index)), videos, index, true)
  }

  function NextSpec(s: Session): Session
  {
    if s.currentIndex < |s.playlist| - 1 then
      var index := s.currentIndex + 1;
      s.(currentIndex := index,
         engine := if s.engine.Some? then Some(MoveTo(s.engine.value, index)) else None)
    else s
  }

  function PreviousSpec(s: Session): Session
  {
    if s.currentIndex > 0 then
      var index := s.currentIndex - 1;
      s.(currentIndex := index,
         engine := if s.engine.Some? then Some(MoveTo(s.engine.value, index)) else None)
    else s
  }

  function PlayPauseSpec(s: Session): Session
  {
    match s.engine
    case None => s
    case Some(e) =>
      var e' := e.(playWhenReady := !e.playWhenReady);
      s.(engine := Some(e'), isPlaying := e'.playWhenReady)
  }

  /** The target of a relative seek as the source computes it:
      `(position + ms).coerceIn(0, duration)`, which throws (`None`) when the
      duration is negative, as it is while the engine reports `TIME_UNSET`. */
  function SeekTargetAsWritten(position: int, ms: int, duration: int): (r: Option<int>)
    ensures r.None? <==> duration < 0
    ensures r.Some? ==> 0 <= r.value <= duration
  {
    CoerceInChecked(position + ms, 0, duration)
  }

  /** The target of a relative seek with the empty range avoided: never
      before the start, and never past the end once the end is known. */
  function SeekTarget(position: int, ms: int, duration: int): (r: int)
    ensures r >= 0
    ensures duration >= 0 ==> r <= duration
    ensures 0 <= position + ms && (duration < 0 || position + ms <= duration) ==> r == position + ms
  {
    if duration < 0 then (if position + ms < 0 then 0 else position + ms)
    else CoerceIn(position + ms, 0, duration)
  }

  function SeekBySpec(s: Session, ms: int): Session
  {
    match s.engine
    case None => s
    case Some(e) => s.(engine := Some(e.(position := SeekTarget(e.position, ms, e.duration))))
  }

  /** `currentVideo`: `playlist.getOrNull(currentIndex)`. */
  function CurrentVideoOf(s: Session): (v: Option<Video>)
    ensures v.Some? <==> 0 <= s.currentIndex < |s.playlist|
    ensures v.Some? ==> v.value == s.playlist[s.currentIndex]
  {
    if 0 <= s.currentIndex < |s.playlist| then Some(s.playlist[s.currentIndex]) else None
  }

  class VideoPlayerViewModel {
    var engine: Option<Engine>
    var playlist: seq<Video>
    var currentIndex: int
    var isPlaying: bool

    function State(): Session
      reads this
    {
      Session(engine, playlist, currentIndex, isPlaying)
    }

    predicate Valid()
      reads this
    {
      SessionValid(State())
    }

    constructor ()
      ensures Valid() && State() == InitialSession
    {
      engine := None;
      playlist := [];
      currentIndex := 0;
      isPlaying := false;
    }

    function CurrentVideo(): (v: Option<Video>)
      reads this
      ensures v == CurrentVideoOf(State())
    {
      if 0 <= currentIndex < |playlist| then Some(playlist[currentIndex]) else None
    }

    /** `setPlaylist`: an empty list is ignored; otherwise the old engine is
        released and a new one starts on the clamped start index. */
    method SetPlaylist(videos: seq<Video>, startIndex: int)
      requires Valid()
      modifies this
      ensures Valid()
      ensures State() == SetPlaylistSpec(old(State()), videos, startIndex)
    {
      if videos == [] {
        return;
      }
      playlist := videos;
      currentIndex := CoerceIn(startIndex, 0, |videos| - 1);
      engine := Some(NewEngine(Uris(playlist), currentIndex));
      isPlaying := true;
    }

    method PlayPause()
      requires Valid()
      modifies this
      ensures Valid()
      ensures State() == PlayPauseSpec(old(State()))
    {
      if engine.Some? {
        var e := engine.value;
        engine := Some(e.(playWhenReady := !e.playWhenReady));
        isPlaying := engine.value.playWhenReady;
      }
    }

    /** `seekToPosition`: hands the position to the engine as given. */
    method SeekToPosition(positionMs: int)
      requires Valid()
      modifies this
      ensures Valid()
      ensures State() == if old(engine).None? then old(State())
                         else old(State()).(engine := Some(old(engine).value.(position := positionMs)))
    {
      if engine.Some? {
        engine := Some(engine.value.(position := positionMs));
      }
    }

    /** `seekBy`, with the target taken from `SeekTarget`. */
    method SeekBy(ms: int)
      requires Valid()
      modifies this
      ensures Valid()
      ensures State() == SeekBySpec(old(State()), ms)
    {
      if engine.Some? {
        var e := engine.value;
        var newPos := SeekTarget(e.position, ms, e.duration);
        engine := Some(e.(position := newPos));
      }
    }

    method Next()
      requires Valid()
      modifies this
      ensures Valid()
      ensures State() == NextSpec(old(State()))
    {
      if currentIndex < |playlist| - 1 {
        currentIndex := currentIndex + 1;
        if engine.Some? {
          engine := Some(MoveTo(engine.value, currentIndex));
        }
      }
    }

    method Previous()
      requires Valid()
      modifies this
      ensures Valid()
      ensures State() == PreviousSpec(old(State()))
    {
      if currentIndex > 0 {
        currentIndex := currentIndex - 1;
        if engine.Some? {
          engine := Some(MoveTo(engine.value, currentIndex));
        }
      }
    }

    /** The engine's `onMediaItemTransition` callback: the engine moved on
        to another of its items by itself, and the index follows it. */
    method OnMediaItemTransition(newIndex: int)
      requires Valid() && engine.Some?
      requires 0 <= newIndex < |engine.value.items|
      modifies this
      ensures Valid()
      ensures currentIndex == newIndex && playlist == old(playlist) && isPlaying == old(isPlaying)
      ensures engine == Some(old(engine).value.(mediaIndex := newIndex))
    {
      engine := Some(engine.value.(mediaIndex := newIndex));
      currentIndex := engine.value.mediaIndex;
    }

    /** The engine's `onIsPlayingChanged` callback. */
    method OnIsPlayingChanged(isPlayingNow: bool)
      requires Valid()
      modifies this
      ensures Valid()
      ensures State() == old(State()).(isPlaying := isPlayingNow)
    {
      isPlaying := isPlayingNow;
    }

    /** `onCleared`: the engine is released and forgotten. */
    method OnCleared()
      requires Valid()
      modifies this
      ensures Valid()
      ensures State() == old(State()).(engine := None)
    {
      engine := None;
    }
  }

  // ---------------------------------------------------------------------
  // What the transitions promise

  /** Every transition keeps the index within the playlist. */
  lemma TransitionsKeepValid(s: Session, videos: seq<Video>, startIndex: int, ms: int)
    requires SessionValid(s)
    ensures SessionValid(SetPlaylistSpec(s, videos, startIndex))
    ensures SessionValid(NextSpec(s)) && SessionValid(PreviousSpec(s))
    ensures SessionValid(PlayPauseSpec(s)) && SessionValid(SeekBySpec(s, ms))
  {
  }

  /** `next` moves forward by exactly one when not on the last item and
      otherwise changes nothing; the engine follows to the start of the new
      item and plays. */
  lemma NextMoves(s: Session)
    requires SessionValid(s)
    ensures var t := NextSpec(s);
      && t.playlist == s.playlist && t.isPlaying == s.isPlaying
      && (s.currentIndex < |s.playlist| - 1 ==>
            t.currentIndex == s.currentIndex + 1
            && (t.engine.Some? ==> t.engine.value.mediaIndex == t.currentIndex
                                   && t.engine.value.position == 0 && t.engine.value.playWhenReady))
      && (s.currentIndex >= |s.playlist| - 1 ==> t == s)
  {
  }

  /** `previous` moves back by exactly one when not on the first item and
      otherwise changes nothing; the engine follows to the start of the new
      item and plays. */
  lemma PreviousMoves(s: Session)
    requires SessionValid(s)
    ensures var t := PreviousSpec(s);
      && t.playlist == s.playlist && t.isPlaying == s.isPlaying
      && (s.currentIndex > 0 ==>
            t.currentIndex == s.currentIndex - 1
            && (t.engine.Some? ==> t.engine.value.mediaIndex == t.currentIndex
                                   && t.engine.value.position == 0 && t.engine.value.playWhenReady))
      && (s.currentIndex == 0 ==> t == s)
  {
  }

  /** `previous` undoes `next` wherever `next` moved, up to the engine's
      position and play flag, which both set. */
  lemma PreviousAfterNext(s: Session)
    requires SessionValid(s)
    requires s.currentIndex < |s.playlist| - 1
    ensures PreviousSpec(NextSpec(s)).currentIndex == s.currentIndex
    ensures PreviousSpec(NextSpec(s)).playlist == s.playlist
    ensures s.engine.Some? ==> PreviousSpec(NextSpec(s)).engine == Some(MoveTo(s.engine.value, s.currentIndex))
  {
  }

  /** `playPause` twice restores the engine's flag; each time `isPlaying`
      takes the engine's new flag. */
  lemma PlayPauseTwice(s: Session)
    requires s.engine.Some?
    ensures PlayPauseSpec(s).isPlaying == !s.engine.value.playWhenReady
    ensures PlayPauseSpec(PlayPauseSpec(s)).engine == s.engine
    ensures PlayPauseSpec(PlayPauseSpec(s)).isPlaying == s.engine.value.playWhenReady
  {
  }

  /** A non-empty playlist always has a current video. */
  lemma CurrentVideoPresent(s: Session)
    requires SessionValid(s) && s.playlist != []
    ensures CurrentVideoOf(s) == Some(s.playlist[s.currentIndex])
  {
  }

  /** The corrected target agrees with the source wherever the source does
      not throw. */
  lemma SeekTargetAgrees(position: int, ms: int, duration: int)
    requires duration >= 0
    ensures SeekTargetAsWritten(position, ms, duration) == Some(SeekTarget(position, ms, duration))
  {
  }

  /** As written, a relative seek on an engine that has not yet reported its
      duration throws instead of seeking. */
  lemma SeekThrowsWhileDurationUnset(position: int, ms: int)
    ensures SeekTargetAsWritten(position, ms, TIME_UNSET).None?
    ensures SeekTarget(position, ms, TIME_UNSET) == (if position + ms < 0 then 0 else position + ms)
  {
  }
}

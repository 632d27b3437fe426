/** `VideoOrientationManager`: a sensor listener that keeps the last
    orientation it requested and asks the activity for landscape or portrait
    only when a reading's classification differs from it. */
module VideoOrientationManager {
  import opened Domain

  const ORIENTATION_UNKNOWN: int := -1

  /** The manager's two bands; its bands are wider than the player screen's
      and everything outside them reads as portrait. */
  function Classify(angle: int): (o: ScreenOrientation)
    ensures o == Landscape || o == Portrait
    ensures o == Landscape <==> 60 <= angle <= 120 || 240 <= angle <= 300
  {
    if 60 <= angle <= 120 || 240 <= angle <= 300 then Landscape else Portrait
  }

  /** What one reading does: the new last orientation, and the request it
      issues, if any. */
  datatype Step = Step(last: ScreenOrientation, request: Option<ScreenOrientation>)

  function StepFor(last: ScreenOrientation, angle: int): Step
  {
    if angle == ORIENTATION_UNKNOWN then Step(last, None)
    else
      var o := Classify(angle);
      if o != last then Step(o, Some(o)) else Step(last, None)
  }

  class OrientationManager {
    var lastOrientation: ScreenOrientation
    /** The orientations requested from the activity, oldest first. */
    var requests: seq<ScreenOrientation>

    constructor ()
      ensures lastOrientation == Portrait && requests == []
    {
      lastOrientation := Portrait;
      requests := [];
    }

    method OnOrientationChanged(angle: int)
      modifies this
      ensures var s := StepFor(old(lastOrientation), angle);
        && lastOrientation == s.last
        && requests == old(requests) + (if s.request.Some? then [s.request.value] else [])
    {
      if angle == ORIENTATION_UNKNOWN {
        return;
      }
      var newOrientation := Classify(angle);
      if newOrientation != lastOrientation {
        requests := requests + [newOrientation];
        lastOrientation := newOrientation;
      }
    }
  }

  /** An unknown reading changes nothing and requests nothing. */
  lemma UnknownIgnored(last: ScreenOrientation)
    ensures StepFor(last, ORIENTATION_UNKNOWN) == Step(last, None)
  {
  }

  /** A request is issued exactly when a known reading classifies
      differently from the last orientation, and it asks for that
      classification. */
  lemma RequestOnlyOnChange(last: ScreenOrientation, angle: int)
    ensures var s := StepFor(last, angle);
      && (s.request.Some? <==> angle != ORIENTATION_UNKNOWN && Classify(angle) != last)
      && (s.request.Some? ==> s.request.value == Classify(angle))
  {
  }

  /** After a known reading the last orientation is its classification. */
  lemma KnownReadingSets(last: ScreenOrientation, angle: int)
    requires angle != ORIENTATION_UNKNOWN
    ensures StepFor(last, angle).last == Classify(angle)
  {
  }

  /** Starting from portrait, a first portrait reading requests nothing. */
  lemma FirstPortraitSilent(angle: int)
    requires angle != ORIENTATION_UNKNOWN && Classify(angle) == Portrait
    ensures StepFor(Portrait, angle).request == None
  {
  }

  /** The same reading twice in a row issues at most one request: the second
      never issues one. */
  lemma SameReadingTwice(last: ScreenOrientation, angle: int)
    ensures StepFor(StepFor(last, angle).last, angle).request == None
  {
  }

  /** Readings fed one after another, as the listener receives them: the
      final last orientation and every request issued, oldest first. */
  datatype Trace = Trace(last: ScreenOrientation, requests: seq<ScreenOrientation>)

  function Run(start: ScreenOrientation, angles: seq<int>): Trace
  {
    if angles == [] then Trace(start, [])
    else
      var t := Run(start, angles[..|angles| - 1]);
      var s := StepFor(t.last, angles[|angles| - 1]);
      Trace(s.last, t.requests + (if s.request.Some? then [s.request.value] else []))
  }

  /** From portrait, the manager only ever sits in landscape or portrait; its
      requests never repeat the one before (the first is never portrait), and
      the last orientation is the most recent request. */
  lemma {:induction false} RunAlternates(angles: seq<int>)
    ensures var t := Run(Portrait, angles);
      && (t.last == Portrait || t.last == Landscape)
      && (t.requests == [] ==> t.last == Portrait)
      && (t.requests != [] ==> t.last == t.requests[|t.requests| - 1] && t.requests[0] != Portrait)
      && (forall i :: 0 < i < |t.requests| ==> t.requests[i] != t.requests[i - 1])
  {
    if angles != [] {
      RunAlternates(angles[..|angles| - 1]);
    }
  }
}

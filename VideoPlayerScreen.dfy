/** The logic inside `VideoPlayerScreen`: the drag gesture that seeks or
    changes brightness, volume or speed; the orientation listener; the resume
    threshold for a saved position; and `formatTime`. Float arithmetic is
    done on reals; Compose rendering and the overlay text are not modelled. */
module VideoPlayerScreen {
  import opened Domain
  import opened JvmLib
  import opened VideoPlayerViewModel
  import TimeUtil

  // ---------------------------------------------------------------------
  // Gesture to transport

  /** `GestureMode`; `Undecided` is the source's `NONE`. */
  datatype GestureMode = Undecided | Seek | Volume | Brightness | Speed

  datatype Point = Point(x: real, y: real)

  /** The state one gesture reads and changes outside its own variables: the
      engine's position, duration and speed, the music stream volume and the
      window brightness. */
  datatype Controls = Controls(position: int, duration: int, engineSpeed: real, volume: int, brightness: real)

  /** The detector's captured variables, and the controls. */
  datatype Gesture = Gesture(mode: GestureMode, lastStepY: real, speed: real, controls: Controls)

  const DEAD_ZONE: real := 8.0
  const SEEK_WINDOW_MS: real := 90000.0
  const BRIGHTNESS_STEP: real := 0.02
  const BRIGHTNESS_MIN: real := 0.1
  const BRIGHTNESS_MAX: real := 1.0
  const SPEED_STEP: real := 0.05
  const SPEED_MIN: real := 0.5
  const SPEED_MAX: real := 2.0

  function Abs(r: real): real { if r < 0.0 then -r else r }

  /** The mode a gesture's first movement fixes: a mostly horizontal drag
      seeks; otherwise the start's third of the view decides. */
  function Classify(deltaX: real, deltaY: real, startX: real, width: int): (m: GestureMode)
    ensures m != Undecided
    ensures m == Seek <==> Abs(deltaX) > Abs(deltaY)
    ensures m == Brightness <==> Abs(deltaX) <= Abs(deltaY) && startX < width as real * 0.33
    ensures m == Volume <==> Abs(deltaX) <= Abs(deltaY) && startX >= width as real * 0.33 && startX > width as real * 0.66
    ensures m == Speed <==> Abs(deltaX) <= Abs(deltaY) && width as real * 0.33 <= startX <= width as real * 0.66
  {
    if Abs(deltaX) > Abs(deltaY) then Seek
    else if startX < width as real * 0.33 then Brightness
    else if startX > width as real * 0.66 then Volume
    else Speed
  }

  /** The volume after one step: one unit up or down, kept in [0, max]. */
  function StepVolume(current: int, up: bool, maxVolume: int): (v: int)
    requires maxVolume >= 0
    ensures 0 <= v <= maxVolume
    ensures 0 <= current < maxVolume && up ==> v == current + 1
    ensures 0 < current <= maxVolume && !up ==> v == current - 1
    ensures up ==> v >= current || current > maxVolume
    ensures !up ==> v <= current || current < 0
  {
    CoerceIn(current + if up then 1 else -1, 0, maxVolume)
  }

  /** The window brightness after one step of 0.02, kept in [0.1, 1.0]. */
  function StepBrightness(current: real, up: bool): (b: real)
    ensures BRIGHTNESS_MIN <= b <= BRIGHTNESS_MAX
    ensures BRIGHTNESS_MIN <= current + BRIGHTNESS_STEP <= BRIGHTNESS_MAX && up ==> b == current + BRIGHTNESS_STEP
    ensures BRIGHTNESS_MIN <= current - BRIGHTNESS_STEP <= BRIGHTNESS_MAX && !up ==> b == current - BRIGHTNESS_STEP
    ensures BRIGHTNESS_MIN <= current <= BRIGHTNESS_MAX && up ==> b >= current
    ensures BRIGHTNESS_MIN <= current <= BRIGHTNESS_MAX && !up ==> b <= current
  {
    CoerceInReal(current + if up then BRIGHTNESS_STEP else -BRIGHTNESS_STEP, BRIGHTNESS_MIN, BRIGHTNESS_MAX)
  }

  /** The playback speed after one step of 0.05, kept in [0.5, 2.0]. */
  function StepSpeed(current: real, up: bool): (s: real)
    ensures SPEED_MIN <= s <= SPEED_MAX
    ensures SPEED_MIN <= current + SPEED_STEP <= SPEED_MAX && up ==> s == current + SPEED_STEP
    ensures SPEED_MIN <= current - SPEED_STEP <= SPEED_MAX && !up ==> s == current - SPEED_STEP
    ensures SPEED_MIN <= current <= SPEED_MAX && up ==> s >= current
    ensures SPEED_MIN <= current <= SPEED_MAX && !up ==> s <= current
  {
    CoerceInReal(current + if up then SPEED_STEP else -SPEED_STEP, SPEED_MIN, SPEED_MAX)
  }

  /** The seek offset of a drag: `(deltaX / width * 90_000).toLong()`, so a
      drag across the whole view seeks 90 seconds. */
  function SeekOffset(deltaX: real, width: int): (ms: int)
    requires width > 0
    ensures deltaX >= 0.0 ==> ms >= 0
    ensures deltaX <= 0.0 ==> ms <= 0
    ensures var x := deltaX / width as real * SEEK_WINDOW_MS;
      Abs(x - ms as real) < 1.0 && Abs(ms as real) <= Abs(x)
  {
    TruncReal(deltaX / width as real * SEEK_WINDOW_MS)
  }

  /** One adjustment in the given mode, `step` being the vertical movement
      since the last applied step (positive upward). */
  function Adjust(g: Gesture, deltaX: real, step: real, width: int, maxVolume: int): Gesture
    requires width > 0 && maxVolume >= 0
  {
    var c := g.controls;
    match g.mode
    case Seek => g.(controls := c.(position := SeekTarget(c.position, SeekOffset(deltaX, width), c.duration)))
    case Brightness => g.(controls := c.(brightness := StepBrightness(c.brightness, step > 0.0)))
    case Volume => g.(controls := c.(volume := StepVolume(c.volume, step > 0.0, maxVolume)))
    case Speed =>
      var s := StepSpeed(g.speed, step > 0.0);
      g.(speed := s, controls := c.(engineSpeed := s))
    case Undecided => g
  }

  /** `onDown`: a new gesture, mode undecided, measured from the touch. */
  function OnDownSpec(g: Gesture, e: Point): Gesture
  {
    g.(mode := Undecided, lastStepY := e.y, speed := g.controls.engineSpeed)
  }

  /** `onScroll`, for a movement from `e1` (the gesture's first touch; the
      platform may not supply it) to `e2`. */
  function OnScrollSpec(g: Gesture, e1: Option<Point>, e2: Point, width: int, maxVolume: int): Gesture
    requires width > 0 && maxVolume >= 0
  {
    match e1
    case None => g
    case Some(start) =>
      var deltaX := e2.x - start.x;
      var deltaY := e2.y - start.y;
      var mode := if g.mode == Undecided then Classify(deltaX, deltaY, start.x, width) else g.mode;
      var step := g.lastStepY - e2.y;
      if Abs(step) < DEAD_ZONE then g.(mode := mode)
      else Adjust(g.(mode := mode, lastStepY := e2.y), deltaX, step, width, maxVolume)
  }

  /** The detector of one player view; `maxVolume` is the stream's maximum.
      The view's width is read again on every movement, since the screen
      rotates the view. */
  class GestureDetector {
    var mode: GestureMode
    var lastStepY: real
    var speed: real
    var controls: Controls
    const maxVolume: int

    function State(): Gesture
      reads this
    {
      Gesture(mode, lastStepY, speed, controls)
    }

    predicate Valid()
      reads this
    {
      maxVolume >= 0
    }

    constructor (maxVolume: int, controls: Controls)
      requires maxVolume >= 0
      ensures Valid() && this.maxVolume == maxVolume
      ensures State() == Gesture(Undecided, 0.0, controls.engineSpeed, controls)
    {
      this.maxVolume := maxVolume;
      this.controls := controls;
      mode := Undecided;
      lastStepY := 0.0;
      speed := controls.engineSpeed;
    }

    method OnDown(e: Point) returns (consumed: bool)
      requires Valid()
      modifies this
      ensures Valid() && consumed
      ensures State() == OnDownSpec(old(State()), e)
    {
      mode := Undecided;
      lastStepY := e.y;
      speed := controls.engineSpeed;
      consumed := true;
    }

    /** `width` is the view's current width, positive whenever the view
        receives touches. */
    method OnScroll(e1: Option<Point>, e2: Point, width: int) returns (consumed: bool)
      requires Valid() && width > 0
      modifies this
      ensures Valid()
      ensures consumed <==> e1.Some?
      ensures State() == OnScrollSpec(old(State()), e1, e2, width, maxVolume)
    {
      if e1.None? {
        return false;
      }
      var start := e1.value;
      var deltaX := e2.x - start.x;
      var deltaY := e2.y - start.y;
      if mode == Undecided {
        mode := Classify(deltaX, deltaY, start.x, width);
      }
      var step := lastStepY - e2.y;
      if Abs(step) < DEAD_ZONE {
        return true;
      }
      lastStepY := e2.y;
      match mode {
        case Seek =>
          var seekMs := SeekOffset(deltaX, width);
          controls := controls.(position := SeekTarget(controls.position, seekMs, controls.duration));
        case Brightness =>
          controls := controls.(brightness := StepBrightness(controls.brightness, step > 0.0));
        case Volume =>
          var newVol := StepVolume(controls.volume, step > 0.0, maxVolume);
          controls := controls.(volume := newVol);
        case Speed =>
          speed := StepSpeed(speed, step > 0.0);
          controls := controls.(engineSpeed := speed);
        case Undecided =>
      }
      return true;
    }
  }

  /** The movements of one gesture after its `onDown`. */
  datatype Move = Move(e1: Option<Point>, e2: Point)

  function Scrolls(g: Gesture, moves: seq<Move>, width: int, maxVolume: int): Gesture
    requires width > 0 && maxVolume >= 0
  {
    if moves == [] then g
    else
      var last := moves[|moves| - 1];
      OnScrollSpec(Scrolls(g, moves[..|moves| - 1], width, maxVolume), last.e1, last.e2, width, maxVolume)
  }

  /** `onDown` resets the mode and takes the start height and speed. */
  lemma OnDownResets(g: Gesture, e: Point)
    ensures OnDownSpec(g, e).mode == Undecided
    ensures OnDownSpec(g, e).lastStepY == e.y
    ensures OnDownSpec(g, e).controls == g.controls
  {
  }

  /** A decided mode never changes for the rest of the gesture. */
  lemma {:induction false} ModeSticks(g: Gesture, moves: seq<Move>, width: int, maxVolume: int)
    requires width > 0 && maxVolume >= 0
    requires g.mode != Undecided
    ensures Scrolls(g, moves, width, maxVolume).mode == g.mode
  {
    if moves != [] {
      ModeSticks(g, moves[..|moves| - 1], width, maxVolume);
    }
  }

  /** After `onDown`, the first movement from the start point `start` to
      `e2` decides the mode by its direction and the start's third of the
      view, and from then on every movement of the gesture keeps it. */
  lemma {:induction false} FirstMoveDecides(g: Gesture, e: Point, start: Point, e2: Point, rest: seq<Move>, width: int, maxVolume: int)
    requires width > 0 && maxVolume >= 0
    ensures var g1 := OnScrollSpec(OnDownSpec(g, e), Some(start), e2, width, maxVolume);
      && g1.mode == Classify(e2.x - start.x, e2.y - start.y, start.x, width)
      && g1.mode != Undecided
      && Scrolls(g1, rest, width, maxVolume).mode == g1.mode
  {
    var g1 := OnScrollSpec(OnDownSpec(g, e), Some(start), e2, width, maxVolume);
    ModeSticks(g1, rest, width, maxVolume);
  }

  /** A movement within the dead zone changes no control and keeps the last
      step height. */
  lemma DeadZone(g: Gesture, e1: Point, e2: Point, width: int, maxVolume: int)
    requires width > 0 && maxVolume >= 0
    requires Abs(g.lastStepY - e2.y) < DEAD_ZONE
    ensures var t := OnScrollSpec(g, Some(e1), e2, width, maxVolume);
      t.controls == g.controls && t.lastStepY == g.lastStepY && t.speed == g.speed
  {
  }

  /** A movement outside the dead zone moves the step height to it. */
  lemma StepTaken(g: Gesture, e1: Point, e2: Point, width: int, maxVolume: int)
    requires width > 0 && maxVolume >= 0
    requires Abs(g.lastStepY - e2.y) >= DEAD_ZONE
    ensures OnScrollSpec(g, Some(e1), e2, width, maxVolume).lastStepY == e2.y
  {
  }

  /** Whatever the state before, a speed or brightness step leaves them in
      range, and a volume step leaves the volume within [0, max]. */
  lemma {:induction false} ControlsStayInRange(g: Gesture, e1: Point, e2: Point, width: int, maxVolume: int)
    requires width > 0 && maxVolume >= 0
    requires Abs(g.lastStepY - e2.y) >= DEAD_ZONE
    ensures var t := OnScrollSpec(g, Some(e1), e2, width, maxVolume);
      && (t.mode == Speed ==> SPEED_MIN <= t.speed <= SPEED_MAX && t.controls.engineSpeed == t.speed)
      && (t.mode == Brightness ==> BRIGHTNESS_MIN <= t.controls.brightness <= BRIGHTNESS_MAX)
      && (t.mode == Volume ==> 0 <= t.controls.volume <= maxVolume)
      && (t.mode == Seek ==>
            t.controls.position >= 0 && (g.controls.duration >= 0 ==> t.controls.position <= g.controls.duration))
  {
  }

  /** The volume a gesture step leaves is the current one moved by one toward
      the drag, within [0, max]. */
  lemma VolumeStep(g: Gesture, e1: Point, e2: Point, width: int, maxVolume: int)
    requires width > 0 && maxVolume >= 0
    requires g.mode == Volume && Abs(g.lastStepY - e2.y) >= DEAD_ZONE
    ensures OnScrollSpec(g, Some(e1), e2, width, maxVolume).controls.volume
         == CoerceIn(g.controls.volume + (if g.lastStepY - e2.y > 0.0 then 1 else -1), 0, maxVolume)
  {
  }

  /** In seek mode, a step past the dead zone seeks to the current position
      moved by the drag's offset, kept within the known duration. */
  lemma SeekStep(g: Gesture, e1: Point, e2: Point, width: int, maxVolume: int)
    requires width > 0 && maxVolume >= 0
    requires g.mode == Seek && Abs(g.lastStepY - e2.y) >= DEAD_ZONE
    ensures OnScrollSpec(g, Some(e1), e2, width, maxVolume).controls.position
         == SeekTarget(g.controls.position, SeekOffset(e2.x - e1.x, width), g.controls.duration)
  {
  }

  /** The window's "no override" brightness (-1) becomes the floor on the
      first step, whichever way the drag goes. */
  lemma BrightnessFromNoOverride(up: bool)
    ensures StepBrightness(-1.0, up) == BRIGHTNESS_MIN
  {
  }

  // ---------------------------------------------------------------------
  // Orientation listener

  const ORIENTATION_UNKNOWN: int := -1

  /** The listener's mapping from a sensor angle to a requested orientation;
      outside every band the current value stays. */
  function OrientationFor(angle: int, current: ScreenOrientation): (o: ScreenOrientation)
    ensures 80 <= angle <= 100 ==> o == ReverseLandscape
    ensures 260 <= angle <= 280 ==> o == Landscape
    ensures (350 <= angle <= 360 || 0 <= angle <= 10) ==> o == Portrait
    ensures !(80 <= angle <= 100 || 260 <= angle <= 280 || 350 <= angle <= 360 || 0 <= angle <= 10) ==> o == current
  {
    if 80 <= angle <= 100 then ReverseLandscape
    else if 260 <= angle <= 280 then Landscape
    else if 350 <= angle <= 360 || 0 <= angle <= 10 then Portrait
    else current
  }

  /** The orientation state of one player screen. */
  class OrientationListener {
    var locked: bool
    var current: ScreenOrientation
    var requested: ScreenOrientation

    constructor ()
      ensures !locked && current == Unspecified && requested == Unspecified
    {
      locked := false;
      current := Unspecified;
      requested := Unspecified;
    }

    method OnOrientationChanged(angle: int)
      modifies this
      ensures locked == old(locked)
      ensures old(locked) || angle == ORIENTATION_UNKNOWN ==>
        current == old(current) && requested == old(requested)
      ensures !old(locked) && angle != ORIENTATION_UNKNOWN ==>
        current == OrientationFor(angle, old(current)) && requested == current
    {
      if locked || angle == ORIENTATION_UNKNOWN {
        return;
      }
      current := OrientationFor(angle, current);
      requested := current;
    }

    /** The lock button. Changing the lock disposes the listener effect,
        whose clean-up requests `UNSPECIFIED`, then installs a new one. */
    method ToggleLock()
      modifies this
      ensures locked == !old(locked)
      ensures current == old(current) && requested == Unspecified
    {
      locked := !locked;
      requested := Unspecified;
    }
  }

  /** The same reading twice in a row asks for what it asked the first time. */
  lemma OrientationIdempotent(angle: int, current: ScreenOrientation)
    ensures OrientationFor(angle, OrientationFor(angle, current)) == OrientationFor(angle, current)
  {
  }

  // ---------------------------------------------------------------------
  // Resume and time text

  const RESUME_THRESHOLD_MS: int := 2000

  /** The position to resume from, given the stored one (absent reads as 0):
      only a position past two seconds is restored. */
  function ResumeSeek(saved: Option<int>): (r: Option<int>)
    ensures r.Some? <==> saved.Some? && saved.value > RESUME_THRESHOLD_MS
    ensures r.Some? ==> r == saved
  {
    var s := if saved.None? then 0 else saved.value;
    if s > RESUME_THRESHOLD_MS then Some(s) else None
  }

  /** `formatTime`: minutes and seconds only, with Kotlin's truncating `/`
      and `%`. */
  function FormatTime(ms: int): string
  {
    var totalSeconds := TruncDiv(ms, 1000);
    Pad2(TruncDiv(totalSeconds, 60)) + ":" + Pad2(TruncRem(totalSeconds, 60))
  }

  /** Under an hour, `formatTime` and `formatMillis` print the same text. */
  lemma FormatTimeMatchesUnderAnHour(ms: int)
    requires 0 <= ms < 3_600_000
    ensures FormatTime(ms) == TimeUtil.FormatMillis(ms)
  {
    if ms > 0 {
      var c := TimeUtil.ClockOf(ms);
      assert c.hours == 0;
      assert TruncDiv(ms / 1000, 60) == c.minutes;
    }
  }

  /** From an hour on, `formatTime` keeps counting minutes past 59. */
  lemma FormatTimeAnHour()
    ensures FormatTime(3_600_000) == "60:00"
    ensures TimeUtil.FormatMillis(3_600_000) == "1:00:00"
  {
    assert NatToString(60) == "60" by { assert NatToString(6) == "6"; }
    assert Pad2(0) == "00";
  }

  /** A negative time of under a minute prints zero minutes and, from one
      second on, a negative seconds field (`-1500` gives `00:-1`). */
  lemma FormatTimeNegative(ms: int)
    requires -60_000 < ms < 0
    ensures -1000 < ms ==> FormatTime(ms) == "00:00"
    ensures ms <= -1000 ==> FormatTime(ms) == "00:-" + NatToString(-TruncDiv(ms, 1000))
    ensures ms == -1500 ==> FormatTime(ms) == "00:-1"
  {
    var t := TruncDiv(ms, 1000);
    assert -60 < t <= 0;
    assert TruncDiv(t, 60) == 0 && TruncRem(t, 60) == t;
    assert Pad2(0) == "00";
    if ms == -1500 {
      assert t == -1 && NatToString(1) == "1";
    }
  }
}

/** The look-around controller shared by every variant of the viewer: a mouse
    press starts a drag, mouse moves while dragging turn pointer deltas into
    camera yaw and pitch, and a release ends the drag and says whether it was a
    click (the pointer moved less than the drag threshold). */
module Look {

  /** A pointer position in screen pixels (`event.clientX`, `event.clientY`). */
  datatype Point = Point(x: int, y: int)

  /** The camera's Euler rotation with order 'YXZ': `x` is the pitch, `y` the
      yaw and `z` the roll. */
  datatype Rotation = Rotation(pitch: real, yaw: real, roll: real)

  /** Radians of camera turn per pixel of pointer movement. */
  const Sensitivity: real := 0.005

  /** Pixels of movement below which a release counts as a click. */
  const DragThreshold: int := 5

  /** The shortest decimal that prints as the browser's `Math.PI / 2`; the
      proofs below only use that it is positive. */
  const HalfPi: real := 1.5707963267948966

  ghost predicate InPitchRange(pitch: real) {
    -HalfPi <= pitch <= HalfPi
  }

  function Min(a: real, b: real): (r: real) { if a <= b then a else b }

  function Max(a: real, b: real): (r: real) { if a >= b then a else b }

  function Abs(a: real): (r: real) { if a < 0.0 then -a else a }

  /** `Math.max(-Math.PI / 2, Math.min(Math.PI / 2, pitch))`: a hard floor and
      ceiling, never a wrap-around. */
  function ClampPitch(pitch: real): (r: real)
    ensures InPitchRange(r)
    ensures InPitchRange(pitch) ==> r == pitch
  {
    Max(-HalfPi, Min(HalfPi, pitch))
  }

  /** Clamping picks the point of the range nearest to the requested pitch. */
  lemma ClampIsNearest(pitch: real, q: real)
    requires InPitchRange(q)
    ensures Abs(ClampPitch(pitch) - pitch) <= Abs(q - pitch)
    ensures pitch > HalfPi ==> ClampPitch(pitch) == HalfPi
    ensures pitch < -HalfPi ==> ClampPitch(pitch) == -HalfPi
  {
  }

  function SquaredDistance(a: Point, b: Point): (r: nat) {
    var dx := b.x - a.x;
    var dy := b.y - a.y;
    dx * dx + dy * dy
  }

  /** A release at `up` after a press at `down` is a click when the pointer
      moved strictly less than the threshold. The square root of the viewer
      scripts is avoided by comparing squares. A release where the press was
      is a click, and a click never moved 5 pixels or more along either axis. */
  predicate IsClick(down: Point, up: Point)
    ensures up == down ==> IsClick(down, up)
    ensures IsClick(down, up) ==>
      -DragThreshold < up.x - down.x < DragThreshold && -DragThreshold < up.y - down.y < DragThreshold
  {
    SquaredDistance(down, up) < DragThreshold * DragThreshold
  }

  /** Comparing squares is the same test as comparing the Euclidean distance:
      for the non-negative `distance` whose square is the squared distance,
      the release is a click exactly when `distance < DragThreshold`. */
  lemma ClickIffDistanceBelowThreshold(down: Point, up: Point, distance: real)
    requires distance >= 0.0
    requires distance * distance == SquaredDistance(down, up) as real
    ensures IsClick(down, up) <==> distance < DragThreshold as real
  {
    var sq := SquaredDistance(down, up);
    assert DragThreshold as real == 5.0 && DragThreshold * DragThreshold == 25;
    var below := 5.0 - distance;
    var above := 5.0 + distance;
    DifferenceOfSquares(distance, 5.0);
    assert below * above == 25.0 - sq as real;
    if distance < 5.0 {
      ProductSign(below, above);
    } else {
      ProductSign(-below, above);
      assert -below * above == sq as real - 25.0;
    }
  }

  lemma DifferenceOfSquares(a: real, b: real)
    ensures (b - a) * (b + a) == b * b - a * a
    ensures (a - b) * (a + b) == a * a - b * b
  {
  }

  lemma ProductSign(a: real, b: real)
    requires a >= 0.0 && b > 0.0
    ensures a * b >= 0.0
    ensures a > 0.0 ==> a * b > 0.0
  {
  }

  /** The boundary is strict: a release exactly the threshold away is a drag. */
  lemma ThresholdDistanceIsDrag(down: Point)
    ensures !IsClick(down, Point(down.x + 3, down.y + 4))
    ensures !IsClick(down, Point(down.x + DragThreshold, down.y))
    ensures IsClick(down, Point(down.x + 3, down.y + 3))
  {
  }

  /** The value of the controller's four pieces of state. */
  datatype DragState = DragState(dragging: bool, previous: Point, down: Point, rotation: Rotation)

  /** Not dragging, both positions at the origin, the camera unrotated. */
  function Initial(): (r: DragState)
    ensures !r.dragging && r.previous == Point(0, 0) && r.down == Point(0, 0)
    ensures InPitchRange(r.rotation.pitch)
  {
    DragState(false, Point(0, 0), Point(0, 0), Rotation(0.0, 0.0, 0.0))
  }

  /** mousedown: start a drag and record the press at both positions. */
  function Press(s: DragState, p: Point): (r: DragState)
    ensures r.dragging && r.previous == p && r.down == p
    ensures r.rotation == s.rotation
  {
    s.(dragging := true, previous := p, down := p)
  }

  /** The state part of mouseup: the drag ends, whatever the release was. */
  function Release(s: DragState): (r: DragState)
    ensures !r.dragging
    ensures r.previous == s.previous && r.down == s.down && r.rotation == s.rotation
  {
    s.(dragging := false)
  }

  /** mousemove: while dragging, turn by the pointer delta since the previous
      position (clamping the pitch, zeroing the roll) and remember the
      pointer; otherwise nothing happens. */
  function Move(s: DragState, p: Point): (r: DragState)
    ensures r.dragging == s.dragging && r.down == s.down
    ensures s.dragging ==> InPitchRange(r.rotation.pitch) && r.previous == p
    ensures !s.dragging ==> r == s
  {
    if !s.dragging then s
    else
      var yaw := s.rotation.yaw - (p.x - s.previous.x) as real * Sensitivity;
      var pitch := s.rotation.pitch - (p.y - s.previous.y) as real * Sensitivity;
      s.(rotation := Rotation(ClampPitch(pitch), yaw, 0.0), previous := p)
  }

  /** The pointer events the controller reacts to. */
  datatype Event = Down(at: Point) | Up(at: Point) | MoveTo(at: Point)

  /** One event handler, as far as the controller's state goes. The press
      position changes only on a press, and only a press starts a drag. */
  function Step(s: DragState, e: Event): (r: DragState)
    ensures !e.Down? ==> r.down == s.down
    ensures r.dragging <==> e.Down? || (e.MoveTo? && s.dragging)
    ensures InPitchRange(s.rotation.pitch) ==> InPitchRange(r.rotation.pitch)
  {
    match e
    case Down(p) => Press(s, p)
    case Up(_) => Release(s)
    case MoveTo(p) => Move(s, p)
  }

  /** Handling a sequence of events in order. Without a press among the
      events, an idle controller stays idle and its press position stays
      put. */
  function Run(s: DragState, events: seq<Event>): (r: DragState)
    ensures (forall i :: 0 <= i < |events| ==> !events[i].Down?) ==> r.down == s.down
    ensures !s.dragging && (forall i :: 0 <= i < |events| ==> !events[i].Down?) ==> !r.dragging
    decreases |events|
  {
    if events == [] then s else Run(Step(s, events[0]), events[1..])
  }

  /** Whatever events arrive, the pitch never leaves [-pi/2, pi/2]. */
  lemma {:induction false} RunKeepsPitchInRange(s: DragState, events: seq<Event>)
    requires InPitchRange(s.rotation.pitch)
    ensures InPitchRange(Run(s, events).rotation.pitch)
    decreases |events|
  {
    if events != [] {
      RunKeepsPitchInRange(Step(s, events[0]), events[1..]);
    }
  }

  /** A run of mouse moves. Moves never start or end a drag and never touch
      the press position. */
  function MoveAll(s: DragState, points: seq<Point>): (r: DragState)
    ensures r.dragging == s.dragging && r.down == s.down
    decreases |points|
  {
    if points == [] then s else MoveAll(Move(s, points[0]), points[1..])
  }

  /** Moves without a drag in progress change nothing. */
  lemma {:induction false} MoveAllWhileIdle(s: DragState, points: seq<Point>)
    requires !s.dragging
    ensures MoveAll(s, points) == s
    decreases |points|
  {
    if points != [] {
      MoveAllWhileIdle(Move(s, points[0]), points[1..]);
    }
  }

  /** Within a drag the yaw changes telescope: the total turn depends only on
      where the pointer was before the moves and where it ended, the pointer
      ends at the last move and the press position stays put. */
  lemma {:induction false} MoveAllTelescopes(s: DragState, points: seq<Point>)
    requires s.dragging && points != []
    ensures MoveAll(s, points).dragging
    ensures MoveAll(s, points).previous == points[|points| - 1]
    ensures MoveAll(s, points).down == s.down
    ensures MoveAll(s, points).rotation.yaw
         == s.rotation.yaw - (points[|points| - 1].x - s.previous.x) as real * Sensitivity
    decreases |points|
  {
    var t := Move(s, points[0]);
    if |points| > 1 {
      MoveAllTelescopes(t, points[1..]);
      var last := points[|points| - 1];
      assert MoveAll(s, points) == MoveAll(t, points[1..]);
      calc {
        MoveAll(s, points).rotation.yaw;
        t.rotation.yaw - (last.x - points[0].x) as real * Sensitivity;
        s.rotation.yaw - (points[0].x - s.previous.x) as real * Sensitivity
          - (last.x - points[0].x) as real * Sensitivity;
        s.rotation.yaw - (last.x - s.previous.x) as real * Sensitivity;
      }
    }
  }

  /** Over a whole drag started by a press at `down`, the camera turns by
      `-(last.x - down.x) * Sensitivity` in yaw and the pitch stays in range. */
  lemma DragTurnsFromPressPoint(s: DragState, down: Point, points: seq<Point>)
    requires InPitchRange(s.rotation.pitch) && points != []
    ensures MoveAll(Press(s, down), points).rotation.yaw
         == s.rotation.yaw - (points[|points| - 1].x - down.x) as real * Sensitivity
    ensures InPitchRange(MoveAll(Press(s, down), points).rotation.pitch)
  {
    MoveAllTelescopes(Press(s, down), points);
    MoveAllKeepsPitch(Press(s, down), points);
  }

  lemma {:induction false} MoveAllKeepsPitch(s: DragState, points: seq<Point>)
    requires InPitchRange(s.rotation.pitch)
    ensures InPitchRange(MoveAll(s, points).rotation.pitch)
    decreases |points|
  {
    if points != [] {
      MoveAllKeepsPitch(Move(s, points[0]), points[1..]);
    }
  }

  /** Press at (100,100), drag to (150,130), release there: the release is 58.3
      pixels away, so no click; the camera has turned by -0.25 in yaw and
      -0.15 (clamped) in pitch, and the drag is over. */
  lemma PressDragReleaseScenario(s: DragState)
    ensures var down := Point(100, 100);
            var up := Point(150, 130);
            var moved := Move(Press(s, down), up);
            && !IsClick(moved.down, up)
            && Release(moved).rotation.yaw == s.rotation.yaw - 0.25
            && Release(moved).rotation.pitch == ClampPitch(s.rotation.pitch - 0.15)
            && !Release(moved).dragging
  {
  }

  /** The controller's mutable state, one field per global of the viewer scripts:
      `isDragging`, `previousMousePosition`, `mouseDownPosition` and the
      camera's `rotation`. */
  class Controller {
    var isDragging: bool
    var previousMousePosition: Point
    var mouseDownPosition: Point
    var rotation: Rotation

    ghost predicate Valid()
      reads this
    {
      InPitchRange(rotation.pitch)
    }

    ghost function State(): DragState
      reads this
    {
      DragState(isDragging, previousMousePosition, mouseDownPosition, rotation)
    }

    constructor ()
      ensures Valid() && State() == Initial()
    {
      isDragging := false;
      previousMousePosition := Point(0, 0);
      mouseDownPosition := Point(0, 0);
      rotation := Rotation(0.0, 0.0, 0.0);
    }

    /** mousedown: start dragging and record the press at both positions. */
    method MouseDown(p: Point)
      requires Valid()
      modifies this`isDragging, this`previousMousePosition, this`mouseDownPosition
      ensures Valid() && State() == Press(old(State()), p)
      ensures isDragging && previousMousePosition == p && mouseDownPosition == p
    {
      isDragging := true;
      previousMousePosition := p;
      mouseDownPosition := p;
    }

    /** The controller's part of mouseup: decide click or drag from the press
      position, then stop dragging in either case. */
    method MouseUp(p: Point) returns (click: bool)
      requires Valid()
      modifies this`isDragging
      ensures Valid() && State() == Release(old(State()))
      ensures !isDragging
      ensures click <==> IsClick(mouseDownPosition, p)
    {
      var dx := p.x - mouseDownPosition.x;
      var dy := p.y - mouseDownPosition.y;
      isDragging := false;
      click := dx * dx + dy * dy < DragThreshold * DragThreshold;
    }

    /** mousemove: a no-op unless dragging; otherwise turn the camera by the
      delta since the previous position and move that position to `p`. */
    method MouseMove(p: Point)
      requires Valid()
      modifies this`rotation, this`previousMousePosition
      ensures Valid() && State() == Move(old(State()), p)
      ensures !isDragging ==> rotation == old(rotation) && previousMousePosition == old(previousMousePosition)
      ensures isDragging ==>
        && rotation.yaw == old(rotation.yaw) - (p.x - old(previousMousePosition.x)) as real * Sensitivity
        && rotation.pitch == ClampPitch(old(rotation.pitch) - (p.y - old(previousMousePosition.y)) as real * Sensitivity)
        && rotation.roll == 0.0
        && previousMousePosition == p
    {
      if isDragging {
        var deltaX := p.x - previousMousePosition.x;
        var deltaY := p.y - previousMousePosition.y;
        var yaw := rotation.yaw;
        var pitch := rotation.pitch;
        yaw := yaw - deltaX as real * Sensitivity;
        pitch := pitch - deltaY as real * Sensitivity;
        pitch := Max(-HalfPi, Min(HalfPi, pitch));
        rotation := Rotation(pitch, yaw, 0.0);
        previousMousePosition := p;
      }
    }
  }
}

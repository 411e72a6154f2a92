/**
 * The simplified orbit controls of the 3D scene (components/3d/Scene.tsx):
 * the `controls` record and the mouse and wheel handlers that change it.
 */
module SceneControls {

  /** `Math.PI`, to the precision of a double. */
  const Pi: real := 3.141592653589793

  const MinDistance: real := 3.0
  const MaxDistance: real := 20.0
  const MinPolarAngle: real := Pi / 6.0
  const MaxPolarAngle: real := Pi - Pi / 6.0

  /** Radians of rotation (and units of zoom) per pixel of pointer or wheel movement. */
  const Sensitivity: real := 0.01

  /** The `enableRotate` and `enableZoom` settings; the scene never changes them. */
  const EnableRotate: bool := true
  const EnableZoom: bool := true

  function Max(a: real, b: real): real { if a >= b then a else b }
  function Min(a: real, b: real): real { if a <= b then a else b }

  /** `Math.max(lo, Math.min(hi, v))`. */
  function Clamp(v: real, lo: real, hi: real): (r: real)
    ensures r >= lo
    ensures lo <= hi ==> r <= hi
    ensures lo <= v <= hi ==> r == v
    ensures v < lo ==> r == lo
    ensures lo <= hi < v ==> r == hi
  {
    Max(lo, Min(hi, v))
  }

  datatype Point = Point(x: real, y: real)

  class OrbitControls {
    var distance: real
    var azimuthAngle: real
    var polarAngle: real
    var isDragging: bool
    var previousMouse: Point

    /** The ranges the handlers keep the camera in. */
    ghost predicate Valid()
      reads this
    {
      MinPolarAngle <= polarAngle <= MaxPolarAngle && MinDistance <= distance <= MaxDistance
    }

    /** The controls as the scene sets them up: ten units away, on the equator, not dragging. */
    constructor ()
      ensures Valid()
      ensures distance == 10.0 && azimuthAngle == 0.0 && polarAngle == Pi / 2.0
      ensures !isDragging && previousMouse == Point(0.0, 0.0)
    {
      distance := 10.0;
      azimuthAngle := 0.0;
      polarAngle := Pi / 2.0;
      isDragging := false;
      previousMouse := Point(0.0, 0.0);
    }

    /** `onMouseDown`: start dragging from the pointer position. */
    method OnMouseDown(clientX: real, clientY: real)
      requires Valid()
      modifies this
      ensures Valid()
      ensures isDragging && previousMouse == Point(clientX, clientY)
      ensures distance == old(distance) && azimuthAngle == old(azimuthAngle) && polarAngle == old(polarAngle)
    {
      isDragging := true;
      previousMouse := Point(clientX, clientY);
    }

    /**
     * `onMouseMove`: while dragging, turn the azimuth against the horizontal
     * movement, tilt the polar angle with the vertical movement within its
     * range, and remember the pointer; otherwise nothing changes.
     */
    method OnMouseMove(clientX: real, clientY: real)
      requires Valid()
      modifies this
      ensures Valid()
      ensures if old(isDragging) && EnableRotate then
                azimuthAngle == old(azimuthAngle) - (clientX - old(previousMouse).x) * Sensitivity
                && polarAngle == Clamp(old(polarAngle) + (clientY - old(previousMouse).y) * Sensitivity,
                                       MinPolarAngle, MaxPolarAngle)
                && previousMouse == Point(clientX, clientY)
              else
                azimuthAngle == old(azimuthAngle) && polarAngle == old(polarAngle)
                && previousMouse == old(previousMouse)
      ensures distance == old(distance) && isDragging == old(isDragging)
    {
      if isDragging && EnableRotate {
        var deltaX := clientX - previousMouse.x;
        var deltaY := clientY - previousMouse.y;
        azimuthAngle := azimuthAngle - deltaX * Sensitivity;
        polarAngle := Clamp(polarAngle + deltaY * Sensitivity, MinPolarAngle, MaxPolarAngle);
        previousMouse := Point(clientX, clientY);
      }
    }

    /** `onMouseUp`: stop dragging; nothing else changes. */
    method OnMouseUp()
      requires Valid()
      modifies this
      ensures Valid()
      ensures !isDragging
      ensures distance == old(distance) && azimuthAngle == old(azimuthAngle)
      ensures polarAngle == old(polarAngle) && previousMouse == old(previousMouse)
    {
      isDragging := false;
    }

    /** `onWheel`: zoom by the wheel movement, within the distance range; nothing else changes. */
    method OnWheel(deltaY: real)
      requires Valid()
      modifies this
      ensures Valid()
      ensures distance == Clamp(old(distance) + deltaY * Sensitivity, MinDistance, MaxDistance)
      ensures azimuthAngle == old(azimuthAngle) && polarAngle == old(polarAngle)
      ensures isDragging == old(isDragging) && previousMouse == old(previousMouse)
    {
      if EnableZoom {
        distance := Clamp(distance + deltaY * Sensitivity, MinDistance, MaxDistance);
      }
    }
  }

  /** One input event on the canvas. */
  datatype ControlEvent =
    | MouseDown(x: real, y: real)
    | MouseMove(x: real, y: real)
    | MouseUp
    | Wheel(deltaY: real)

  /**
   * Replays a series of events on fresh controls; whatever the events, the
   * distance stays in [3, 20] and the polar angle in [pi/6, 5pi/6].
   */
  method Replay(events: seq<ControlEvent>) returns (c: OrbitControls)
    ensures fresh(c) && c.Valid()
    ensures MinDistance <= c.distance <= MaxDistance
    ensures MinPolarAngle <= c.polarAngle <= MaxPolarAngle
  {
    c := new OrbitControls();
    for i := 0 to |events|
      invariant c.Valid()
    {
      match events[i]
      case MouseDown(x, y) => c.OnMouseDown(x, y);
      case MouseMove(x, y) => c.OnMouseMove(x, y);
      case MouseUp => c.OnMouseUp();
      case Wheel(d) => c.OnWheel(d);
    }
  }
}

/**
 * Input state of the orbit camera (`camerComtrol`): the distance to the
 * target, changed by the scroll wheel and kept within [3, 20], and the two
 * orbit angles, changed by dragging with the right mouse button, the
 * vertical one kept within the configured bounds.  `Updated` states what one
 * frame does; the class `CameraControl` does it field by field, as the
 * script does.
 */
module Camera {
  import opened Mathf

  const MinDistance: real := 3.0
  const MaxDistance: real := 20.0

  /** The inspector-tunable constants; the script never writes them. */
  datatype OrbitSettings = OrbitSettings(
    zoomSpeed: real,
    rotationSpeed: real,
    minYAngle: real,
    maxYAngle: real)

  /** The values the script declares. */
  const DefaultSettings := OrbitSettings(2.0, 5.0, 10.0, 80.0)

  /** Distance, horizontal angle and vertical angle. */
  datatype Orbit = Orbit(distance: real, x: real, y: real)

  /** The camera before the first frame, with the declared distance of 10. */
  const InitialOrbit := Orbit(10.0, 0.0, 30.0)

  /**
   * What the input host reports for one frame: the scroll-wheel axis, the
   * mouse axes, and whether the right mouse button is held.
   */
  datatype FrameInput = FrameInput(scroll: real, dx: real, dy: real, buttonHeld: bool)

  /** `Update`: zoom, then, while the button is held, orbit. */
  function Updated(o: Orbit, cfg: OrbitSettings, i: FrameInput): (o': Orbit)
    ensures o'.distance == Clamp(o.distance - i.scroll * cfg.zoomSpeed, MinDistance, MaxDistance)
    ensures MinDistance <= o'.distance <= MaxDistance
    ensures !i.buttonHeld ==> o'.x == o.x && o'.y == o.y
    ensures i.buttonHeld ==> o'.x == o.x + i.dx * cfg.rotationSpeed
    ensures i.buttonHeld ==> o'.y == Clamp(o.y - i.dy * cfg.rotationSpeed, cfg.minYAngle, cfg.maxYAngle)
    ensures i.buttonHeld && cfg.minYAngle <= o.y - i.dy * cfg.rotationSpeed <= cfg.maxYAngle ==>
      o'.y == o.y - i.dy * cfg.rotationSpeed
    ensures i.buttonHeld && o.y - i.dy * cfg.rotationSpeed < cfg.minYAngle ==> o'.y == cfg.minYAngle
    ensures i.buttonHeld && cfg.minYAngle <= o.y - i.dy * cfg.rotationSpeed && cfg.maxYAngle < o.y - i.dy * cfg.rotationSpeed ==>
      o'.y == cfg.maxYAngle
    ensures i.buttonHeld && cfg.minYAngle <= cfg.maxYAngle ==> cfg.minYAngle <= o'.y <= cfg.maxYAngle
  {
    var distance := Clamp(o.distance - i.scroll * cfg.zoomSpeed, MinDistance, MaxDistance);
    if i.buttonHeld then
      Orbit(distance, o.x + i.dx * cfg.rotationSpeed,
            Clamp(o.y - i.dy * cfg.rotationSpeed, cfg.minYAngle, cfg.maxYAngle))
    else
      o.(distance := distance)
  }

  /** The orbit after the frames `inputs`, in order. */
  function Run(o: Orbit, cfg: OrbitSettings, inputs: seq<FrameInput>): Orbit
    decreases |inputs|
  {
    if inputs == [] then o else Run(Updated(o, cfg, inputs[0]), cfg, inputs[1..])
  }

  /** Sum of the horizontal mouse movement over the frames in which the button is held. */
  function HeldDx(inputs: seq<FrameInput>): real
    decreases |inputs|
  {
    if inputs == [] then 0.0
    else (if inputs[0].buttonHeld then inputs[0].dx else 0.0) + HeldDx(inputs[1..])
  }

  /** The orbit camera; the target transform and `LateUpdate` are not part of this model. */
  class CameraControl {
    const zoomSpeed: real
    const rotationSpeed: real
    const minYAngle: real
    const maxYAngle: real

    var distance: real
    var currentX: real
    var currentY: real

    function Settings(): OrbitSettings {
      OrbitSettings(zoomSpeed, rotationSpeed, minYAngle, maxYAngle)
    }

    function State(): Orbit
      reads this
    {
      Orbit(distance, currentX, currentY)
    }

    /** The component with inspector values `cfg` and `initialDistance`. */
    constructor (cfg: OrbitSettings, initialDistance: real)
      ensures Settings() == cfg
      ensures State() == InitialOrbit.(distance := initialDistance)
    {
      zoomSpeed, rotationSpeed := cfg.zoomSpeed, cfg.rotationSpeed;
      minYAngle, maxYAngle := cfg.minYAngle, cfg.maxYAngle;
      distance := initialDistance;
      currentX := 0.0;
      currentY := 30.0;
    }

    /** The component with the values the script declares. */
    constructor Default()
      ensures Settings() == DefaultSettings
      ensures State() == InitialOrbit
    {
      zoomSpeed, rotationSpeed := 2.0, 5.0;
      minYAngle, maxYAngle := 10.0, 80.0;
      distance := 10.0;
      currentX := 0.0;
      currentY := 30.0;
    }

    /** One frame; the mouse and scroll axes and the button state come from the input host. */
    method Update(scroll: real, dx: real, dy: real, buttonHeld: bool)
      modifies this
      ensures State() == Updated(old(State()), Settings(), FrameInput(scroll, dx, dy, buttonHeld))
      ensures MinDistance <= distance <= MaxDistance
      ensures !buttonHeld ==> currentX == old(currentX) && currentY == old(currentY)
    {
      distance := distance - scroll * zoomSpeed;
      distance := Clamp(distance, MinDistance, MaxDistance);
      if buttonHeld {
        currentX := currentX + dx * rotationSpeed;
        currentY := currentY - dy * rotationSpeed;
        currentY := Clamp(currentY, minYAngle, maxYAngle);
      }
    }
  }
}

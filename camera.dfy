/**
 * The free-flying camera: position, yaw/pitch angles, zoom and the basis
 * (front, right, up) derived from the angles. The basis computation
 * (trigonometry and normalisation) is an oracle `basis` fixed when the camera is
 * made; everything else is the class's own arithmetic, over the reals.
 */
module Cameras {
  import opened Geometry

  /** The default-argument and initial values of the camera. */
  const YAW: real := -90.0
  const PITCH: real := 0.0
  const MOVEMENT_SPEED: real := 3.0
  const LOOKING_SPEED: real := 1.0
  const SENSITIVITY: real := 0.1
  const ZOOM: real := 45.0
  const WORLD_UP: Vec3 := Vec3(0.0, 1.0, 0.0)

  /** Bounds of the mouse-driven pitch and of the zoom (field of view, in degrees). */
  const PITCH_LIMIT: real := 89.0
  const MIN_ZOOM: real := 1.0
  const MAX_ZOOM: real := 45.0

  datatype Movement = Forward | Backward | Left | Right | Up | Down

  datatype Looking = Left | Right | Up | Down

  /** What updateCameraVectors derives from yaw, pitch and the world-up vector. */
  datatype Frame = Frame(front: Vec3, right: Vec3, up: Vec3)

  type Basis = (real, real, Vec3) -> Frame

  /** The value of every field of a Camera. */
  datatype CameraState = CameraState(
    position: Vec3, front: Vec3, up: Vec3, right: Vec3, worldUp: Vec3,
    yaw: real, pitch: real, movementSpeed: real, mouseSensitivity: real, zoom: real)

  /** The basis stored in `s` is the one its angles determine. */
  ghost predicate Oriented(s: CameraState, basis: Basis) {
    basis(s.yaw, s.pitch, s.worldUp) == Frame(s.front, s.right, s.up)
  }

  /** updateCameraVectors: recompute front, right and up from the angles. */
  function Reoriented(s: CameraState, basis: Basis): (r: CameraState)
    ensures Oriented(r, basis)
    ensures r == s.(front := r.front, right := r.right, up := r.up)
  {
    var f := basis(s.yaw, s.pitch, s.worldUp);
    s.(front := f.front, right := f.right, up := f.up)
  }

  /** A freshly constructed camera. */
  function Initial(basis: Basis, position: Vec3, up: Vec3, yaw: real, pitch: real): (s: CameraState)
    ensures Oriented(s, basis)
    ensures s.position == position && s.worldUp == up && s.yaw == yaw && s.pitch == pitch
    ensures s.movementSpeed == 3.0 && s.mouseSensitivity == 0.1 && s.zoom == 45.0
  {
    Reoriented(CameraState(position, Vec3(0.0, 0.0, -1.0), ZERO3, ZERO3, up,
                           yaw, pitch, MOVEMENT_SPEED, SENSITIVITY, ZOOM), basis)
  }

  /** The axis a movement follows and the sign it follows it with. */
  function Axis(s: CameraState, direction: Movement): Vec3 {
    match direction
    case Forward | Backward => s.front
    case Left | Right => s.right
    case Up | Down => s.up
  }

  function Sign(direction: Movement): (k: real)
    ensures k == 1.0 || k == -1.0
    ensures k == 1.0 <==> direction in {Movement.Forward, Movement.Right, Movement.Up}
  {
    match direction
    case Forward | Right | Up => 1.0
    case Backward | Left | Down => -1.0
  }

  /** processKeyboard(Movement, deltaTime). */
  function Moved(s: CameraState, direction: Movement, deltaTime: real): (r: CameraState)
    ensures r == s.(position := r.position)
  {
    var velocity := s.movementSpeed * deltaTime;
    match direction
    case Forward => s.(position := Add(s.position, Scale(s.front, velocity)))
    case Backward => s.(position := Sub(s.position, Scale(s.front, velocity)))
    case Left => s.(position := Sub(s.position, Scale(s.right, velocity)))
    case Right => s.(position := Add(s.position, Scale(s.right, velocity)))
    case Up => s.(position := Add(s.position, Scale(s.up, velocity)))
    case Down => s.(position := Sub(s.position, Scale(s.up, velocity)))
  }

  /** processKeyboard(Looking, deltaTime): a fixed step of LOOKING_SPEED; deltaTime is unused. */
  function Looked(s: CameraState, direction: Looking, basis: Basis): (r: CameraState)
    ensures Oriented(r, basis)
    ensures r.yaw == s.yaw + (match direction case Left => -1.0 case Right => 1.0 case _ => 0.0)
    ensures r.pitch == s.pitch + (match direction case Up => -1.0 case Down => 1.0 case _ => 0.0)
    ensures r == Reoriented(s.(yaw := r.yaw, pitch := r.pitch), basis)
  {
    var t := match direction
      case Left => s.(yaw := s.yaw - LOOKING_SPEED)
      case Right => s.(yaw := s.yaw + LOOKING_SPEED)
      case Up => s.(pitch := s.pitch - LOOKING_SPEED)
      case Down => s.(pitch := s.pitch + LOOKING_SPEED);
    Reoriented(t, basis)
  }

  /** The pitch processMouseMovement keeps: clamped to [-89, 89] when constrained. */
  function MousePitch(pitch: real, yoffset: real, sensitivity: real, constrainPitch: bool): (p: real)
    ensures constrainPitch ==> -PITCH_LIMIT <= p <= PITCH_LIMIT
    ensures !constrainPitch ==> p == pitch + yoffset * sensitivity
    ensures -PITCH_LIMIT <= pitch + yoffset * sensitivity <= PITCH_LIMIT ==> p == pitch + yoffset * sensitivity
    ensures constrainPitch && pitch + yoffset * sensitivity > PITCH_LIMIT ==> p == PITCH_LIMIT
    ensures constrainPitch && pitch + yoffset * sensitivity < -PITCH_LIMIT ==> p == -PITCH_LIMIT
  {
    var p := pitch + yoffset * sensitivity;
    if constrainPitch && p > PITCH_LIMIT then PITCH_LIMIT
    else if constrainPitch && p < -PITCH_LIMIT then -PITCH_LIMIT
    else p
  }

  /** processMouseMovement(xoffset, yoffset, constrainPitch). */
  function MouseMoved(s: CameraState, xoffset: real, yoffset: real, constrainPitch: bool, basis: Basis): (r: CameraState)
    ensures Oriented(r, basis)
    ensures r.yaw == s.yaw + xoffset * s.mouseSensitivity
    ensures r.pitch == MousePitch(s.pitch, yoffset, s.mouseSensitivity, constrainPitch)
    ensures r == Reoriented(s.(yaw := r.yaw, pitch := r.pitch), basis)
  {
    Reoriented(s.(yaw := s.yaw + xoffset * s.mouseSensitivity,
                  pitch := MousePitch(s.pitch, yoffset, s.mouseSensitivity, constrainPitch)), basis)
  }

  /** The zoom processMouseScroll keeps: zoom - yoffset, clamped to [1, 45]. */
  function ScrollZoom(zoom: real, yoffset: real): (z: real)
    ensures MIN_ZOOM <= z <= MAX_ZOOM
    ensures MIN_ZOOM <= zoom - yoffset <= MAX_ZOOM ==> z == zoom - yoffset
    ensures zoom - yoffset < MIN_ZOOM ==> z == MIN_ZOOM
    ensures zoom - yoffset > MAX_ZOOM ==> z == MAX_ZOOM
  {
    var z := zoom - yoffset;
    if z <= MIN_ZOOM then MIN_ZOOM
    else if z >= MAX_ZOOM then MAX_ZOOM
    else z
  }

  /** processMouseScroll(yoffset): only the zoom changes. */
  function Scrolled(s: CameraState, yoffset: real): (r: CameraState)
    ensures r == s.(zoom := ScrollZoom(s.zoom, yoffset))
  {
    s.(zoom := ScrollZoom(s.zoom, yoffset))
  }

  /** Scrolls applied one after another. */
  function ScrolledAll(s: CameraState, offsets: seq<real>): CameraState
    decreases |offsets|
  {
    if offsets == [] then s else ScrolledAll(Scrolled(s, offsets[0]), offsets[1..])
  }

  /** However many scrolls, of whatever size, the zoom ends in [1, 45] and nothing else changes. */
  lemma {:induction false} ScrollsKeepZoomInRange(s: CameraState, offsets: seq<real>)
    requires offsets != []
    ensures MIN_ZOOM <= ScrolledAll(s, offsets).zoom <= MAX_ZOOM
    ensures ScrolledAll(s, offsets) == s.(zoom := ScrolledAll(s, offsets).zoom)
    decreases |offsets|
  {
    if |offsets| > 1 {
      ScrollsKeepZoomInRange(Scrolled(s, offsets[0]), offsets[1..]);
    }
  }

  /** A movement displaces the position along its axis by speed * deltaTime, forwards or backwards. */
  lemma MovedAlongAxis(s: CameraState, direction: Movement, deltaTime: real)
    ensures Moved(s, direction, deltaTime).position ==
      Add(s.position, Scale(Axis(s, direction), Sign(direction) * (s.movementSpeed * deltaTime)))
  {
    var v, a := s.movementSpeed * deltaTime, Axis(s, direction);
    if Sign(direction) == 1.0 {
      assert Scale(a, 1.0 * v) == Scale(a, v);
    } else {
      SubIsNegatedAdd(s.position, a, v);
    }
  }

  lemma SubIsNegatedAdd(p: Vec3, a: Vec3, v: real)
    ensures Sub(p, Scale(a, v)) == Add(p, Scale(a, -1.0 * v))
  {
    assert a.x * (-1.0 * v) == -(a.x * v);
    assert a.y * (-1.0 * v) == -(a.y * v);
    assert a.z * (-1.0 * v) == -(a.z * v);
  }

  /** Moving forward and then back by the same time step restores the position exactly. */
  lemma ForwardThenBackwardRestores(s: CameraState, deltaTime: real)
    ensures Moved(Moved(s, Movement.Forward, deltaTime), Movement.Backward, deltaTime) == s
  {
  }

  /** Each movement is undone by its opposite. */
  lemma MovementUndone(s: CameraState, direction: Movement, deltaTime: real)
    ensures var back := match direction
      case Forward => Movement.Backward case Backward => Movement.Forward
      case Left => Movement.Right case Right => Movement.Left
      case Up => Movement.Down case Down => Movement.Up;
      Moved(Moved(s, direction, deltaTime), back, deltaTime) == s
  {
  }

  /** Mouse-driven pitch stays in [-89, 89] over any sequence of constrained moves. */
  function MouseMovedAll(s: CameraState, moves: seq<(real, real)>, basis: Basis): CameraState
    decreases |moves|
  {
    if moves == [] then s else MouseMovedAll(MouseMoved(s, moves[0].0, moves[0].1, true, basis), moves[1..], basis)
  }

  lemma {:induction false} ConstrainedPitchStaysInRange(s: CameraState, moves: seq<(real, real)>, basis: Basis)
    requires moves != [] || -PITCH_LIMIT <= s.pitch <= PITCH_LIMIT
    ensures -PITCH_LIMIT <= MouseMovedAll(s, moves, basis).pitch <= PITCH_LIMIT
    decreases |moves|
  {
    if moves != [] {
      ConstrainedPitchStaysInRange(MouseMoved(s, moves[0].0, moves[0].1, true, basis), moves[1..], basis);
    }
  }

  class Camera {
    const basis: Basis

    var position: Vec3
    var front: Vec3
    var up: Vec3
    var right: Vec3
    var worldUp: Vec3
    var yaw: real
    var pitch: real
    var movementSpeed: real
    var mouseSensitivity: real
    var zoom: real

    function State(): CameraState
      reads this
    {
      CameraState(position, front, up, right, worldUp, yaw, pitch, movementSpeed, mouseSensitivity, zoom)
    }

    /** The basis is always the one the current angles determine. */
    ghost predicate Valid()
      reads this
    {
      Oriented(State(), basis)
    }

    /** Camera(position, up, yaw, pitch); the C++ defaults are the origin, WORLD_UP, YAW and PITCH. */
    constructor (basis: Basis, position: Vec3, up: Vec3, yaw: real, pitch: real)
      ensures this.basis == basis && Valid()
      ensures State() == Initial(basis, position, up, yaw, pitch)
    {
      this.basis := basis;
      this.position := position;
      worldUp := up;
      this.yaw := yaw;
      this.pitch := pitch;
      movementSpeed := MOVEMENT_SPEED;
      mouseSensitivity := SENSITIVITY;
      zoom := ZOOM;
      new;
      UpdateCameraVectors();
    }

    /** Camera(posX, posY, posZ, upX, upY, upZ, yaw, pitch). */
    constructor FromComponents(basis: Basis, posX: real, posY: real, posZ: real,
                               upX: real, upY: real, upZ: real, yaw: real, pitch: real)
      ensures this.basis == basis && Valid()
      ensures State() == Initial(basis, Vec3(posX, posY, posZ), Vec3(upX, upY, upZ), yaw, pitch)
    {
      this.basis := basis;
      position := Vec3(posX, posY, posZ);
      worldUp := Vec3(upX, upY, upZ);
      this.yaw := yaw;
      this.pitch := pitch;
      movementSpeed := MOVEMENT_SPEED;
      mouseSensitivity := SENSITIVITY;
      zoom := ZOOM;
      new;
      UpdateCameraVectors();
    }

    function GetZoom(): real
      reads this
    {
      zoom
    }

    function GetPosition(): Vec3
      reads this
    {
      position
    }

    /** getViewMatrix: look from the position towards position + front. */
    function GetViewMatrix(): Mat4
      reads this
    {
      LookAt(position, Add(position, front), up)
    }

    method UpdateCameraVectors()
      modifies this
      ensures State() == Reoriented(old(State()), basis)
    {
      var f := basis(yaw, pitch, worldUp);
      front, right, up := f.front, f.right, f.up;
    }

    method ProcessMovement(direction: Movement, deltaTime: real)
      requires Valid()
      modifies this
      ensures Valid()
      ensures State() == Moved(old(State()), direction, deltaTime)
    {
      var velocity := movementSpeed * deltaTime;
      match direction {
        case Forward => position := Add(position, Scale(front, velocity));
        case Backward => position := Sub(position, Scale(front, velocity));
        case Left => position := Sub(position, Scale(right, velocity));
        case Right => position := Add(position, Scale(right, velocity));
        case Up => position := Add(position, Scale(up, velocity));
        case Down => position := Sub(position, Scale(up, velocity));
      }
    }

    method ProcessLooking(direction: Looking, deltaTime: real)
      modifies this
      ensures Valid()
      ensures State() == Looked(old(State()), direction, basis)
    {
      match direction {
        case Left => yaw := yaw - LOOKING_SPEED;
        case Right => yaw := yaw + LOOKING_SPEED;
        case Up => pitch := pitch - LOOKING_SPEED;
        case Down => pitch := pitch + LOOKING_SPEED;
      }
      UpdateCameraVectors();
    }

    method ProcessMouseMovement(xoffset: real, yoffset: real, constrainPitch: bool)
      modifies this
      ensures Valid()
      ensures State() == MouseMoved(old(State()), xoffset, yoffset, constrainPitch, basis)
    {
      var x := xoffset * mouseSensitivity;
      var y := yoffset * mouseSensitivity;
      yaw := yaw + x;
      pitch := pitch + y;
      if constrainPitch {
        if pitch > PITCH_LIMIT {
          pitch := PITCH_LIMIT;
        } else if pitch < -PITCH_LIMIT {
          pitch := -PITCH_LIMIT;
        }
      }
      assert pitch == MousePitch(old(pitch), yoffset, mouseSensitivity, constrainPitch);
      UpdateCameraVectors();
    }

    method ProcessMouseScroll(yoffset: real)
      requires Valid()
      modifies this
      ensures Valid()
      ensures State() == Scrolled(old(State()), yoffset)
    {
      zoom := zoom - yoffset;
      if zoom <= MIN_ZOOM {
        zoom := MIN_ZOOM;
      } else if zoom >= MAX_ZOOM {
        zoom := MAX_ZOOM;
      }
    }
  }
}

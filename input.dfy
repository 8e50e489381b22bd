/**
 * The program's window-side state (src/Main.cpp): the global framebuffer size,
 * camera, last cursor position and frame timing, the three toggles processInput
 * keeps in function-local statics, and one iteration of the render loop. GLFW is
 * abstracted: a key poll is the set of keys held when processInput runs, cursor and
 * scroll positions arrive as reals, and the window calls processInput makes are
 * recorded in a Window object.
 */
module Input {
  import opened Geometry
  import opened Gl
  import opened Cameras
  import opened Shaders
  import Meshes
  import Models

  /** 2^32: g_width and g_height are uint32_t. */
  const U32_MODULUS: int := 0x1_0000_0000

  /** The initial window size. */
  const INITIAL_WIDTH: nat := 800
  const INITIAL_HEIGHT: nat := 600

  /** Camera(glm::vec3(0.0f, 0.0f, 3.0f)), both at start-up and on Space. */
  const HOME: Vec3 := Vec3(0.0, 0.0, 3.0)

  const NEAR: real := 0.1
  const FAR: real := 100.0

  /** The backpack/globe model's transform: no translation, scaled by 0.1. */
  const MODEL_TRANSFORM: Mat4 := TranslateScale(Vec3(0.0, 0.0, 0.0), Vec3(0.1, 0.1, 0.1))

  const LIGHT_POSITION: Vec3 := Vec3(1.2, 1.0, 15.0)

  /** The light cube's transform: moved to the light and scaled by 0.2. */
  const LIGHT_TRANSFORM: Mat4 := TranslateScale(LIGHT_POSITION, Vec3(0.2, 0.2, 0.2))

  /** int to uint32_t: reduction modulo 2^32. */
  function ToU32(v: int): (r: nat)
    ensures r < U32_MODULUS
    ensures 0 <= v < U32_MODULUS ==> r == v
    ensures (v - r) % U32_MODULUS == 0
  {
    v % U32_MODULUS
  }

  /** The keys processInput polls. */
  datatype Key =
    | Escape | LeftAlt | LeftControl | Enter | Space
    | E | Q | W | S | A | D
    | ArrowLeft | ArrowRight | ArrowUp | ArrowDown
    | F

  /** Window calls processInput makes besides glfwSetWindowShouldClose. */
  datatype WindowEvent =
    | SetMonitor(fullscreen: bool, x: int, y: int, width: nat, height: nat, refreshRate: nat)
    | SetCursorMode(disabled: bool)

  /** The GLFW window: its close flag and the calls made on it. */
  class Window {
    var shouldClose: bool
    var events: seq<WindowEvent>

    constructor ()
      ensures !shouldClose && events == []
    {
      shouldClose, events := false, [];
    }
  }

  // ---------------------------------------------------------------------------
  // Cursor (mouseCallback)

  /** lastX, lastY and mouseCallback's static firstMouse. */
  datatype Cursor = Cursor(lastX: real, lastY: real, firstMouse: bool)

  /** lastX = g_width / 2 and lastY = g_height / 2, divided as integers. */
  const START_CURSOR: Cursor := Cursor((INITIAL_WIDTH / 2) as real, (INITIAL_HEIGHT / 2) as real, true)

  /** The position the offsets of an event at (xpos, ypos) are measured from. */
  function Anchor(c: Cursor, xpos: real, ypos: real): (real, real) {
    if c.firstMouse then (xpos, ypos) else (c.lastX, c.lastY)
  }

  /** The offsets mouseCallback passes to the camera: x grows rightwards, y is inverted. */
  function CursorOffsets(c: Cursor, xpos: real, ypos: real): (r: (real, real))
    ensures c.firstMouse ==> r == (0.0, 0.0)
    ensures !c.firstMouse ==> r == (xpos - c.lastX, c.lastY - ypos)
  {
    var anchor := Anchor(c, xpos, ypos);
    (xpos - anchor.0, anchor.1 - ypos)
  }

  /** After any event the cursor remembers that event's position. */
  function CursorMoved(c: Cursor, xpos: real, ypos: real): (r: Cursor)
    ensures r.lastX == xpos && r.lastY == ypos && !r.firstMouse
  {
    Cursor(xpos, ypos, false)
  }

  /** The offsets of a run of cursor events. */
  function OffsetsOf(c: Cursor, positions: seq<(real, real)>): (r: seq<(real, real)>)
    ensures |r| == |positions|
    decreases |positions|
  {
    if positions == [] then [] else
    var p := positions[0];
    [CursorOffsets(c, p.0, p.1)] + OffsetsOf(CursorMoved(c, p.0, p.1), positions[1..])
  }

  function SumX(ps: seq<(real, real)>): real {
    if ps == [] then 0.0 else ps[0].0 + SumX(ps[1..])
  }

  function SumY(ps: seq<(real, real)>): real {
    if ps == [] then 0.0 else ps[0].1 + SumY(ps[1..])
  }

  /**
   * The offsets of a run of events add up to the displacement from the anchor of
   * the first event to the last position: rightwards in x, upwards (inverted) in y.
   * So the camera turns by the total cursor motion, and nothing for the first event.
   */
  lemma {:induction false} OffsetsTelescope(c: Cursor, positions: seq<(real, real)>)
    requires |positions| > 0
    ensures var anchor := Anchor(c, positions[0].0, positions[0].1);
      var last := positions[|positions| - 1];
      SumX(OffsetsOf(c, positions)) == last.0 - anchor.0
      && SumY(OffsetsOf(c, positions)) == anchor.1 - last.1
    decreases |positions|
  {
    var p := positions[0];
    var next := CursorMoved(c, p.0, p.1);
    if |positions| > 1 {
      OffsetsTelescope(next, positions[1..]);
      assert Anchor(next, positions[1].0, positions[1].1) == p;
    }
  }

  // ---------------------------------------------------------------------------
  // Frame timing

  /** The deltaTime of each frame started at the given glfwGetTime values. */
  function Deltas(lastFrame: real, times: seq<real>): (r: seq<real>)
    ensures |r| == |times|
    decreases |times|
  {
    if times == [] then [] else [times[0] - lastFrame] + Deltas(times[0], times[1..])
  }

  function Sum(xs: seq<real>): real {
    if xs == [] then 0.0 else xs[0] + Sum(xs[1..])
  }

  /**
   * The frame steps add up to the time since lastFrame: movement speed times the sum
   * of the deltas is the distance covered, whatever the frame rate. With lastFrame
   * starting at 0 the first step is the whole time since GLFW started.
   */
  lemma {:induction false} DeltasTelescope(lastFrame: real, times: seq<real>)
    requires |times| > 0
    ensures Sum(Deltas(lastFrame, times)) == times[|times| - 1] - lastFrame
    decreases |times|
  {
    if |times| > 1 {
      DeltasTelescope(times[0], times[1..]);
    }
  }

  // ---------------------------------------------------------------------------
  // Keyboard (processInput)

  /** processInput's static isFullscreen, isCursorDisabled and isWireframe. */
  datatype Toggles = Toggles(fullscreen: bool, cursorDisabled: bool, wireframe: bool)

  const START_TOGGLES: Toggles := Toggles(false, false, false)

  /** A flag flips on every call its keys are held in: there is no edge detection. */
  function Flip(flag: bool, held: bool): (r: bool)
    ensures r == (flag != held)
  {
    if held then !flag else flag
  }

  predicate FullscreenChord(pressed: set<Key>) {
    LeftAlt in pressed && Enter in pressed
  }

  predicate CursorChord(pressed: set<Key>) {
    LeftControl in pressed && Enter in pressed
  }

  function Toggled(t: Toggles, pressed: set<Key>): Toggles {
    Toggles(Flip(t.fullscreen, FullscreenChord(pressed)), Flip(t.cursorDisabled, CursorChord(pressed)),
            Flip(t.wireframe, F in pressed))
  }

  /** The toggles after n calls with the same keys held. */
  function ToggledFor(t: Toggles, pressed: set<Key>, n: nat): Toggles {
    if n == 0 then t else Toggled(ToggledFor(t, pressed, n - 1), pressed)
  }

  /** Holding a chord for n frames flips its flag n times: the flag ends up as it started iff n is even. */
  lemma {:induction false} HeldChordsAlternate(t: Toggles, pressed: set<Key>, n: nat)
    ensures var r := ToggledFor(t, pressed, n);
      (r.fullscreen == t.fullscreen <==> !FullscreenChord(pressed) || n % 2 == 0)
      && (r.cursorDisabled == t.cursorDisabled <==> !CursorChord(pressed) || n % 2 == 0)
      && (r.wireframe == t.wireframe <==> F !in pressed || n % 2 == 0)
  {
    if n > 0 {
      HeldChordsAlternate(t, pressed, n - 1);
    }
  }

  /** The window calls the Alt+Enter and Ctrl+Enter branches make, in that order. */
  function WindowEvents(t: Toggles, pressed: set<Key>, width: nat, height: nat): (r: seq<WindowEvent>)
    ensures |r| == (if FullscreenChord(pressed) then 1 else 0) + (if CursorChord(pressed) then 1 else 0)
  {
    (if FullscreenChord(pressed) then
       [if t.fullscreen then SetMonitor(false, 100, 100, width, height, 0) else SetMonitor(true, 0, 0, width, height, 60)]
     else [])
    + (if CursorChord(pressed) then [SetCursorMode(!t.cursorDisabled)] else [])
  }

  /** Every window call leaves the window in the state the toggle now records. */
  lemma WindowFollowsToggles(t: Toggles, pressed: set<Key>, width: nat, height: nat)
    ensures var r := Toggled(t, pressed);
      forall e :: e in WindowEvents(t, pressed, width, height) ==>
        && (e.SetMonitor? ==>
              && e.fullscreen == r.fullscreen && e.width == width && e.height == height
              && (if e.fullscreen then e.x == 0 && e.y == 0 && e.refreshRate == 60
                  else e.x == 100 && e.y == 100 && e.refreshRate == 0))
        && (e.SetCursorMode? ==> e.disabled == r.cursorDisabled)
  {
  }

  /** The glPolygonMode call of the F branch. */
  function PolygonEvents(wireframe: bool, pressed: set<Key>): (r: seq<Event>)
    ensures F in pressed <==> |r| == 1
    ensures F in pressed ==> r[0] == SetPolygonMode(if Flip(wireframe, true) then Line else Fill)
  {
    if F in pressed then [SetPolygonMode(if wireframe then Fill else Line)] else []
  }

  /** The movement keys, in the order processInput tests them. */
  const MOVEMENT_KEYS: seq<(Key, Movement)> := [
    (E, Movement.Up), (Q, Movement.Down), (W, Movement.Forward),
    (S, Movement.Backward), (A, Movement.Left), (D, Movement.Right)]

  /** The looking keys, tested after every movement key. */
  const LOOKING_KEYS: seq<(Key, Looking)> := [
    (ArrowLeft, Looking.Left), (ArrowRight, Looking.Right), (ArrowUp, Looking.Up), (ArrowDown, Looking.Down)]

  /** The camera after the movement keys from the k-th on. */
  function MovedFrom(s: CameraState, pressed: set<Key>, deltaTime: real, k: nat): CameraState
    requires k <= |MOVEMENT_KEYS|
    decreases |MOVEMENT_KEYS| - k
  {
    if k == |MOVEMENT_KEYS| then s
    else
      var binding := MOVEMENT_KEYS[k];
      MovedFrom(if binding.0 in pressed then Moved(s, binding.1, deltaTime) else s, pressed, deltaTime, k + 1)
  }

  /** The camera after the looking keys from the k-th on. */
  function LookedFrom(s: CameraState, pressed: set<Key>, basis: Basis, k: nat): CameraState
    requires k <= |LOOKING_KEYS|
    decreases |LOOKING_KEYS| - k
  {
    if k == |LOOKING_KEYS| then s
    else
      var binding := LOOKING_KEYS[k];
      LookedFrom(if binding.0 in pressed then Looked(s, binding.1, basis) else s, pressed, basis, k + 1)
  }

  /** The camera Space leaves: a new default camera, before any key moves it. */
  function Reset(s: CameraState, pressed: set<Key>, basis: Basis): CameraState {
    if Space in pressed then Initial(basis, HOME, WORLD_UP, YAW, PITCH) else s
  }

  /** The camera after one processInput call. */
  function Steered(s: CameraState, pressed: set<Key>, deltaTime: real, basis: Basis): CameraState {
    LookedFrom(MovedFrom(Reset(s, pressed, basis), pressed, deltaTime, 0), pressed, basis, 0)
  }

  predicate SteeringKey(k: Key) {
    k in {Space, E, Q, W, S, A, D, ArrowLeft, ArrowRight, ArrowUp, ArrowDown}
  }

  /** Keys that do not steer leave the camera alone. */
  lemma OtherKeysKeepCamera(s: CameraState, pressed: set<Key>, deltaTime: real, basis: Basis)
    requires forall k :: k in pressed ==> !SteeringKey(k)
    ensures Steered(s, pressed, deltaTime, basis) == s
  {
    assert Space !in pressed && E !in pressed && Q !in pressed && W !in pressed && S !in pressed;
    assert A !in pressed && D !in pressed;
    assert ArrowLeft !in pressed && ArrowRight !in pressed && ArrowUp !in pressed && ArrowDown !in pressed;
    MovedFromNothing(s, pressed, deltaTime, 0);
    LookedFromNothing(s, pressed, basis, 0);
  }

  lemma {:induction false} MovedFromNothing(s: CameraState, pressed: set<Key>, deltaTime: real, k: nat)
    requires k <= |MOVEMENT_KEYS|
    requires forall j :: k <= j < |MOVEMENT_KEYS| ==> MOVEMENT_KEYS[j].0 !in pressed
    ensures MovedFrom(s, pressed, deltaTime, k) == s
    decreases |MOVEMENT_KEYS| - k
  {
    if k < |MOVEMENT_KEYS| {
      MovedFromNothing(s, pressed, deltaTime, k + 1);
    }
  }

  lemma {:induction false} LookedFromNothing(s: CameraState, pressed: set<Key>, basis: Basis, k: nat)
    requires k <= |LOOKING_KEYS|
    requires forall j :: k <= j < |LOOKING_KEYS| ==> LOOKING_KEYS[j].0 !in pressed
    ensures LookedFrom(s, pressed, basis, k) == s
    decreases |LOOKING_KEYS| - k
  {
    if k < |LOOKING_KEYS| {
      LookedFromNothing(s, pressed, basis, k + 1);
    }
  }

  /**
   * Opposite movement keys held together cancel: each pair (E/Q, W/S, A/D) is tested
   * back to back, so the second undoes the first along the same, unchanged axis.
   */
  lemma BalancedKeysCancel(s: CameraState, pressed: set<Key>, deltaTime: real, basis: Basis)
    requires Space !in pressed
    requires ArrowLeft !in pressed && ArrowRight !in pressed && ArrowUp !in pressed && ArrowDown !in pressed
    requires (E in pressed <==> Q in pressed) && (W in pressed <==> S in pressed) && (A in pressed <==> D in pressed)
    ensures Steered(s, pressed, deltaTime, basis) == s
  {
    var s2 := MovedFrom(s, pressed, deltaTime, 2);
    var s4 := MovedFrom(s, pressed, deltaTime, 4);
    assert MovedFrom(s, pressed, deltaTime, 0) == s2 by {
      MovementUndone(s, Movement.Up, deltaTime);
    }
    assert s2 == s4 by {
      MovementUndone(s, Movement.Forward, deltaTime);
    }
    assert s4 == MovedFrom(s, pressed, deltaTime, 6) by {
      MovementUndone(s, Movement.Left, deltaTime);
    }
    LookedFromNothing(s, pressed, basis, 0);
  }

  /** With Space held the old camera does not matter: the reset comes before every move. */
  lemma SpaceForgetsCamera(s: CameraState, t: CameraState, pressed: set<Key>, deltaTime: real, basis: Basis)
    requires Space in pressed
    ensures Steered(s, pressed, deltaTime, basis) == Steered(t, pressed, deltaTime, basis)
    ensures Space !in pressed - {Space}
    ensures Steered(s, pressed, deltaTime, basis) ==
      Steered(Initial(basis, HOME, WORLD_UP, YAW, PITCH), pressed - {Space}, deltaTime, basis)
  {
    var rest := pressed - {Space};
    var start := Initial(basis, HOME, WORLD_UP, YAW, PITCH);
    SameKeysSameMoves(start, pressed, rest, deltaTime, 0);
    SameKeysSameLooks(MovedFrom(start, pressed, deltaTime, 0), pressed, rest, basis, 0);
  }

  lemma {:induction false} SameKeysSameMoves(s: CameraState, p: set<Key>, q: set<Key>, deltaTime: real, k: nat)
    requires k <= |MOVEMENT_KEYS|
    requires forall j :: k <= j < |MOVEMENT_KEYS| ==> (MOVEMENT_KEYS[j].0 in p <==> MOVEMENT_KEYS[j].0 in q)
    ensures MovedFrom(s, p, deltaTime, k) == MovedFrom(s, q, deltaTime, k)
    decreases |MOVEMENT_KEYS| - k
  {
    if k < |MOVEMENT_KEYS| {
      var b := MOVEMENT_KEYS[k];
      SameKeysSameMoves(if b.0 in p then Moved(s, b.1, deltaTime) else s, p, q, deltaTime, k + 1);
    }
  }

  lemma {:induction false} SameKeysSameLooks(s: CameraState, p: set<Key>, q: set<Key>, basis: Basis, k: nat)
    requires k <= |LOOKING_KEYS|
    requires forall j :: k <= j < |LOOKING_KEYS| ==> (LOOKING_KEYS[j].0 in p <==> LOOKING_KEYS[j].0 in q)
    ensures LookedFrom(s, p, basis, k) == LookedFrom(s, q, basis, k)
    decreases |LOOKING_KEYS| - k
  {
    if k < |LOOKING_KEYS| {
      var b := LOOKING_KEYS[k];
      SameKeysSameLooks(if b.0 in p then Looked(s, b.1, basis) else s, p, q, basis, k + 1);
    }
  }

  /**
   * Moving comes before turning: W with an arrow key moves along the old front
   * vector and only then turns, and the turn does not depend on the frame time.
   */
  lemma MovesBeforeLooking(s: CameraState, deltaTime: real, basis: Basis, arrow: Key)
    requires arrow in {ArrowLeft, ArrowRight, ArrowUp, ArrowDown}
    ensures var direction := match arrow
        case ArrowLeft => Looking.Left case ArrowRight => Looking.Right
        case ArrowUp => Looking.Up case _ => Looking.Down;
      Steered(s, {W, arrow}, deltaTime, basis) == Looked(Moved(s, Movement.Forward, deltaTime), direction, basis)
  {
    var pressed := {W, arrow};
    var moved := Moved(s, Movement.Forward, deltaTime);
    assert MovedFrom(s, pressed, deltaTime, 2) == MovedFrom(s, pressed, deltaTime, 0);
    assert MovedFrom(s, pressed, deltaTime, 2) == MovedFrom(moved, pressed, deltaTime, 3);
    MovedFromNothing(moved, pressed, deltaTime, 3);
    var k := if arrow == ArrowLeft then 0 else if arrow == ArrowRight then 1 else if arrow == ArrowUp then 2 else 3;
    assert LOOKING_KEYS[k].0 == arrow;
    var looked := Looked(moved, LOOKING_KEYS[k].1, basis);
    LookedFromNothing(moved, pressed - {arrow}, basis, 0);
    SkipToLooking(moved, pressed, basis, k);
    LookedFromNothing(looked, pressed, basis, k + 1);
  }

  /** Only the k-th looking key is held: the keys before it do nothing. */
  lemma {:induction false} SkipToLooking(s: CameraState, pressed: set<Key>, basis: Basis, k: nat)
    requires k < |LOOKING_KEYS|
    requires forall j :: 0 <= j < |LOOKING_KEYS| ==> (LOOKING_KEYS[j].0 in pressed <==> j == k)
    ensures LookedFrom(s, pressed, basis, 0) == LookedFrom(Looked(s, LOOKING_KEYS[k].1, basis), pressed, basis, k + 1)
  {
    SkipLooks(s, pressed, basis, 0, k);
  }

  lemma {:induction false} SkipLooks(s: CameraState, pressed: set<Key>, basis: Basis, i: nat, k: nat)
    requires i <= k < |LOOKING_KEYS|
    requires forall j :: i <= j < |LOOKING_KEYS| ==> (LOOKING_KEYS[j].0 in pressed <==> j == k)
    ensures LookedFrom(s, pressed, basis, i) == LookedFrom(Looked(s, LOOKING_KEYS[k].1, basis), pressed, basis, k + 1)
    decreases k - i
  {
    if i < k {
      SkipLooks(s, pressed, basis, i + 1, k);
    }
  }

  // ---------------------------------------------------------------------------
  // Drawing one frame

  function Projection(s: CameraState, width: nat, height: nat): Mat4 {
    Perspective(s.zoom, width, height, NEAR, FAR)
  }

  /** Camera::getViewMatrix. */
  function View(s: CameraState): Mat4 {
    LookAt(s.position, Add(s.position, s.front), s.up)
  }

  /** modelShader.use() and its four uniforms. */
  function ModelPassEvents(s: CameraState, width: nat, height: nat, program: nat, locate: (nat, string) -> int): seq<Event> {
    [UseProgram(program)]
    + CheckedUniform(locate(program, "viewPos"), Vec3Value(s.position))
    + CheckedUniform(locate(program, "projection"), Mat4Value(Projection(s, width, height)))
    + CheckedUniform(locate(program, "view"), Mat4Value(View(s)))
    + CheckedUniform(locate(program, "model"), Mat4Value(MODEL_TRANSFORM))
  }

  /** lightShader.use() and its three uniforms. */
  function LightPassEvents(s: CameraState, width: nat, height: nat, program: nat, locate: (nat, string) -> int): seq<Event> {
    [UseProgram(program)]
    + CheckedUniform(locate(program, "projection"), Mat4Value(Projection(s, width, height)))
    + CheckedUniform(locate(program, "view"), Mat4Value(View(s)))
    + CheckedUniform(locate(program, "model"), Mat4Value(LIGHT_TRANSFORM))
  }

  function ModelEvents(s: CameraState, width: nat, height: nat, program: nat, locate: (nat, string) -> int,
                       meshes: seq<Meshes.MeshData>): seq<Event> {
    ModelPassEvents(s, width, height, program, locate)
    + Models.Concat(Models.MeshTraces(meshes, program, locate), |meshes|)
  }

  function LightEvents(s: CameraState, width: nat, height: nat, program: nat, locate: (nat, string) -> int,
                       light: Meshes.MeshData): seq<Event> {
    LightPassEvents(s, width, height, program, locate) + Meshes.DrawEvents(light, program, locate)
  }

  /** Everything a frame sends to GL after processInput. */
  function SceneEvents(s: CameraState, width: nat, height: nat, modelProgram: nat, lightProgram: nat,
                       locate: (nat, string) -> int, meshes: seq<Meshes.MeshData>, light: Meshes.MeshData): seq<Event> {
    [Clear] + ModelEvents(s, width, height, modelProgram, locate, meshes)
    + LightEvents(s, width, height, lightProgram, locate, light)
  }

  lemma UniformDraws(location: int, value: UniformValue)
    ensures Meshes.Draws(CheckedUniform(location, value)) == []
  {
    if location != -1 {
      assert CheckedUniform(location, value)[1..] == [];
    }
  }

  lemma SingleDraws(e: Event)
    requires !e.DrawElements?
    ensures Meshes.Draws([e]) == []
  {
    assert [e][1..] == [];
  }

  lemma PassesDraw(s: CameraState, width: nat, height: nat, program: nat, locate: (nat, string) -> int)
    ensures Meshes.Draws(ModelPassEvents(s, width, height, program, locate)) == []
    ensures Meshes.Draws(LightPassEvents(s, width, height, program, locate)) == []
  {
    var use := [UseProgram(program)];
    var viewPos := CheckedUniform(locate(program, "viewPos"), Vec3Value(s.position));
    var projection := CheckedUniform(locate(program, "projection"), Mat4Value(Projection(s, width, height)));
    var view := CheckedUniform(locate(program, "view"), Mat4Value(View(s)));
    var model := CheckedUniform(locate(program, "model"), Mat4Value(MODEL_TRANSFORM));
    var light := CheckedUniform(locate(program, "model"), Mat4Value(LIGHT_TRANSFORM));
    SingleDraws(UseProgram(program));
    UniformDraws(locate(program, "viewPos"), Vec3Value(s.position));
    UniformDraws(locate(program, "projection"), Mat4Value(Projection(s, width, height)));
    UniformDraws(locate(program, "view"), Mat4Value(View(s)));
    UniformDraws(locate(program, "model"), Mat4Value(MODEL_TRANSFORM));
    UniformDraws(locate(program, "model"), Mat4Value(LIGHT_TRANSFORM));
    Meshes.DrawsGlue(use, viewPos, [], []);
    Meshes.DrawsGlue(use + viewPos, projection, [], []);
    Meshes.DrawsGlue(use + viewPos + projection, view, [], []);
    Meshes.DrawsGlue(use + viewPos + projection + view, model, [], []);
    Meshes.DrawsGlue(use, projection, [], []);
    Meshes.DrawsGlue(use + projection, view, [], []);
    Meshes.DrawsGlue(use + projection + view, light, [], []);
  }

  /**
   * The draw calls of a frame: one per mesh of the model, in the model's order,
   * and then the light cube's; the polygon-mode change and the clear draw nothing.
   */
  lemma FrameDrawOrder(wireframe: bool, pressed: set<Key>, s: CameraState, width: nat, height: nat,
                       modelProgram: nat, lightProgram: nat, locate: (nat, string) -> int,
                       meshes: seq<Meshes.MeshData>, light: Meshes.MeshData)
    ensures Meshes.Draws(PolygonEvents(wireframe, pressed)
                         + SceneEvents(s, width, height, modelProgram, lightProgram, locate, meshes, light))
      == Models.IndexCounts(meshes, |meshes|) + [|light.indices|]
  {
    var polygon := PolygonEvents(wireframe, pressed);
    var modelPass := ModelPassEvents(s, width, height, modelProgram, locate);
    var modelDraw := Models.Concat(Models.MeshTraces(meshes, modelProgram, locate), |meshes|);
    var lightPass := LightPassEvents(s, width, height, lightProgram, locate);
    var lightDraw := Meshes.DrawEvents(light, lightProgram, locate);
    var counts := Models.IndexCounts(meshes, |meshes|);
    if F in pressed {
      SingleDraws(polygon[0]);
      assert polygon == [polygon[0]];
    }
    SingleDraws(Clear);
    PassesDraw(s, width, height, modelProgram, locate);
    PassesDraw(s, width, height, lightProgram, locate);
    Models.OneDrawPerMesh(meshes, modelProgram, locate, |meshes|);
    Meshes.DrawOnce(light, lightProgram, locate);
    Meshes.DrawsGlue(modelPass, modelDraw, [], counts);
    Meshes.DrawsGlue(lightPass, lightDraw, [], [|light.indices|]);
    Meshes.DrawsGlue([Clear], modelPass + modelDraw, [], counts);
    Meshes.DrawsGlue([Clear] + (modelPass + modelDraw), lightPass + lightDraw, counts, [|light.indices|]);
    Meshes.DrawsGlue(polygon, SceneEvents(s, width, height, modelProgram, lightProgram, locate, meshes, light),
                     [], counts + [|light.indices|]);
  }

  // ---------------------------------------------------------------------------
  // The program's globals

  class App {
    /** The camera's updateCameraVectors, shared by every camera the program makes. */
    const basis: Basis

    var width: nat
    var height: nat
    var camera: Camera
    var cursor: Cursor
    var deltaTime: real
    var lastFrame: real
    var fullscreen: bool
    var cursorDisabled: bool
    var wireframe: bool

    ghost predicate Valid()
      reads this, camera
    {
      camera.Valid() && camera.basis == basis
    }

    function Flags(): Toggles
      reads this
    {
      Toggles(fullscreen, cursorDisabled, wireframe)
    }

    /** The globals and statics as the program starts. */
    constructor (basis: Basis)
      ensures Valid() && this.basis == basis
      ensures width == INITIAL_WIDTH && height == INITIAL_HEIGHT
      ensures camera.State() == Initial(basis, HOME, WORLD_UP, YAW, PITCH)
      ensures cursor == START_CURSOR && deltaTime == 0.0 && lastFrame == 0.0
      ensures Flags() == START_TOGGLES
    {
      this.basis := basis;
      width, height := INITIAL_WIDTH, INITIAL_HEIGHT;
      camera := new Camera(basis, HOME, WORLD_UP, YAW, PITCH);
      cursor := START_CURSOR;
      deltaTime, lastFrame := 0.0, 0.0;
      fullscreen, cursorDisabled, wireframe := false, false, false;
    }

    /** frameBufferSizeCallback: the new size, stored as uint32_t, and glViewport. */
    method FrameBufferSize(gl: Context, widthIn: int, heightIn: int)
      modifies this`width, this`height, gl
      ensures width == ToU32(widthIn) && height == ToU32(heightIn)
      ensures gl.trace == old(gl.trace) + [Viewport(widthIn, heightIn)]
      ensures gl.next == old(gl.next) && gl.live == old(gl.live)
    {
      width := ToU32(widthIn);
      height := ToU32(heightIn);
      gl.Emit(Viewport(widthIn, heightIn));
    }

    /** mouseCallback: offsets from the last position, y inverted, pitch constrained. */
    method MouseCallback(xpos: real, ypos: real)
      requires Valid()
      modifies this`cursor, camera
      ensures Valid()
      ensures cursor == CursorMoved(old(cursor), xpos, ypos)
      ensures var offsets := CursorOffsets(old(cursor), xpos, ypos);
        camera.State() == MouseMoved(old(camera.State()), offsets.0, offsets.1, true, basis)
    {
      if cursor.firstMouse {
        cursor := Cursor(xpos, ypos, false);
      }
      var xoffset := xpos - cursor.lastX;
      var yoffset := cursor.lastY - ypos;
      cursor := cursor.(lastX := xpos, lastY := ypos);
      camera.ProcessMouseMovement(xoffset, yoffset, true);
    }

    /** scrollCallback: only the vertical offset zooms. */
    method ScrollCallback(xoffset: real, yoffset: real)
      requires Valid()
      modifies camera
      ensures Valid()
      ensures camera.State() == Scrolled(old(camera.State()), yoffset)
    {
      camera.ProcessMouseScroll(yoffset);
    }

    /** The Escape, Alt+Enter and Ctrl+Enter branches of processInput. */
    method WindowKeys(window: Window, pressed: set<Key>)
      modifies this`fullscreen, this`cursorDisabled, window
      ensures window.shouldClose == (old(window.shouldClose) || Escape in pressed)
      ensures window.events == old(window.events) + WindowEvents(old(Flags()), pressed, width, height)
      ensures fullscreen == Flip(old(fullscreen), FullscreenChord(pressed))
      ensures cursorDisabled == Flip(old(cursorDisabled), CursorChord(pressed))
    {
      if Escape in pressed {
        window.shouldClose := true;
      }
      ghost var start := window.events;
      if LeftAlt in pressed && Enter in pressed {
        if fullscreen {
          window.events := window.events + [SetMonitor(false, 100, 100, width, height, 0)];
          fullscreen := false;
        } else {
          window.events := window.events + [SetMonitor(true, 0, 0, width, height, 60)];
          fullscreen := true;
        }
      }
      ghost var middle := window.events;
      if LeftControl in pressed && Enter in pressed {
        if cursorDisabled {
          window.events := window.events + [SetCursorMode(false)];
          cursorDisabled := false;
        } else {
          window.events := window.events + [SetCursorMode(true)];
          cursorDisabled := true;
        }
      }
      assert window.events == start + (middle[|start|..] + window.events[|middle|..]);
    }

    /** The Space, movement and arrow-key branches of processInput. */
    method Steer(pressed: set<Key>)
      requires Valid()
      modifies this`camera, camera
      ensures Valid()
      ensures camera.State() == Steered(old(camera.State()), pressed, deltaTime, basis)
      ensures Space in pressed ==> fresh(camera)
    {
      if Space in pressed {
        camera := new Camera(basis, HOME, WORLD_UP, YAW, PITCH);
      }
      MovementKeys(pressed);
      LookingKeys(pressed);
    }

    /** The six movement branches, in source order. */
    method MovementKeys(pressed: set<Key>)
      requires Valid()
      modifies camera
      ensures Valid()
      ensures camera.State() == MovedFrom(old(camera.State()), pressed, deltaTime, 0)
    {
      ghost var c0 := camera.State();
      MoveIfHeld(pressed, E, Movement.Up);
      ghost var c1 := camera.State();
      assert MovedFrom(c0, pressed, deltaTime, 0) == MovedFrom(c1, pressed, deltaTime, 1);
      MoveIfHeld(pressed, Q, Movement.Down);
      ghost var c2 := camera.State();
      assert MovedFrom(c1, pressed, deltaTime, 1) == MovedFrom(c2, pressed, deltaTime, 2);
      MoveIfHeld(pressed, W, Movement.Forward);
      ghost var c3 := camera.State();
      assert MovedFrom(c2, pressed, deltaTime, 2) == MovedFrom(c3, pressed, deltaTime, 3);
      MoveIfHeld(pressed, S, Movement.Backward);
      ghost var c4 := camera.State();
      assert MovedFrom(c3, pressed, deltaTime, 3) == MovedFrom(c4, pressed, deltaTime, 4);
      MoveIfHeld(pressed, A, Movement.Left);
      ghost var c5 := camera.State();
      assert MovedFrom(c4, pressed, deltaTime, 4) == MovedFrom(c5, pressed, deltaTime, 5);
      MoveIfHeld(pressed, D, Movement.Right);
      assert MovedFrom(c5, pressed, deltaTime, 5) == MovedFrom(camera.State(), pressed, deltaTime, 6);
    }

    /** One movement branch: `if (glfwGetKey(window, key) == GLFW_PRESS) camera.processKeyboard(direction, deltaTime)`. */
    method MoveIfHeld(pressed: set<Key>, key: Key, direction: Movement)
      requires Valid()
      modifies camera
      ensures Valid()
      ensures camera.State() == if key in pressed then Moved(old(camera.State()), direction, deltaTime) else old(camera.State())
    {
      if key in pressed {
        camera.ProcessMovement(direction, deltaTime);
      }
    }

    /** The four arrow-key branches, after every movement branch. */
    method LookingKeys(pressed: set<Key>)
      requires Valid()
      modifies camera
      ensures Valid()
      ensures camera.State() == LookedFrom(old(camera.State()), pressed, basis, 0)
    {
      ghost var c0 := camera.State();
      LookIfHeld(pressed, ArrowLeft, Looking.Left);
      ghost var c1 := camera.State();
      assert LookedFrom(c0, pressed, basis, 0) == LookedFrom(c1, pressed, basis, 1);
      LookIfHeld(pressed, ArrowRight, Looking.Right);
      ghost var c2 := camera.State();
      assert LookedFrom(c1, pressed, basis, 1) == LookedFrom(c2, pressed, basis, 2);
      LookIfHeld(pressed, ArrowUp, Looking.Up);
      ghost var c3 := camera.State();
      assert LookedFrom(c2, pressed, basis, 2) == LookedFrom(c3, pressed, basis, 3);
      LookIfHeld(pressed, ArrowDown, Looking.Down);
      assert LookedFrom(c3, pressed, basis, 3) == LookedFrom(camera.State(), pressed, basis, 4);
    }

    /** One arrow-key branch. */
    method LookIfHeld(pressed: set<Key>, key: Key, direction: Looking)
      requires Valid()
      modifies camera
      ensures Valid()
      ensures camera.State() == if key in pressed then Looked(old(camera.State()), direction, basis) else old(camera.State())
    {
      if key in pressed {
        camera.ProcessLooking(direction, deltaTime);
      }
    }

    /** The F branch of processInput. */
    method PolygonKey(gl: Context, pressed: set<Key>)
      modifies this`wireframe, gl
      ensures wireframe == Flip(old(wireframe), F in pressed)
      ensures gl.trace == old(gl.trace) + PolygonEvents(old(wireframe), pressed)
      ensures gl.next == old(gl.next) && gl.live == old(gl.live)
    {
      if F in pressed {
        if wireframe {
          gl.Emit(SetPolygonMode(Fill));
          wireframe := false;
        } else {
          gl.Emit(SetPolygonMode(Line));
          wireframe := true;
        }
      }
    }

    /** processInput: the branches in source order, each key polled once. */
    method ProcessInput(gl: Context, window: Window, pressed: set<Key>)
      requires Valid()
      modifies this`camera, camera, this`fullscreen, this`cursorDisabled, this`wireframe, window, gl
      ensures Valid()
      ensures window.shouldClose == (old(window.shouldClose) || Escape in pressed)
      ensures window.events == old(window.events) + WindowEvents(old(Flags()), pressed, width, height)
      ensures Flags() == Toggled(old(Flags()), pressed)
      ensures camera.State() == Steered(old(camera.State()), pressed, deltaTime, basis)
      ensures gl.trace == old(gl.trace) + PolygonEvents(old(wireframe), pressed)
      ensures gl.next == old(gl.next) && gl.live == old(gl.live)
    {
      WindowKeys(window, pressed);
      Steer(pressed);
      PolygonKey(gl, pressed);
    }

    /** The model draw of a frame: modelShader's uniforms, then every mesh of the model. */
    method DrawModel(gl: Context, model: Models.Model, shader: Shader)
      modifies gl
      ensures gl.trace == old(gl.trace)
        + ModelEvents(camera.State(), width, height, shader.id, gl.locate, Models.MeshesData(model.meshes))
      ensures gl.next == old(gl.next) && gl.live == old(gl.live)
    {
      var s := camera.State();
      var projection := Perspective(camera.GetZoom(), width, height, NEAR, FAR);
      var view := camera.GetViewMatrix();
      ghost var before := gl.trace;
      shader.Use(gl);
      shader.SetVec3(gl, "viewPos", camera.GetPosition());
      shader.SetMat4(gl, "projection", projection);
      shader.SetMat4(gl, "view", view);
      shader.SetMat4(gl, "model", MODEL_TRANSFORM);
      assert gl.trace == before + ModelPassEvents(s, width, height, shader.id, gl.locate);
      Models.MeshesDataFrame(model.meshes);
      ghost var passed := gl.trace;
      model.Draw(gl, shader);
      Models.AppendAssociates(before, ModelPassEvents(s, width, height, shader.id, gl.locate),
                              gl.trace[|passed|..]);
    }

    /** The light-cube draw of a frame. */
    method DrawLight(gl: Context, shader: Shader, light: Meshes.Mesh)
      modifies gl
      ensures gl.trace == old(gl.trace) + LightEvents(camera.State(), width, height, shader.id, gl.locate, light.Data())
      ensures gl.next == old(gl.next) && gl.live == old(gl.live)
    {
      var s := camera.State();
      var projection := Perspective(camera.GetZoom(), width, height, NEAR, FAR);
      var view := camera.GetViewMatrix();
      ghost var before := gl.trace;
      shader.Use(gl);
      shader.SetMat4(gl, "projection", projection);
      shader.SetMat4(gl, "view", view);
      shader.SetMat4(gl, "model", LIGHT_TRANSFORM);
      assert gl.trace == before + LightPassEvents(s, width, height, shader.id, gl.locate);
      ghost var passed := gl.trace;
      light.Draw(gl, shader);
      Models.AppendAssociates(before, LightPassEvents(s, width, height, shader.id, gl.locate),
                              gl.trace[|passed|..]);
    }

    /** One iteration of the render loop, from glfwGetTime to the light cube's draw. */
    method RenderFrame(gl: Context, window: Window, pressed: set<Key>, currentFrame: real,
                       model: Models.Model, modelShader: Shader, lightShader: Shader, light: Meshes.Mesh)
      requires Valid()
      modifies this`deltaTime, this`lastFrame, this`camera, camera, this`fullscreen, this`cursorDisabled,
        this`wireframe, window, gl
      ensures Valid()
      ensures deltaTime == currentFrame - old(lastFrame) && lastFrame == currentFrame
      ensures window.shouldClose == (old(window.shouldClose) || Escape in pressed)
      ensures window.events == old(window.events) + WindowEvents(old(Flags()), pressed, width, height)
      ensures Flags() == Toggled(old(Flags()), pressed)
      ensures camera.State() == Steered(old(camera.State()), pressed, deltaTime, basis)
      ensures gl.trace == old(gl.trace) + PolygonEvents(old(wireframe), pressed)
        + SceneEvents(camera.State(), width, height, modelShader.id, lightShader.id, gl.locate,
                      Models.MeshesData(model.meshes), light.Data())
      ensures gl.next == old(gl.next) && gl.live == old(gl.live)
    {
      deltaTime := currentFrame - lastFrame;
      lastFrame := currentFrame;
      ProcessInput(gl, window, pressed);
      DrawScene(gl, model, modelShader, lightShader, light);
    }

    /** The drawing half of a frame: clear, the model with its shader, then the light cube. */
    method DrawScene(gl: Context, model: Models.Model, modelShader: Shader, lightShader: Shader, light: Meshes.Mesh)
      modifies gl
      ensures gl.trace == old(gl.trace) + SceneEvents(camera.State(), width, height, modelShader.id, lightShader.id,
                                                      gl.locate, Models.MeshesData(model.meshes), light.Data())
      ensures gl.next == old(gl.next) && gl.live == old(gl.live)
    {
      ghost var s := camera.State();
      ghost var start := gl.trace;
      gl.Emit(Clear);
      DrawModel(gl, model, modelShader);
      ghost var modelEvents := ModelEvents(s, width, height, modelShader.id, gl.locate, Models.MeshesData(model.meshes));
      label Drawn:
      DrawLight(gl, lightShader, light);
      Models.MeshesDataFrame@Drawn(model.meshes);
      ghost var lightEvents := LightEvents(s, width, height, lightShader.id, gl.locate, light.Data());
      assert gl.trace == start + [Clear] + modelEvents + lightEvents;
      Models.AppendAssociates(start, [Clear] + modelEvents, lightEvents);
      Models.AppendAssociates(start, [Clear], modelEvents);
    }
  }
}

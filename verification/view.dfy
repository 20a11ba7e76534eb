/**
 * The view manager: projection mode, pointer tracking and camera presets.
 *
 * The state is what the view manager keeps in its file-level globals plus
 * the camera it owns. The camera class itself is outside this model: its
 * handlers for pointer motion, movement keys and scrolling are supplied as
 * functions, and the pose fields the view manager assigns directly are kept
 * apart from the look angles only the camera updates.
 */
module View {
  import opened Uniforms

  /** The reference window, whose shape the source fixes at compile time. */
  const WindowWidth: int := 1000
  const WindowHeight: int := 800

  const ViewName: string := "view"
  const ProjectionName: string := "projection"
  const ViewPositionName: string := "viewPosition"

  const NearPlane: real := 0.1
  const FarPlane: real := 100.0
  /** Half-extent of the orthographic box along the window's longer axis. */
  const OrthoHalfExtent: real := 5.0

  datatype Mode = Perspective | Orthographic

  /** The four camera fields the view manager assigns directly. */
  datatype Pose = Pose(position: Vec3, front: Vec3, up: Vec3, zoom: real)

  /** The camera: its pose and the look angles only its own handlers change. */
  datatype Camera = Camera(pose: Pose, yaw: real, pitch: real)

  datatype Direction = Forward | Backward | Left | Right | Up | Down

  /** The camera's handlers for pointer motion, a movement key held for a
      frame of the given length, and scrolling. */
  datatype CameraOps = CameraOps(
    mouseMovement: (Camera, real, real) -> Camera,
    keyboard: (Camera, Direction, real) -> Camera,
    mouseScroll: (Camera, real) -> Camera)

  datatype ViewState = ViewState(
    mode: Mode,
    firstMouse: bool,
    lastX: real,
    lastY: real,
    lastFrame: real,
    camera: Camera)

  const InitialPose: Pose :=
    Pose(Vec3(0.0, 2.0, 12.0), Vec3(0.0, -0.15, -4.0), Vec3(0.0, 1.0, 0.0), 50.0)
  const OrthographicPreset: Pose :=
    Pose(Vec3(-2.0, 2.0, 10.0), Vec3(0.0, 0.0, -2.0), Vec3(0.0, 1.0, 0.0), 100.0)
  const PerspectivePreset: Pose :=
    Pose(Vec3(-1.5, 3.5, 8.0), Vec3(0.0, -0.5, -2.0), Vec3(0.0, 1.0, 0.0), 80.0)

  /** The transition table of the mode keys: the pose each switch installs. */
  function Preset(m: Mode): Pose
  {
    match m
    case Perspective => PerspectivePreset
    case Orthographic => OrthographicPreset
  }

  /** Enter mode `m`, overwriting the pose with that mode's preset. */
  function SwitchMode(s: ViewState, m: Mode): (r: ViewState)
    ensures r.mode == m && r.camera.pose == Preset(m)
    ensures r.camera.yaw == s.camera.yaw && r.camera.pitch == s.camera.pitch
    ensures r.firstMouse == s.firstMouse && r.lastX == s.lastX && r.lastY == s.lastY
    ensures r.lastFrame == s.lastFrame
  {
    s.(mode := m, camera := s.camera.(pose := Preset(m)))
  }

  /**
   * The state after the process's first construction. The constructor only
   * creates the camera: `constructed` is the camera as its own constructor
   * leaves it, and the view manager then overwrites its pose. Mode,
   * first-mouse flag, last pointer and last frame time are file-level
   * globals initialised once per process; the pointer starts at the centre
   * of the reference window.
   */
  function NewViewManager(constructed: Camera): (s: ViewState)
    ensures s.mode == Perspective && s.firstMouse
    ensures s.lastX == 500.0 && s.lastY == 400.0 && s.lastFrame == 0.0
    ensures s.camera.pose.position == Vec3(0.0, 2.0, 12.0)
    ensures s.camera.pose.front == Vec3(0.0, -0.15, -4.0)
    ensures s.camera.pose.up == Vec3(0.0, 1.0, 0.0)
    ensures s.camera.pose.zoom == 50.0
    ensures s.camera.yaw == constructed.yaw && s.camera.pitch == constructed.pitch
  {
    ViewState(Perspective, true, WindowWidth as real / 2.0, WindowHeight as real / 2.0, 0.0,
              constructed.(pose := InitialPose))
  }

  /** What a pointer event forwards to the camera. */
  datatype MouseCall = NoCall | MouseMovement(xOffset: real, yOffset: real)

  datatype PointerStep = PointerStep(state: ViewState, call: MouseCall)

  /**
   * A pointer event at (x, y). Ignored entirely in orthographic mode. The
   * first event taken in perspective mode becomes the reference point, so it
   * forwards a zero offset; later ones forward the motion since the previous
   * event, with the vertical axis inverted.
   */
  function MousePositionCallback(s: ViewState, ops: CameraOps, x: real, y: real): (r: PointerStep)
    ensures s.mode == Orthographic ==> r.state == s && r.call == NoCall
    ensures s.mode == Perspective ==>
      && r.call.MouseMovement?
      && (s.firstMouse ==> r.call == MouseMovement(0.0, 0.0))
      && (!s.firstMouse ==> r.call == MouseMovement(x - s.lastX, s.lastY - y))
      && r.state.mode == Perspective && !r.state.firstMouse
      && r.state.lastX == x && r.state.lastY == y && r.state.lastFrame == s.lastFrame
      && r.state.camera == ops.mouseMovement(s.camera, r.call.xOffset, r.call.yOffset)
  {
    if s.mode == Orthographic then
      PointerStep(s, NoCall)
    else
      var lastX := if s.firstMouse then x else s.lastX;
      var lastY := if s.firstMouse then y else s.lastY;
      var xOffset := x - lastX;
      var yOffset := lastY - y;
      PointerStep(
        s.(firstMouse := false, lastX := x, lastY := y,
           camera := ops.mouseMovement(s.camera, xOffset, yOffset)),
        MouseMovement(xOffset, yOffset))
  }

  datatype PointerEvent = PointerEvent(x: real, y: real)

  /** The state after a run of pointer events. */
  function PointerEvents(s: ViewState, ops: CameraOps, events: seq<PointerEvent>): ViewState
    decreases |events|
  {
    if |events| == 0 then s
    else
      var e := events[|events| - 1];
      MousePositionCallback(PointerEvents(s, ops, events[..|events| - 1]), ops, e.x, e.y).state
  }

  /** In orthographic mode no run of pointer events changes anything. */
  lemma {:induction false} OrthographicIgnoresPointer(s: ViewState, ops: CameraOps, events: seq<PointerEvent>)
    requires s.mode == Orthographic
    ensures PointerEvents(s, ops, events) == s
    decreases |events|
  {
    if |events| > 0 {
      OrthographicIgnoresPointer(s, ops, events[..|events| - 1]);
    }
  }

  /** Pointer events never change the mode, and once the first event has
      been taken the first-event flag stays cleared. */
  lemma {:induction false} FirstMouseNeverReturns(s: ViewState, ops: CameraOps, events: seq<PointerEvent>)
    ensures PointerEvents(s, ops, events).mode == s.mode
    ensures !s.firstMouse ==> !PointerEvents(s, ops, events).firstMouse
    decreases |events|
  {
    if |events| > 0 {
      FirstMouseNeverReturns(s, ops, events[..|events| - 1]);
    }
  }

  /** Scrolling reaches the camera in both modes and touches nothing else. */
  function ScrollCallback(s: ViewState, ops: CameraOps, yOffset: real): (r: ViewState)
    ensures r.camera == ops.mouseScroll(s.camera, yOffset)
    ensures r.mode == s.mode && r.firstMouse == s.firstMouse
    ensures r.lastX == s.lastX && r.lastY == s.lastY && r.lastFrame == s.lastFrame
  {
    s.(camera := ops.mouseScroll(s.camera, yOffset))
  }

  /** A pointer or scroll event, as the window delivers them. */
  datatype InputEvent = PointerMoved(x: real, y: real) | Scrolled(yOffset: real)

  /** The state after a run of pointer and scroll events. */
  function InputEvents(s: ViewState, ops: CameraOps, events: seq<InputEvent>): ViewState
    decreases |events|
  {
    if |events| == 0 then s
    else
      var before := InputEvents(s, ops, events[..|events| - 1]);
      match events[|events| - 1]
      case PointerMoved(x, y) => MousePositionCallback(before, ops, x, y).state
      case Scrolled(dy) => ScrollCallback(before, ops, dy)
  }

  /** The camera's scroll handler leaves the look angles alone (it only zooms). */
  ghost predicate ScrollKeepsAngles(ops: CameraOps)
  {
    forall c: Camera, dy: real ::
      ops.mouseScroll(c, dy).yaw == c.yaw && ops.mouseScroll(c, dy).pitch == c.pitch
  }

  /**
   * In orthographic mode pointer and scroll events leave the mode and the
   * pointer tracking alone; only scrolling reaches the camera, so with a
   * scroll handler that only zooms the look angles are kept too.
   */
  lemma {:induction false} OrthographicInputKeepsTracking(s: ViewState, ops: CameraOps, events: seq<InputEvent>)
    requires s.mode == Orthographic
    ensures var r := InputEvents(s, ops, events);
      && r.mode == Orthographic && r.firstMouse == s.firstMouse
      && r.lastX == s.lastX && r.lastY == s.lastY && r.lastFrame == s.lastFrame
    ensures ScrollKeepsAngles(ops) ==>
      InputEvents(s, ops, events).camera.yaw == s.camera.yaw &&
      InputEvents(s, ops, events).camera.pitch == s.camera.pitch
    decreases |events|
  {
    if |events| > 0 {
      OrthographicInputKeepsTracking(s, ops, events[..|events| - 1]);
    }
  }

  datatype Key = KeyEscape | KeyW | KeyS | KeyA | KeyD | KeyQ | KeyE | KeyO | KeyP

  /** The camera after the movement keys held this frame, in the order the
      source polls them: W, S, A, D, Q, E. */
  function Walk(c: Camera, ops: CameraOps, keys: set<Key>, dt: real): Camera
  {
    var c1 := if KeyW in keys then ops.keyboard(c, Forward, dt) else c;
    var c2 := if KeyS in keys then ops.keyboard(c1, Backward, dt) else c1;
    var c3 := if KeyA in keys then ops.keyboard(c2, Left, dt) else c2;
    var c4 := if KeyD in keys then ops.keyboard(c3, Right, dt) else c3;
    var c5 := if KeyQ in keys then ops.keyboard(c4, Up, dt) else c4;
    if KeyE in keys then ops.keyboard(c5, Down, dt) else c5
  }

  lemma WalkWithoutMovementKeys(c: Camera, ops: CameraOps, keys: set<Key>, dt: real)
    requires KeyW !in keys && KeyS !in keys && KeyA !in keys
    requires KeyD !in keys && KeyQ !in keys && KeyE !in keys
    ensures Walk(c, ops, keys, dt) == c
  {
  }

  datatype KeyStep = KeyStep(state: ViewState, closeRequested: bool)

  /**
   * One keyboard poll with the keys held in `keys`, `dt` being the frame
   * time. Escape requests the window to close; movement keys go to the
   * camera; O then P switch the mode and install its preset pose, so when
   * both are held P, checked last, decides.
   */
  function ProcessKeyboardEvents(s: ViewState, ops: CameraOps, keys: set<Key>, dt: real): (r: KeyStep)
    ensures r.closeRequested <==> KeyEscape in keys
    ensures r.state.firstMouse == s.firstMouse && r.state.lastX == s.lastX && r.state.lastY == s.lastY
    ensures r.state.lastFrame == s.lastFrame
    ensures KeyP in keys ==> r.state.mode == Perspective && r.state.camera.pose == PerspectivePreset
    ensures KeyO in keys && KeyP !in keys ==>
      r.state.mode == Orthographic && r.state.camera.pose == OrthographicPreset
    ensures KeyO !in keys && KeyP !in keys ==>
      r.state.mode == s.mode && r.state.camera == Walk(s.camera, ops, keys, dt)
    ensures r.state.camera.yaw == Walk(s.camera, ops, keys, dt).yaw
    ensures r.state.camera.pitch == Walk(s.camera, ops, keys, dt).pitch
  {
    var walked := s.(camera := Walk(s.camera, ops, keys, dt));
    var afterO := if KeyO in keys then SwitchMode(walked, Orthographic) else walked;
    var afterP := if KeyP in keys then SwitchMode(afterO, Perspective) else afterO;
    KeyStep(afterP, KeyEscape in keys)
  }

  /** Holding O for a second poll changes nothing more. */
  lemma OrthographicKeyIdempotent(s: ViewState, ops: CameraOps, dt1: real, dt2: real)
    ensures var once := ProcessKeyboardEvents(s, ops, {KeyO}, dt1).state;
      ProcessKeyboardEvents(once, ops, {KeyO}, dt2).state == once
  {
    WalkWithoutMovementKeys(s.camera, ops, {KeyO}, dt1);
    var once := ProcessKeyboardEvents(s, ops, {KeyO}, dt1).state;
    WalkWithoutMovementKeys(once.camera, ops, {KeyO}, dt2);
  }

  /**
   * Switching to orthographic, moving the pointer any amount, then switching
   * back gives exactly the perspective preset, with the pointer tracking and
   * look angles as they were before the switch.
   */
  lemma OrthographicRoundTrip(s: ViewState, ops: CameraOps, events: seq<PointerEvent>, dt1: real, dt2: real)
    ensures var ortho := ProcessKeyboardEvents(s, ops, {KeyO}, dt1).state;
      var moved := PointerEvents(ortho, ops, events);
      ProcessKeyboardEvents(moved, ops, {KeyP}, dt2).state == SwitchMode(s, Perspective)
  {
    WalkWithoutMovementKeys(s.camera, ops, {KeyO}, dt1);
    var ortho := ProcessKeyboardEvents(s, ops, {KeyO}, dt1).state;
    OrthographicIgnoresPointer(ortho, ops, events);
    WalkWithoutMovementKeys(ortho.camera, ops, {KeyP}, dt2);
  }

  /**
   * Switching to orthographic, then any mix of pointer and scroll events,
   * then switching back gives perspective mode with the perspective preset
   * pose (zoom 80, whatever the scrolling did) and the pointer tracking as it
   * was before the switch. With a scroll handler that only zooms, the state
   * is exactly that of switching to perspective directly.
   */
  lemma OrthographicRoundTripWithScroll(s: ViewState, ops: CameraOps, events: seq<InputEvent>, dt1: real, dt2: real)
    ensures var ortho := ProcessKeyboardEvents(s, ops, {KeyO}, dt1).state;
      var back := ProcessKeyboardEvents(InputEvents(ortho, ops, events), ops, {KeyP}, dt2).state;
      && back.mode == Perspective && back.camera.pose == PerspectivePreset
      && back.firstMouse == s.firstMouse && back.lastX == s.lastX && back.lastY == s.lastY
      && back.lastFrame == s.lastFrame
      && (ScrollKeepsAngles(ops) ==> back == SwitchMode(s, Perspective))
  {
    WalkWithoutMovementKeys(s.camera, ops, {KeyO}, dt1);
    var ortho := ProcessKeyboardEvents(s, ops, {KeyO}, dt1).state;
    OrthographicInputKeepsTracking(ortho, ops, events);
    var moved := InputEvents(ortho, ops, events);
    WalkWithoutMovementKeys(moved.camera, ops, {KeyP}, dt2);
  }

  /** The first pointer event after construction is the reference point:
      it forwards a zero offset, records its position and clears first-mouse,
      for any pointer position (in exact arithmetic). */
  lemma FirstPointerEventAfterConstruction(constructed: Camera, ops: CameraOps, x: real, y: real)
    ensures var s := NewViewManager(constructed);
      var r := MousePositionCallback(s, ops, x, y);
      && r.call == MouseMovement(0.0, 0.0)
      && r.state.lastX == x && r.state.lastY == y && !r.state.firstMouse
      && r.state.mode == Perspective
      && r.state.camera == ops.mouseMovement(s.camera, 0.0, 0.0)
  {
  }

  /**
   * The orthographic box for a window of w by h pixels: half-extent 5 along
   * the longer side, the other side scaled down by the aspect ratio so the
   * box has the window's shape.
   */
  function OrthographicBox(w: int, h: int): (p: Projection)
    requires w > 0 && h > 0
    ensures p.OrthoParams? && p.near == NearPlane && p.far == FarPlane
    ensures p.left == -p.right && p.bottom == -p.top
    ensures 0.0 < p.right <= OrthoHalfExtent && 0.0 < p.top <= OrthoHalfExtent
    ensures w >= h ==> p.right == OrthoHalfExtent
    ensures h >= w ==> p.top == OrthoHalfExtent
    ensures p.right * h as real == p.top * w as real
  {
    if w > h then
      var scale := h as real / w as real;
      OrthoParams(-5.0, 5.0, -5.0 * scale, 5.0 * scale, 0.1, 100.0)
    else if w < h then
      var scale := w as real / h as real;
      OrthoParams(-5.0 * scale, 5.0 * scale, -5.0, 5.0, 0.1, 100.0)
    else
      OrthoParams(-5.0, 5.0, -5.0, 5.0, 0.1, 100.0)
  }

  /** At the reference window size the vertical half-extent is 4. */
  lemma ReferenceWindowBox()
    ensures OrthographicBox(WindowWidth, WindowHeight) == OrthoParams(-5.0, 5.0, -4.0, 4.0, 0.1, 100.0)
  {
  }

  /** The projection chosen for mode `m`, camera zoom `zoom` (vertical field
      of view in degrees) and a window of w by h pixels. */
  function SelectProjection(m: Mode, zoom: real, w: int, h: int): (p: Projection)
    requires w > 0 && h > 0
    ensures p.PerspectiveParams? <==> m == Perspective
    ensures m == Perspective ==>
      p.fovDegrees == zoom && p.aspect * h as real == w as real && p.near == NearPlane && p.far == FarPlane
    ensures m == Orthographic ==> p == OrthographicBox(w, h)
  {
    if m == Perspective then
      PerspectiveParams(zoom, w as real / h as real, 0.1, 100.0)
    else
      OrthographicBox(w, h)
  }

  /** What one frame of view preparation produces. */
  datatype Frame = Frame(state: ViewState, closeRequested: bool, projection: Projection, sink: Sink)

  /**
   * One frame: take the frame time from the clock reading `now`, poll the
   * keyboard, choose the projection for the resulting mode and pose, and
   * write view, projection and camera position when a shader is present.
   */
  function PrepareSceneView(s: ViewState, ops: CameraOps, keys: set<Key>, now: real,
                            w: int, h: int, sink: Sink): (r: Frame)
    requires w > 0 && h > 0
    ensures r.state.lastFrame == now
    ensures var polled := ProcessKeyboardEvents(s, ops, keys, now - s.lastFrame);
      && r.state == polled.state.(lastFrame := now)
      && r.closeRequested == polled.closeRequested
    ensures r.projection == SelectProjection(r.state.mode, r.state.camera.pose.zoom, w, h)
    ensures sink.NoShader? ==> r.sink == sink
    ensures sink.Shader? ==>
      && r.sink.Shader?
      && AgreeOutside(sink.uniforms, r.sink.uniforms, {ViewName, ProjectionName, ViewPositionName})
      && ViewName in r.sink.uniforms
      && r.sink.uniforms[ViewName] ==
         ViewMatrix(r.state.camera.pose.position, r.state.camera.pose.front, r.state.camera.pose.up)
      && ProjectionName in r.sink.uniforms
      && r.sink.uniforms[ProjectionName] == ProjectionMatrix(r.projection)
      && ViewPositionName in r.sink.uniforms
      && r.sink.uniforms[ViewPositionName] == Vec3Value(r.state.camera.pose.position)
  {
    var dt := now - s.lastFrame;
    var polled := ProcessKeyboardEvents(s.(lastFrame := now), ops, keys, dt);
    var st := polled.state;
    var pose := st.camera.pose;
    var view := ViewMatrix(pose.position, pose.front, pose.up);
    var projection := SelectProjection(st.mode, pose.zoom, w, h);
    var out :=
      if sink.Shader? then
        Shader(Write(Write(Write(sink.uniforms, ViewName, view),
                           ProjectionName, ProjectionMatrix(projection)),
                     ViewPositionName, Vec3Value(pose.position)))
      else sink;
    Frame(st, polled.closeRequested, projection, out)
  }

  /** A mode key takes effect in the frame it is polled: holding O (and not
      P) yields this frame's orthographic box for the window. */
  lemma ModeKeyTakesEffectSameFrame(s: ViewState, ops: CameraOps, keys: set<Key>, now: real,
                                     w: int, h: int, sink: Sink)
    requires w > 0 && h > 0
    ensures KeyO in keys && KeyP !in keys ==>
      PrepareSceneView(s, ops, keys, now, w, h, sink).projection == OrthographicBox(w, h)
    ensures KeyP in keys ==>
      PrepareSceneView(s, ops, keys, now, w, h, sink).projection ==
        PerspectiveParams(80.0, w as real / h as real, NearPlane, FarPlane)
  {
  }
}

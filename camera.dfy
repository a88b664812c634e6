/** The orbital camera: the process-wide zoom distance, yaw and pitch, the last
    cursor sample and two flags, updated by the scroll, mouse-button and
    cursor-position callbacks the program registers with GLFW. */
module OrbitCamera {

  const ScreenWidth: nat := 800
  const ScreenHeight: nat := 600

  /** Zoom limits and the distance one scroll notch moves the camera. */
  const MinDistance: real := 1.0
  const MaxDistance: real := 20.0
  const ZoomStep: real := 0.5

  /** Pitch is kept within `[-MaxPitch, MaxPitch]` degrees. */
  const MaxPitch: real := 89.0

  /** Degrees of yaw or pitch per pixel of cursor motion. */
  const Sensitivity: real := 0.1

  /** GLFW's `GLFW_MOUSE_BUTTON_LEFT`, `GLFW_RELEASE` and `GLFW_PRESS`. */
  const MouseButtonLeft: int := 0
  const ActionRelease: int := 0
  const ActionPress: int := 1

  /** The seven globals, as one value. */
  datatype CameraState = CameraState(
    cameraDistance: real,
    yaw: real,
    pitch: real,
    lastX: real,
    lastY: real,
    firstMouse: bool,
    mousePressed: bool)

  /** `x` limited to `[lo, hi]`: the reference the callbacks' two `if`s are proved equal to. */
  function Clamp(x: real, lo: real, hi: real): (r: real)
    requires lo <= hi
    ensures lo <= r <= hi
    ensures lo <= x <= hi ==> r == x
    ensures x < lo ==> r == lo
    ensures hi < x ==> r == hi
  {
    if x < lo then lo else if hi < x then hi else x
  }

  /** Zoom distance and pitch within their limits. */
  predicate WithinLimits(s: CameraState)
  {
    MinDistance <= s.cameraDistance <= MaxDistance && -MaxPitch <= s.pitch <= MaxPitch
  }

  /** The globals' initial values: distance 20, yaw -90, pitch 0, the baseline at the
      centre of the 800 x 600 window, waiting for a first sample, button up. */
  function Initial(): (s: CameraState)
    ensures WithinLimits(s)
    ensures s.cameraDistance == MaxDistance && s.pitch == 0.0
    ensures s.firstMouse && !s.mousePressed
  {
    CameraState(20.0, -90.0, 0.0, ScreenWidth as real / 2.0, ScreenHeight as real / 2.0, true, false)
  }

  // ---------------------------------------------------------------------------
  // The three callbacks, on values
  // ---------------------------------------------------------------------------

  /** `scroll_callback`: move by `yoffset` notches, then clamp; only the distance changes. */
  function Scrolled(s: CameraState, yoffset: real): (r: CameraState)
    ensures r == s.(cameraDistance := r.cameraDistance)
    ensures r.cameraDistance == Clamp(s.cameraDistance - yoffset * ZoomStep, MinDistance, MaxDistance)
    ensures MinDistance <= r.cameraDistance <= MaxDistance
  {
    var d := s.cameraDistance - yoffset * ZoomStep;
    var d := if d < MinDistance then MinDistance else d;
    var d := if d > MaxDistance then MaxDistance else d;
    s.(cameraDistance := d)
  }

  /** `mouse_button_callback`: the left button's press and release set and clear
      `mousePressed`; any other button or action, and `mods`, change nothing. */
  function ButtonChanged(s: CameraState, button: int, action: int, mods: int): (r: CameraState)
    ensures r == s.(mousePressed := r.mousePressed)
    ensures button == MouseButtonLeft && action == ActionPress ==> r.mousePressed
    ensures button == MouseButtonLeft && action == ActionRelease ==> !r.mousePressed
    ensures button != MouseButtonLeft || (action != ActionPress && action != ActionRelease) ==> r == s
  {
    if button == MouseButtonLeft then
      if action == ActionPress then s.(mousePressed := true)
      else if action == ActionRelease then s.(mousePressed := false)
      else s
    else s
  }

  /** `cursor_position_callback`. With the button up it only re-arms the first-sample
      flag. With the button down the sample becomes the new baseline; the motion from
      the old baseline (none, for a first sample) turns yaw and pitch, and pitch is
      clamped. */
  function CursorMoved(s: CameraState, xpos: real, ypos: real): (r: CameraState)
    ensures !s.mousePressed ==> r == s.(firstMouse := true)
    ensures s.mousePressed ==>
      r.mousePressed && !r.firstMouse && r.lastX == xpos && r.lastY == ypos
      && r.cameraDistance == s.cameraDistance
    ensures s.mousePressed && s.firstMouse ==>
      r.yaw == s.yaw && r.pitch == Clamp(s.pitch, -MaxPitch, MaxPitch)
    ensures s.mousePressed && !s.firstMouse ==>
      r.yaw == s.yaw + Sensitivity * (xpos - s.lastX)
      && r.pitch == Clamp(s.pitch + Sensitivity * (s.lastY - ypos), -MaxPitch, MaxPitch)
    ensures s.mousePressed ==> -MaxPitch <= r.pitch <= MaxPitch
  {
    if !s.mousePressed then s.(firstMouse := true)
    else
      var lastX := if s.firstMouse then xpos else s.lastX;
      var lastY := if s.firstMouse then ypos else s.lastY;
      var xoffset := (xpos - lastX) * Sensitivity;
      var yoffset := (lastY - ypos) * Sensitivity;
      var yaw := s.yaw + xoffset;
      var pitch := s.pitch + yoffset;
      var pitch := if pitch > MaxPitch then MaxPitch else pitch;
      var pitch := if pitch < -MaxPitch then -MaxPitch else pitch;
      s.(yaw := yaw, pitch := pitch, lastX := xpos, lastY := ypos, firstMouse := false)
  }

  // ---------------------------------------------------------------------------
  // Event dispatch
  // ---------------------------------------------------------------------------

  /** The input events GLFW delivers to the three registered callbacks. */
  datatype Event =
    | Scroll(xoffset: real, yoffset: real)
    | MouseButton(button: int, action: int, mods: int)
    | CursorPos(xpos: real, ypos: real)

  /** One event, handed to its callback. */
  function Step(s: CameraState, e: Event): (r: CameraState)
    ensures WithinLimits(s) ==> WithinLimits(r)
  {
    match e
    case Scroll(_, yoffset) => Scrolled(s, yoffset)
    case MouseButton(button, action, mods) => ButtonChanged(s, button, action, mods)
    case CursorPos(xpos, ypos) => CursorMoved(s, xpos, ypos)
  }

  /** The events in order, as the render loop's `glfwPollEvents` delivers them. Only
      scroll events move the camera in or out, and only cursor events turn it. */
  function Run(s: CameraState, es: seq<Event>): (r: CameraState)
    ensures (forall k :: 0 <= k < |es| ==> !es[k].Scroll?) ==> r.cameraDistance == s.cameraDistance
    ensures (forall k :: 0 <= k < |es| ==> !es[k].CursorPos?) ==> r.yaw == s.yaw && r.pitch == s.pitch
  {
    if es == [] then s else Step(Run(s, es[..|es| - 1]), es[|es| - 1])
  }

  /** Running one more event is one more step. */
  lemma RunSnoc(s: CameraState, es: seq<Event>, e: Event)
    ensures Run(s, es + [e]) == Step(Run(s, es), e)
  {
    assert (es + [e])[..|es|] == es;
  }

  /** `n` identical scroll events. */
  function ScrollRepeat(s: CameraState, yoffset: real, n: nat): CameraState
  {
    if n == 0 then s else Scrolled(ScrollRepeat(s, yoffset, n - 1), yoffset)
  }

  // ---------------------------------------------------------------------------
  // Properties
  // ---------------------------------------------------------------------------

  /** Starting within the limits, no sequence of events leaves them. */
  lemma {:induction false} RunPreservesLimits(s: CameraState, es: seq<Event>)
    requires WithinLimits(s)
    ensures WithinLimits(Run(s, es))
  {
    if es != [] {
      RunPreservesLimits(s, es[..|es| - 1]);
    }
  }

  /** From the initial state, every reachable camera is within the limits. */
  lemma ReachableWithinLimits(es: seq<Event>)
    ensures WithinLimits(Run(Initial(), es))
  {
    RunPreservesLimits(Initial(), es);
  }

  /** How far `n` scroll events of `yoffset` notches each move the camera, before clamping. */
  function Travel(n: nat, yoffset: real): real
  {
    (n as real) * (yoffset * ZoomStep)
  }

  /** Scrolling `n` times by the same `yoffset` from within the limits moves the distance
      by `n` steps and stops it at the bound it runs into; nothing else changes. */
  lemma {:induction false} ScrollRepeatDistance(s: CameraState, yoffset: real, n: nat)
    requires MinDistance <= s.cameraDistance <= MaxDistance
    ensures ScrollRepeat(s, yoffset, n)
      == s.(cameraDistance := Clamp(s.cameraDistance - Travel(n, yoffset), MinDistance, MaxDistance))
  {
    if n > 0 {
      ScrollRepeatDistance(s, yoffset, n - 1);
      TravelStep(n, yoffset);
      ClampStep(s.cameraDistance, Travel(n - 1, yoffset), yoffset * ZoomStep);
    }
  }

  /** One more event travels one more step, in the same direction. */
  lemma TravelStep(n: nat, yoffset: real)
    requires n > 0
    ensures Travel(n, yoffset) == Travel(n - 1, yoffset) + yoffset * ZoomStep
    ensures yoffset >= 0.0 ==> Travel(n, yoffset) >= 0.0 && Travel(n - 1, yoffset) >= 0.0
    ensures yoffset <= 0.0 ==> Travel(n, yoffset) <= 0.0 && Travel(n - 1, yoffset) <= 0.0
  {
  }

  /** Clamping after each of two moves in the same direction equals clamping once
      after both, from a distance within the limits. */
  lemma ClampStep(d: real, before: real, step: real)
    requires MinDistance <= d <= MaxDistance
    requires step >= 0.0 ==> before >= 0.0
    requires step <= 0.0 ==> before <= 0.0
    ensures Clamp(Clamp(d - before, MinDistance, MaxDistance) - step, MinDistance, MaxDistance)
         == Clamp(d - (before + step), MinDistance, MaxDistance)
  {
  }

  /** At the near bound, scrolling further in leaves the camera where it is. */
  lemma ScrollPinnedAtNear(s: CameraState, yoffset: real, n: nat)
    requires s.cameraDistance == MinDistance && yoffset >= 0.0
    ensures ScrollRepeat(s, yoffset, n) == s
  {
    ScrollRepeatDistance(s, yoffset, n);
    if n > 0 {
      TravelStep(n, yoffset);
    }
  }

  /** At the far bound, scrolling further out leaves the camera where it is. */
  lemma ScrollPinnedAtFar(s: CameraState, yoffset: real, n: nat)
    requires s.cameraDistance == MaxDistance && yoffset <= 0.0
    ensures ScrollRepeat(s, yoffset, n) == s
  {
    ScrollRepeatDistance(s, yoffset, n);
    if n > 0 {
      TravelStep(n, yoffset);
    }
  }

  /** A scroll that hits neither bound is undone by the opposite scroll. */
  lemma ScrollReversible(s: CameraState, yoffset: real)
    requires MinDistance <= s.cameraDistance - yoffset * ZoomStep <= MaxDistance
    requires MinDistance <= s.cameraDistance <= MaxDistance
    ensures Scrolled(Scrolled(s, yoffset), -yoffset) == s
  {
  }

  /** The first sample after the button goes down only sets the baseline: yaw and,
      within the limits, pitch stay put. */
  lemma FirstSampleIsBaseline(s: CameraState, xpos: real, ypos: real)
    requires s.mousePressed && s.firstMouse && WithinLimits(s)
    ensures var r := CursorMoved(s, xpos, ypos);
      r == s.(lastX := xpos, lastY := ypos, firstMouse := false)
  {
  }

  /** All events are cursor samples. */
  predicate AllMoves(es: seq<Event>)
  {
    forall k :: 0 <= k < |es| ==> es[k].CursorPos?
  }

  /** While the button stays down, yaw follows the cursor: after any run of samples it
      has turned by `Sensitivity` times the horizontal distance from the baseline to
      the last sample, however the motion was split up. */
  lemma {:induction false} DragYawAccumulates(s: CameraState, es: seq<Event>)
    requires s.mousePressed && !s.firstMouse
    requires AllMoves(es) && es != []
    ensures var r := Run(s, es);
      r.mousePressed && !r.firstMouse && r.lastX == es[|es| - 1].xpos
      && r.yaw == s.yaw + Sensitivity * (es[|es| - 1].xpos - s.lastX)
  {
    var init := es[..|es| - 1];
    assert AllMoves(init) by {
      forall k | 0 <= k < |init| ensures init[k].CursorPos? {
        assert init[k] == es[k];
      }
    }
    if init != [] {
      DragYawAccumulates(s, init);
      assert init[|init| - 1] == es[|es| - 2];
    }
  }

  /** A release, a move with the button up, a press and a move: the re-arm on the
      released move makes the pressed move a fresh baseline, so yaw does not jump. */
  lemma FreshBaselineAfterReleasedMove(s: CameraState, releasedX: real, releasedY: real, x: real, y: real)
    requires WithinLimits(s)
    ensures var r := Run(s, [MouseButton(MouseButtonLeft, ActionRelease, 0), CursorPos(releasedX, releasedY),
                             MouseButton(MouseButtonLeft, ActionPress, 0), CursorPos(x, y)]);
      r.yaw == s.yaw && r.pitch == s.pitch && r.lastX == x && r.lastY == y
  {
    var release, press := MouseButton(MouseButtonLeft, ActionRelease, 0), MouseButton(MouseButtonLeft, ActionPress, 0);
    var es1 := [release];
    var es2 := es1 + [CursorPos(releasedX, releasedY)];
    var es3 := es2 + [press];
    var es4 := es3 + [CursorPos(x, y)];
    assert es1[..0] == [];
    RunSnoc(s, es1, CursorPos(releasedX, releasedY));
    RunSnoc(s, es2, press);
    RunSnoc(s, es3, CursorPos(x, y));
    var s3 := Run(s, es3);
    assert s3 == s.(firstMouse := true, mousePressed := true);
    assert es4 == [release, CursorPos(releasedX, releasedY), press, CursorPos(x, y)];
  }

  /** Releasing does not itself re-arm the first-sample flag: a release followed by a
      press with no cursor event in between keeps the old baseline, so the next sample
      turns the camera by the whole distance from where the previous drag ended. */
  lemma StaleBaselineWithoutMove(s: CameraState, x: real, y: real)
    requires s.mousePressed && !s.firstMouse
    ensures var r := Run(s, [MouseButton(MouseButtonLeft, ActionRelease, 0),
                             MouseButton(MouseButtonLeft, ActionPress, 0), CursorPos(x, y)]);
      r.yaw == s.yaw + Sensitivity * (x - s.lastX)
  {
    var release, press := MouseButton(MouseButtonLeft, ActionRelease, 0), MouseButton(MouseButtonLeft, ActionPress, 0);
    var es1 := [release];
    var es2 := es1 + [press];
    var es3 := es2 + [CursorPos(x, y)];
    assert es1[..0] == [];
    RunSnoc(s, es1, press);
    RunSnoc(s, es2, CursorPos(x, y));
    assert Run(s, es2) == s;
    assert es3 == [release, press, CursorPos(x, y)];
  }

  // ---------------------------------------------------------------------------
  // The globals and the callbacks, as the program holds them
  // ---------------------------------------------------------------------------

  class Camera {
    var cameraDistance: real
    var yaw: real
    var pitch: real
    var lastX: real
    var lastY: real
    var firstMouse: bool
    var mousePressed: bool

    /** The fields as one value. */
    function State(): CameraState
      reads this
    {
      CameraState(cameraDistance, yaw, pitch, lastX, lastY, firstMouse, mousePressed)
    }

    /** The globals' static initialisers. */
    constructor ()
      ensures State() == Initial()
      ensures WithinLimits(State())
    {
      cameraDistance := 20.0;
      yaw := -90.0;
      pitch := 0.0;
      lastX := ScreenWidth as real / 2.0;
      lastY := ScreenHeight as real / 2.0;
      firstMouse := true;
      mousePressed := false;
    }

    /** `scroll_callback(window, xoffset, yoffset)`. */
    method ScrollCallback(xoffset: real, yoffset: real)
      modifies this
      ensures State() == Scrolled(old(State()), yoffset)
      ensures MinDistance <= cameraDistance <= MaxDistance
    {
      cameraDistance := cameraDistance - yoffset * ZoomStep;
      if cameraDistance < MinDistance {
        cameraDistance := MinDistance;
      }
      if cameraDistance > MaxDistance {
        cameraDistance := MaxDistance;
      }
    }

    /** `mouse_button_callback(window, button, action, mods)`. */
    method MouseButtonCallback(button: int, action: int, mods: int)
      modifies this
      ensures State() == ButtonChanged(old(State()), button, action, mods)
    {
      if button == MouseButtonLeft {
        if action == ActionPress {
          mousePressed := true;
        } else if action == ActionRelease {
          mousePressed := false;
        }
      }
    }

    /** `cursor_position_callback(window, xpos, ypos)`. */
    method CursorPositionCallback(xpos: real, ypos: real)
      modifies this
      ensures State() == CursorMoved(old(State()), xpos, ypos)
      ensures old(WithinLimits(State())) ==> WithinLimits(State())
    {
      if !mousePressed {
        firstMouse := true;
        return;
      }

      if firstMouse {
        lastX := xpos;
        lastY := ypos;
        firstMouse := false;
      }

      var xoffset := xpos - lastX;
      var yoffset := lastY - ypos;
      lastX := xpos;
      lastY := ypos;

      xoffset := xoffset * Sensitivity;
      yoffset := yoffset * Sensitivity;

      yaw := yaw + xoffset;
      pitch := pitch + yoffset;

      if pitch > MaxPitch {
        pitch := MaxPitch;
      }
      if pitch < -MaxPitch {
        pitch := -MaxPitch;
      }
    }
  }
}

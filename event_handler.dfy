/**
 * The window-event handler that drives the camera: `EventHandler::handle_event`
 * in src/event_handler/mod.rs.
 *
 * The pure part (`Camera`, `ApplyKey`, `Clamp`, `Handle`, `Run`) states what one
 * event does to the camera; the class `EventHandler` owns the eight mutable
 * fields and updates them in place, and its `HandleEvent` is proved to do what
 * `Handle` says.
 */
module EventHandlers {
  import opened Vectors

  datatype Option<T> = None | Some(value: T)

  /** The virtual key codes the handler reacts to; every other key is `OtherKey`. */
  datatype Key =
    | W | A | S | D | J | K
    | Right | Left | Up | Down
    | Numpad8 | Numpad2 | Numpad4 | Numpad6 | Numpad5
    | NumpadSubtract | NumpadAdd
    | F1 | F2 | F3 | F4 | F5 | F6
    | OtherKey(code: nat)

  datatype ElementState = Pressed | Released

  datatype WindowEvent =
    | KeyboardInput(state: ElementState, virtualKeycode: Option<Key>)
    | CloseRequested
    | OtherWindowEvent

  /** Why the event loop woke up; the handler names two causes and returns early on the rest. */
  datatype StartCause = ResumeTimeReached | Init | OtherCause

  datatype Event =
    | Window(event: WindowEvent)
    | NewEvents(cause: StartCause)
    | OtherEvent

  /** The event loop's control flow; the instant of `WaitUntil` is an opaque clock reading. */
  datatype ControlFlow = Poll | Wait | WaitUntil(instant: int) | Exit

  /** A snapshot of the handler's eight fields. */
  datatype Camera = Camera(
    grow: real,
    tilt: real,
    spin: real,
    translateX: real,
    translateY: real,
    direction: Vec3,
    position: Vec3,
    up: Vec3)

  /** The fixed increment every key applies (`STEP` in the source). */
  const STEP: real := 0.05

  /** `EventHandler::default()`: facing +z from the origin with +y up. */
  function DefaultCamera(): Camera {
    Camera(1.0, 0.0, 0.0, 0.0, 0.0, Vec3(0.0, 0.0, 1.0), Vec3(0.0, 0.0, 0.0), Vec3(0.0, 1.0, 0.0))
  }

  datatype Axis = X | Y | Z

  /** The kind of update one row of the key table makes. */
  datatype Effect =
    | MoveAlongDirection(forward: bool)       // position +/-= STEP * direction
    | MoveAlongCross(forward: bool)           // position +/-= STEP * Cross(direction, up)
    | NudgeDirection(axis: Axis, delta: real) // one component of direction
    | NudgePosition(axis: Axis, delta: real)  // one component of position
    | NudgeSpin(delta: real)
    | NudgeTranslateX(delta: real)
    | NoEffect

  /** The key table of `handle_event`. */
  function KeyEffect(k: Key): (e: Effect)
    ensures e == NoEffect <==> k.OtherKey?
  {
    match k
    case W => MoveAlongDirection(true)
    case A => MoveAlongCross(true)
    case S => MoveAlongDirection(false)
    case D => MoveAlongCross(false)
    case J => NudgeSpin(STEP)
    case K => NudgeSpin(-STEP)
    case Right => NudgeDirection(X, STEP)
    case Left => NudgeDirection(X, -STEP)
    case Up => NudgeDirection(Y, STEP)
    case Down => NudgeDirection(Y, -STEP)
    case Numpad8 => NudgePosition(Y, -STEP)
    case Numpad2 => NudgePosition(Y, STEP)
    case Numpad4 => NudgePosition(X, STEP)
    case Numpad6 => NudgePosition(X, -STEP)
    case Numpad5 => NudgePosition(Z, STEP)
    case NumpadSubtract => NudgeTranslateX(-STEP)
    case NumpadAdd => NudgeTranslateX(STEP)
    case F1 => NudgeDirection(X, -STEP)
    case F2 => NudgeDirection(X, STEP)
    case F3 => NudgeDirection(Y, -STEP)
    case F4 => NudgeDirection(Y, STEP)
    case F5 => NudgeDirection(Z, STEP)
    case F6 => NudgeDirection(Z, -STEP)
    case OtherKey(_) => NoEffect
  }

  /** The one field an effect writes. */
  datatype Field = PositionField | DirectionField | SpinField | TranslateXField | NoField

  function Writes(e: Effect): Field {
    match e
    case MoveAlongDirection(_) | MoveAlongCross(_) | NudgePosition(_, _) => PositionField
    case NudgeDirection(_, _) => DirectionField
    case NudgeSpin(_) => SpinField
    case NudgeTranslateX(_) => TranslateXField
    case NoEffect => NoField
  }

  /** `r` agrees with `c` on every field except possibly `f`. */
  predicate SameExcept(c: Camera, r: Camera, f: Field) {
    && r.grow == c.grow && r.tilt == c.tilt && r.up == c.up && r.translateY == c.translateY
    && (f != PositionField ==> r.position == c.position)
    && (f != DirectionField ==> r.direction == c.direction)
    && (f != SpinField ==> r.spin == c.spin)
    && (f != TranslateXField ==> r.translateX == c.translateX)
  }

  /** `v` with `delta` added to the component `axis`. */
  function Nudge(v: Vec3, axis: Axis, delta: real): (r: Vec3)
    ensures Sub(r, v) == match axis
      case X => Vec3(delta, 0.0, 0.0)
      case Y => Vec3(0.0, delta, 0.0)
      case Z => Vec3(0.0, 0.0, delta)
  {
    match axis
    case X => v.(x := v.x + delta)
    case Y => v.(y := v.y + delta)
    case Z => v.(z := v.z + delta)
  }

  function ApplyEffect(c: Camera, e: Effect): (r: Camera)
    ensures SameExcept(c, r, Writes(e))
    ensures e == NoEffect ==> r == c
  {
    match e
    case MoveAlongDirection(fwd) =>
      var v := Scale(c.direction, STEP);
      c.(position := if fwd then Add(c.position, v) else Sub(c.position, v))
    case MoveAlongCross(fwd) =>
      var v := Scale(Cross(c.direction, c.up), STEP);
      c.(position := if fwd then Add(c.position, v) else Sub(c.position, v))
    case NudgeDirection(axis, delta) => c.(direction := Nudge(c.direction, axis, delta))
    case NudgePosition(axis, delta) => c.(position := Nudge(c.position, axis, delta))
    case NudgeSpin(delta) => c.(spin := c.spin + delta)
    case NudgeTranslateX(delta) => c.(translateX := c.translateX + delta)
    case NoEffect => c
  }

  /**
   * What a key does to the camera: W/S move `position` along `direction`, A/D
   * along `Cross(direction, up)`, the arrows and F1-F6 nudge one component of
   * `direction`, the numpad digits one component of `position`, J/K change
   * `spin` and the numpad +/- change `translateX`; any other key does nothing.
   */
  function ApplyKey(c: Camera, k: Key): (r: Camera)
    ensures SameExcept(c, r, Writes(KeyEffect(k)))
    ensures k.OtherKey? ==> r == c
  {
    ApplyEffect(c, KeyEffect(k))
  }

  /** The range the clamp establishes: `grow` is 0.01 or in [0.02, 1], `tilt` in [-1, 1]. */
  predicate InRange(c: Camera) {
    (c.grow == 0.01 || 0.02 <= c.grow <= 1.0) && -1.0 <= c.tilt <= 1.0
  }

  /** The `grow` clamp: below 0.02 snaps to 0.01, above 1 becomes 1. */
  function ClampGrow(g: real): (r: real)
    ensures r == 0.01 || 0.02 <= r <= 1.0
    ensures 0.02 <= g <= 1.0 ==> r == g
    ensures g < 0.02 ==> r == 0.01
    ensures g > 1.0 ==> r == 1.0
  {
    if g < 0.02 then 0.01 else if g > 1.0 then 1.0 else g
  }

  /** The `tilt` clamp to [-1, 1]. */
  function ClampTilt(t: real): (r: real)
    ensures -1.0 <= r <= 1.0
    ensures -1.0 <= t <= 1.0 ==> r == t
    ensures t > 1.0 ==> r == 1.0
    ensures t < -1.0 ==> r == -1.0
  {
    if t > 1.0 then 1.0 else if t < -1.0 then -1.0 else t
  }

  /** The clamp run after every keyboard event that carries a key code. */
  function Clamp(c: Camera): (r: Camera)
    ensures InRange(r)
    ensures InRange(c) ==> r == c
    ensures r.(grow := c.grow, tilt := c.tilt) == c
  {
    c.(grow := ClampGrow(c.grow), tilt := ClampTilt(c.tilt))
  }

  /**
   * One call of `handle_event`: the new camera and the new control flow.
   * The key state is not consulted, because the source's `if let state =
   * ElementState::Pressed` binds a fresh name and always succeeds.
   */
  function Handle(c: Camera, ev: Event, cf: ControlFlow): (Camera, ControlFlow) {
    match ev
    case Window(KeyboardInput(_, None)) => (c, cf)
    case Window(KeyboardInput(_, Some(k))) => (Clamp(ApplyKey(c, k)), cf)
    case Window(CloseRequested) => (c, Exit)
    case Window(OtherWindowEvent) => (c, cf)
    case NewEvents(_) => (c, cf)
    case OtherEvent => (c, cf)
  }

  /** The camera after handing `evs` to the handler in order. */
  function Run(c: Camera, evs: seq<Event>, cf: ControlFlow): (Camera, ControlFlow)
    decreases |evs|
  {
    if evs == [] then (c, cf)
    else
      var (c', cf') := Handle(c, evs[0], cf);
      Run(c', evs[1..], cf')
  }

  predicate IsKeyEvent(ev: Event) {
    ev.Window? && ev.event.KeyboardInput? && ev.event.virtualKeycode.Some?
  }

  // ---------------------------------------------------------------------------
  // Properties of one event

  /** After any keyboard event with a key code, `grow` and `tilt` are in range, whatever they were. */
  lemma KeyEventClamps(c: Camera, st: ElementState, k: Key, cf: ControlFlow)
    ensures var (r, cf') := Handle(c, Window(KeyboardInput(st, Some(k))), cf);
      InRange(r) && 0.01 <= r.grow <= 1.0 && cf' == cf
  {
  }

  /** The clamp is idempotent. */
  lemma ClampIdempotent(c: Camera)
    ensures Clamp(Clamp(c)) == Clamp(c)
  {
  }

  /** A keyboard event without a key code changes nothing, not even through the clamp. */
  lemma NoKeycodeChangesNothing(c: Camera, st: ElementState, cf: ControlFlow)
    ensures Handle(c, Window(KeyboardInput(st, None)), cf) == (c, cf)
  {
  }

  /** Releasing a key has exactly the effect of pressing it. */
  lemma ReleaseActsLikePress(c: Camera, k: Option<Key>, cf: ControlFlow)
    ensures Handle(c, Window(KeyboardInput(Released, k)), cf)
         == Handle(c, Window(KeyboardInput(Pressed, k)), cf)
  {
  }

  /** Close-requested sets `Exit` and nothing else; other window events and new-events change nothing. */
  lemma NonKeyEvents(c: Camera, cause: StartCause, cf: ControlFlow)
    ensures Handle(c, Window(CloseRequested), cf) == (c, Exit)
    ensures Handle(c, Window(OtherWindowEvent), cf) == (c, cf)
    ensures Handle(c, NewEvents(cause), cf) == (c, cf)
    ensures Handle(c, OtherEvent, cf) == (c, cf)
  {
  }

  /** An unmatched key changes the camera only through the clamp. */
  lemma UnmatchedKeyOnlyClamps(c: Camera, st: ElementState, code: nat, cf: ControlFlow)
    ensures Handle(c, Window(KeyboardInput(st, Some(OtherKey(code)))), cf) == (Clamp(c), cf)
  {
  }

  /** A keyboard event writes at most the field its key names, besides the clamp on `grow` and `tilt`. */
  lemma KeyEventWritesOneField(c: Camera, st: ElementState, k: Key, cf: ControlFlow)
    ensures var r := Handle(c, Window(KeyboardInput(st, Some(k))), cf).0;
      SameExcept(Clamp(c), r, Writes(KeyEffect(k)))
  {
  }

  /** W followed by S restores the camera exactly (up to the clamp); so does S followed by W. */
  lemma ForwardBackCancel(c: Camera)
    ensures ApplyKey(ApplyKey(c, W), S) == c
    ensures ApplyKey(ApplyKey(c, S), W) == c
  {
    var v := Scale(c.direction, STEP);
    AddSubCancel(c.position, v);
  }

  /** A followed by D restores the camera exactly, since `direction` and `up` are unchanged by A. */
  lemma StrafeCancel(c: Camera)
    ensures ApplyKey(ApplyKey(c, A), D) == c
    ensures ApplyKey(ApplyKey(c, D), A) == c
  {
    var v := Scale(Cross(c.direction, c.up), STEP);
    AddSubCancel(c.position, v);
  }

  lemma AddSubCancel(p: Vec3, v: Vec3)
    ensures Sub(Add(p, v), v) == p && Add(Sub(p, v), v) == p
  {
  }

  /** A moves `position` by `STEP * Cross(direction, up)`, a step orthogonal to both `direction` and `up`. */
  lemma StrafeIsOrthogonal(c: Camera)
    ensures var step := Sub(ApplyKey(c, A).position, c.position);
      step == Scale(Cross(c.direction, c.up), STEP) &&
      Dot(step, c.direction) == 0.0 && Dot(step, c.up) == 0.0
  {
    var cr := Cross(c.direction, c.up);
    CrossOrthogonal(c.direction, c.up);
    assert Dot(Scale(cr, STEP), c.direction) == STEP * Dot(cr, c.direction);
    assert Dot(Scale(cr, STEP), c.up) == STEP * Dot(cr, c.up);
  }

  lemma StrafeStep(c: Camera)
    ensures ApplyKey(c, A).position == Add(c.position, Scale(Cross(c.direction, c.up), STEP))
  {
  }

  /** From the default eye and basis (at the origin, facing +z, +y up), A moves the eye to (-0.05, 0, 0), i.e. to the left. */
  lemma DefaultStrafeStep(c: Camera)
    requires c.position == Vec3(0.0, 0.0, 0.0)
    requires c.direction == Vec3(0.0, 0.0, 1.0) && c.up == Vec3(0.0, 1.0, 0.0)
    ensures ApplyKey(c, A).position == Vec3(-0.05, 0.0, 0.0)
  {
    StrafeStep(c);
    CrossOfDefaultBasis(c.direction, c.up);
  }

  /** The same as a whole event, pressed or released. */
  lemma DefaultStrafeLeft(c: Camera, st: ElementState, cf: ControlFlow)
    requires c.position == Vec3(0.0, 0.0, 0.0)
    requires c.direction == Vec3(0.0, 0.0, 1.0) && c.up == Vec3(0.0, 1.0, 0.0)
    ensures Handle(c, Window(KeyboardInput(st, Some(A))), cf).0.position == Vec3(-0.05, 0.0, 0.0)
  {
    DefaultStrafeStep(c);
  }

  /** W then S as two whole events gives back the clamped starting camera. */
  lemma ForwardBackEvents(c: Camera, st1: ElementState, st2: ElementState, cf: ControlFlow)
    ensures Run(c, [Window(KeyboardInput(st1, Some(W))), Window(KeyboardInput(st2, Some(S)))], cf)
         == (Clamp(c), cf)
  {
    var evs := [Window(KeyboardInput(st1, Some(W))), Window(KeyboardInput(st2, Some(S)))];
    var c1 := Clamp(ApplyKey(c, W));
    assert Run(c, evs, cf) == Run(c1, evs[1..], cf);
    var c2 := Clamp(ApplyKey(c1, S));
    assert Run(c1, evs[1..], cf) == Run(c2, [], cf);
    assert ApplyKey(c1, S) == ApplyKey(ApplyKey(c, W), S).(grow := c1.grow, tilt := c1.tilt);
    ForwardBackCancel(c);
    ClampIdempotent(c);
  }

  // ---------------------------------------------------------------------------
  // Properties of event sequences

  /** No event writes `up` or `translateY`, and only `Exit` can be written to the control flow. */
  lemma {:induction false} RunKeepsUp(c: Camera, evs: seq<Event>, cf: ControlFlow)
    ensures Run(c, evs, cf).0.up == c.up
    ensures Run(c, evs, cf).0.translateY == c.translateY
    ensures Run(c, evs, cf).1 == cf || Run(c, evs, cf).1 == Exit
    decreases |evs|
  {
    if evs != [] {
      var (c', cf') := Handle(c, evs[0], cf);
      RunKeepsUp(c', evs[1..], cf');
    }
  }

  /** Once `grow` and `tilt` are in range, no sequence of events takes them out of it. */
  lemma {:induction false} RunKeepsInRange(c: Camera, evs: seq<Event>, cf: ControlFlow)
    requires InRange(c)
    ensures InRange(Run(c, evs, cf).0)
    decreases |evs|
  {
    if evs != [] {
      var (c', cf') := Handle(c, evs[0], cf);
      assert InRange(c');
      RunKeepsInRange(c', evs[1..], cf');
    }
  }

  /** After any sequence containing a key event, `grow` and `tilt` are in range, from any start. */
  lemma {:induction false} RunClampsAfterKey(c: Camera, evs: seq<Event>, cf: ControlFlow, i: nat)
    requires i < |evs| && IsKeyEvent(evs[i])
    ensures InRange(Run(c, evs, cf).0)
    decreases |evs|
  {
    var (c', cf') := Handle(c, evs[0], cf);
    if i == 0 {
      RunKeepsInRange(c', evs[1..], cf');
    } else {
      RunClampsAfterKey(c', evs[1..], cf', i - 1);
    }
  }

  // ---------------------------------------------------------------------------
  // The stateful handler

  /** `EventHandler`: the camera and UI parameters, updated in place by `HandleEvent`. */
  class EventHandler {
    var grow: real
    var tilt: real
    var spin: real
    var translateX: real
    var translateY: real
    var direction: Vec3
    var position: Vec3
    var up: Vec3

    function State(): Camera
      reads this
    {
      Camera(grow, tilt, spin, translateX, translateY, direction, position, up)
    }

    /** `EventHandler::new`: stores its arguments unchanged (no clamp). */
    constructor (grow: real, tilt: real, spin: real, translateX: real, translateY: real,
                 direction: Vec3, position: Vec3, up: Vec3)
      ensures State() == Camera(grow, tilt, spin, translateX, translateY, direction, position, up)
    {
      this.grow := grow;
      this.tilt := tilt;
      this.spin := spin;
      this.translateX := translateX;
      this.translateY := translateY;
      this.direction := direction;
      this.position := position;
      this.up := up;
    }

    /** `EventHandler::default()`. */
    constructor Default()
      ensures State() == DefaultCamera() && InRange(State())
    {
      grow, tilt, spin := 1.0, 0.0, 0.0;
      translateX, translateY := 0.0, 0.0;
      direction := Vec3(0.0, 0.0, 1.0);
      position := Vec3(0.0, 0.0, 0.0);
      up := Vec3(0.0, 1.0, 0.0);
    }

    /** The key-table `match` of `handle_event`: one field updated in place. */
    method ApplyKeyInPlace(code: Key)
      modifies this
      ensures State() == ApplyKey(old(State()), code)
    {
      var cross := Cross(direction, up);
      match code {
        case W => position := Vec3(position.x + direction.x * STEP, position.y + direction.y * STEP, position.z + direction.z * STEP);
        case A => position := Vec3(position.x + cross.x * STEP, position.y + cross.y * STEP, position.z + cross.z * STEP);
        case S => position := Vec3(position.x - direction.x * STEP, position.y - direction.y * STEP, position.z - direction.z * STEP);
        case D => position := Vec3(position.x - cross.x * STEP, position.y - cross.y * STEP, position.z - cross.z * STEP);
        case J => spin := spin + STEP;
        case K => spin := spin - STEP;
        case Right => direction := direction.(x := direction.x + STEP);
        case Left => direction := direction.(x := direction.x - STEP);
        case Up => direction := direction.(y := direction.y + STEP);
        case Down => direction := direction.(y := direction.y - STEP);
        case Numpad8 => position := position.(y := position.y - STEP);
        case Numpad2 => position := position.(y := position.y + STEP);
        case Numpad4 => position := position.(x := position.x + STEP);
        case Numpad6 => position := position.(x := position.x - STEP);
        case Numpad5 => position := position.(z := position.z + STEP);
        case NumpadSubtract => translateX := translateX - STEP;
        case NumpadAdd => translateX := translateX + STEP;
        case F1 => direction := direction.(x := direction.x - STEP);
        case F2 => direction := direction.(x := direction.x + STEP);
        case F3 => direction := direction.(y := direction.y - STEP);
        case F4 => direction := direction.(y := direction.y + STEP);
        case F5 => direction := direction.(z := direction.z + STEP);
        case F6 => direction := direction.(z := direction.z - STEP);
        case OtherKey(_) =>
      }
    }

    /** `handle_event`: the control flow `cf` is passed in and the updated one returned. */
    method HandleEvent(ev: Event, cf: ControlFlow) returns (cf': ControlFlow)
      modifies this
      ensures (State(), cf') == Handle(old(State()), ev, cf)
    {
      cf' := cf;
      match ev {
        case Window(event) =>
          match event {
            case KeyboardInput(state, virtualKeycode) =>
              if virtualKeycode.None? {
                return;
              }
              // The source's guard `if let state = Pressed` always matches, so the key applies on release too.
              ApplyKeyInPlace(virtualKeycode.value);

              if grow < 0.02 {
                grow := 0.01;
              } else if grow > 1.0 {
                grow := 1.0;
              }

              if tilt > 1.0 {
                tilt := 1.0;
              } else if tilt < -1.0 {
                tilt := -1.0;
              }
            case CloseRequested =>
              cf' := Exit;
              return;
            case OtherWindowEvent =>
              return;
          }
        case NewEvents(cause) =>
          match cause {
            case ResumeTimeReached =>
            case Init =>
            case OtherCause =>
              return;
          }
        case OtherEvent =>
          return;
      }
    }
  }
}

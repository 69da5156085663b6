/**
 * `CameraController` (src/render.rs): input events update a six-slot key
 * table and a zoom flag; once per frame `update` turns the key table into a
 * movement direction and a rotation, and sets the `frame_reset` latch so that
 * the next event clears the zoom flag.
 *
 * `Handled` and `Updated` give the controller's behaviour on values; the
 * class's methods, which update the fields in place as the program does, are
 * proved to agree with them.
 */
module Camera {
  import opened Wrappers

  datatype ElementState = Pressed | Released

  /** The virtual key codes the program tells apart; every other key is `OtherKey`. */
  datatype Key = W | A | S | D | Q | E | Escape | OtherKey

  /** Both kinds of scroll delta carry a vertical amount `dy`, which is all that is used. */
  datatype ScrollDelta = LineDelta(dx: real, dy: real) | PixelDelta(dx: real, dy: real)

  /** The window events the program looks at; the scan code of a key event is not used. */
  datatype Event =
    | KeyboardInput(state: ElementState, key: Option<Key>)
    | MouseWheel(delta: ScrollDelta)
    | Closed
    | OtherEvent

  /** `[ElementState; 6]`, the states of W, A, S, D, Q and E in that order. */
  type KeyStates = s: seq<ElementState> | |s| == 6
    witness [Released, Released, Released, Released, Released, Released]

  const ALL_RELEASED: KeyStates := [Released, Released, Released, Released, Released, Released]

  /** The slot of the key table a key writes, for the six keys that have one. */
  function Slot(k: Key): (r: Option<nat>)
    ensures r.Some? <==> k !in {Escape, OtherKey}
    ensures r.Some? ==> r.value < 6
  {
    match k
    case W => Some(0)
    case A => Some(1)
    case S => Some(2)
    case D => Some(3)
    case Q => Some(4)
    case E => Some(5)
    case _ => None
  }

  /** Distinct keys write distinct slots: each slot belongs to one key. */
  lemma SlotInjective(k: Key, k': Key)
    requires Slot(k).Some? && Slot(k) == Slot(k')
    ensures k == k'
  {
  }

  /** The six slots are all in use: each belongs to some key. */
  lemma SlotsCovered(i: nat)
    requires i < 6
    ensures exists k :: Slot(k) == Some(i)
  {
    var keys := [W, A, S, D, Q, E];
    assert Slot(keys[i]) == Some(i);
  }

  /** The state event `e` writes into slot `i`, if it writes one. */
  function KeyWrite(e: Event, i: nat): Option<ElementState> {
    if e.KeyboardInput? && e.key.Some? && Slot(e.key.value) == Some(i) then Some(e.state) else None
  }

  /** +1 for a wheel event scrolling up, -1 for one scrolling down, 0 otherwise. */
  function WheelSign(e: Event): int {
    if e.MouseWheel? && e.delta.dy > 0.0 then 1
    else if e.MouseWheel? && e.delta.dy < 0.0 then -1
    else 0
  }

  /** The controller's fields; `posDelta` is kept before normalisation. */
  datatype CamState = CamState(
    keys: KeyStates,
    posDelta: (int, int),
    rotDelta: int,
    zoomDelta: int,
    frameReset: bool)

  /** The controller as the program creates it. */
  const INITIAL: CamState := CamState(ALL_RELEASED, (0, 0), 0, 0, true)

  /**
   * `handle`: every event first clears the zoom flag if the latch is set, and
   * always leaves the latch clear; a W/A/S/D/Q/E key event writes its state
   * into that key's slot; a wheel event sets the zoom flag to the sign of its
   * vertical delta, leaving it as it was on a zero delta; nothing else changes.
   */
  function Handled(c: CamState, e: Event): (r: CamState)
    ensures !r.frameReset
    ensures r.posDelta == c.posDelta && r.rotDelta == c.rotDelta
    ensures forall i :: 0 <= i < 6 ==>
      r.keys[i] == match KeyWrite(e, i) case Some(s) => s case None => c.keys[i]
    ensures r.zoomDelta ==
      if WheelSign(e) != 0 then WheelSign(e) else if c.frameReset then 0 else c.zoomDelta
  {
    var cleared := if c.frameReset then c.(frameReset := false, zoomDelta := 0) else c;
    match e
    case KeyboardInput(s, Some(k)) =>
      (match Slot(k)
       case Some(i) => cleared.(keys := cleared.keys[i := s])
       case None => cleared)
    case MouseWheel(d) =>
      if d.dy > 0.0 then cleared.(zoomDelta := 1)
      else if d.dy < 0.0 then cleared.(zoomDelta := -1)
      else cleared
    case _ => cleared
  }

  function Held(s: ElementState): int {
    if s == Pressed then 1 else 0
  }

  /**
   * The unnormalised movement direction of `update`: W adds (0, 1), A adds
   * (-1, 0), S adds (0, -1) and D adds (1, 0) when pressed. Each axis is -1, 0
   * or 1, and is 0 exactly when both or neither of its opposite keys are held.
   */
  function Direction(keys: KeyStates): (d: (int, int))
    ensures -1 <= d.0 <= 1 && -1 <= d.1 <= 1
    ensures d.0 == 0 <==> (keys[1] == Pressed <==> keys[3] == Pressed)
    ensures d.0 == 1 <==> keys[3] == Pressed && keys[1] == Released
    ensures d.1 == 0 <==> (keys[0] == Pressed <==> keys[2] == Pressed)
    ensures d.1 == 1 <==> keys[0] == Pressed && keys[2] == Released
  {
    (Held(keys[3]) - Held(keys[1]), Held(keys[0]) - Held(keys[2]))
  }

  /** The rotation of `update`: Q adds 1 and E adds -1 when pressed. */
  function Rotation(keys: KeyStates): (r: int)
    ensures -1 <= r <= 1
    ensures r == 0 <==> (keys[4] == Pressed <==> keys[5] == Pressed)
    ensures r == 1 <==> keys[4] == Pressed && keys[5] == Released
  {
    Held(keys[4]) - Held(keys[5])
  }

  /**
   * `update`: the direction and rotation are recomputed from the key table,
   * the latch is set, and the key table and zoom flag are untouched.
   */
  function Updated(c: CamState): (r: CamState)
    ensures r.keys == c.keys && r.zoomDelta == c.zoomDelta && r.frameReset
    ensures r.posDelta == Direction(c.keys) && r.rotDelta == Rotation(c.keys)
  {
    c.(posDelta := Direction(c.keys), rotDelta := Rotation(c.keys), frameReset := true)
  }

  /** The controller after handling `events` in order. */
  function HandledAll(c: CamState, events: seq<Event>): (r: CamState)
    ensures events != [] ==> !r.frameReset
    ensures r.posDelta == c.posDelta && r.rotDelta == c.rotDelta
  {
    if events == [] then c else Handled(HandledAll(c, events[..|events| - 1]), events[|events| - 1])
  }

  /** The state written into slot `i` by the last event of `events` that writes one. */
  function LastKeyWrite(events: seq<Event>, i: nat): Option<ElementState> {
    if events == [] then None
    else match KeyWrite(events[|events| - 1], i)
      case Some(s) => Some(s)
      case None => LastKeyWrite(events[..|events| - 1], i)
  }

  /** The sign of the last wheel event of `events` with a non-zero delta. */
  function LastWheel(events: seq<Event>): Option<int> {
    if events == [] then None
    else if WheelSign(events[|events| - 1]) != 0 then Some(WheelSign(events[|events| - 1]))
    else LastWheel(events[..|events| - 1])
  }

  /** After a batch of events, each key slot holds the state of the last event for that key. */
  lemma {:induction false} LastKeyEventWins(c: CamState, events: seq<Event>, i: nat)
    requires i < 6
    ensures HandledAll(c, events).keys[i] ==
      match LastKeyWrite(events, i) case Some(s) => s case None => c.keys[i]
  {
    if events != [] {
      LastKeyEventWins(c, events[..|events| - 1], i);
    }
  }

  /**
   * The zoom flag lasts one frame: after `update` has set the latch, the
   * events of the next frame leave in it the sign of the last non-zero wheel
   * event, or 0 if there is none; with no events at all it keeps its value.
   */
  lemma {:induction false} ZoomIsPerFrame(c: CamState, events: seq<Event>)
    requires c.frameReset
    ensures HandledAll(c, events).zoomDelta ==
      match LastWheel(events)
      case Some(z) => z
      case None => if events == [] then c.zoomDelta else 0
    ensures events != [] ==> !HandledAll(c, events).frameReset
  {
    if events != [] {
      ZoomIsPerFrame(c, events[..|events| - 1]);
    }
  }

  class CameraController {
    var wasdqe: array<ElementState>
    var posDelta: (int, int)
    var rotDelta: int
    var zoomDelta: int
    var frameReset: bool

    ghost predicate Valid()
      reads this
    {
      wasdqe.Length == 6
    }

    ghost function State(): CamState
      reads this, wasdqe
      requires Valid()
    {
      CamState(wasdqe[..], posDelta, rotDelta, zoomDelta, frameReset)
    }

    constructor ()
      ensures Valid() && fresh(wasdqe) && State() == INITIAL
    {
      wasdqe := new ElementState[6](_ => Released);
      posDelta, rotDelta, zoomDelta, frameReset := (0, 0), 0, 0, true;
      new;
      assert wasdqe[..] == ALL_RELEASED;
    }

    /** `CameraController::handle`. */
    method Handle(e: Event)
      requires Valid()
      modifies this, wasdqe
      ensures Valid() && wasdqe == old(wasdqe)
      ensures State() == Handled(old(State()), e)
    {
      if frameReset {
        frameReset := false;
        zoomDelta := 0;
      }
      match e {
        case KeyboardInput(s, Some(W)) => wasdqe[0] := s;
        case KeyboardInput(s, Some(A)) => wasdqe[1] := s;
        case KeyboardInput(s, Some(S)) => wasdqe[2] := s;
        case KeyboardInput(s, Some(D)) => wasdqe[3] := s;
        case KeyboardInput(s, Some(Q)) => wasdqe[4] := s;
        case KeyboardInput(s, Some(E)) => wasdqe[5] := s;
        case MouseWheel(d) =>
          if d.dy > 0.0 {
            zoomDelta := 1;
          } else if d.dy < 0.0 {
            zoomDelta := -1;
          }
        case _ => return;
      }
    }

    /** `CameraController::update`, without the normalisation of the direction. */
    method Update()
      requires Valid()
      modifies this
      ensures Valid() && wasdqe == old(wasdqe)
      ensures State() == Updated(old(State()))
    {
      var mouseDelta := (0, 0);
      var mouseRot := 0;
      if wasdqe[0] == Pressed { mouseDelta := (mouseDelta.0, mouseDelta.1 + 1); }
      if wasdqe[1] == Pressed { mouseDelta := (mouseDelta.0 - 1, mouseDelta.1); }
      if wasdqe[2] == Pressed { mouseDelta := (mouseDelta.0, mouseDelta.1 - 1); }
      if wasdqe[3] == Pressed { mouseDelta := (mouseDelta.0 + 1, mouseDelta.1); }
      if wasdqe[4] == Pressed { mouseRot := mouseRot + 1; }
      if wasdqe[5] == Pressed { mouseRot := mouseRot - 1; }
      posDelta := mouseDelta;
      rotDelta := mouseRot;
      frameReset := true;
    }
  }
}

/** Controller input of the VR layer (Quake/vr.c:696-730 and 1139-1299):
    axis identification, the axis deadzone, button/trigger/axis edge
    detection into key events, the controller-state snapshot, and snap or
    smooth turning of the yaw-correction offset. Movement projection onto the
    aim vectors is not part of this module. */
module ControllerInput {
  import opened CNumeric
  import opened SeqSearch
  import opened Keys
  import Aim

  /** `k_unControllerStateAxisCount`. */
  const AxisCount := 5

  // `EVRButtonId` values of the OpenVR API.
  const ButtonApplicationMenu := 1
  const ButtonGrip := 2
  const ButtonA := 7
  const ButtonTouchpad := 32

  /** Axis deadzone of `GetAxis` and trigger threshold of `DoTrigger`. */
  const AxisDeadzone := 0.25
  const TriggerThreshold := 0.5

  /** `EVRControllerAxisType` as reported per axis slot. */
  datatype AxisType = NoAxis | TrackPad | Joystick | Trigger

  datatype AxisValue = AxisValue(x: real, y: real)

  /** `VRControllerState_t`: the pressed-button mask and the axis values. */
  datatype ControllerState = ControllerState(buttonPressed: bv64, axes: seq<AxisValue>)

  predicate WellFormed(st: ControllerState)
  {
    |st.axes| == AxisCount
  }

  const Released := ControllerState(0, [AxisValue(0.0, 0.0), AxisValue(0.0, 0.0), AxisValue(0.0, 0.0),
                                        AxisValue(0.0, 0.0), AxisValue(0.0, 0.0)])

  /** The part of `vr_controller` that input reads: this frame's and last
      frame's state. */
  datatype Controller = Controller(state: ControllerState, lastState: ControllerState)

  /** The globals `axisTrackpad`, `axisJoystick`, `axisTrigger` (-1: absent). */
  datatype AxisSlots = AxisSlots(trackpad: int, joystick: int, trigger: int)

  const NoSlots := AxisSlots(-1, -1, -1)

  predicate SlotsOk(sl: AxisSlots)
  {
    -1 <= sl.trackpad < AxisCount && -1 <= sl.joystick < AxisCount && -1 <= sl.trigger < AxisCount
  }

  /** The slots `IdentifyAxes` settles on: the first slot of each kind. */
  function FirstSlots(types: seq<AxisType>): (sl: AxisSlots)
    requires |types| == AxisCount
    ensures SlotsOk(sl)
  {
    AxisSlots(FirstIndexOf(types, TrackPad), FirstIndexOf(types, Joystick), FirstIndexOf(types, Trigger))
  }

  // -----------------------------------------------------------------------
  // Buttons

  /** `ButtonMaskFromId`: the bit of button `id` in the pressed mask. */
  function ButtonMask(id: nat): bv64
    requires id < 64
  {
    (1 as bv64) << id
  }

  predicate ButtonDown(st: ControllerState, id: nat)
    requires id < 64
  {
    st.buttonPressed & ButtonMask(id) != 0
  }

  /** `DoKey`: one event when the button's bit differs from last frame's, none
      otherwise; the event says whether the button is now down. */
  function KeyEdge(last: ControllerState, cur: ControllerState, button: nat, key: Key): (r: seq<KeyEvent>)
    requires button < 64
    ensures |r| <= 1
    ensures r != [] <==> ButtonDown(last, button) != ButtonDown(cur, button)
    ensures forall e :: e in r ==> e == KeyEvent(key, ButtonDown(cur, button))
  {
    var wasDown := ButtonDown(last, button);
    var isDown := ButtonDown(cur, button);
    if isDown != wasDown then [KeyEvent(key, isDown)] else []
  }

  /** The events `DoKey` emits over a sequence of successive states. */
  function KeyRun(states: seq<ControllerState>, button: nat, key: Key): seq<KeyEvent>
    requires button < 64
    decreases |states|
  {
    if |states| < 2 then []
    else KeyEdge(states[0], states[1], button, key) + KeyRun(states[1..], button, key)
  }

  /** A button that reaches a state and stays there emits one event for the
      change and no repeats while it is held (or released). */
  lemma {:induction false} KeyRunSettled(states: seq<ControllerState>, button: nat, key: Key, b: bool)
    requires button < 64 && |states| >= 1
    requires forall i :: 1 <= i < |states| ==> ButtonDown(states[i], button) == b
    ensures KeyRun(states, button, key) ==
      if |states| >= 2 && ButtonDown(states[0], button) != b then [KeyEvent(key, b)] else []
    decreases |states|
  {
    if |states| >= 2 {
      KeyRunSettled(states[1..], button, key, b);
      assert ButtonDown(states[1..][0], button) == b;
      if |states[1..]| >= 2 {
        assert KeyEdge(states[1..][0], states[1..][1], button, key) == [];
      }
    }
  }

  // -----------------------------------------------------------------------
  // Axes

  /** The slots `GetAxis` adds up, in order: trackpad, then joystick. */
  function PresentSlots(sl: AxisSlots): (r: seq<int>)
    ensures forall i :: 0 <= i < |r| ==> r[i] == sl.trackpad || r[i] == sl.joystick
  {
    (if sl.trackpad != -1 then [sl.trackpad] else []) + (if sl.joystick != -1 then [sl.joystick] else [])
  }

  /** The undeadzoned value of axis component `axis` (0: x, otherwise y):
      the sum over the present trackpad and joystick slots. */
  function RawAxis(st: ControllerState, axis: int, slots: seq<int>): real
    requires WellFormed(st)
    requires forall i :: 0 <= i < |slots| ==> 0 <= slots[i] < AxisCount
  {
    if slots == [] then 0.0
    else
      var a := st.axes[slots[0]];
      (if axis == 0 then a.x else a.y) + RawAxis(st, axis, slots[1..])
  }

  /** `GetAxis`: trackpad plus joystick, zeroed inside the 0.25 deadzone. */
  function GetAxis(st: ControllerState, axis: int, sl: AxisSlots): (r: real)
    requires WellFormed(st) && SlotsOk(sl)
    ensures var raw := RawAxis(st, axis, PresentSlots(sl));
      && (AbsReal(raw) < AxisDeadzone ==> r == 0.0)
      && (AbsReal(raw) >= AxisDeadzone ==> r == raw)
    ensures r == 0.0 || AbsReal(r) >= AxisDeadzone
  {
    var v := 0.0;
    var v := if axis == 0 then
        (if sl.trackpad != -1 then v + st.axes[sl.trackpad].x else v)
      else
        (if sl.trackpad != -1 then v + st.axes[sl.trackpad].y else v);
    var v := if axis == 0 then
        (if sl.joystick != -1 then v + st.axes[sl.joystick].x else v)
      else
        (if sl.joystick != -1 then v + st.axes[sl.joystick].y else v);
    assert v == RawAxis(st, axis, PresentSlots(sl)) by {
      var ps := PresentSlots(sl);
      if sl.trackpad != -1 && sl.joystick != -1 {
        assert ps == [sl.trackpad, sl.joystick] && ps[1..] == [sl.joystick] && ps[1..][1..] == [];
        assert RawAxis(st, axis, ps[1..][1..]) == 0.0;
      } else if sl.trackpad != -1 {
        assert ps == [sl.trackpad] && ps[1..] == [];
      } else if sl.joystick != -1 {
        assert ps == [sl.joystick] && ps[1..] == [];
      }
    }
    if AbsReal(v) < AxisDeadzone then 0.0 else v
  }

  /** The deadzone cases: 0.2 on a lone trackpad reads as 0, 0.3 reads as 0.3. */
  lemma AxisDeadzoneCases(rest: seq<AxisValue>)
    requires |rest| == AxisCount - 1
    ensures GetAxis(ControllerState(0, [AxisValue(0.2, 0.0)] + rest), 0, AxisSlots(0, -1, -1)) == 0.0
    ensures GetAxis(ControllerState(0, [AxisValue(0.3, 0.0)] + rest), 0, AxisSlots(0, -1, -1)) == 0.3
  {
  }

  /** `DoTrigger`: with a trigger slot, one event when "x above 0.5" differs
      from last frame's; with no trigger slot, nothing. */
  function TriggerEdge(last: ControllerState, cur: ControllerState, sl: AxisSlots, key: Key): (r: seq<KeyEvent>)
    requires WellFormed(last) && WellFormed(cur) && SlotsOk(sl)
    ensures |r| <= 1
    ensures sl.trigger == -1 ==> r == []
    ensures sl.trigger != -1 ==>
      (r != [] <==> (last.axes[sl.trigger].x > TriggerThreshold) != (cur.axes[sl.trigger].x > TriggerThreshold))
    ensures forall e :: e in r ==> e == KeyEvent(key, cur.axes[sl.trigger].x > TriggerThreshold)
  {
    if sl.trigger != -1 then
      var triggerWasDown := last.axes[sl.trigger].x > 0.5;
      var triggerDown := cur.axes[sl.trigger].x > 0.5;
      if triggerDown != triggerWasDown then [KeyEvent(key, triggerDown)] else []
    else []
  }

  /** `DoAxis`: the positive key on a change of "above 0", then the negative
      key on a change of "below 0" -- at most two events, positive first. */
  function AxisEdges(last: ControllerState, cur: ControllerState, axis: int, sl: AxisSlots,
                     negKey: Key, posKey: Key): (r: seq<KeyEvent>)
    requires WellFormed(last) && WellFormed(cur) && SlotsOk(sl)
    ensures var lv, v := GetAxis(last, axis, sl), GetAxis(cur, axis, sl);
      && |r| == (if (lv > 0.0) != (v > 0.0) then 1 else 0) + (if (lv < 0.0) != (v < 0.0) then 1 else 0)
      && ((lv > 0.0) != (v > 0.0) ==> r[0] == KeyEvent(posKey, v > 0.0))
      && ((lv < 0.0) != (v < 0.0) ==> r[|r| - 1] == KeyEvent(negKey, v < 0.0))
  {
    var lastVal := GetAxis(last, axis, sl);
    var val := GetAxis(cur, axis, sl);
    var pos := if (val > 0.0) != (lastVal > 0.0) then [KeyEvent(posKey, val > 0.0)] else [];
    var neg := if (val < 0.0) != (lastVal < 0.0) then [KeyEvent(negKey, val < 0.0)] else [];
    pos + neg
  }

  /** Flipping an axis from one side straight to the other releases the old
      direction's key and presses the new one's, in that order for a flip to
      negative. */
  lemma AxisFlipToNegative(last: ControllerState, cur: ControllerState, axis: int, sl: AxisSlots,
                           negKey: Key, posKey: Key)
    requires WellFormed(last) && WellFormed(cur) && SlotsOk(sl)
    requires GetAxis(last, axis, sl) > 0.0 && GetAxis(cur, axis, sl) < 0.0
    ensures AxisEdges(last, cur, axis, sl, negKey, posKey) == [KeyEvent(posKey, false), KeyEvent(negKey, true)]
  {
  }

  /** Jitter inside the deadzone never reaches the key sink. */
  lemma AxisJitterIgnored(last: ControllerState, cur: ControllerState, axis: int, sl: AxisSlots,
                          negKey: Key, posKey: Key)
    requires WellFormed(last) && WellFormed(cur) && SlotsOk(sl)
    requires AbsReal(RawAxis(last, axis, PresentSlots(sl))) < AxisDeadzone
    requires AbsReal(RawAxis(cur, axis, PresentSlots(sl))) < AxisDeadzone
    ensures AxisEdges(last, cur, axis, sl, negKey, posKey) == []
  {
  }

  // -----------------------------------------------------------------------
  // Events of one VR_Move

  /** The menu navigation of one controller: horizontal, vertical, trigger. */
  function NavEvents(c: Controller, sl: AxisSlots): seq<KeyEvent>
    requires WellFormed(c.state) && WellFormed(c.lastState) && SlotsOk(sl)
  {
    AxisEdges(c.lastState, c.state, 0, sl, LeftArrow, RightArrow)
    + AxisEdges(c.lastState, c.state, 1, sl, DownArrow, UpArrow)
    + TriggerEdge(c.lastState, c.state, sl, Enter)
  }

  /** The events of the menu loop over the controllers, in controller order. */
  function NavEventsOf(cs: seq<Controller>, sl: AxisSlots): seq<KeyEvent>
    requires forall i :: 0 <= i < |cs| ==> WellFormed(cs[i].state) && WellFormed(cs[i].lastState)
    requires SlotsOk(sl)
    decreases |cs|
  {
    if cs == [] then [] else NavEventsOf(cs[..|cs| - 1], sl) + NavEvents(cs[|cs| - 1], sl)
  }

  /** Every key event `VR_Move` emits in one call with VR enabled, in order. */
  function MoveEvents(c0: Controller, c1: Controller, sl: AxisSlots, inMenu: bool): seq<KeyEvent>
    requires WellFormed(c0.state) && WellFormed(c0.lastState)
    requires WellFormed(c1.state) && WellFormed(c1.lastState)
    requires SlotsOk(sl)
  {
    ButtonEvents(c0, c1, sl)
    + (if inMenu then NavEventsOf([c0, c1], sl) else TriggerEdge(c1.lastState, c1.state, sl, Mouse1))
  }

  /** The fixed bindings of `VR_Move`: fire, weapon cycling, run, weapon
      slots and escape. */
  function ButtonEvents(c0: Controller, c1: Controller, sl: AxisSlots): seq<KeyEvent>
    requires WellFormed(c0.state) && WellFormed(c0.lastState)
    requires WellFormed(c1.state) && WellFormed(c1.lastState)
    requires SlotsOk(sl)
  {
    TriggerEdge(c0.lastState, c0.state, sl, Space)
    + KeyEdge(c0.lastState, c0.state, ButtonGrip, MouseWheelUp)
    + KeyEdge(c1.lastState, c1.state, ButtonGrip, MouseWheelDown)
    + KeyEdge(c0.lastState, c0.state, ButtonTouchpad, Shift)
    + KeyEdge(c0.lastState, c0.state, ButtonApplicationMenu, Char('1'))
    + KeyEdge(c0.lastState, c0.state, ButtonA, Char('2'))
    + KeyEdge(c1.lastState, c1.state, ButtonA, Char('3'))
    + KeyEdge(c1.lastState, c1.state, ButtonApplicationMenu, Escape)
  }

  /** When neither controller changed since last frame, `VR_Move` emits no
      event at all: held buttons, triggers and axes never repeat. */
  lemma {:induction false} UnchangedControllersEmitNothing(c0: Controller, c1: Controller, sl: AxisSlots, inMenu: bool)
    requires WellFormed(c0.state) && WellFormed(c1.state) && SlotsOk(sl)
    requires c0.lastState == c0.state && c1.lastState == c1.state
    ensures MoveEvents(c0, c1, sl, inMenu) == []
  {
    assert ButtonEvents(c0, c1, sl) == [];
    if inMenu {
      assert NavEvents(c0, sl) == [] && NavEvents(c1, sl) == [];
      assert [c0, c1][..1] == [c0];
      assert NavEventsOf([c0], sl) == NavEventsOf([], sl) + NavEvents(c0, sl);
    }
  }

  // -----------------------------------------------------------------------
  // Turning

  /** The sign class of the turn axis: 1, -1 or 0. */
  function Sign(x: real): (r: int)
    ensures r == 1 <==> x > 0.0
    ensures r == -1 <==> x < 0.0
    ensures r == 0 <==> x == 0.0
  {
    if x > 0.0 then 1 else if x < 0.0 then -1 else 0
  }

  datatype Turn = Turn(vrYaw: real, lastSnap: int)

  /** The turning tail of `VR_Move`: with `vr_snap_turn` set, a step of
      `-snap * vr_snap_turn` on a change of sign class; otherwise a smooth
      turn of `yawMove * frametime * 100` degrees. */
  function TurnStep(t: Turn, yawMove: real, snapTurn: real, frameTime: real): Turn
  {
    if snapTurn != 0.0 then
      var snap := if yawMove > 0.0 then 1 else if yawMove < 0.0 then -1 else 0;
      if snap != t.lastSnap then Turn(t.vrYaw - snap as real * snapTurn, snap) else t
    else
      Turn(t.vrYaw - yawMove * frameTime * 100.0, t.lastSnap)
  }

  /** A snap step records the sign class, and moves the offset by exactly the
      snap angle only on a change to a non-zero class. */
  lemma SnapStep(t: Turn, yawMove: real, snapTurn: real, frameTime: real)
    requires snapTurn != 0.0
    ensures var t' := TurnStep(t, yawMove, snapTurn, frameTime);
      && t'.lastSnap == Sign(yawMove)
      && (Sign(yawMove) == t.lastSnap ==> t'.vrYaw == t.vrYaw)
      && (Sign(yawMove) != t.lastSnap && yawMove > 0.0 ==> t'.vrYaw == t.vrYaw - snapTurn)
      && (Sign(yawMove) != t.lastSnap && yawMove < 0.0 ==> t'.vrYaw == t.vrYaw + snapTurn)
      && (yawMove == 0.0 ==> t'.vrYaw == t.vrYaw)
  {
  }

  function TurnRun(t: Turn, moves: seq<real>, snapTurn: real, frameTime: real): Turn
    decreases |moves|
  {
    if moves == [] then t else TurnRun(TurnStep(t, moves[0], snapTurn, frameTime), moves[1..], snapTurn, frameTime)
  }

  /** Holding the stick on one side for any number of frames snaps exactly
      once, when the hold starts. */
  lemma {:induction false} SnapHoldTurnsOnce(t: Turn, moves: seq<real>, snapTurn: real, frameTime: real, s: int)
    requires snapTurn != 0.0 && (s == 1 || s == -1) && |moves| > 0
    requires forall i :: 0 <= i < |moves| ==> Sign(moves[i]) == s
    ensures TurnRun(t, moves, snapTurn, frameTime) ==
      if t.lastSnap == s then t else Turn(t.vrYaw - s as real * snapTurn, s)
    decreases |moves|
  {
    var t1 := TurnStep(t, moves[0], snapTurn, frameTime);
    SnapStep(t, moves[0], snapTurn, frameTime);
    if |moves| > 1 {
      SnapHoldTurnsOnce(t1, moves[1..], snapTurn, frameTime, s);
    } else {
      assert TurnRun(t1, moves[1..], snapTurn, frameTime) == t1;
    }
  }

  // -----------------------------------------------------------------------
  // Device ingest

  datatype Role = LeftHand | RightHand | OtherRole
  datatype DeviceClass = HmdClass | ControllerClass | OtherClass

  /** One tracked device's sample for this frame: pose validity, class, hand
      role, the per-slot axis types it reports and its controller state. */
  datatype Device = Device(poseValid: bool, deviceClass: DeviceClass, role: Role,
                           axisTypes: seq<AxisType>, state: ControllerState)

  predicate DeviceOk(d: Device)
  {
    |d.axisTypes| == AxisCount && WellFormed(d.state)
  }

  /** The controller slot a hand role fills, swapped for left-handed players;
      -1 for a device with no hand role. */
  function ControllerIndex(role: Role, leftHanded: real): (i: int)
    ensures i == -1 <==> role == OtherRole
    ensures role != OtherRole ==> (i == 1 <==> (role == LeftHand) == (leftHanded != 0.0))
    ensures -1 <= i <= 1
  {
    match role
    case LeftHand => if leftHanded != 0.0 then 1 else 0
    case RightHand => if leftHanded != 0.0 then 0 else 1
    case OtherRole => -1
  }

  /** The two hands always fill different slots, and turning on left-handed
      mode exchanges them. */
  lemma HandsSwap(leftHanded: real)
    ensures ControllerIndex(LeftHand, leftHanded) != ControllerIndex(RightHand, leftHanded)
    ensures leftHanded != 0.0 ==>
      ControllerIndex(LeftHand, leftHanded) == ControllerIndex(RightHand, 0.0)
      && ControllerIndex(RightHand, leftHanded) == ControllerIndex(LeftHand, 0.0)
  {
  }

  /** The controller-input globals as a value. */
  datatype Pads = Pads(c0: Controller, c1: Controller, slots: AxisSlots, identified: bool)

  /** The controller branch of the device loop (vr.c:696-729) for one device. */
  function IngestDevice(p: Pads, d: Device, leftHanded: real): Pads
    requires DeviceOk(d)
  {
    if d.poseValid && d.deviceClass == ControllerClass then
      var i := ControllerIndex(d.role, leftHanded);
      if i == -1 then p
      else
        var p1 := if p.identified then p else p.(slots := FirstSlots(d.axisTypes), identified := true);
        if i == 0 then p1.(c0 := Controller(d.state, p.c0.state))
        else p1.(c1 := Controller(d.state, p.c1.state))
    else p
  }

  function IngestAll(p: Pads, ds: seq<Device>, leftHanded: real): Pads
    requires forall i :: 0 <= i < |ds| ==> DeviceOk(ds[i])
    decreases |ds|
  {
    if ds == [] then p else IngestDevice(IngestAll(p, ds[..|ds| - 1], leftHanded), ds[|ds| - 1], leftHanded)
  }

  /** A valid hand controller's sample becomes the current state of its slot,
      and the state it replaces becomes that slot's last state; the other slot
      is untouched. A device with an invalid pose changes nothing. */
  lemma IngestSnapshotsLast(p: Pads, d: Device, leftHanded: real)
    requires DeviceOk(d)
    ensures !d.poseValid ==> IngestDevice(p, d, leftHanded) == p
    ensures d.poseValid && d.deviceClass == ControllerClass && d.role != OtherRole ==>
      var p' := IngestDevice(p, d, leftHanded);
      if ControllerIndex(d.role, leftHanded) == 0
      then p'.c0 == Controller(d.state, p.c0.state) && p'.c1 == p.c1
      else p'.c1 == Controller(d.state, p.c1.state) && p'.c0 == p.c0
  {
  }

  /** Axis identification happens once per session: once identified, no
      sequence of devices changes the slots again. */
  lemma {:induction false} IdentifiedSlotsStay(p: Pads, ds: seq<Device>, leftHanded: real)
    requires forall i :: 0 <= i < |ds| ==> DeviceOk(ds[i])
    requires p.identified
    ensures IngestAll(p, ds, leftHanded).identified
    ensures IngestAll(p, ds, leftHanded).slots == p.slots
    decreases |ds|
  {
    if ds != [] {
      IdentifiedSlotsStay(p, ds[..|ds| - 1], leftHanded);
    }
  }

  /** One iteration of the `IdentifyAxes` loop: the slot of the axis' kind
      takes index `i` if it is still -1. */
  function ScanSlot(sl: AxisSlots, t: AxisType, i: int): AxisSlots
  {
    if t == TrackPad && sl.trackpad == -1 then sl.(trackpad := i)
    else if t == Joystick && sl.joystick == -1 then sl.(joystick := i)
    else if t == Trigger && sl.trigger == -1 then sl.(trigger := i)
    else sl
  }

  /** The slots after the first `n` iterations of the loop. */
  function ScanPrefix(types: seq<AxisType>, n: nat): AxisSlots
    requires n <= |types|
  {
    if n == 0 then NoSlots else ScanSlot(ScanPrefix(types, n - 1), types[n - 1], n - 1)
  }

  /** Setting a slot only while it is still -1 finds the first axis of each
      kind. */
  lemma {:induction false} ScanFindsFirst(types: seq<AxisType>, n: nat)
    requires n <= |types|
    ensures ScanPrefix(types, n) ==
      AxisSlots(FirstIndexOf(types[..n], TrackPad), FirstIndexOf(types[..n], Joystick), FirstIndexOf(types[..n], Trigger))
  {
    if n == 0 {
      assert types[..0] == [];
    } else {
      ScanFindsFirst(types, n - 1);
      var pre := types[..n - 1];
      assert types[..n] == pre + [types[n - 1]];
      FirstIndexOfSnoc(pre, types[n - 1], TrackPad);
      FirstIndexOfSnoc(pre, types[n - 1], Joystick);
      FirstIndexOfSnoc(pre, types[n - 1], Trigger);
    }
  }

  /** The loop of `IdentifyAxes`, from slots that all start at -1. */
  method ScanAxes(types: seq<AxisType>) returns (slots: AxisSlots)
    requires |types| == AxisCount
    ensures slots == FirstSlots(types)
  {
    var trackpad, joystick, trigger := -1, -1, -1;
    var i := 0;
    while i < AxisCount
      invariant 0 <= i <= AxisCount
      invariant AxisSlots(trackpad, joystick, trigger) == ScanPrefix(types, i)
    {
      if types[i] == TrackPad && trackpad == -1 {
        trackpad := i;
      } else if types[i] == Joystick && joystick == -1 {
        joystick := i;
      } else if types[i] == Trigger && trigger == -1 {
        trigger := i;
      }
      i := i + 1;
    }
    slots := AxisSlots(trackpad, joystick, trigger);
    ScanFindsFirst(types, AxisCount);
    assert types[..AxisCount] == types;
  }

  // -----------------------------------------------------------------------
  // The globals, updated in place

  class VrInput {
    var axisTrackpad: int
    var axisJoystick: int
    var axisTrigger: int
    var identified: bool
    var controllers: array<Controller>
    var lastSnap: int

    function Slots(): AxisSlots
      reads this
    {
      AxisSlots(axisTrackpad, axisJoystick, axisTrigger)
    }

    ghost predicate Valid()
      reads this, controllers
    {
      && controllers.Length == 2
      && SlotsOk(Slots())
      && (!identified ==> Slots() == NoSlots)
      && WellFormed(controllers[0].state) && WellFormed(controllers[0].lastState)
      && WellFormed(controllers[1].state) && WellFormed(controllers[1].lastState)
    }

    function Snapshot(): Pads
      reads this, controllers
      requires controllers.Length == 2
    {
      Pads(controllers[0], controllers[1], Slots(), identified)
    }

    constructor ()
      ensures Valid() && fresh(controllers)
      ensures Snapshot() == Pads(Controller(Released, Released), Controller(Released, Released), NoSlots, false)
      ensures lastSnap == 0
    {
      axisTrackpad, axisJoystick, axisTrigger := -1, -1, -1;
      identified := false;
      controllers := new Controller[2](_ => Controller(Released, Released));
      lastSnap := 0;
    }

    /** `IdentifyAxes`: on the first call only, each slot global takes the
        first axis index of its kind. */
    method IdentifyAxes(types: seq<AxisType>)
      requires Valid() && |types| == AxisCount
      modifies this`axisTrackpad, this`axisJoystick, this`axisTrigger, this`identified
      ensures Valid() && identified
      ensures Slots() == if old(identified) then old(Slots()) else FirstSlots(types)
    {
      if identified {
        return;
      }
      var slots := ScanAxes(types);
      axisTrackpad, axisJoystick, axisTrigger := slots.trackpad, slots.joystick, slots.trigger;
      identified := true;
    }

    /** One device of the pose loop (vr.c:696-729): a valid hand controller
        identifies the axes, then moves its current state into its last state
        before storing the new one. */
    method UpdateDevice(d: Device, leftHanded: real)
      requires Valid() && DeviceOk(d)
      modifies this`axisTrackpad, this`axisJoystick, this`axisTrigger, this`identified, controllers
      ensures Valid()
      ensures Snapshot() == IngestDevice(old(Snapshot()), d, leftHanded)
    {
      if d.poseValid && d.deviceClass == ControllerClass {
        var index := ControllerIndex(d.role, leftHanded);
        if index != -1 {
          IdentifyAxes(d.axisTypes);
          controllers[index] := Controller(d.state, controllers[index].state);
        }
      }
    }

    /** The device loop of `VR_UpdateScreenContent` for controllers. */
    method UpdateDevices(ds: seq<Device>, leftHanded: real)
      requires Valid() && forall i :: 0 <= i < |ds| ==> DeviceOk(ds[i])
      modifies this`axisTrackpad, this`axisJoystick, this`axisTrigger, this`identified, controllers
      ensures Valid()
      ensures Snapshot() == IngestAll(old(Snapshot()), ds, leftHanded)
    {
      var i := 0;
      while i < |ds|
        invariant 0 <= i <= |ds|
        invariant Valid()
        invariant Snapshot() == IngestAll(old(Snapshot()), ds[..i], leftHanded)
      {
        assert ds[..i + 1][..i] == ds[..i];
        UpdateDevice(ds[i], leftHanded);
        i := i + 1;
      }
      assert ds[..|ds|] == ds;
    }

    /** The menu branch of `VR_Move`: arrow and enter keys from each
        controller in turn. */
    method MenuNavigation() returns (keys: seq<KeyEvent>)
      requires Valid()
      ensures keys == NavEventsOf([controllers[0], controllers[1]], Slots())
    {
      keys := [];
      ghost var cs := [controllers[0], controllers[1]];
      for i := 0 to 2
        invariant keys == NavEventsOf(cs[..i], Slots())
      {
        assert cs[..i + 1][..i] == cs[..i];
        keys := keys + NavEvents(controllers[i], Slots());
      }
      assert cs[..2] == cs;
    }

    /** `VR_Move` without the movement projection: returns the key events
        both controllers raise, in call order, and (outside the menu) turns
        the shared yaw-correction offset. */
    method VrMove(vrEnabled: real, inMenu: bool, snapTurn: real, frameTime: real, view: Aim.ViewState)
      returns (keys: seq<KeyEvent>)
      requires Valid()
      modifies this`lastSnap, view`vrYaw
      ensures keys == if vrEnabled != 0.0 then MoveEvents(controllers[0], controllers[1], Slots(), inMenu) else []
      ensures var t := Turn(old(view.vrYaw), old(lastSnap));
        var t' := if vrEnabled != 0.0 && !inMenu
                  then TurnStep(t, GetAxis(controllers[1].state, 0, Slots()), snapTurn, frameTime)
                  else t;
        view.vrYaw == t'.vrYaw && lastSnap == t'.lastSnap
    {
      keys := [];
      if vrEnabled == 0.0 {
        return;
      }
      keys := ButtonEvents(controllers[0], controllers[1], Slots());
      if inMenu {
        var nav := MenuNavigation();
        keys := keys + nav;
      } else {
        keys := keys + TriggerEdge(controllers[1].lastState, controllers[1].state, Slots(), Mouse1);
        var yawMove := GetAxis(controllers[1].state, 0, Slots());
        if snapTurn != 0.0 {
          var snap := if yawMove > 0.0 then 1 else if yawMove < 0.0 then -1 else 0;
          if snap != lastSnap {
            view.vrYaw := view.vrYaw - snap as real * snapTurn;
            lastSnap := snap;
          }
        } else {
          view.vrYaw := view.vrYaw - yawMove * frameTime * 100.0;
        }
      }
    }
  }
}

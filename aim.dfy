/** The per-frame aim/view reconciliation of `VR_UpdateScreenContent`
    (Quake/vr.c:732-833), with `VR_PushYaw`, `VR_SetAngles` and
    `VR_ResetOrientation`. The head's Euler angles (the atan2/asin part of
    `QuatToYawPitchRoll`) are an input; the yaw-correction offset `vrYaw` that
    `QuatToYawPitchRoll` adds to the yaw is part of the state. */
module Aim {
  import opened CNumeric

  // The seven values of the `vr_aimmode` cvar.
  const HeadMyaw := 1
  const HeadMyawMpitch := 2
  const MouseMyaw := 3
  const MouseMyawMpitch := 4
  const Blended := 5
  const BlendedNopitch := 6
  const Controller := 7

  /** A `vec3_t` of angles in degrees, indexed PITCH, YAW, ROLL in the source. */
  datatype Angles = Angles(pitch: real, yaw: real, roll: real)

  const Zero := Angles(0.0, 0.0, 0.0)

  /** The globals the reconciliation reads and writes: `cl.viewangles`,
      `cl.aimangles`, the statics `lastOrientation` and `lastAim`, the
      yaw-correction offset `vrYaw` and the one-shot flag `readbackYaw`. */
  datatype AimState = AimState(
    view: Angles,
    aim: Angles,
    lastOrientation: Angles,
    lastAim: Angles,
    vrYaw: real,
    readbackYaw: bool)

  /** What `QuatToYawPitchRoll` returns for head Euler angles `head`: the
      offset `vrYaw` is added to the yaw only. */
  function Orientation(head: Angles, vrYaw: real): (o: Angles)
    ensures o.pitch == head.pitch && o.roll == head.roll
    ensures o.yaw - vrYaw == head.yaw
  {
    head.(yaw := head.yaw + vrYaw)
  }

  /** Modes 2 to 7 have their own case; every other value of `(int)vr_aimmode`
      falls into the default case, which shares HEAD_MYAW's code. */
  predicate IsHeadMyaw(mode: int)
  {
    !(HeadMyawMpitch <= mode <= Controller)
  }

  /** The BLENDED test `abs(diffYaw) > vr_deadzone.value / 2.0f`: C's integer
      `abs` converts the float difference to `int` first, truncating it. */
  predicate PullsAim(diffYaw: real, deadzone: real)
  {
    Abs(Trunc(diffYaw)) as real > deadzone / 2.0
  }

  /** The `switch ((int)vr_aimmode.value)` on the view and aim angles, given the
      orientation `o` of this frame and the aim angles after the roll reset.
      Returns the new view and aim angles; the view roll is set afterwards. */
  function ApplyMode(mode: int, o: Angles, view: Angles, aim: Angles,
                     lastOrientation: Angles, lastAim: Angles,
                     deadzone: real, handAim: Angles): (Angles, Angles)
  {
    if mode == HeadMyawMpitch then
      var pitch := aim.pitch + o.pitch - lastOrientation.pitch;
      var yaw := aim.yaw + o.yaw - lastOrientation.yaw;
      (view.(pitch := pitch, yaw := yaw), aim.(pitch := pitch, yaw := yaw))
    else if mode == MouseMyaw then
      (view.(pitch := o.pitch, yaw := aim.yaw + o.yaw), aim)
    else if mode == MouseMyawMpitch then
      (view.(pitch := aim.pitch + o.pitch, yaw := aim.yaw + o.yaw), aim)
    else if mode == Blended || mode == BlendedNopitch then
      var diffHmdYaw := o.yaw - lastOrientation.yaw;
      var diffHmdPitch := o.pitch - lastOrientation.pitch;
      var diffAimYaw := aim.yaw - lastAim.yaw;
      var viewYaw := view.yaw + diffHmdYaw;
      var pull := PullsAim(viewYaw - aim.yaw, deadzone);
      var aimYaw := if pull then aim.yaw + diffHmdYaw else aim.yaw;
      var viewYaw' := if pull then viewYaw + diffAimYaw else viewYaw;
      var aimPitch := if mode == Blended then aim.pitch + diffHmdPitch else aim.pitch;
      (view.(pitch := o.pitch, yaw := viewYaw'), aim.(pitch := aimPitch, yaw := aimYaw))
    else if mode == Controller then
      (view.(pitch := o.pitch, yaw := o.yaw), handAim)
    else
      var yaw := aim.yaw + o.yaw - lastOrientation.yaw;
      (view.(pitch := o.pitch, yaw := yaw), aim.(pitch := o.pitch, yaw := yaw))
  }

  /** One frame of reconciliation (vr.c:732-830). `aimMode` and `deadzone` are
      the cvar values; `handAim` is the dominant hand's rotation `cl.handrot[1]`,
      which only the CONTROLLER mode reads. */
  function Frame(s: AimState, head: Angles, aimMode: real, deadzone: real, handAim: Angles): AimState
  {
    var aim := s.aim.(roll := 0.0);
    var o := Orientation(head, s.vrYaw);
    var vrYaw := if s.readbackYaw then s.view.yaw - (o.yaw - s.vrYaw) else s.vrYaw;
    var (view', aim') := ApplyMode(Trunc(aimMode), o, s.view, aim, s.lastOrientation, s.lastAim, deadzone, handAim);
    AimState(view'.(roll := o.roll), aim', o, aim', vrYaw, false)
  }

  /** A run of frames with the same settings, one head sample per frame, and
      no mouse input between frames (see `MouseRun` for that). */
  function Run(s: AimState, heads: seq<Angles>, aimMode: real, deadzone: real, handAim: Angles): AimState
    decreases |heads|
  {
    if heads == [] then s
    else Run(Frame(s, heads[0], aimMode, deadzone, handAim), heads[1..], aimMode, deadzone, handAim)
  }

  // -----------------------------------------------------------------------
  // Properties of one frame

  /** The view roll is the head roll in every mode; the aim roll is 0 in every
      mode but CONTROLLER, where it is the hand's. */
  lemma RollFollowsHead(s: AimState, head: Angles, aimMode: real, deadzone: real, handAim: Angles)
    ensures Frame(s, head, aimMode, deadzone, handAim).view.roll == head.roll
    ensures Trunc(aimMode) != Controller ==> Frame(s, head, aimMode, deadzone, handAim).aim.roll == 0.0
    ensures Trunc(aimMode) == Controller ==> Frame(s, head, aimMode, deadzone, handAim).aim == handAim
  {
  }

  /** The frame stores this frame's orientation and final aim for the next one,
      and always clears the readback flag. */
  lemma FrameRecordsLast(s: AimState, head: Angles, aimMode: real, deadzone: real, handAim: Angles)
    ensures var s' := Frame(s, head, aimMode, deadzone, handAim);
      s'.lastOrientation == Orientation(head, s.vrYaw) && s'.lastAim == s'.aim && !s'.readbackYaw
  {
  }

  /** HEAD_MYAW and the default case: view and aim pitch are the head pitch;
      view and aim yaw both become the old aim yaw plus the head-yaw delta. */
  lemma HeadMyawFrame(s: AimState, head: Angles, aimMode: real, deadzone: real, handAim: Angles)
    requires IsHeadMyaw(Trunc(aimMode))
    ensures var s' := Frame(s, head, aimMode, deadzone, handAim);
      var delta := Orientation(head, s.vrYaw).yaw - s.lastOrientation.yaw;
      && s'.view.pitch == s'.aim.pitch == head.pitch
      && s'.view.yaw == s'.aim.yaw == s.aim.yaw + delta
  {
  }

  /** HEAD_MYAW_MPITCH: pitch follows the same delta rule as yaw. */
  lemma HeadMyawMpitchFrame(s: AimState, head: Angles, aimMode: real, deadzone: real, handAim: Angles)
    requires Trunc(aimMode) == HeadMyawMpitch
    ensures var s' := Frame(s, head, aimMode, deadzone, handAim);
      && s'.view.pitch == s'.aim.pitch == s.aim.pitch + (head.pitch - s.lastOrientation.pitch)
      && s'.view.yaw == s'.aim.yaw == s.aim.yaw + (Orientation(head, s.vrYaw).yaw - s.lastOrientation.yaw)
  {
  }

  /** MOUSE_MYAW and MOUSE_MYAW_MPITCH leave the aim (but its roll) untouched
      and put the view at aim yaw + head yaw; the view pitch is the head pitch,
      plus the aim pitch in MOUSE_MYAW_MPITCH. */
  lemma MouseModesFrame(s: AimState, head: Angles, aimMode: real, deadzone: real, handAim: Angles)
    requires Trunc(aimMode) == MouseMyaw || Trunc(aimMode) == MouseMyawMpitch
    ensures var s' := Frame(s, head, aimMode, deadzone, handAim);
      && s'.aim == s.aim.(roll := 0.0)
      && s'.view.yaw == s.aim.yaw + Orientation(head, s.vrYaw).yaw
      && s'.view.pitch == (if Trunc(aimMode) == MouseMyaw then head.pitch else s.aim.pitch + head.pitch)
  {
  }

  /** BLENDED and BLENDED_NOPITCH: the view yaw always gains the head-yaw
      delta; only when the truncated view/aim difference exceeds half the
      deadzone does the aim yaw gain the head delta and the view yaw the aim
      delta since the last frame. Aim pitch follows the head only in BLENDED. */
  lemma BlendedFrame(s: AimState, head: Angles, aimMode: real, deadzone: real, handAim: Angles)
    requires Trunc(aimMode) == Blended || Trunc(aimMode) == BlendedNopitch
    ensures var s' := Frame(s, head, aimMode, deadzone, handAim);
      var dHead := Orientation(head, s.vrYaw).yaw - s.lastOrientation.yaw;
      var dAim := s.aim.yaw - s.lastAim.yaw;
      var pull := PullsAim(s.view.yaw + dHead - s.aim.yaw, deadzone);
      && s'.view.pitch == head.pitch
      && s'.aim.pitch == (if Trunc(aimMode) == Blended then s.aim.pitch + (head.pitch - s.lastOrientation.pitch) else s.aim.pitch)
      && (pull ==> s'.aim.yaw == s.aim.yaw + dHead && s'.view.yaw == s.view.yaw + dHead + dAim)
      && (!pull ==> s'.aim.yaw == s.aim.yaw && s'.view.yaw == s.view.yaw + dHead)
  {
  }

  /** Because of the truncation, the BLENDED test fires exactly when the magnitude of the difference reaches the next whole
      degree above half the deadzone. */
  lemma {:induction false} PullsAimThreshold(diffYaw: real, deadzone: real)
    ensures PullsAim(diffYaw, deadzone) <==> AbsReal(diffYaw) >= ((deadzone / 2.0).Floor + 1) as real
  {
    var t := Trunc(diffYaw);
    var h := (deadzone / 2.0).Floor;
    assert Abs(t) == AbsReal(diffYaw).Floor by {
      if diffYaw < 0.0 {
        assert (-diffYaw).Floor == -t;
      }
    }
    assert Abs(t) as real > deadzone / 2.0 <==> Abs(t) >= h + 1;
  }

  /** The boundary cases at deadzone 30: a difference of 14 stays inside,
      16 pulls, and 15.5 stays inside although it exceeds 15. */
  lemma BlendedBoundaryAtThirty()
    ensures !PullsAim(14.0, 30.0) && PullsAim(16.0, 30.0) && !PullsAim(15.5, 30.0)
    ensures !PullsAim(-15.5, 30.0) && PullsAim(-16.0, 30.0)
  {
    PullsAimThreshold(15.5, 30.0);
    PullsAimThreshold(-15.5, 30.0);
    PullsAimThreshold(-16.0, 30.0);
  }

  /** What the BLENDED rule guarantees in one frame: the view/aim yaw
      difference it leaves is either inside the deadzone, or (after a pull) the
      old view yaw minus the aim yaw the previous frame recorded. */
  lemma {:induction false} BlendedDriftFrame(s: AimState, head: Angles, aimMode: real, deadzone: real, handAim: Angles)
    requires Trunc(aimMode) == Blended || Trunc(aimMode) == BlendedNopitch
    ensures var s' := Frame(s, head, aimMode, deadzone, handAim);
      || !PullsAim(s'.view.yaw - s'.aim.yaw, deadzone)
      || s'.view.yaw - s'.aim.yaw == s.view.yaw - s.lastAim.yaw
  {
    BlendedFrame(s, head, aimMode, deadzone, handAim);
  }

  /** Over a run of BLENDED frames the final difference is inside the deadzone
      or equals the start's view yaw minus the aim it recorded last frame (its
      `lastAim`, not its current aim): since every frame records its aim as
      the next frame's `lastAim`, a pull restores the previous frame's
      difference instead of widening it. */
  lemma {:induction false} BlendedRunDrift(s: AimState, heads: seq<Angles>, aimMode: real, deadzone: real, handAim: Angles)
    requires Trunc(aimMode) == Blended || Trunc(aimMode) == BlendedNopitch
    requires |heads| > 0
    ensures var s' := Run(s, heads, aimMode, deadzone, handAim);
      || !PullsAim(s'.view.yaw - s'.aim.yaw, deadzone)
      || s'.view.yaw - s'.aim.yaw == s.view.yaw - s.lastAim.yaw
    decreases |heads|
  {
    var s1 := Frame(s, heads[0], aimMode, deadzone, handAim);
    BlendedDriftFrame(s, heads[0], aimMode, deadzone, handAim);
    FrameRecordsLast(s, heads[0], aimMode, deadzone, handAim);
    if |heads| > 1 {
      BlendedRunDrift(s1, heads[1..], aimMode, deadzone, handAim);
    } else {
      assert Run(s1, heads[1..], aimMode, deadzone, handAim) == s1;
    }
  }

  /** Head and aim never drift apart by more than the deadzone: from a settled
      state (the last aim is the aim) whose view/aim difference is inside the
      deadzone, every run of BLENDED frames stays inside it, which is a
      magnitude below the next whole degree above half the deadzone. */
  lemma {:induction false} BlendedStaysWithinDeadzone(s: AimState, heads: seq<Angles>, aimMode: real, deadzone: real, handAim: Angles)
    requires Trunc(aimMode) == Blended || Trunc(aimMode) == BlendedNopitch
    requires s.lastAim.yaw == s.aim.yaw && !PullsAim(s.view.yaw - s.aim.yaw, deadzone)
    ensures var s' := Run(s, heads, aimMode, deadzone, handAim);
      && !PullsAim(s'.view.yaw - s'.aim.yaw, deadzone)
      && AbsReal(s'.view.yaw - s'.aim.yaw) < ((deadzone / 2.0).Floor + 1) as real
  {
    var s' := Run(s, heads, aimMode, deadzone, handAim);
    if heads != [] {
      BlendedRunDrift(s, heads, aimMode, deadzone, handAim);
    }
    PullsAimThreshold(s'.view.yaw - s'.aim.yaw, deadzone);
  }

  /** A run in which, before each frame, the mouse turns the aim yaw by the
      matching entry of `mouse` (`cl.aimangles[YAW]` is changed by mouse input
      between frames; vr.c:774 reads that change as `diffAimYaw`). */
  function MouseRun(s: AimState, heads: seq<Angles>, mouse: seq<real>, aimMode: real, deadzone: real, handAim: Angles): AimState
    requires |mouse| == |heads|
    decreases |heads|
  {
    if heads == [] then s
    else
      var turned := s.(aim := s.aim.(yaw := s.aim.yaw + mouse[0]));
      MouseRun(Frame(turned, heads[0], aimMode, deadzone, handAim), heads[1..], mouse[1..], aimMode, deadzone, handAim)
  }

  /** Mouse turning does not break the deadzone invariant: from a settled
      state inside the deadzone, every BLENDED run with any mouse deltas
      between frames ends settled and inside the deadzone. A pull after a
      mouse turn restores the difference of the frame before it. */
  lemma {:induction false} BlendedMouseStaysWithinDeadzone(s: AimState, heads: seq<Angles>, mouse: seq<real>, aimMode: real, deadzone: real, handAim: Angles)
    requires Trunc(aimMode) == Blended || Trunc(aimMode) == BlendedNopitch
    requires |mouse| == |heads|
    requires s.lastAim.yaw == s.aim.yaw && !PullsAim(s.view.yaw - s.aim.yaw, deadzone)
    ensures var s' := MouseRun(s, heads, mouse, aimMode, deadzone, handAim);
      && s'.lastAim.yaw == s'.aim.yaw
      && !PullsAim(s'.view.yaw - s'.aim.yaw, deadzone)
    decreases |heads|
  {
    if heads != [] {
      var turned := s.(aim := s.aim.(yaw := s.aim.yaw + mouse[0]));
      var s1 := Frame(turned, heads[0], aimMode, deadzone, handAim);
      BlendedDriftFrame(turned, heads[0], aimMode, deadzone, handAim);
      FrameRecordsLast(turned, heads[0], aimMode, deadzone, handAim);
      BlendedMouseStaysWithinDeadzone(s1, heads[1..], mouse[1..], aimMode, deadzone, handAim);
    }
  }

  /** After `VR_SetAngles` (view, aim and last aim all equal) the BLENDED
      modes keep view and aim within the deadzone for good. */
  lemma BlendedAfterSetAngles(angles: Angles, s: AimState, heads: seq<Angles>, aimMode: real, deadzone: real, handAim: Angles)
    requires Trunc(aimMode) == Blended || Trunc(aimMode) == BlendedNopitch
    requires deadzone >= 0.0
    requires s.view == s.aim == s.lastAim == angles
    ensures !PullsAim(Run(s, heads, aimMode, deadzone, handAim).view.yaw - Run(s, heads, aimMode, deadzone, handAim).aim.yaw, deadzone)
  {
    BlendedStaysWithinDeadzone(s, heads, aimMode, deadzone, handAim);
  }

  /** CONTROLLER: the view follows the head directly and the aim is the hand. */
  lemma ControllerFrame(s: AimState, head: Angles, aimMode: real, deadzone: real, handAim: Angles)
    requires Trunc(aimMode) == Controller
    ensures var s' := Frame(s, head, aimMode, deadzone, handAim);
      s'.view == Orientation(head, s.vrYaw) && s'.aim == handAim
  {
  }

  /** A pending readback moves `vrYaw` so that this frame's head yaw maps onto
      the current view yaw, and clears itself; with no readback pending `vrYaw`
      is left alone. */
  lemma ReadbackFrame(s: AimState, head: Angles, aimMode: real, deadzone: real, handAim: Angles)
    ensures var s' := Frame(s, head, aimMode, deadzone, handAim);
      && !s'.readbackYaw
      && (s.readbackYaw ==> s'.vrYaw == s.view.yaw - head.yaw && Orientation(head, s'.vrYaw).yaw == s.view.yaw)
      && (!s.readbackYaw ==> s'.vrYaw == s.vrYaw)
  {
  }

  // -----------------------------------------------------------------------
  // Properties of runs of frames

  /** With no readback pending, a run never changes `vrYaw` and never raises
      the flag: a `VR_PushYaw` acts on exactly one frame. */
  lemma {:induction false} RunKeepsVrYaw(s: AimState, heads: seq<Angles>, aimMode: real, deadzone: real, handAim: Angles)
    requires !s.readbackYaw
    ensures Run(s, heads, aimMode, deadzone, handAim).vrYaw == s.vrYaw
    ensures !Run(s, heads, aimMode, deadzone, handAim).readbackYaw
    decreases |heads|
  {
    if heads != [] {
      RunKeepsVrYaw(Frame(s, heads[0], aimMode, deadzone, handAim), heads[1..], aimMode, deadzone, handAim);
    }
  }

  /** After a push, the first frame applies the readback and every later frame
      keeps the resulting offset. */
  lemma {:induction false} PushYawOnce(s: AimState, heads: seq<Angles>, aimMode: real, deadzone: real, handAim: Angles)
    requires s.readbackYaw && |heads| > 0
    ensures Run(s, heads, aimMode, deadzone, handAim).vrYaw == s.view.yaw - heads[0].yaw
    ensures !Run(s, heads, aimMode, deadzone, handAim).readbackYaw
  {
    var s1 := Frame(s, heads[0], aimMode, deadzone, handAim);
    RunKeepsVrYaw(s1, heads[1..], aimMode, deadzone, handAim);
  }

  /** In HEAD_MYAW with no readback pending, aim yaw minus last orientation yaw
      is kept by every frame, so the aim yaw accumulates the sum of the head
      deltas: it ends at its start value plus the last head yaw minus the yaw
      the run started from. */
  lemma {:induction false} HeadMyawRunAccumulates(s: AimState, heads: seq<Angles>, aimMode: real, deadzone: real, handAim: Angles)
    requires IsHeadMyaw(Trunc(aimMode)) && !s.readbackYaw && |heads| > 0
    ensures var s' := Run(s, heads, aimMode, deadzone, handAim);
      && s'.aim.yaw == s'.view.yaw
      && s'.aim.yaw == s.aim.yaw + (heads[|heads| - 1].yaw + s.vrYaw - s.lastOrientation.yaw)
    decreases |heads|
  {
    var s1 := Frame(s, heads[0], aimMode, deadzone, handAim);
    HeadMyawFrame(s, heads[0], aimMode, deadzone, handAim);
    if |heads| > 1 {
      HeadMyawRunAccumulates(s1, heads[1..], aimMode, deadzone, handAim);
      assert heads[1..][|heads[1..]| - 1] == heads[|heads| - 1];
    }
  }

  /** The worked case: head yaws 0, 10, 25 from a zero state end at aim yaw 25. */
  lemma HeadMyawExample(aimMode: real, deadzone: real, handAim: Angles)
    requires Trunc(aimMode) == HeadMyaw
    ensures Run(AimState(Zero, Zero, Zero, Zero, 0.0, false),
                [Angles(0.0, 0.0, 0.0), Angles(0.0, 10.0, 0.0), Angles(0.0, 25.0, 0.0)],
                aimMode, deadzone, handAim).aim.yaw == 25.0
  {
    HeadMyawRunAccumulates(AimState(Zero, Zero, Zero, Zero, 0.0, false),
                           [Angles(0.0, 0.0, 0.0), Angles(0.0, 10.0, 0.0), Angles(0.0, 25.0, 0.0)],
                           aimMode, deadzone, handAim);
  }

  // -----------------------------------------------------------------------
  // The globals, updated in place

  class ViewState {
    var viewAngles: Angles      // cl.viewangles
    var aimAngles: Angles       // cl.aimangles
    var lastOrientation: Angles
    var lastAim: Angles
    var vrYaw: real
    var readbackYaw: bool

    function State(): AimState
      reads this
    {
      AimState(viewAngles, aimAngles, lastOrientation, lastAim, vrYaw, readbackYaw)
    }

    /** The statics start zeroed. */
    constructor ()
      ensures State() == AimState(Zero, Zero, Zero, Zero, 0.0, false)
    {
      viewAngles, aimAngles := Zero, Zero;
      lastOrientation, lastAim := Zero, Zero;
      vrYaw, readbackYaw := 0.0, false;
    }

    /** The reconciliation part of `VR_UpdateScreenContent` (vr.c:732-830). */
    method UpdateAngles(head: Angles, aimMode: real, deadzone: real, handAim: Angles)
      modifies this
      ensures State() == Frame(old(State()), head, aimMode, deadzone, handAim)
    {
      ghost var s0 := State();
      aimAngles := aimAngles.(roll := 0.0);
      var orientation := Orientation(head, vrYaw);
      if readbackYaw {
        vrYaw := viewAngles.yaw - (orientation.yaw - vrYaw);
        readbackYaw := false;
      }
      var mode := Trunc(aimMode);
      ghost var applied := ApplyMode(mode, orientation, s0.view, aimAngles, s0.lastOrientation, s0.lastAim, deadzone, handAim);
      if mode == HeadMyawMpitch {
        var pitch := aimAngles.pitch + orientation.pitch - lastOrientation.pitch;
        var yaw := aimAngles.yaw + orientation.yaw - lastOrientation.yaw;
        viewAngles := viewAngles.(pitch := pitch, yaw := yaw);
        aimAngles := aimAngles.(pitch := pitch, yaw := yaw);
      } else if mode == MouseMyaw {
        viewAngles := viewAngles.(pitch := orientation.pitch, yaw := aimAngles.yaw + orientation.yaw);
      } else if mode == MouseMyawMpitch {
        viewAngles := viewAngles.(pitch := aimAngles.pitch + orientation.pitch, yaw := aimAngles.yaw + orientation.yaw);
      } else if mode == Blended || mode == BlendedNopitch {
        var diffHmdYaw := orientation.yaw - lastOrientation.yaw;
        var diffHmdPitch := orientation.pitch - lastOrientation.pitch;
        var diffAimYaw := aimAngles.yaw - lastAim.yaw;
        viewAngles := viewAngles.(yaw := viewAngles.yaw + diffHmdYaw);
        var diffYaw := viewAngles.yaw - aimAngles.yaw;
        if Abs(Trunc(diffYaw)) as real > deadzone / 2.0 {
          aimAngles := aimAngles.(yaw := aimAngles.yaw + diffHmdYaw);
          viewAngles := viewAngles.(yaw := viewAngles.yaw + diffAimYaw);
        }
        if mode == Blended {
          aimAngles := aimAngles.(pitch := aimAngles.pitch + diffHmdPitch);
        }
        viewAngles := viewAngles.(pitch := orientation.pitch);
      } else if mode == Controller {
        viewAngles := viewAngles.(pitch := orientation.pitch, yaw := orientation.yaw);
        aimAngles := handAim;
      } else {
        var pitch := orientation.pitch;
        var yaw := aimAngles.yaw + orientation.yaw - lastOrientation.yaw;
        viewAngles := viewAngles.(pitch := pitch, yaw := yaw);
        aimAngles := aimAngles.(pitch := pitch, yaw := yaw);
      }
      assert (viewAngles, aimAngles) == applied;
      viewAngles := viewAngles.(roll := orientation.roll);
      lastOrientation := orientation;
      lastAim := aimAngles;
    }

    /** `VR_PushYaw`: request a yaw readback on the next frame. */
    method PushYaw()
      modifies this`readbackYaw
      ensures readbackYaw
    {
      readbackYaw := true;
    }

    /** `VR_SetAngles`: aim, view and last aim all become `angles`. */
    method SetAngles(angles: Angles)
      modifies this`aimAngles, this`viewAngles, this`lastAim
      ensures aimAngles == viewAngles == lastAim == angles
    {
      aimAngles := angles;
      viewAngles := angles;
      lastAim := angles;
    }

    /** `VR_ResetOrientation`: the aim yaw and pitch snap to the view's; with VR
        enabled the last aim is re-based so that the next frame sees no aim
        delta. */
    method ResetOrientation(vrEnabled: real)
      modifies this`aimAngles, this`lastAim
      ensures aimAngles == old(aimAngles).(yaw := viewAngles.yaw, pitch := viewAngles.pitch)
      ensures lastAim == if vrEnabled != 0.0 then aimAngles else old(lastAim)
    {
      aimAngles := aimAngles.(yaw := viewAngles.yaw, pitch := viewAngles.pitch);
      if vrEnabled != 0.0 {
        lastAim := aimAngles;
      }
    }
  }
}

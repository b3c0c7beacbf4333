# Quakespasm-OpenVR: the VR layer's aim, input, weapon-offset and menu logic

A Dafny model of the VR layer of the Quakespasm-OpenVR engine, taken from
`Quake/vr.c` and `Quake/vr_menu.c`. It covers the logic that runs every frame
without drawing, and proves properties of it.

- **Aim/view reconciliation** (module `Aim`). This is the `switch` on
  `vr_aimmode` in `VR_UpdateScreenContent`, which updates `cl.viewangles`,
  `cl.aimangles`, `lastOrientation` and `lastAim`.
  - It also covers the one-shot yaw readback requested by `VR_PushYaw`, and
    `VR_SetAngles` and `VR_ResetOrientation`.
  - The pure function `Frame` specifies one frame. The method
    `ViewState.UpdateAngles` updates the globals in place and is proved
    equal to `Frame`.
  - The lemmas about `Frame` and `Run` state what each aim mode does and
    what holds over a run of frames.
- **Controller input** (module `ControllerInput`).
  - `IdentifyAxes`, `GetAxis` with its 0.25 deadzone, the `DoKey`, `DoTrigger`
    and `DoAxis` edge detectors, and the event sequence of `VR_Move`.
  - The device loop's controller branch: the left-handed swap, then the
    `lastState` snapshot.
  - Snap and smooth turning of the yaw-correction offset `vrYaw`.
  - Key events are returned as sequences, in the order `Key_Event` would
    receive them.
- **Weapon offset table** (module `WeaponOffsets`).
  - `Mod_Weapon` finds or inserts the header's node in the `initialStates`
    list. Nodes live in a `seq`, newest first; alias headers are objects
    with mutable `scale` and `scaleOrigin`.
  - `VR_ClearWeaponMods` restores every saved header.
  - `CopyWithNumeral` builds the per-slot cvar names.
- **VR options menu** (modules `VrMenu` and `Cvars`).
  - `VR_MenuKey` moves the wrapping cursor, and `VR_MenuKeyOption` steps and
    clamps the option's cvar.
  - `Cvar_SetValue` runs the `vr_deadzone` and `vr_enabled` change callbacks.
  - `VR_MenuPrintOptionValue` chooses a label for each option.
- **Pure math helpers** (module `VectorMath`): `TransposeMatrix`,
  `AddVectors`, `Matrix34ToVector` and `RotateVectorByQuaternion`.

C conventions the code relies on are modelled exactly, in module `CNumeric`:

- the float-to-int cast truncates toward zero;
- `abs` works on `int`, so `abs(diffYaw)` truncates the float first;
- `CLAMP(lo, x, hi)` does not require `lo <= hi`.

Angles, axis values and cvar values are modelled as reals.

`VR_MAX_TURN_SPEED` = 10 is defined at `Quake/vr_menu.c:18`.

Some constants live in headers that are not part of this model (`vr.h`,
`openvr_c.h`, `keys.h`). They are taken as follows:

- aim modes 1..7, as the `aimmode[]` table at `Quake/vr_menu.c:179` shows;
- the twelve `VR_OPTION_*` values 0..11 in the order the menu draws them,
  with `VR_OPTION_MAX` = 12;
- `VR_MAX_MOVEMENT_MODE` = 1;
- `VR_MOVEMENT_MODE_FOLLOW_HAND` = 0 and `VR_MOVEMENT_MODE_RAW_INPUT` = 1,
  the two labelled cases at `Quake/vr_menu.c:128-129`. `VrMenu.OptionLabel`
  and `VrMenu.MovementModeLabelAfterStep` depend on these values;
- the OpenVR button ids ApplicationMenu = 1, Grip = 2, A = 7 and
  SteamVR_Touchpad = 32, with `ButtonMaskFromId(id)` = `1 << id`;
- `k_unControllerStateAxisCount` = 5.

Inputs that come from outside the modelled code are parameters:

- the head's Euler angles for the frame;
- the dominant hand's rotation `cl.handrot[1]`;
- the tracked devices' samples;
- the values of the offset cvars;
- `GL_MAX_SAMPLES`;
- whether `VR_Enable` succeeds.

## Model

| member | source | states |
|---|---|---|
| CNumeric.Trunc | Quake/vr.c:742 | The C cast to `int` truncates toward zero: the result is within one of `x`, on the same side of zero. |
| CNumeric.Abs | Quake/vr.c:783 | C's integer `abs` returns `n` or `-n` and is never negative. |
| CNumeric.AbsReal | Quake/vr.c:1181 | `fabsf` returns the non-negative magnitude of its argument. |
| CNumeric.Clamp | Quake/vr_menu.c:200 | `CLAMP` returns `lo` below the range, `x` inside it and `hi` above it. When `hi < lo`, it returns `hi` for every `x` at or above `lo`. The result lies in `[lo, hi]` whenever that range is non-empty. |
| CNumeric.ClampReal | Quake/vr.c:332 | The float `CLAMP` has the same four properties over reals. |
| SeqSearch.FirstIndexOf | Quake/vr.c:372-379 | The first-match search returns -1 exactly when the element is absent. Otherwise it returns an index holding the element with no earlier occurrence. |
| VectorMath.TransposeMatrix | Quake/vr.c:218-226 | The nested loop fills every entry `out[i][j]` with `m[j][i]`, so it returns the transpose. |
| VectorMath.TransposeInvolutive | Quake/vr.c:218-226 | Transposing twice gives back the original matrix. |
| VectorMath.AddVectors | Quake/vr.c:228-237 | Subtracting either operand from the sum gives back the other operand. |
| VectorMath.Matrix34ToVector | Quake/vr.c:275-284 | The result is the translation column (column 3) of the 3x4 pose. |
| VectorMath.PositionOfPose | Quake/vr.c:275-284 | A pose built from any rotation `r` and translation `t` reads back as `t`. |
| VectorMath.RotateMatchesFormula | Quake/vr.c:241-271 | The component-wise code equals the vector formula 2(u·v)u + (s²−u·u)v + 2s(u×v). |
| VectorMath.RotateByIdentity | Quake/vr.c:241-271 | The identity quaternion leaves every vector unchanged. |
| VectorMath.RotationNormIdentity | Quake/vr.c:241-271 | For every quaternion, the rotated squared length is the squared length times \|q\|⁴. |
| VectorMath.RotationPreservesNorm | Quake/vr.c:241-271 | A unit quaternion preserves vector length, such as the eye offsets rotated at 682-683. |
| Aim.Orientation | Quake/vr.c:201-210 | `QuatToYawPitchRoll` keeps the head's pitch and roll and offsets the yaw by exactly `vrYaw`. |
| Aim.RollFollowsHead | Quake/vr.c:732-827 | In every mode the view roll becomes the head roll. The aim roll is 0 in every mode except CONTROLLER, where the aim is the hand's rotation. |
| Aim.FrameRecordsLast | Quake/vr.c:829-830 | After a frame, `lastOrientation` is this frame's orientation, `lastAim` equals the final aim, and the readback flag is clear. |
| Aim.HeadMyawFrame | Quake/vr.c:745-749 | In HEAD_MYAW and for unknown modes, view and aim pitch are the head pitch. View and aim yaw both become the old aim yaw plus the head-yaw delta. |
| Aim.HeadMyawMpitchFrame | Quake/vr.c:752-755 | In HEAD_MYAW_MPITCH, view and aim pitch both become the old aim pitch plus the head-pitch delta, and the yaw follows the HEAD_MYAW rule. |
| Aim.MouseModesFrame | Quake/vr.c:758-767 | In the mouse modes the aim is unchanged apart from its roll, and the view yaw is aim yaw plus head yaw. The view pitch is the head pitch, plus the aim pitch in MOUSE_MYAW_MPITCH. |
| Aim.BlendedFrame | Quake/vr.c:769-794 | In the blended modes the view yaw always gains the head delta. Only when the truncated view-aim difference exceeds half the deadzone does the aim yaw gain the head delta and the view yaw the aim delta. Aim pitch follows the head only in BLENDED, and view pitch is the head pitch. |
| Aim.PullsAimThreshold | Quake/vr.c:783 | Because `abs` truncates, the blended test fires exactly when \|diff\| reaches floor(deadzone/2) + 1. |
| Aim.BlendedBoundaryAtThirty | Quake/vr.c:783 | At deadzone 30, differences of ±15.5 do not pull the aim although they exceed 15, while 16 and −16 do. |
| Aim.BlendedDriftFrame | Quake/vr.c:769-794 | After one blended frame, the view/aim yaw difference is either inside the deadzone or, after a pull, the old view yaw minus the previous frame's recorded aim. A single frame never leaves a difference larger than both of those. |
| Aim.BlendedRunDrift | Quake/vr.c:769-830 | Over any run of blended frames, the final difference is inside the deadzone or equal to the start's view yaw minus the aim it recorded last frame (its `lastAim`, not its current aim). This is because each frame records its aim as the next frame's `lastAim`. |
| Aim.BlendedStaysWithinDeadzone | Quake/vr.c:769-830 | Start from a settled state inside the deadzone. Then in the blended modes head and aim never drift apart: the yaw difference stays below floor(deadzone/2) + 1 for every run. |
| Aim.BlendedMouseStaysWithinDeadzone | Quake/vr.c:769-830 | Mouse turns of the aim between frames do not break the invariant. From a settled state inside the deadzone, every blended run with any mouse deltas ends settled and inside the deadzone. |
| Aim.BlendedAfterSetAngles | Quake/vr.c:1116-1121 | After `VR_SetAngles` makes view, aim and last aim equal, the blended modes keep view and aim within the deadzone for good. |
| Aim.ControllerFrame | Quake/vr.c:797-825 | In CONTROLLER mode the view is the head orientation and the aim is the hand's rotation. |
| Aim.ReadbackFrame | Quake/vr.c:736-740 | A pending readback sets `vrYaw` so that this frame's head yaw maps onto the current view yaw, then clears the flag. Without a pending readback, `vrYaw` is unchanged. |
| Aim.RunKeepsVrYaw | Quake/vr.c:736-740 | With no readback pending, no run of frames changes `vrYaw` or raises the flag. |
| Aim.PushYawOnce | Quake/vr.c:548-551 | After a push, the first frame applies the readback and every later frame keeps that offset, so a push acts exactly once. |
| Aim.HeadMyawRunAccumulates | Quake/vr.c:745-749 | In HEAD_MYAW, a run of frames leaves aim yaw equal to view yaw. The aim yaw is its start value plus the sum of the head deltas, which telescopes to the last head yaw minus the starting one. |
| Aim.HeadMyawExample | Quake/vr.c:745-749 | Head yaws 0, 10 and 25 from a zero state end with aim yaw 25. |
| Aim.ViewState.constructor | Quake/vr.c:99-111 | The statics start zeroed with no readback pending. |
| Aim.ViewState.UpdateAngles | Quake/vr.c:732-830 | The in-place update of the globals leaves exactly the state that `Frame` specifies. |
| Aim.ViewState.PushYaw | Quake/vr.c:548-551 | A yaw readback is requested for the next frame. |
| Aim.ViewState.SetAngles | Quake/vr.c:1116-1121 | Aim, view and last aim all become the given angles. |
| Aim.ViewState.ResetOrientation | Quake/vr.c:1123-1131 | Aim yaw and pitch snap to the view's, keeping the aim roll. `lastAim` is re-based only when VR is enabled. |
| ControllerInput.FirstSlots | Quake/vr.c:1144-1166 | Each identified slot is in `[-1, 5)`. |
| ControllerInput.KeyEdge | Quake/vr.c:1186-1194 | At most one event is emitted. An event is present exactly when the button's state differs from last frame's, and it carries the new state. |
| ControllerInput.KeyRunSettled | Quake/vr.c:1186-1194 | A button that settles into a state emits one event for the change and no repeats while held or released. |
| ControllerInput.GetAxis | Quake/vr.c:1168-1184 | The result is 0 when the trackpad+joystick sum lies inside the 0.25 deadzone, and the raw sum otherwise. It is never a non-zero value inside the deadzone. |
| ControllerInput.AxisDeadzoneCases | Quake/vr.c:1181-1183 | A lone trackpad at 0.2 reads 0, and at 0.3 reads 0.3. |
| ControllerInput.TriggerEdge | Quake/vr.c:1196-1207 | With no trigger slot nothing is emitted. Otherwise one event is emitted exactly when "x > 0.5" changed, carrying the new state. |
| ControllerInput.AxisEdges | Quake/vr.c:1209-1227 | The count of events is the number of changed sign classes (at most two). The positive key comes first and the negative key last, each carrying its new state. |
| ControllerInput.AxisFlipToNegative | Quake/vr.c:1209-1227 | A flip from positive to negative releases the positive key and then presses the negative key. |
| ControllerInput.AxisJitterIgnored | Quake/vr.c:1209-1227 | Movement that stays inside the deadzone emits nothing. |
| ControllerInput.UnchangedControllersEmitNothing | Quake/vr.c:1229-1257 | If neither controller changed since last frame, `VR_Move` emits no event, in the menu or outside it. |
| ControllerInput.Sign | Quake/vr.c:1288 | The snap class is 1, −1 or 0 exactly when the axis is positive, negative or zero. |
| ControllerInput.SnapStep | Quake/vr.c:1285-1294 | A snap step records the new class. It moves `vrYaw` by `-snap*vr_snap_turn` only on a class change, and never when the axis is zero. |
| ControllerInput.SnapHoldTurnsOnce | Quake/vr.c:1285-1294 | Holding the stick to one side for any number of frames turns exactly once, when the hold starts. |
| ControllerInput.ControllerIndex | Quake/vr.c:703-712 | Only hand roles get a slot. The left hand takes slot 1 exactly when left-handed mode is on. |
| ControllerInput.HandsSwap | Quake/vr.c:703-712 | The hands always fill different slots, and left-handed mode exchanges them. |
| ControllerInput.IngestSnapshotsLast | Quake/vr.c:696-721 | A valid hand controller's sample becomes its slot's state, and the replaced state becomes `lastState`. The other slot is untouched, and an invalid pose changes nothing. |
| ControllerInput.IdentifiedSlotsStay | Quake/vr.c:1144-1147 | Once the axes are identified, no later devices change the slots. |
| ControllerInput.ScanFindsFirst | Quake/vr.c:1149-1163 | Setting a slot only while it is still -1 finds the first axis of each kind. |
| ControllerInput.ScanAxes | Quake/vr.c:1149-1163 | The loop returns the first trackpad, joystick and trigger slot, or -1 for each absent kind. |
| ControllerInput.VrInput.constructor | Quake/vr.c:1139-1142 | The slots start at -1, unidentified, with both controllers released. |
| ControllerInput.VrInput.IdentifyAxes | Quake/vr.c:1144-1166 | Only the first call sets the slots, to the first slot of each kind. Every call leaves the axes identified. |
| ControllerInput.VrInput.UpdateDevice | Quake/vr.c:696-721 | The globals after one device are those `IngestDevice` specifies. |
| ControllerInput.VrInput.UpdateDevices | Quake/vr.c:656-729 | The device loop leaves the globals that `IngestAll` specifies for the whole device sequence. |
| ControllerInput.VrInput.MenuNavigation | Quake/vr.c:1246-1254 | The menu loop emits the axis and trigger events of controller 0, then of controller 1. |
| ControllerInput.VrInput.VrMove | Quake/vr.c:1229-1299 | With VR off there are no events and nothing turns. Otherwise the events come in the fixed binding order, then menu navigation or the fire trigger. Outside the menu, `vrYaw` and `lastSnap` take one turning step from the right stick. |
| WeaponOffsets.StyledAtTunedScale | Quake/vr.c:386-396 | A header without a slot keeps its values. At world scale 0.75, a header with a slot gets its original scale times the slot scale, and its original origin plus the slot offset. |
| WeaponOffsets.ModStepSavesOnce | Quake/vr.c:354-384 | The list keeps one node per header with in-range slots. A header already in the list leaves the list unchanged. |
| WeaponOffsets.FirstSightSaves | Quake/vr.c:363-384 | On first sight, a new front node saves the header's current values. Its slot is the first one whose id is the model name, or -1 exactly when no id matches. |
| WeaponOffsets.ModStepIdempotent | Quake/vr.c:354-397 | A second call for the same header, under any name, leaves the list and the header as the first call did. |
| WeaponOffsets.WeaponMods.constructor | Quake/vr.c:352 | The list starts empty. |
| WeaponOffsets.WeaponMods.ModWeapon | Quake/vr.c:354-397 | The list and the header's values after the call are those `ModStep` specifies, and the list invariant is kept. |
| WeaponOffsets.WeaponMods.FindState | Quake/vr.c:356-360 | The list walk stops at the first node for the header, or returns -1. |
| WeaponOffsets.WeaponMods.ClearWeaponMods | Quake/vr.c:399-413 | Every saved header gets back its original scale and origin, and the list is empty. |
| WeaponOffsets.FindCvarId | Quake/vr.c:372-379 | The slot search returns the first slot whose id cvar is the name, or -1. |
| WeaponOffsets.PrependKeepsListOk | Quake/vr.c:361-364 | Prepending a node for a header not yet listed keeps one node per header. |
| WeaponOffsets.ApplyOffsets | Quake/vr.c:386-396 | The header gets the styled values computed from the saved originals, and is untouched when there is no slot. |
| WeaponOffsets.CopyWithNumeral | Quake/vr.c:415-423 | The copy has the same length and prefix. Its last two characters are the decimal digit characters of `i / 10` and `i % 10`, so they are both in `0`..`9` and spell `i`. |
| WeaponOffsets.CopyWithNumeralInjective | Quake/vr.c:415-423 | Different slot numbers give different cvar names. |
| WeaponOffsets.LastSlotName | Quake/vr.c:425-428 | The twentieth slot, numbered i + 1, is named `vr_wofs_id_20`. |
| Cvars.DeadzoneCallback | Quake/vr.c:329-335 | The deadzone ends up in [0, 70]. It is unchanged inside that range and pinned to the nearer end outside it. |
| Cvars.EnabledCallback | Quake/vr.c:316-325 | `vr_enabled` keeps its value when it is 0 or VR starts, and is otherwise forced to 0. |
| Cvars.EnabledCallbackIdempotent | Quake/vr.c:323-324 | The reset writes 0 through `Cvar_SetValueQuick`, which runs the callback again; that run keeps 0, so the callback is a fixed point of its own output. |
| Cvars.SetValueEffect | Quake/vr.c:472-484 | A write changes only its own cvar. The deadzone always lands in [0, 70], and every cvar without a callback takes the value as given. `vr_enabled` ends at 0 exactly when the value written is 0 or VR fails to start. |
| Cvars.DeadzoneCallbackIdempotent | Quake/vr.c:329-335 | Running the callback on its own output changes nothing. |
| Cvars.CvarStore.SetCvarValue | Quake/vr.c:316-335 | The in-place store followed by the callback leaves the values that `SetValue` specifies. |
| VrMenu.OptionIndex | Quake/vr_menu.c:332-385 | Every option has a menu line in `[0, 12)` that holds it. |
| VrMenu.OptionLinesDistinct | Quake/vr_menu.c:332-385 | Lines and options are in one-to-one correspondence. |
| VrMenu.CursorAfter | Quake/vr_menu.c:262-304 | The cursor stays in `[0, 12)`. UP is −1 and DOWN is +1, both modulo 12, and every other key, ESCAPE included, leaves it unchanged. |
| VrMenu.UpDownInverse | Quake/vr_menu.c:271-285 | UP undoes DOWN and DOWN undoes UP. |
| VrMenu.Presses | Quake/vr_menu.c:271-285 | Any number of presses keeps the cursor in range. |
| VrMenu.DownPresses | Quake/vr_menu.c:279-285 | `n` DOWN presses move the cursor `n` lines forward, modulo 12. |
| VrMenu.DownFullRound | Quake/vr_menu.c:279-285 | Twelve DOWN presses come back to the start. |
| VrMenu.DownReaches | Quake/vr_menu.c:279-285 | Every option is reached from any line within one round of DOWN presses. |
| VrMenu.AimModeStep | Quake/vr_menu.c:198-203 | The new aim mode is `clamp(1, trunc(v)∓1, 7)`, always a valid mode that saturates at both ends. |
| VrMenu.StepStaysInRange | Quake/vr_menu.c:186-255 | After any key, each option lies in its range, from any previous value. Deadzone is in [0, 70] (because of the callback) and MSAA in [0, max−1]. |
| VrMenu.StepTouchesOneOption | Quake/vr_menu.c:186-255 | Editing one option leaves every other cvar unchanged. |
| VrMenu.RightEqualsEnter | Quake/vr_menu.c:287-300 | RIGHT and ENTER step every option identically, because only LEFT decrements. |
| VrMenu.StepIntInverse | Quake/vr_menu.c:204-243 | Away from the range ends, one step right adds exactly `diff` and one step left then restores the truncated value. |
| VrMenu.EnabledToggles | Quake/vr_menu.c:187-188 | ENABLED becomes 1 from a truncated 0 when VR starts, and 0 otherwise, whatever the direction. |
| VrMenu.SnapTurnSteps | Quake/vr_menu.c:239-243 | Snap turn moves through 0, 45 and 90 in steps of 45, saturating at the ends. |
| VrMenu.AimModeNames | Quake/vr_menu.c:60-85 | The seven modes have seven distinct names, and any other value is labelled BLENDED. |
| VrMenu.OffLabels | Quake/vr_menu.c:86-118 | Deadzone, depth and size read "off" exactly when the value is ≤ 0. Otherwise the deadzone label shows the value. |
| VrMenu.CrosshairLabels | Quake/vr_menu.c:94-102 | The crosshair label is "line" exactly for 2, "point" exactly for 1, and "off" otherwise. |
| VrMenu.AimModeLabelAfterStep | Quake/vr_menu.c:60-85 | After any aim-mode step the label names the mode now set, never the fallback. |
| VrMenu.MovementModeLabelAfterStep | Quake/vr_menu.c:125-130 | Movement-mode stepping never reaches a value without a label. |
| VrMenu.OptionsMenu.constructor | Quake/vr_menu.c:16 | The cursor starts on the first option. |
| VrMenu.OptionsMenu.KeyOptionOn | Quake/vr_menu.c:165-260 | The read-step-clamp-write leaves the cvars that `KeyOption` specifies. |
| VrMenu.OptionsMenu.MenuKey | Quake/vr_menu.c:262-304 | The cursor moves as `CursorAfter` says. LEFT, RIGHT and ENTER edit the option under the old cursor, and every other key leaves the cvars unchanged. |

## Left out

- OpenGL and OpenVR calls are not modelled: framebuffers, the compositor, session setup, `VR_SetMatrices`, pose waits, and device class and role queries. Device samples are parameters instead.
- `VR_SetTrackingSpace` is not modelled. Its guard `n >= 0 \|\| n < 3` (Quake/vr.c:1135) is always true.
- The transcendental functions are not modelled: the atan2/asin part of `QuatToYawPitchRoll`, `Matrix34ToQuaternion`, `Vec3RotateZ`, `HmdVec3RotateY` and the FOV computation. The head's Euler angles are an input.
- Room-scale movement and eye-offset placement (Quake/vr.c:661-693, 839-847) are not modelled, because they depend on these transcendental functions.
- CONTROLLER mode's matrix composition and `SetHandPos` (Quake/vr.c:800-822, 619-630) are not modelled, because they call rotation helpers that are not part of this model. The hand rotation `cl.handrot[1]` is an input instead.
- The `Mod_Weapon` call inside CONTROLLER mode is modelled on its own, as `WeaponMods.ModWeapon`.
- The movement-vector projection and speed scaling of `VR_Move` (Quake/vr.c:1259-1281) are not modelled, because they rely on `AngleVectors` and on cvars defined elsewhere.
- HUD, crosshair, status bar and menu drawing, `M_*` primitives and menu sounds are not modelled.
- The "No VR offset" console message is not modelled.
- Number formatting for labels (`%.0f`, `%d`) is abstracted as the `Formatted` label carrying the format and the value.
- Cvar registration and the default weapon table (`VID_VR_Init`, `InitWeaponCVar(s)`, `InitAllWeaponCVars`) are not modelled. The offset table's current values are a parameter.
- `VR_Enable` is not modelled: whether it succeeds is the `enableSucceeds` parameter of the `vr_enabled` callback.
- `GL_MAX_SAMPLES` is the `maxSamples` parameter of the MSAA option.
- The early return of `Cvar_SetValue` when the value is unchanged is not modelled; the change callbacks always run. Both callbacks leave their own results unchanged, so this matters only for a stored value that a callback would not have produced.
- `Key_Event` is modelled as the returned sequence of events. What the key system does with them is not part of this model.
- IEEE single-precision rounding is not modelled: angles, axis values and cvar values are reals. Float-to-int casts of values out of `int` range are undefined in C and are not modelled.
- `VR_AddOrientationToViewAngles` and the other rendering entry points are not modelled.
- CopyWithNumeral: the model requires `0 <= i < 100`, the range the source uses (1..20). Values of `i` of 100 or more, which the source's two-digit write would render with a non-digit tens character, are excluded.
- The menu steps the deadzone up to 180, but the `vr_deadzone` callback caps it at 70. The model states the combined effect of the two, so the deadzone bound proved for the menu is 70.
- VrMenu.StepStaysInRange: the MSAA bound is stated only when `GL_MAX_SAMPLES` is at least 1. With a smaller maximum, `CLAMP(0, x, max - 1)` returns `max - 1`, a negative value, for every `x >= 0`, and 0 for `x < 0`.
- The Escape key of `VR_MenuKey` (Quake/vr_menu.c:265-269) syncs the cvars to the video menu, plays a sound and returns to the options menu (`VID_SyncCvars`, `M_Menu_Options_f`). Those calls are not modelled. `VrMenu.OptionsMenu.MenuKey` states only that Escape leaves the cursor and the cvars unchanged.

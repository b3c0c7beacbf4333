/** The VR console variables the options menu edits, and the two change
    callbacks the VR layer registers on them (Quake/vr.c:316-335, 471-484). */
module Cvars {
  import opened CNumeric

  /** The cvars behind the menu's options, in menu order. */
  datatype Cvar =
    | Enabled | AimMode | Deadzone | Crosshair | CrosshairDepth | CrosshairSize
    | CrosshairAlpha | WorldScale | MovementMode | SnapTurn | TurnSpeed | Msaa

  /** The current `.value` of each cvar. */
  datatype Settings = Settings(
    enabled: real, aimMode: real, deadzone: real, crosshair: real, crosshairDepth: real,
    crosshairSize: real, crosshairAlpha: real, worldScale: real, movementMode: real,
    snapTurn: real, turnSpeed: real, msaa: real)

  function Get(s: Settings, c: Cvar): real
  {
    match c
    case Enabled => s.enabled
    case AimMode => s.aimMode
    case Deadzone => s.deadzone
    case Crosshair => s.crosshair
    case CrosshairDepth => s.crosshairDepth
    case CrosshairSize => s.crosshairSize
    case CrosshairAlpha => s.crosshairAlpha
    case WorldScale => s.worldScale
    case MovementMode => s.movementMode
    case SnapTurn => s.snapTurn
    case TurnSpeed => s.turnSpeed
    case Msaa => s.msaa
  }

  /** Storing a value into one cvar: that cvar reads back the value, every
      other cvar reads what it read before. */
  function Set(s: Settings, c: Cvar, v: real): (r: Settings)
    ensures Get(r, c) == v
    ensures forall c' :: c' != c ==> Get(r, c') == Get(s, c')
  {
    match c
    case Enabled => s.(enabled := v)
    case AimMode => s.(aimMode := v)
    case Deadzone => s.(deadzone := v)
    case Crosshair => s.(crosshair := v)
    case CrosshairDepth => s.(crosshairDepth := v)
    case CrosshairSize => s.(crosshairSize := v)
    case CrosshairAlpha => s.(crosshairAlpha := v)
    case WorldScale => s.(worldScale := v)
    case MovementMode => s.(movementMode := v)
    case SnapTurn => s.(snapTurn := v)
    case TurnSpeed => s.(turnSpeed := v)
    case Msaa => s.(msaa := v)
  }

  /** Upper bound `VR_Deadzone_f` enforces, in degrees. */
  const MaxDeadzone := 70.0

  /** `VR_Deadzone_f`: the value written back after a deadzone change. */
  function DeadzoneCallback(v: real): (r: real)
    ensures 0.0 <= r <= MaxDeadzone
    ensures 0.0 <= v <= MaxDeadzone ==> r == v
    ensures v < 0.0 ==> r == 0.0
    ensures v > MaxDeadzone ==> r == MaxDeadzone
  {
    var deadzone := ClampReal(0.0, v, 70.0);
    if deadzone != v then deadzone else v
  }

  /** `VR_Enabled_f`: turning VR on keeps the value only when the session
      starts (`enableSucceeds`, the outcome of `VR_Enable`); otherwise the
      value is forced back to 0. */
  function EnabledCallback(v: real, enableSucceeds: bool): (r: real)
    ensures r == v || r == 0.0
    ensures v == 0.0 || enableSucceeds ==> r == v
    ensures v != 0.0 && !enableSucceeds ==> r == 0.0
  {
    if v == 0.0 then v
    else if !enableSucceeds then 0.0
    else v
  }

  /** `Cvar_SetValue` on one of these cvars: store, then run the cvar's
      callback if it has one. */
  function SetValue(s: Settings, c: Cvar, v: real, enableSucceeds: bool): Settings
  {
    match c
    case Deadzone => Set(s, c, DeadzoneCallback(v))
    case Enabled => Set(s, c, EnabledCallback(v, enableSucceeds))
    case _ => Set(s, c, v)
  }

  /** A write changes only its own cvar; the deadzone always ends in
      [0, 70] and every other cvar except `vr_enabled` takes the value as
      given. */
  lemma SetValueEffect(s: Settings, c: Cvar, v: real, enableSucceeds: bool)
    ensures var s' := SetValue(s, c, v, enableSucceeds);
      && (forall c' :: c' != c ==> Get(s', c') == Get(s, c'))
      && (c == Deadzone ==> 0.0 <= Get(s', c) <= MaxDeadzone)
      && (c != Deadzone && c != Enabled ==> Get(s', c) == v)
      && (c == Enabled ==> (Get(s', c) == 0.0 <==> v == 0.0 || !enableSucceeds))
  {
  }

  /** The reset to 0 goes through `Cvar_SetValueQuick`, which runs the
      callback again on 0; that second run keeps 0, so the callback is a
      fixed point on its own output and the re-entry ends there. */
  lemma EnabledCallbackIdempotent(v: real, enableSucceeds: bool)
    ensures EnabledCallback(EnabledCallback(v, enableSucceeds), enableSucceeds) == EnabledCallback(v, enableSucceeds)
    ensures EnabledCallback(0.0, enableSucceeds) == 0.0
  {
  }

  /** Writing back what the callback produced leaves the deadzone as it is. */
  lemma DeadzoneCallbackIdempotent(v: real)
    ensures DeadzoneCallback(DeadzoneCallback(v)) == DeadzoneCallback(v)
  {
  }

  class CvarStore {
    var values: Settings

    constructor (initial: Settings)
      ensures values == initial
    {
      values := initial;
    }

    /** `Cvar_SetValue(name, v)` for the cvar `c`. */
    method SetCvarValue(c: Cvar, v: real, enableSucceeds: bool)
      modifies this
      ensures values == SetValue(old(values), c, v, enableSucceeds)
    {
      values := Set(values, c, v);
      if c == Deadzone {
        var deadzone := ClampReal(0.0, values.deadzone, 70.0);
        if deadzone != values.deadzone {
          values := Set(values, Deadzone, deadzone);
        }
      } else if c == Enabled {
        if values.enabled != 0.0 && !enableSucceeds {
          values := Set(values, Enabled, 0.0);
        }
      }
    }
  }
}

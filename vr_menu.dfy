/** The VR options menu (Quake/vr_menu.c): a cursor over the options that
    wraps at both ends, left/right/enter stepping the option's cvar within a
    fixed range, and the label each option shows for its cvar's value.
    Drawing, sounds and leaving the menu are not modelled. */
module VrMenu {
  import opened CNumeric
  import opened Keys
  import opened Cvars
  import Aim

  /** `VR_OPTION_MAX`: the number of options. */
  const OptionCount := 12

  /** The option on menu line `i`: `VR_OPTION_ENABLED` ... `VR_OPTION_MSAA`. */
  function OptionAt(i: int): Cvar
    requires 0 <= i < OptionCount
  {
    [Enabled, AimMode, Deadzone, Crosshair, CrosshairDepth, CrosshairSize,
     CrosshairAlpha, WorldScale, MovementMode, SnapTurn, TurnSpeed, Msaa][i]
  }

  /** The menu line of an option. */
  function OptionIndex(c: Cvar): (i: int)
    ensures 0 <= i < OptionCount && OptionAt(i) == c
  {
    match c
    case Enabled => 0
    case AimMode => 1
    case Deadzone => 2
    case Crosshair => 3
    case CrosshairDepth => 4
    case CrosshairSize => 5
    case CrosshairAlpha => 6
    case WorldScale => 7
    case MovementMode => 8
    case SnapTurn => 9
    case TurnSpeed => 10
    case Msaa => 11
  }

  /** Every line holds a different option, so lines and options are in
      one-to-one correspondence. */
  lemma OptionLinesDistinct(i: int)
    requires 0 <= i < OptionCount
    ensures OptionIndex(OptionAt(i)) == i
  {
  }

  // -----------------------------------------------------------------------
  // Cursor

  /** The cursor after `VR_MenuKey(key)`: up and down move by one and wrap at
      both ends; every other key leaves it where it is. */
  function CursorAfter(cursor: int, key: Key): (r: int)
    requires 0 <= cursor < OptionCount
    ensures 0 <= r < OptionCount
    ensures key == UpArrow ==> r == (cursor - 1) % OptionCount
    ensures key == DownArrow ==> r == (cursor + 1) % OptionCount
    ensures key != UpArrow && key != DownArrow ==> r == cursor
  {
    match key
    case UpArrow =>
      var c := cursor - 1;
      if c < 0 then OptionCount - 1 else c
    case DownArrow =>
      var c := cursor + 1;
      if c >= OptionCount then 0 else c
    case _ => cursor
  }

  /** Up undoes down and down undoes up. */
  lemma UpDownInverse(cursor: int)
    requires 0 <= cursor < OptionCount
    ensures CursorAfter(CursorAfter(cursor, DownArrow), UpArrow) == cursor
    ensures CursorAfter(CursorAfter(cursor, UpArrow), DownArrow) == cursor
  {
  }

  /** The cursor after `n` presses of one key. */
  function Presses(cursor: int, key: Key, n: nat): (r: int)
    requires 0 <= cursor < OptionCount
    ensures 0 <= r < OptionCount
  {
    if n == 0 then cursor else CursorAfter(Presses(cursor, key, n - 1), key)
  }

  /** `n` presses of down move the cursor `n` lines forward, modulo the
      option count. */
  lemma {:induction false} DownPresses(cursor: int, n: nat)
    requires 0 <= cursor < OptionCount
    ensures Presses(cursor, DownArrow, n) == (cursor + n) % OptionCount
  {
    if n > 0 {
      DownPresses(cursor, n - 1);
      var p := (cursor + n - 1) % OptionCount;
      assert (p + 1) % OptionCount == (cursor + n) % OptionCount;
    }
  }

  /** A full round of down presses comes back to the start. */
  lemma DownFullRound(cursor: int)
    requires 0 <= cursor < OptionCount
    ensures Presses(cursor, DownArrow, OptionCount) == cursor
  {
    DownPresses(cursor, OptionCount);
  }

  /** Every option is reached from any cursor within one round of down
      presses. */
  lemma DownReaches(cursor: int, target: int)
    requires 0 <= cursor < OptionCount && 0 <= target < OptionCount
    ensures Presses(cursor, DownArrow, if cursor <= target then target - cursor else target - cursor + OptionCount) == target
  {
    DownPresses(cursor, if cursor <= target then target - cursor else target - cursor + OptionCount);
  }

  // -----------------------------------------------------------------------
  // Stepping an option

  /** Only the left arrow steps an option down; right and enter step it up. */
  predicate IsLeft(key: Key)
  {
    key == LeftArrow
  }

  /** The keys that edit the option under the cursor. */
  predicate EditsOption(key: Key)
  {
    key == LeftArrow || key == RightArrow || key == Enter
  }

  /** An integer option: truncate, step by `diff` and `CLAMP` to `[lo, hi]`. */
  function StepInt(v: real, isLeft: bool, diff: int, lo: int, hi: int): int
  {
    var intValue := Trunc(v);
    Clamp(lo, if isLeft then intValue - diff else intValue + diff, hi)
  }

  /** A real-valued option: step by `diff` and `CLAMP` to `[lo, hi]`. */
  function StepReal(v: real, isLeft: bool, diff: real, lo: real, hi: real): real
  {
    ClampReal(lo, if isLeft then v - diff else v + diff, hi)
  }

  /** The `aimmode[]` table of `VR_MenuKeyOption`. */
  const AimModes := [1, 2, 3, 4, 5, 6, 7]

  /** The value `VR_MenuKeyOption` passes to `Cvar_SetValue` for option `c`
      whose cvar holds `v`; `maxSamples` is `GL_MAX_SAMPLES`. */
  function OptionValue(c: Cvar, v: real, isLeft: bool, maxSamples: int): real
  {
    match c
    case Enabled => if Trunc(v) == 0 then 1.0 else 0.0
    case AimMode =>
      var intValue := Clamp(AimModes[0], if isLeft then Trunc(v) - 1 else Trunc(v) + 1, |AimModes|) - 1;
      AimModes[intValue] as real
    case Deadzone => StepInt(v, isLeft, 5, 0, 180) as real
    case Crosshair => StepInt(v, isLeft, 1, 0, 2) as real
    case CrosshairDepth => StepInt(v, isLeft, 32, 0, 4096) as real
    case CrosshairSize => StepInt(v, isLeft, 1, 0, 32) as real
    case CrosshairAlpha => StepReal(v, isLeft, 0.05, 0.0, 1.0)
    case WorldScale => StepReal(v, isLeft, 0.05, 0.0, 2.0)
    case MovementMode => StepInt(v, isLeft, 1, 0, 1) as real
    case SnapTurn => StepInt(v, isLeft, 45, 0, 90) as real
    case TurnSpeed => StepReal(v, isLeft, 0.25, 0.0, 10.0)
    case Msaa => StepInt(v, isLeft, 1, 0, maxSamples - 1) as real
  }

  /** `VR_MenuKeyOption(key, option)` on the cvar values. */
  function KeyOption(s: Settings, key: Key, c: Cvar, maxSamples: int, enableSucceeds: bool): Settings
  {
    SetValue(s, c, OptionValue(c, Get(s, c), IsLeft(key), maxSamples), enableSucceeds)
  }

  /** The aim-mode option always lands on a valid mode: one step from the
      truncated value, saturating at HEAD_MYAW and CONTROLLER. */
  lemma AimModeStep(s: Settings, key: Key, maxSamples: int, enableSucceeds: bool)
    ensures var m := Get(KeyOption(s, key, AimMode, maxSamples, enableSucceeds), AimMode);
      && m == Clamp(Aim.HeadMyaw, if IsLeft(key) then Trunc(s.aimMode) - 1 else Trunc(s.aimMode) + 1, Aim.Controller) as real
      && (Aim.HeadMyaw as real) <= m <= (Aim.Controller as real)
  {
  }

  /** Each option stays inside its range after any key, whatever it held
      before. The deadzone's range is that of its callback, [0, 70], not
      the menu's [0, 180]. MSAA stays in range when the driver reports at
      least one sample. */
  lemma StepStaysInRange(s: Settings, key: Key, c: Cvar, maxSamples: int, enableSucceeds: bool)
    ensures var v := Get(KeyOption(s, key, c, maxSamples, enableSucceeds), c);
      && (c == Enabled ==> v == 0.0 || v == 1.0)
      && (c == AimMode ==> 1.0 <= v <= 7.0)
      && (c == Deadzone ==> 0.0 <= v <= MaxDeadzone)
      && (c == Crosshair ==> 0.0 <= v <= 2.0)
      && (c == CrosshairDepth ==> 0.0 <= v <= 4096.0)
      && (c == CrosshairSize ==> 0.0 <= v <= 32.0)
      && (c == CrosshairAlpha ==> 0.0 <= v <= 1.0)
      && (c == WorldScale ==> 0.0 <= v <= 2.0)
      && (c == MovementMode ==> 0.0 <= v <= 1.0)
      && (c == SnapTurn ==> 0.0 <= v <= 90.0)
      && (c == TurnSpeed ==> 0.0 <= v <= 10.0)
      && (c == Msaa && maxSamples >= 1 ==> 0.0 <= v <= (maxSamples - 1) as real)
  {
  }

  /** Editing one option leaves every other cvar as it was. */
  lemma StepTouchesOneOption(s: Settings, key: Key, c: Cvar, other: Cvar, maxSamples: int, enableSucceeds: bool)
    requires other != c
    ensures Get(KeyOption(s, key, c, maxSamples, enableSucceeds), other) == Get(s, other)
  {
  }

  /** Right and enter step every option the same way. */
  lemma RightEqualsEnter(s: Settings, c: Cvar, maxSamples: int, enableSucceeds: bool)
    ensures KeyOption(s, RightArrow, c, maxSamples, enableSucceeds) == KeyOption(s, Enter, c, maxSamples, enableSucceeds)
  {
  }

  /** Away from the ends of its range, stepping an integer option right and
      then left gives back its (truncated) value. */
  lemma {:induction false} StepIntInverse(v: real, diff: int, lo: int, hi: int)
    requires lo <= Trunc(v) && Trunc(v) + diff <= hi && diff >= 0
    ensures StepInt(StepInt(v, false, diff, lo, hi) as real, true, diff, lo, hi) == Trunc(v)
    ensures StepInt(v, false, diff, lo, hi) == Trunc(v) + diff
  {
    TruncOfInt(Trunc(v) + diff);
  }

  /** The enabled option toggles: a zero value turns on (when the session
      starts), any other value turns off; the key's direction is ignored. */
  lemma EnabledToggles(s: Settings, key: Key, maxSamples: int, enableSucceeds: bool)
    ensures var v := Get(KeyOption(s, key, Enabled, maxSamples, enableSucceeds), Enabled);
      v == (if Trunc(s.enabled) == 0 && enableSucceeds then 1.0 else 0.0)
  {
  }

  /** Snap turning steps through off, 45 and 90 degrees. */
  lemma SnapTurnSteps(s: Settings, key: Key, maxSamples: int, enableSucceeds: bool)
    requires s.snapTurn == 0.0 || s.snapTurn == 45.0 || s.snapTurn == 90.0
    ensures var v := Get(KeyOption(s, key, SnapTurn, maxSamples, enableSucceeds), SnapTurn);
      && (v == 0.0 || v == 45.0 || v == 90.0)
      && (!IsLeft(key) && s.snapTurn < 90.0 ==> v == s.snapTurn + 45.0)
      && (IsLeft(key) && s.snapTurn > 0.0 ==> v == s.snapTurn - 45.0)
  {
    TruncOfInt(0);
    TruncOfInt(45);
    TruncOfInt(90);
  }

  // -----------------------------------------------------------------------
  // Labels

  /** What `VR_MenuPrintOptionValue` draws for an option; `Formatted` stands
      for the `snprintf` of a number with the given format. */
  datatype Label =
    | NoLabel
    | Checkbox(checked: bool)
    | Slider(range: real)
    | Text(text: string)
    | Formatted(format: string, value: real)

  /** The aim-mode names; any value outside 1..7 shows as BLENDED. */
  function AimModeName(mode: int): string
  {
    if mode == Aim.HeadMyaw then "HEAD_MYAW"
    else if mode == Aim.HeadMyawMpitch then "HEAD_MYAW_MPITCH"
    else if mode == Aim.MouseMyaw then "MOUSE_MYAW"
    else if mode == Aim.MouseMyawMpitch then "MOUSE_MYAW_MPITCH"
    else if mode == Aim.BlendedNopitch then "BLENDED_NOPITCH"
    else if mode == Aim.Controller then "CONTROLLER"
    else "BLENDED"
  }

  /** The label of option `c` for the current values. */
  function OptionLabel(c: Cvar, s: Settings): Label
  {
    match c
    case Enabled => Checkbox(Trunc(s.enabled) != 0)
    case AimMode => Text(AimModeName(Trunc(s.aimMode)))
    case Deadzone => if s.deadzone > 0.0 then Formatted("%.0f degrees", s.deadzone) else Text("off")
    case Crosshair =>
      if Trunc(s.crosshair) == 2 then Text("line")
      else if Trunc(s.crosshair) == 1 then Text("point")
      else Text("off")
    case CrosshairDepth =>
      if s.crosshairDepth > 0.0 then Formatted("%.0f units", s.crosshairDepth) else Text("off")
    case CrosshairSize =>
      if s.crosshairSize > 0.0 then Formatted("%.0f pixels", s.crosshairSize) else Text("off")
    case CrosshairAlpha => Slider(s.crosshairAlpha)
    case WorldScale => Slider(s.worldScale / 2.0)
    case MovementMode =>
      if Trunc(s.movementMode) == 0 then Text("Follow hand")
      else if Trunc(s.movementMode) == 1 then Text("Raw input")
      else NoLabel
    case SnapTurn =>
      if s.snapTurn == 0.0 then Text("Smooth") else Formatted("%d Degrees", Trunc(s.snapTurn) as real)
    case TurnSpeed => Slider(s.turnSpeed / 10.0)
    case Msaa =>
      if s.msaa == 0.0 then Text("Off") else Formatted("%d Samples", Trunc(s.msaa) as real)
  }

  /** The seven modes have seven different names; every other value is
      labelled like BLENDED. */
  lemma AimModeNames(m1: int, m2: int)
    ensures Aim.HeadMyaw <= m1 <= Aim.Controller && Aim.HeadMyaw <= m2 <= Aim.Controller && m1 != m2 ==>
      AimModeName(m1) != AimModeName(m2)
    ensures !(Aim.HeadMyaw <= m1 <= Aim.Controller) ==> AimModeName(m1) == AimModeName(Aim.Blended)
  {
  }

  /** The deadzone, depth and size options read "off" exactly when their
      value is not positive, and show the value otherwise. */
  lemma OffLabels(s: Settings)
    ensures OptionLabel(Deadzone, s) == Text("off") <==> s.deadzone <= 0.0
    ensures OptionLabel(CrosshairDepth, s) == Text("off") <==> s.crosshairDepth <= 0.0
    ensures OptionLabel(CrosshairSize, s) == Text("off") <==> s.crosshairSize <= 0.0
    ensures s.deadzone > 0.0 ==> OptionLabel(Deadzone, s).value == s.deadzone
  {
  }

  /** The crosshair option shows line for 2, point for 1 and off for any
      other truncated value. */
  lemma CrosshairLabels(s: Settings)
    ensures OptionLabel(Crosshair, s) == Text("line") <==> Trunc(s.crosshair) == 2
    ensures OptionLabel(Crosshair, s) == Text("point") <==> Trunc(s.crosshair) == 1
    ensures OptionLabel(Crosshair, s) == Text("off") <==> Trunc(s.crosshair) != 1 && Trunc(s.crosshair) != 2
  {
  }

  /** After any key on the aim-mode option the label names the mode that is
      now set, never the fallback for an out-of-range value. */
  lemma AimModeLabelAfterStep(s: Settings, key: Key, maxSamples: int, enableSucceeds: bool)
    ensures var s' := KeyOption(s, key, AimMode, maxSamples, enableSucceeds);
      OptionLabel(AimMode, s') == Text(AimModeName(Trunc(s'.aimMode)))
      && Aim.HeadMyaw <= Trunc(s'.aimMode) <= Aim.Controller
  {
    AimModeStep(s, key, maxSamples, enableSucceeds);
    var m := Clamp(Aim.HeadMyaw, if IsLeft(key) then Trunc(s.aimMode) - 1 else Trunc(s.aimMode) + 1, Aim.Controller);
    TruncOfInt(m);
  }

  /** Movement mode stepping never reaches a value without a label. */
  lemma MovementModeLabelAfterStep(s: Settings, key: Key, maxSamples: int, enableSucceeds: bool)
    ensures var s' := KeyOption(s, key, MovementMode, maxSamples, enableSucceeds);
      OptionLabel(MovementMode, s') == Text("Follow hand") || OptionLabel(MovementMode, s') == Text("Raw input")
  {
    TruncOfInt(0);
    TruncOfInt(1);
  }

  // -----------------------------------------------------------------------
  // The menu's state

  class OptionsMenu {
    /** `vr_options_cursor`. */
    var cursor: int

    ghost predicate Valid()
      reads this
    {
      0 <= cursor < OptionCount
    }

    constructor ()
      ensures Valid() && cursor == 0
    {
      cursor := 0;
    }

    /** `VR_MenuKeyOption(key, option)`: read the option's cvar, step and
        clamp it, and write it back through `Cvar_SetValue`. */
    method KeyOptionOn(key: Key, option: Cvar, cvars: CvarStore, maxSamples: int, enableSucceeds: bool)
      modifies cvars
      ensures cvars.values == KeyOption(old(cvars.values), key, option, maxSamples, enableSucceeds)
    {
      var isLeft := key == LeftArrow;
      var intValue := 0;
      var floatValue := 0.0;
      var values := cvars.values;
      var newValue: real;
      match option {
        case Enabled =>
          newValue := if Trunc(values.enabled) == 0 then 1.0 else 0.0;
        case AimMode =>
          intValue := Trunc(values.aimMode);
          intValue := Clamp(AimModes[0], if isLeft then intValue - 1 else intValue + 1, |AimModes|);
          intValue := intValue - 1;
          newValue := AimModes[intValue] as real;
        case Deadzone =>
          intValue := Trunc(values.deadzone);
          intValue := Clamp(0, if isLeft then intValue - 5 else intValue + 5, 180);
          newValue := intValue as real;
        case Crosshair =>
          intValue := Trunc(values.crosshair);
          intValue := Clamp(0, if isLeft then intValue - 1 else intValue + 1, 2);
          newValue := intValue as real;
        case CrosshairDepth =>
          intValue := Trunc(values.crosshairDepth);
          intValue := Clamp(0, if isLeft then intValue - 32 else intValue + 32, 4096);
          newValue := intValue as real;
        case CrosshairSize =>
          intValue := Trunc(values.crosshairSize);
          intValue := Clamp(0, if isLeft then intValue - 1 else intValue + 1, 32);
          newValue := intValue as real;
        case CrosshairAlpha =>
          floatValue := values.crosshairAlpha;
          floatValue := ClampReal(0.0, if isLeft then floatValue - 0.05 else floatValue + 0.05, 1.0);
          newValue := floatValue;
        case WorldScale =>
          floatValue := values.worldScale;
          floatValue := ClampReal(0.0, if isLeft then floatValue - 0.05 else floatValue + 0.05, 2.0);
          newValue := floatValue;
        case MovementMode =>
          intValue := Trunc(values.movementMode);
          intValue := Clamp(0, if isLeft then intValue - 1 else intValue + 1, 1);
          newValue := intValue as real;
        case SnapTurn =>
          intValue := Trunc(values.snapTurn);
          intValue := Clamp(0, if isLeft then intValue - 45 else intValue + 45, 90);
          newValue := intValue as real;
        case TurnSpeed =>
          floatValue := values.turnSpeed;
          floatValue := ClampReal(0.0, if isLeft then floatValue - 0.25 else floatValue + 0.25, 10.0);
          newValue := floatValue;
        case Msaa =>
          intValue := Trunc(values.msaa);
          intValue := Clamp(0, if isLeft then intValue - 1 else intValue + 1, maxSamples - 1);
          newValue := intValue as real;
      }
      assert newValue == OptionValue(option, Get(values, option), IsLeft(key), maxSamples);
      cvars.SetCvarValue(option, newValue, enableSucceeds);
    }

    /** `VR_MenuKey(key)`: up and down move the cursor; left, right and enter
        edit the option under it; everything else, escape included, leaves
        both alone. */
    method MenuKey(key: Key, cvars: CvarStore, maxSamples: int, enableSucceeds: bool)
      requires Valid()
      modifies this, cvars
      ensures Valid()
      ensures cursor == CursorAfter(old(cursor), key)
      ensures cvars.values ==
        if EditsOption(key) then KeyOption(old(cvars.values), key, OptionAt(old(cursor)), maxSamples, enableSucceeds)
        else old(cvars.values)
    {
      match key {
        case UpArrow =>
          cursor := cursor - 1;
          if cursor < 0 {
            cursor := OptionCount - 1;
          }
        case DownArrow =>
          cursor := cursor + 1;
          if cursor >= OptionCount {
            cursor := 0;
          }
        case LeftArrow =>
          KeyOptionOn(key, OptionAt(cursor), cvars, maxSamples, enableSucceeds);
        case RightArrow =>
          KeyOptionOn(key, OptionAt(cursor), cvars, maxSamples, enableSucceeds);
        case Enter =>
          KeyOptionOn(key, OptionAt(cursor), cvars, maxSamples, enableSucceeds);
        case _ =>
      }
    }
  }
}

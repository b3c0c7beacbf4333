/** The per-weapon offset table (Quake/vr.c:337-463): each view-weapon model
    header is rescaled and shifted by the offsets of its table slot, from the
    header's original values saved on first sight; clearing restores every
    saved original. */
module WeaponOffsets {
  import opened SeqSearch
  import opened VectorMath

  /** `MAX_WEAPONS`: the number of slots in the offset table. */
  const MaxWeapons := 20

  /** The world scale the default offsets were tuned for. */
  const TunedWorldScale := 0.75

  /** The five cvars of one table slot (`vr_wofs_{x,y,z,scale,id}_nn`), as
      their current values. */
  datatype WeaponCvars = WeaponCvars(offsetX: real, offsetY: real, offsetZ: real, scale: real, id: string)

  /** The part of `aliashdr_t` this code writes. */
  class AliasHeader {
    var scale: Vec3
    var scaleOrigin: Vec3

    constructor (scale: Vec3, scaleOrigin: Vec3)
      ensures this.scale == scale && this.scaleOrigin == scaleOrigin
    {
      this.scale := scale;
      this.scaleOrigin := scaleOrigin;
    }

    function Values(): HeaderValues
      reads this
    {
      HeaderValues(scale, scaleOrigin)
    }
  }

  datatype HeaderValues = HeaderValues(scale: Vec3, scaleOrigin: Vec3)

  /** One `InitialWeaponState` node: the header, its original values and its
      table slot (-1: none). */
  datatype SavedState = SavedState(hdr: AliasHeader, scale: Vec3, scaleOrigin: Vec3, cvarId: int)

  function HeadersOf(states: seq<SavedState>): (hs: seq<AliasHeader>)
    ensures |hs| == |states| && forall i :: 0 <= i < |states| ==> hs[i] == states[i].hdr
  {
    seq(|states|, i requires 0 <= i < |states| => states[i].hdr)
  }

  function IdsOf(table: seq<WeaponCvars>): (ids: seq<string>)
    ensures |ids| == |table| && forall i :: 0 <= i < |table| ==> ids[i] == table[i].id
  {
    seq(|table|, i requires 0 <= i < |table| => table[i].id)
  }

  /** The header values `Mod_Weapon` writes for a saved state: with a slot,
      the original scale times the slot's scale, and the original origin plus
      the slot's offset, both corrected by `vr_world_scale / 0.75`; without a
      slot the header keeps what it has. */
  function Styled(st: SavedState, cur: HeaderValues, table: seq<WeaponCvars>, worldScale: real): HeaderValues
    requires -1 <= st.cvarId < |table|
  {
    if st.cvarId != -1 then
      var scaleCorrect := worldScale / 0.75;
      var e := table[st.cvarId];
      HeaderValues(Scale(e.scale * scaleCorrect, st.scale),
                   Scale(scaleCorrect, AddVectors(st.scaleOrigin, Vec3(e.offsetX, e.offsetY, e.offsetZ))))
    else cur
  }

  /** A header without a slot keeps its values; at the world scale the
      defaults were tuned for, a header with a slot gets exactly its original
      scale times the slot's scale and its original origin plus the slot's
      offset. */
  lemma StyledAtTunedScale(st: SavedState, cur: HeaderValues, table: seq<WeaponCvars>)
    requires -1 <= st.cvarId < |table|
    ensures st.cvarId == -1 ==> Styled(st, cur, table, TunedWorldScale) == cur
    ensures st.cvarId != -1 ==>
      var e := table[st.cvarId];
      Styled(st, cur, table, TunedWorldScale) ==
        HeaderValues(Scale(e.scale, st.scale), AddVectors(st.scaleOrigin, Vec3(e.offsetX, e.offsetY, e.offsetZ)))
  {
  }

  /** `Mod_Weapon` on values: the saved list after the call (a new node in
      front on first sight of the header) and the header's new values. */
  function ModStep(states: seq<SavedState>, cur: HeaderValues, hdr: AliasHeader, name: string,
                   table: seq<WeaponCvars>, worldScale: real): (seq<SavedState>, HeaderValues)
    requires |table| == MaxWeapons
    requires forall i :: 0 <= i < |states| ==> -1 <= states[i].cvarId < MaxWeapons
  {
    var k := FirstIndexOf(HeadersOf(states), hdr);
    if k == -1 then
      var st := SavedState(hdr, cur.scale, cur.scaleOrigin, FirstIndexOf(IdsOf(table), name));
      ([st] + states, Styled(st, cur, table, worldScale))
    else
      (states, Styled(states[k], cur, table, worldScale))
  }

  /** The list invariant: at most one node per header, slots in range. */
  predicate ListOk(states: seq<SavedState>)
  {
    && (forall i, j :: 0 <= i < j < |states| ==> states[i].hdr != states[j].hdr)
    && (forall i :: 0 <= i < |states| ==> -1 <= states[i].cvarId < MaxWeapons)
  }

  /** `Mod_Weapon` keeps one node per header, saves the header's values only
      on first sight, and gives the new node the first slot whose id is the
      model name (-1 when none is). */
  lemma ModStepSavesOnce(states: seq<SavedState>, cur: HeaderValues, hdr: AliasHeader, name: string,
                         table: seq<WeaponCvars>, worldScale: real)
    requires |table| == MaxWeapons && ListOk(states)
    ensures var (states', _) := ModStep(states, cur, hdr, name, table, worldScale);
      && ListOk(states')
      && ((exists i :: 0 <= i < |states| && states[i].hdr == hdr) ==> states' == states)
  {
  }

  lemma FirstSightSaves(states: seq<SavedState>, cur: HeaderValues, hdr: AliasHeader, name: string,
                        table: seq<WeaponCvars>, worldScale: real)
    requires |table| == MaxWeapons && ListOk(states)
    requires forall i :: 0 <= i < |states| ==> states[i].hdr != hdr
    ensures var (states', _) := ModStep(states, cur, hdr, name, table, worldScale);
      && |states'| == |states| + 1 && states'[1..] == states
      && states'[0].hdr == hdr && states'[0].scale == cur.scale && states'[0].scaleOrigin == cur.scaleOrigin
      && (states'[0].cvarId == -1 <==> forall i :: 0 <= i < MaxWeapons ==> table[i].id != name)
      && (states'[0].cvarId != -1 ==>
            table[states'[0].cvarId].id == name && forall i :: 0 <= i < states'[0].cvarId ==> table[i].id != name)
  {
    var ids := IdsOf(table);
    var k := FirstIndexOf(ids, name);
    if k == -1 {
      forall i | 0 <= i < MaxWeapons
        ensures table[i].id != name
      {
        assert ids[i] == table[i].id;
      }
    }
  }

  /** Applying `Mod_Weapon` to a header twice leaves it as applying it once,
      whatever name the second call passes: the second call finds the node
      and recomputes from the same saved originals. */
  lemma {:induction false} ModStepIdempotent(states: seq<SavedState>, cur: HeaderValues, hdr: AliasHeader,
                                             name: string, name2: string, table: seq<WeaponCvars>, worldScale: real)
    requires |table| == MaxWeapons && ListOk(states)
    ensures var (states1, values1) := ModStep(states, cur, hdr, name, table, worldScale);
      ModStep(states1, values1, hdr, name2, table, worldScale) == (states1, values1)
  {
    var (states1, values1) := ModStep(states, cur, hdr, name, table, worldScale);
    var k := FirstIndexOf(HeadersOf(states), hdr);
    if k == -1 {
      var st := states1[0];
      assert HeadersOf(states1)[0] == hdr;
      assert FirstIndexOf(HeadersOf(states1), hdr) == 0;
      assert Styled(st, values1, table, worldScale) == values1;
    } else {
      assert states1 == states;
    }
  }

  class WeaponMods {
    /** The `initialStates` list, newest node first. */
    var initialStates: seq<SavedState>

    ghost predicate Valid()
      reads this
    {
      ListOk(initialStates)
    }

    ghost function Headers(): set<AliasHeader>
      reads this
    {
      set i | 0 <= i < |initialStates| :: initialStates[i].hdr
    }

    constructor ()
      ensures Valid() && initialStates == []
    {
      initialStates := [];
    }

    /** `Mod_Weapon(name, hdr)` with the offset cvars' current values and
        `vr_world_scale`. */
    method ModWeapon(name: string, hdr: AliasHeader, table: seq<WeaponCvars>, worldScale: real)
      requires Valid() && |table| == MaxWeapons
      modifies this, hdr
      ensures Valid()
      ensures (initialStates, hdr.Values()) ==
        ModStep(old(initialStates), old(hdr.Values()), hdr, name, table, worldScale)
    {
      ghost var target := ModStep(initialStates, hdr.Values(), hdr, name, table, worldScale);
      var k := FindState(hdr);
      if k == -1 {
        var cvarId := FindCvarId(table, name);
        var st := SavedState(hdr, hdr.scale, hdr.scaleOrigin, cvarId);
        PrependKeepsListOk(initialStates, st);
        initialStates := [st] + initialStates;
        k := 0;
      }
      var state := initialStates[k];
      assert initialStates == target.0 && ListOk(initialStates);
      assert target.1 == Styled(state, hdr.Values(), table, worldScale);
      ApplyOffsets(hdr, state, table, worldScale);
    }

    /** The walk of `Mod_Weapon` down the list: the position of the node
        for `hdr`, or -1 when there is none. */
    method FindState(hdr: AliasHeader) returns (k: int)
      ensures k == FirstIndexOf(HeadersOf(initialStates), hdr)
    {
      k := 0;
      while k < |initialStates| && initialStates[k].hdr != hdr
        invariant 0 <= k <= |initialStates|
        invariant forall j :: 0 <= j < k ==> initialStates[j].hdr != hdr
      {
        k := k + 1;
      }
      if k == |initialStates| {
        k := -1;
      }
      CharacterizesFirst(HeadersOf(initialStates), hdr, k);
    }

    /** `VR_ClearWeaponMods`: every saved header gets its original scale and
        origin back, and the list is emptied. */
    method ClearWeaponMods()
      requires Valid()
      modifies this, Headers()
      ensures Valid() && initialStates == []
      ensures forall i :: 0 <= i < |old(initialStates)| ==>
        old(initialStates)[i].hdr.Values() == HeaderValues(old(initialStates)[i].scale, old(initialStates)[i].scaleOrigin)
    {
      ghost var states := initialStates;
      var k := 0;
      while k < |initialStates|
        invariant initialStates == states
        invariant 0 <= k <= |states|
        invariant forall j :: 0 <= j < k ==> states[j].hdr.Values() == HeaderValues(states[j].scale, states[j].scaleOrigin)
      {
        var state := initialStates[k];
        state.hdr.scaleOrigin := state.scaleOrigin;
        state.hdr.scale := state.scale;
        k := k + 1;
      }
      initialStates := [];
    }
  }

  /** The slot search of `Mod_Weapon`: the first slot whose id cvar is the
      model name, or -1. */
  method FindCvarId(table: seq<WeaponCvars>, name: string) returns (cvarId: int)
    requires |table| == MaxWeapons
    ensures cvarId == FirstIndexOf(IdsOf(table), name)
  {
    cvarId := -1;
    var i := 0;
    while i < MaxWeapons && cvarId == -1
      invariant 0 <= i <= MaxWeapons && -1 <= cvarId < i
      invariant cvarId == -1 ==> forall j :: 0 <= j < i ==> table[j].id != name
      invariant cvarId != -1 ==> table[cvarId].id == name && forall j :: 0 <= j < cvarId ==> table[j].id != name
    {
      if table[i].id == name {
        cvarId := i;
      }
      i := i + 1;
    }
    CharacterizesFirst(IdsOf(table), name, cvarId);
  }

  lemma PrependKeepsListOk(states: seq<SavedState>, st: SavedState)
    requires ListOk(states) && -1 <= st.cvarId < MaxWeapons
    requires FirstIndexOf(HeadersOf(states), st.hdr) == -1
    ensures ListOk([st] + states)
  {
    var states' := [st] + states;
    forall i, j | 0 <= i < j < |states'|
      ensures states'[i].hdr != states'[j].hdr
    {
      if i == 0 {
        assert HeadersOf(states)[j - 1] == states'[j].hdr;
      }
    }
  }

  /** The tail of `Mod_Weapon`: with a slot, rescale the header and move its
      origin from the saved originals. */
  method ApplyOffsets(hdr: AliasHeader, state: SavedState, table: seq<WeaponCvars>, worldScale: real)
    requires -1 <= state.cvarId < |table|
    modifies hdr
    ensures hdr.Values() == Styled(state, old(hdr.Values()), table, worldScale)
  {
    if state.cvarId != -1 {
      var scaleCorrect := worldScale / 0.75;
      var e := table[state.cvarId];
      hdr.scale := Scale(e.scale * scaleCorrect, state.scale);
      var ofs := Vec3(e.offsetX, e.offsetY, e.offsetZ);
      hdr.scaleOrigin := AddVectors(state.scaleOrigin, ofs);
      hdr.scaleOrigin := Scale(scaleCorrect, hdr.scaleOrigin);
    }
  }

  // -----------------------------------------------------------------------
  // Cvar names

  /** The decimal digit character of `d`, `'0' + d`. */
  function Digit(d: int): (c: char)
    requires 0 <= d < 10
    ensures '0' <= c <= '9' && c as int - '0' as int == d
  {
    ('0' as int + d) as char
  }

  /** `CopyWithNumeral`: a copy of `s` whose last two characters are the two
      decimal digits of `i`. */
  function CopyWithNumeral(s: string, i: int): (r: string)
    requires |s| >= 2 && 0 <= i < 100
    ensures |r| == |s| && r[..|s| - 2] == s[..|s| - 2]
    ensures r[|s| - 2] == Digit(i / 10) && r[|s| - 1] == Digit(i % 10)
    ensures '0' <= r[|s| - 2] <= '9' && '0' <= r[|s| - 1] <= '9'
    ensures TwoDigitValue(r[|s| - 2], r[|s| - 1]) == i
  {
    s[|s| - 1 := Digit(i % 10)][|s| - 2 := Digit(i / 10)]
  }

  /** The number two decimal digit characters spell. */
  function TwoDigitValue(tens: char, units: char): int
  {
    (tens as int - '0' as int) * 10 + (units as int - '0' as int)
  }

  /** Different slots get different cvar names. */
  lemma CopyWithNumeralInjective(s: string, i: int, j: int)
    requires |s| >= 2 && 0 <= i < 100 && 0 <= j < 100
    requires CopyWithNumeral(s, i) == CopyWithNumeral(s, j)
    ensures i == j
  {
    var r := CopyWithNumeral(s, i);
    assert TwoDigitValue(r[|s| - 2], r[|s| - 1]) == j;
  }

  /** The twentieth slot's id cvar is `vr_wofs_id_20`. */
  lemma LastSlotName()
    ensures CopyWithNumeral("vr_wofs_id_nn", 19 + 1) == "vr_wofs_id_20"
  {
  }
}

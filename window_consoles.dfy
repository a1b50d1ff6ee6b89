/**
 * The input flags of the console windows, src/window_switch.c and
 * src/window_3ds.c.  Each window_update clears `thrust` and `pause` and
 * decodes the keys pressed this frame, which are an input.  Key bits are
 * those of libnx and libctru (KEY_A is bit 0 on both, KEY_PLUS bit 10 on
 * the Switch).  Neither console has a clock: the time is always 0.
 */
module WindowConsoles {

  const KeyA: bv32 := 1
  const KeyPlus: bv32 := 0x400

  predicate Pressed(kDown: bv32, key: bv32)
  {
    kDown & key != 0
  }

  /** The flags an update leaves. */
  datatype Keys = Keys(thrust: bool, pause: bool)

  /** The Switch decoding: A thrusts; PLUS pauses, but only when A is not also down. */
  function SwitchKeys(kDown: bv32): (r: Keys)
    ensures r.thrust <==> Pressed(kDown, KeyA)
    ensures r.pause <==> Pressed(kDown, KeyPlus) && !Pressed(kDown, KeyA)
  {
    if Pressed(kDown, KeyA) then Keys(true, false)
    else if Pressed(kDown, KeyPlus) then Keys(false, true)
    else Keys(false, false)
  }

  /** One update never both thrusts and pauses, and pressing both keys only thrusts. */
  lemma SwitchKeysExclusive(kDown: bv32)
    ensures !(SwitchKeys(kDown).thrust && SwitchKeys(kDown).pause)
    ensures Pressed(kDown, KeyA | KeyPlus) ==> SwitchKeys(kDown).thrust || SwitchKeys(kDown).pause
    ensures SwitchKeys(KeyA | KeyPlus) == Keys(true, false)
  {
    assert Pressed(kDown, KeyA | KeyPlus) ==> Pressed(kDown, KeyA) || Pressed(kDown, KeyPlus);
  }

  /** The 3DS decoding: A thrusts; nothing pauses. */
  function ThreeDsKeys(kDown: bv32): (r: Keys)
    ensures r.thrust <==> Pressed(kDown, KeyA)
    ensures !r.pause
  {
    Keys(Pressed(kDown, KeyA), false)
  }

  /** The two consoles agree on thrust and differ only where the Switch pauses. */
  lemma ConsolesAgreeOnThrust(kDown: bv32)
    ensures SwitchKeys(kDown).thrust == ThreeDsKeys(kDown).thrust
    ensures SwitchKeys(kDown) != ThreeDsKeys(kDown) <==> SwitchKeys(kDown).pause
  {
  }

  /** window_get_time on both consoles. */
  function Time(): (t: real)
    ensures t == 0.0
  {
    0.0
  }

  /** The statics of src/window_switch.c. */
  class SwitchWindow {
    var thrust: int
    var pause: int

    constructor ()
      ensures thrust == 0 && pause == 0
    {
      thrust, pause := 0, 0;
    }

    /** window_update: clear both flags, then decode the keys pressed this frame. */
    method Update(kDown: bv32)
      modifies this
      ensures thrust == (if SwitchKeys(kDown).thrust then 1 else 0)
      ensures pause == (if SwitchKeys(kDown).pause then 1 else 0)
    {
      thrust := 0;
      pause := 0;
      if kDown & KeyA != 0 {
        thrust := 1;
      } else if kDown & KeyPlus != 0 {
        pause := 1;
      }
    }

    function GetThrust(): (r: int)
      reads this
      ensures r == thrust
    {
      thrust
    }

    function GetPause(): (r: int)
      reads this
      ensures r == pause
    {
      pause
    }
  }

  /** The statics of src/window_3ds.c. */
  class ThreeDsWindow {
    var thrust: int
    var pause: int

    constructor ()
      ensures thrust == 0 && pause == 0
    {
      thrust, pause := 0, 0;
    }

    /** window_update: clear both flags, then set thrust when A was pressed. */
    method Update(kDown: bv32)
      modifies this
      ensures thrust == (if ThreeDsKeys(kDown).thrust then 1 else 0)
      ensures pause == 0
    {
      thrust := 0;
      pause := 0;
      if kDown & KeyA != 0 {
        thrust := 1;
      }
    }

    function GetThrust(): (r: int)
      reads this
      ensures r == thrust
    {
      thrust
    }

    function GetPause(): (r: int)
      reads this
      ensures r == pause
    {
      pause
    }
  }
}

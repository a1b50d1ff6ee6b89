/**
 * The selection rules of src/device.c: which physical device is used, which
 * queue families serve graphics and presentation, and which memory type an
 * allocation gets.  src/renderer.c and src/renderer_vk.c repeat the device and
 * queue rules and the memory-type search word for word and use the members
 * of this module.
 *
 * `window_fail_with_error` is recorded as a `failed` flag: what the platform
 * does next (a dialog, an exit) is not part of this model.  The Device
 * structure is taken to be zero-initialised, so no physical device is chosen
 * before the search.
 */
module Device {
  import opened Vulkan

  function IsType(types: seq<DeviceType>, t: DeviceType): (s: seq<bool>)
    ensures |s| == |types| && forall i :: 0 <= i < |types| ==> s[i] == (types[i] == t)
  {
    seq(|types|, i requires 0 <= i < |types| => types[i] == t)
  }

  /**
   * The first device of the `primary` type, otherwise the last one of the
   * `fallback` type, otherwise none.
   */
  function Preference(types: seq<DeviceType>, primary: DeviceType, fallback: DeviceType): (r: Option<nat>)
    ensures r.Some? ==> r.value < |types| && (types[r.value] == primary || types[r.value] == fallback)
  {
    var d := First(IsType(types, primary));
    if d.Some? then d else Last(IsType(types, fallback))
  }

  /** device_create's preference: the first discrete GPU, otherwise the last integrated GPU. */
  function PreferredDevice(types: seq<DeviceType>): (r: Option<nat>)
    ensures r.Some? ==> r.value < |types| && (types[r.value] == DiscreteGpu || types[r.value] == IntegratedGpu)
  {
    Preference(types, DiscreteGpu, IntegratedGpu)
  }

  /** The rule in full, in both directions. */
  lemma PreferenceIs(types: seq<DeviceType>, primary: DeviceType, fallback: DeviceType, k: nat)
    requires k < |types|
    ensures Preference(types, primary, fallback) == Some(k) <==>
      (types[k] == primary && forall j :: 0 <= j < k ==> types[j] != primary) ||
      ((forall j :: 0 <= j < |types| ==> types[j] != primary) &&
       types[k] == fallback && forall j :: k < j < |types| ==> types[j] != fallback)
  {
    var d := IsType(types, primary);
    var g := IsType(types, fallback);
    if types[k] == primary && forall j :: 0 <= j < k ==> types[j] != primary {
      FirstIs(d, k);
    } else if (forall j :: 0 <= j < |types| ==> types[j] != primary) &&
              types[k] == fallback && forall j :: k < j < |types| ==> types[j] != fallback {
      LastIs(g, k);
    }
  }

  /** Without a device of either type nothing is chosen and the failure fires. */
  lemma NoSuitableDevice(types: seq<DeviceType>, primary: DeviceType, fallback: DeviceType)
    ensures Preference(types, primary, fallback).None? <==>
      forall j :: 0 <= j < |types| ==> types[j] != primary && types[j] != fallback
  {
    var d := IsType(types, primary);
    var g := IsType(types, fallback);
    if Preference(types, primary, fallback).None? {
      assert First(d).None? && Last(g).None?;
    }
  }

  /**
   * The loop over the properties of the enumerated devices: `break` on the
   * primary type, remember the fallback type.
   */
  method ChooseDevice(types: seq<DeviceType>, primary: DeviceType, fallback: DeviceType) returns (chosen: Option<nat>)
    ensures chosen == Preference(types, primary, fallback)
  {
    var isPrimary := IsType(types, primary);
    var isFallback := IsType(types, fallback);
    chosen := None;
    var i := 0;
    while i < |types|
      invariant i <= |types|
      invariant forall j :: 0 <= j < i ==> !isPrimary[j]
      invariant chosen.None? ==> forall j :: 0 <= j < i ==> !isFallback[j]
      invariant chosen.Some? ==> chosen.value < i && isFallback[chosen.value]
      invariant chosen.Some? ==> forall j :: chosen.value < j < i ==> !isFallback[j]
    {
      if types[i] == primary {
        chosen := Some(i);
        FirstIs(isPrimary, i);
        return;
      } else if types[i] == fallback {
        chosen := Some(i);
      }
      i := i + 1;
    }
    assert First(isPrimary).None?;
    if chosen.Some? {
      LastIs(isFallback, chosen.value);
    }
  }

  /**
   * The queue-family search: the first family that qualifies, with the
   * failure fired when the last family is reached without one.  Zero
   * families leave the id at 0 and fire nothing.
   */
  function FirstFamily(has: seq<bool>): (r: Choice)
    ensures r.id < |has| || r.id == 0
    ensures !r.failed ==> |has| == 0 || has[r.id]
    ensures r.failed <==> |has| > 0 && forall j :: 0 <= j < |has| ==> !has[j]
    ensures !r.failed && |has| > 0 ==> forall j :: 0 <= j < r.id ==> !has[j]
  {
    match First(has)
    case Some(k) => Choice(k, false)
    case None => Choice(0, |has| > 0)
  }

  /** The loop of device_create; the failure check sits in the loop's else branch. */
  method FindFamily(has: seq<bool>) returns (r: Choice)
    ensures r == FirstFamily(has)
  {
    var id := 0;
    var failed := false;
    var i := 0;
    while i < |has|
      invariant i <= |has| && id == 0
      invariant failed == (i == |has| && i > 0)
      invariant forall j :: 0 <= j < i ==> !has[j]
    {
      if has[i] {
        id := i;
        FirstIs(has, i);
        break;
      } else if i == |has| - 1 {
        failed := true;
      }
      i := i + 1;
    }
    r := Choice(id, failed);
  }

  /** `queueFlags & VK_QUEUE_GRAPHICS_BIT` for each family. */
  function HasGraphics(flags: seq<bv32>): (s: seq<bool>)
    ensures |s| == |flags| && forall i :: 0 <= i < |flags| ==> s[i] == (flags[i] & QueueGraphicsBit != 0)
  {
    seq(|flags|, i requires 0 <= i < |flags| => flags[i] & QueueGraphicsBit != 0)
  }

  /** Memory type i is acceptable: bit i of the requirement is set and it shares a property flag. */
  predicate Acceptable(typeBits: bv32, types: seq<bv32>, wanted: bv32, i: nat)
    requires i < |types| <= MaxMemoryTypes
  {
    Bit(typeBits, i) && types[i] & wanted != 0
  }

  function MemoryCandidates(typeBits: bv32, types: seq<bv32>, wanted: bv32): (s: seq<bool>)
    requires |types| <= MaxMemoryTypes
    ensures |s| == |types|
    ensures forall i :: 0 <= i < |types| ==> s[i] == Acceptable(typeBits, types, wanted, i)
  {
    seq(|types|, i requires 0 <= i < |types| => Acceptable(typeBits, types, wanted, i))
  }

  /** The smallest acceptable index; if there is none, index 0 and the failure. */
  function MemoryType(typeBits: bv32, types: seq<bv32>, wanted: bv32): (r: Choice)
    requires |types| <= MaxMemoryTypes
    ensures !r.failed ==> r.id < |types| && Bit(typeBits, r.id) && types[r.id] & wanted != 0
    ensures !r.failed ==> forall j :: 0 <= j < r.id ==> !Acceptable(typeBits, types, wanted, j)
    ensures r.failed <==> forall j :: 0 <= j < |types| ==> !Acceptable(typeBits, types, wanted, j)
    ensures r.failed ==> r.id == 0
  {
    match First(MemoryCandidates(typeBits, types, wanted))
    case Some(k) => Choice(k, false)
    case None => Choice(0, true)
  }

  /** device_find_memory_type: the loop with `break`, then the failure check on `memory_found`. */
  method FindMemoryType(typeBits: bv32, types: seq<bv32>, wanted: bv32) returns (r: Choice)
    requires |types| <= MaxMemoryTypes
    ensures r == MemoryType(typeBits, types, wanted)
  {
    var best := 0;
    var found := false;
    var i := 0;
    while i < |types|
      invariant i <= |types| && best == 0 && !found
      invariant forall j :: 0 <= j < i ==> !Acceptable(typeBits, types, wanted, j)
    {
      if Bit(typeBits, i) && types[i] & wanted != 0 {
        best := i;
        found := true;
        FirstIs(MemoryCandidates(typeBits, types, wanted), i);
        break;
      }
      i := i + 1;
    }
    r := Choice(best, !found);
  }

  /** What device_create reads: the device types and, per family, its flags and present support. */
  datatype Platform = Platform(types: seq<DeviceType>, familyFlags: seq<bv32>, presentSupport: seq<bool>)

  /** The Device structure, reduced to the fields the selection rules write. */
  class Device {
    var physicalDevice: Option<nat>
    var graphicsQueueId: nat
    var presentQueueId: nat
    var commandPoolFamily: nat
    var failed: bool

    /** A zero-initialised `Device`. */
    constructor ()
      ensures physicalDevice.None? && graphicsQueueId == 0 && presentQueueId == 0
      ensures commandPoolFamily == 0 && !failed
    {
      physicalDevice := None;
      graphicsQueueId, presentQueueId, commandPoolFamily := 0, 0, 0;
      failed := false;
    }

    /**
     * device_create: the device, then the graphics family, then the present
     * family, each search possibly firing the failure; the command pool is
     * created on the graphics family.
     */
    method Create(p: Platform)
      requires |p.familyFlags| == |p.presentSupport|
      modifies this
      ensures physicalDevice == (if old(physicalDevice).Some? && PreferredDevice(p.types).None?
                                 then old(physicalDevice) else PreferredDevice(p.types))
      ensures graphicsQueueId == FirstFamily(HasGraphics(p.familyFlags)).id
      ensures presentQueueId == FirstFamily(p.presentSupport).id
      ensures commandPoolFamily == graphicsQueueId
      ensures failed == (old(failed) || physicalDevice.None? ||
                         FirstFamily(HasGraphics(p.familyFlags)).failed || FirstFamily(p.presentSupport).failed)
    {
      var chosen := ChooseDevice(p.types, DiscreteGpu, IntegratedGpu);
      if chosen.Some? {
        physicalDevice := chosen;
      }
      if physicalDevice.None? {
        failed := true;
      }
      var graphics := FindFamily(HasGraphics(p.familyFlags));
      var present := FindFamily(p.presentSupport);
      graphicsQueueId := graphics.id;
      presentQueueId := present.id;
      failed := failed || graphics.failed || present.failed;
      commandPoolFamily := graphicsQueueId;
    }
  }
}

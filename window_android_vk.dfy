/**
 * The flags of src/window_android_vk.c, the Vulkan build's copy of the
 * Android window: the same handlers and polling loop over its own statics
 * (onAppCmd names LOST_FOCUS explicitly, as a case that does nothing), and
 * the instance extensions the window asks Vulkan for.  The rules are those
 * of the WindowAndroid module.
 */
module WindowAndroidVk {
  import opened WindowAndroid

  /** The extensions flapWindowGetExtensions returns, in order. */
  const Extensions: seq<string> := ["VK_KHR_surface", "VK_KHR_android_surface"]

  /** flapWindowGetExtensions: the count it reports is the length of the array it returns. */
  method GetExtensions() returns (extensionCount: nat, extensions: seq<string>)
    ensures extensionCount == |extensions| == 2
    ensures extensions[0] == "VK_KHR_surface" && extensions[1] == "VK_KHR_android_surface"
  {
    extensionCount := 2;
    extensions := Extensions;
  }

  /** The static flags of src/window_android_vk.c. */
  class Window {
    var windowReady: bool
    var shouldClose: bool
    var thrust: bool

    function State(): (f: Flags)
      reads this
    {
      Flags(windowReady, shouldClose, thrust)
    }

    /** The initialisers of the statics. */
    constructor ()
      ensures State() == Flags(false, false, false)
    {
      windowReady, shouldClose, thrust := false, false, false;
    }

    /** onAppCmd. */
    method OnAppCmd(cmd: int)
      modifies this
      ensures State() == CmdEffect(old(State()), cmd)
    {
      if cmd == AppCmdInitWindow {
        windowReady := true;
      } else if cmd == AppCmdTermWindow {
        shouldClose := true;
      } else if cmd == AppCmdLostFocus {
      }
    }

    /** onInputEvent. */
    method OnInputEvent(e: InputEvent) returns (handled: int)
      modifies this
      ensures handled == Handled(e)
      ensures State() == InputEffect(old(State()), e)
    {
      handled := 0;
      if e.eventType == InputEventTypeMotion {
        var action := e.action;
        if action == ActionDown {
          thrust := true;
        } else if action == ActionUp {
          thrust := false;
        }
        handled := 1;
      }
    }

    /** flapWindowUpdate: the polling loop, returning how many items it processed. */
    method Update(polls: seq<Poll>) returns (processed: nat)
      modifies this
      ensures State() == Run(old(State()), polls)
      ensures processed == Processed(polls)
    {
      processed := 0;
      while processed < |polls|
        invariant processed <= |polls|
        invariant Run(State(), polls[processed..]) == Run(old(State()), polls)
        invariant Processed(polls) == processed + Processed(polls[processed..])
      {
        var poll := polls[processed];
        assert polls[processed..][1..] == polls[processed + 1..];
        if poll.source.Some? {
          match poll.source.value {
            case Cmd(c) => OnAppCmd(c);
            case Input(e) => var _ := OnInputEvent(e);
          }
        }
        processed := processed + 1;
        if poll.destroyRequested {
          shouldClose := true;
          return;
        }
      }
    }

    /** flapWindowShouldClose. */
    function ShouldClose(): (r: int)
      reads this
      ensures r == 1 <==> shouldClose
    {
      FlagValue(shouldClose)
    }

    /** flapWindowGetThrust. */
    function GetThrust(): (r: int)
      reads this
      ensures r == 1 <==> thrust
    {
      FlagValue(thrust)
    }
  }
}

/**
 * The input and lifecycle flags of src/window_android.c.  The native app
 * glue delivers lifecycle commands to on_app_cmd and input events to
 * on_input_event; window_update drains the looper, handing each polled
 * source to its handler, and stops as soon as the app is asked to be
 * destroyed.
 *
 * What the looper has pending is an input: a sequence of polled items, each
 * with the source it delivers (a command or one input event) and the value
 * of `destroyRequested` read after processing it.  Command and event codes
 * are those of the NDK headers.
 */
module WindowAndroid {

  /** APP_CMD_INIT_WINDOW, APP_CMD_TERM_WINDOW and APP_CMD_LOST_FOCUS. */
  const AppCmdInitWindow: int := 1
  const AppCmdTermWindow: int := 2
  const AppCmdLostFocus: int := 7

  /** AINPUT_EVENT_TYPE_MOTION. */
  const InputEventTypeMotion: int := 2
  /** AKEY_EVENT_ACTION_DOWN and AMOTION_EVENT_ACTION_UP. */
  const ActionDown: int := 0
  const ActionUp: int := 1

  datatype InputEvent = InputEvent(eventType: int, action: int)

  /** What a polled source hands to the handlers. */
  datatype Source = Cmd(cmd: int) | Input(event: InputEvent)

  /** One iteration of the polling loop: the source (NULL or not) and `destroyRequested` afterwards. */
  datatype Poll = Poll(source: Option<Source>, destroyRequested: bool)

  datatype Option<T> = None | Some(value: T)

  /** The three static flags. */
  datatype Flags = Flags(windowReady: bool, shouldClose: bool, thrust: bool)

  /** The flags as the C ints they are stored in. */
  function FlagValue(b: bool): (r: int)
    ensures r == 0 || r == 1
    ensures r == 1 <==> b
  {
    if b then 1 else 0
  }

  /** on_app_cmd: INIT_WINDOW raises `window_ready`, TERM_WINDOW raises `should_close`, nothing else changes. */
  function CmdEffect(f: Flags, cmd: int): (r: Flags)
    ensures r.windowReady <==> f.windowReady || cmd == AppCmdInitWindow
    ensures r.shouldClose <==> f.shouldClose || cmd == AppCmdTermWindow
    ensures r.thrust == f.thrust
    ensures cmd != AppCmdInitWindow && cmd != AppCmdTermWindow ==> r == f
  {
    if cmd == AppCmdInitWindow then f.(windowReady := true)
    else if cmd == AppCmdTermWindow then f.(shouldClose := true)
    else f
  }

  /** A lost focus is one of the commands that change nothing. */
  lemma LostFocusIsNoOp(f: Flags)
    ensures CmdEffect(f, AppCmdLostFocus) == f
  {
  }

  /** on_input_event's result: 1 for a motion event, which it consumes, and 0 for any other. */
  function Handled(e: InputEvent): (r: int)
    ensures r == 0 || r == 1
    ensures r == 1 <==> e.eventType == InputEventTypeMotion
  {
    if e.eventType == InputEventTypeMotion then 1 else 0
  }

  /**
   * on_input_event's effect: a motion DOWN sets thrust, a motion UP clears
   * it, and every other event (motion or not) leaves all flags as they were.
   */
  function InputEffect(f: Flags, e: InputEvent): (r: Flags)
    ensures r.windowReady == f.windowReady && r.shouldClose == f.shouldClose
    ensures e.eventType == InputEventTypeMotion && e.action == ActionDown ==> r.thrust
    ensures e.eventType == InputEventTypeMotion && e.action == ActionUp ==> !r.thrust
    ensures e.eventType != InputEventTypeMotion || (e.action != ActionDown && e.action != ActionUp) ==> r == f
  {
    if e.eventType == InputEventTypeMotion then
      if e.action == ActionDown then f.(thrust := true)
      else if e.action == ActionUp then f.(thrust := false)
      else f
    else f
  }

  /** `source->process`: the source's command or event reaches its handler; a NULL source does nothing. */
  function Dispatch(f: Flags, source: Option<Source>): (r: Flags)
  {
    match source
    case None => f
    case Some(Cmd(c)) => CmdEffect(f, c)
    case Some(Input(e)) => InputEffect(f, e)
  }

  /** window_update over the pending items: dispatch each, and stop closing at the first destroy request. */
  function Run(f: Flags, polls: seq<Poll>): (r: Flags)
    decreases |polls|
  {
    if |polls| == 0 then f
    else
      var g := Dispatch(f, polls[0].source);
      if polls[0].destroyRequested then g.(shouldClose := true) else Run(g, polls[1..])
  }

  /** How many of the pending items window_update processes. */
  function Processed(polls: seq<Poll>): (n: nat)
    ensures n <= |polls|
    decreases |polls|
  {
    if |polls| == 0 then 0
    else if polls[0].destroyRequested then 1
    else 1 + Processed(polls[1..])
  }

  /** `window_ready` and `should_close` are never lowered. */
  lemma {:induction false} RunMonotone(f: Flags, polls: seq<Poll>)
    ensures f.windowReady ==> Run(f, polls).windowReady
    ensures f.shouldClose ==> Run(f, polls).shouldClose
    decreases |polls|
  {
    if |polls| > 0 && !polls[0].destroyRequested {
      RunMonotone(Dispatch(f, polls[0].source), polls[1..]);
    }
  }

  /**
   * A destroy request closes the window, and the polling stops right after
   * the first one: the items behind it are left unprocessed.
   */
  lemma {:induction false} RunStopsAtDestroy(f: Flags, polls: seq<Poll>, i: nat)
    requires i < |polls| && polls[i].destroyRequested
    requires forall k :: 0 <= k < i ==> !polls[k].destroyRequested
    ensures Run(f, polls).shouldClose
    ensures Processed(polls) == i + 1
    ensures Run(f, polls) == Run(f, polls[..i + 1])
    decreases i
  {
    if i > 0 {
      RunStopsAtDestroy(Dispatch(f, polls[0].source), polls[1..], i - 1);
      assert polls[..i + 1][1..] == polls[1..][..i];
    }
  }

  /** Without a destroy request every pending item is processed. */
  lemma {:induction false} RunDrainsAll(polls: seq<Poll>)
    requires forall k :: 0 <= k < |polls| ==> !polls[k].destroyRequested
    ensures Processed(polls) == |polls|
    decreases |polls|
  {
    if |polls| > 0 {
      RunDrainsAll(polls[1..]);
    }
  }

  /** The static flags of src/window_android.c. */
  class Window {
    var windowReady: bool
    var shouldClose: bool
    var thrust: bool

    function State(): (f: Flags)
      reads this
    {
      Flags(windowReady, shouldClose, thrust)
    }

    /** The initialisers of the statics. */
    constructor ()
      ensures State() == Flags(false, false, false)
    {
      windowReady, shouldClose, thrust := false, false, false;
    }

    /** on_app_cmd. */
    method OnAppCmd(cmd: int)
      modifies this
      ensures State() == CmdEffect(old(State()), cmd)
    {
      if cmd == AppCmdInitWindow {
        windowReady := true;
      } else if cmd == AppCmdTermWindow {
        shouldClose := true;
      }
    }

    /** on_input_event. */
    method OnInputEvent(e: InputEvent) returns (handled: int)
      modifies this
      ensures handled == Handled(e)
      ensures State() == InputEffect(old(State()), e)
    {
      if e.eventType == InputEventTypeMotion {
        if e.action == ActionDown {
          thrust := true;
        } else if e.action == ActionUp {
          thrust := false;
        }
        return 1;
      }
      return 0;
    }

    /** window_update: the polling loop, returning how many items it processed. */
    method Update(polls: seq<Poll>) returns (processed: nat)
      modifies this
      ensures State() == Run(old(State()), polls)
      ensures processed == Processed(polls)
    {
      var i := 0;
      while i < |polls|
        invariant i <= |polls|
        invariant Run(State(), polls[i..]) == Run(old(State()), polls)
        invariant Processed(polls) == i + Processed(polls[i..])
      {
        assert polls[i..][1..] == polls[i + 1..];
        match polls[i].source {
          case None =>
          case Some(Cmd(c)) => OnAppCmd(c);
          case Some(Input(e)) => var _ := OnInputEvent(e);
        }
        if polls[i].destroyRequested {
          shouldClose := true;
          return i + 1;
        }
        i := i + 1;
      }
      return i;
    }

    /** window_should_close. */
    function ShouldClose(): (r: int)
      reads this
      ensures r == 1 <==> shouldClose
    {
      FlagValue(shouldClose)
    }

    /** window_get_thrust. */
    function GetThrust(): (r: int)
      reads this
      ensures r == 1 <==> thrust
    {
      FlagValue(thrust)
    }
  }
}

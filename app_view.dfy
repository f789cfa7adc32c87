/**
 * The launcher window (App in src/App.tsx): two state cells, `isRunning` and
 * `statusMsg`, changed by toggleServer around one awaited backend command,
 * and the status text and button derived from them.
 *
 * The command's settled promise is an input: `Ok(response)` when it resolves,
 * `Err(error)` when it rejects.
 */
module AppView {
  import opened Wrappers

  const IdleText: string := "Ready to launch"
  const LaunchingText: string := "Launching server..."
  const StoppingText: string := "Stopping server..."
  const ErrorPrefix: string := "Error: "
  const StopLabel: string := "STOP"
  const LaunchLabel: string := "LAUNCH"

  /** The backend command a toggle invokes. */
  datatype Command = LaunchServer | StopServer

  /** The two state cells. */
  datatype View = View(isRunning: bool, statusMsg: string)

  /** `useState(false)` and `useState("")`. */
  const InitialView: View := View(false, "")

  /** The status paragraph, `statusMsg || "Ready to launch"`: a non-empty
      message as it is, and never an empty paragraph. */
  function StatusText(v: View): (text: string)
    ensures text != ""
    ensures v.statusMsg != "" ==> text == v.statusMsg
    ensures v.statusMsg == "" ==> text == IdleText
  {
    if v.statusMsg == "" then IdleText else v.statusMsg
  }

  /** The button's text: STOP exactly when the server is believed running. */
  function ButtonLabel(v: View): (text: string)
    ensures text == StopLabel <==> v.isRunning
    ensures text == LaunchLabel <==> !v.isRunning
  {
    if v.isRunning then StopLabel else LaunchLabel
  }

  /** The button's CSS classes: always `launch-btn`, then `stop` exactly when running. */
  function ButtonClass(v: View): (classes: string)
    ensures classes == "launch-btn stop" <==> v.isRunning
    ensures classes == "launch-btn launch" <==> !v.isRunning
  {
    "launch-btn " + (if v.isRunning then "stop" else "launch")
  }

  /** The command the button invokes: stop exactly when the server is believed running. */
  function CommandFor(v: View): (cmd: Command)
    ensures cmd == StopServer <==> v.isRunning
  {
    if v.isRunning then StopServer else LaunchServer
  }

  /** The first half of toggleServer, before the `await`: `isRunning` is kept
      and the status names the command being invoked. */
  function Begin(v: View): (w: View)
    ensures w.isRunning == v.isRunning
    ensures StatusText(w) == if CommandFor(v) == StopServer then StoppingText else LaunchingText
  {
    v.(statusMsg := if v.isRunning then StoppingText else LaunchingText)
  }

  /** The second half, once the command has settled. `wasRunning` is the
      `isRunning` the handler captured when it started: a resolved command
      flips it and shows the response; a rejected one shows the error, and the
      `catch` clears `isRunning` only when the captured value was already false. */
  function Settle(v: View, wasRunning: bool, outcome: Result<string, string>): (w: View)
    ensures outcome.Ok? ==> w == View(!wasRunning, outcome.value)
    ensures outcome.Err? ==> w.statusMsg == ErrorPrefix + outcome.error
    ensures outcome.Err? ==> (w.isRunning <==> v.isRunning && wasRunning)
    ensures outcome.Err? && v.isRunning == wasRunning ==> w.isRunning == v.isRunning
  {
    match outcome
    case Ok(response) =>
      if wasRunning then View(false, response) else View(true, response)
    case Err(error) =>
      var shown := v.(statusMsg := ErrorPrefix + error);
      if !wasRunning then shown.(isRunning := false) else shown
  }

  /** A whole toggle: success flips `isRunning` and shows the response; failure
      shows the error and never changes `isRunning`. */
  function Toggle(v: View, outcome: Result<string, string>): (w: View)
    ensures outcome.Ok? ==> w == View(!v.isRunning, outcome.value)
    ensures outcome.Err? ==> w == View(v.isRunning, ErrorPrefix + outcome.error)
  {
    Settle(Begin(v), v.isRunning, outcome)
  }

  /** Before any toggle the window says "Ready to launch" and offers LAUNCH. */
  lemma InitialDisplay()
    ensures StatusText(InitialView) == IdleText
    ensures ButtonLabel(InitialView) == LaunchLabel && ButtonClass(InitialView) == "launch-btn launch"
    ensures CommandFor(InitialView) == LaunchServer
  {
  }

  /** Toggling while stopped: a launch that resolves marks the server running;
      one that rejects leaves it stopped and shows the error. */
  lemma ToggleWhileStopped(v: View, outcome: Result<string, string>)
    requires !v.isRunning
    ensures outcome.Ok? ==> Toggle(v, outcome) == View(true, outcome.value)
    ensures outcome.Err? ==> Toggle(v, outcome) == View(false, ErrorPrefix + outcome.error)
  {
  }

  /** Toggling while running: a stop that resolves marks the server stopped;
      one that rejects leaves the window believing it still runs. */
  lemma ToggleWhileRunning(v: View, outcome: Result<string, string>)
    requires v.isRunning
    ensures outcome.Ok? ==> Toggle(v, outcome) == View(false, outcome.value)
    ensures outcome.Err? ==> Toggle(v, outcome) == View(true, ErrorPrefix + outcome.error)
    ensures outcome.Err? ==> ButtonLabel(Toggle(v, outcome)) == StopLabel
  {
  }

  /** The window's state cells and toggleServer. */
  class LauncherView {
    var isRunning: bool
    var statusMsg: string

    function Current(): View
      reads this
    {
      View(isRunning, statusMsg)
    }

    constructor ()
      ensures Current() == InitialView
    {
      isRunning, statusMsg := false, "";
    }

    /** Up to the `await`: sets the interim message and picks the command. */
    method BeginToggle() returns (cmd: Command, wasRunning: bool)
      modifies this
      ensures wasRunning == old(isRunning) && cmd == CommandFor(old(Current()))
      ensures Current() == Begin(old(Current()))
    {
      wasRunning := isRunning;
      if isRunning {
        statusMsg := StoppingText;
        cmd := StopServer;
      } else {
        statusMsg := LaunchingText;
        cmd := LaunchServer;
      }
    }

    /** After the `await`: applies the settled command, in the `try` or the `catch`. */
    method FinishToggle(wasRunning: bool, outcome: Result<string, string>)
      modifies this
      ensures Current() == Settle(old(Current()), wasRunning, outcome)
    {
      if outcome.Ok? {
        statusMsg := outcome.value;
        isRunning := !wasRunning;
      } else {
        statusMsg := ErrorPrefix + outcome.error;
        if !wasRunning {
          isRunning := false;
        }
      }
    }

    /** toggleServer, with `outcome` the way the invoked command settles. */
    method ToggleServer(outcome: Result<string, string>) returns (cmd: Command)
      modifies this
      ensures cmd == CommandFor(old(Current()))
      ensures Current() == Toggle(old(Current()), outcome)
    {
      var wasRunning;
      cmd, wasRunning := BeginToggle();
      FinishToggle(wasRunning, outcome);
    }
  }
}

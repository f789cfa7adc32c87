# SPX launcher: a Dafny model

The SPX launcher is a small desktop application (a Tauri backend in Rust, a
React window) that starts and stops a local `spx-server` process. This project
models its three pieces of logic and proves what they promise:

- **The port argument** (`parse_port_from_args`): the second command-line
  argument, read as a Rust `u16` and written back in canonical decimal, or the
  default `"5660"`. Rust's `u16::from_str` (optional `+`, at least one ASCII
  digit, value at most 65535, checked digit by digit) and `u16::to_string` are
  modelled with it (module `PortArgs`, file `port_args.dfy`).
- **The bundle path rule** (`launch_server`, `open_logs_folder`): a file is
  looked for next to the executable, except that on macOS, when the
  executable's directory ends with `Contents/MacOS`, the launcher first pushes
  `../../../` to leave the application bundle (module `BundlePath`).
- **The server slot** (`ServerState`, a `Mutex<Option<Child>>`): launch is a
  no-op when the slot is occupied and otherwise fills it only after every
  fallible step succeeded; stop takes the child out before killing it, so the
  slot is empty afterwards even when the kill fails (module `ServerSlot`: the
  class `ServerState` with the imperative commands, and the functions `Launch`
  and `Stop` that specify them).
- **The window** (`toggleServer` in `App.tsx`): two state cells, `isRunning`
  and `statusMsg`; a toggle shows an interim message, invokes one command and
  applies its outcome; the `catch` consults the `isRunning` captured before the
  toggle (module `AppView`: the class `LauncherView` and the pure `View`
  functions).
- **Window and backend together** (module `Launcher`): the window's
  `isRunning` agrees with the slot as long as no kill fails; a failed kill
  leaves the window showing STOP over an empty slot, and the next click
  reconciles them.

Inputs from the operating system (the executable's path, whether the binary
exists, the configured path, whether spawning, piping, killing or opening a
folder works) are parameters; `canonicalize` is a function parameter from
path to optional path. The mutex is modelled as its poisoned flag plus its
content. Only `launch_server` and `stop_server` lock it. A panic while
`launch_server` holds it poisons it, and from then on both commands return
the `PoisonError` text `"poisoned lock: another task failed inside"`. The
panics modelled are `parent()` of a path that has none: the executable's path
(lib.rs line 112) and the server path (line 144), both before anything is
spawned. `open_logs_folder` panics at line 197 in the same way, but it holds
no lock.

Paths are absolute and written as their components below the root; `..` is
the parent component. `BundlePath.Resolve` resolves `..` lexically (what
`canonicalize` does when no component is a symbolic link) and is used to state
where the bundle rule lands: in the directory that contains `App.app`.

Two consequences of the code, both proved:
- a stop whose kill fails leaves the window's `isRunning` true, because the
  `catch` (App.tsx lines 22-26) clears it only when it was already false;
  `Launcher.FailedKillDiverges` states the result;
- the interim message while launching is `"Launching server..."` (App.tsx
  line 17); `AppView.Begin` states it.

## Model

| member | source | states |
|---|---|---|
| PortArgs.AccumulateDigits | src-tauri/src/lib.rs:28 | the checked digit loop of `u16::from_str` never yields a value above 65535 and never reports `Empty` |
| PortArgs.ParseU16 | src-tauri/src/lib.rs:28 | `parse::<u16>` yields at most 65535, and reports `Empty` exactly for the empty string |
| PortArgs.ToDecimal | src-tauri/src/lib.rs:29 | `to_string` yields a non-empty digit string that starts with `0` exactly when the number is 0 |
| PortArgs.AccumulateDigitsDecimal | src-tauri/src/lib.rs:28 | the checked loop succeeds iff every character is a digit and the unchecked value fits in `u16`, and then returns that value |
| PortArgs.ParseU16Accepts | src-tauri/src/lib.rs:28 | `parse::<u16>` succeeds exactly on an optional `+` followed by one or more digits of value at most 65535, and yields the value of those digits |
| PortArgs.DecimalValueOfToDecimal | src-tauri/src/lib.rs:29 | reading the rendered digits back gives the number |
| PortArgs.ToDecimalCanonical | src-tauri/src/lib.rs:29 | the rendering has no sign and no leading zero |
| PortArgs.ParseToDecimal | src-tauri/src/lib.rs:28-29 | every `u16` survives `to_string` followed by `parse` |
| PortArgs.ToDecimalOfCanonical | src-tauri/src/lib.rs:29 | a canonical decimal string is the rendering of its own value |
| PortArgs.ParsePortFromArgs | src-tauri/src/lib.rs:23-33 | with fewer than two arguments the port is `"5660"`; a `u16` literal in `args[1]` yields the decimal rendering of its value; any other `args[1]` yields `"5660"` |
| PortArgs.PortFromValidArgument | src-tauri/src/lib.rs:28-29 | a `u16` literal in `args[1]` yields the canonical decimal of its value, which is at most 65535 and parses back to that value |
| PortArgs.PortRejects | src-tauri/src/lib.rs:26-32 | an empty, negative, non-numeric or over-65535 `args[1]` yields `"5660"` |
| PortArgs.PortIgnoresOtherArguments | src-tauri/src/lib.rs:24-32 | only `args[1]` affects the port; `args[0]` and later arguments never do |
| PortArgs.DefaultPortIsU16 | src-tauri/src/lib.rs:32 | the default `"5660"` is the canonical rendering of the `u16` 5660 |
| PortArgs.PortIsCanonicalU16 | src-tauri/src/lib.rs:23-33 | whatever the arguments, the port parses as a `u16` and is that number's canonical rendering |
| PortArgs.PortKeepsExactlyCanonical | src-tauri/src/lib.rs:28-29 | the port equals `args[1]` iff `args[1]` is already a canonical decimal of at most 65535; otherwise `+` and leading zeros are dropped or the default is used |
| PortArgs.PortIdempotent | src-tauri/src/lib.rs:23-33 | giving the chosen port back as the argument chooses the same port |
| PortArgs.PortExampleNormalised | src-tauri/src/lib.rs:28-29 | `+08080` becomes `8080` |
| PortArgs.PortExampleOverflow | src-tauri/src/lib.rs:28-32 | `65536` falls back to `"5660"` |
| PortArgs.PortExampleNegative | src-tauri/src/lib.rs:28-32 | `-1` falls back to `"5660"` |
| BundlePath.EndsWith | src-tauri/src/lib.rs:117 | `ends_with` holds exactly when the path is some path followed by the components of the tail (whole components, not characters) |
| BundlePath.Dir | src-tauri/src/lib.rs:112 | `parent()` of a non-root path drops exactly its last component |
| BundlePath.InBundle | src-tauri/src/lib.rs:114-117 | the bundle rule applies exactly on macOS when the directory's last two components are `Contents` and `MacOS` |
| BundlePath.Beside | src-tauri/src/lib.rs:112-128 | on macOS inside a bundle `…/App.app/Contents/MacOS`, the path resolves to the name in the directory that contains `App.app`; wherever the bundle rule does not apply, it resolves to the name in the executable's directory |
| BundlePath.BesideBundleLeavesApp | src-tauri/src/lib.rs:116-119 | inside `App.app/Contents/MacOS` the path resolves to the name inside the directory that contains `App.app` |
| BundlePath.BesideOffMacOS | src-tauri/src/lib.rs:114-120 | on every other target the rule never applies |
| BundlePath.ResolveInAndOut | src-tauri/src/lib.rs:118 | entering three directories and pushing `../../../` comes back to the start |
| BundlePath.LeaveBundleDir | src-tauri/src/lib.rs:117-119 | `App.app/Contents/MacOS` followed by `../../../` resolves to the directory that contains `App.app` |
| BundlePath.LeaveBundle | src-tauri/src/lib.rs:117-128 | a name pushed after leaving the bundle resolves to that name in the directory that contains `App.app` |
| BundlePath.StayInDir | src-tauri/src/lib.rs:128 | pushing a name onto a directory resolves to that name inside the resolved directory |
| ServerSlot.Joined | src-tauri/src/lib.rs:152 | the text of a non-root path starts at the root separator `/` |
| ServerSlot.JoinedPush | src-tauri/src/lib.rs:128 | `push` of one component shows in the path's text as `/` and the component |
| ServerSlot.Quoted | src-tauri/src/lib.rs:152 | `{:?}` of a path is quoted and starts at the root |
| ServerSlot.SpawnFailure | src-tauri/src/lib.rs:152 | the spawn error starts with `"Failed to launch server at "` and ends with the operating system's error |
| ServerSlot.LocateServer | src-tauri/src/lib.rs:111-140 | the binary is found exactly when `current_exe` works and gives a non-root path and either the binary exists beside it or a path is configured; it is then the path beside the executable by the bundle rule, or else the configured one; a failing `current_exe` or configuration gives its error text; a root executable path panics |
| ServerSlot.Launch | src-tauri/src/lib.rs:98-180 | a poisoned lock gives its error; an occupied slot gives `Ok("Server is already running")` unchanged; a failing `current_exe` or configuration gives its error text unchanged; `"Server is running"` is replied exactly when an empty slot gets filled, and only with the spawned child after both pipes were taken; every error leaves the slot as it was; a panic poisons the lock over an empty slot and spawns nothing; a spawn is attempted exactly when the slot is free and the binary is found at a path with a parent, and it runs that path with the path's parent as working directory |
| ServerSlot.Stop | src-tauri/src/lib.rs:183-192 | stop never panics; unpoisoned, it always leaves the slot empty, replying `"Server stopped"` or the kill error for an occupied slot and `"Server was not running"` for an empty one |
| ServerSlot.LaunchSucceedsExactly | src-tauri/src/lib.rs:131-179 | a launch succeeds iff the slot is free and unpoisoned, the binary is found at a path with a parent, and spawning and both pipes work |
| ServerSlot.LaunchRunsServerBesideApp | src-tauri/src/lib.rs:111-148 | launched from `App.app/Contents/MacOS` with the binary present, the program spawned resolves to `spx-server` in the directory that contains `App.app`, and its working directory resolves to that directory |
| ServerSlot.LaunchRunsServerBesideExe | src-tauri/src/lib.rs:111-148 | outside a bundle, with the binary present, the program spawned is `spx-server` in the executable's directory, run in that directory |
| ServerSlot.LaunchRunsConfiguredServer | src-tauri/src/lib.rs:131-148 | without the binary beside the executable, the configured path is spawned, run in its own parent directory |
| ServerSlot.LaunchUsesBinaryBesideExe | src-tauri/src/lib.rs:128-152 | when the binary exists next to the executable and spawning it fails, the launch tried that path in its parent directory, the error names it, and the slot is unchanged |
| ServerSlot.LaunchPipeFailureForgetsChild | src-tauri/src/lib.rs:154-155 | a missing stdout or stderr pipe gives its error and leaves the slot empty although a process was spawned |
| ServerSlot.StopIdempotent | src-tauri/src/lib.rs:186-191 | a second stop leaves the slot as the first left it and replies `"Server was not running"` |
| ServerSlot.PoisonIsPermanent | src-tauri/src/lib.rs:99-103 | once poisoned, launch and stop both return the poison error and never change the slot |
| ServerSlot.ServerState.constructor | src-tauri/src/lib.rs:248-250 | the slot starts empty and unpoisoned |
| ServerSlot.ServerState.LaunchServer | src-tauri/src/lib.rs:98-180 | the step-by-step launch leaves the slot, replies and records the spawn call as `Launch` specifies |
| ServerSlot.ServerState.StopServer | src-tauri/src/lib.rs:183-192 | take-then-kill leaves the slot and replies as `Stop` specifies |
| ServerSlot.FolderOpener | src-tauri/src/lib.rs:214-236 | a folder opener is named exactly on macOS, Windows and Linux |
| ServerSlot.LogsFolder | src-tauri/src/lib.rs:197-210 | unless a symbolic link intervenes (`canonicalize` either fails or resolves `..` lexically), the folder opened resolves to `LOG` in the directory that contains `App.app` from inside `App.app/Contents/MacOS`, and to `LOG` in the executable's directory wherever the bundle rule does not apply |
| ServerSlot.LogsFolderBesideApp | src-tauri/src/lib.rs:196-210 | from `App.app/Contents/MacOS`, when `canonicalize` resolves `..` lexically the folder opened is `LOG` in the directory that contains `App.app`; when it fails, the path opened still resolves there |
| ServerSlot.OpenLogsFolder | src-tauri/src/lib.rs:195-239 | a failing `current_exe` is returned and a root executable path panics, both opening nothing; otherwise the target's opener (`open`, `explorer`, `xdg-open`, none elsewhere) gets `canonicalize` of the LOG path by the bundle rule, or that path itself when `canonicalize` fails; a spawn failure is reported with its prefix |
| AppView.StatusText | src/App.tsx:36 | a non-empty message is shown as it is, an empty one as `"Ready to launch"`; the text is never empty |
| AppView.ButtonLabel | src/App.tsx:48 | the button reads STOP exactly when `isRunning`, LAUNCH exactly when not |
| AppView.ButtonClass | src/App.tsx:45 | the class is `launch-btn stop` exactly when `isRunning`, `launch-btn launch` exactly when not |
| AppView.CommandFor | src/App.tsx:11-18 | the button invokes `stop_server` exactly when `isRunning`, `launch_server` otherwise |
| AppView.Begin | src/App.tsx:11-17 | before the `await`, `isRunning` is kept and the status names the command invoked: `"Stopping server..."` or `"Launching server..."` |
| AppView.Settle | src/App.tsx:13-26 | a resolved command flips the captured `isRunning` and shows the response; a rejected one shows `"Error: " + error` and leaves `isRunning` true only when it was and the captured value was too |
| AppView.Toggle | src/App.tsx:9-28 | a resolved command flips `isRunning` and shows the response; a rejected one shows `"Error: " + error` and leaves `isRunning` as it was |
| AppView.InitialDisplay | src/App.tsx:6-48 | initially the text is `"Ready to launch"`, the button reads LAUNCH with class `launch-btn launch`, and a click launches |
| AppView.ToggleWhileStopped | src/App.tsx:16-26 | from stopped, a resolved launch sets running with the response; a rejected one stays stopped and shows the error |
| AppView.ToggleWhileRunning | src/App.tsx:11-26 | from running, a resolved stop sets stopped with the response; a rejected one stays running, still offering STOP |
| AppView.LauncherView.constructor | src/App.tsx:6-7 | `isRunning` starts false and `statusMsg` empty |
| AppView.LauncherView.BeginToggle | src/App.tsx:11-18 | picks the command from `isRunning`, captures it, and sets the interim message |
| AppView.LauncherView.FinishToggle | src/App.tsx:13-26 | applies the settled outcome as the `try` or `catch` does |
| AppView.LauncherView.ToggleServer | src/App.tsx:9-28 | the whole handler issues the command `isRunning` selects and ends in the state `Toggle` specifies |
| Launcher.Click | src/App.tsx:9-28 | a click changes the slot by the command the window picks; a flip of `isRunning` to true leaves a child in the slot and a flip to false leaves it empty; a launch that panics poisons the slot and leaves the interim message; over a poisoned slot only the message changes, to the poison error |
| Launcher.Run | src/App.tsx:9-28 | once the mutex is poisoned, no sequence of clicks changes the slot or whether the button offers STOP |
| Launcher.ClickAgreement | src/App.tsx:9-28 | from a state where `isRunning` agrees with the slot, a click keeps agreement iff it is not a stop whose kill fails |
| Launcher.FailedKillDiverges | src/App.tsx:22-26 | after a failed kill the slot is empty while the window shows the error and STOP |
| Launcher.NextClickRecovers | src-tauri/src/lib.rs:189-190 | from that state the next click replies `"Server was not running"` and the two agree again |
| Launcher.RunAgrees | src/App.tsx:9-28 | every sequence of clicks without a failed kill keeps window and slot in agreement |
| Launcher.LaunchThenFailedKill | src/App.tsx:9-28 | from the start, a successful launch then a failed kill reaches the divergent state |

## Left out

- The stdout/stderr forwarding threads and `emit("server-log")` (lib.rs 157-175): concurrency and event emission; the model keeps only that both pipes must be taken.
- `std::thread::spawn` panicking (lib.rs 158 and 168): it would panic after the server was spawned, poisoning the lock while a process runs that the slot does not hold; the model lets both threads start.
- `println!` panicking when standard output cannot be written (lib.rs 134-136, 142 and 145, all while the lock is held): logging is not modelled, so these panics are not either.
- Relative server paths: paths are absolute, so a relative configured path is not representable; an empty configured path has no parent and panics at lib.rs 144, the outcome the model gives the root path.
- `check_for_config` (lib.rs 35-86): file reads and writes, JSON and the file dialog; it is an input that yields a path or an error text.
- `env::current_exe`, `Path::exists`, `canonicalize`, `Command::spawn`, `Child::kill` and spawning the folder opener: operating-system calls, modelled only by their outcomes as inputs; the model does not capture that a killed process ends or that a dropped `Child` keeps running.
- `println!` output and `console.error`: logging only.
- `get_port` (lib.rs 88-91): it returns the port chosen at start-up unchanged, which `PortArgs.ParsePortFromArgs` models.
- `env::args` panicking on an argument that is not valid Unicode: arguments are modelled as strings.
- The Tauri builder and `run` beyond the initial empty slot; React rendering and CSS; the Logs, Help and Support buttons, which have no handler.
- Clicks made while a command is still in flight (the button is not disabled), and two commands contending for the mutex: concurrency; each click is modelled as completing before the next.
- ServerSlot.Quoted: renders a path for `{:?}` with `/` separators and without Rust's escaping of quotes, backslashes and control characters; Windows paths (backslash separators, drive prefixes, and the doubled `\\` the debug form prints) are not modelled.
- Launcher.Click: assumes that a command that panics never settles its `invoke`, so the window keeps the interim message.
- BundlePath.Resolve: resolves `..` lexically; symbolic links and `.` components are not modelled.

/**
 * The backend's server slot (launch_server, stop_server and open_logs_folder
 * in src-tauri/src/lib.rs): a `Mutex<Option<Child>>` holding the spawned
 * server process, if any.
 *
 * Everything the operating system decides (the executable's path, whether a
 * file exists, the configured path, whether spawning, piping or killing
 * works) is an input. The mutex is its poisoned flag and its content; only
 * launch_server and stop_server lock it. A panic while launch_server holds it
 * poisons it; the panics modelled are `parent()` of a path that has no parent
 * (lines 112 and 144), both before anything is spawned.
 */
module ServerSlot {
  import opened Wrappers
  import opened BundlePath

  /** Handle of a spawned server process; the model only tells handles apart. */
  datatype Child = Child(pid: nat)

  /** The file names looked for next to the executable. */
  const ServerBinary: string := "spx-server"
  const LogsDir: string := "LOG"

  /** The replies of the two commands. */
  const AlreadyRunning: string := "Server is already running"
  const Running: string := "Server is running"
  const Stopped: string := "Server stopped"
  const NotRunning: string := "Server was not running"
  const NoStdout: string := "Failed to open stdout"
  const NoStderr: string := "Failed to open stderr"

  /** `PoisonError::to_string()`, the error of `lock()` on a poisoned mutex. */
  const PoisonedLock: string := "poisoned lock: another task failed inside"

  /** The state of `ServerState.child`: whether the mutex is poisoned, and the slot it guards. */
  datatype Slot = Slot(poisoned: bool, child: Option<Child>)

  /** The state `run` starts with: `Mutex::new(None)`. */
  const InitialSlot: Slot := Slot(false, None)

  /** What a command call produces: its result, or a panic (no reply at all). */
  datatype Reply<T> = Replied(result: Result<T, string>) | Panicked

  /** The server program a launch runs (`Command::new(&server_path)`) and its
      working directory (`current_dir(server_dir)`, the program's parent). */
  datatype SpawnCall = SpawnCall(program: Path, workingDir: Path)

  /** The slot after a command, the command's reply, and the program it tried to spawn, if any. */
  datatype Transition = Transition(slot: Slot, reply: Reply<string>, spawned: Option<SpawnCall>)

  /** What the operating system answers during one launch_server. */
  datatype LaunchEnv = LaunchEnv(
    os: Os,
    currentExe: Result<Path, string>,  // env::current_exe()
    serverExists: bool,                // Path::exists of the binary next to the executable
    config: Result<Path, string>,      // check_for_config, asked only when that binary is missing
    spawn: Result<Child, string>,      // Command::spawn
    stdoutPiped: bool,                 // child.stdout.take() is Some
    stderrPiped: bool)                 // child.stderr.take() is Some

  /** The components of a path, each after a '/'. */
  function Joined(p: Path): (r: string)
    ensures p != [] ==> |r| > 0 && r[0] == '/'
  {
    if p == [] then "" else "/" + p[0] + Joined(p[1..])
  }

  /** `PathBuf::push` of one component shows in the path's text as a separator and the component. */
  lemma {:induction false} JoinedPush(p: Path, c: string)
    ensures Joined(p + [c]) == Joined(p) + "/" + c
    decreases |p|
  {
    if p == [] {
      assert [c][1..] == [];
    } else {
      assert (p + [c])[0] == p[0] && (p + [c])[1..] == p[1..] + [c];
      JoinedPush(p[1..], c);
    }
  }

  /** A path as `{:?}` prints it: quoted, starting at the root. */
  function Quoted(p: Path): (r: string)
    ensures |r| >= 3 && r[0] == '"' && r[|r| - 1] == '"' && r[1] == '/'
  {
    "\"" + (if p == [] then "/" else Joined(p)) + "\""
  }

  /** The error of a failed spawn (line 152): the path tried, then the operating system's reason. */
  function SpawnFailure(path: Path, error: string): (r: string)
    ensures |r| > |SpawnFailurePrefix| + |error|
    ensures r[..|SpawnFailurePrefix|] == SpawnFailurePrefix && r[|r| - |error|..] == error
  {
    SpawnFailurePrefix + Quoted(path) + ": " + error
  }

  const SpawnFailurePrefix: string := "Failed to launch server at "

  /** Where launch_server finds the server binary (lines 111-140). */
  datatype Lookup = Found(path: Path) | LookupFailed(error: string) | LookupPanics

  /** The binary next to the executable (by the bundle rule) when it exists,
      otherwise the configured one; a failing `current_exe` or configuration
      is the error; a root executable path panics in `parent().unwrap()`. */
  function LocateServer(env: LaunchEnv): (l: Lookup)
    ensures l.LookupPanics? <==> env.currentExe == Ok([])
    ensures l.Found? <==> env.currentExe.Ok? && env.currentExe.value != [] && (env.serverExists || env.config.Ok?)
    ensures l.Found? && env.serverExists ==> l.path == Beside(Dir(env.currentExe.value), env.os, ServerBinary)
    ensures l.Found? && !env.serverExists ==> env.config == Ok(l.path)
    ensures l.LookupFailed? ==> l.error == if env.currentExe.Err? then env.currentExe.error else env.config.error
  {
    match env.currentExe
    case Err(e) => LookupFailed(e)
    case Ok(exe) =>
      if exe == [] then LookupPanics
      else if env.serverExists then Found(Beside(Dir(exe), env.os, ServerBinary))
      else match env.config
        case Err(e) => LookupFailed(e)
        case Ok(configured) => Found(configured)
  }

  /** launch_server: a no-op on an occupied slot; otherwise the slot is filled
      only once every step has succeeded, and every error leaves it as it was.
      The program spawned is the one LocateServer finds, run in its own directory. */
  function Launch(s: Slot, env: LaunchEnv): (t: Transition)
    ensures s.poisoned ==> t == Transition(s, Replied(Err(PoisonedLock)), None)
    ensures !s.poisoned && s.child.Some? ==> t == Transition(s, Replied(Ok(AlreadyRunning)), None)
    ensures s == InitialSlot && env.currentExe.Err? ==>
      t == Transition(s, Replied(Err(env.currentExe.error)), None)
    ensures s == InitialSlot && env.currentExe.Ok? && env.currentExe.value != [] && !env.serverExists && env.config.Err? ==>
      t == Transition(s, Replied(Err(env.config.error)), None)
    ensures t.reply == Replied(Ok(Running)) <==> s.child.None? && t.slot.child.Some?
    ensures t.slot.child != s.child ==>
      env.spawn.Ok? && env.stdoutPiped && env.stderrPiped && t.slot == Slot(false, Some(env.spawn.value))
      && t.spawned.Some?
    ensures t.reply.Replied? && t.reply.result.Err? ==> t.slot == s
    ensures t.reply.Panicked? <==> !s.poisoned && t.slot.poisoned
    ensures t.reply.Panicked? ==> t.slot == Slot(true, None) && t.spawned == None
    ensures t.spawned.Some? <==> s == InitialSlot && LocateServer(env).Found? && LocateServer(env).path != []
    ensures t.spawned.Some? ==>
      t.spawned.value == SpawnCall(LocateServer(env).path, Dir(LocateServer(env).path))
  {
    if s.poisoned then Transition(s, Replied(Err(PoisonedLock)), None)
    else if s.child.Some? then Transition(s, Replied(Ok(AlreadyRunning)), None)
    else match LocateServer(env)
      case LookupFailed(e) => Transition(s, Replied(Err(e)), None)
      case LookupPanics => Transition(s.(poisoned := true), Panicked, None)
      case Found(path) =>
        if path == [] then Transition(s.(poisoned := true), Panicked, None)
        else
          var call := Some(SpawnCall(path, Dir(path)));
          if env.spawn.Err? then Transition(s, Replied(Err(SpawnFailure(path, env.spawn.error))), call)
          else if !env.stdoutPiped then Transition(s, Replied(Err(NoStdout)), call)
          else if !env.stderrPiped then Transition(s, Replied(Err(NoStderr)), call)
          else Transition(s.(child := Some(env.spawn.value)), Replied(Ok(Running)), call)
  }

  /** stop_server: the child is taken out of the slot before it is killed, so
      the slot ends empty whether or not the kill works. */
  function Stop(s: Slot, kill: Outcome<string>): (t: Transition)
    ensures t.reply.Replied? && t.spawned == None
    ensures s.poisoned ==> t == Transition(s, Replied(Err(PoisonedLock)), None)
    ensures !s.poisoned ==> t.slot == InitialSlot
    ensures !s.poisoned && s.child.Some? ==>
      t.reply.result == if kill.Pass? then Ok(Stopped) else Err(kill.error)
    ensures !s.poisoned && s.child.None? ==> t.reply == Replied(Ok(NotRunning))
  {
    if s.poisoned then Transition(s, Replied(Err(PoisonedLock)), None)
    else match s.child
      case Some(_) =>
        var emptied := s.(child := None);
        (match kill
         case Pass => Transition(emptied, Replied(Ok(Stopped)), None)
         case Fail(e) => Transition(emptied, Replied(Err(e)), None))
      case None => Transition(s, Replied(Ok(NotRunning)), None)
  }

  /** A launch succeeds exactly when the slot is free, the binary is found at a
      path that has a parent, and spawning and both pipes work. */
  lemma LaunchSucceedsExactly(s: Slot, env: LaunchEnv)
    ensures Launch(s, env).reply == Replied(Ok(Running)) <==>
      && s == InitialSlot
      && LocateServer(env).Found? && LocateServer(env).path != []
      && env.spawn.Ok? && env.stdoutPiped && env.stderrPiped
  {
  }

  /** Launched from inside App.app/Contents/MacOS with the binary in place, the
      server that runs is spx-server in the directory that contains App.app,
      and it runs in that directory. */
  lemma LaunchRunsServerBesideApp(env: LaunchEnv, base: Path, app: string, exeName: string)
    requires IsName(app) && env.os == MacOS && env.currentExe == Ok(base + [app] + BundleTail + [exeName])
    requires env.serverExists
    ensures Launch(InitialSlot, env).spawned.Some?
    ensures Resolve(Launch(InitialSlot, env).spawned.value.program) == Resolve(base) + [ServerBinary]
    ensures Resolve(Launch(InitialSlot, env).spawned.value.workingDir) == Resolve(base)
  {
    var exeDir := base + [app] + BundleTail;
    assert Dir(env.currentExe.value) == exeDir;
    BesideBundleLeavesApp(base, app, ServerBinary);
    var path := Beside(exeDir, MacOS, ServerBinary);
    assert path == exeDir + OutOfBundle + [ServerBinary] by {
      assert exeDir[|exeDir| - 2..] == BundleTail;
    }
    assert Dir(path) == exeDir + OutOfBundle;
    LeaveBundleDir(base, app);
  }

  /** Outside a bundle, the server that runs is spx-server in the executable's
      own directory, run in that directory. */
  lemma LaunchRunsServerBesideExe(env: LaunchEnv, exe: Path)
    requires env.currentExe == Ok(exe) && exe != [] && !InBundle(Dir(exe), env.os)
    requires env.serverExists
    ensures Launch(InitialSlot, env).spawned == Some(SpawnCall(Dir(exe) + [ServerBinary], Dir(exe)))
  {
    var path := Beside(Dir(exe), env.os, ServerBinary);
    assert path == Dir(exe) + [ServerBinary];
    assert Dir(path) == Dir(exe);
  }

  /** Without the binary next to the executable, the configured path is run, in its own directory. */
  lemma LaunchRunsConfiguredServer(env: LaunchEnv, configured: Path)
    requires env.currentExe.Ok? && env.currentExe.value != []
    requires !env.serverExists && env.config == Ok(configured) && configured != []
    ensures Launch(InitialSlot, env).spawned == Some(SpawnCall(configured, Dir(configured)))
  {
  }

  /** When the binary is present next to the executable, that is the path the
      launch names when spawning fails. */
  lemma LaunchUsesBinaryBesideExe(s: Slot, env: LaunchEnv, exe: Path, error: string)
    requires s == InitialSlot && env.currentExe == Ok(exe) && exe != []
    requires env.serverExists && env.spawn == Err(error)
    ensures var path := Beside(Dir(exe), env.os, ServerBinary);
      Launch(s, env) == Transition(s, Replied(Err(SpawnFailure(path, error))), Some(SpawnCall(path, Dir(path))))
  {
  }

  /** A launch that fails after spawning (a missing pipe) still leaves the slot
      empty: the spawned process is no longer tracked. */
  lemma LaunchPipeFailureForgetsChild(s: Slot, env: LaunchEnv)
    requires s == InitialSlot && LocateServer(env).Found? && LocateServer(env).path != []
    requires env.spawn.Ok? && !(env.stdoutPiped && env.stderrPiped)
    ensures Launch(s, env).slot == InitialSlot && Launch(s, env).spawned.Some?
    ensures Launch(s, env).reply == Replied(Err(if env.stdoutPiped then NoStderr else NoStdout))
  {
  }

  /** Stopping twice is the same as stopping once, and the second stop reports
      that nothing was running. */
  lemma StopIdempotent(s: Slot, first: Outcome<string>, second: Outcome<string>)
    ensures Stop(Stop(s, first).slot, second).slot == Stop(s, first).slot
    ensures !s.poisoned ==> Stop(Stop(s, first).slot, second).reply == Replied(Ok(NotRunning))
  {
  }

  /** Once poisoned, the mutex stays poisoned and its slot never changes again. */
  lemma PoisonIsPermanent(s: Slot, env: LaunchEnv, kill: Outcome<string>)
    requires s.poisoned
    ensures Launch(s, env).slot == s && Stop(s, kill).slot == s
    ensures Launch(s, env).reply == Replied(Err(PoisonedLock)) && Stop(s, kill).reply == Replied(Err(PoisonedLock))
  {
  }

  /** The shared state the commands lock (`ServerState`). */
  class ServerState {
    var poisoned: bool
    var child: Option<Child>

    function State(): Slot
      reads this
    {
      Slot(poisoned, child)
    }

    constructor ()
      ensures State() == InitialSlot
    {
      poisoned, child := false, None;
    }

    /** launch_server, step by step. */
    method LaunchServer(env: LaunchEnv) returns (reply: Reply<string>, spawned: Option<SpawnCall>)
      modifies this
      ensures Transition(State(), reply, spawned) == Launch(old(State()), env)
    {
      spawned := None;
      if poisoned {
        return Replied(Err(PoisonedLock)), None;
      }
      if child.Some? {
        return Replied(Ok(AlreadyRunning)), None;
      }
      if env.currentExe.Err? {
        return Replied(Err(env.currentExe.error)), None;
      }
      var exe := env.currentExe.value;
      if exe == [] {
        poisoned := true;  // exe_path.parent().unwrap() panics while the lock is held
        return Panicked, None;
      }
      var serverPath := Dir(exe);
      if env.os == MacOS && EndsWith(serverPath, BundleTail) {
        serverPath := serverPath + OutOfBundle;
      }
      serverPath := serverPath + [ServerBinary];
      if !env.serverExists {
        if env.config.Err? {
          return Replied(Err(env.config.error)), None;
        }
        serverPath := env.config.value;
      }
      if serverPath == [] {
        poisoned := true;  // server_path.parent().expect(..) panics while the lock is held
        return Panicked, None;
      }
      var serverDir := Dir(serverPath);
      spawned := Some(SpawnCall(serverPath, serverDir));
      if env.spawn.Err? {
        return Replied(Err(SpawnFailure(serverPath, env.spawn.error))), spawned;
      }
      var started := env.spawn.value;
      if !env.stdoutPiped {
        return Replied(Err(NoStdout)), spawned;
      }
      if !env.stderrPiped {
        return Replied(Err(NoStderr)), spawned;
      }
      child := Some(started);
      return Replied(Ok(Running)), spawned;
    }

    /** stop_server: `take()` the child, then kill it. */
    method StopServer(kill: Outcome<string>) returns (result: Result<string, string>)
      modifies this
      ensures Transition(State(), Replied(result), None) == Stop(old(State()), kill)
    {
      if poisoned {
        return Err(PoisonedLock);
      }
      var taken := child;
      child := None;
      if taken.Some? {
        if kill.Fail? {
          return Err(kill.error);
        }
        return Ok(Stopped);
      }
      return Ok(NotRunning);
    }
  }

  // ---------------------------------------------------------------------------
  // open_logs_folder

  /** The program that opens a folder on each target, if the code names one. */
  function FolderOpener(os: Os): (opener: Option<string>)
    ensures opener.Some? <==> os != OtherOs
  {
    match os
    case MacOS => Some("open")
    case Windows => Some("explorer")
    case Linux => Some("xdg-open")
    case OtherOs => None
  }

  /** A program started with one path argument. */
  datatype OpenerCall = OpenerCall(program: string, target: Path)

  const OpenFailurePrefix: string := "Failed to open logs folder: "

  /** `canonicalize` either fails on `p` or resolves its ".." components
      lexically (no symbolic link on the way). */
  predicate Lexical(canonicalize: Path -> Option<Path>, p: Path) {
    canonicalize(p) == None || canonicalize(p) == Some(Resolve(p))
  }

  /** The folder open_logs_folder opens: LOG next to the executable (by the
      bundle rule), replaced by what `canonicalize` returns for it when that
      succeeds. Unless a symbolic link intervenes, it is LOG in the directory
      that contains App.app when the executable is inside App.app/Contents/MacOS,
      and LOG in the executable's directory otherwise. */
  function LogsFolder(exeDir: Path, os: Os, canonicalize: Path -> Option<Path>): (folder: Path)
    ensures Lexical(canonicalize, Beside(exeDir, os, LogsDir)) && InBundle(exeDir, os) && |exeDir| >= 3 && IsName(exeDir[|exeDir| - 3]) ==>
      Resolve(folder) == Resolve(exeDir[..|exeDir| - 3]) + [LogsDir]
    ensures Lexical(canonicalize, Beside(exeDir, os, LogsDir)) && !InBundle(exeDir, os) ==>
      Resolve(folder) == Resolve(exeDir) + [LogsDir]
  {
    var logs := Beside(exeDir, os, LogsDir);
    ResolveIdempotent(logs);
    canonicalize(logs).GetOr(logs)
  }

  /** From inside App.app/Contents/MacOS, when `canonicalize` resolves ".."
      lexically (no symbolic links), the folder opened is LOG in the directory
      that contains App.app; when it fails, the path opened still resolves there. */
  lemma LogsFolderBesideApp(base: Path, app: string, canonicalize: Path -> Option<Path>)
    requires IsName(app)
    ensures var exeDir := base + [app] + BundleTail;
      var logs := Beside(exeDir, MacOS, LogsDir);
      && (canonicalize(logs) == Some(Resolve(logs)) ==> LogsFolder(exeDir, MacOS, canonicalize) == Resolve(base) + [LogsDir])
      && (canonicalize(logs) == None ==> Resolve(LogsFolder(exeDir, MacOS, canonicalize)) == Resolve(base) + [LogsDir])
  {
    BesideBundleLeavesApp(base, app, LogsDir);
  }

  /** open_logs_folder: the LOG folder, canonicalized when that works, handed
      to the target's folder opener. */
  method OpenLogsFolder(os: Os, currentExe: Result<Path, string>, canonicalize: Path -> Option<Path>, spawn: Outcome<string>)
    returns (call: Option<OpenerCall>, reply: Reply<()>)
    ensures currentExe.Err? ==> call == None && reply == Replied(Err(currentExe.error))
    ensures currentExe == Ok([]) ==> call == None && reply == Panicked
    ensures currentExe.Ok? && currentExe.value != [] ==>
      var target := LogsFolder(Dir(currentExe.value), os, canonicalize);
      && call == (if FolderOpener(os).Some? then Some(OpenerCall(FolderOpener(os).value, target)) else None)
      && reply == (if FolderOpener(os).Some? && spawn.Fail? then Replied(Err(OpenFailurePrefix + spawn.error)) else Replied(Ok(())))
  {
    if currentExe.Err? {
      return None, Replied(Err(currentExe.error));
    }
    var exe := currentExe.value;
    if exe == [] {
      return None, Panicked;  // exe_path.parent().unwrap()
    }
    var logsPath := Dir(exe);
    if os == MacOS && EndsWith(logsPath, BundleTail) {
      logsPath := logsPath + OutOfBundle;
    }
    logsPath := logsPath + [LogsDir];
    logsPath := canonicalize(logsPath).GetOr(logsPath);
    call, reply := None, Replied(Ok(()));
    var opener := FolderOpener(os);
    if opener.Some? {
      call := Some(OpenerCall(opener.value, logsPath));
      if spawn.Fail? {
        reply := Replied(Err(OpenFailurePrefix + spawn.error));
      }
    }
  }
}

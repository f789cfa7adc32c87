/**
 * The window and the backend together: each click on the button runs
 * toggleServer (src/App.tsx), which invokes launch_server or stop_server
 * (src-tauri/src/lib.rs) on the shared slot and shows the reply.
 *
 * The window's `isRunning` and the slot agree as long as no kill fails: a
 * failed kill empties the slot but leaves the window showing STOP, and the
 * next click brings them back together.
 */
module Launcher {
  import opened Wrappers
  import S = ServerSlot
  import V = AppView

  /** The window's state cells and the backend's slot. */
  datatype System = System(view: V.View, slot: S.Slot)

  /** What the operating system answers to the command of one click. */
  datatype Inputs = Inputs(launch: S.LaunchEnv, kill: Outcome<string>)

  const Start: System := System(V.InitialView, S.InitialSlot)

  /** One click. A command that panics never settles its `invoke`, so the
      window keeps the interim message. The slot follows the command the
      window picks; a flip of `isRunning` to true leaves a child in the slot
      and a flip to false leaves the slot empty; a poisoned slot changes
      nothing but the message. */
  function Click(sys: System, inputs: Inputs): (next: System)
    ensures next.slot == if sys.view.isRunning then S.Stop(sys.slot, inputs.kill).slot else S.Launch(sys.slot, inputs.launch).slot
    ensures !sys.view.isRunning && next.view.isRunning ==> next.slot.child.Some?
    ensures sys.view.isRunning && !next.view.isRunning ==> next.slot == S.InitialSlot
    ensures !sys.view.isRunning && S.Launch(sys.slot, inputs.launch).reply.Panicked? ==>
      next == System(V.Begin(sys.view), S.Slot(true, None))
    ensures sys.slot.poisoned ==>
      next == System(V.View(sys.view.isRunning, V.ErrorPrefix + S.PoisonedLock), sys.slot)
  {
    match V.CommandFor(sys.view)
    case StopServer =>
      var t := S.Stop(sys.slot, inputs.kill);
      System(V.Toggle(sys.view, t.reply.result), t.slot)
    case LaunchServer =>
      var t := S.Launch(sys.slot, inputs.launch);
      match t.reply
      case Replied(r) => System(V.Toggle(sys.view, r), t.slot)
      case Panicked => System(V.Begin(sys.view), t.slot)
  }

  /** A sequence of clicks. Once the mutex is poisoned, no click changes the
      slot or what the button offers. */
  function Run(sys: System, clicks: seq<Inputs>): (last: System)
    ensures sys.slot.poisoned ==> last.slot == sys.slot && last.view.isRunning == sys.view.isRunning
    decreases |clicks|
  {
    if clicks == [] then sys else Run(Click(sys, clicks[0]), clicks[1..])
  }

  /** The window believes the server runs exactly when the slot holds a child. */
  predicate Agrees(sys: System) {
    sys.view.isRunning <==> sys.slot.child.Some?
  }

  /** A click from an agreeing state keeps the agreement, unless it is a stop
      whose kill fails. */
  lemma ClickAgreement(sys: System, inputs: Inputs)
    requires Agrees(sys)
    ensures Agrees(Click(sys, inputs)) <==> !(sys.view.isRunning && !sys.slot.poisoned && inputs.kill.Fail?)
  {
  }

  /** A failed kill: the slot is empty, but the window shows the error and still offers STOP. */
  lemma FailedKillDiverges(sys: System, inputs: Inputs)
    requires Agrees(sys) && sys.view.isRunning && !sys.slot.poisoned && inputs.kill.Fail?
    ensures Click(sys, inputs) == System(V.View(true, V.ErrorPrefix + inputs.kill.error), S.InitialSlot)
    ensures V.ButtonLabel(Click(sys, inputs).view) == V.StopLabel
  {
  }

  /** From that state the next click stops nothing, reports so, and agrees again. */
  lemma NextClickRecovers(sys: System, inputs: Inputs)
    requires sys.view.isRunning && sys.slot == S.InitialSlot
    ensures Click(sys, inputs) == System(V.View(false, S.NotRunning), S.InitialSlot)
    ensures Agrees(Click(sys, inputs))
  {
  }

  /** Any run in which no kill fails keeps the agreement. */
  lemma {:induction false} RunAgrees(sys: System, clicks: seq<Inputs>)
    requires Agrees(sys)
    requires forall i :: 0 <= i < |clicks| ==> clicks[i].kill.Pass?
    ensures Agrees(Run(sys, clicks))
    decreases |clicks|
  {
    if clicks != [] {
      ClickAgreement(sys, clicks[0]);
      RunAgrees(Click(sys, clicks[0]), clicks[1..]);
    }
  }

  /** The divergence is reachable: launch, then a stop whose kill fails. */
  lemma LaunchThenFailedKill(launch: S.LaunchEnv, first: Outcome<string>, error: string)
    requires S.LocateServer(launch).Found? && S.LocateServer(launch).path != []
    requires launch.spawn.Ok? && launch.stdoutPiped && launch.stderrPiped
    ensures Run(Start, [Inputs(launch, first)]) == System(V.View(true, S.Running), S.Slot(false, Some(launch.spawn.value)))
    ensures Run(Start, [Inputs(launch, first), Inputs(launch, Fail(error))]) ==
      System(V.View(true, V.ErrorPrefix + error), S.InitialSlot)
  {
    var clicks := [Inputs(launch, first), Inputs(launch, Fail(error))];
    var afterLaunch := Click(Start, clicks[0]);
    assert [Inputs(launch, first)][1..] == [];
    assert afterLaunch == Run(Start, [Inputs(launch, first)]);
    assert clicks[1..][0] == clicks[1] && clicks[1..][1..] == [];
    calc {
      Run(Start, clicks);
      Run(afterLaunch, clicks[1..]);
      Run(Click(afterLaunch, clicks[1]), []);
      System(V.View(true, V.ErrorPrefix + error), S.InitialSlot);
    }
  }
}

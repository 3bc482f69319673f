/**
  The rifle character of the demo application, wired as the demo wires it:
  Idle -(If isRunning)-> Run, Run -(IfNot isRunning)-> Idle,
  Idle -(If isReloading)-> Reload, Reload -> Idle at exit time 0.95.
  Beside it, an illustrative three-child blend tree built with the BlendTree
  operations; the demo itself builds no blend tree.
 */
module DemoScenario {
  import opened Seqs
  import opened BlendTrees
  import opened AnimatorStates

  /** The demo's wiring: three clip states and their four transitions. */
  method BuildRifleMachine()
    returns (idle: AnimatorState, run: AnimatorState, reload: AnimatorState,
             idleToRun: AnimatorStateTransition, runToIdle: AnimatorStateTransition,
             idleToReload: AnimatorStateTransition, reloadToIdle: AnimatorStateTransition)
    ensures fresh(idle) && fresh(run) && fresh(reload)
    ensures idle.name == "Idle" && idle.motion == Clip(Some("RifleIdle")) && idle.speed == 1.0
    ensures run.name == "Run" && run.motion == Clip(Some("RifleRun")) && run.speed == 1.0
    ensures reload.name == "Reload" && reload.motion == Clip(Some("Reloading")) && reload.speed == 1.0
    ensures idle.transitions == [idleToRun, idleToReload]
    ensures run.transitions == [runToIdle]
    ensures reload.transitions == [reloadToIdle]
    ensures idleToRun != idleToReload && idleToRun != runToIdle && idleToRun != reloadToIdle
    ensures idleToReload != runToIdle && idleToReload != reloadToIdle && runToIdle != reloadToIdle
    ensures idleToRun.destinationState == run && !idleToRun.mute && !idleToRun.hasExitTime
    ensures runToIdle.destinationState == idle && !runToIdle.mute && !runToIdle.hasExitTime
    ensures idleToReload.destinationState == reload && !idleToReload.mute && !idleToReload.hasExitTime
    ensures reloadToIdle.destinationState == idle && !reloadToIdle.mute
    ensures reloadToIdle.hasExitTime && reloadToIdle.exitTime == 0.95
  {
    idle := new AnimatorState("Idle", Clip(Some("RifleIdle")));
    run := new AnimatorState("Run", Clip(Some("RifleRun")));
    reload := new AnimatorState("Reload", Clip(Some("Reloading")));
    idleToRun := idle.AddTransition(run);
    runToIdle := run.AddTransition(idle);
    idleToReload := idle.AddTransition(reload);
    reloadToIdle := reload.AddTransitionWithExitTime(idle, 0.95);
  }

  /** Condition evaluation as wired: If isRunning, IfNot isRunning, If isReloading; Reload -> Idle
      has no conditions and fires once the normalized playback time of Reload reaches its exit time. */
  function WiredConditions(isRunning: bool, isReloading: bool, normalizedTime: real, exitTime: real,
                           idleToRun: AnimatorStateTransition, runToIdle: AnimatorStateTransition,
                           idleToReload: AnimatorStateTransition, reloadToIdle: AnimatorStateTransition)
    : (holds: AnimatorStateTransition -> bool)
    requires idleToRun != runToIdle && idleToRun != idleToReload && idleToRun != reloadToIdle
    requires runToIdle != idleToReload && runToIdle != reloadToIdle && idleToReload != reloadToIdle
    ensures holds(idleToRun) <==> isRunning
    ensures holds(runToIdle) <==> !isRunning
    ensures holds(idleToReload) <==> isReloading
    ensures holds(reloadToIdle) <==> normalizedTime >= exitTime
  {
    (t: AnimatorStateTransition) =>
      || (t == idleToRun && isRunning)
      || (t == runToIdle && !isRunning)
      || (t == idleToReload && isReloading)
      || (t == reloadToIdle && normalizedTime >= exitTime)
  }

  /** Stepping Idle: isRunning moves to Run, otherwise isReloading moves to Reload (Idle -> Run
      is declared first, so it wins when both hold); with neither, Idle stays and nothing is issued. */
  method StepIdle(isRunning: bool, isReloading: bool, layerName: string)
    returns (nextName: string, commands: seq<Command>)
    ensures nextName == if isRunning then "Run" else if isReloading then "Reload" else "Idle"
    ensures isRunning ==>
      (&& |commands| == 4
       && commands[0] == SetActionSpeed(Some("RifleRun"), 1.0)
       && commands[1].SetActionTransitionLength? && commands[1].action == Some("RifleRun")
       && commands[2] == SetCurrentAction("RifleRun", layerName)
       && commands[3].SetComposerTime?)
    ensures !isRunning && isReloading ==>
      (&& |commands| == 4
       && commands[0] == SetActionSpeed(Some("Reloading"), 1.0)
       && commands[1].SetActionTransitionLength? && commands[1].action == Some("Reloading")
       && commands[2] == SetCurrentAction("Reloading", layerName)
       && commands[3].SetComposerTime?)
    ensures !isRunning && !isReloading ==> commands == []
  {
    var idle, run, reload, idleToRun, runToIdle, idleToReload, reloadToIdle := BuildRifleMachine();
    var holds := WiredConditions(isRunning, isReloading, 0.0, reloadToIdle.exitTime,
                                 idleToRun, runToIdle, idleToReload, reloadToIdle);
    FirstFiringOfTwo(idleToRun, idleToReload, holds);
    var next;
    next, commands := idle.CheckTransitions(layerName, holds);
    nextName := next.name;
  }

  /** Stepping Run: IfNot isRunning returns to Idle; while running, Run stays. */
  method StepRun(isRunning: bool, layerName: string) returns (nextName: string, commands: seq<Command>)
    ensures nextName == if isRunning then "Run" else "Idle"
    ensures isRunning <==> commands == []
    ensures !isRunning ==> |commands| == 4 && commands[2] == SetCurrentAction("RifleIdle", layerName)
  {
    var idle, run, reload, idleToRun, runToIdle, idleToReload, reloadToIdle := BuildRifleMachine();
    var holds := WiredConditions(isRunning, false, 0.0, reloadToIdle.exitTime,
                                 idleToRun, runToIdle, idleToReload, reloadToIdle);
    FirstFiringOfOne(runToIdle, holds);
    var next;
    next, commands := run.CheckTransitions(layerName, holds);
    nextName := next.name;
  }

  /** Stepping Reload: it returns to Idle once the normalized time reaches the exit time 0.95
      (at 0.5 it stays), whatever the other parameters say. */
  method StepReload(isRunning: bool, isReloading: bool, normalizedTime: real, layerName: string)
    returns (nextName: string)
    ensures nextName == if normalizedTime >= 0.95 then "Idle" else "Reload"
  {
    var idle, run, reload, idleToRun, runToIdle, idleToReload, reloadToIdle := BuildRifleMachine();
    var holds := WiredConditions(isRunning, isReloading, normalizedTime, reloadToIdle.exitTime,
                                 idleToRun, runToIdle, idleToReload, reloadToIdle);
    FirstFiringOfOne(reloadToIdle, holds);
    var next, commands := reload.CheckTransitions(layerName, holds);
    nextName := next.name;
  }

  lemma FirstFiringOfOne(a: AnimatorStateTransition, holds: AnimatorStateTransition -> bool)
    ensures FirstFiring([a], holds) == if !a.mute && holds(a) then Some(0) else None
  {
  }

  lemma FirstFiringOfTwo(a: AnimatorStateTransition, b: AnimatorStateTransition, holds: AnimatorStateTransition -> bool)
    ensures FirstFiring([a, b], holds) ==
      if !a.mute && holds(a) then Some(0) else if !b.mute && holds(b) then Some(1) else None
  {
  }

  /** An illustrative state, not part of the demo: a blend tree with children at thresholds
      0, 0.5 and 1 and time scales 0.8, 1 and 1.2. */
  method BuildLocomotion() returns (state: AnimatorState, children: seq<ChildMotion>)
    ensures fresh(state) && state.motion.Tree? && state.motion.name == Some("Locomotion")
    ensures state.motion.tree.motions == children && |children| == 3
    ensures children[0].threshold == 0.0 && children[0].timeScale == 0.8
    ensures children[1].threshold == 0.5 && children[1].timeScale == 1.0
    ensures children[2].threshold == 1.0 && children[2].timeScale == 1.2
  {
    var tree := new BlendTree(0, 1);
    var walk := tree.AddChildAtThreshold("Walk", 0.0);
    walk.timeScale := 0.8;
    var jog := tree.AddChildAtThreshold("Jog", 0.5);
    jog.timeScale := 1.0;
    var sprint := tree.AddChildAtThreshold("Run", 1.0);
    sprint.timeScale := 1.2;
    children := [walk, jog, sprint];
    state := new AnimatorState("Locomotion", Tree(Some("Locomotion"), tree));
  }

  /** Updating the illustrative blend-tree state: the speed applied is the time scale of the first child whose
      threshold exceeds the parameter value (0.3 selects the child at 0.5, time scale 1), and a value
      at or above the last threshold applies none. */
  method LocomotionBlend(value: real) returns (commands: seq<Command>)
    ensures commands == [SetBlendSpaceValue(Some("Locomotion"), value)] +
      if value < 0.0 then [SetActionSpeed(Some("Locomotion"), 0.8)]
      else if value < 0.5 then [SetActionSpeed(Some("Locomotion"), 1.0)]
      else if value < 1.0 then [SetActionSpeed(Some("Locomotion"), 1.2)]
      else []
  {
    var state, children := BuildLocomotion();
    if value < 0.0 {
      FirstAboveInterval(children, value, 0);
    } else if value < 0.5 {
      FirstAboveInterval(children, value, 1);
    } else if value < 1.0 {
      FirstAboveInterval(children, value, 2);
    }
    commands := state.Update(value);
  }
}

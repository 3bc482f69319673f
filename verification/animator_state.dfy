/**
  AnimatorState: one state of an animator state machine. It owns a motion
  (a clip or a blend tree), a playback speed, an ordered list of outgoing
  transitions (the first one that fires wins) and a list of behaviours.

  The playback commands the source sends to jME's AnimComposer are not
  performed here: each operation returns them, in order, as a list of
  Command values. Whether a transition's conditions hold is decided by
  AnimatorStateTransition.checkConditions, which is not part of this model;
  it is the parameter `holds`.
 */
module AnimatorStates {
  import opened Seqs
  import opened BlendTrees

  /** What a state plays: a clip, or a blend tree. `name` is the name of the
      composer action; a clip motion without a name means "no animation". */
  datatype Motion =
    | Clip(name: Option<string>)
    | Tree(name: Option<string>, tree: BlendTree)

  /** A call on the AnimComposer or on one of its actions. */
  datatype Command =
    | SetActionSpeed(action: Option<string>, speed: real)
    | SetActionTransitionLength(action: Option<string>, length: real)
    | SetCurrentAction(clip: string, layer: string)
    | SetComposerTime(time: real)
    | RemoveCurrentAction(layer: string)
    | SetBlendSpaceValue(action: Option<string>, value: real)

  /** What the composer plays on layer once cmds have been applied in order, starting
      from current: the last SetCurrentAction or RemoveCurrentAction on that layer decides. */
  function LayerAfter(cmds: seq<Command>, layer: string, current: Option<string>): Option<string>
  {
    if cmds == [] then current
    else
      var last := cmds[|cmds| - 1];
      if last.SetCurrentAction? && last.layer == layer then Some(last.clip)
      else if last.RemoveCurrentAction? && last.layer == layer then None
      else LayerAfter(cmds[..|cmds| - 1], layer, current)
  }

  /** The speed of the named action once cmds have been applied in order, starting from
      current: the last SetActionSpeed on that action decides. */
  function SpeedAfter(cmds: seq<Command>, action: string, current: real): real
  {
    if cmds == [] then current
    else
      var last := cmds[|cmds| - 1];
      if last.SetActionSpeed? && last.action == Some(action) then last.speed
      else SpeedAfter(cmds[..|cmds| - 1], action, current)
  }

  /** Commands that set no action speed leave every action's speed as it was. */
  lemma {:induction false} SpeedAfterNoSpeeds(cmds: seq<Command>, tail: seq<Command>, action: string, current: real)
    requires forall k :: 0 <= k < |tail| ==> !tail[k].SetActionSpeed?
    ensures SpeedAfter(cmds + tail, action, current) == SpeedAfter(cmds, action, current)
    decreases |tail|
  {
    if tail == [] {
      assert cmds + tail == cmds;
    } else {
      var init := tail[..|tail| - 1];
      assert (cmds + tail)[..|cmds + tail| - 1] == cmds + init;
      SpeedAfterNoSpeeds(cmds, init, action, current);
    }
  }

  /** A behaviour attached to a state; only its identity matters here. */
  class StateMachineBehaviour {
  }

  /** An edge towards destinationState. */
  class AnimatorStateTransition {
    var destinationState: AnimatorState
    var hasExitTime: bool
    var exitTime: real
    var duration: real
    var offset: real
    var mute: bool

    constructor (destinationState: AnimatorState)
      ensures this.destinationState == destinationState && !hasExitTime && !mute
    {
      this.destinationState := destinationState;
      hasExitTime := false;
      mute := false;
    }
  }

  /** Position of the first transition that is not muted and whose conditions hold. */
  function FirstFiring(ts: seq<AnimatorStateTransition>, holds: AnimatorStateTransition -> bool): (r: Option<nat>)
    reads ts
    ensures r.Some? ==> r.value < |ts| && !ts[r.value].mute && holds(ts[r.value])
    ensures r.Some? ==> forall k :: 0 <= k < r.value ==> ts[k].mute || !holds(ts[k])
    ensures r.None? <==> forall k :: 0 <= k < |ts| ==> ts[k].mute || !holds(ts[k])
  {
    if ts == [] then None
    else if !ts[0].mute && holds(ts[0]) then Some(0)
    else match FirstFiring(ts[1..], holds) {
      case None => None
      case Some(i) => Some(i + 1)
    }
  }

  /** Transitions after the one that fires are never looked at: appending transitions
      changes the outcome only when none of the earlier ones fires. */
  lemma {:induction false} FirstFiringAppend(ts: seq<AnimatorStateTransition>, us: seq<AnimatorStateTransition>,
                                             holds: AnimatorStateTransition -> bool)
    ensures FirstFiring(ts, holds).Some? ==> FirstFiring(ts + us, holds) == FirstFiring(ts, holds)
    ensures FirstFiring(ts, holds).None? && FirstFiring(us, holds).None? ==> FirstFiring(ts + us, holds).None?
    ensures FirstFiring(ts, holds).None? && FirstFiring(us, holds).Some? ==>
      FirstFiring(ts + us, holds) == Some(|ts| + FirstFiring(us, holds).value)
  {
    if ts != [] {
      assert (ts + us)[1..] == ts[1..] + us;
      FirstFiringAppend(ts[1..], us, holds);
    } else {
      assert ts + us == us;
    }
  }

  /** The commands issued when transition fires: start the destination's action with the
      destination's speed, the transition's duration and offset, or clear the layer when the
      destination has no animation. */
  function FireCommands(transition: AnimatorStateTransition, layerName: string): (r: seq<Command>)
    reads transition, transition.destinationState
    ensures forall current :: LayerAfter(r, layerName, current) == transition.destinationState.motion.name
    ensures forall action, current ::
      (SpeedAfter(r, action, current) ==
         if transition.destinationState.motion.name == Some(action) then transition.destinationState.speed else current)
    ensures transition.destinationState.motion.name.Some? ==>
      && SetActionTransitionLength(transition.destinationState.motion.name, transition.duration) in r
      && SetComposerTime(transition.offset) in r
  {
    var nextState := transition.destinationState;
    match nextState.motion.name {
      case Some(animName) =>
        var r := [ SetActionSpeed(Some(animName), nextState.speed),
                   SetActionTransitionLength(Some(animName), transition.duration),
                   SetCurrentAction(animName, layerName),
                   SetComposerTime(transition.offset) ];
        assert r == [r[0]] + r[1..];
        assert [r[0]][..0] == [];
        assert forall action, current ::
          (SpeedAfter([r[0]], action, current) == if animName == action then nextState.speed else current);
        assert forall action, current :: SpeedAfter(r, action, current) == SpeedAfter([r[0]], action, current) by {
          forall action, current ensures SpeedAfter(r, action, current) == SpeedAfter([r[0]], action, current) {
            SpeedAfterNoSpeeds([r[0]], r[1..], action, current);
          }
        }
        r
      case None =>
        [RemoveCurrentAction(layerName)]
    }
  }

  class AnimatorState {
    var motion: Motion
    var name: string
    var speed: real
    var transitions: seq<AnimatorStateTransition>
    var behaviours: seq<StateMachineBehaviour>

    /** A state named name playing motion at speed 1, with no transitions and no behaviours. */
    constructor (name: string, motion: Motion)
      ensures this.name == name && this.motion == motion && speed == 1.0
      ensures transitions == [] && behaviours == []
    {
      this.name := name;
      this.motion := motion;
      speed := 1.0;
      transitions := [];
      behaviours := [];
    }

    method AddStateMachineBehaviour(behaviour: StateMachineBehaviour)
      modifies this`behaviours
      ensures behaviours == old(behaviours) + [behaviour]
    {
      behaviours := behaviours + [behaviour];
    }

    method RemoveStateMachineBehaviour(behaviour: StateMachineBehaviour)
      modifies this`behaviours
      ensures behaviours == RemoveFirst(old(behaviours), behaviour)
    {
      behaviours := RemoveFirst(behaviours, behaviour);
    }

    method RemoveTransition(transition: AnimatorStateTransition)
      modifies this`transitions
      ensures transitions == RemoveFirst(old(transitions), transition)
    {
      transitions := RemoveFirst(transitions, transition);
    }

    /** addTransition(destinationState): the same as an exit time of 0, so no exit time is set. */
    method AddTransition(destinationState: AnimatorState) returns (transition: AnimatorStateTransition)
      modifies this`transitions
      ensures fresh(transition) && transitions == old(transitions) + [transition]
      ensures transition.destinationState == destinationState
      ensures !transition.hasExitTime && !transition.mute
    {
      transition := AddTransitionWithExitTime(destinationState, 0.0);
    }

    /** addTransition(destinationState, exitTime): appends a new transition; a positive exit time
        is switched on and clamped to [0, 1]. */
    method AddTransitionWithExitTime(destinationState: AnimatorState, exitTime: real)
      returns (transition: AnimatorStateTransition)
      modifies this`transitions
      ensures fresh(transition) && transitions == old(transitions) + [transition]
      ensures transition.destinationState == destinationState && !transition.mute
      ensures transition.hasExitTime <==> exitTime > 0.0
      ensures exitTime > 0.0 ==>
        transition.exitTime == Clamp(exitTime, 0.0, 1.0) && 0.0 < transition.exitTime <= 1.0
    {
      transition := new AnimatorStateTransition(destinationState);
      if exitTime > 0.0 {
        transition.hasExitTime := true;
        transition.exitTime := Clamp(exitTime, 0.0, 1.0);
      }
      transitions := transitions + [transition];
    }

    /** One step: the first transition, in list order, that is not muted and whose conditions
        hold fires; its commands are issued and its destination returned. When none fires the
        state stays and nothing is issued. */
    method CheckTransitions(layerName: string, holds: AnimatorStateTransition -> bool)
      returns (nextState: AnimatorState, commands: seq<Command>)
      ensures FirstFiring(transitions, holds).None? ==> nextState == this && commands == []
      ensures FirstFiring(transitions, holds).Some? ==>
        var i := FirstFiring(transitions, holds).value;
        nextState == transitions[i].destinationState && commands == FireCommands(transitions[i], layerName)
    {
      for k := 0 to |transitions|
        invariant forall m :: 0 <= m < k ==> transitions[m].mute || !holds(transitions[m])
      {
        var transition := transitions[k];
        if !transition.mute && holds(transition) {
          nextState := transition.destinationState;
          match nextState.motion.name {
            case Some(animName) =>
              commands := [ SetActionSpeed(Some(animName), nextState.speed),
                            SetActionTransitionLength(Some(animName), transition.duration),
                            SetCurrentAction(animName, layerName),
                            SetComposerTime(transition.offset) ];
            case None =>
              commands := [RemoveCurrentAction(layerName)];
          }
          return;
        }
      }
      return this, [];
    }

    /** The per-frame update: for a blend tree, pass value (the float parameter named by the
        tree's blend parameter) to the blend space, then give the action the time scale of the
        first child whose threshold exceeds value; a clip needs nothing. */
    method Update(value: real) returns (commands: seq<Command>)
      ensures motion.Clip? ==> commands == []
      ensures motion.Tree? && FirstAbove(motion.tree.motions, value).None? ==>
        commands == [SetBlendSpaceValue(motion.name, value)]
      ensures motion.Tree? && FirstAbove(motion.tree.motions, value).Some? ==>
        var i := FirstAbove(motion.tree.motions, value).value;
        commands == [SetBlendSpaceValue(motion.name, value), SetActionSpeed(motion.name, motion.tree.motions[i].timeScale)]
    {
      commands := [];
      match motion {
        case Clip(_) =>
        case Tree(name, tree) =>
          commands := [SetBlendSpaceValue(name, value)];
          var i := 0;
          while i < |tree.motions|
            invariant i <= |tree.motions|
            invariant commands == [SetBlendSpaceValue(name, value)]
            invariant forall k :: 0 <= k < i ==> tree.motions[k].threshold <= value
          {
            var childMotion := tree.motions[i];
            if value < childMotion.threshold {
              commands := commands + [SetActionSpeed(name, childMotion.timeScale)];
              break;
            }
            i := i + 1;
          }
      }
    }

    function GetName(): string
      reads this
    {
      name
    }

    method SetName(name: string)
      modifies this`name
      ensures GetName() == name
    {
      this.name := name;
    }

    function GetSpeed(): real
      reads this
    {
      speed
    }

    method SetSpeed(speed: real)
      modifies this`speed
      ensures GetSpeed() == speed
    {
      this.speed := speed;
    }
  }

  /** Adding a transition and removing it again gives back the state's transitions, in
      their order: the new transition is fresh, so removeTransition takes that one. */
  method AddThenRemoveTransition(state: AnimatorState, destinationState: AnimatorState, exitTime: real)
    modifies state`transitions
    ensures state.transitions == old(state.transitions)
  {
    var transition := state.AddTransitionWithExitTime(destinationState, exitTime);
    RemoveFirstOfAppended(old(state.transitions), transition);
    state.RemoveTransition(transition);
  }
}

# Animation state machine core of jme-capdevon-examples, in Dafny

This project models three classes of the jME animation helpers in
`com.capdevon.anim`:

- **AnimMaskBuilder** is a joint mask over a skeleton (`Armature`). It is
  configured by chained calls that set or clear the bits of joint ids:
  - all joints;
  - named joints;
  - the whole subtree below a joint, found by recursing over its children;
  - the ancestor chain of a joint, found by walking up `getParent()`.
- **AnimatorState** is one state of an animator state machine. It has:
  - a motion (a clip or a blend tree);
  - a playback speed;
  - an ordered list of outgoing transitions;
  - a list of behaviours.

  `checkTransitions` fires the first transition in list order that is not
  muted and whose conditions hold. It then starts the destination's clip on
  the layer's AnimComposer. `update` drives a 1-D blend tree: it passes the
  blend parameter to the blend space and applies the time scale of the first
  child whose threshold exceeds the parameter.
- **BlendTree** is a 1-D blend tree: an ordered list of child motions, each
  with a name, a position and a threshold, plus the tree's thresholds and the
  name of its blend parameter.

Each class is modelled as a Dafny `class`, because the source changes its
fields in place:

- A BitSet becomes a `set<nat>` field.
- An ArrayList becomes a `seq` field.
- `getAnimMotionsNames` fills a fresh `array`.

Each method is proved against a specification function:

- `Armature.Subtree` and `Armature.Chain` for the mask;
- `FirstFiring` and `FirstAbove` for the first-match searches of the state;
- `AnimNames` for the names of a blend tree.

The skeleton is jME's Armature, seen read-only. Joints have dense ids; each
has a name and an optional parent. A ghost rank certifies that the parent
links have no cycle.

Some parts are not visible in the model:

- A transition's conditions are decided by
  `AnimatorStateTransition.checkConditions`, which is not part of this model.
  They enter as a parameter `holds`.
- The calls the state makes on the AnimComposer and its actions are returned,
  in order, as a list of `Command` values.
- The float parameter that `update` reads from the controller's parameter
  store is passed in as `value`.

A small scenario module takes the wiring of the demo application: an Idle,
Run and Reload rifle character with its four transitions. It states what one
step of each state produces. Beside it, the module builds an illustrative
three-child blend tree with the modelled BlendTree operations and states what
an update of it applies. That blend tree, its name and its child names are not
part of the demo, which builds no blend tree.

Modules:

- `Seqs` (seqs.dfy): an option type, the list removal of `ArrayList.remove(Object)`, and `FastMath.clamp`.
- `Skeletons` (skeletons.dfy): the armature and its derived parent chain and subtree.
- `JointMask` (joint_mask.dfy): `AnimMaskBuilder`.
- `BlendTrees` (blend_tree.dfy): `ChildMotion` and `BlendTree`.
- `AnimatorStates` (animator_state.dfy): `Motion`, `AnimatorStateTransition` and `AnimatorState`.
- `DemoScenario` (demo_scenario.dfy): the demo wiring, and the illustrative blend tree.

## Model

| member | source | states |
|---|---|---|
| Seqs.IndexOf | src/main/java/com/capdevon/anim/fsm/AnimatorState.java:69-71 | The index `List.remove(Object)` removes: it holds the element, and no earlier position does |
| Seqs.RemoveFirst | src/main/java/com/capdevon/anim/fsm/AnimatorState.java:69-71 | Removing an absent element changes nothing. Removing a present one shortens the list by one and takes exactly one occurrence out of its multiset |
| Seqs.RemoveFirstKeepsOrder | src/main/java/com/capdevon/anim/fsm/AnimatorState.java:69-71 | The removal keeps the remaining elements in their relative order: those before the removed one stay put, and those after move down by one |
| Seqs.RemoveFirstOfAppended | src/main/java/com/capdevon/anim/fsm/AnimatorState.java:69-71 | Removing an element that was just appended, and was not there before, gives back the original list |
| Seqs.Clamp | src/main/java/com/capdevon/anim/fsm/AnimatorState.java:85-87 | The clamped value lies in [min, max] when min <= max. It equals the input inside the range, min below it and max above it |
| Skeletons.Armature.constructor | src/main/java/com/capdevon/anim/AnimMaskBuilder.java:27-31 | An armature with the given names and parent links, whose links have no cycle |
| Skeletons.Armature.Lookup | src/main/java/com/capdevon/anim/AnimMaskBuilder.java:59-65 | The joint found by name is the first one carrying that name. The result is None exactly when no joint has the name |
| Skeletons.Armature.LookupFrom | src/main/java/com/capdevon/anim/AnimMaskBuilder.java:59-65 | The first joint from a given id on carrying the name; None exactly when none does |
| Skeletons.Armature.Children | src/main/java/com/capdevon/anim/AnimMaskBuilder.java:82-84 | A joint is listed among the children of j exactly when its parent is j |
| Skeletons.Armature.ChildrenFrom | src/main/java/com/capdevon/anim/AnimMaskBuilder.java:82-84 | The same, restricted to ids from a given one on |
| Skeletons.Armature.Root | src/main/java/com/capdevon/anim/AnimMaskBuilder.java:119-123 | The root reached by walking parents from a joint is a valid joint id |
| Skeletons.Armature.SubtreeInRange | src/main/java/com/capdevon/anim/AnimMaskBuilder.java:80-85 | The subtree of a joint holds only valid joint ids |
| Skeletons.Armature.ChainBelow | src/main/java/com/capdevon/anim/AnimMaskBuilder.java:119-123 | Every joint on the parent chain is a valid id ranked no higher than the start joint |
| Skeletons.Armature.ChainTransitive | src/main/java/com/capdevon/anim/AnimMaskBuilder.java:119-123 | The parent chain of any joint on a chain is contained in that chain |
| Skeletons.Armature.ChainSize | src/main/java/com/capdevon/anim/AnimMaskBuilder.java:119-123 | The ancestor walk visits Depth + 1 pairwise distinct joints, so it terminates |
| Skeletons.Armature.ChainEndsAtRoot | src/main/java/com/capdevon/anim/AnimMaskBuilder.java:119-123 | The ancestor walk includes the root, a joint with no parent |
| Skeletons.Armature.SubtreeChildClosed | src/main/java/com/capdevon/anim/AnimMaskBuilder.java:80-85 | The subtree of a joint contains every child of each of its members |
| Skeletons.Armature.SubtreeChainDual | src/main/java/com/capdevon/anim/AnimMaskBuilder.java:80-123 | k lies in the subtree of j exactly when j lies on the ancestor chain of k: the subtree recursion and the parent walk are converse |
| Skeletons.Armature.SubtreeToChain | src/main/java/com/capdevon/anim/AnimMaskBuilder.java:80-85 | A member of the subtree of j is a valid id whose ancestor chain passes through j |
| Skeletons.Armature.ChainToSubtree | src/main/java/com/capdevon/anim/AnimMaskBuilder.java:119-123 | A joint whose ancestor chain passes through j lies in the subtree of j |
| Skeletons.Armature.SubtreesOfExtend | src/main/java/com/capdevon/anim/AnimMaskBuilder.java:82-84 | Visiting one more child in the recursion adds exactly that child's subtree |
| JointMask.AllJoints | src/main/java/com/capdevon/anim/AnimMaskBuilder.java:39-43 | The ids set by addAllJoints are exactly 0 .. jointCount-1 |
| JointMask.ResolvedPrefix | src/main/java/com/capdevon/anim/AnimMaskBuilder.java:51-57 | The number of names processed before the first unknown name: all of them resolve, and the next one does not |
| JointMask.NamesOutcome | src/main/java/com/capdevon/anim/AnimMaskBuilder.java:51-65 | The call succeeds exactly when every name resolves. A failure carries a listed name that no joint has |
| JointMask.IdsOfMembers | src/main/java/com/capdevon/anim/AnimMaskBuilder.java:51-57 | An id is among the ids of a name list exactly when some name of the list resolves to it |
| JointMask.ResolvedPrefixIs | src/main/java/com/capdevon/anim/AnimMaskBuilder.java:52-54 | A prefix whose names all resolve, followed by an unknown name or the end of the list, is the resolved prefix |
| JointMask.IdsOfExtend | src/main/java/com/capdevon/anim/AnimMaskBuilder.java:52-55 | Processing one more resolvable name adds exactly its id |
| JointMask.AnimMaskBuilder.constructor | src/main/java/com/capdevon/anim/AnimMaskBuilder.java:27-31 | A new builder over the armature has no bit set |
| JointMask.AnimMaskBuilder.AddAllJoints | src/main/java/com/capdevon/anim/AnimMaskBuilder.java:39-43 | Sets the bits of exactly the ids 0 .. jointCount-1 and keeps every other bit. Afterwards contains holds exactly of the valid ids |
| JointMask.AnimMaskBuilder.AddJoints | src/main/java/com/capdevon/anim/AnimMaskBuilder.java:51-57 | Sets exactly the ids of the names processed before the first unknown name, and changes no other bit. It fails with that name, or passes when every name resolves |
| JointMask.AnimMaskBuilder.RemoveJoints | src/main/java/com/capdevon/anim/AnimMaskBuilder.java:149-156 | Clears exactly the ids of the names processed before the first unknown name, and changes no other bit; it fails or passes as AddJoints does |
| JointMask.AnimMaskBuilder.AddFromJoint | src/main/java/com/capdevon/anim/AnimMaskBuilder.java:74-78 | An unknown name fails and leaves the mask unchanged. Otherwise it sets exactly the subtree of the named joint |
| JointMask.AnimMaskBuilder.AddFromJointId | src/main/java/com/capdevon/anim/AnimMaskBuilder.java:80-85 | The recursion over children sets exactly the joint and all its descendants |
| JointMask.AnimMaskBuilder.RemoveFromJoint | src/main/java/com/capdevon/anim/AnimMaskBuilder.java:94-98 | An unknown name fails and leaves the mask unchanged. Otherwise it clears exactly the subtree of the named joint |
| JointMask.AnimMaskBuilder.RemoveFromJointId | src/main/java/com/capdevon/anim/AnimMaskBuilder.java:100-105 | The recursion over children clears exactly the joint and all its descendants |
| JointMask.AnimMaskBuilder.AddAncestors | src/main/java/com/capdevon/anim/AnimMaskBuilder.java:113-117 | An unknown name fails and leaves the mask unchanged. Otherwise it sets exactly the parent chain of the named joint, up to and including the root |
| JointMask.AnimMaskBuilder.AddAncestorsOf | src/main/java/com/capdevon/anim/AnimMaskBuilder.java:119-123 | The parent walk sets exactly the chain from the joint to its root |
| JointMask.AnimMaskBuilder.RemoveAncestors | src/main/java/com/capdevon/anim/AnimMaskBuilder.java:131-135 | An unknown name fails and leaves the mask unchanged. Otherwise it clears exactly the parent chain of the named joint |
| JointMask.AnimMaskBuilder.RemoveAncestorsOf | src/main/java/com/capdevon/anim/AnimMaskBuilder.java:137-141 | The parent walk clears exactly the chain from the joint to its root |
| JointMask.AllJointsMembership | src/main/java/com/capdevon/anim/AnimMaskBuilder.java:158-161 | On a new builder, after addAllJoints, contains is true exactly for the valid ids |
| JointMask.AncestorMaskSize | src/main/java/com/capdevon/anim/AnimMaskBuilder.java:113-123 | On a new builder, addAncestors selects exactly the joints on the path from the named joint to its root, Depth + 1 of them |
| JointMask.AnimMaskBuilder.Contains | src/main/java/com/capdevon/anim/AnimMaskBuilder.java:158-161 | Reads the bit of the joint id without changing the mask (a function reading the builder). A set bit always belongs to a joint of the armature |
| JointMask.SubtreeRoundTrip | src/main/java/com/capdevon/anim/AnimMaskBuilder.java:74-105 | addFromJoint then removeFromJoint leaves the subtree cleared and every other bit as before. A mask that had no bit of the subtree set comes back unchanged |
| BlendTrees.AnimNames | src/main/java/com/capdevon/anim/fsm/BlendTree.java:86-93 | The name list has one entry per child, and entry i is the name of child i |
| BlendTrees.FirstAbove | src/main/java/com/capdevon/anim/fsm/AnimatorState.java:140-145 | Selects the first child whose threshold is strictly greater than the value; None exactly when every threshold is at most the value |
| BlendTrees.FirstAboveInterval | src/main/java/com/capdevon/anim/fsm/AnimatorState.java:140-145 | With ascending thresholds, the child selected is the one whose interval [previous threshold, own threshold) holds the value |
| BlendTrees.BlendTree.constructor | src/main/java/com/capdevon/anim/fsm/BlendTree.java:29-46 | Stores the given min and max thresholds, as getMinThreshold and getMaxThreshold then read them. The type is Simple1D, there are no children and there is no blend parameter |
| BlendTrees.NewTreeThresholds | src/main/java/com/capdevon/anim/fsm/BlendTree.java:103-109 | The threshold getters of a new tree return the thresholds it was built with. They read as an ordered range exactly when min <= max was given |
| BlendTrees.BlendTree.RemoveChild | src/main/java/com/capdevon/anim/fsm/BlendTree.java:53-55 | Removes the child at the index. Earlier children keep their place and later ones shift down by one |
| BlendTrees.BlendTree.AddChildAtPosition | src/main/java/com/capdevon/anim/fsm/BlendTree.java:63-65 | Appends a new child with the name, the position and threshold 0; earlier children are unchanged |
| BlendTrees.BlendTree.AddChildAtThreshold | src/main/java/com/capdevon/anim/fsm/BlendTree.java:73-75 | Appends a new child with the name, the threshold and the zero position; earlier children are unchanged |
| BlendTrees.BlendTree.AddChild | src/main/java/com/capdevon/anim/fsm/BlendTree.java:77-84 | Appends a new child carrying the three values and returns it |
| BlendTrees.BlendTree.GetAnimMotionsNames | src/main/java/com/capdevon/anim/fsm/BlendTree.java:86-93 | Returns a new array of the child names in order: its length is the number of children, and element i is the name of child i |
| BlendTrees.BlendTree.SetBlendParameter | src/main/java/com/capdevon/anim/fsm/BlendTree.java:95-101 | getBlendParameter afterwards returns the value set, and only the blend parameter changes |
| BlendTrees.AddThenRemoveChild | src/main/java/com/capdevon/anim/fsm/BlendTree.java:53-84 | Adding a child and then removing the child at the index it was added at gives back the children as they were |
| AnimatorStates.FirstFiring | src/main/java/com/capdevon/anim/fsm/AnimatorState.java:99-103 | The transition that fires is the first, in list order, that is not muted and whose conditions hold. None exactly when every transition is muted or fails |
| AnimatorStates.FirstFiringAppend | src/main/java/com/capdevon/anim/fsm/AnimatorState.java:99-103 | Transitions after the one that fires are never examined: appending transitions changes the outcome only when none of the earlier ones fires |
| AnimatorStates.AnimatorStateTransition.constructor | src/main/java/com/capdevon/anim/fsm/AnimatorState.java:83 | A new transition to the destination, not muted and without exit time |
| AnimatorStates.AnimatorState.constructor | src/main/java/com/capdevon/anim/fsm/AnimatorState.java:27-47 | A state with the name and motion, speed 1, and no transitions or behaviours |
| AnimatorStates.AnimatorState.AddStateMachineBehaviour | src/main/java/com/capdevon/anim/fsm/AnimatorState.java:53-55 | Appends the behaviour; only the behaviour list changes |
| AnimatorStates.AnimatorState.RemoveStateMachineBehaviour | src/main/java/com/capdevon/anim/fsm/AnimatorState.java:61-63 | Removes the first occurrence of the behaviour; only the behaviour list changes |
| AnimatorStates.AnimatorState.RemoveTransition | src/main/java/com/capdevon/anim/fsm/AnimatorState.java:69-71 | Removes the first occurrence of the transition, keeping the order of the rest; only the transition list changes |
| AnimatorStates.AnimatorState.AddTransition | src/main/java/com/capdevon/anim/fsm/AnimatorState.java:78-80 | Behaves as an exit time of 0. It appends a new transition to the destination with no exit time, keeping earlier entries |
| AnimatorStates.AnimatorState.AddTransitionWithExitTime | src/main/java/com/capdevon/anim/fsm/AnimatorState.java:82-92 | Appends a new transition to the destination, keeping earlier entries. hasExitTime is set exactly when the exit time is positive, and then the stored value is the exit time clamped to [0, 1], which lies in (0, 1] |
| AnimatorStates.FireCommands | src/main/java/com/capdevon/anim/fsm/AnimatorState.java:104-117 | Once the commands of a firing transition are applied, the layer plays the destination's clip, or nothing when the destination has no clip, whatever it played before. The destination's clip runs at the destination's speed, and no other action's speed changes. With a clip, the transition's duration is given as transition length and its offset as composer time |
| AnimatorStates.SpeedAfterNoSpeeds | src/main/java/com/capdevon/anim/fsm/AnimatorState.java:109-113 | Composer calls that set no action speed leave every action's speed as it was |
| AnimatorStates.AnimatorState.CheckTransitions | src/main/java/com/capdevon/anim/fsm/AnimatorState.java:99-123 | Returns the destination of the first transition that fires. It issues, in order: the destination's speed, the transition's duration as transition length, the clip as the layer's current action and the offset as composer time; or it removes the layer's current action when the destination has no clip. When none fires, it returns this state and issues nothing |
| AnimatorStates.AnimatorState.Update | src/main/java/com/capdevon/anim/fsm/AnimatorState.java:129-147 | A clip issues nothing. A blend tree passes the value to the blend space and then applies the time scale of the first child whose threshold exceeds the value, or no speed when none does |
| AnimatorStates.AnimatorState.SetName | src/main/java/com/capdevon/anim/fsm/AnimatorState.java:149-155 | getName afterwards returns the name set, and only the name changes |
| AnimatorStates.AnimatorState.SetSpeed | src/main/java/com/capdevon/anim/fsm/AnimatorState.java:157-163 | getSpeed afterwards returns the speed set, and only the speed changes |
| AnimatorStates.AddThenRemoveTransition | src/main/java/com/capdevon/anim/fsm/AnimatorState.java:69-92 | Adding a transition and removing it again gives back the transition list as it was |
| DemoScenario.BuildRifleMachine | src/main/java/com/capdevon/demo/Test_AnimStateController.java:188-202 | The demo's three states with their clips and speed 1. Idle has transitions to Run and then Reload; Run has one to Idle; Reload has one to Idle with exit time 0.95 |
| DemoScenario.WiredConditions | src/main/java/com/capdevon/demo/Test_AnimStateController.java:192-202 | Each of the four wired transitions holds on its own condition: If isRunning, IfNot isRunning, If isReloading, and for Reload -> Idle the normalized time reaching the exit time |
| DemoScenario.StepIdle | src/main/java/com/capdevon/demo/Test_AnimStateController.java:192-199 | From Idle, isRunning moves to Run (it wins over isReloading, being declared first), otherwise isReloading moves to Reload, otherwise Idle stays and nothing is issued. A move issues four commands: the destination clip's speed 1, its transition length, the clip as the layer's current action, and the composer time |
| DemoScenario.StepRun | src/main/java/com/capdevon/demo/Test_AnimStateController.java:195-196 | From Run, the state returns to Idle and starts RifleIdle exactly when isRunning is false |
| DemoScenario.StepReload | src/main/java/com/capdevon/demo/Test_AnimStateController.java:201-202 | From Reload, the state returns to Idle exactly when the normalized time has reached 0.95 |
| DemoScenario.FirstFiringOfOne | src/main/java/com/capdevon/anim/fsm/AnimatorState.java:99-103 | With one transition, it fires exactly when it is unmuted and holds |
| DemoScenario.FirstFiringOfTwo | src/main/java/com/capdevon/anim/fsm/AnimatorState.java:99-103 | With two transitions, the first fires when it can, otherwise the second |
| DemoScenario.BuildLocomotion | src/main/java/com/capdevon/anim/fsm/BlendTree.java:43-84 | An illustrative blend tree state, not part of the demo, built with the constructor and addChild, with children at thresholds 0, 0.5 and 1 |
| DemoScenario.LocomotionBlend | src/main/java/com/capdevon/anim/fsm/AnimatorState.java:129-147 | Updating the illustrative blend tree state applies time scale 0.8 below 0, 1 in [0, 0.5), 1.2 in [0.5, 1), and no speed at or above 1 |

## Left out

- Null start joint: the doc comments of addFromJoint, removeFromJoint, addAncestors and removeAncestors call a null start joint "unaffected". The code instead resolves every name through findJoint, which throws on an unknown name. The model follows the code: an unknown name gives `Fail` and leaves the mask unchanged.
- JointMask.AnimMaskBuilder.AddJoints and RemoveJoints: the IllegalArgumentException becomes the `Fail` outcome. The names before the failing one stay applied, as in the code; the stack unwinding is not modelled.
- BitSet growth, its index checks, and Java's `Object`-typed `contains` are not modelled. The mask is a set of joint ids, and `Contains` takes a joint id.
- The jME Armature, its Joint objects and `getJoint` are library code. They are modelled as an abstract acyclic tree with dense ids and name-based lookup of the first match.
- AnimatorStates.AnimatorState.CheckTransitions: the transitions' conditions are evaluated by `AnimatorStateTransition.checkConditions`, which is not part of this model, so they are the parameter `holds`. Trigger consumption and condition modes are not modelled.
- No visible code reads `hasExitTime` or `exitTime`. The model assumes that checkConditions, which is not part of this model, gates a transition on its exit time. That assumption enters only as the wired condition of Reload -> Idle in the demo scenario.
- AnimatorStates.AnimatorState.CheckTransitions and Update return the AnimComposer calls as a list of `Command` values instead of performing them. Pose blending, clip sampling, the blend space and the composer's own state are not modelled.
- `setTime` in the source is called on the composer's default layer. The `SetComposerTime` command carries no layer.
- AnimatorStates.AnimatorState.Update: the float the source reads from the controller's parameter store is the parameter `value`. The store is not part of this model.
- A null motion is not modelled: a state always has a clip or a blend tree. In the source, update ignores a null motion as it ignores a clip. checkTransitions throws when the destination of the firing transition has a null motion. A clip motion without a name is the "no animation" case of checkTransitions.
- AnimatorStates.AnimatorState.constructor takes the motion directly. In the source, the state machine sets it after construction (`AnimatorStateMachine` is not part of this model), and the back reference to the AnimatorController is dropped.
- AnimatorStates.AnimatorStateTransition.constructor: AnimatorStateTransition.java is not part of this model. Its constructor is taken to store the destination and to start unmuted with no exit time; duration and offset are left unconstrained.
- `StateMachineBehaviour` callbacks are not modelled; a behaviour has identity only.
- BlendTrees.BlendTree.RemoveChild: an index outside [0, size) throws in the source and is a precondition here.
- BlendTrees.BlendTree.constructor: thresholds are real numbers, so the int-to-float conversion is exact here, even for magnitudes above 2^24 where Java's float rounds.
- Floats in general are modelled as exact reals. Clamp, threshold comparison and time scales carry no rounding.
- The initial `timeScale` of a ChildMotion (ChildMotion.java is not part of this model) is left unconstrained.
- BlendTrees.BlendTree.AddChildAtPosition and AddChild: the source stores the caller's `Vector2f` object as the child's position, so a later change to that vector shows in the child. The model copies a `Vector2` value, so this aliasing is not captured. No operation of the 1-D core reads the position.
- The getters getBlendParameter, getMinThreshold, getMaxThreshold, getName and getSpeed are functions that read the object. Their meaning is stated in the contracts of the setters, the constructors and `NewTreeThresholds`, which use them.
- `blendParameterY` and `blendType` are stored but not used by any operation of the core.
- Logging calls carry no behaviour and are left out.
- Test_AnimStateController.java serves only as the scenario of lines 180-205. Its physics, input, camera, lights, assets and movement are not modelled. MainCamera.java, FRotator.java and RaycastHit.java (camera, rotation and raycast numerics) are not part of this model.

/**
  BlendTree: a 1-D blend tree, an ordered list of child motions with their
  thresholds, plus the thresholds and the name of the blend parameter.
 */
module BlendTrees {
  import opened Seqs

  /** jME's Vector2f, used only as the position of a child (2-D blend trees). */
  datatype Vector2 = Vector2(x: real, y: real)

  /** Vector2f.ZERO. */
  const Zero: Vector2 := Vector2(0.0, 0.0)

  /** Only the one-dimensional blend type exists. */
  datatype BlendTreeType = Simple1D

  /** A child of a blend tree; callers may still change its fields after adding it. */
  class ChildMotion {
    var animName: string
    var position: Vector2
    var threshold: real
    var timeScale: real

    constructor ()
    {
    }
  }

  /** The names of cs, child by child. */
  function AnimNames(cs: seq<ChildMotion>): (names: seq<string>)
    reads cs
    ensures |names| == |cs|
    ensures forall i :: 0 <= i < |cs| ==> names[i] == cs[i].animName
  {
    if cs == [] then [] else AnimNames(cs[..|cs| - 1]) + [cs[|cs| - 1].animName]
  }

  /** Position of the first child whose threshold is strictly greater than value:
      update() applies that child's time scale. */
  function FirstAbove(cs: seq<ChildMotion>, value: real): (r: Option<nat>)
    reads cs
    ensures r.Some? ==> r.value < |cs| && value < cs[r.value].threshold
    ensures r.Some? ==> forall k :: 0 <= k < r.value ==> cs[k].threshold <= value
    ensures r.None? <==> forall k :: 0 <= k < |cs| ==> cs[k].threshold <= value
  {
    if cs == [] then None
    else if value < cs[0].threshold then Some(0)
    else match FirstAbove(cs[1..], value) {
      case None => None
      case Some(i) => Some(i + 1)
    }
  }

  /** When the thresholds ascend, the selected child is the one whose half-open interval
      [previous threshold, own threshold) holds value. */
  lemma FirstAboveInterval(cs: seq<ChildMotion>, value: real, i: nat)
    requires forall a, b :: 0 <= a < b < |cs| ==> cs[a].threshold <= cs[b].threshold
    requires i < |cs| && value < cs[i].threshold && (i == 0 || cs[i - 1].threshold <= value)
    ensures FirstAbove(cs, value) == Some(i)
  {
  }

  class BlendTree {
    var blendParameter: Option<string>
    var blendParameterY: Option<string>
    var blendType: BlendTreeType
    var maxThreshold: real
    var minThreshold: real
    var motions: seq<ChildMotion>

    /** A tree with the given thresholds, no children and no blend parameter. */
    constructor (minThreshold: int, maxThreshold: int)
      ensures GetMinThreshold() == minThreshold as real && GetMaxThreshold() == maxThreshold as real
      ensures blendType == Simple1D && motions == []
      ensures blendParameter == None && blendParameterY == None
    {
      blendParameter := None;
      blendParameterY := None;
      blendType := Simple1D;
      this.minThreshold := minThreshold as real;
      this.maxThreshold := maxThreshold as real;
      motions := [];
    }

    /** Removes the child at index; the later children move down by one. */
    method RemoveChild(index: int)
      requires 0 <= index < |motions|
      modifies this`motions
      ensures |motions| == |old(motions)| - 1
      ensures forall k :: 0 <= k < index ==> motions[k] == old(motions)[k]
      ensures forall k :: index <= k < |motions| ==> motions[k] == old(motions)[k + 1]
    {
      motions := motions[..index] + motions[index + 1..];
    }

    /** addChild(animName, position): a child at that position, threshold 0. */
    method AddChildAtPosition(animName: string, position: Vector2) returns (motion: ChildMotion)
      modifies this`motions
      ensures fresh(motion) && motions == old(motions) + [motion]
      ensures motion.animName == animName && motion.position == position && motion.threshold == 0.0
    {
      motion := AddChild(animName, position, 0.0);
    }

    /** addChild(animName, threshold): a child with that threshold at position zero. */
    method AddChildAtThreshold(animName: string, threshold: real) returns (motion: ChildMotion)
      modifies this`motions
      ensures fresh(motion) && motions == old(motions) + [motion]
      ensures motion.animName == animName && motion.position == Zero && motion.threshold == threshold
    {
      motion := AddChild(animName, Zero, threshold);
    }

    /** Appends a new child; the children already present are kept as they are. */
    method AddChild(animName: string, position: Vector2, threshold: real) returns (motion: ChildMotion)
      modifies this`motions
      ensures fresh(motion) && motions == old(motions) + [motion]
      ensures motion.animName == animName && motion.position == position && motion.threshold == threshold
    {
      motion := new ChildMotion();
      motion.animName := animName;
      motion.position := position;
      motion.threshold := threshold;
      motions := motions + [motion];
    }

    /** getAnimMotionsNames(): a new array holding the child names in order. */
    method GetAnimMotionsNames() returns (clips: array<string>)
      ensures fresh(clips)
      ensures clips[..] == AnimNames(motions)
    {
      clips := new string[|motions|];
      for i := 0 to clips.Length
        invariant forall k :: 0 <= k < i ==> clips[k] == motions[k].animName
      {
        clips[i] := motions[i].animName;
      }
    }

    function GetBlendParameter(): Option<string>
      reads this
    {
      blendParameter
    }

    method SetBlendParameter(blendParameter: Option<string>)
      modifies this`blendParameter
      ensures GetBlendParameter() == blendParameter
    {
      this.blendParameter := blendParameter;
    }

    function GetMaxThreshold(): real
      reads this
    {
      maxThreshold
    }

    function GetMinThreshold(): real
      reads this
    {
      minThreshold
    }
  }

  /** The threshold getters of a new tree give back the thresholds it was built with, in
      their order: a range with min <= max reads back as one. */
  method NewTreeThresholds(minThreshold: int, maxThreshold: int) returns (lo: real, hi: real)
    ensures lo == minThreshold as real && hi == maxThreshold as real
    ensures minThreshold <= maxThreshold <==> lo <= hi
  {
    var tree := new BlendTree(minThreshold, maxThreshold);
    lo := tree.GetMinThreshold();
    hi := tree.GetMaxThreshold();
  }

  /** Adding a child and then removing the child at the index it was added at gives back
      the children the tree had, in their order; the name list grows by exactly that name meanwhile. */
  method AddThenRemoveChild(tree: BlendTree, animName: string, threshold: real)
    modifies tree
    ensures tree.motions == old(tree.motions)
  {
    var index := |tree.motions|;
    ghost var before := tree.motions;
    var child := tree.AddChildAtThreshold(animName, threshold);
    assert AnimNames(tree.motions) == AnimNames(before) + [animName];
    tree.RemoveChild(index);
  }
}

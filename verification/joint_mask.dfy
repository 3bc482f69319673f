/**
  AnimMaskBuilder: a joint mask over an armature, configured by chained
  operations that set or clear the bits of joint ids. The BitSet of the
  source is the set `affected` of joint ids whose bit is set.
 */
module JointMask {
  import opened Seqs
  import opened Skeletons

  /** Result of a configuration call; Fail stands for the IllegalArgumentException
      "Cannot find joint <name>" raised by findJoint. */
  datatype Outcome = Pass | Fail(unknownJoint: string)

  /** The ids 0 .. n-1, that is every joint of an armature with n joints. */
  function AllJoints(n: nat): (ids: set<nat>)
    ensures forall j :: j in ids <==> 0 <= j < n
  {
    if n == 0 then {} else AllJoints(n - 1) + {n - 1}
  }

  /** How many leading names resolve to a joint: findJoint throws at the first one that does not. */
  function ResolvedPrefix(armature: Armature, jointNames: seq<string>): (k: nat)
    ensures k <= |jointNames|
    ensures forall m :: 0 <= m < k ==> jointNames[m] in armature.jointNames
    ensures k < |jointNames| ==> jointNames[k] !in armature.jointNames
  {
    if jointNames == [] || jointNames[0] !in armature.jointNames then 0
    else 1 + ResolvedPrefix(armature, jointNames[1..])
  }

  /** The outcome of a call over jointNames: the first unknown name fails the call. */
  function NamesOutcome(armature: Armature, jointNames: seq<string>): (r: Outcome)
    ensures r == Pass <==> forall m :: 0 <= m < |jointNames| ==> jointNames[m] in armature.jointNames
    ensures r.Fail? ==> r.unknownJoint in jointNames && r.unknownJoint !in armature.jointNames
  {
    var k := ResolvedPrefix(armature, jointNames);
    if k == |jointNames| then Pass else Fail(jointNames[k])
  }

  /** The ids the names of jointNames resolve to, collected name by name. */
  ghost function IdsOf(armature: Armature, jointNames: seq<string>): set<nat>
  {
    if jointNames == [] then {}
    else
      IdsOf(armature, jointNames[..|jointNames| - 1]) +
        match armature.Lookup(jointNames[|jointNames| - 1]) { case None => {} case Some(j) => {j} }
  }

  /** IdsOf holds exactly the ids that some name of the list resolves to. */
  lemma {:induction false} IdsOfMembers(armature: Armature, jointNames: seq<string>, j: nat)
    ensures j in IdsOf(armature, jointNames) <==>
      exists m :: 0 <= m < |jointNames| && armature.Lookup(jointNames[m]) == Some(j)
  {
    if jointNames != [] {
      var n := |jointNames|;
      var init := jointNames[..n - 1];
      IdsOfMembers(armature, init, j);
      if exists m :: 0 <= m < n && armature.Lookup(jointNames[m]) == Some(j) {
        var m :| 0 <= m < n && armature.Lookup(jointNames[m]) == Some(j);
        if m < n - 1 {
          assert init[m] == jointNames[m];
        }
      }
      if exists m :: 0 <= m < n - 1 && armature.Lookup(init[m]) == Some(j) {
        var m :| 0 <= m < n - 1 && armature.Lookup(init[m]) == Some(j);
        assert jointNames[m] == init[m];
      }
    }
  }

  /** The prefix of length k is where the call stops: all names before k resolve, the one at k does not. */
  lemma ResolvedPrefixIs(armature: Armature, jointNames: seq<string>, k: nat)
    requires k <= |jointNames|
    requires forall m :: 0 <= m < k ==> jointNames[m] in armature.jointNames
    requires k < |jointNames| ==> jointNames[k] !in armature.jointNames
    ensures ResolvedPrefix(armature, jointNames) == k
  {
  }

  /** Resolving one more name adds the id it resolves to. */
  lemma IdsOfExtend(armature: Armature, jointNames: seq<string>, i: nat)
    requires i < |jointNames| && armature.Lookup(jointNames[i]).Some?
    ensures IdsOf(armature, jointNames[..i + 1]) ==
      IdsOf(armature, jointNames[..i]) + {armature.Lookup(jointNames[i]).value}
  {
    assert jointNames[..i + 1][..i] == jointNames[..i];
  }

  class AnimMaskBuilder {
    const armature: Armature
    var affected: set<nat>

    ghost predicate Valid()
      reads this
    {
      armature.Valid() && forall j :: j in affected ==> j < armature.JointCount()
    }

    /** A builder over armature with no joint selected. */
    constructor (armature: Armature)
      requires armature.Valid()
      ensures Valid() && this.armature == armature && affected == {}
    {
      this.armature := armature;
      affected := {};
    }

    /** The membership test of the mask: is the bit of joint set? A set bit always
        belongs to a joint of the armature. */
    function Contains(joint: nat): (r: bool)
      reads this
      ensures r && Valid() ==> joint < armature.JointCount()
    {
      joint in affected
    }

    /** Selects every joint of the armature. */
    method AddAllJoints()
      requires Valid()
      modifies this
      ensures Valid()
      ensures affected == old(affected) + AllJoints(armature.JointCount())
      ensures forall j: nat :: Contains(j) <==> j < armature.JointCount()
    {
      affected := affected + AllJoints(armature.JointCount());
    }

    /** Selects the named joints; stops with Fail at the first unknown name,
        the names before it having been applied. */
    method AddJoints(jointNames: seq<string>) returns (outcome: Outcome)
      requires Valid()
      modifies this
      ensures Valid()
      ensures outcome == NamesOutcome(armature, jointNames)
      ensures affected ==
        old(affected) + IdsOf(armature, jointNames[..ResolvedPrefix(armature, jointNames)])
    {
      var i := 0;
      while i < |jointNames|
        invariant Valid()
        invariant i <= |jointNames|
        invariant forall m :: 0 <= m < i ==> jointNames[m] in armature.jointNames
        invariant affected == old(affected) + IdsOf(armature, jointNames[..i])
      {
        var joint := armature.Lookup(jointNames[i]);
        if joint.None? {
          ResolvedPrefixIs(armature, jointNames, i);
          return Fail(jointNames[i]);
        }
        affected := affected + {joint.value};
        IdsOfExtend(armature, jointNames, i);
        i := i + 1;
      }
      ResolvedPrefixIs(armature, jointNames, i);
      assert jointNames[..i] == jointNames;
      return Pass;
    }

    /** Deselects the named joints; stops with Fail at the first unknown name,
        the names before it having been applied. */
    method RemoveJoints(jointNames: seq<string>) returns (outcome: Outcome)
      requires Valid()
      modifies this
      ensures Valid()
      ensures outcome == NamesOutcome(armature, jointNames)
      ensures affected ==
        old(affected) - IdsOf(armature, jointNames[..ResolvedPrefix(armature, jointNames)])
    {
      var i := 0;
      while i < |jointNames|
        invariant Valid()
        invariant i <= |jointNames|
        invariant forall m :: 0 <= m < i ==> jointNames[m] in armature.jointNames
        invariant affected == old(affected) - IdsOf(armature, jointNames[..i])
      {
        var joint := armature.Lookup(jointNames[i]);
        if joint.None? {
          ResolvedPrefixIs(armature, jointNames, i);
          return Fail(jointNames[i]);
        }
        affected := affected - {joint.value};
        IdsOfExtend(armature, jointNames, i);
        i := i + 1;
      }
      ResolvedPrefixIs(armature, jointNames, i);
      assert jointNames[..i] == jointNames;
      return Pass;
    }

    /** Selects the named joint and all its descendants. */
    method AddFromJoint(jointName: string) returns (outcome: Outcome)
      requires Valid()
      modifies this
      ensures Valid()
      ensures match armature.Lookup(jointName) {
        case None => outcome == Fail(jointName) && affected == old(affected)
        case Some(j) => outcome == Pass && affected == old(affected) + armature.Subtree(j)
      }
    {
      var joint := armature.Lookup(jointName);
      if joint.None? {
        return Fail(jointName);
      }
      AddFromJointId(joint.value);
      return Pass;
    }

    /** The recursion over children behind AddFromJoint. */
    method AddFromJointId(joint: nat)
      requires Valid() && joint < armature.JointCount()
      modifies this
      ensures Valid()
      ensures affected == old(affected) + armature.Subtree(joint)
      decreases armature.JointCount() - armature.rank[joint]
    {
      affected := affected + {joint};
      var children := armature.Children(joint);
      for i := 0 to |children|
        invariant Valid()
        invariant affected == old(affected) + {joint} + armature.SubtreesOf(joint, children[..i])
      {
        assert children[i] in children;
        AddFromJointId(children[i]);
        armature.SubtreesOfExtend(joint, children, i);
      }
      assert children[..|children|] == children;
    }

    /** Deselects the named joint and all its descendants. */
    method RemoveFromJoint(jointName: string) returns (outcome: Outcome)
      requires Valid()
      modifies this
      ensures Valid()
      ensures match armature.Lookup(jointName) {
        case None => outcome == Fail(jointName) && affected == old(affected)
        case Some(j) => outcome == Pass && affected == old(affected) - armature.Subtree(j)
      }
    {
      var joint := armature.Lookup(jointName);
      if joint.None? {
        return Fail(jointName);
      }
      RemoveFromJointId(joint.value);
      return Pass;
    }

    /** The recursion over children behind RemoveFromJoint. */
    method RemoveFromJointId(joint: nat)
      requires Valid() && joint < armature.JointCount()
      modifies this
      ensures Valid()
      ensures affected == old(affected) - armature.Subtree(joint)
      decreases armature.JointCount() - armature.rank[joint]
    {
      affected := affected - {joint};
      var children := armature.Children(joint);
      for i := 0 to |children|
        invariant Valid()
        invariant affected == old(affected) - ({joint} + armature.SubtreesOf(joint, children[..i]))
      {
        assert children[i] in children;
        RemoveFromJointId(children[i]);
        armature.SubtreesOfExtend(joint, children, i);
      }
      assert children[..|children|] == children;
    }

    /** Selects the named joint and every joint on its parent chain up to the root. */
    method AddAncestors(jointName: string) returns (outcome: Outcome)
      requires Valid()
      modifies this
      ensures Valid()
      ensures match armature.Lookup(jointName) {
        case None => outcome == Fail(jointName) && affected == old(affected)
        case Some(j) => outcome == Pass && affected == old(affected) + armature.Chain(j)
      }
    {
      var joint := armature.Lookup(jointName);
      if joint.None? {
        return Fail(jointName);
      }
      AddAncestorsOf(joint.value);
      return Pass;
    }

    /** The walk up getParent() behind AddAncestors. */
    method AddAncestorsOf(start: nat)
      requires Valid() && start < armature.JointCount()
      modifies this
      ensures Valid()
      ensures affected == old(affected) + armature.Chain(start)
    {
      armature.ChainBelow(start);
      ghost var visited: set<nat> := {};
      var joint: Option<nat> := Some(start);
      while joint.Some?
        invariant Valid()
        invariant joint.Some? ==> joint.value < armature.JointCount()
        invariant armature.Chain(start) ==
          visited + match joint { case None => {} case Some(j) => armature.Chain(j) }
        invariant affected == old(affected) + visited
        decreases match joint { case None => 0 case Some(j) => armature.rank[j] + 1 }
      {
        affected := affected + {joint.value};
        visited := visited + {joint.value};
        joint := armature.parents[joint.value];
      }
    }

    /** Deselects the named joint and every joint on its parent chain up to the root. */
    method RemoveAncestors(jointName: string) returns (outcome: Outcome)
      requires Valid()
      modifies this
      ensures Valid()
      ensures match armature.Lookup(jointName) {
        case None => outcome == Fail(jointName) && affected == old(affected)
        case Some(j) => outcome == Pass && affected == old(affected) - armature.Chain(j)
      }
    {
      var joint := armature.Lookup(jointName);
      if joint.None? {
        return Fail(jointName);
      }
      RemoveAncestorsOf(joint.value);
      return Pass;
    }

    /** The walk up getParent() behind RemoveAncestors. */
    method RemoveAncestorsOf(start: nat)
      requires Valid() && start < armature.JointCount()
      modifies this
      ensures Valid()
      ensures affected == old(affected) - armature.Chain(start)
    {
      ghost var visited: set<nat> := {};
      var joint: Option<nat> := Some(start);
      while joint.Some?
        invariant Valid()
        invariant joint.Some? ==> joint.value < armature.JointCount()
        invariant armature.Chain(start) ==
          visited + match joint { case None => {} case Some(j) => armature.Chain(j) }
        invariant affected == old(affected) - visited
        decreases match joint { case None => 0 case Some(j) => armature.rank[j] + 1 }
      {
        affected := affected - {joint.value};
        visited := visited + {joint.value};
        joint := armature.parents[joint.value];
      }
    }
  }

  /** On a fresh builder, AddAllJoints makes Contains hold of exactly the valid ids. */
  method AllJointsMembership(armature: Armature, joint: nat) returns (member: bool)
    requires armature.Valid()
    ensures member <==> joint < armature.JointCount()
  {
    var builder := new AnimMaskBuilder(armature);
    builder.AddAllJoints();
    member := builder.Contains(joint);
  }

  /** On a fresh builder, AddAncestors selects exactly the joints on the path from the named
      joint to its root, Depth + 1 of them. */
  method AncestorMaskSize(armature: Armature, jointName: string) returns (selected: set<nat>, size: nat)
    requires armature.Valid() && jointName in armature.jointNames
    ensures var j := armature.Lookup(jointName).value;
      && selected == armature.Chain(j)
      && size == |selected| == armature.Depth(j) + 1
  {
    var builder := new AnimMaskBuilder(armature);
    var outcome := builder.AddAncestors(jointName);
    armature.ChainSize(armature.Lookup(jointName).value);
    selected := builder.affected;
    size := |selected|;
  }

  /** AddFromJoint followed by RemoveFromJoint leaves the subtree deselected and every other
      joint as it was; a mask that had none of the subtree selected comes back unchanged. */
  method SubtreeRoundTrip(builder: AnimMaskBuilder, jointName: string)
    requires builder.Valid() && jointName in builder.armature.jointNames
    modifies builder
    ensures builder.Valid()
    ensures var j := builder.armature.Lookup(jointName).value;
      && (forall k :: k in builder.armature.Subtree(j) ==> !builder.Contains(k))
      && (forall k :: k !in builder.armature.Subtree(j) ==> builder.Contains(k) == old(builder.Contains(k)))
      && (old(builder.affected) !! builder.armature.Subtree(j) ==> builder.affected == old(builder.affected))
  {
    var added := builder.AddFromJoint(jointName);
    var removed := builder.RemoveFromJoint(jointName);
  }
}

/**
  The skeleton a joint mask is built over: jME's Armature, read-only here.
  Joints are identified by their dense ids 0 .. JointCount()-1; each has a
  name and an optional parent. Children, the ancestor chain and the subtree
  of a joint are derived from the parent links.
 */
module Skeletons {
  import opened Seqs

  class Armature {
    const jointNames: seq<string>
    const parents: seq<Option<nat>>
    /** Acyclicity certificate: a parent always has a smaller rank than its child. */
    ghost const rank: seq<nat>

    ghost predicate Valid() {
      && |parents| == |jointNames| == |rank|
      && (forall j :: 0 <= j < |parents| ==> rank[j] < |parents|)
      && (forall j :: 0 <= j < |parents| && parents[j].Some? ==>
            parents[j].value < |parents| && rank[parents[j].value] < rank[j])
    }

    constructor (jointNames: seq<string>, parents: seq<Option<nat>>, ghost rank: seq<nat>)
      requires |parents| == |jointNames| == |rank|
      requires forall j :: 0 <= j < |parents| ==> rank[j] < |parents|
      requires forall j :: 0 <= j < |parents| && parents[j].Some? ==>
                 parents[j].value < |parents| && rank[parents[j].value] < rank[j]
      ensures Valid()
      ensures this.jointNames == jointNames && this.parents == parents
    {
      this.jointNames := jointNames;
      this.parents := parents;
      this.rank := rank;
    }

    function JointCount(): nat {
      |jointNames|
    }

    /** Armature.getJoint(name): the first joint carrying that name, None when no joint does. */
    function Lookup(name: string): (r: Option<nat>)
      ensures r.Some? ==> r.value < JointCount() && jointNames[r.value] == name
      ensures r.Some? ==> forall k :: 0 <= k < r.value ==> jointNames[k] != name
      ensures r.None? <==> name !in jointNames
    {
      LookupFrom(name, 0)
    }

    function LookupFrom(name: string, from: nat): (r: Option<nat>)
      requires from <= JointCount()
      ensures r.Some? ==> from <= r.value < JointCount() && jointNames[r.value] == name
      ensures r.Some? ==> forall k :: from <= k < r.value ==> jointNames[k] != name
      ensures r.None? <==> forall k :: from <= k < JointCount() ==> jointNames[k] != name
      decreases JointCount() - from
    {
      if from == JointCount() then None
      else if jointNames[from] == name then Some(from)
      else LookupFrom(name, from + 1)
    }

    /** Joint.getChildren(): the joints whose parent is j, in id order. */
    function Children(j: nat): (cs: seq<nat>)
      requires Valid()
      ensures forall c :: c in cs <==> 0 <= c < JointCount() && parents[c] == Some(j)
      ensures forall m :: 0 <= m < |cs| ==> cs[m] < JointCount() && parents[cs[m]] == Some(j)
    {
      ChildrenFrom(j, 0)
    }

    function ChildrenFrom(j: nat, from: nat): (cs: seq<nat>)
      requires Valid() && from <= JointCount()
      ensures forall c :: c in cs <==> from <= c < JointCount() && parents[c] == Some(j)
      ensures forall m :: 0 <= m < |cs| ==> cs[m] < JointCount() && parents[cs[m]] == Some(j)
      decreases JointCount() - from
    {
      if from == JointCount() then []
      else if parents[from] == Some(j) then [from] + ChildrenFrom(j, from + 1)
      else ChildrenFrom(j, from + 1)
    }

    /** The joints visited by walking getParent() from j up to and including the root. */
    ghost function Chain(j: nat): set<nat>
      requires Valid() && j < JointCount()
      decreases rank[j]
    {
      {j} + match parents[j] { case None => {} case Some(p) => Chain(p) }
    }

    /** Number of parent links between j and its root. */
    ghost function Depth(j: nat): nat
      requires Valid() && j < JointCount()
      decreases rank[j]
    {
      match parents[j] { case None => 0 case Some(p) => Depth(p) + 1 }
    }

    /** The root reached by walking getParent() from j. */
    ghost function Root(j: nat): (r: nat)
      requires Valid() && j < JointCount()
      ensures r < JointCount()
      decreases rank[j]
    {
      match parents[j] { case None => j case Some(p) => Root(p) }
    }

    /** The joint j and all its descendants, reached by recursing over children. */
    ghost function Subtree(j: nat): set<nat>
      requires Valid() && j < JointCount()
      decreases JointCount() - rank[j], 1
    {
      {j} + SubtreesOf(j, Children(j))
    }

    /** The union of the subtrees rooted at cs, a list of children of j. */
    ghost function SubtreesOf(j: nat, cs: seq<nat>): set<nat>
      requires Valid() && j < JointCount()
      requires forall m :: 0 <= m < |cs| ==> cs[m] < JointCount() && parents[cs[m]] == Some(j)
      decreases JointCount() - rank[j], 0
    {
      set c, k | c in cs && k in Subtree(c) :: k
    }

    /** The subtree of j holds only valid joint ids. */
    lemma {:induction false} SubtreeInRange(j: nat)
      requires Valid() && j < JointCount()
      ensures forall k :: k in Subtree(j) ==> k < JointCount()
      decreases JointCount() - rank[j]
    {
      forall k | k in Subtree(j) ensures k < JointCount() {
        if k != j {
          assert k in SubtreesOf(j, Children(j));
          var c :| c in Children(j) && k in Subtree(c);
          SubtreeInRange(c);
        }
      }
    }

    /** Every joint on the parent chain of j is a valid id ranked no higher than j. */
    lemma {:induction false} ChainBelow(j: nat)
      requires Valid() && j < JointCount()
      ensures forall k :: k in Chain(j) ==> k < JointCount() && rank[k] <= rank[j]
      decreases rank[j]
    {
      match parents[j] {
        case None =>
        case Some(p) => ChainBelow(p);
      }
    }

    /** The parent chain is transitive: the chain of any joint on it is part of it. */
    lemma {:induction false} ChainTransitive(k: nat, c: nat)
      requires Valid() && k < JointCount() && c in Chain(k)
      ensures c < JointCount() && Chain(c) <= Chain(k)
      decreases rank[k]
    {
      ChainBelow(k);
      if c != k {
        ChainTransitive(parents[k].value, c);
      }
    }

    /** The ancestor walk visits Depth(j) + 1 distinct joints: its members are pairwise different. */
    lemma {:induction false} ChainSize(j: nat)
      requires Valid() && j < JointCount()
      ensures |Chain(j)| == Depth(j) + 1
      decreases rank[j]
    {
      match parents[j] {
        case None =>
        case Some(p) =>
          ChainSize(p);
          ChainBelow(p);
          assert j !in Chain(p);
      }
    }

    /** The ancestor walk ends at a root: a joint with no parent, reached from j. */
    lemma {:induction false} ChainEndsAtRoot(j: nat)
      requires Valid() && j < JointCount()
      ensures Root(j) in Chain(j) && parents[Root(j)].None?
      decreases rank[j]
    {
      match parents[j] {
        case None =>
        case Some(p) => ChainEndsAtRoot(p);
      }
    }

    /** The subtree of j is closed under taking children. */
    lemma {:induction false} SubtreeChildClosed(j: nat, p: nat, k: nat)
      requires Valid() && j < JointCount() && k < JointCount()
      requires p in Subtree(j) && parents[k] == Some(p)
      ensures k in Subtree(j)
      decreases JointCount() - rank[j]
    {
      if p == j {
        assert k in Children(j) && k in Subtree(k);
      } else {
        assert p in SubtreesOf(j, Children(j));
        var c :| c in Children(j) && p in Subtree(c);
        SubtreeChildClosed(c, p, k);
      }
    }

    /** Subtree and ancestor chain are converse: k lies in the subtree of j exactly when j lies on the parent chain of k. */
    lemma {:induction false} SubtreeChainDual(j: nat, k: nat)
      requires Valid() && j < JointCount() && k < JointCount()
      ensures k in Subtree(j) <==> j in Chain(k)
    {
      if k in Subtree(j) {
        SubtreeToChain(j, k);
      }
      if j in Chain(k) {
        ChainToSubtree(j, k);
      }
    }

    lemma {:induction false} SubtreeToChain(j: nat, k: nat)
      requires Valid() && j < JointCount() && k in Subtree(j)
      ensures k < JointCount() && j in Chain(k)
      decreases JointCount() - rank[j]
    {
      if k != j {
        assert k in SubtreesOf(j, Children(j));
        var c :| c in Children(j) && k in Subtree(c);
        SubtreeToChain(c, k);
        ChainTransitive(k, c);
      }
    }

    lemma {:induction false} ChainToSubtree(j: nat, k: nat)
      requires Valid() && j < JointCount() && k < JointCount() && j in Chain(k)
      ensures k in Subtree(j)
      decreases rank[k]
    {
      if k != j {
        var p := parents[k].value;
        ChainToSubtree(j, p);
        SubtreeChildClosed(j, p, k);
      }
    }

    /** Extending the list of visited children by one adds exactly that child's subtree. */
    lemma SubtreesOfExtend(j: nat, cs: seq<nat>, i: nat)
      requires Valid() && j < JointCount() && i < |cs|
      requires forall m :: 0 <= m < |cs| ==> cs[m] < JointCount() && parents[cs[m]] == Some(j)
      ensures SubtreesOf(j, cs[..i + 1]) == SubtreesOf(j, cs[..i]) + Subtree(cs[i])
    {
      assert cs[..i + 1] == cs[..i] + [cs[i]];
    }
  }
}

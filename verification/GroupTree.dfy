/**
 * The secret tree of a group (group/group_state.py, group/key_schedule.py): a heap-shaped array of
 * optional secrets, updated along one path at a time.
 */
module GroupTree {
  import opened Common

  /** Symbolic group secrets: HKDF with distinct salts and infos is one constructor per use. */
  datatype Secret =
    | Random(id: nat)                                            // bytes drawn for one leaf
    | Filler(group: bytes, index: nat)                           // padding of an unused leaf
    | LeafSecret(secret: Secret, index: nat)
    | NodeSecret(left: Secret, right: Secret, index: nat)
    | EpochSecret(root: Secret, epoch: nat, group: bytes)
    | ApplicationKey(epochSecret: Secret)

  /** Parent of a node other than the root; the root has none. */
  function ParentIndex(idx: nat): Option<nat> {
    if idx == 0 then None else Some((idx - 1) / 2)
  }

  function Combine(left: Option<Secret>, right: Option<Secret>, index: nat): Option<Secret> {
    if left.Some? && right.Some? then Some(NodeSecret(left.value, right.value, index)) else None
  }

  /** The secret of node i derived from the leaves alone. Leaf k of n sits at node n - 1 + k. */
  function Derive(leaves: seq<Option<Secret>>, i: nat): Option<Secret>
    requires i < 2 * |leaves| - 1
    decreases 2 * |leaves| - 1 - i
  {
    if i >= |leaves| - 1 then leaves[i - (|leaves| - 1)]
    else Combine(Derive(leaves, 2 * i + 1), Derive(leaves, 2 * i + 2), i)
  }

  /** The tree over four leaves, written out. */
  lemma RootOfFour(a: Secret, b: Secret, c: Secret, d: Secret)
    ensures Derive([Some(a), Some(b), Some(c), Some(d)], 0) ==
            Some(NodeSecret(NodeSecret(a, b, 1), NodeSecret(c, d, 2), 0))
  {
    var leaves := [Some(a), Some(b), Some(c), Some(d)];
    assert Derive(leaves, 1) == Combine(Derive(leaves, 3), Derive(leaves, 4), 1);
    assert Derive(leaves, 2) == Combine(Derive(leaves, 5), Derive(leaves, 6), 2);
  }

  /** Every stored node is what a rebuild from the leaves would give. */
  ghost predicate Represents(nodes: seq<Option<Secret>>, leaves: seq<Option<Secret>>) {
    && |leaves| >= 1 && |nodes| == 2 * |leaves| - 1
    && forall i :: 0 <= i < |nodes| ==> nodes[i] == Derive(leaves, i)
  }

  /** Node i agrees with its two children. */
  predicate Agrees(nodes: seq<Option<Secret>>, i: nat)
    requires 2 * i + 2 < |nodes|
  {
    nodes[i] == Combine(nodes[2 * i + 1], nodes[2 * i + 2], i)
  }

  lemma {:induction false} AgreementIsRebuild(nodes: seq<Option<Secret>>, leaves: seq<Option<Secret>>, i: nat)
    requires |leaves| >= 1 && |nodes| == 2 * |leaves| - 1 && i < |nodes|
    requires nodes[|leaves| - 1..] == leaves
    requires forall j: nat :: j < |leaves| - 1 ==> Agrees(nodes, j)
    ensures nodes[i] == Derive(leaves, i)
    decreases |nodes| - i
  {
    if i >= |leaves| - 1 {
      assert nodes[i] == nodes[|leaves| - 1..][i - (|leaves| - 1)];
    } else {
      AgreementIsRebuild(nodes, leaves, 2 * i + 1);
      AgreementIsRebuild(nodes, leaves, 2 * i + 2);
      assert Agrees(nodes, i);
    }
  }

  /** Changing node k disturbs only k itself and its parent. */
  lemma ChangeIsLocal(was: seq<Option<Secret>>, now: seq<Option<Secret>>, k: nat, j: nat)
    requires |was| == |now| && k < |now| && 2 * j + 2 < |now| && now == was[k := now[k]]
    requires j != k && ParentIndex(k) != Some(j) && Agrees(was, j)
    ensures Agrees(now, j)
  {
    assert k != 2 * j + 1 && k != 2 * j + 2;
  }

  // Who is below whom ---------------------------------------------------------------------------------

  /** Walking up from j by parent steps reaches i. */
  predicate Above(i: nat, j: nat) {
    i == j || (i < j && Above(i, (j - 1) / 2))
  }

  lemma {:induction false} AboveSplits(i: nat, j: nat)
    requires i != j
    ensures Above(i, j) <==> Above(2 * i + 1, j) || Above(2 * i + 2, j)
  {
    AboveAtLeast(2 * i + 1, j);
    AboveAtLeast(2 * i + 2, j);
    if i < j {
      var p := (j - 1) / 2;
      AboveAtLeast(2 * i + 1, p);
      AboveAtLeast(2 * i + 2, p);
      if p != i {
        AboveSplits(i, p);
      } else {
        assert j == 2 * i + 1 || j == 2 * i + 2;
      }
    }
  }

  lemma AboveAtLeast(i: nat, j: nat)
    ensures Above(i, j) ==> i <= j
  {
  }

  /** Node j is one of the n leaves. */
  predicate IsLeaf(n: nat, j: int) {
    n - 1 <= j < 2 * n - 1
  }

  /** A node is set exactly when every leaf below it is set. */
  lemma {:induction false} SetIffLeavesSet(leaves: seq<Option<Secret>>, i: nat)
    requires i < 2 * |leaves| - 1
    ensures Derive(leaves, i).Some? <==>
            forall j: nat :: IsLeaf(|leaves|, j) && Above(i, j) ==> leaves[j - (|leaves| - 1)].Some?
    decreases 2 * |leaves| - 1 - i
  {
    var n := |leaves|;
    if i >= n - 1 {
      forall j: nat | IsLeaf(n, j) && Above(i, j)
        ensures j == i
      {
        LeafAboveNothing(n, i, j);
      }
      assert IsLeaf(n, i) && Above(i, i);
    } else {
      SetIffLeavesSet(leaves, 2 * i + 1);
      SetIffLeavesSet(leaves, 2 * i + 2);
      forall j: nat | IsLeaf(n, j)
        ensures Above(i, j) <==> Above(2 * i + 1, j) || Above(2 * i + 2, j)
      {
        AboveSplits(i, j);
      }
    }
  }

  lemma LeafAboveNothing(n: nat, i: nat, j: nat)
    requires IsLeaf(n, i) && IsLeaf(n, j) && Above(i, j)
    ensures i == j
  {
    AboveAtLeast(i, (if j == 0 then 0 else (j - 1) / 2));
  }

  lemma {:induction false} RootAboveAll(j: nat)
    ensures Above(0, j)
  {
    if j > 0 {
      RootAboveAll((j - 1) / 2);
    }
  }

  // The tree object -----------------------------------------------------------------------------------

  class Tree {
    const nodes: array<Option<Secret>>
    const leafOffset: nat
    ghost var leaves: seq<Option<Secret>>

    ghost predicate Valid()
      reads this, nodes
    {
      && |leaves| == leafOffset + 1
      && Represents(nodes[..], leaves)
    }

    /** An empty tree with the given number of leaves. */
    constructor (count: nat)
      requires count >= 1
      ensures Valid() && fresh(nodes)
      ensures leafOffset == count - 1 && leaves == seq(count, _ => None)
    {
      var a := new Option<Secret>[2 * count - 1](_ => None);
      nodes := a;
      leafOffset := count - 1;
      leaves := seq(count, _ => None);
      new;
      forall i: nat | i < |nodes[..]|
        ensures nodes[..][i] == Derive(leaves, i)
      {
        AgreementIsRebuild(nodes[..], leaves, i);
      }
    }

    /** for_member_count: capacity is fixed at four. */
    static method ForMemberCount(memberCount: int) returns (r: Result<Tree>)
      ensures r.Ok? <==> 1 <= memberCount <= 4
      ensures r.Ok? ==> fresh(r.value) && fresh(r.value.nodes) && r.value.Valid()
                        && r.value.leaves == seq(4, _ => None)
    {
      if memberCount <= 0 || memberCount > 4 {
        return Err;
      }
      var t := new Tree(4);
      return Ok(t);
    }

    method RootSecret() returns (r: Option<Secret>)
      requires Valid()
      ensures r == Derive(leaves, 0)
    {
      r := nodes[0];
    }

    /** set_leaf; an index beyond the leaves is an error and changes nothing. */
    method SetLeaf(leafIndex: nat, secret: Secret) returns (ok: bool)
      requires Valid()
      modifies this, nodes
      ensures Valid() && |leaves| == |old(leaves)|
      ensures ok <==> leafIndex < |leaves|
      ensures leaves == if ok then old(leaves)[leafIndex := Some(LeafSecret(secret, leafIndex))] else old(leaves)
    {
      var idx := leafOffset + leafIndex;
      if idx >= nodes.Length {
        return false;
      }
      ghost var before := nodes[..];
      nodes[idx] := Some(LeafSecret(secret, leafIndex));
      leaves := leaves[leafIndex := Some(LeafSecret(secret, leafIndex))];
      RecomputePath(idx, before);
      forall i: nat | i < |nodes[..]|
        ensures nodes[..][i] == Derive(leaves, i)
      {
        AgreementIsRebuild(nodes[..], leaves, i);
      }
      return true;
    }

    /** Walks from a changed node to the root; afterwards every inner node agrees with its children. */
    method RecomputePath(idx: nat, ghost before: seq<Option<Secret>>)
      requires leafOffset <= idx < nodes.Length == 2 * leafOffset + 1 == |before|
      requires nodes[idx].Some? && forall i: nat :: i < nodes.Length && i != idx ==> nodes[i] == before[i]
      requires forall j: nat :: j < leafOffset ==> Agrees(before, j)
      modifies nodes
      ensures forall i: nat :: leafOffset <= i < nodes.Length ==> nodes[i] == old(nodes[i])
      ensures forall j: nat :: j < leafOffset ==> Agrees(nodes[..], j)
    {
      ghost var child: nat := idx;
      var parent := ParentIndex(idx);
      assert nodes[..] == before[idx := nodes[idx]];
      forall j: nat | j < leafOffset && parent != Some(j)
        ensures Agrees(nodes[..], j)
      {
        ChangeIsLocal(before, nodes[..], idx, j);
      }
      while parent.Some?
        invariant child < nodes.Length && parent == ParentIndex(child) && nodes[child].Some?
        invariant forall i: nat :: leafOffset <= i < nodes.Length ==> nodes[i] == old(nodes[i])
        invariant forall i: nat :: i < nodes.Length && i != child && i < 2 * child + 1 ==> nodes[i] == before[i]
        invariant forall j: nat :: j < leafOffset && parent != Some(j) ==> Agrees(nodes[..], j)
        decreases child
      {
        var p := parent.value;
        var left := nodes[2 * p + 1];
        var right := nodes[2 * p + 2];
        assert Agrees(before, p);
        if left.None? || right.None? {
          assert Agrees(nodes[..], p);
          break;
        }
        ghost var was := nodes[..];
        nodes[p] := Some(NodeSecret(left.value, right.value, p));
        forall j: nat | j < leafOffset && ParentIndex(p) != Some(j)
          ensures Agrees(nodes[..], j)
        {
          if j != p {
            ChangeIsLocal(was, nodes[..], p, j);
          }
        }
        child := p;
        parent := ParentIndex(p);
      }
    }
  }
}

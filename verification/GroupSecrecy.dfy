/**
 * A removed member stays out (group/group_state.py, group/key_schedule.py): no later root, epoch
 * secret or application key can be derived, by any number of HKDF steps, from anything known before
 * the removal.
 */
module GroupSecrecy {
  import opened Common
  import opened GroupTree
  import opened GroupState

  /** The random leaf secrets a secret was derived from. */
  function Atoms(s: Secret): set<nat> {
    match s
    case Random(id) => {id}
    case Filler(_, _) => {}
    case LeafSecret(t, _) => Atoms(t)
    case NodeSecret(l, r, _) => Atoms(l) + Atoms(r)
    case EpochSecret(r, _, _) => Atoms(r)
    case ApplicationKey(e) => Atoms(e)
  }

  /**
   * s can be computed from known: it is known, or one derivation step from secrets that can be
   * computed. Fillers are derived from the public group id.
   */
  predicate Derivable(known: set<Secret>, s: Secret) {
    s in known ||
    match s
    case Random(_) => false
    case Filler(_, _) => true
    case LeafSecret(t, _) => Derivable(known, t)
    case NodeSecret(l, r, _) => Derivable(known, l) && Derivable(known, r)
    case EpochSecret(r, _, _) => Derivable(known, r)
    case ApplicationKey(e) => Derivable(known, e)
  }

  /** Derivation does not bring in random values that nothing known was made from. */
  lemma {:induction false} DerivableAtoms(known: set<Secret>, drawn: set<nat>, s: Secret)
    requires (forall t :: t in known ==> Atoms(t) <= drawn) && Derivable(known, s)
    ensures Atoms(s) <= drawn
  {
    if s !in known {
      match s {
        case Filler(_, _) =>
        case LeafSecret(t, _) => DerivableAtoms(known, drawn, t);
        case NodeSecret(l, r, _) =>
          DerivableAtoms(known, drawn, l);
          DerivableAtoms(known, drawn, r);
        case EpochSecret(r, _, _) => DerivableAtoms(known, drawn, r);
        case ApplicationKey(e) => DerivableAtoms(known, drawn, e);
      }
    }
  }

  /** A node is made from every leaf below it. */
  lemma {:induction false} NodeContainsLeaf(leaves: seq<Option<Secret>>, i: nat, j: nat)
    requires i < 2 * |leaves| - 1 && IsLeaf(|leaves|, j) && Above(i, j) && Derive(leaves, i).Some?
    ensures var leaf := leaves[j - (|leaves| - 1)];
            leaf.Some? && Atoms(leaf.value) <= Atoms(Derive(leaves, i).value)
    decreases 2 * |leaves| - 1 - i
  {
    if i >= |leaves| - 1 {
      LeafAboveNothing(|leaves|, i, j);
    } else {
      AboveSplits(i, j);
      NodeContainsLeaf(leaves, if Above(2 * i + 1, j) then 2 * i + 1 else 2 * i + 2, j);
    }
  }

  /** Nodes are made from nothing but the leaves. */
  lemma {:induction false} NodeAtoms(leaves: seq<Option<Secret>>, drawn: set<nat>, i: nat)
    requires i < 2 * |leaves| - 1 && LeavesFrom(leaves, drawn)
    ensures Derive(leaves, i).Some? ==> Atoms(Derive(leaves, i).value) <= drawn
    decreases 2 * |leaves| - 1 - i
  {
    if i < |leaves| - 1 {
      NodeAtoms(leaves, drawn, 2 * i + 1);
      NodeAtoms(leaves, drawn, 2 * i + 2);
    }
  }

  ghost predicate LeavesFrom(leaves: seq<Option<Secret>>, drawn: set<nat>) {
    forall k :: 0 <= k < |leaves| && leaves[k].Some? ==> Atoms(leaves[k].value) <= drawn
  }

  /** Everything a group state holds: all tree nodes, the epoch secret and the application key. */
  ghost function Held(g: Group): set<Secret>
    requires |g.leaves| >= 1
  {
    (set i: nat | i < 2 * |g.leaves| - 1 && Derive(g.leaves, i).Some? :: Derive(g.leaves, i).value)
    + (if g.secret.Some? then {g.secret.value} else {})
    + (if g.applicationKey.Some? then {g.applicationKey.value} else {})
  }

  /** What a state holds is made from the random values drawn so far. */
  lemma HeldAtoms(g: Group, drawn: set<nat>)
    requires GroupOk(g) && LeavesFrom(g.leaves, drawn)
    ensures forall t :: t in Held(g) ==> Atoms(t) <= drawn
  {
    forall i: nat | i < 2 * |g.leaves| - 1 && Derive(g.leaves, i).Some?
      ensures Atoms(Derive(g.leaves, i).value) <= drawn
    {
      NodeAtoms(g.leaves, drawn, i);
    }
  }

  /** Every operation draws a leaf secret that nobody has drawn before. */
  ghost predicate FreshDraws(ops: seq<Op>, drawn: set<nat>) {
    && (forall i :: 0 <= i < |ops| ==> ops[i].secret.Random? && ops[i].secret.id !in drawn)
    && (forall i, j :: 0 <= i < j < |ops| ==> ops[i].secret != ops[j].secret)
  }

  /** The leaf holds a random value drawn after drawn. */
  predicate NewLeaf(g: Group, leaf: nat, drawn: set<nat>) {
    && leaf < |g.leaves| && g.leaves[leaf].Some?
    && g.leaves[leaf].value.LeafSecret? && g.leaves[leaf].value.secret.Random?
    && g.leaves[leaf].value.secret.id !in drawn
  }

  lemma StepKeepsNewLeaf(g: Group, op: Op, next: Group, leaf: nat, drawn: set<nat>)
    requires GroupOk(g) && Succeeds(g, op, next) && NewLeaf(g, leaf, drawn)
    requires op.secret.Random? && op.secret.id !in drawn
    ensures NewLeaf(next, leaf, drawn)
  {
  }

  lemma {:induction false} RunKeepsNewLeaf(run: seq<Group>, ops: seq<Op>, leaf: nat, drawn: set<nat>, k: nat)
    requires IsRun(run, ops) && GroupOk(run[0]) && FreshDraws(ops, drawn) && k < |run|
    requires NewLeaf(run[0], leaf, drawn)
    ensures NewLeaf(run[k], leaf, drawn)
  {
    if k > 0 {
      RunKeepsNewLeaf(run, ops, leaf, drawn, k - 1);
      RunKeepsGroup(run, ops, k - 1);
      assert Succeeds(run[k - 1], ops[k - 1], run[k]);
      StepKeepsNewLeaf(run[k - 1], ops[k - 1], run[k], leaf, drawn);
    }
  }

  function DrawnBy(ops: seq<Op>): set<nat> {
    set i | 0 <= i < |ops| && ops[i].secret.Random? :: ops[i].secret.id
  }

  lemma StepDraws(g: Group, op: Op, next: Group, drawn: set<nat>)
    requires GroupOk(g) && Succeeds(g, op, next) && op.secret.Random? && LeavesFrom(g.leaves, drawn)
    ensures LeavesFrom(next.leaves, drawn + {op.secret.id})
  {
  }

  /** All along a run the leaves are made from the values drawn before it and by its operations. */
  lemma {:induction false} RunDraws(run: seq<Group>, ops: seq<Op>, drawn: set<nat>, k: nat)
    requires IsRun(run, ops) && GroupOk(run[0]) && LeavesFrom(run[0].leaves, drawn) && k < |run|
    requires forall i :: 0 <= i < |ops| ==> ops[i].secret.Random?
    ensures LeavesFrom(run[k].leaves, drawn + DrawnBy(ops[..k]))
  {
    if k > 0 {
      RunDraws(run, ops, drawn, k - 1);
      RunKeepsGroup(run, ops, k - 1);
      StepDraws(run[k - 1], ops[k - 1], run[k], drawn + DrawnBy(ops[..k - 1]));
      assert ops[..k][k - 1] == ops[k - 1];
      assert forall i :: 0 <= i < k - 1 ==> ops[..k][i] == ops[..k - 1][i];
      assert drawn + DrawnBy(ops[..k - 1]) + {ops[k - 1].secret.id} <= drawn + DrawnBy(ops[..k]);
    }
  }

  /** With one new leaf, none of the group's keys can be computed from what was known before. */
  lemma NewLeafHidesKeys(g: Group, leaf: nat, drawn: set<nat>, known: set<Secret>)
    requires GroupOk(g) && NewLeaf(g, leaf, drawn) && forall t :: t in known ==> Atoms(t) <= drawn
    ensures !Derivable(known, Root(g).value)
    ensures !Derivable(known, g.secret.value) && !Derivable(known, g.applicationKey.value)
  {
    RootAboveAll(|g.leaves| - 1 + leaf);
    NodeContainsLeaf(g.leaves, 0, |g.leaves| - 1 + leaf);
    var id := g.leaves[leaf].value.secret.id;
    assert id in Atoms(Root(g).value);
    forall s | s in {Root(g).value, g.secret.value, g.applicationKey.value}
      ensures !Derivable(known, s)
    {
      assert id in Atoms(s);
      if Derivable(known, s) {
        DerivableAtoms(known, drawn, s);
      }
    }
  }

  /**
   * Removal holds for all later epochs. known is anything made from random values drawn before the
   * removal: in particular all the state held then, and every raw leaf secret handed out until then.
   */
  lemma RemovalHoldsForever(g: Group, drawn: set<nat>, known: set<Secret>, id: Identity, replacement: Secret,
                            run: seq<Group>, ops: seq<Op>, k: nat)
    requires GroupOk(g) && LeavesFrom(g.leaves, drawn) && HasMember(g.members, id)
    requires forall t :: t in known ==> Atoms(t) <= drawn
    requires replacement.Random? && FreshDraws(ops, drawn) && replacement.id !in drawn
    requires IsRun(run, ops) && k < |run| && RemoveMember(g, id, replacement) == Change(run[0], true)
    ensures GroupOk(run[k]) && run[k].epoch == g.epoch + 1 + k
    ensures !Derivable(known + Held(g), Root(run[k]).value)
    ensures !Derivable(known + Held(g), run[k].secret.value)
    ensures !Derivable(known + Held(g), run[k].applicationKey.value)
  {
    HeldAtoms(g, drawn);
    RemoveKeepsGroup(g, id, replacement);
    var leaf := g.members[FindMember(g.members, id)].leaf;
    RunKeepsGroup(run, ops, k);
    RunKeepsNewLeaf(run, ops, leaf, drawn, k);
    NewLeafHidesKeys(run[k], leaf, drawn, known + Held(g));
  }

  // The removed member's own secret -----------------------------------------------------------------------

  /** No leaf is made from the random value a. */
  ghost predicate Avoids(leaves: seq<Option<Secret>>, a: nat) {
    forall k :: 0 <= k < |leaves| && leaves[k].Some? ==> a !in Atoms(leaves[k].value)
  }

  lemma {:induction false} NodeAvoids(leaves: seq<Option<Secret>>, a: nat, i: nat)
    requires i < 2 * |leaves| - 1 && Avoids(leaves, a)
    ensures Derive(leaves, i).Some? ==> a !in Atoms(Derive(leaves, i).value)
    decreases 2 * |leaves| - 1 - i
  {
    if i < |leaves| - 1 {
      NodeAvoids(leaves, a, 2 * i + 1);
      NodeAvoids(leaves, a, 2 * i + 2);
    }
  }

  lemma {:induction false} RunAvoids(run: seq<Group>, ops: seq<Op>, a: nat, k: nat)
    requires IsRun(run, ops) && GroupOk(run[0]) && Avoids(run[0].leaves, a) && k < |run|
    requires forall i :: 0 <= i < |ops| ==> a !in Atoms(ops[i].secret)
    ensures Avoids(run[k].leaves, a)
  {
    if k > 0 {
      RunAvoids(run, ops, a, k - 1);
      RunKeepsGroup(run, ops, k - 1);
      assert Succeeds(run[k - 1], ops[k - 1], run[k]);
    }
  }

  lemma RemovalAvoids(g: Group, m: Member, replacement: Secret, a: nat, next: Group)
    requires GroupOk(g) && m in g.members && RemoveMember(g, m.id, replacement) == Change(next, true)
    requires forall j :: 0 <= j < CAPACITY && j != m.leaf ==> a !in Atoms(g.leaves[j].value)
    requires a !in Atoms(replacement)
    ensures GroupOk(next) && Avoids(next.leaves, a)
  {
    RemoveKeepsGroup(g, m.id, replacement);
    assert OneLeafSet(g.leaves, next.leaves, m.leaf, replacement);
  }

  /**
   * The random value of the removed member's own leaf is out of the group for good: unless another
   * leaf was made from it, or it is drawn again, no root and no key of any later epoch is.
   */
  lemma RemovedValueIsGone(g: Group, m: Member, replacement: Secret, a: nat, run: seq<Group>, ops: seq<Op>, k: nat)
    requires GroupOk(g) && m in g.members && IsRun(run, ops) && k < |run|
    requires RemoveMember(g, m.id, replacement) == Change(run[0], true)
    requires forall j :: 0 <= j < CAPACITY && j != m.leaf ==> a !in Atoms(g.leaves[j].value)
    requires a !in Atoms(replacement) && forall i :: 0 <= i < |ops| ==> a !in Atoms(ops[i].secret)
    ensures GroupOk(run[k]) && a !in Atoms(Root(run[k]).value)
    ensures a !in Atoms(run[k].secret.value) && a !in Atoms(run[k].applicationKey.value)
  {
    RemovalAvoids(g, m, replacement, a, run[0]);
    RunKeepsGroup(run, ops, k);
    RunAvoids(run, ops, a, k);
    NodeAvoids(run[k].leaves, a, 0);
  }
}

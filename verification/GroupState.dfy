/**
 * Group membership and the key schedule (group/group_state.py, group/key_schedule.py): creating a
 * group, adding and removing members, and the keys and hash rederived on every change.
 */
module GroupState {
  import opened Common
  import opened GroupTree

  const INITIAL_EPOCH: nat := 1

  const CAPACITY: nat := 4

  /** An identity key is a fixed-length byte string; read as a number it has the same order. */
  type Identity = nat

  datatype Member = Member(id: Identity, leaf: nat)

  datatype GroupHash = GroupHash(group: bytes, epoch: nat, ids: seq<Identity>, root: Option<Secret>)

  datatype Group = Group(
    groupId: bytes,
    epoch: nat,
    members: seq<Member>,
    leaves: seq<Option<Secret>>,
    secret: Option<Secret>,
    applicationKey: Option<Secret>,
    hash: Option<GroupHash>)

  // Sorted identities ---------------------------------------------------------------------------------

  function Insert(x: Identity, s: seq<Identity>): seq<Identity> {
    if s == [] || x <= s[0] then [x] + s else [s[0]] + Insert(x, s[1..])
  }

  function Sort(s: seq<Identity>): seq<Identity> {
    if s == [] then [] else Insert(s[0], Sort(s[1..]))
  }

  ghost predicate Sorted(s: seq<Identity>) {
    forall i, j :: 0 <= i < j < |s| ==> s[i] <= s[j]
  }

  lemma {:induction false} InsertPermutes(x: Identity, s: seq<Identity>)
    ensures multiset(Insert(x, s)) == multiset{x} + multiset(s)
    ensures forall y :: y in Insert(x, s) ==> y == x || y in s
  {
    if s != [] && x > s[0] {
      InsertPermutes(x, s[1..]);
      assert s == [s[0]] + s[1..];
    }
  }

  lemma {:induction false} InsertSorts(x: Identity, s: seq<Identity>)
    requires Sorted(s)
    ensures Sorted(Insert(x, s))
  {
    if s != [] && x > s[0] {
      InsertSorts(x, s[1..]);
      InsertPermutes(x, s[1..]);
      var r := Insert(x, s[1..]);
      forall i | 0 <= i < |r|
        ensures s[0] <= r[i]
      {
        assert r[i] in r;
        if r[i] != x {
          var k :| 0 <= k < |s| - 1 && s[1..][k] == r[i];
          assert s[k + 1] == r[i];
        }
      }
    }
  }

  lemma {:induction false} SortSorts(s: seq<Identity>)
    ensures Sorted(Sort(s)) && multiset(Sort(s)) == multiset(s)
  {
    if s != [] {
      SortSorts(s[1..]);
      InsertSorts(s[0], Sort(s[1..]));
      InsertPermutes(s[0], Sort(s[1..]));
      assert s == [s[0]] + s[1..];
    }
  }

  lemma {:induction false} SortedIsUnique(a: seq<Identity>, b: seq<Identity>)
    requires Sorted(a) && Sorted(b) && multiset(a) == multiset(b)
    ensures a == b
  {
    if a == [] {
      assert |multiset(b)| == 0;
    } else {
      assert |multiset(b)| == |multiset(a)| > 0;
      assert a[0] in multiset(b) && b[0] in multiset(a);
      assert a[0] == b[0];
      assert a == [a[0]] + a[1..] && b == [b[0]] + b[1..];
      assert multiset(a[1..]) == multiset(a) - multiset{a[0]};
      assert multiset(b[1..]) == multiset(b) - multiset{b[0]};
      SortedIsUnique(a[1..], b[1..]);
    }
  }

  /** The sorted list of identities does not depend on the order of the dictionary. */
  lemma SortIgnoresOrder(a: seq<Identity>, b: seq<Identity>)
    requires multiset(a) == multiset(b)
    ensures Sort(a) == Sort(b)
  {
    SortSorts(a);
    SortSorts(b);
    SortedIsUnique(Sort(a), Sort(b));
  }

  // The schedule --------------------------------------------------------------------------------------

  function Ids(members: seq<Member>): seq<Identity> {
    seq(|members|, i requires 0 <= i < |members| => members[i].id)
  }

  function Root(g: Group): Option<Secret>
    requires |g.leaves| >= 1
  {
    Derive(g.leaves, 0)
  }

  /** compute_group_hash */
  function HashOf(g: Group): GroupHash
    requires |g.leaves| >= 1
  {
    GroupHash(g.groupId, g.epoch, Sort(Ids(g.members)), Root(g))
  }

  /** The stored keys and hash are the schedule applied to the current root, epoch and members. */
  predicate KeysCurrent(g: Group) {
    && |g.leaves| >= 1 && Root(g).Some?
    && var epochSecret := EpochSecret(Root(g).value, g.epoch, g.groupId);
       && g.secret == Some(epochSecret)
       && g.applicationKey == Some(ApplicationKey(epochSecret))
       && g.hash == Some(HashOf(g))
  }

  /** A group between successful operations. */
  ghost predicate GroupOk(g: Group) {
    && g.groupId != [] && g.epoch >= INITIAL_EPOCH
    && |g.leaves| == CAPACITY && (forall k :: 0 <= k < CAPACITY ==> g.leaves[k].Some?)
    && MembersOk(g.members) && KeysCurrent(g)
  }

  /** At most four members, each on a leaf, with different identities. */
  ghost predicate MembersOk(members: seq<Member>) {
    && |members| <= CAPACITY
    && (forall i :: 0 <= i < |members| ==> members[i].leaf < CAPACITY)
    && (forall i, j :: 0 <= i < j < |members| ==> members[i].id != members[j].id)
  }

  function Rederived(g: Group): Group
    requires |g.leaves| >= 1 && Root(g).Some?
  {
    var epochSecret := EpochSecret(Root(g).value, g.epoch, g.groupId);
    g.(secret := Some(epochSecret), applicationKey := Some(ApplicationKey(epochSecret)), hash := Some(HashOf(g)))
  }

  lemma AllLeavesGiveRoot(leaves: seq<Option<Secret>>)
    requires |leaves| >= 1 && forall k :: 0 <= k < |leaves| ==> leaves[k].Some?
    ensures Derive(leaves, 0).Some?
  {
    SetIffLeavesSet(leaves, 0);
  }

  // Operations ----------------------------------------------------------------------------------------

  datatype Change = Change(group: Group, ok: bool)

  predicate HasMember(members: seq<Member>, id: Identity) {
    exists i :: 0 <= i < |members| && members[i].id == id
  }

  function FindMember(members: seq<Member>, id: Identity): (i: nat)
    requires HasMember(members, id)
    ensures i < |members| && members[i].id == id
  {
    if members[0].id == id then 0 else
      assert HasMember(members[1..], id) by {
        var i :| 0 <= i < |members| && members[i].id == id;
        assert members[1..][i - 1].id == id;
      }
      1 + FindMember(members[1..], id)
  }

  /** Leaf k gets a new secret, the epoch advances and the keys follow. */
  function Rekeyed(g: Group, members: seq<Member>, k: nat, secret: Secret): Change
    requires |g.leaves| >= 1 && k < |g.leaves|
  {
    var next := g.(members := members, leaves := g.leaves[k := Some(LeafSecret(secret, k))], epoch := g.epoch + 1);
    if Root(next).Some? then Change(Rederived(next), true) else Change(next, false)
  }

  /** A fifth member is entered into the dictionary before the capacity error is raised. */
  function AddMember(g: Group, id: Identity, secret: Secret): Change
    requires |g.leaves| >= 1
  {
    if HasMember(g.members, id) then Change(g, false) else
      var k := |g.members|;
      var members := g.members + [Member(id, k)];
      if k >= |g.leaves| then Change(g.(members := members), false) else Rekeyed(g, members, k, secret)
  }

  function RemoveMember(g: Group, id: Identity, secret: Secret): Change
    requires |g.leaves| >= 1
  {
    if !HasMember(g.members, id) then Change(g, false) else
      var i := FindMember(g.members, id);
      var members := g.members[..i] + g.members[i + 1..];
      var k := g.members[i].leaf;
      if k >= |g.leaves| then Change(g.(members := members), false) else Rekeyed(g, members, k, secret)
  }

  /** Leaf k holds the new secret, and every other leaf what it held. */
  predicate OneLeafSet(before: seq<Option<Secret>>, after: seq<Option<Secret>>, k: nat, secret: Secret) {
    && |after| == |before| && k < |after| && after[k] == Some(LeafSecret(secret, k))
    && forall j :: 0 <= j < |after| && j != k ==> after[j] == before[j]
  }

  lemma AddKeepsGroup(g: Group, id: Identity, secret: Secret)
    requires GroupOk(g)
    ensures var c := AddMember(g, id, secret);
            && (c.ok <==> !HasMember(g.members, id) && |g.members| < 4)
            && (!c.ok ==> c.group == if HasMember(g.members, id) then g
                                     else g.(members := g.members + [Member(id, |g.members|)]))
            && (c.ok ==> GroupOk(c.group) && c.group.epoch == g.epoch + 1
                         && c.group.members == g.members + [Member(id, |g.members|)]
                         && OneLeafSet(g.leaves, c.group.leaves, |g.members|, secret))
  {
    if !HasMember(g.members, id) && |g.members| < CAPACITY {
      var k := |g.members|;
      AllLeavesGiveRoot(g.leaves[k := Some(LeafSecret(secret, k))]);
    }
  }

  lemma RemoveKeepsGroup(g: Group, id: Identity, secret: Secret)
    requires GroupOk(g)
    ensures var c := RemoveMember(g, id, secret);
            && (c.ok <==> HasMember(g.members, id)) && (!c.ok ==> c.group == g)
            && (c.ok ==> GroupOk(c.group) && c.group.epoch == g.epoch + 1 && |c.group.members| == |g.members| - 1
                         && IsWithout(g.members, c.group.members, id))
            && (c.ok ==> forall m :: m in g.members && m.id == id ==> OneLeafSet(g.leaves, c.group.leaves, m.leaf, secret))
  {
    if HasMember(g.members, id) {
      var i := FindMember(g.members, id);
      WithoutOne(g.members, i);
      var k, members := g.members[i].leaf, g.members[..i] + g.members[i + 1..];
      assert g.members[i] in g.members;
      RekeyKeepsGroup(g, members, k, secret);
    }
  }

  /** New members that are all old ones, and one leaf set: the group is in order again. */
  lemma RekeyKeepsGroup(g: Group, members: seq<Member>, k: nat, secret: Secret)
    requires GroupOk(g) && k < CAPACITY && MembersOk(members)
    ensures var c := Rekeyed(g, members, k, secret);
            && c.ok && GroupOk(c.group) && c.group.epoch == g.epoch + 1 && c.group.members == members
            && OneLeafSet(g.leaves, c.group.leaves, k, secret)
  {
    AllLeavesGiveRoot(g.leaves[k := Some(LeafSecret(secret, k))]);
  }

  /** after holds the members of before other than id. */
  ghost predicate IsWithout(before: seq<Member>, after: seq<Member>, id: Identity) {
    forall m :: m in after <==> m in before && m.id != id
  }

  lemma WithoutOne(members: seq<Member>, i: nat)
    requires i < |members| && MembersOk(members)
    ensures MembersOk(members[..i] + members[i + 1..])
    ensures IsWithout(members, members[..i] + members[i + 1..], members[i].id)
    ensures forall m :: m in members && m.id == members[i].id ==> m == members[i]
  {
    var after := members[..i] + members[i + 1..];
    forall m
      ensures m in after <==> m in members && m.id != members[i].id
    {
      if m in members && m.id != members[i].id {
        var j :| 0 <= j < |members| && members[j] == m;
        assert after[if j < i then j else j - 1] == m;
      }
    }
  }

  /** An add keeps the keys current exactly when it is refused up front or there is a free leaf. */
  lemma AddKeepsKeysIff(g: Group, id: Identity, secret: Secret)
    requires GroupOk(g)
    ensures KeysCurrent(AddMember(g, id, secret).group) <==> HasMember(g.members, id) || |g.members| < CAPACITY
  {
    AddKeepsGroup(g, id, secret);
    if !HasMember(g.members, id) && |g.members| >= CAPACITY {
      var more := g.members + [Member(id, |g.members|)];
      SortSorts(Ids(g.members));
      SortSorts(Ids(more));
      assert |multiset(Ids(more))| == |multiset(Ids(g.members))| + 1;
      assert |Sort(Ids(more))| == |multiset(Sort(Ids(more)))|;
      assert |Sort(Ids(g.members))| == |multiset(Sort(Ids(g.members)))|;
    }
  }

  /** Two dictionaries with the same identities, in any order, give the same hash. */
  lemma HashIgnoresOrder(g: Group, members: seq<Member>)
    requires |g.leaves| >= 1 && multiset(Ids(members)) == multiset(Ids(g.members))
    ensures HashOf(g.(members := members)) == HashOf(g)
  {
    SortIgnoresOrder(Ids(members), Ids(g.members));
  }

  /** Equal hashes are hashes of the same group id, epoch, identities and root. */
  lemma HashBindsIff(g: Group, h: Group)
    requires |g.leaves| >= 1 && |h.leaves| >= 1
    ensures HashOf(g) == HashOf(h) <==>
            && g.groupId == h.groupId && g.epoch == h.epoch && Root(g) == Root(h)
            && multiset(Ids(g.members)) == multiset(Ids(h.members))
  {
    SortSorts(Ids(g.members));
    SortSorts(Ids(h.members));
    if multiset(Ids(g.members)) == multiset(Ids(h.members)) {
      SortIgnoresOrder(Ids(g.members), Ids(h.members));
    }
  }

  // Validation ----------------------------------------------------------------------------------------

  datatype Problem = EmptyGroupId | EpochTooLow | NoMembers | NoRoot | NoApplicationKey | NoHash | WrongHash
                   | DuplicateLeaf(leaf: nat)

  ghost predicate LeavesDistinct(members: seq<Member>) {
    forall i, j :: 0 <= i < j < |members| ==> members[i].leaf != members[j].leaf
  }

  /** The problems validate reports, apart from repeated leaf indices. */
  function BasicProblems(g: Group): seq<Problem>
    requires |g.leaves| >= 1
  {
    (if g.groupId == [] then [EmptyGroupId] else [])
    + (if g.epoch < INITIAL_EPOCH then [EpochTooLow] else [])
    + (if g.members == [] then [NoMembers] else [])
    + (if Root(g).None? then [NoRoot] else [])
    + (if g.applicationKey.None? then [NoApplicationKey] else [])
    + (if g.hash.None? then [NoHash] else if g.hash != Some(HashOf(g)) then [WrongHash] else [])
  }

  function LeafSet(members: seq<Member>): set<nat> {
    set m | m in members :: m.leaf
  }

  lemma LeafSetGrows(members: seq<Member>, m: Member)
    ensures LeafSet(members + [m]) == LeafSet(members) + {m.leaf}
  {
    forall k | k in LeafSet(members) + {m.leaf}
      ensures k in LeafSet(members + [m])
    {
      if k in LeafSet(members) {
        var x :| x in members && x.leaf == k;
        assert x in members + [m];
      } else {
        assert m in members + [m];
      }
    }
  }

  /** One report for every member whose leaf an earlier member has. */
  function RepeatedLeaves(members: seq<Member>): seq<Problem> {
    if members == [] then [] else
      var init, m := members[..|members| - 1], members[|members| - 1];
      RepeatedLeaves(init) + (if m.leaf in LeafSet(init) then [DuplicateLeaf(m.leaf)] else [])
  }

  /** A leaf is reported if and only if two members share it. */
  lemma {:induction false} ReportedIff(members: seq<Member>, k: nat)
    ensures DuplicateLeaf(k) in RepeatedLeaves(members) <==>
            exists i, j :: 0 <= i < j < |members| && members[i].leaf == k && members[j].leaf == k
  {
    if members != [] {
      var init, m := members[..|members| - 1], members[|members| - 1];
      ReportedIff(init, k);
      if m.leaf == k && k in LeafSet(init) {
        var x :| x in init && x.leaf == k;
        var i :| 0 <= i < |init| && init[i] == x;
        assert members[i].leaf == k && members[|init|].leaf == k;
      }
      if i, j :| 0 <= i < j < |members| && members[i].leaf == k && members[j].leaf == k {
        assert init[i] in init && (j < |init| ==> init[j].leaf == k && init[i].leaf == k);
      }
      if i, j :| 0 <= i < j < |init| && init[i].leaf == k && init[j].leaf == k {
        assert members[i].leaf == k && members[j].leaf == k;
      }
    }
  }

  /** No report if and only if no two members share a leaf. */
  lemma {:induction false} NoRepeatsIff(members: seq<Member>)
    ensures RepeatedLeaves(members) == [] <==> LeavesDistinct(members)
  {
    if members != [] {
      var init, m := members[..|members| - 1], members[|members| - 1];
      NoRepeatsIff(init);
      if m.leaf in LeafSet(init) {
        var x :| x in init && x.leaf == m.leaf;
        var i :| 0 <= i < |init| && init[i] == x;
        assert members[i].leaf == members[|members| - 1].leaf;
      } else {
        assert forall i :: 0 <= i < |init| ==> init[i] in init;
      }
    }
  }

  /** After a successful operation only an emptied group or a reused leaf can be reported. */
  lemma OnlyEmptiness(g: Group)
    requires GroupOk(g)
    ensures BasicProblems(g) == if g.members == [] then [NoMembers] else []
  {
  }

  /** When a basic check reports this problem. */
  predicate HasProblem(g: Group, x: Problem)
    requires |g.leaves| >= 1
  {
    match x
    case EmptyGroupId => g.groupId == []
    case EpochTooLow => g.epoch < 1
    case NoMembers => g.members == []
    case NoRoot => Root(g).None?
    case NoApplicationKey => g.applicationKey.None?
    case NoHash => g.hash.None?
    case WrongHash => g.hash.Some? && g.hash != Some(HashOf(g))
    case DuplicateLeaf(_) => false
  }

  lemma BasicProblemsAre(g: Group, x: Problem)
    requires |g.leaves| >= 1
    ensures x in BasicProblems(g) <==> HasProblem(g, x)
  {
  }

  /** A failed fifth add is found by validation. */
  lemma FifthAddIsReported(g: Group, id: Identity, secret: Secret)
    requires GroupOk(g) && !HasMember(g.members, id) && |g.members| == CAPACITY
    ensures WrongHash in BasicProblems(AddMember(g, id, secret).group)
  {
    AddKeepsGroup(g, id, secret);
    AddKeepsKeysIff(g, id, secret);
    BasicProblemsAre(AddMember(g, id, secret).group, WrongHash);
  }

  // Runs ----------------------------------------------------------------------------------------------

  datatype Op = Add(id: Identity, secret: Secret) | Remove(id: Identity, secret: Secret)

  function Apply(g: Group, op: Op): Change
    requires |g.leaves| >= 1
  {
    match op
    case Add(id, secret) => AddMember(g, id, secret)
    case Remove(id, secret) => RemoveMember(g, id, secret)
  }

  /** A run of operations that all succeed. */
  ghost predicate IsRun(run: seq<Group>, ops: seq<Op>) {
    && |run| == |ops| + 1
    && forall i :: 0 <= i < |ops| ==> Succeeds(run[i], ops[i], run[i + 1])
  }

  ghost predicate Succeeds(g: Group, op: Op, next: Group) {
    |g.leaves| >= 1 && Apply(g, op) == Change(next, true)
  }

  /** Key material is never stale: over every run, the epoch counts the changes and the keys are current. */
  lemma {:induction false} RunKeepsGroup(run: seq<Group>, ops: seq<Op>, k: nat)
    requires IsRun(run, ops) && GroupOk(run[0]) && k < |run|
    ensures GroupOk(run[k]) && run[k].epoch == run[0].epoch + k && run[k].groupId == run[0].groupId
  {
    if k > 0 {
      RunKeepsGroup(run, ops, k - 1);
      StepKeepsGroup(run[k - 1], ops[k - 1], run[k]);
    }
  }

  lemma StepKeepsGroup(g: Group, op: Op, next: Group)
    requires GroupOk(g) && Succeeds(g, op, next)
    ensures GroupOk(next) && next.epoch == g.epoch + 1 && next.groupId == g.groupId
  {
    match op {
      case Add(id, secret) => AddKeepsGroup(g, id, secret);
      case Remove(id, secret) => RemoveKeepsGroup(g, id, secret);
    }
  }

  // Creation ------------------------------------------------------------------------------------------

  datatype Newcomer = Newcomer(id: Identity, secret: Secret)

  ghost predicate DistinctNewcomers(initial: seq<Newcomer>) {
    forall i, j :: 0 <= i < j < |initial| ==> initial[i].id != initial[j].id
  }

  function LeafOf(groupId: bytes, initial: seq<Newcomer>, k: nat): Option<Secret> {
    Some(LeafSecret(if k < |initial| then initial[k].secret else Filler(groupId, k), k))
  }

  /** The group create builds: one leaf per member in order, fillers behind them, keys of epoch 1. */
  function Created(groupId: bytes, initial: seq<Newcomer>): Group
    requires Root(Unkeyed(groupId, initial)).Some?
  {
    Rederived(Unkeyed(groupId, initial))
  }

  function Unkeyed(groupId: bytes, initial: seq<Newcomer>): (g: Group)
    ensures |g.leaves| == CAPACITY
  {
    Group(groupId, INITIAL_EPOCH,
          seq(|initial|, i requires 0 <= i < |initial| => Member(initial[i].id, i)),
          seq(CAPACITY, k requires 0 <= k < CAPACITY => LeafOf(groupId, initial, k)), None, None, None)
  }

  lemma CreatedOk(groupId: bytes, initial: seq<Newcomer>)
    requires groupId != [] && 1 <= |initial| <= CAPACITY && DistinctNewcomers(initial)
    ensures Root(Unkeyed(groupId, initial)).Some?
    ensures GroupOk(Created(groupId, initial)) && LeavesDistinct(Created(groupId, initial).members)
    ensures var g := Created(groupId, initial);
            && |g.members| == |initial| && g.groupId == groupId && g.epoch == 1
            && (forall i :: 0 <= i < |initial| ==>
                              && g.members[i] == Member(initial[i].id, i)
                              && g.leaves[i] == Some(LeafSecret(initial[i].secret, i)))
            && (forall i: nat :: |initial| <= i < CAPACITY ==> g.leaves[i] == Some(LeafSecret(Filler(groupId, i), i)))
  {
    AllLeavesGiveRoot(Unkeyed(groupId, initial).leaves);
  }

  const FOUR := [Newcomer(10, Random(0)), Newcomer(11, Random(1)), Newcomer(12, Random(2)), Newcomer(13, Random(3))]

  /** A group created with four members, and a fifth: the add fails and the stored hash is no longer the group's. */
  lemma FifthAddLeavesStaleHash()
    ensures Root(Unkeyed([1], FOUR)).Some?
    ensures var c := AddMember(Created([1], FOUR), 14, Random(4));
            !c.ok && HasMember(c.group.members, 14) && !KeysCurrent(c.group)
  {
    CreatedOk([1], FOUR);
    var g := Created([1], FOUR);
    assert !HasMember(g.members, 14);
    AddKeepsGroup(g, 14, Random(4));
    AddKeepsKeysIff(g, 14, Random(4));
    assert AddMember(g, 14, Random(4)).group.members[4].id == 14;
  }

  // The group object ----------------------------------------------------------------------------------

  class State {
    const groupId: bytes
    var epoch: nat
    var members: seq<Member>
    const tree: Tree
    var secret: Option<Secret>
    var applicationKey: Option<Secret>
    var hash: Option<GroupHash>

    ghost predicate Valid()
      reads this, tree, tree.nodes
    {
      tree.Valid() && GroupOk(View())
    }

    ghost function View(): Group
      reads this, tree
    {
      Group(groupId, epoch, members, tree.leaves, secret, applicationKey, hash)
    }

    constructor (groupId: bytes, members: seq<Member>, tree: Tree, root: Secret)
      requires tree.Valid() && Derive(tree.leaves, 0) == Some(root)
      ensures this.tree == tree
      ensures View() == Rederived(Group(groupId, INITIAL_EPOCH, members, tree.leaves, None, None, None))
    {
      var epochSecret := EpochSecret(root, INITIAL_EPOCH, groupId);
      this.groupId, epoch, this.members, this.tree := groupId, INITIAL_EPOCH, members, tree;
      secret := Some(epochSecret);
      applicationKey := Some(ApplicationKey(epochSecret));
      hash := Some(GroupHash(groupId, INITIAL_EPOCH, Sort(Ids(members)), Some(root)));
    }

    /** create */
    static method Create(groupId: bytes, initial: seq<Newcomer>) returns (r: Result<State>)
      ensures r.Ok? <==> groupId != [] && 1 <= |initial| <= CAPACITY && DistinctNewcomers(initial)
      ensures r.Ok? ==> fresh(r.value) && r.value.Valid()
                        && Root(Unkeyed(groupId, initial)).Some? && r.value.View() == Created(groupId, initial)
    {
      if groupId == [] || initial == [] {
        return Err;
      }
      var t := Tree.ForMemberCount(|initial|);
      if t.Err? {
        return Err;
      }
      var tree := t.value;
      var members: seq<Member> := [];
      for idx := 0 to |initial|
        invariant fresh(tree) && fresh(tree.nodes) && tree.Valid() && |tree.leaves| == CAPACITY
        invariant |members| == idx
        invariant forall i :: 0 <= i < idx ==> members[i] == Member(initial[i].id, i)
        invariant forall k :: 0 <= k < idx ==> tree.leaves[k] == LeafOf(groupId, initial, k)
        invariant DistinctNewcomers(initial[..idx])
      {
        if HasMember(members, initial[idx].id) {
          assert !DistinctNewcomers(initial);
          return Err;
        }
        forall i | 0 <= i < idx
          ensures initial[i].id != initial[idx].id
        {
          assert members[i].id == initial[i].id;
        }
        members := members + [Member(initial[idx].id, idx)];
        var ok := tree.SetLeaf(idx, initial[idx].secret);
      }
      assert initial[..|initial|] == initial;
      for pad := |initial| to CAPACITY
        invariant fresh(tree) && fresh(tree.nodes) && tree.Valid() && |tree.leaves| == CAPACITY
        invariant forall k :: 0 <= k < pad ==> tree.leaves[k] == LeafOf(groupId, initial, k)
      {
        var ok := tree.SetLeaf(pad, Filler(groupId, pad));
      }
      CreatedOk(groupId, initial);
      ghost var g := Unkeyed(groupId, initial);
      assert tree.leaves == g.leaves && members == g.members;
      var root := tree.RootSecret();
      if root.None? {
        return Err;
      }
      var s := new State(groupId, members, tree, root.value);
      return Ok(s);
    }

    method Rederive() returns (ok: bool)
      requires tree.Valid() && |tree.leaves| >= 1
      modifies this
      ensures ok <==> Derive(tree.leaves, 0).Some?
      ensures View() == if ok then Rederived(old(View())) else old(View())
    {
      var root := tree.RootSecret();
      if root.None? {
        return false;
      }
      var epochSecret := EpochSecret(root.value, epoch, groupId);
      secret := Some(epochSecret);
      applicationKey := Some(ApplicationKey(epochSecret));
      hash := Some(GroupHash(groupId, epoch, Sort(Ids(members)), root));
      return true;
    }

    /** add_member */
    method Add(id: Identity, leafSecret: Secret) returns (ok: bool)
      requires Valid()
      modifies this, tree, tree.nodes
      ensures tree.Valid()
      ensures ok ==> Valid()
      ensures Change(View(), ok) == AddMember(old(View()), id, leafSecret)
    {
      AddKeepsGroup(View(), id, leafSecret);
      if HasMember(members, id) {
        return false;
      }
      var k := |members|;
      members := members + [Member(id, k)];
      if k >= tree.leafOffset + 1 {
        // The rebuild asks for a tree of five members, which is refused.
        return false;
      }
      ok := Rekey(k, leafSecret);
    }

    /** Sets one leaf, advances the epoch and rederives, for the members already entered. */
    method Rekey(k: nat, leafSecret: Secret) returns (ok: bool)
      requires tree.Valid() && k < |tree.leaves|
      modifies this, tree, tree.nodes
      ensures tree.Valid() && members == old(members)
      ensures Change(View(), ok) == Rekeyed(old(View()), members, k, leafSecret)
    {
      var placed := tree.SetLeaf(k, leafSecret);
      epoch := epoch + 1;
      ok := Rederive();
    }

    /** remove_member */
    method Remove(id: Identity, replacement: Secret) returns (ok: bool)
      requires Valid()
      modifies this, tree, tree.nodes
      ensures tree.Valid() && Valid()
      ensures Change(View(), ok) == RemoveMember(old(View()), id, replacement)
    {
      RemoveKeepsGroup(View(), id, replacement);
      if !HasMember(members, id) {
        return false;
      }
      var i := FindMember(members, id);
      var k := members[i].leaf;
      members := members[..i] + members[i + 1..];
      ok := Rekey(k, replacement);
    }

    /** compute_group_hash */
    method ComputeGroupHash() returns (h: GroupHash)
      requires tree.Valid()
      ensures h == HashOf(View())
    {
      var root := tree.RootSecret();
      h := GroupHash(groupId, epoch, Sort(Ids(members)), root);
    }

    /** validate: an empty list means that the group is in order, members included. */
    method Validate() returns (problems: seq<Problem>)
      requires tree.Valid()
      ensures problems == BasicProblems(View()) + RepeatedLeaves(members)
    {
      var root := tree.RootSecret();
      var computed := ComputeGroupHash();
      problems :=
        (if groupId == [] then [EmptyGroupId] else [])
        + (if epoch < INITIAL_EPOCH then [EpochTooLow] else [])
        + (if members == [] then [NoMembers] else [])
        + (if root.None? then [NoRoot] else [])
        + (if applicationKey.None? then [NoApplicationKey] else [])
        + (if hash.None? then [NoHash] else if hash != Some(computed) then [WrongHash] else []);
      var repeated := ReportRepeats();
      problems := problems + repeated;
    }

    /** The loop over the members. */
    method ReportRepeats() returns (problems: seq<Problem>)
      ensures problems == RepeatedLeaves(members)
    {
      problems := [];
      var seen: set<nat> := {};
      for i := 0 to |members|
        invariant seen == LeafSet(members[..i])
        invariant problems == RepeatedLeaves(members[..i])
      {
        assert members[..i + 1] == members[..i] + [members[i]] && members[..i + 1][..i] == members[..i];
        LeafSetGrows(members[..i], members[i]);
        if members[i].leaf in seen {
          problems := problems + [DuplicateLeaf(members[i].leaf)];
        }
        seen := seen + {members[i].leaf};
      }
      assert members[..|members|] == members;
    }
  }
}

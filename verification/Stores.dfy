/**
 * The two bounded FIFO stores of the client ratchet (client/crypto/double_ratchet.py): the replay
 * window of accepted message ids and the skipped message keys. Both are insertion-ordered
 * dictionaries; a sequence without repeated ids stands for one.
 */
module Stores {
  import opened Common
  import opened Kdf

  datatype MsgId = MsgId(dh: KeyId, n: nat)

  datatype Entry = Entry(id: MsgId, key: Key)

  predicate IdsDiffer(s: seq<MsgId>, i: int, j: int)
    requires 0 <= i < j < |s|
  {
    s[i] != s[j]
  }

  ghost predicate UniqueIds(s: seq<MsgId>) {
    forall i, j :: 0 <= i < j < |s| ==> IdsDiffer(s, i, j)
  }

  predicate EntriesDiffer(s: seq<Entry>, i: int, j: int)
    requires 0 <= i < j < |s|
  {
    s[i].id != s[j].id
  }

  ghost predicate UniqueEntries(s: seq<Entry>) {
    forall i, j :: 0 <= i < j < |s| ==> EntriesDiffer(s, i, j)
  }

  predicate IsAt(s: seq<Entry>, id: MsgId, i: int) {
    0 <= i < |s| && s[i].id == id
  }

  predicate Has(s: seq<Entry>, id: MsgId) {
    exists i | 0 <= i < |s| :: IsAt(s, id, i)
  }

  function Find(s: seq<Entry>, id: MsgId): (i: nat)
    requires Has(s, id)
    ensures i < |s| && s[i].id == id
  {
    if s[0].id == id then 0 else
      assert Has(s[1..], id) by {
        var i :| 0 <= i < |s| && IsAt(s, id, i);
        assert IsAt(s[1..], id, i - 1);
      }
      1 + Find(s[1..], id)
  }

  lemma HasMember(s: seq<Entry>, id: MsgId)
    ensures Has(s, id) <==> exists e :: e in s && e.id == id
  {
    if Has(s, id) {
      assert s[Find(s, id)] in s;
    }
    if e :| e in s && e.id == id {
      var i :| 0 <= i < |s| && s[i] == e;
      assert IsAt(s, id, i);
    }
  }

  /** Drops the oldest elements until there is room for one more. */
  function Evict<T>(s: seq<T>, cap: nat): (r: seq<T>)
    requires cap >= 1
    ensures |r| < cap && |r| <= |s|
    ensures r == s[|s| - |r|..]
    ensures |s| < cap ==> r == s
    ensures |s| >= cap ==> |r| == cap - 1
  {
    if |s| < cap then s else s[|s| - cap + 1..]
  }

  /** The last cap elements. */
  function Last<T>(s: seq<T>, cap: nat): seq<T> {
    if |s| <= cap then s else s[|s| - cap..]
  }

  lemma LastOfLast<T>(a: seq<T>, b: seq<T>, cap: nat)
    ensures Last(Last(a, cap) + b, cap) == Last(a + b, cap)
  {
  }

  /** A full window loses its oldest id and nothing else. */
  lemma RememberKeepsLast<T>(s: seq<T>, cap: nat, id: T)
    requires cap >= 1 && |s| <= cap && id !in s
    ensures Remember(s, cap, id) == Last(s + [id], cap)
  {
  }

  /** A full store loses its oldest key and nothing else, even for an id that it holds. */
  lemma StoreKeepsLast(s: seq<Entry>, cap: nat, id: MsgId, key: Key)
    requires cap >= 1 && |s| <= cap
    ensures !Has(s, id) ==> Store(s, cap, id, key) == Last(s + [Entry(id, key)], cap)
    ensures |s| == cap ==> Store(s, cap, id, key) == Assign(s[1..], id, key)
  {
    if !Has(s, id) && |s| == cap {
      HasMember(s, id);
      HasMember(s[1..], id);
    }
  }

  function Remember<T(==)>(s: seq<T>, cap: nat, id: T): (r: seq<T>)
    requires cap >= 1
  {
    if id in s then s else Evict(s, cap) + [id]
  }

  /** Assigning to a present key keeps its place in the order. */
  function Assign(s: seq<Entry>, id: MsgId, key: Key): (r: seq<Entry>)
  {
    if Has(s, id) then s[Find(s, id) := Entry(id, key)] else s + [Entry(id, key)]
  }

  function Store(s: seq<Entry>, cap: nat, id: MsgId, key: Key): (r: seq<Entry>)
    requires cap >= 1
  {
    Assign(Evict(s, cap), id, key)
  }

  /** A dictionary without a key. */
  function Remove(s: seq<Entry>, id: MsgId): (r: seq<Entry>)
    ensures |r| <= |s|
  {
    if s == [] then []
    else
      var last := s[|s| - 1];
      Remove(s[..|s| - 1], id) + (if last.id == id then [] else [last])
  }

  lemma EntryIsUnique(s: seq<Entry>, e: Entry, f: Entry)
    requires UniqueEntries(s) && e in s && f in s && e.id == f.id
    ensures e == f
  {
    var i :| 0 <= i < |s| && s[i] == e;
    var j :| 0 <= j < |s| && s[j] == f;
    assert (i < j ==> EntriesDiffer(s, i, j)) && (j < i ==> EntriesDiffer(s, j, i));
  }

  lemma AssignKeepsShape(s: seq<Entry>, id: MsgId, key: Key)
    requires UniqueEntries(s)
    ensures UniqueEntries(Assign(s, id, key)) && |Assign(s, id, key)| <= |s| + 1
    ensures forall e :: e in Assign(s, id, key) ==> e == Entry(id, key) || (e in s && e.id != id)
    ensures Entry(id, key) in Assign(s, id, key)
    ensures forall i :: 0 <= i < |s| ==>
                          Assign(s, id, key)[i].id == s[i].id && (s[i].id != id ==> Assign(s, id, key)[i] == s[i])
  {
    var r := Assign(s, id, key);
    var at := if Has(s, id) then Find(s, id) else |s|;
    assert r[at] == Entry(id, key) && forall k :: 0 <= k < |r| && k != at ==> r[k] == s[k];
    forall k | 0 <= k < |r| && k != at
      ensures s[k].id != id
    {
      if Has(s, id) {
        assert if k < at then EntriesDiffer(s, k, at) else EntriesDiffer(s, at, k);
      } else {
        assert !IsAt(s, id, k);
      }
    }
    forall i, j | 0 <= i < j < |r|
      ensures EntriesDiffer(r, i, j)
    {
      if i != at && j != at {
        assert EntriesDiffer(s, i, j);
      }
    }
  }

  lemma StoreKeepsShape(s: seq<Entry>, cap: nat, id: MsgId, key: Key)
    requires cap >= 1 && UniqueEntries(s)
    ensures UniqueEntries(Store(s, cap, id, key))
    ensures |Store(s, cap, id, key)| <= cap
    ensures forall e :: e in Store(s, cap, id, key) ==> e == Entry(id, key) || (e in s && e.id != id)
  {
    var v := Evict(s, cap);
    var k := |s| - |v|;
    forall i, j | 0 <= i < j < |v|
      ensures EntriesDiffer(v, i, j)
    {
      assert EntriesDiffer(s, i + k, j + k);
    }
    AssignKeepsShape(v, id, key);
  }

  lemma {:induction false} RemoveMembers(s: seq<Entry>, id: MsgId)
    ensures forall e :: e in Remove(s, id) <==> e in s && e.id != id
  {
    if s != [] {
      RemoveMembers(s[..|s| - 1], id);
      assert s == s[..|s| - 1] + [s[|s| - 1]];
    }
  }

  lemma {:induction false} RemoveUnique(s: seq<Entry>, id: MsgId)
    requires UniqueEntries(s)
    ensures UniqueEntries(Remove(s, id))
  {
    if s != [] {
      var t, last := s[..|s| - 1], s[|s| - 1];
      forall i, j | 0 <= i < j < |t|
        ensures EntriesDiffer(t, i, j)
      {
        assert EntriesDiffer(s, i, j);
      }
      RemoveUnique(t, id);
      RemoveMembers(t, id);
      var r := Remove(t, id);
      forall i, j | 0 <= i < j < |Remove(s, id)|
        ensures EntriesDiffer(Remove(s, id), i, j)
      {
        if j < |r| {
          assert EntriesDiffer(r, i, j);
        } else {
          assert r[i] in t;
          var k :| 0 <= k < |t| && t[k] == r[i];
          assert EntriesDiffer(s, k, |s| - 1);
        }
      }
    }
  }

  lemma RemoveKeepsShape(s: seq<Entry>, id: MsgId)
    requires UniqueEntries(s)
    ensures UniqueEntries(Remove(s, id)) && !Has(Remove(s, id), id)
    ensures forall e :: e in Remove(s, id) <==> e in s && e.id != id
  {
    RemoveUnique(s, id);
    RemoveMembers(s, id);
    HasMember(Remove(s, id), id);
  }

  lemma RemoveSingle(e: Entry, id: MsgId)
    ensures Remove([e], id) == if e.id == id then [] else [e]
  {
    assert [e][..0] == [];
    assert Remove([], id) == [];
  }

  lemma {:induction false} RemoveConcat(a: seq<Entry>, b: seq<Entry>, id: MsgId)
    ensures Remove(a + b, id) == Remove(a, id) + Remove(b, id)
  {
    if b == [] {
      assert a + b == a;
    } else {
      assert (a + b)[..|a + b| - 1] == a + b[..|b| - 1];
      RemoveConcat(a, b[..|b| - 1], id);
    }
  }

  lemma {:induction false} RemoveAbsent(s: seq<Entry>, id: MsgId)
    requires !Has(s, id)
    ensures Remove(s, id) == s
  {
    if s != [] {
      assert !IsAt(s, id, |s| - 1);
      assert !Has(s[..|s| - 1], id) by {
        HasMember(s[..|s| - 1], id);
        HasMember(s, id);
      }
      RemoveAbsent(s[..|s| - 1], id);
      assert s == s[..|s| - 1] + [s[|s| - 1]];
    }
  }

  /** A new id after any end of a sequence without repeats. */
  lemma AppendUnique(s: seq<MsgId>, v: seq<MsgId>, id: MsgId)
    requires UniqueIds(s) && id !in s && |v| <= |s| && v == s[|s| - |v|..]
    ensures UniqueIds(v + [id])
    ensures forall x :: x in v + [id] ==> x == id || x in s
  {
    var k := |s| - |v|;
    forall i, j | 0 <= i < j < |v| + 1
      ensures IdsDiffer(v + [id], i, j)
    {
      if j < |v| {
        assert IdsDiffer(s, i + k, j + k);
      } else {
        assert s[i + k] in s;
      }
    }
  }

  lemma RememberKeepsShape(s: seq<MsgId>, cap: nat, id: MsgId)
    requires cap >= 1 && UniqueIds(s)
    ensures UniqueIds(Remember(s, cap, id)) && id in Remember(s, cap, id)
    ensures |Remember(s, cap, id)| <= (if |s| > cap then |s| else cap)
    ensures forall x :: x in Remember(s, cap, id) ==> x == id || x in s
  {
    if id !in s {
      AppendUnique(s, Evict(s, cap), id);
    }
  }

  /** ReceivedIdsStore: the bounded replay window. */
  class ReceivedIdsStore {
    const maxSize: nat
    var order: seq<MsgId>

    constructor (maxSize: nat)
      ensures this.maxSize == maxSize && order == []
    {
      this.maxSize := maxSize;
      order := [];
    }

    method Contains(id: MsgId) returns (b: bool)
      ensures b == (id in order)
    {
      b := id in order;
    }

    /** A number of more than 32 bits is an error and changes nothing. */
    method Add(id: MsgId) returns (ok: bool)
      requires maxSize >= 1
      modifies this
      ensures ok <==> id.n < U32_LIMIT
      ensures order == if ok then Remember(old(order), maxSize, id) else old(order)
    {
      if id.n >= U32_LIMIT {
        return false;
      }
      if id in order {
        return true;
      }
      ghost var before := order;
      while |order| >= maxSize
        invariant |order| <= |before|
        invariant order == before[|before| - |order|..]
        invariant |order| >= maxSize - 1 || order == before
      {
        order := order[1..];
      }
      assert order == Evict(before, maxSize);
      order := order + [id];
      return true;
    }
  }

  /** SkippedMessageKeys: message keys kept for messages that have been overtaken. */
  class SkippedMessageKeys {
    const maxKeys: nat
    var store: seq<Entry>

    constructor (maxKeys: nat)
      ensures this.maxKeys == maxKeys && store == []
    {
      this.maxKeys := maxKeys;
      store := [];
    }

    /** A number of more than 32 bits is an error and changes nothing. */
    method Add(id: MsgId, key: Key) returns (ok: bool)
      requires maxKeys >= 1
      modifies this
      ensures ok <==> id.n < U32_LIMIT
      ensures store == if ok then Store(old(store), maxKeys, id, key) else old(store)
    {
      if id.n >= U32_LIMIT {
        return false;
      }
      ghost var before := store;
      while |store| >= maxKeys
        invariant |store| <= |before|
        invariant store == before[|before| - |store|..]
        invariant |store| >= maxKeys - 1 || store == before
      {
        store := store[1..];
      }
      assert store == Evict(before, maxKeys);
      store := Assign(store, id, key);
      return true;
    }

    /** Hands out a stored key once; an absent id is an error and changes nothing. */
    method Pop(id: MsgId) returns (key: Option<Key>)
      modifies this
      ensures key.Some? <==> Has(old(store), id)
      ensures key.Some? ==>
                key.value == old(store)[Find(old(store), id)].key && store == Remove(old(store), id)
      ensures key.None? ==> store == old(store)
    {
      if !Has(store, id) {
        return None;
      }
      key := Some(store[Find(store, id)].key);
      store := Remove(store, id);
    }
  }
}

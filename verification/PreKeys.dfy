/**
 * A client's own prekey bundle: handing out one-time prekeys and keeping the bundle in a file
 * (client/crypto/prekey.py, crypto/prekeys.py).
 */
module PreKeys {
  import opened Common
  import B = Base64Url

  const BUNDLE_VERSION: int := 1

  /** The bytes of an ASCII text. */
  function Ascii(s: string): (b: bytes)
    ensures |b| == |s|
  {
    seq(|s|, i requires 0 <= i < |s| => s[i] as int % 256)
  }

  const CLASSICAL: bytes := Ascii("ghostchat-x25519-only-v1")

  const HYBRID: bytes := Ascii("ghostchat-x25519-kyber768-v1")

  datatype SignedPreKey = SignedPreKey(id: int, pub: bytes, priv: bytes, sig: bytes)

  datatype OneTimePreKey = OneTimePreKey(id: int, pub: bytes, priv: bytes)

  type Pool = map<int, OneTimePreKey>

  datatype Bundle = Bundle(
    identity: bytes,
    identityDhPrivate: bytes,
    spk: SignedPreKey,
    oneTime: Pool,
    used: seq<int>,
    pqPublic: Option<bytes>,
    pqSecret: Option<bytes>,
    suite: bytes)

  // Handing out -------------------------------------------------------------------------------------

  predicate Available(b: Bundle, id: int) {
    id in b.oneTime && id !in b.used
  }

  function Consumed(b: Bundle, id: int): Bundle {
    if Available(b, id) then b.(oneTime := b.oneTime - {id}, used := b.used + [id]) else b
  }

  /** Every key is filed under its own id, and no id is both available and used. */
  ghost predicate PoolOk(b: Bundle) {
    && (forall id :: id in b.oneTime ==> b.oneTime[id].id == id && id !in b.used)
    && (forall i, j :: 0 <= i < j < |b.used| ==> b.used[i] != b.used[j])
  }

  /** All the ids there ever were. */
  function AllIds(b: Bundle): set<int> {
    b.oneTime.Keys + (set id | id in b.used)
  }

  lemma ConsumeConserves(b: Bundle, id: int)
    requires PoolOk(b)
    ensures PoolOk(Consumed(b, id)) && AllIds(Consumed(b, id)) == AllIds(b)
    ensures !Available(Consumed(b, id), id)
  {
    var next := Consumed(b, id);
    if Available(b, id) {
      assert next.used[|b.used|] == id;
      forall i, j | 0 <= i < j < |next.used|
        ensures next.used[i] != next.used[j]
      {
        if j == |b.used| {
          assert next.used[i] in b.used;
        }
      }
      forall x
        ensures x in AllIds(next) <==> x in AllIds(b)
      {
        assert x in next.used <==> x in b.used || x == id;
      }
    }
  }

  class ClientPreKeyBundle {
    const identity: bytes
    const identityDhPrivate: bytes
    const spk: SignedPreKey
    var oneTime: Pool
    var used: seq<int>
    const pqPublic: Option<bytes>
    const pqSecret: Option<bytes>
    const suite: bytes

    constructor (b: Bundle)
      ensures View() == b
    {
      identity, identityDhPrivate, spk := b.identity, b.identityDhPrivate, b.spk;
      oneTime, used := b.oneTime, b.used;
      pqPublic, pqSecret, suite := b.pqPublic, b.pqSecret, b.suite;
    }

    function View(): Bundle
      reads this
    {
      Bundle(identity, identityDhPrivate, spk, oneTime, used, pqPublic, pqSecret, suite)
    }

    /** Hands out a key once; a used or unknown id is an error and changes nothing. */
    method ConsumeOneTimePreKey(id: int) returns (r: Option<OneTimePreKey>)
      modifies this
      ensures r == if Available(old(View()), id) then Some(old(oneTime)[id]) else None
      ensures View() == Consumed(old(View()), id)
    {
      if id in used {
        return None;
      }
      if id !in oneTime {
        return None;
      }
      r := Some(oneTime[id]);
      oneTime := oneTime - {id};
      used := used + [id];
    }
  }

  // The private file --------------------------------------------------------------------------------

  datatype SpkDict = SpkDict(id: int, pub: string, priv: Option<string>, sig: Option<string>)

  datatype OpkDict = OpkDict(id: int, pub: string, priv: Option<string>)

  datatype BundleDict = BundleDict(
    v: int,
    identityDhPriv: string,
    spk: SpkDict,
    opks: seq<OpkDict>,
    used: seq<int>,
    pqPub: Option<string>,
    pqPriv: Option<string>,
    suite: Option<string>)

  lemma {:induction false} LargestExists(s: set<int>)
    requires s != {}
    ensures exists k :: k in s && forall j :: j in s ==> j <= k
  {
    assert (forall x :: x !in s) ==> s == {};
    var x :| x in s;
    var t := s - {x};
    assert forall j :: j in s ==> j == x || j in t;
    if t != {} {
      LargestExists(t);
      var k :| k in t && forall j :: j in t ==> j <= k;
      assert (if k < x then x else k) in s;
    } else {
      assert x in s;
    }
  }

  function Largest(s: set<int>): (k: int)
    requires s != {}
    ensures k in s && forall j :: j in s ==> j <= k
  {
    LargestExists(s);
    var k :| k in s && forall j :: j in s ==> j <= k;
    k
  }

  /** The keys of a pool in the order of their ids. */
  function Sorted(m: Pool): seq<OneTimePreKey>
    decreases |m|
  {
    if m == map[] then [] else
      var k := Largest(m.Keys);
      Sorted(m - {k}) + [m[k]]
  }

  function EncodeOpk(k: OneTimePreKey): OpkDict {
    OpkDict(k.id, B.Encode(k.pub), Some(B.Encode(k.priv)))
  }

  function EncodeOpks(s: seq<OneTimePreKey>): seq<OpkDict> {
    seq(|s|, i requires 0 <= i < |s| => EncodeOpk(s[i]))
  }

  function EncodeOption(b: Option<bytes>): Option<string> {
    if b.None? then None else Some(B.Encode(b.value))
  }

  /** serialize_bundle with for_upload=False; an empty signature is saved as null. */
  function Serialize(b: Bundle): BundleDict {
    BundleDict(BUNDLE_VERSION, B.Encode(b.identityDhPrivate),
               SpkDict(b.spk.id, B.Encode(b.spk.pub), Some(B.Encode(b.spk.priv)),
                       if b.spk.sig == [] then None else Some(B.Encode(b.spk.sig))),
               EncodeOpks(Sorted(b.oneTime)), b.used,
               EncodeOption(b.pqPublic), EncodeOption(b.pqSecret),
               if b.pqPublic.None? then None else Some(B.Encode(b.suite)))
  }

  /** A missing or empty text is no value; any other must decode. */
  function DecodeOption(s: Option<string>): Result<Option<bytes>> {
    if s.None? || s.value == "" then Ok(None)
    else
      match B.Decode(s.value)
      case None => Err
      case Some(b) => Ok(Some(b))
  }

  function DecodeRequired(s: Option<string>): Option<bytes> {
    match DecodeOption(s)
    case Err => None
    case Ok(b) => b
  }

  function DecodeOpk(o: OpkDict): Option<OneTimePreKey> {
    var pub, priv := B.Decode(o.pub), DecodeRequired(o.priv);
    if pub.None? || priv.None? then None else Some(OneTimePreKey(o.id, pub.value, priv.value))
  }

  /** The keys whose ids are not used; a later entry replaces an earlier one. */
  function RestorePool(l: seq<OpkDict>, used: seq<int>): Option<Pool> {
    if l == [] then Some(map[]) else
      var m, o := RestorePool(l[..|l| - 1], used), l[|l| - 1];
      if m.None? || o.id in used then m else
        var k := DecodeOpk(o);
        if k.None? then None else Some(m.value[o.id := k.value])
  }

  /** deserialize_bundle_private */
  function Restore(d: BundleDict, identity: bytes): Option<Bundle> {
    if d.v != BUNDLE_VERSION then None else
      var priv, spkPub := B.Decode(d.identityDhPriv), B.Decode(d.spk.pub);
      var spkPriv, spkSig := DecodeRequired(d.spk.priv), DecodeRequired(d.spk.sig);
      var pool := RestorePool(d.opks, d.used);
      var pqPub, pqPriv, suite := DecodeOption(d.pqPub), DecodeOption(d.pqPriv), DecodeOption(d.suite);
      if priv.None? || spkPub.None? || spkPriv.None? || spkSig.None? || pool.None? || pqPub.Err? || pqPriv.Err? || suite.Err?
      then None
      else
        Some(Bundle(identity, priv.value, SignedPreKey(d.spk.id, spkPub.value, spkPriv.value, spkSig.value),
                    pool.value, d.used, pqPub.value, pqPriv.value,
                    if suite.value.Some? then suite.value.value else CLASSICAL))
  }

  /** What the file can express: no empty secrets, and no suite of its own without a public KEM key. */
  ghost predicate Storable(b: Bundle) {
    && b.spk.priv != [] && b.spk.sig != []
    && b.pqPublic != Some([]) && b.pqSecret != Some([])
    && (if b.pqPublic.None? then b.suite == CLASSICAL else b.suite != [])
    && (forall id :: id in b.oneTime ==> b.oneTime[id].id == id && b.oneTime[id].priv != [])
  }

  /** The pool without the keys whose ids are used. */
  function Unused(m: Pool, used: seq<int>): Pool {
    map id | id in m && id !in used :: m[id]
  }

  lemma OptionRoundTrip(b: bytes)
    requires b != []
    ensures DecodeOption(Some(B.Encode(b))) == Ok(Some(b)) && DecodeRequired(Some(B.Encode(b))) == Some(b)
  {
    B.RoundTrip(b);
    B.EncodeNonEmpty(b);
  }

  lemma OpkRoundTrip(k: OneTimePreKey)
    requires k.priv != []
    ensures DecodeOpk(EncodeOpk(k)) == Some(k)
  {
    B.RoundTrip(k.pub);
    OptionRoundTrip(k.priv);
  }

  /** Adding a key with a new id to the list and to the table. */
  lemma RestoreOneMore(l: seq<OpkDict>, used: seq<int>, m: Pool, k: OneTimePreKey)
    requires RestorePool(l, used) == Some(Unused(m, used)) && k.priv != []
    ensures RestorePool(l + [EncodeOpk(k)], used) == Some(Unused(m[k.id := k], used))
  {
    assert (l + [EncodeOpk(k)])[..|l|] == l;
    OpkRoundTrip(k);
    if k.id in used {
      assert Unused(m[k.id := k], used) == Unused(m, used);
    } else {
      assert Unused(m[k.id := k], used) == Unused(m, used)[k.id := k];
    }
  }

  /** An entry with a used id is passed over, whatever else it holds; any other must decode. */
  lemma EntryRestored(l: seq<OpkDict>, used: seq<int>, o: OpkDict)
    ensures o.id in used ==> RestorePool(l + [o], used) == RestorePool(l, used)
    ensures o.id !in used ==>
              (RestorePool(l + [o], used).Some? <==> RestorePool(l, used).Some? && DecodeOpk(o).Some?)
  {
    assert (l + [o])[..|l|] == l;
  }

  lemma {:induction false} PoolRoundTrip(m: Pool, used: seq<int>)
    requires forall id :: id in m ==> m[id].id == id && m[id].priv != []
    ensures RestorePool(EncodeOpks(Sorted(m)), used) == Some(Unused(m, used))
    decreases |m|
  {
    if m == map[] {
      assert EncodeOpks(Sorted(m)) == [];
      assert Unused(m, used) == map[];
    } else {
      var k := Largest(m.Keys);
      PoolRoundTrip(m - {k}, used);
      RestoreOneMore(EncodeOpks(Sorted(m - {k})), used, m - {k}, m[k]);
      assert EncodeOpks(Sorted(m)) == EncodeOpks(Sorted(m - {k})) + [EncodeOpk(m[k])];
      assert (m - {k})[k := m[k]] == m;
    }
  }

  /** Only version 1 is read, and only with a private identity key, a complete signed prekey and a readable pool. */
  lemma RestoredIsComplete(d: BundleDict, identity: bytes)
    requires Restore(d, identity).Some?
    ensures var b := Restore(d, identity).value;
            && d.v == 1 && b.identity == identity && b.used == d.used
            && B.Decode(d.identityDhPriv) == Some(b.identityDhPrivate)
            && b.spk.id == d.spk.id && B.Decode(d.spk.pub) == Some(b.spk.pub)
            && DecodeRequired(d.spk.priv) == Some(b.spk.priv) && DecodeRequired(d.spk.sig) == Some(b.spk.sig)
            && RestorePool(d.opks, d.used) == Some(b.oneTime)
  {
  }

  lemma FieldsRoundTrip(b: Bundle)
    requires Storable(b)
    ensures B.Decode(Serialize(b).identityDhPriv) == Some(b.identityDhPrivate)
    ensures var s := Serialize(b).spk;
            && B.Decode(s.pub) == Some(b.spk.pub)
            && DecodeRequired(s.priv) == Some(b.spk.priv) && DecodeRequired(s.sig) == Some(b.spk.sig)
    ensures DecodeOption(Serialize(b).pqPub) == Ok(b.pqPublic) && DecodeOption(Serialize(b).pqPriv) == Ok(b.pqSecret)
    ensures DecodeOption(Serialize(b).suite) == Ok(if b.pqPublic.None? then None else Some(b.suite))
  {
    B.RoundTrip(b.identityDhPrivate);
    B.RoundTrip(b.spk.pub);
    OptionRoundTrip(b.spk.priv);
    OptionRoundTrip(b.spk.sig);
    if b.pqPublic.Some? {
      OptionRoundTrip(b.pqPublic.value);
      OptionRoundTrip(b.suite);
    }
    if b.pqSecret.Some? {
      OptionRoundTrip(b.pqSecret.value);
    }
  }

  /** A saved bundle is read back as it was, except that keys with used ids are dropped. */
  lemma RestoreSaved(b: Bundle)
    requires Storable(b)
    ensures Restore(Serialize(b), b.identity) == Some(b.(oneTime := Unused(b.oneTime, b.used)))
  {
    FieldsRoundTrip(b);
    PoolRoundTrip(b.oneTime, b.used);
  }

  /** So it is read back unchanged exactly when no available id is also recorded as used. */
  lemma RestoreSavedIff(b: Bundle)
    requires Storable(b)
    ensures Restore(Serialize(b), b.identity) == Some(b) <==> forall id :: id in b.oneTime ==> id !in b.used
  {
    RestoreSaved(b);
    if forall id :: id in b.oneTime ==> id !in b.used {
      assert Unused(b.oneTime, b.used) == b.oneTime;
    } else {
      var id :| id in b.oneTime && id in b.used;
      assert id !in Unused(b.oneTime, b.used);
    }
  }

  lemma {:induction false} SortedMembers(m: Pool)
    requires forall id :: id in m ==> m[id].id == id
    ensures forall k :: k in Sorted(m) <==> k.id in m && m[k.id] == k
    decreases |m|
  {
    if m != map[] {
      SortedMembers(m - {Largest(m.Keys)});
    }
  }

  /** The list in the file is in the order of the ids. */
  lemma {:induction false} SortedIsSorted(m: Pool)
    requires forall id :: id in m ==> m[id].id == id
    ensures forall i, j :: 0 <= i < j < |Sorted(m)| ==> Sorted(m)[i].id < Sorted(m)[j].id
    decreases |m|
  {
    if m != map[] {
      var k := Largest(m.Keys);
      var t := Sorted(m - {k});
      SortedIsSorted(m - {k});
      SortedMembers(m - {k});
      forall i | 0 <= i < |t|
        ensures t[i].id < k
      {
        assert t[i] in t;
      }
    }
  }

  /** The loop of deserialize_bundle_private. */
  method LoadPool(l: seq<OpkDict>, used: seq<int>) returns (r: Option<Pool>)
    ensures r == RestorePool(l, used)
  {
    var m: Pool := map[];
    for i := 0 to |l|
      invariant RestorePool(l[..i], used) == Some(m)
    {
      assert l[..i + 1][..i] == l[..i];
      if l[i].id !in used {
        var k := DecodeOpk(l[i]);
        if k.None? {
          BadKeySpoils(l, used, i + 1);
          return None;
        }
        m := m[l[i].id := k.value];
      }
    }
    assert l[..|l|] == l;
    return Some(m);
  }

  lemma {:induction false} BadKeySpoils(l: seq<OpkDict>, used: seq<int>, i: nat)
    requires i <= |l| && RestorePool(l[..i], used).None?
    ensures RestorePool(l, used).None?
    decreases |l| - i
  {
    if i < |l| {
      assert l[..i + 1][..i] == l[..i];
      BadKeySpoils(l, used, i + 1);
    } else {
      assert l[..i] == l;
    }
  }
}

/**
 * Saving a ratchet session as a dictionary of strings and numbers and reading it back
 * (client/session_store.py, and the store serializers of client/crypto/double_ratchet.py).
 */
module SessionStore {
  import opened Common
  import opened BigEndian
  import B = Base64Url
  import S = Stores

  const VERSION: int := 1

  const MAX_RECEIVED: nat := 2000

  datatype Id = Id(dh: bytes, n: nat)

  datatype Skipped = Skipped(id: Id, key: bytes)

  datatype Session = Session(
    rootKey: bytes,
    sendingChainKey: Option<bytes>,
    receivingChainKey: Option<bytes>,
    dhsPrivate: Option<bytes>,
    dhr: Option<bytes>,
    ns: int,
    nr: int,
    pn: int,
    skipped: seq<Skipped>,
    maxKeys: nat,
    received: seq<Id>,
    version: int)

  /** A dictionary keeps its entries in the order of insertion. */
  type Dict = seq<(string, string)>

  datatype SessionDict = SessionDict(
    v: int,
    version: Option<int>,
    rootKey: Option<string>,
    sendingChainKey: Option<string>,
    receivingChainKey: Option<string>,
    dhsPrivate: Option<string>,
    dhr: Option<string>,
    ns: Option<int>,
    nr: Option<int>,
    pn: Option<int>,
    skipped: Option<Dict>,
    received: Option<seq<string>>)

  // What can be saved and read back -----------------------------------------------------------------------

  predicate IdOk(id: Id) {
    |id.dh| == KEY_LENGTH && id.n < U32_LIMIT
  }

  predicate KeyOk(k: Option<bytes>) {
    k.Some? ==> |k.value| == KEY_LENGTH
  }

  ghost predicate SkippedOk(s: seq<Skipped>) {
    && (forall i :: 0 <= i < |s| ==> IdOk(s[i].id) && |s[i].key| == KEY_LENGTH)
    && (forall i, j :: 0 <= i < j < |s| ==> s[i].id != s[j].id)
  }

  ghost predicate ReceivedOk(s: seq<Id>) {
    && (forall i :: 0 <= i < |s| ==> IdOk(s[i]))
    && (forall i, j :: 0 <= i < j < |s| ==> s[i] != s[j])
  }

  ghost predicate WellFormed(s: Session) {
    && |s.rootKey| == KEY_LENGTH
    && KeyOk(s.sendingChainKey) && KeyOk(s.receivingChainKey) && KeyOk(s.dhsPrivate) && KeyOk(s.dhr)
    && s.ns >= 0 && s.nr >= 0 && s.pn >= 0 && s.version >= 1
    && SkippedOk(s.skipped) && |s.skipped| <= s.maxKeys
    && ReceivedOk(s.received) && |s.received| <= MAX_RECEIVED
  }

  // Message ids -------------------------------------------------------------------------------------------

  /** The 36-byte index of an id, as text. */
  function EncodeId(id: Id): string {
    B.Encode(id.dh + U32(id.n))
  }

  function DecodeId(s: string): Option<Id> {
    match B.Decode(s)
    case None => None
    case Some(raw) =>
      if |raw| != KEY_LENGTH + 4 then None
      else Some(Id(raw[..KEY_LENGTH], Read(raw[KEY_LENGTH..])))
  }

  lemma IdRoundTrip(id: Id)
    requires IdOk(id)
    ensures DecodeId(EncodeId(id)) == Some(id)
  {
    var raw := id.dh + U32(id.n);
    IndexRoundTrip(id, raw);
    B.RoundTrip(raw);
  }

  lemma IndexRoundTrip(id: Id, raw: bytes)
    requires IdOk(id) && raw == id.dh + U32(id.n)
    ensures |raw| == KEY_LENGTH + 4 && Id(raw[..KEY_LENGTH], Read(raw[KEY_LENGTH..])) == id
  {
    assert raw[..KEY_LENGTH] == id.dh && raw[KEY_LENGTH..] == U32(id.n);
    Limits();
    ReadBig(id.n, 4);
  }

  lemma EncodeIdInjective(a: Id, b: Id)
    requires IdOk(a) && IdOk(b) && EncodeId(a) == EncodeId(b)
    ensures a == b
  {
    IdRoundTrip(a);
    IdRoundTrip(b);
  }

  lemma DecodedIdOk(s: string)
    ensures DecodeId(s).Some? ==> IdOk(DecodeId(s).value)
  {
    if DecodeId(s).Some? {
      Limits();
      BigRead(B.Decode(s).value[KEY_LENGTH..]);
    }
  }

  // Lists of encoded items --------------------------------------------------------------------------------

  function EncodeAll<T, E>(enc: T -> E, s: seq<T>): seq<E> {
    seq(|s|, i requires 0 <= i < |s| => enc(s[i]))
  }

  /** Decodes item by item and adds each to what has been collected; one bad item spoils the list. */
  function DecodeAll<T, E>(dec: E -> Option<T>, add: (seq<T>, T) -> seq<T>, l: seq<E>): Option<seq<T>> {
    if l == [] then Some([]) else
      match DecodeAll(dec, add, l[..|l| - 1])
      case None => None
      case Some(s) =>
        match dec(l[|l| - 1])
        case None => None
        case Some(x) => Some(add(s, x))
  }

  lemma {:induction false} ListRoundTrip<T, E>(enc: T -> E, dec: E -> Option<T>, add: (seq<T>, T) -> seq<T>, s: seq<T>)
    requires forall i :: 0 <= i < |s| ==> dec(enc(s[i])) == Some(s[i])
    requires forall i :: 0 <= i < |s| ==> add(s[..i], s[i]) == s[..i + 1]
    ensures DecodeAll(dec, add, EncodeAll(enc, s)) == Some(s)
  {
    if s != [] {
      var t, x := s[..|s| - 1], s[|s| - 1];
      forall i | 0 <= i < |t|
        ensures add(t[..i], t[i]) == t[..i + 1]
      {
        assert t[..i] == s[..i] && t[..i + 1] == s[..i + 1];
      }
      ListRoundTrip(enc, dec, add, t);
      var l := EncodeAll(enc, s);
      assert l[..|l| - 1] == EncodeAll(enc, t);
      assert s[..|s|] == s;
    }
  }

  lemma {:induction false} BadItemSpoils<T, E>(dec: E -> Option<T>, add: (seq<T>, T) -> seq<T>, l: seq<E>, i: nat)
    requires i <= |l| && DecodeAll(dec, add, l[..i]).None?
    ensures DecodeAll(dec, add, l).None?
    decreases |l| - i
  {
    if i < |l| {
      assert l[..i + 1][..i] == l[..i];
      BadItemSpoils(dec, add, l, i + 1);
    } else {
      assert l[..i] == l;
    }
  }

  // Skipped keys ------------------------------------------------------------------------------------------

  predicate HasKey(d: Dict, k: string) {
    exists i :: 0 <= i < |d| && d[i].0 == k
  }

  function FindKey(d: Dict, k: string): (i: nat)
    requires HasKey(d, k)
    ensures i < |d| && d[i].0 == k
  {
    if d[0].0 == k then 0 else
      assert HasKey(d[1..], k) by {
        var i :| 0 <= i < |d| && d[i].0 == k;
        assert d[1..][i - 1].0 == k;
      }
      1 + FindKey(d[1..], k)
  }

  function SetKey(d: Dict, k: string, v: string): Dict {
    if HasKey(d, k) then d[FindKey(d, k) := (k, v)] else d + [(k, v)]
  }

  function EncodeEntry(e: Skipped): (string, string) {
    (EncodeId(e.id), B.Encode(e.key))
  }

  /** The dictionary after these assignments, one by one. */
  function DictOf(items: seq<(string, string)>): Dict {
    if items == [] then [] else
      var item := items[|items| - 1];
      SetKey(DictOf(items[..|items| - 1]), item.0, item.1)
  }

  lemma {:induction false} DistinctKeysKeepOrder(items: seq<(string, string)>)
    requires forall i, j :: 0 <= i < j < |items| ==> items[i].0 != items[j].0
    ensures DictOf(items) == items
  {
    if items != [] {
      var t := items[..|items| - 1];
      DistinctKeysKeepOrder(t);
      assert !HasKey(t, items[|items| - 1].0);
      assert items == t + [items[|items| - 1]];
    }
  }

  function SkippedToDict(s: seq<Skipped>): Dict {
    DictOf(EncodeAll(EncodeEntry, s))
  }

  predicate HasId(s: seq<Skipped>, id: Id) {
    exists i :: 0 <= i < |s| && s[i].id == id
  }

  function FindId(s: seq<Skipped>, id: Id): (i: nat)
    requires HasId(s, id)
    ensures i < |s| && s[i].id == id
  {
    if s[0].id == id then 0 else
      assert HasId(s[1..], id) by {
        var i :| 0 <= i < |s| && s[i].id == id;
        assert s[1..][i - 1].id == id;
      }
      1 + FindId(s[1..], id)
  }

  function Put(s: seq<Skipped>, e: Skipped): seq<Skipped> {
    if HasId(s, e.id) then s[FindId(s, e.id) := e] else s + [e]
  }

  function DecodeEntry(item: (string, string)): Option<Skipped> {
    match DecodeId(item.0)
    case None => None
    case Some(id) =>
      match B.Decode(item.1)
      case None => None
      case Some(key) => if |key| != KEY_LENGTH then None else Some(Skipped(id, key))
  }

  /** The entries in order, a later one with the same id replacing the earlier in its place. */
  function DictToSkipped(d: Dict): Option<seq<Skipped>> {
    DecodeAll(DecodeEntry, Put, d)
  }

  lemma EntryRoundTrip(e: Skipped)
    requires IdOk(e.id) && |e.key| == KEY_LENGTH
    ensures DecodeEntry(EncodeEntry(e)) == Some(e)
  {
    IdRoundTrip(e.id);
    B.RoundTrip(e.key);
  }

  /** Distinct ids have distinct indices, so saving never overwrites and keeps the order. */
  lemma SkippedToDictKeepsOrder(s: seq<Skipped>)
    requires SkippedOk(s)
    ensures SkippedToDict(s) == EncodeAll(EncodeEntry, s)
  {
    var items := EncodeAll(EncodeEntry, s);
    forall i, j | 0 <= i < j < |items|
      ensures items[i].0 != items[j].0
    {
      if items[i].0 == items[j].0 {
        EncodeIdInjective(s[i].id, s[j].id);
      }
    }
    DistinctKeysKeepOrder(items);
  }

  lemma SkippedRoundTrip(s: seq<Skipped>)
    requires SkippedOk(s)
    ensures DictToSkipped(SkippedToDict(s)) == Some(s)
  {
    SkippedToDictKeepsOrder(s);
    forall i | 0 <= i < |s|
      ensures DecodeEntry(EncodeEntry(s[i])) == Some(s[i]) && Put(s[..i], s[i]) == s[..i + 1]
    {
      EntryRoundTrip(s[i]);
      PutNew(s, i);
    }
    ListRoundTrip(EncodeEntry, DecodeEntry, Put, s);
  }

  lemma PutNew(s: seq<Skipped>, i: nat)
    requires SkippedOk(s) && i < |s|
    ensures Put(s[..i], s[i]) == s[..i + 1]
  {
    assert !HasId(s[..i], s[i].id);
  }

  lemma DecodedEntryOk(item: (string, string))
    ensures DecodeEntry(item).Some? ==> IdOk(DecodeEntry(item).value.id) && |DecodeEntry(item).value.key| == KEY_LENGTH
  {
    DecodedIdOk(item.0);
  }

  lemma {:induction false} LoadedSkippedOk(d: Dict)
    ensures DictToSkipped(d).Some? ==> SkippedOk(DictToSkipped(d).value)
  {
    if d != [] {
      LoadedSkippedOk(d[..|d| - 1]);
      DecodedEntryOk(d[|d| - 1]);
      if DictToSkipped(d).Some? {
        PutKeepsOk(DictToSkipped(d[..|d| - 1]).value, DecodeEntry(d[|d| - 1]).value);
      }
    }
  }

  lemma PutKeepsOk(s: seq<Skipped>, e: Skipped)
    requires SkippedOk(s) && IdOk(e.id) && |e.key| == KEY_LENGTH
    ensures SkippedOk(Put(s, e))
  {
  }

  // Received ids ------------------------------------------------------------------------------------------

  function ReceivedToList(s: seq<Id>): seq<string> {
    EncodeAll(EncodeId, s)
  }

  /** add: a full window drops its oldest id. */
  function Remember(s: seq<Id>, id: Id): seq<Id> {
    S.Remember(s, MAX_RECEIVED, id)
  }

  function ListToReceived(l: seq<string>): Option<seq<Id>> {
    DecodeAll(DecodeId, Remember, l)
  }

  lemma ReceivedRoundTrip(s: seq<Id>)
    requires ReceivedOk(s) && |s| <= MAX_RECEIVED
    ensures ListToReceived(ReceivedToList(s)) == Some(s)
  {
    forall i | 0 <= i < |s|
      ensures DecodeId(EncodeId(s[i])) == Some(s[i]) && Remember(s[..i], s[i]) == s[..i + 1]
    {
      IdRoundTrip(s[i]);
      assert s[i] !in s[..i];
    }
    ListRoundTrip(EncodeId, DecodeId, Remember, s);
  }

  lemma {:induction false} LoadedReceivedOk(l: seq<string>)
    ensures ListToReceived(l).Some? ==>
              ReceivedOk(ListToReceived(l).value) && |ListToReceived(l).value| <= MAX_RECEIVED
  {
    if l != [] {
      LoadedReceivedOk(l[..|l| - 1]);
      DecodedIdOk(l[|l| - 1]);
      if ListToReceived(l).Some? {
        RememberKeepsOk(ListToReceived(l[..|l| - 1]).value, DecodeId(l[|l| - 1]).value);
      }
    }
  }

  lemma RememberKeepsOk(s: seq<Id>, id: Id)
    requires ReceivedOk(s) && |s| <= MAX_RECEIVED && IdOk(id)
    ensures ReceivedOk(Remember(s, id)) && |Remember(s, id)| <= MAX_RECEIVED
  {
  }

  // Whole sessions ----------------------------------------------------------------------------------------

  /** An absent or empty key is saved as null. */
  function SaveKey(k: Option<bytes>): Option<string> {
    if k.Some? && k.value != [] then Some(B.Encode(k.value)) else None
  }

  function LoadKey(s: string): Option<bytes> {
    match B.Decode(s)
    case None => None
    case Some(b) => if |b| == KEY_LENGTH then Some(b) else None
  }

  /** A null key stays absent; a present one must decode to 32 bytes. */
  function LoadOptionalKey(s: Option<string>): Result<Option<bytes>> {
    match s
    case None => Ok(None)
    case Some(t) => if LoadKey(t).Some? then Ok(Some(LoadKey(t).value)) else Err
  }

  function LoadCounter(n: Option<int>): Option<int> {
    match n
    case None => Some(0)
    case Some(k) => if k < 0 then None else Some(k)
  }

  /** state_to_dict */
  function ToDict(s: Session): SessionDict {
    SessionDict(VERSION, Some(s.version), Some(B.Encode(s.rootKey)), SaveKey(s.sendingChainKey),
                SaveKey(s.receivingChainKey), SaveKey(s.dhsPrivate), SaveKey(s.dhr),
                Some(s.ns), Some(s.nr), Some(s.pn), Some(SkippedToDict(s.skipped)), Some(ReceivedToList(s.received)))
  }

  /** state_from_dict */
  function FromDict(d: SessionDict, maxKeys: nat): Result<Session> {
    if d.v != VERSION || d.rootKey.None? || LoadKey(d.rootKey.value).None? then Err
    else
      var ckS, ckR := LoadOptionalKey(d.sendingChainKey), LoadOptionalKey(d.receivingChainKey);
      var dhs, dhr := LoadOptionalKey(d.dhsPrivate), LoadOptionalKey(d.dhr);
      var ns, nr, pn := LoadCounter(d.ns), LoadCounter(d.nr), LoadCounter(d.pn);
      var skipped := DictToSkipped(if d.skipped.Some? then d.skipped.value else []);
      var version := if d.version.Some? then d.version.value else 1;
      var received := ListToReceived(if d.received.Some? then d.received.value else []);
      if ckS.Err? || ckR.Err? || dhs.Err? || dhr.Err? || ns.None? || nr.None? || pn.None? || skipped.None?
         || |skipped.value| > maxKeys || version < 1 || received.None? then Err
      else
        Ok(Session(LoadKey(d.rootKey.value).value, ckS.value, ckR.value, dhs.value, dhr.value, ns.value, nr.value, pn.value,
                   skipped.value, maxKeys, received.value, version))
  }

  lemma KeyRoundTrip(k: Option<bytes>)
    requires KeyOk(k)
    ensures LoadOptionalKey(SaveKey(k)) == Ok(k)
  {
    if k.Some? {
      B.RoundTrip(k.value);
    }
  }

  /** Every well-formed session is read back exactly as it was saved, both stores in order. */
  lemma SessionRoundTrip(s: Session)
    requires WellFormed(s)
    ensures FromDict(ToDict(s), s.maxKeys) == Ok(s)
  {
    B.RoundTrip(s.rootKey);
    KeyRoundTrip(s.sendingChainKey);
    KeyRoundTrip(s.receivingChainKey);
    KeyRoundTrip(s.dhsPrivate);
    KeyRoundTrip(s.dhr);
    SkippedRoundTrip(s.skipped);
    ReceivedRoundTrip(s.received);
    Assemble(ToDict(s), s);
  }

  /** A dictionary whose fields decode to the session's gives the session. */
  lemma Assemble(d: SessionDict, s: Session)
    requires WellFormed(s) && d.v == VERSION && d.version == Some(s.version)
    requires d.rootKey.Some? && B.Decode(d.rootKey.value) == Some(s.rootKey)
    requires LoadOptionalKey(d.sendingChainKey) == Ok(s.sendingChainKey)
    requires LoadOptionalKey(d.receivingChainKey) == Ok(s.receivingChainKey)
    requires LoadOptionalKey(d.dhsPrivate) == Ok(s.dhsPrivate) && LoadOptionalKey(d.dhr) == Ok(s.dhr)
    requires d.ns == Some(s.ns) && d.nr == Some(s.nr) && d.pn == Some(s.pn)
    requires d.skipped.Some? && DictToSkipped(d.skipped.value) == Some(s.skipped)
    requires d.received.Some? && ListToReceived(d.received.value) == Some(s.received)
    ensures FromDict(d, s.maxKeys) == Ok(s)
  {
  }

  /** Whatever a dictionary contains, a session read from it is well-formed. */
  lemma LoadedIsWellFormed(d: SessionDict, maxKeys: nat)
    requires FromDict(d, maxKeys).Ok?
    ensures WellFormed(FromDict(d, maxKeys).value) && FromDict(d, maxKeys).value.maxKeys == maxKeys
    ensures d.v == 1 && |FromDict(d, maxKeys).value.rootKey| == 32 && |FromDict(d, maxKeys).value.received| <= 2000
  {
    LoadedSkippedOk(if d.skipped.Some? then d.skipped.value else []);
    LoadedReceivedOk(if d.received.Some? then d.received.value else []);
  }

  /** So a session that could be read once survives any number of further saves. */
  lemma LoadedSurvivesSaving(d: SessionDict, maxKeys: nat)
    requires FromDict(d, maxKeys).Ok?
    ensures FromDict(ToDict(FromDict(d, maxKeys).value), maxKeys) == FromDict(d, maxKeys)
  {
    LoadedIsWellFormed(d, maxKeys);
    SessionRoundTrip(FromDict(d, maxKeys).value);
  }

  /** What a missing field stands for. */
  function Filled(d: SessionDict): SessionDict {
    d.(version := if d.version.None? then Some(1) else d.version,
    ns := if d.ns.None? then Some(0) else d.ns,
    nr := if d.nr.None? then Some(0) else d.nr,
    pn := if d.pn.None? then Some(0) else d.pn,
    skipped := if d.skipped.None? then Some([]) else d.skipped,
    received := if d.received.None? then Some([]) else d.received)
  }

  /** An older file without some fields is read as if they held the defaults. */
  lemma MissingFieldsAreDefaults(d: SessionDict, maxKeys: nat)
    ensures FromDict(d, maxKeys) == FromDict(Filled(d), maxKeys)
  {
  }

  /** The index of a message id: the key's bytes, then the number, most significant byte first. */
  lemma IndexLayout(id: Id)
    requires IdOk(id)
    ensures B.Decode(EncodeId(id)) == Some(id.dh + U32(id.n))
  {
    B.RoundTrip(id.dh + U32(id.n));
  }

  // The loops ---------------------------------------------------------------------------------------------

  /** SkippedMessageKeys.to_dict */
  method SaveSkipped(s: seq<Skipped>) returns (d: Dict)
    ensures d == SkippedToDict(s)
  {
    ghost var items := EncodeAll(EncodeEntry, s);
    d := [];
    for i := 0 to |s|
      invariant d == DictOf(items[..i])
    {
      assert items[..i + 1][..i] == items[..i] && items[i] == EncodeEntry(s[i]);
      d := SetKey(d, EncodeId(s[i].id), B.Encode(s[i].key));
    }
    assert items[..|s|] == items;
  }

  /** SkippedMessageKeys.from_dict */
  method LoadSkipped(d: Dict, maxKeys: nat) returns (r: Option<seq<Skipped>>)
    ensures r == if DictToSkipped(d).Some? && |DictToSkipped(d).value| <= maxKeys then DictToSkipped(d) else None
  {
    var s: seq<Skipped> := [];
    for i := 0 to |d|
      invariant DecodeAll(DecodeEntry, Put, d[..i]) == Some(s)
    {
      assert d[..i + 1][..i] == d[..i];
      var e := DecodeEntry(d[i]);
      if e.None? {
        BadItemSpoils(DecodeEntry, Put, d, i + 1);
        return None;
      }
      s := Put(s, e.value);
    }
    assert d[..|d|] == d;
    return if |s| <= maxKeys then Some(s) else None;
  }

  /** ReceivedIdsStore.from_dict */
  method LoadReceived(l: seq<string>) returns (r: Option<seq<Id>>)
    ensures r == ListToReceived(l)
  {
    var s: seq<Id> := [];
    for i := 0 to |l|
      invariant DecodeAll(DecodeId, Remember, l[..i]) == Some(s)
    {
      assert l[..i + 1][..i] == l[..i];
      var id := DecodeId(l[i]);
      if id.None? {
        BadItemSpoils(DecodeId, Remember, l, i + 1);
        return None;
      }
      s := Remember(s, id.value);
    }
    assert l[..|l|] == l;
    return Some(s);
  }
}

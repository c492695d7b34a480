/**
 * The second ratchet engine, the one behind the session manager (ratchet/double_ratchet.py,
 * ratchet/skipped_keys.py). Its skipped keys are a bounded dictionary that refuses to grow, and a
 * refusal in the middle of a skip leaves the session as it is at that moment.
 */
module PairRatchet {
  import opened Common
  import opened Kdf
  import opened Stores

  datatype Header = Header(dh: KeyId, pn: nat, n: nat)

  /** Sealed under a key and a nonce made from the key and a number; there is no associated data. */
  datatype Cipher = Sealed(key: Key, nonce: nat, text: bytes) | Junk(id: nat)

  datatype Message = Message(header: Header, cipher: Cipher)

  function NonceNumber(n: nat): nat {
    n % U32_LIMIT
  }

  function Open(key: Key, msg: Message): Option<bytes> {
    if msg.cipher.Sealed? && msg.cipher.key == key && msg.cipher.nonce == NonceNumber(msg.header.n)
    then Some(msg.cipher.text) else None
  }

  datatype Pair = Pair(
    rootKey: Key,
    dhs: KeyId,
    dhr: Option<KeyId>,
    sending: Option<Key>,
    receiving: Option<Key>,
    ns: nat,
    nr: nat,
    pn: nat,
    skipped: map<MsgId, Key>,
    maxKeys: nat)

  datatype SendResult = Sent(msg: Message) | NoChain

  datatype Outcome = Accepted(text: bytes) | Duplicate | StoreFull | Rejected

  datatype Received = Received(pair: Pair, outcome: Outcome)

  function Initial(seed: Key, dhs: KeyId, dhr: Option<KeyId>, isInitiator: bool, maxKeys: nat): Pair {
    if dhr.None? then Pair(seed, dhs, None, None, None, 0, 0, 0, map[], maxKeys) else
      var (root, chain) := KdfRoot(seed, SharedSecret(dhs, dhr.value));
      Pair(root, dhs, dhr, if isInitiator then Some(chain) else None, if isInitiator then None else Some(chain),
           0, 0, 0, map[], maxKeys)
  }

  function StepSend(st: Pair): Pair {
    if st.dhr.None? then st else
      var (root, chain) := KdfRoot(st.rootKey, SharedSecret(st.dhs, st.dhr.value));
      st.(rootKey := root, sending := Some(chain), ns := 0)
  }

  function Encrypt(st: Pair, text: bytes): (Pair, SendResult) {
    var s := if st.sending.None? then StepSend(st) else st;
    if s.sending.None? then (s, NoChain) else
      var (chain, key) := KdfChain(s.sending.value);
      (s.(sending := Some(chain), ns := s.ns + 1),
       Sent(Message(Header(s.dhs, s.pn, s.ns), Sealed(key, NonceNumber(s.ns), text))))
  }

  function TurnReceive(st: Pair, dh: KeyId, newLocal: KeyId): Pair {
    var (root, chain) := KdfRoot(st.rootKey, SharedSecret(st.dhs, dh));
    st.(pn := st.ns, ns := 0, nr := 0, dhr := Some(dh), rootKey := root, receiving := Some(chain),
    dhs := newLocal, sending := None)
  }

  function Prepare(st: Pair, dh: KeyId, newLocal: KeyId): Pair {
    var s :=
      if st.receiving.None? && st.dhr == Some(dh) then
        var (root, chain) := KdfRoot(st.rootKey, SharedSecret(st.dhs, dh));
        st.(rootKey := root, receiving := Some(chain))
      else
        st;
    if s.dhr != Some(dh) then TurnReceive(s, dh, newLocal) else s
  }

  function SkipOne(st: Pair): Pair
    requires st.receiving.Some? && st.dhr.Some?
  {
    var (chain, key) := KdfChain(st.receiving.value);
    st.(receiving := Some(chain), nr := st.nr + 1, skipped := st.skipped[MsgId(st.dhr.value, st.nr) := key])
  }

  /** The skip loop, and whether it ran to its end. */
  function SkipUntil(st: Pair, until: nat): (Pair, bool)
    requires st.receiving.Some? && st.dhr.Some?
    decreases until - st.nr
  {
    if st.nr >= until then (st, true)
    else if |st.skipped| >= st.maxKeys then (st.(receiving := Some(KdfChain(st.receiving.value).0)), false)
    else SkipUntil(SkipOne(st), until)
  }

  function Finish(st: Pair, key: Key, msg: Message): Received {
    match Open(key, msg)
    case Some(text) => Received(st, Accepted(text))
    case None => Received(st, Rejected)
  }

  function Decrypt(st: Pair, msg: Message, newLocal: KeyId): Received {
    var id := MsgId(msg.header.dh, msg.header.n);
    if id in st.skipped then Finish(st.(skipped := st.skipped - {id}), st.skipped[id], msg) else
      var s := Prepare(st, id.dh, newLocal);
      if id.n < s.nr then Received(s, Duplicate) else TakeNext(s, msg)
  }

  function TakeNext(st: Pair, msg: Message): Received
    requires st.receiving.Some? && st.dhr.Some?
  {
    var (t, whole) := SkipUntil(st, msg.header.n);
    SkipShape(st, msg.header.n);
    if !whole then Received(t, StoreFull) else
      var (chain, key) := KdfChain(t.receiving.value);
      Finish(t.(receiving := Some(chain), nr := t.nr + 1), key, msg)
  }

  /** What a skip can change, and where it ends. */
  lemma {:induction false} SkipShape(st: Pair, until: nat)
    requires st.receiving.Some? && st.dhr.Some?
    ensures var (t, whole) := SkipUntil(st, until);
            && t.receiving.Some? && st.nr <= t.nr
            && t == st.(receiving := t.receiving, nr := t.nr, skipped := t.skipped)
            && (whole ==> t.nr == if st.nr >= until then st.nr else until)
            && (!whole ==> t.nr < until)
            && (forall id :: id in t.skipped ==>
                               id in st.skipped || (id.dh == st.dhr.value && st.nr <= id.n < t.nr))
    decreases until - st.nr
  {
    if st.nr < until && |st.skipped| < st.maxKeys {
      SkipShape(SkipOne(st), until);
    }
  }

  // A full store ------------------------------------------------------------------------------------

  /** How many of the numbers lo..hi-1 of a key are not stored. */
  function Absent(skipped: map<MsgId, Key>, dh: KeyId, lo: nat, hi: int): nat
    decreases hi - lo
  {
    if hi <= lo then 0
    else (if MsgId(dh, lo) in skipped then 0 else 1) + Absent(skipped, dh, lo + 1, hi)
  }

  lemma {:induction false} AbsentAhead(skipped: map<MsgId, Key>, dh: KeyId, n: nat, key: Key, lo: nat, hi: int)
    requires n < lo
    ensures Absent(skipped[MsgId(dh, n) := key], dh, lo, hi) == Absent(skipped, dh, lo, hi)
    decreases hi - lo
  {
    if lo < hi {
      AbsentAhead(skipped, dh, n, key, lo + 1, hi);
    }
  }

  /**
   * Whether a skip from nr runs into a full store: before its last insertion the store has grown by
   * the numbers it did not hold yet.
   */
  predicate Overflows(skipped: map<MsgId, Key>, maxKeys: nat, dh: KeyId, nr: nat, until: nat) {
    nr < until && |skipped| + Absent(skipped, dh, nr, until - 1) >= maxKeys
  }

  lemma SkipOneOverflows(st: Pair, until: nat, next: Pair)
    requires st.receiving.Some? && st.dhr.Some? && st.nr < until && |st.skipped| < st.maxKeys && next == SkipOne(st)
    ensures Overflows(next.skipped, st.maxKeys, st.dhr.value, next.nr, until) <==>
            Overflows(st.skipped, st.maxKeys, st.dhr.value, st.nr, until)
  {
    var id := MsgId(st.dhr.value, st.nr);
    AbsentAhead(st.skipped, id.dh, id.n, KdfChain(st.receiving.value).1, st.nr + 1, until - 1);
    assert |next.skipped| == |st.skipped| + if id in st.skipped then 0 else 1;
  }

  /** No number of this key from nr on is stored. */
  ghost predicate NothingAhead(skipped: map<MsgId, Key>, dh: KeyId, nr: nat) {
    forall id :: id in skipped && id.dh == dh ==> id.n < nr
  }

  lemma {:induction false} AllAbsent(skipped: map<MsgId, Key>, dh: KeyId, lo: nat, hi: int)
    requires NothingAhead(skipped, dh, lo)
    ensures Absent(skipped, dh, lo, hi) == if hi <= lo then 0 else hi - lo
    decreases hi - lo
  {
    if lo < hi {
      AllAbsent(skipped, dh, lo + 1, hi);
    }
  }

  /** With nothing stored ahead every number passed adds one key; a skip that is refused leaves the store full. */
  lemma {:induction false} SkipGrows(st: Pair, until: nat, t: Pair, whole: bool)
    requires st.receiving.Some? && st.dhr.Some? && (t, whole) == SkipUntil(st, until)
    ensures st.nr <= t.nr && (!whole ==> |t.skipped| >= t.maxKeys)
    ensures NothingAhead(st.skipped, st.dhr.value, st.nr) ==> |t.skipped| == |st.skipped| + (t.nr - st.nr)
    decreases until - st.nr
  {
    if st.nr < until && |st.skipped| < st.maxKeys {
      SkipGrows(SkipOne(st), until, t, whole);
      assert NothingAhead(st.skipped, st.dhr.value, st.nr) ==> MsgId(st.dhr.value, st.nr) !in st.skipped;
    }
  }

  /** What a skip leaves: the chain key is as far as the counter, or one step further after a refusal. */
  lemma {:induction false} SkipInSyncIff(st: Pair, until: nat, t: Pair, whole: bool)
    requires st.receiving.Some? && st.dhr.Some? && (t, whole) == SkipUntil(st, until)
    ensures !whole <==> Overflows(st.skipped, st.maxKeys, st.dhr.value, st.nr, until)
    ensures st.nr <= t.nr
    ensures t.receiving == Some(Iterate(st.receiving.value, if whole then t.nr - st.nr else t.nr - st.nr + 1))
    decreases until - st.nr
  {
    OneIteration(st.receiving.value);
    if st.nr < until && |st.skipped| < st.maxKeys {
      var next := SkipOne(st);
      SkipOneOverflows(st, until, next);
      SkipInSyncIff(next, until, t, whole);
      IterateAdds(st.receiving.value, 1, if whole then t.nr - next.nr else t.nr - next.nr + 1);
    }
  }

  lemma OneIteration(c: Key)
    ensures Iterate(c, 0) == c && Iterate(c, 1) == ChainNext(c)
  {
    assert Iterate(c, 1) == ChainNext(Iterate(c, 0));
  }

  // Runs --------------------------------------------------------------------------------------------

  datatype Call = Send(text: bytes) | Receive(msg: Message, newLocal: KeyId)

  /**
   * A session, the first key of its current receiving chain, and how many insertions the store has
   * refused since that chain was opened.
   */
  datatype Point = Point(pair: Pair, start: Option<Key>, refused: nat)

  /** Whether the message is handled on a chain that it opens itself. */
  predicate OpensChain(p: Pair, dh: KeyId) {
    p.dhr != Some(dh) || p.receiving.None?
  }

  function Step(p: Point, c: Call): Point {
    match c
    case Send(text) => p.(pair := Encrypt(p.pair, text).0)
    case Receive(msg, newLocal) =>
      var r := Decrypt(p.pair, msg, newLocal);
      if MsgId(msg.header.dh, msg.header.n) in p.pair.skipped then p.(pair := r.pair)
      else
        var opens := OpensChain(p.pair, msg.header.dh);
        Point(r.pair, if opens then Prepare(p.pair, msg.header.dh, newLocal).receiving else p.start,
              (if opens then 0 else p.refused) + if r.outcome.StoreFull? then 1 else 0)
  }

  predicate IsStep(p: Point, c: Call, q: Point) {
    q == Step(p, c)
  }

  ghost predicate IsRun(run: seq<Point>, calls: seq<Call>) {
    |run| == |calls| + 1 && forall i :: 0 <= i < |calls| ==> IsStep(run[i], calls[i], run[i + 1])
  }

  /** The chain key is ahead of the counter by the number of refusals. */
  predicate Drifted(p: Point) {
    if p.pair.receiving.None? then p.start == None && p.refused == 0 && p.pair.nr == 0
    else
      && p.pair.dhr.Some? && p.start.Some?
      && p.pair.receiving == Some(Iterate(p.start.value, p.pair.nr + p.refused))
  }

  /** The store refuses a key during a receive, in terms of the session before it. */
  predicate Refuses(p: Pair, h: Header) {
    && MsgId(h.dh, h.n) !in p.skipped
    && Overflows(p.skipped, p.maxKeys, h.dh, if p.dhr == Some(h.dh) then p.nr else 0, h.n)
  }

  lemma PreparedFrom(p: Point, dh: KeyId, newLocal: KeyId, s: Pair, start: Key, refused: nat)
    requires Drifted(p) && s == Prepare(p.pair, dh, newLocal) && s.receiving.Some?
    requires if OpensChain(p.pair, dh) then start == s.receiving.value && refused == 0
             else p.start == Some(start) && refused == p.refused
    ensures s.dhr == Some(dh) && s.skipped == p.pair.skipped && s.maxKeys == p.pair.maxKeys
    ensures s.nr == (if p.pair.dhr == Some(dh) then p.pair.nr else 0)
    ensures s.receiving == Some(Iterate(start, s.nr + refused))
  {
    OneIteration(start);
  }

  lemma TakeNextDrifts(s: Pair, msg: Message, start: Key, refused: nat, r: Received)
    requires s.receiving == Some(Iterate(start, s.nr + refused)) && s.dhr == Some(msg.header.dh)
    requires s.nr <= msg.header.n && r == TakeNext(s, msg)
    ensures r.outcome.StoreFull? <==> Overflows(s.skipped, s.maxKeys, msg.header.dh, s.nr, msg.header.n)
    ensures r.pair.dhr == s.dhr
    ensures r.pair.receiving ==
            Some(Iterate(start, r.pair.nr + refused + if r.outcome.StoreFull? then 1 else 0))
  {
    var c := s.receiving.value;
    var (t, whole) := SkipUntil(s, msg.header.n);
    SkipInSyncIff(s, msg.header.n, t, whole);
    SkipShape(s, msg.header.n);
    IterateAdds(start, s.nr + refused, if whole then t.nr - s.nr else t.nr - s.nr + 1);
  }

  lemma ReceiveDrifts(p: Point, msg: Message, newLocal: KeyId, q: Point)
    requires Drifted(p) && q == Step(p, Receive(msg, newLocal))
    ensures Drifted(q)
    ensures Decrypt(p.pair, msg, newLocal).outcome.StoreFull? <==> Refuses(p.pair, msg.header)
  {
    var h := msg.header;
    if MsgId(h.dh, h.n) !in p.pair.skipped {
      var s := Prepare(p.pair, h.dh, newLocal);
      var opens := OpensChain(p.pair, h.dh);
      var start := if opens then s.receiving.value else p.start.value;
      var refused := if opens then 0 else p.refused;
      PreparedFrom(p, h.dh, newLocal, s, start, refused);
      if s.nr <= h.n {
        TakeNextDrifts(s, msg, start, refused, TakeNext(s, msg));
      }
    }
  }

  lemma StepDrifts(p: Point, c: Call, q: Point)
    requires Drifted(p) && IsStep(p, c, q)
    ensures Drifted(q)
  {
    if c.Receive? {
      ReceiveDrifts(p, c.msg, c.newLocal, q);
    }
  }

  function Begin(seed: Key, dhs: KeyId, dhr: Option<KeyId>, isInitiator: bool, maxKeys: nat): Point {
    var p := Initial(seed, dhs, dhr, isInitiator, maxKeys);
    Point(p, p.receiving, 0)
  }

  /**
   * Over every run: the chain key is ahead of the counter by exactly the number of insertions the
   * store has refused on the current chain, so the two agree if and only if there were none, and a
   * receive meets a refusal exactly when the numbers it would have to store do not fit.
   */
  lemma {:induction false} RunDrifts(seed: Key, dhs: KeyId, dhr: Option<KeyId>, isInitiator: bool, maxKeys: nat,
                                     run: seq<Point>, calls: seq<Call>, k: nat)
    requires IsRun(run, calls) && k < |run| && run[0] == Begin(seed, dhs, dhr, isInitiator, maxKeys)
    ensures Drifted(run[k])
    ensures run[k].pair.receiving.Some? ==>
              (run[k].pair.receiving == Some(Iterate(run[k].start.value, run[k].pair.nr)) <==> run[k].refused == 0)
    ensures k < |calls| && calls[k].Receive? ==>
              (Decrypt(run[k].pair, calls[k].msg, calls[k].newLocal).outcome.StoreFull? <==>
               Refuses(run[k].pair, calls[k].msg.header))
  {
    if k == 0 {
      if run[0].start.Some? {
        OneIteration(run[0].start.value);
      }
    } else {
      RunDrifts(seed, dhs, dhr, isInitiator, maxKeys, run, calls, k - 1);
      assert IsStep(run[k - 1], calls[k - 1], run[k]);
      StepDrifts(run[k - 1], calls[k - 1], run[k]);
    }
    var p := run[k];
    if p.pair.receiving.Some? && p.pair.receiving == Some(Iterate(p.start.value, p.pair.nr)) {
      IterateInjective(p.start.value, p.pair.nr, p.pair.nr + p.refused);
    }
    if k < |calls| && calls[k].Receive? {
      ReceiveDrifts(p, calls[k].msg, calls[k].newLocal, Step(p, calls[k]));
    }
  }

  /** A message is a duplicate exactly if it is below the counter of its chain and its key is not stored. */
  lemma DuplicateIff(p: Pair, msg: Message, newLocal: KeyId)
    ensures var h := msg.header;
            Decrypt(p, msg, newLocal).outcome.Duplicate? <==>
            MsgId(h.dh, h.n) !in p.skipped && p.dhr == Some(h.dh) && h.n < p.nr
    ensures Decrypt(p, msg, newLocal).outcome.Duplicate? && p.receiving.Some? ==> Decrypt(p, msg, newLocal).pair == p
  {
  }

  /** The nonce binds the low 32 bits of the number. */
  lemma NonceBinds(m: nat, n: nat)
    ensures NonceNumber(m) == NonceNumber(n) <==> m % U32_LIMIT == n % U32_LIMIT
  {
  }

  // What opens --------------------------------------------------------------------------------------

  /** Number k of a key is stored with its key on a chain whose next number is lo and next key c. */
  predicate HoldsKey(skipped: map<MsgId, Key>, dh: KeyId, c: Key, lo: nat, k: nat)
    requires lo <= k
  {
    MsgId(dh, k) in skipped && skipped[MsgId(dh, k)] == MessageKey(Iterate(c, k - lo))
  }

  /** The numbers lo..hi-1 of a key are stored with the keys of chain c, and nothing else has changed. */
  ghost predicate StoresRange(before: map<MsgId, Key>, after: map<MsgId, Key>, dh: KeyId, c: Key, lo: nat, hi: nat) {
    && (forall id :: id in after <==> id in before || (id.dh == dh && lo <= id.n < hi))
    && (forall k: nat :: lo <= k < hi ==> HoldsKey(after, dh, c, lo, k))
    && (forall id :: id in before && !(id.dh == dh && lo <= id.n < hi) ==> id in after && after[id] == before[id])
  }

  /** A skip, whole or not, stores exactly the keys of the numbers it has passed. */
  lemma {:induction false} SkipStores(st: Pair, until: nat, t: Pair)
    requires st.receiving.Some? && st.dhr.Some? && t == SkipUntil(st, until).0
    ensures st.nr <= t.nr && StoresRange(st.skipped, t.skipped, st.dhr.value, st.receiving.value, st.nr, t.nr)
    decreases until - st.nr
  {
    if st.nr < until && |st.skipped| < st.maxKeys {
      var c, next := st.receiving.value, SkipOne(st);
      assert SkipUntil(st, until) == SkipUntil(next, until);
      SkipStores(next, until, t);
      StoresOneMore(st.skipped, next.skipped, t.skipped, st.dhr.value, c, st.nr, t.nr);
    }
  }

  lemma StoresOneMore(before: map<MsgId, Key>, one: map<MsgId, Key>, after: map<MsgId, Key>, dh: KeyId, c: Key, lo: nat, hi: nat)
    requires lo < hi && one == before[MsgId(dh, lo) := MessageKey(c)]
    requires StoresRange(one, after, dh, ChainNext(c), lo + 1, hi)
    ensures StoresRange(before, after, dh, c, lo, hi)
  {
    OneIteration(c);
    assert MsgId(dh, lo) in one && one[MsgId(dh, lo)] == MessageKey(c);
    forall id | id in before && !(id.dh == dh && lo <= id.n < hi)
      ensures id in after && after[id] == before[id]
    {
      assert id in one && one[id] == before[id];
    }
    forall id
      ensures id in after <==> id in before || (id.dh == dh && lo <= id.n < hi)
    {
      assert id in one <==> id in before || id == MsgId(dh, lo);
    }
    forall k: nat | lo <= k < hi
      ensures HoldsKey(after, dh, c, lo, k)
    {
      if k > lo {
        assert HoldsKey(after, dh, ChainNext(c), lo + 1, k);
        IterateAdds(c, 1, k - lo - 1);
      }
    }
  }

  /**
   * With room for the skip, a message at or ahead of the counter moves chain and counter past its
   * number, opened or not; it yields its text if it is sealed under its number's key.
   */
  lemma TakeNextOpens(st: Pair, msg: Message, r: Received)
    requires st.receiving.Some? && st.dhr == Some(msg.header.dh) && st.nr <= msg.header.n
    requires !Overflows(st.skipped, st.maxKeys, msg.header.dh, st.nr, msg.header.n) && r == TakeNext(st, msg)
    ensures r.pair.nr == msg.header.n + 1 && r.pair.rootKey == st.rootKey && r.pair.dhs == st.dhs && r.pair.dhr == st.dhr
    ensures r.pair.sending == st.sending && r.pair.ns == st.ns && r.pair.pn == st.pn && r.pair.maxKeys == st.maxKeys
    ensures r.pair.receiving == Some(Iterate(st.receiving.value, msg.header.n + 1 - st.nr))
    ensures StoresRange(st.skipped, r.pair.skipped, msg.header.dh, st.receiving.value, st.nr, msg.header.n)
    ensures var key := MessageKey(Iterate(st.receiving.value, msg.header.n - st.nr));
            r.outcome == match Open(key, msg) case Some(text) => Accepted(text) case None => Rejected
  {
    var (t, whole) := SkipUntil(st, msg.header.n);
    SkipInSyncIff(st, msg.header.n, t, whole);
    SkipShape(st, msg.header.n);
    SkipStores(st, msg.header.n, t);
    var c := st.receiving.value;
    assert Iterate(c, msg.header.n + 1 - st.nr) == ChainNext(Iterate(c, msg.header.n - st.nr));
  }

  /** The first key of the chain that a message with this key is received on. */
  function ChainOf(p: Point, dh: KeyId, newLocal: KeyId): Option<Key> {
    if OpensChain(p.pair, dh) then Prepare(p.pair, dh, newLocal).receiving else p.start
  }

  /** Number n of chain c under key dh, as its sender seals it. */
  function Honest(dh: KeyId, pn: nat, n: nat, c: Key, text: bytes): Message {
    Message(Header(dh, pn, n), Sealed(MessageKey(Iterate(c, n)), NonceNumber(n), text))
  }

  /** The same, counted from the first key of the chain. */
  lemma ChainOpens(st: Pair, msg: Message, c: Key, text: bytes, r: Received)
    requires st.receiving == Some(Iterate(c, st.nr)) && st.dhr == Some(msg.header.dh) && st.nr <= msg.header.n
    requires !Overflows(st.skipped, st.maxKeys, msg.header.dh, st.nr, msg.header.n) && r == TakeNext(st, msg)
    requires msg == Honest(msg.header.dh, msg.header.pn, msg.header.n, c, text)
    ensures r.outcome == Accepted(text) && r.pair.dhr == st.dhr && r.pair.nr == msg.header.n + 1
    ensures forall k: nat :: st.nr <= k < msg.header.n ==> HoldsKey(r.pair.skipped, msg.header.dh, c, 0, k)
  {
    TakeNextOpens(st, msg, r);
    IterateAdds(c, st.nr, msg.header.n - st.nr);
    assert Open(MessageKey(Iterate(c, msg.header.n)), msg) == Some(text);
    RangeFromStart(st.skipped, r.pair.skipped, msg.header.dh, c, st.nr, msg.header.n);
  }

  lemma RangeFromStart(before: map<MsgId, Key>, after: map<MsgId, Key>, dh: KeyId, c: Key, lo: nat, hi: nat)
    requires StoresRange(before, after, dh, Iterate(c, lo), lo, hi)
    ensures forall k: nat :: lo <= k < hi ==> HoldsKey(after, dh, c, 0, k)
  {
    forall k: nat | lo <= k < hi
      ensures HoldsKey(after, dh, c, 0, k)
    {
      assert HoldsKey(after, dh, Iterate(c, lo), lo, k);
      IterateAdds(c, lo, k - lo);
    }
  }

  /** What the store has after a skip: what it had, and numbers of this key between the two places. */
  ghost predicate GrownBy(before: map<MsgId, Key>, after: map<MsgId, Key>, dh: KeyId, lo: nat, hi: nat) {
    forall id :: id in after ==> id in before || (id.dh == dh && lo <= id.n < hi)
  }

  /** An honest message after a gap for which there is room: the whole new state. */
  lemma GapOpens(st: Pair, msg: Message, c: Key, text: bytes, r: Received)
    requires st.receiving == Some(Iterate(c, st.nr)) && st.dhr == Some(msg.header.dh) && st.nr <= msg.header.n
    requires NothingAhead(st.skipped, msg.header.dh, st.nr)
    requires msg.header.n > st.nr ==> |st.skipped| + (msg.header.n - st.nr) <= st.maxKeys
    requires msg == Honest(msg.header.dh, msg.header.pn, msg.header.n, c, text) && r == TakeNext(st, msg)
    ensures r.outcome == Accepted(text)
    ensures r.pair ==
            st.(receiving := Some(Iterate(c, msg.header.n + 1)), nr := msg.header.n + 1, skipped := r.pair.skipped)
    ensures |r.pair.skipped| == |st.skipped| + (msg.header.n - st.nr)
    ensures GrownBy(st.skipped, r.pair.skipped, msg.header.dh, st.nr, msg.header.n)
  {
    var n := msg.header.n;
    var (t, whole) := SkipUntil(st, n);
    GapSkips(st, n, c, t, whole);
    assert Iterate(c, n + 1) == ChainNext(Iterate(c, n));
  }

  lemma GapFits(st: Pair, dh: KeyId, n: nat)
    requires st.nr <= n && NothingAhead(st.skipped, dh, st.nr) && (n > st.nr ==> |st.skipped| + (n - st.nr) <= st.maxKeys)
    ensures !Overflows(st.skipped, st.maxKeys, dh, st.nr, n)
  {
    AllAbsent(st.skipped, dh, st.nr, n - 1);
  }

  lemma GapSkips(st: Pair, n: nat, c: Key, t: Pair, whole: bool)
    requires st.receiving == Some(Iterate(c, st.nr)) && st.dhr.Some? && st.nr <= n && (t, whole) == SkipUntil(st, n)
    requires NothingAhead(st.skipped, st.dhr.value, st.nr) && (n > st.nr ==> |st.skipped| + (n - st.nr) <= st.maxKeys)
    ensures whole && t == st.(receiving := Some(Iterate(c, n)), nr := n, skipped := t.skipped)
    ensures |t.skipped| == |st.skipped| + (n - st.nr) && GrownBy(st.skipped, t.skipped, st.dhr.value, st.nr, n)
  {
    GapFits(st, st.dhr.value, n);
    SkipInSyncIff(st, n, t, whole);
    SkipGrows(st, n, t, whole);
    SkipShape(st, n);
    IterateAdds(c, st.nr, n - st.nr);
  }

  lemma GapOverfills(st: Pair, dh: KeyId, n: nat)
    requires st.dhr == Some(dh) && st.nr < n && |st.skipped| + (n - st.nr) > st.maxKeys
    requires NothingAhead(st.skipped, dh, st.nr) || |st.skipped| >= st.maxKeys
    ensures Overflows(st.skipped, st.maxKeys, dh, st.nr, n)
  {
    if |st.skipped| < st.maxKeys {
      AllAbsent(st.skipped, dh, st.nr, n - 1);
    }
  }

  /** A gap for which there is no room: the message is refused and the store is full. */
  lemma GapOverflows(st: Pair, msg: Message, r: Received)
    requires st.receiving.Some? && st.dhr == Some(msg.header.dh) && r == TakeNext(st, msg)
    requires Overflows(st.skipped, st.maxKeys, msg.header.dh, st.nr, msg.header.n)
    ensures r.outcome == StoreFull && r.pair.receiving.Some? && r.pair.nr < msg.header.n
    ensures r.pair == st.(receiving := r.pair.receiving, nr := r.pair.nr, skipped := r.pair.skipped)
    ensures |r.pair.skipped| >= st.maxKeys && GrownBy(st.skipped, r.pair.skipped, msg.header.dh, st.nr, msg.header.n)
  {
    var n := msg.header.n;
    var (t, whole) := SkipUntil(st, n);
    SkipInSyncIff(st, n, t, whole);
    SkipGrows(st, n, t, whole);
    SkipShape(st, n);
  }

  /**
   * On a chain without refusals an honest message at or ahead of the counter, with room for the
   * numbers in between, yields its text, and those numbers are stored with their own keys.
   */
  lemma HonestOpens(p: Point, msg: Message, newLocal: KeyId, c: Key, nr: nat, text: bytes, r: Received)
    requires Drifted(p) && (OpensChain(p.pair, msg.header.dh) || p.refused == 0)
    requires MsgId(msg.header.dh, msg.header.n) !in p.pair.skipped && !Refuses(p.pair, msg.header)
    requires ChainOf(p, msg.header.dh, newLocal) == Some(c)
    requires nr == (if p.pair.dhr == Some(msg.header.dh) then p.pair.nr else 0) && nr <= msg.header.n
    requires msg == Honest(msg.header.dh, msg.header.pn, msg.header.n, c, text) && r == Decrypt(p.pair, msg, newLocal)
    ensures r.outcome == Accepted(text) && r.pair.dhr == Some(msg.header.dh) && r.pair.nr == msg.header.n + 1
    ensures forall k: nat :: nr <= k < msg.header.n ==> HoldsKey(r.pair.skipped, msg.header.dh, c, 0, k)
  {
    var s := Prepare(p.pair, msg.header.dh, newLocal);
    PreparedFrom(p, msg.header.dh, newLocal, s, c, 0);
    assert r == TakeNext(s, msg);
    ChainOpens(s, msg, c, text, r);
  }

  /** A stored key is taken out by the first message with its number, and opens an honest one. */
  lemma StoredOpensOnce(p: Pair, msg: Message, newLocal: KeyId)
    requires MsgId(msg.header.dh, msg.header.n) in p.skipped
    ensures var id := MsgId(msg.header.dh, msg.header.n);
            Decrypt(p, msg, newLocal) ==
            Received(p.(skipped := p.skipped - {id}),
                     match Open(p.skipped[id], msg) case Some(text) => Accepted(text) case None => Rejected)
  {
  }

  /** So a message overtaken on the way yields its text too, and its key is gone. */
  lemma OvertakenOpens(p: Point, msg: Message, newLocal: KeyId, c: Key, nr: nat, text: bytes, k: nat, pn: nat, late: bytes,
                       other: KeyId)
    requires Drifted(p) && (OpensChain(p.pair, msg.header.dh) || p.refused == 0)
    requires MsgId(msg.header.dh, msg.header.n) !in p.pair.skipped && !Refuses(p.pair, msg.header)
    requires ChainOf(p, msg.header.dh, newLocal) == Some(c)
    requires nr == (if p.pair.dhr == Some(msg.header.dh) then p.pair.nr else 0) && nr <= k < msg.header.n
    requires msg == Honest(msg.header.dh, msg.header.pn, msg.header.n, c, text)
    ensures var q := Decrypt(p.pair, msg, newLocal).pair;
            var r := Decrypt(q, Honest(msg.header.dh, pn, k, c, late), other);
            && MsgId(msg.header.dh, k) in q.skipped && r.outcome == Accepted(late)
            && r.pair == q.(skipped := q.skipped - {MsgId(msg.header.dh, k)})
  {
    var r := Decrypt(p.pair, msg, newLocal);
    HonestOpens(p, msg, newLocal, c, nr, text, r);
    assert HoldsKey(r.pair.skipped, msg.header.dh, c, 0, k);
    StoredOpensOnce(r.pair, Honest(msg.header.dh, pn, k, c, late), other);
  }

  /**
   * A new responder with room for two keys gets message 3 first: the counter says 2 and the chain has
   * moved 3 steps, so message 2, sealed as it should be, is rejected when it comes.
   */
  lemma OverflowDesynchronizes(cipher: Cipher, text: bytes)
    ensures var c := ChainStart(Seed(0), Dh(1, 2));
            var st := Initial(Seed(0), 1, Some(2), false, 2);
            var r := Decrypt(st, Message(Header(2, 0, 3), cipher), 7);
            var honest := Message(Header(2, 0, 2), Sealed(MessageKey(Iterate(c, 2)), 2, text));
            && r.outcome == StoreFull && r.pair.nr == 2 && r.pair.receiving == Some(Iterate(c, 3))
            && Decrypt(r.pair, honest, 8).outcome == Rejected
  {
    var c := ChainStart(Seed(0), Dh(1, 2));
    var st := Initial(Seed(0), 1, Some(2), false, 2);
    var one, two := SkipOne(st), SkipOne(SkipOne(st));
    assert SkipUntil(st, 3) == SkipUntil(one, 3) == SkipUntil(two, 3) && |two.skipped| == 2;
    IterateMeasures(c, 2);
    IterateMeasures(c, 3);
  }

  class DoubleRatchet {
    var rootKey: Key
    var dhs: KeyId
    var dhr: Option<KeyId>
    var sending: Option<Key>
    var receiving: Option<Key>
    var ns: nat
    var nr: nat
    var pn: nat
    var skipped: map<MsgId, Key>
    const maxKeys: nat

    ghost function View(): Pair
      reads this
    {
      Pair(rootKey, dhs, dhr, sending, receiving, ns, nr, pn, skipped, maxKeys)
    }

    constructor (seed: Key, local: KeyId, remote: Option<KeyId>, isInitiator: bool, maxKeys: nat)
      ensures View() == Initial(seed, local, remote, isInitiator, maxKeys)
    {
      var root := seed;
      var s, r: Option<Key> := None, None;
      if remote.Some? {
        var p := KdfRoot(seed, SharedSecret(local, remote.value));
        root := p.0;
        if isInitiator {
          s := Some(p.1);
        } else {
          r := Some(p.1);
        }
      }
      rootKey, dhs, dhr, sending, receiving := root, local, remote, s, r;
      ns, nr, pn, skipped := 0, 0, 0, map[];
      this.maxKeys := maxKeys;
    }

    method EncryptMessage(text: bytes) returns (r: SendResult)
      modifies this
      ensures (View(), r) == Encrypt(old(View()), text)
    {
      if sending.None? && dhr.Some? {
        var p := KdfRoot(rootKey, SharedSecret(dhs, dhr.value));
        rootKey, sending, ns := p.0, Some(p.1), 0;
      }
      if sending.None? {
        return NoChain;
      }
      var p := KdfChain(sending.value);
      sending := Some(p.0);
      var msg := Message(Header(dhs, pn, ns), Sealed(p.1, NonceNumber(ns), text));
      ns := ns + 1;
      return Sent(msg);
    }

    /** _skip_message_keys; false when the store refuses a key. */
    method SkipMessageKeys(until: nat) returns (whole: bool)
      requires receiving.Some? ==> dhr.Some?
      modifies this
      ensures old(receiving.None?) ==> View() == old(View()) && whole
      ensures old(receiving.Some?) ==> (View(), whole) == SkipUntil(old(View()), until)
    {
      ghost var st := View();
      if receiving.None? {
        return true;
      }
      while nr < until
        invariant receiving.Some? && dhr.Some?
        invariant SkipUntil(View(), until) == SkipUntil(st, until)
      {
        ghost var before := View();
        var p := KdfChain(receiving.value);
        receiving := Some(p.0);
        if |skipped| >= maxKeys {
          return false;
        }
        skipped := skipped[MsgId(dhr.value, nr) := p.1];
        nr := nr + 1;
        assert View() == SkipOne(before);
      }
      return true;
    }

    method MakeCurrent(dh: KeyId, newLocal: KeyId)
      requires receiving.Some? ==> dhr.Some?
      modifies this
      ensures View() == Prepare(old(View()), dh, newLocal)
    {
      if receiving.None? && dhr == Some(dh) {
        var p := KdfRoot(rootKey, SharedSecret(dhs, dh));
        rootKey, receiving := p.0, Some(p.1);
      }
      if dhr != Some(dh) {
        var none := SkipMessageKeys(nr);
        var p := KdfRoot(rootKey, SharedSecret(dhs, dh));
        pn, ns, nr, dhr := ns, 0, 0, Some(dh);
        rootKey, receiving, dhs, sending := p.0, Some(p.1), newLocal, None;
      }
    }

    method DecryptNext(msg: Message) returns (r: Outcome)
      requires receiving.Some? && dhr.Some?
      modifies this
      ensures Received(View(), r) == TakeNext(old(View()), msg)
    {
      SkipShape(View(), msg.header.n);
      var whole := SkipMessageKeys(msg.header.n);
      if !whole {
        return StoreFull;
      }
      var p := KdfChain(receiving.value);
      receiving := Some(p.0);
      nr := nr + 1;
      var text := Open(p.1, msg);
      return if text.Some? then Accepted(text.value) else Rejected;
    }

    method DecryptMessage(msg: Message, newLocal: KeyId) returns (r: Outcome)
      requires receiving.Some? ==> dhr.Some?
      modifies this
      ensures Received(View(), r) == Decrypt(old(View()), msg, newLocal)
      ensures receiving.Some? ==> dhr.Some?
    {
      ghost var st := View();
      var id := MsgId(msg.header.dh, msg.header.n);
      if id in skipped {
        var key := skipped[id];
        skipped := skipped - {id};
        var text := Open(key, msg);
        return if text.Some? then Accepted(text.value) else Rejected;
      }
      MakeCurrent(id.dh, newLocal);
      if id.n < nr {
        return Duplicate;
      }
      SkipShape(View(), id.n);
      r := DecryptNext(msg);
    }
  }
}

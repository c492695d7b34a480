/**
 * Forward secrecy of the client ratchet (client/crypto/double_ratchet.py): which message keys of the
 * past can still be computed from everything a session holds, by someone who knows every DH result
 * as well.
 */
module ForwardSecrecy {
  import opened Common
  import opened Kdf
  import opened Stores
  import opened Ratchet
  import S = SingleUse

  /** k is known, or one KDF step from a key that can be computed. */
  predicate Derivable(known: set<Key>, k: Key) {
    k in known ||
    match k
    case Seed(_) => false
    case RootNext(r, _) => Derivable(known, r)
    case ChainStart(r, _) => Derivable(known, r)
    case InitChain(r) => Derivable(known, r)
    case ChainNext(c) => Derivable(known, c)
    case MessageKey(c) => Derivable(known, c)
  }

  function OptionSet(k: Option<Key>): set<Key> {
    if k.Some? then {k.value} else {}
  }

  /** Every key in a session: root key, chain keys and stored message keys. */
  function Held(st: State): set<Key> {
    {st.rootKey} + OptionSet(st.sendingChain) + OptionSet(st.receivingChain) + set e | e in st.skipped :: e.key
  }

  // What the keys of a session look like ---------------------------------------------------------------

  predicate IsRoot(k: Key) {
    match k
    case Seed(_) => true
    case RootNext(r, _) => IsRoot(r)
    case _ => false
  }

  predicate IsChain(k: Key) {
    match k
    case InitChain(r) => r.Seed?
    case ChainStart(r, _) => IsRoot(r)
    case ChainNext(c) => IsChain(c)
    case _ => false
  }

  predicate IsMessageKey(k: Key) {
    k.MessageKey? && IsChain(k.chain)
  }

  ghost predicate Shaped(st: State) {
    && IsRoot(st.rootKey)
    && (st.sendingChain.Some? ==> IsChain(st.sendingChain.value))
    && (st.receivingChain.Some? ==> IsChain(st.receivingChain.value))
    && (forall e :: e in st.skipped ==> IsMessageKey(e.key))
  }

  lemma InitialShaped(seed: nat, isInitiator: bool, dhr: Option<KeyId>, dhs: KeyId, maxSkipped: nat)
    ensures Shaped(InitialState(Seed(seed), isInitiator, dhr, dhs, maxSkipped))
  {
  }

  lemma SendShaped(st: State, text: bytes)
    requires Shaped(st)
    ensures var r := Encrypt(st, text); Shaped(r.state) && (r.key.Some? ==> IsMessageKey(r.key.value))
  {
  }

  lemma PrepareShaped(st: State, seed: nat, dh: KeyId, newLocal: KeyId)
    requires Shaped(st) && S.Sound(st, seed)
    ensures Shaped(Prepare(st, dh, newLocal))
  {
  }

  lemma {:induction false} SkipShaped(st: State, until: nat)
    requires Shaped(st) && StoresOk(st) && st.receivingChain.Some? && st.dhr.Some?
    ensures Shaped(SkipUntil(st, until))
    decreases until - st.nr
  {
    if st.nr < until {
      StoreKeepsShape(st.skipped, st.maxSkipped, MsgId(st.dhr.value, st.nr), MessageKey(st.receivingChain.value));
      SkipOneKeepsStores(st);
      SkipShaped(SkipOne(st), until);
    }
  }

  lemma TakeNextShaped(st: State, msg: WireMessage, r: ReceiveStep)
    requires Shaped(st) && StoresOk(st) && st.receivingChain.Some? && st.dhr.Some? && st.nr <= msg.header.n
    requires r == TakeNext(st, msg)
    ensures Shaped(r.state) && r.key.Some? && IsMessageKey(r.key.value)
  {
    SkipShaped(st, msg.header.n);
    TakeNextUnfolds(st, msg, SkipUntil(st, msg.header.n));
  }

  lemma TakeSkippedShaped(st: State, msg: WireMessage, r: ReceiveStep)
    requires Shaped(st) && StoresOk(st) && Has(st.skipped, MsgId(msg.header.dh, msg.header.n))
    requires r == TakeSkipped(st, msg)
    ensures Shaped(r.state) && r.key.Some? && IsMessageKey(r.key.value)
  {
    RemoveKeepsShape(st.skipped, MsgId(msg.header.dh, msg.header.n));
  }

  lemma ReceiveShaped(st: State, seed: nat, msg: WireMessage, newLocal: KeyId, r: ReceiveStep)
    requires Shaped(st) && S.Sound(st, seed) && WireValid(msg.header) && r == Decrypt(st, msg, newLocal)
    ensures Shaped(r.state) && (r.key.Some? ==> IsMessageKey(r.key.value))
  {
    var h := msg.header;
    if Dispatched(st, h) {
      var s := Prepare(st, h.dh, newLocal);
      PrepareReady(st, h.dh, newLocal);
      PrepareShaped(st, seed, h.dh, newLocal);
      if s.nr <= h.n <= s.nr + MAX_SKIP_DISTANCE {
        TakeNextShaped(s, msg, r);
      }
    } else if MsgId(h.dh, h.n) !in st.received && Has(st.skipped, MsgId(h.dh, h.n)) {
      TakeSkippedShaped(st, msg, r);
    }
  }

  lemma CallShaped(st: State, seed: nat, c: S.Call)
    requires Shaped(st) && S.Sound(st, seed) && S.CallOk(c)
    ensures Shaped(S.After(st, c)) && (S.Taken(st, c).Some? ==> IsMessageKey(S.Taken(st, c).value))
  {
    match c {
      case Send(text) => SendShaped(st, text);
      case Receive(msg, newLocal) => ReceiveShaped(st, seed, msg, newLocal, Decrypt(st, msg, newLocal));
    }
  }

  // What can be derived --------------------------------------------------------------------------------

  /** Going up a kdf_root step is not possible. */
  lemma {:induction false} EarlierRootIsSafe(st: State, r: Key)
    requires Shaped(st) && IsRoot(r) && Depth(r) < Depth(st.rootKey)
    ensures !Derivable(Held(st), r)
  {
    assert r !in Held(st);
    if r.RootNext? {
      EarlierRootIsSafe(st, r.root);
    }
  }

  /** The session's chain at the level of c, if it has one there, has moved past c. */
  predicate PastChain(st: State, c: Key) {
    && Level(c) <= Depth(st.rootKey)
    && (st.sendingChain.Some? && Level(c) == Level(st.sendingChain.value) ==>
          Position(c) < Position(st.sendingChain.value))
    && (st.receivingChain.Some? && Level(c) == Level(st.receivingChain.value) ==>
          Position(c) < Position(st.receivingChain.value))
  }

  lemma {:induction false} PastChainIsSafe(st: State, c: Key)
    requires Shaped(st) && IsChain(c) && PastChain(st, c) && (Level(c) > 0 || Depth(st.rootKey) > 0)
    ensures !Derivable(Held(st), c)
  {
    assert c !in Held(st);
    match c {
      case InitChain(r) => EarlierRootIsSafe(st, r);
      case ChainStart(r, _) => EarlierRootIsSafe(st, r);
      case ChainNext(d) => PastChainIsSafe(st, d);
    }
  }

  /** A chain of level 0 starts from the seed itself. */
  lemma {:induction false} FirstChainFromSeed(known: set<Key>, c: Key)
    requires IsChain(c) && Level(c) == 0 && Seed(Origin(c)) in known
    ensures Derivable(known, c)
  {
    if c.ChainNext? {
      FirstChainFromSeed(known, c.chain);
    }
  }

  /** Of the message keys the session is past, it still gives away those stored, and the first chain until the root moves. */
  lemma SafeIff(st: State, seed: nat, k: Key)
    requires Shaped(st) && S.Sound(st, seed) && IsMessageKey(k) && S.Behind(st, seed, k)
    ensures Derivable(Held(st), k) <==>
            (exists e :: e in st.skipped && e.key == k) || (Level(k) == 0 && Depth(st.rootKey) == 0)
  {
    if Level(k) == 0 && Depth(st.rootKey) == 0 {
      assert st.rootKey == Seed(seed);
      FirstChainFromSeed(Held(st), k.chain);
    } else {
      PastChainIsSafe(st, k.chain);
      assert k in Held(st) <==> exists e :: e in st.skipped && e.key == k;
    }
  }

  /** The fate of a used key: it can be computed exactly while it is of the first chain and the root is still the seed. */
  predicate SafeUnlessFirst(st: State, k: Key) {
    Derivable(Held(st), k) <==> Level(k) == 0 && Depth(st.rootKey) == 0
  }

  lemma {:induction false} RunIsSafe(st: State, seed: nat, used: set<Key>, calls: seq<S.Call>)
    requires S.Inv(st, seed, used) && Shaped(st) && (forall k :: k in used ==> IsMessageKey(k))
    requires forall c :: c in calls ==> S.CallOk(c)
    ensures forall k :: k in used ==> SafeUnlessFirst(S.StateAfter(st, calls), k)
    ensures forall u :: u in S.Uses(st, calls) ==> SafeUnlessFirst(S.StateAfter(st, calls), u.key)
    decreases |calls|
  {
    if calls == [] {
      forall k | k in used
        ensures SafeUnlessFirst(st, k)
      {
        SafeIff(st, seed, k);
      }
    } else {
      var c := calls[0];
      assert S.CallOk(c);
      S.CallInv(st, seed, used, c);
      CallShaped(st, seed, c);
      RunIsSafe(S.After(st, c), seed, S.UsedAfter(st, used, c), calls[1..]);
    }
  }

  /**
   * Forward secrecy. After every sequence of sends and receives, a message key that has been used can
   * be computed from the whole session and all DH results if and only if it belongs to the first
   * chain of a session that was created without a remote key and whose root key has not moved on.
   */
  lemma UsedKeysAreSafe(seed: nat, isInitiator: bool, dhr: Option<KeyId>, dhs: KeyId, maxSkipped: nat, calls: seq<S.Call>)
    requires maxSkipped >= 1 && forall c :: c in calls ==> S.CallOk(c)
    ensures var start := InitialState(Seed(seed), isInitiator, dhr, dhs, maxSkipped);
            forall u :: u in S.Uses(start, calls) ==> SafeUnlessFirst(S.StateAfter(start, calls), u.key)
  {
    S.InitialInv(seed, isInitiator, dhr, dhs, maxSkipped);
    InitialShaped(seed, isInitiator, dhr, dhs, maxSkipped);
    RunIsSafe(InitialState(Seed(seed), isInitiator, dhr, dhs, maxSkipped), seed, {}, calls);
  }

  /** A new initiator that has sent one message: its key can be computed from the root key still held. */
  lemma FirstMessageIsExposed(text: bytes)
    ensures var r := Encrypt(InitialState(Seed(0), true, None, 1, 1000), text);
            r.key.Some? && r.outcome.Sent? && r.outcome.msg.cipher.key == r.key.value && Derivable({r.state.rootKey}, r.key.value)
  {
    var k := MessageKey(InitChain(Seed(0)));
    assert Derivable({Seed(0)}, k.chain.root);
    assert Derivable({Seed(0)}, k.chain);
  }
}

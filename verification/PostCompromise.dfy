/**
 * Post-compromise security of the client ratchet (client/crypto/double_ratchet.py): someone copies a
 * whole session and knows some private DH keys. Which keys of the session's future can be computed
 * from that?
 */
module PostCompromise {
  import opened Common
  import opened Kdf
  import opened Stores
  import opened Ratchet
  import S = SingleUse
  import opened ForwardSecrecy

  /** A DH result can be computed with either private key. */
  predicate KnownDh(keys: set<KeyId>, d: Shared) {
    d.low in keys || d.high in keys
  }

  /** k is known, or one KDF step from keys and DH results that can be computed. */
  predicate Computable(known: set<Key>, keys: set<KeyId>, k: Key) {
    k in known ||
    match k
    case Seed(_) => false
    case RootNext(r, d) => KnownDh(keys, d) && Computable(known, keys, r)
    case ChainStart(r, d) => KnownDh(keys, d) && Computable(known, keys, r)
    case InitChain(r) => Computable(known, keys, r)
    case ChainNext(c) => Computable(known, keys, c)
    case MessageKey(c) => Computable(known, keys, c)
  }

  /** Above a depth, the root key took in a DH result that cannot be computed. */
  predicate SecretStep(k: Key, keys: set<KeyId>, depth: nat) {
    k.RootNext? && Depth(k) > depth && (!KnownDh(keys, k.dh) || SecretStep(k.root, keys, depth))
  }

  /** k is base after some kdf_root steps. */
  predicate Extends(k: Key, base: Key) {
    k == base || (k.RootNext? && Extends(k.root, base))
  }

  /** The first key of the chain of a chain or message key. */
  function StartOf(k: Key): Key {
    match k
    case ChainNext(c) => StartOf(c)
    case MessageKey(c) => StartOf(c)
    case _ => k
  }

  /** The chain of k was opened from a root key at or after base. */
  predicate OpenedAfter(k: Key, base: Key) {
    StartOf(k).ChainStart? && Extends(StartOf(k).root, base)
  }

  predicate LateIsOpenedAfter(k: Key, base: Key) {
    Level(k) > Depth(base) ==> OpenedAfter(k, base)
  }

  // The future of a session ----------------------------------------------------------------------------

  /** The root key goes on from base, and so does every chain of a level that base has not reached. */
  ghost predicate GoesOn(st: State, base: Key) {
    && Extends(st.rootKey, base)
    && (st.sendingChain.Some? ==> LateIsOpenedAfter(st.sendingChain.value, base))
    && (st.receivingChain.Some? ==> LateIsOpenedAfter(st.receivingChain.value, base))
    && (forall e :: e in st.skipped ==> LateIsOpenedAfter(e.key, base))
  }

  lemma SendGoesOn(st: State, base: Key, text: bytes)
    requires GoesOn(st, base)
    ensures var r := Encrypt(st, text);
            GoesOn(r.state, base) && (r.key.Some? ==> LateIsOpenedAfter(r.key.value, base))
  {
  }

  lemma PrepareGoesOn(st: State, seed: nat, base: Key, dh: KeyId, newLocal: KeyId)
    requires GoesOn(st, base) && S.Sound(st, seed)
    ensures GoesOn(Prepare(st, dh, newLocal), base)
  {
  }

  lemma {:induction false} SkipGoesOn(st: State, base: Key, until: nat)
    requires GoesOn(st, base) && StoresOk(st) && st.receivingChain.Some? && st.dhr.Some?
    ensures GoesOn(SkipUntil(st, until), base)
    decreases until - st.nr
  {
    if st.nr < until {
      StoreKeepsShape(st.skipped, st.maxSkipped, MsgId(st.dhr.value, st.nr), MessageKey(st.receivingChain.value));
      SkipOneKeepsStores(st);
      SkipGoesOn(SkipOne(st), base, until);
    }
  }

  lemma TakeNextGoesOn(st: State, base: Key, msg: WireMessage, r: ReceiveStep)
    requires GoesOn(st, base) && StoresOk(st) && st.receivingChain.Some? && st.dhr.Some? && st.nr <= msg.header.n
    requires r == TakeNext(st, msg)
    ensures GoesOn(r.state, base) && r.key.Some? && LateIsOpenedAfter(r.key.value, base)
  {
    SkipGoesOn(st, base, msg.header.n);
    TakeNextUnfolds(st, msg, SkipUntil(st, msg.header.n));
  }

  lemma TakeSkippedGoesOn(st: State, base: Key, msg: WireMessage, r: ReceiveStep)
    requires GoesOn(st, base) && StoresOk(st) && Has(st.skipped, MsgId(msg.header.dh, msg.header.n))
    requires r == TakeSkipped(st, msg)
    ensures GoesOn(r.state, base) && r.key.Some? && LateIsOpenedAfter(r.key.value, base)
  {
    RemoveKeepsShape(st.skipped, MsgId(msg.header.dh, msg.header.n));
  }

  lemma ReceiveGoesOn(st: State, seed: nat, base: Key, msg: WireMessage, newLocal: KeyId, r: ReceiveStep)
    requires GoesOn(st, base) && S.Sound(st, seed) && WireValid(msg.header) && r == Decrypt(st, msg, newLocal)
    ensures GoesOn(r.state, base) && (r.key.Some? ==> LateIsOpenedAfter(r.key.value, base))
  {
    var h := msg.header;
    if Dispatched(st, h) {
      var s := Prepare(st, h.dh, newLocal);
      PrepareReady(st, h.dh, newLocal);
      PrepareGoesOn(st, seed, base, h.dh, newLocal);
      if s.nr <= h.n <= s.nr + MAX_SKIP_DISTANCE {
        TakeNextGoesOn(s, base, msg, r);
      }
    } else if MsgId(h.dh, h.n) !in st.received && Has(st.skipped, MsgId(h.dh, h.n)) {
      TakeSkippedGoesOn(st, base, msg, r);
    }
  }

  lemma CallGoesOn(st: State, seed: nat, base: Key, c: S.Call)
    requires GoesOn(st, base) && S.Sound(st, seed) && S.CallOk(c)
    ensures GoesOn(S.After(st, c), base)
    ensures S.Taken(st, c).Some? ==> LateIsOpenedAfter(S.Taken(st, c).value, base)
  {
    match c {
      case Send(text) => SendGoesOn(st, base, text);
      case Receive(msg, newLocal) => ReceiveGoesOn(st, seed, base, msg, newLocal, Decrypt(st, msg, newLocal));
    }
  }

  ghost predicate Reachable(st: State, seed: nat) {
    Shaped(st) && S.Sound(st, seed)
  }

  lemma SoundIsInv(st: State, seed: nat)
    requires S.Sound(st, seed)
    ensures S.Inv(st, seed, {})
  {
  }

  lemma SoundCall(st: State, seed: nat, c: S.Call)
    requires S.Sound(st, seed) && S.CallOk(c)
    ensures S.Sound(S.After(st, c), seed)
  {
    SoundIsInv(st, seed);
    S.CallInv(st, seed, {}, c);
  }

  /** Over every sequence of calls the session stays well-shaped and goes on from where it was. */
  lemma {:induction false} RunGoesOn(st: State, seed: nat, base: Key, calls: seq<S.Call>)
    requires Reachable(st, seed) && GoesOn(st, base) && forall c :: c in calls ==> S.CallOk(c)
    ensures Reachable(S.StateAfter(st, calls), seed) && GoesOn(S.StateAfter(st, calls), base)
    ensures forall u :: u in S.Uses(st, calls) ==> IsMessageKey(u.key) && LateIsOpenedAfter(u.key, base)
    decreases |calls|
  {
    if calls != [] {
      var c := calls[0];
      assert S.CallOk(c);
      SoundCall(st, seed, c);
      CallShaped(st, seed, c);
      CallGoesOn(st, seed, base, c);
      RunGoesOn(S.After(st, c), seed, base, calls[1..]);
    }
  }

  /** A session goes on from its own root key. */
  lemma GoesOnFromItself(st: State, seed: nat)
    requires S.Sound(st, seed)
    ensures GoesOn(st, st.rootKey)
  {
  }

  // What can be computed -------------------------------------------------------------------------------

  /** The root key of the future can be computed exactly until a DH result that cannot has gone into it. */
  lemma {:induction false} RootComputableIff(st: State, seed: nat, keys: set<KeyId>, k: Key)
    requires Reachable(st, seed) && IsRoot(k) && Extends(k, st.rootKey)
    ensures Depth(k) >= Depth(st.rootKey)
    ensures Computable(Held(st), keys, k) <==> !SecretStep(k, keys, Depth(st.rootKey))
  {
    if k != st.rootKey {
      RootComputableIff(st, seed, keys, k.root);
      assert k !in Held(st);
    }
  }

  lemma {:induction false} SecretStaysIn(k: Key, base: Key, keys: set<KeyId>, depth: nat)
    requires Extends(k, base) && SecretStep(base, keys, depth)
    ensures SecretStep(k, keys, depth) && Depth(k) >= Depth(base)
  {
    if k != base {
      SecretStaysIn(k.root, base, keys, depth);
    }
  }

  lemma {:induction false} ExtendsTwice(k: Key, mid: Key, base: Key)
    requires Extends(k, mid) && Extends(mid, base)
    ensures Extends(k, base)
  {
    if k != mid {
      ExtendsTwice(k.root, mid, base);
    }
  }

  /** Neither can a chain opened after that. */
  lemma {:induction false} LaterChainIsSafe(st: State, seed: nat, keys: set<KeyId>, base: Key, c: Key)
    requires Reachable(st, seed) && IsChain(c) && OpenedAfter(c, base)
    requires Extends(base, st.rootKey) && SecretStep(base, keys, Depth(st.rootKey))
    ensures !Computable(Held(st), keys, c) && Level(c) > Depth(st.rootKey)
  {
    if c.ChainNext? {
      LaterChainIsSafe(st, seed, keys, base, c.chain);
    } else {
      SecretStaysIn(c.root, base, keys, Depth(st.rootKey));
      ExtendsTwice(c.root, base, st.rootKey);
      RootComputableIff(st, seed, keys, c.root);
    }
    assert c !in Held(st);
  }

  lemma LaterKeyIsSafe(st: State, seed: nat, keys: set<KeyId>, base: Key, k: Key)
    requires Reachable(st, seed) && IsMessageKey(k) && OpenedAfter(k, base)
    requires Extends(base, st.rootKey) && SecretStep(base, keys, Depth(st.rootKey))
    ensures !Computable(Held(st), keys, k)
  {
    LaterChainIsSafe(st, seed, keys, base, k.chain);
    assert k !in Held(st);
  }

  /**
   * Post-compromise security. A reachable session is copied, and any calls follow. The root key can
   * then be computed from the copy if and only if every DH result since can be. Once one could not,
   * no message key of a chain opened after that can ever be computed, whatever is sent or received.
   */
  lemma SessionHeals(st: State, seed: nat, keys: set<KeyId>, calls: seq<S.Call>, later: seq<S.Call>)
    requires Reachable(st, seed) && (forall c :: c in calls ==> S.CallOk(c)) && (forall c :: c in later ==> S.CallOk(c))
    ensures var mid := S.StateAfter(st, calls);
            && StoresOk(mid)
            && (Computable(Held(st), keys, mid.rootKey) <==> !SecretStep(mid.rootKey, keys, Depth(st.rootKey)))
            && (SecretStep(mid.rootKey, keys, Depth(st.rootKey)) ==>
                  && !Computable(Held(st), keys, S.StateAfter(mid, later).rootKey)
                  && forall u :: u in S.Uses(mid, later) && Level(u.key) > Depth(mid.rootKey) ==>
                                   !Computable(Held(st), keys, u.key))
  {
    var mid := S.StateAfter(st, calls);
    GoesOnFromItself(st, seed);
    RunGoesOn(st, seed, st.rootKey, calls);
    RootComputableIff(st, seed, keys, mid.rootKey);
    if SecretStep(mid.rootKey, keys, Depth(st.rootKey)) {
      Healed(st, seed, keys, mid, later);
    }
  }

  lemma Healed(st: State, seed: nat, keys: set<KeyId>, mid: State, later: seq<S.Call>)
    requires Reachable(st, seed) && Reachable(mid, seed) && Extends(mid.rootKey, st.rootKey)
    requires SecretStep(mid.rootKey, keys, Depth(st.rootKey)) && forall c :: c in later ==> S.CallOk(c)
    ensures !Computable(Held(st), keys, S.StateAfter(mid, later).rootKey)
    ensures forall u :: u in S.Uses(mid, later) && Level(u.key) > Depth(mid.rootKey) ==> !Computable(Held(st), keys, u.key)
  {
    GoesOnFromItself(mid, seed);
    RunGoesOn(mid, seed, mid.rootKey, later);
    var end := S.StateAfter(mid, later);
    SecretStaysIn(end.rootKey, mid.rootKey, keys, Depth(st.rootKey));
    ExtendsTwice(end.rootKey, mid.rootKey, st.rootKey);
    RootComputableIff(st, seed, keys, end.rootKey);
    forall u | u in S.Uses(mid, later) && Level(u.key) > Depth(mid.rootKey)
      ensures !Computable(Held(st), keys, u.key)
    {
      LaterKeyIsSafe(st, seed, keys, mid.rootKey, u.key);
    }
  }

  /** Every session that calls lead to from its creation is one the theorem speaks about. */
  lemma CreatedIsReachable(seed: nat, isInitiator: bool, dhr: Option<KeyId>, dhs: KeyId, maxSkipped: nat, calls: seq<S.Call>)
    requires maxSkipped >= 1 && forall c :: c in calls ==> S.CallOk(c)
    ensures var start := InitialState(Seed(seed), isInitiator, dhr, dhs, maxSkipped);
            StoresOk(start) && Reachable(S.StateAfter(start, calls), seed)
  {
    var start := InitialState(Seed(seed), isInitiator, dhr, dhs, maxSkipped);
    S.InitialInv(seed, isInitiator, dhr, dhs, maxSkipped);
    InitialShaped(seed, isInitiator, dhr, dhs, maxSkipped);
    GoesOnFromItself(start, seed);
    RunGoesOn(start, seed, start.rootKey, calls);
  }
}

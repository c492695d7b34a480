/**
 * Every message key of one engine is used at most once (client/crypto/double_ratchet.py).
 *
 * The argument is a measure on symbolic keys: each kdf_root step opens a chain at a level no chain
 * has had before, and inside a chain the position only moves forward.
 */
module SingleUse {
  import opened Common
  import opened Kdf
  import opened Stores
  import opened Ratchet

  datatype Call = Send(text: bytes) | Receive(msg: WireMessage, newLocal: KeyId)

  /** One message key taken, and for which direction. */
  datatype Use = Use(sending: bool, key: Key)

  predicate CallOk(c: Call) {
    c.Receive? ==> WireValid(c.msg.header)
  }

  function After(st: State, c: Call): State
    requires CallOk(c) && st.maxSkipped >= 1 && st.maxReceived >= 1
  {
    match c
    case Send(text) => Encrypt(st, text).state
    case Receive(msg, newLocal) => Decrypt(st, msg, newLocal).state
  }

  function Taken(st: State, c: Call): Option<Key>
    requires CallOk(c) && st.maxSkipped >= 1 && st.maxReceived >= 1
  {
    match c
    case Send(text) => Encrypt(st, text).key
    case Receive(msg, newLocal) => Decrypt(st, msg, newLocal).key
  }

  /** The message keys a sequence of calls takes, in order. */
  function Uses(st: State, calls: seq<Call>): seq<Use>
    requires StoresOk(st) && forall c :: c in calls ==> CallOk(c)
    decreases |calls|
  {
    if calls == [] then [] else
      CallKeepsStores(st, calls[0]);
      var rest := Uses(After(st, calls[0]), calls[1..]);
      match Taken(st, calls[0])
      case None => rest
      case Some(key) => [Use(calls[0].Send?, key)] + rest
  }

  /** A key that the engine can no longer derive: its chain is over or has moved past it. */
  predicate Behind(st: State, seed: nat, k: Key) {
    && Origin(k) == seed
    && Level(k) <= Depth(st.rootKey)
    && (st.sendingChain.Some? && Level(k) == Level(st.sendingChain.value) ==> Position(k) < st.ns)
    && (st.receivingChain.Some? && Level(k) == Level(st.receivingChain.value) ==> Position(k) < st.nr)
  }

  predicate ChainAt(st: State, seed: nat, chain: Option<Key>, counter: nat) {
    chain.Some? ==>
      && Origin(chain.value) == seed
      && Level(chain.value) <= Depth(st.rootKey)
      && Position(chain.value) == counter
  }

  ghost predicate DistinctKeys(s: seq<Entry>) {
    forall e, f :: e in s && f in s && e.key == f.key ==> e == f
  }

  ghost predicate Sound(st: State, seed: nat) {
    && StoresOk(st)
    && Origin(st.rootKey) == seed
    && ChainAt(st, seed, st.sendingChain, st.ns)
    && ChainAt(st, seed, st.receivingChain, st.nr)
    && (st.sendingChain.Some? && st.receivingChain.Some? ==>
          Level(st.sendingChain.value) != Level(st.receivingChain.value))
    && (st.receivingChain.None? ==> st.nr == 0)
    && (st.dhr.None? ==> st.nr == 0 && (st.sendingChain.Some? <==> st.receivingChain.None?))
    && (forall e :: e in st.skipped ==> Behind(st, seed, e.key) && Position(e.key) == e.id.n)
    && DistinctKeys(st.skipped)
  }

  ghost predicate Inv(st: State, seed: nat, used: set<Key>) {
    && Sound(st, seed)
    && (forall k :: k in used ==> Behind(st, seed, k))
    && (forall e :: e in st.skipped ==> e.key !in used)
  }

  lemma CallKeepsStores(st: State, c: Call)
    requires StoresOk(st) && CallOk(c)
    ensures StoresOk(After(st, c))
  {
    if c.Receive? {
      ReceiveIsBounded(st, c.msg, c.newLocal);
    }
  }

  lemma InitialInv(seed: nat, isInitiator: bool, dhr: Option<KeyId>, dhs: KeyId, maxSkipped: nat)
    requires maxSkipped >= 1
    ensures Inv(InitialState(Seed(seed), isInitiator, dhr, dhs, maxSkipped), seed, {})
  {
  }

  lemma StepSendInv(st: State, seed: nat, used: set<Key>)
    requires Inv(st, seed, used)
    ensures st.sendingChain.None? ==> Inv(StepSend(st), seed, used)
  {
  }

  lemma ChainSendsInv(st: State, seed: nat, used: set<Key>, key: Key)
    requires Inv(st, seed, used) && st.sendingChain.Some? && key == MessageKey(st.sendingChain.value)
    ensures key !in used && Position(key) == st.ns
    ensures Inv(st.(sendingChain := Some(ChainNext(st.sendingChain.value)), ns := st.ns + 1), seed, used + {key})
  {
    assert !Behind(st, seed, key);
  }

  lemma SendInv(st: State, seed: nat, used: set<Key>, text: bytes)
    requires Inv(st, seed, used)
    ensures var r := Encrypt(st, text);
            && (r.key.None? ==> r.state == st)
            && (r.key.Some? ==> r.key.value !in used && Inv(r.state, seed, used + {r.key.value})
                                && Position(r.key.value) == r.outcome.msg.header.n)
  {
    var s := if st.sendingChain.None? then StepSend(st) else st;
    StepSendInv(st, seed, used);
    if s.sendingChain.Some? {
      ChainSendsInv(s, seed, used, MessageKey(s.sendingChain.value));
    }
  }

  lemma PrepareInv(st: State, seed: nat, used: set<Key>, dh: KeyId, newLocal: KeyId)
    requires Inv(st, seed, used)
    ensures Inv(Prepare(st, dh, newLocal), seed, used)
  {
  }

  /** The receiving chain moves by one and its key goes into a store that keeps no other new key. */
  lemma KeyStoredInv(st: State, seed: nat, used: set<Key>, id: MsgId, store: seq<Entry>)
    requires Inv(st, seed, used) && st.receivingChain.Some? && st.dhr.Some? && id.n == st.nr
    requires StoresOk(st.(skipped := store))
    requires forall e :: e in store ==> e == Entry(id, MessageKey(st.receivingChain.value)) || e in st.skipped
    ensures Inv(st.(receivingChain := Some(ChainNext(st.receivingChain.value)), skipped := store, nr := st.nr + 1),
                seed, used)
  {
    var key := MessageKey(st.receivingChain.value);
    var s := st.(receivingChain := Some(ChainNext(st.receivingChain.value)), skipped := store, nr := st.nr + 1);
    assert !Behind(st, seed, key) && Behind(s, seed, key);
    assert forall k :: Behind(st, seed, k) ==> Behind(s, seed, k);
  }

  lemma SkipOneInv(st: State, seed: nat, used: set<Key>)
    requires Inv(st, seed, used) && st.receivingChain.Some? && st.dhr.Some?
    ensures Inv(SkipOne(st), seed, used)
  {
    var key := MessageKey(st.receivingChain.value);
    var id := MsgId(st.dhr.value, st.nr);
    StoreKeepsShape(st.skipped, st.maxSkipped, id, key);
    KeyStoredInv(st, seed, used, id, Store(st.skipped, st.maxSkipped, id, key));
  }

  lemma {:induction false} SkipUntilInv(st: State, seed: nat, used: set<Key>, until: nat)
    requires Inv(st, seed, used) && st.receivingChain.Some? && st.dhr.Some?
    ensures Inv(SkipUntil(st, until), seed, used)
    decreases until - st.nr
  {
    if st.nr < until {
      SkipOneInv(st, seed, used);
      SkipUntilInv(SkipOne(st), seed, used, until);
    }
  }

  lemma ReceivedOnlyInv(st: State, s: State, seed: nat, used: set<Key>)
    requires Inv(st, seed, used) && s == st.(received := s.received) && StoresOk(s)
    ensures Inv(s, seed, used)
  {
    assert forall k :: Behind(st, seed, k) ==> Behind(s, seed, k);
  }

  /** Taking the next key of the receiving chain. */
  lemma NextKeyInv(st: State, seed: nat, used: set<Key>)
    requires Inv(st, seed, used) && st.receivingChain.Some? && st.dhr.Some?
    ensures var c := st.receivingChain.value;
            && MessageKey(c) !in used
            && Inv(st.(receivingChain := Some(ChainNext(c)), nr := st.nr + 1), seed, used + {MessageKey(c)})
  {
    var c := st.receivingChain.value;
    var s := st.(receivingChain := Some(ChainNext(c)), nr := st.nr + 1);
    assert !Behind(st, seed, MessageKey(c)) && Behind(s, seed, MessageKey(c));
    assert forall k :: Behind(st, seed, k) ==> Behind(s, seed, k);
  }

  lemma TakeNextInv(st: State, seed: nat, used: set<Key>, msg: WireMessage)
    requires Inv(st, seed, used) && st.receivingChain.Some? && st.dhr.Some? && st.nr <= msg.header.n
    ensures var r := TakeNext(st, msg);
            && r.key.Some? && r.key.value !in used && Inv(r.state, seed, used + {r.key.value})
            && Position(r.key.value) == msg.header.n
  {
    var s := SkipUntil(st, msg.header.n);
    SkipUntilInv(st, seed, used, msg.header.n);
    SkipUntilKeepsChain(st, msg.header.n);
    var c := s.receivingChain.value;
    var next := s.(receivingChain := Some(ChainNext(c)), nr := s.nr + 1);
    NextKeyInv(s, seed, used);
    FinishKeepsStores(next, MessageKey(c), msg);
    ReceivedOnlyInv(next, TakeNext(st, msg).state, seed, used + {MessageKey(c)});
  }

  lemma KeyRemovedInv(st: State, seed: nat, used: set<Key>, e: Entry, store: seq<Entry>)
    requires Inv(st, seed, used) && e in st.skipped
    requires StoresOk(st.(skipped := store))
    requires forall f :: f in store ==> f in st.skipped && f != e
    ensures e.key !in used && Inv(st.(skipped := store), seed, used + {e.key})
  {
    var s := st.(skipped := store);
    assert forall k :: Behind(st, seed, k) ==> Behind(s, seed, k);
  }

  lemma TakeSkippedInv(st: State, seed: nat, used: set<Key>, msg: WireMessage)
    requires Inv(st, seed, used) && Has(st.skipped, MsgId(msg.header.dh, msg.header.n))
    ensures var r := TakeSkipped(st, msg);
            && r.key.Some? && r.key.value !in used && Inv(r.state, seed, used + {r.key.value})
            && Position(r.key.value) == msg.header.n
  {
    var id := MsgId(msg.header.dh, msg.header.n);
    var e := st.skipped[Find(st.skipped, id)];
    RemoveKeepsShape(st.skipped, id);
    var next := st.(skipped := Remove(st.skipped, id));
    KeyRemovedInv(st, seed, used, e, Remove(st.skipped, id));
    FinishKeepsStores(next, e.key, msg);
    ReceivedOnlyInv(next, TakeSkipped(st, msg).state, seed, used + {e.key});
  }

  lemma ReceiveInv(st: State, seed: nat, used: set<Key>, msg: WireMessage, newLocal: KeyId)
    requires Inv(st, seed, used) && WireValid(msg.header)
    ensures var r := Decrypt(st, msg, newLocal);
            && (r.key.None? ==> Inv(r.state, seed, used))
            && (r.key.Some? ==> r.key.value !in used && Inv(r.state, seed, used + {r.key.value})
                                && Position(r.key.value) == msg.header.n)
            && (r.outcome.Accepted? ==> r.key.Some? && Open(r.key.value, msg) == Some(r.outcome.text))
  {
    var h := msg.header;
    if Dispatched(st, h) {
      var s := Prepare(st, h.dh, newLocal);
      PrepareReady(st, h.dh, newLocal);
      PrepareInv(st, seed, used, h.dh, newLocal);
      if s.nr <= h.n <= s.nr + MAX_SKIP_DISTANCE {
        TakeNextInv(s, seed, used, msg);
      }
    } else if MsgId(h.dh, h.n) !in st.received && Has(st.skipped, MsgId(h.dh, h.n)) {
      TakeSkippedInv(st, seed, used, msg);
    }
  }

  /** The keys used so far, after one more call. */
  function UsedAfter(st: State, used: set<Key>, c: Call): set<Key>
    requires CallOk(c) && st.maxSkipped >= 1 && st.maxReceived >= 1
  {
    match Taken(st, c)
    case None => used
    case Some(key) => used + {key}
  }

  lemma CallInv(st: State, seed: nat, used: set<Key>, c: Call)
    requires Inv(st, seed, used) && CallOk(c)
    ensures Taken(st, c).Some? ==> Taken(st, c).value !in used
    ensures Inv(After(st, c), seed, UsedAfter(st, used, c))
  {
    match c {
      case Send(text) => SendInv(st, seed, used, text);
      case Receive(msg, newLocal) => ReceiveInv(st, seed, used, msg, newLocal);
    }
  }

  ghost predicate NoKeyTwice(us: seq<Use>) {
    forall i, j :: 0 <= i < j < |us| ==> us[i].key != us[j].key
  }

  lemma ConsNoKeyTwice(u: Use, rest: seq<Use>)
    requires NoKeyTwice(rest) && forall v :: v in rest ==> v.key != u.key
    ensures NoKeyTwice([u] + rest)
  {
    var us := [u] + rest;
    assert forall j :: 0 < j < |us| ==> us[j] == rest[j - 1] && us[j] in rest;
  }

  /**
   * Over every sequence of sends and receives, with arbitrary headers, nonces and ciphertexts, no
   * message key is taken twice; in particular no key serves both directions.
   */
  lemma {:induction false} UsesDistinct(st: State, seed: nat, used: set<Key>, calls: seq<Call>)
    requires Inv(st, seed, used) && forall c :: c in calls ==> CallOk(c)
    ensures forall u :: u in Uses(st, calls) ==> u.key !in used
    ensures NoKeyTwice(Uses(st, calls))
    decreases |calls|
  {
    if calls != [] {
      var c := calls[0];
      assert CallOk(c);
      CallInv(st, seed, used, c);
      var s, k := After(st, c), Taken(st, c);
      UsesDistinct(s, seed, UsedAfter(st, used, c), calls[1..]);
      var rest := Uses(s, calls[1..]);
      if k.Some? {
        assert forall u :: u in rest ==> u.key !in used + {k.value};
        ConsNoKeyTwice(Use(c.Send?, k.value), rest);
      }
    }
  }

  lemma SingleUseFromStart(seed: nat, isInitiator: bool, dhr: Option<KeyId>, dhs: KeyId, maxSkipped: nat, calls: seq<Call>)
    requires maxSkipped >= 1 && forall c :: c in calls ==> CallOk(c)
    ensures NoKeyTwice(Uses(InitialState(Seed(seed), isInitiator, dhr, dhs, maxSkipped), calls))
  {
    InitialInv(seed, isInitiator, dhr, dhs, maxSkipped);
    UsesDistinct(InitialState(Seed(seed), isInitiator, dhr, dhs, maxSkipped), seed, {}, calls);
  }

  function StateAfter(st: State, calls: seq<Call>): State
    requires StoresOk(st) && forall c :: c in calls ==> CallOk(c)
    decreases |calls|
  {
    if calls == [] then st else
      CallKeepsStores(st, calls[0]);
      StateAfter(After(st, calls[0]), calls[1..])
  }

  lemma {:induction false} RunSound(st: State, seed: nat, used: set<Key>, calls: seq<Call>)
    requires Inv(st, seed, used) && forall c :: c in calls ==> CallOk(c)
    ensures Sound(StateAfter(st, calls), seed)
    decreases |calls|
  {
    if calls != [] {
      assert CallOk(calls[0]);
      CallInv(st, seed, used, calls[0]);
      RunSound(After(st, calls[0]), seed, UsedAfter(st, used, calls[0]), calls[1..]);
    }
  }

  /** In every reachable session a duplicate report leaves the session exactly as it was. */
  lemma ReachableDuplicateChangesNothing(seed: nat, isInitiator: bool, dhr: Option<KeyId>, dhs: KeyId, maxSkipped: nat,
                                         calls: seq<Call>, msg: WireMessage, newLocal: KeyId)
    requires maxSkipped >= 1 && (forall c :: c in calls ==> CallOk(c)) && WireValid(msg.header)
    ensures var start := InitialState(Seed(seed), isInitiator, dhr, dhs, maxSkipped);
            var st := StateAfter(start, calls);
            && StoresOk(st)
            && (Decrypt(st, msg, newLocal).outcome.Duplicate? ==> Decrypt(st, msg, newLocal).state == st)
  {
    InitialInv(seed, isInitiator, dhr, dhs, maxSkipped);
    var start := InitialState(Seed(seed), isInitiator, dhr, dhs, maxSkipped);
    RunSound(start, seed, {}, calls);
    var st := StateAfter(start, calls);
    if Decrypt(st, msg, newLocal).outcome.Duplicate? {
      DuplicateChangesNothing(st, msg, newLocal);
    }
  }
}

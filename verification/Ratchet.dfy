/**
 * The client double ratchet engine (client/crypto/double_ratchet.py): the session state, one function
 * per engine step, and the engine object proved to compute exactly those steps.
 */
module Ratchet {
  import opened Common
  import opened Kdf
  import opened Stores

  const MAX_SKIP_DISTANCE: nat := 5000

  datatype Header = Header(dh: KeyId, n: nat, pn: nat)

  /** Associated data: the key and both numbers as 32-bit big-endian integers. */
  datatype Aad = Aad(dh: KeyId, n: nat, pn: nat)

  datatype Nonce = NonceOf(key: Key, n: nat) | OtherNonce(id: nat)

  /** An AEAD ciphertext remembers what it was sealed with; anything else on the wire is junk. */
  datatype Cipher = Sealed(key: Key, nonce: Nonce, aad: Aad, text: bytes) | Junk(id: nat)

  datatype WireMessage = WireMessage(header: Header, cipher: Cipher, nonce: Nonce)

  /** What wire_message_from_dict lets through (client/crypto/message.py). */
  predicate WireValid(h: Header) {
    h.n < U32_LIMIT && h.pn < U32_LIMIT
  }

  function HeaderAad(h: Header): Aad {
    Aad(h.dh, h.n % U32_LIMIT, h.pn % U32_LIMIT)
  }

  function MessageNonce(key: Key, n: nat): Nonce {
    NonceOf(key, n % U32_LIMIT)
  }

  /** The associated data binds the key and the low 32 bits of both numbers, and the nonce key and number. */
  lemma SealingBinds(h: Header, g: Header, k: Key, l: Key, m: nat, n: nat)
    ensures HeaderAad(h) == HeaderAad(g) <==>
            h.dh == g.dh && h.n % U32_LIMIT == g.n % U32_LIMIT && h.pn % U32_LIMIT == g.pn % U32_LIMIT
    ensures MessageNonce(k, m) == MessageNonce(l, n) <==> k == l && m % U32_LIMIT == n % U32_LIMIT
  {
  }

  function Seal(key: Key, h: Header, text: bytes): WireMessage {
    var nonce := MessageNonce(key, h.n);
    WireMessage(h, Sealed(key, nonce, HeaderAad(h), text), nonce)
  }

  function Open(key: Key, msg: WireMessage): Option<bytes> {
    var nonce := MessageNonce(key, msg.header.n);
    if msg.nonce == nonce && msg.cipher.Sealed? && msg.cipher.key == key && msg.cipher.nonce == nonce
       && msg.cipher.aad == HeaderAad(msg.header)
    then Some(msg.cipher.text)
    else None
  }

  datatype State = State(
    rootKey: Key,
    sendingChain: Option<Key>,
    receivingChain: Option<Key>,
    dhs: KeyId,
    dhr: Option<KeyId>,
    ns: nat,
    nr: nat,
    pn: nat,
    skipped: seq<Entry>,
    received: seq<MsgId>,
    maxSkipped: nat,
    maxReceived: nat)

  ghost predicate StoresOk(st: State) {
    && st.maxSkipped >= 1 && st.maxReceived >= 1
    && UniqueEntries(st.skipped) && |st.skipped| <= st.maxSkipped
    && UniqueIds(st.received) && |st.received| <= st.maxReceived
  }

  datatype SendOutcome = Sent(msg: WireMessage) | NoSendingChain

  datatype Outcome = Accepted(text: bytes) | Duplicate | SkipTooFar | Rejected

  /** A step also reports the message key it took, if it took one. */
  datatype SendStep = SendStep(state: State, outcome: SendOutcome, key: Option<Key>)

  datatype ReceiveStep = ReceiveStep(state: State, outcome: Outcome, key: Option<Key>)

  function InitialState(seed: Key, isInitiator: bool, dhr: Option<KeyId>, dhs: KeyId, maxSkipped: nat): State {
    var (root, chain) :=
      if dhr.Some? then KdfRoot(seed, SharedSecret(dhs, dhr.value)) else (seed, InitChain(seed));
    State(root,
          if isInitiator then Some(chain) else None,
          if isInitiator then None else Some(chain),
          dhs, dhr, 0, 0, 0, [], [], maxSkipped, 2000)
  }

  // Sending ---------------------------------------------------------------------------------------

  function StepSend(st: State): State {
    if st.dhr.None? then st else
      var (root, chain) := KdfRoot(st.rootKey, SharedSecret(st.dhs, st.dhr.value));
      st.(rootKey := root, sendingChain := Some(chain), ns := 0)
  }

  function Encrypt(st: State, text: bytes): SendStep {
    var s := if st.sendingChain.None? then StepSend(st) else st;
    if s.sendingChain.None? then SendStep(s, NoSendingChain, None) else
      var (chain, key) := KdfChain(s.sendingChain.value);
      var h := Header(s.dhs, s.ns, s.pn);
      SendStep(s.(sendingChain := Some(chain), ns := s.ns + 1), Sent(Seal(key, h, text)), Some(key))
  }

  // Receiving -------------------------------------------------------------------------------------

  function TurnReceive(st: State, dh: KeyId, newLocal: KeyId): State {
    var (root, chain) := KdfRoot(st.rootKey, SharedSecret(st.dhs, dh));
    st.(pn := st.ns, ns := 0, nr := 0, dhr := Some(dh), rootKey := root,
    receivingChain := Some(chain), dhs := newLocal, sendingChain := None)
  }

  /** The five-way dispatch that makes the header's key the current remote key. */
  function Prepare(st: State, dh: KeyId, newLocal: KeyId): State {
    var s :=
      if st.dhr.None? && st.receivingChain.Some? && st.sendingChain.None? then
        st.(dhr := Some(dh))
      else if st.dhr.None? && st.sendingChain.Some? then
        TurnReceive(st, dh, newLocal)
      else if st.receivingChain.None? && st.dhr.None? then
        st.(dhr := Some(dh), receivingChain := Some(InitChain(st.rootKey)))
      else if st.receivingChain.None? && st.dhr == Some(dh) then
        var (root, chain) := KdfRoot(st.rootKey, SharedSecret(st.dhs, dh));
        st.(rootKey := root, receivingChain := Some(chain))
      else
        st;
    if s.dhr != Some(dh) then TurnReceive(s, dh, newLocal) else s
  }

  function SkipOne(st: State): State
    requires st.receivingChain.Some? && st.dhr.Some? && st.maxSkipped >= 1
  {
    var (chain, key) := KdfChain(st.receivingChain.value);
    st.(receivingChain := Some(chain),
    skipped := Store(st.skipped, st.maxSkipped, MsgId(st.dhr.value, st.nr), key),
    nr := st.nr + 1)
  }

  function SkipUntil(st: State, until: nat): State
    requires st.receivingChain.Some? && st.dhr.Some? && st.maxSkipped >= 1
    decreases until - st.nr
  {
    if st.nr >= until then st else SkipUntil(SkipOne(st), until)
  }

  function Finish(st: State, key: Key, msg: WireMessage): ReceiveStep
    requires st.maxReceived >= 1
  {
    match Open(key, msg)
    case None => ReceiveStep(st, Rejected, Some(key))
    case Some(text) =>
      var id := MsgId(msg.header.dh, msg.header.n);
      ReceiveStep(st.(received := Remember(st.received, st.maxReceived, id)), Accepted(text), Some(key))
  }

  function TakeSkipped(st: State, msg: WireMessage): ReceiveStep
    requires Has(st.skipped, MsgId(msg.header.dh, msg.header.n)) && st.maxReceived >= 1
  {
    var id := MsgId(msg.header.dh, msg.header.n);
    Finish(st.(skipped := Remove(st.skipped, id)), st.skipped[Find(st.skipped, id)].key, msg)
  }

  function TakeNext(st: State, msg: WireMessage): ReceiveStep
    requires st.receivingChain.Some? && st.dhr.Some? && st.maxSkipped >= 1 && st.maxReceived >= 1
  {
    var s := SkipUntil(st, msg.header.n);
    SkipUntilKeepsChain(st, msg.header.n);
    var (chain, key) := KdfChain(s.receivingChain.value);
    Finish(s.(receivingChain := Some(chain), nr := s.nr + 1), key, msg)
  }

  function Decrypt(st: State, msg: WireMessage, newLocal: KeyId): ReceiveStep
    requires st.maxSkipped >= 1 && st.maxReceived >= 1 && WireValid(msg.header)
  {
    var h := msg.header;
    var id := MsgId(h.dh, h.n);
    if id in st.received then ReceiveStep(st, Duplicate, None)
    else if Has(st.skipped, id) then TakeSkipped(st, msg)
    else if st.dhr == Some(h.dh) && h.n < st.nr then ReceiveStep(st, Duplicate, None)
    else
      var s := Prepare(st, h.dh, newLocal);
      if h.n < s.nr then ReceiveStep(s, Duplicate, None)
      else if h.n - s.nr > MAX_SKIP_DISTANCE then ReceiveStep(s, SkipTooFar, None)
      else TakeNext(s, msg)
  }

  /** Whether a message gets past the replay window, the skipped keys and the stale-number check. */
  predicate Dispatched(st: State, h: Header) {
    && MsgId(h.dh, h.n) !in st.received
    && !Has(st.skipped, MsgId(h.dh, h.n))
    && !(st.dhr == Some(h.dh) && h.n < st.nr)
  }

  /** Which answer a message gets before any key is tried. */
  lemma OutcomeIff(st: State, msg: WireMessage, newLocal: KeyId)
    requires st.maxSkipped >= 1 && st.maxReceived >= 1 && WireValid(msg.header)
    ensures var h, r := msg.header, Decrypt(st, msg, newLocal);
            var s := Prepare(st, h.dh, newLocal);
            && (r.outcome.SkipTooFar? <==> Dispatched(st, h) && h.n > s.nr + 5000)
            && (r.outcome.Duplicate? <==>
                  || MsgId(h.dh, h.n) in st.received
                  || (!Has(st.skipped, MsgId(h.dh, h.n)) && st.dhr == Some(h.dh) && h.n < st.nr)
                  || (Dispatched(st, h) && h.n < s.nr))
            && (r.outcome.Accepted? || r.outcome.Rejected? <==> r.key.Some?)
  {
  }

  /** Skipping only moves the receiving chain, its counter and the skipped keys. */
  lemma {:induction false} SkipUntilKeepsChain(st: State, until: nat)
    requires st.receivingChain.Some? && st.dhr.Some? && st.maxSkipped >= 1
    ensures var s := SkipUntil(st, until);
            && s.receivingChain.Some?
            && s.nr == (if st.nr >= until then st.nr else until)
            && s.receivingChain.value == Iterate(st.receivingChain.value, s.nr - st.nr)
            && s == st.(receivingChain := s.receivingChain, nr := s.nr, skipped := s.skipped)
    decreases until - st.nr
  {
    if st.nr < until {
      SkipUntilKeepsChain(SkipOne(st), until);
      IterateAdds(st.receivingChain.value, 1, until - st.nr - 1);
      assert Iterate(st.receivingChain.value, 1) == ChainNext(Iterate(st.receivingChain.value, 0));
    }
  }

  lemma SkipOneKeepsStores(st: State)
    requires st.receivingChain.Some? && st.dhr.Some? && StoresOk(st)
    ensures StoresOk(SkipOne(st))
  {
    StoreKeepsShape(st.skipped, st.maxSkipped, MsgId(st.dhr.value, st.nr), MessageKey(st.receivingChain.value));
  }

  lemma {:induction false} SkipUntilKeepsStores(st: State, until: nat)
    requires st.receivingChain.Some? && st.dhr.Some? && StoresOk(st)
    ensures StoresOk(SkipUntil(st, until))
    decreases until - st.nr
  {
    if st.nr < until {
      SkipOneKeepsStores(st);
      SkipUntilKeepsStores(SkipOne(st), until);
    }
  }

  /** After the dispatch, whatever the state was, the header's key is current and has a chain. */
  lemma PrepareReady(st: State, dh: KeyId, newLocal: KeyId)
    ensures var s := Prepare(st, dh, newLocal);
            && s.dhr == Some(dh) && s.receivingChain.Some?
            && s.skipped == st.skipped && s.received == st.received
            && s.maxSkipped == st.maxSkipped && s.maxReceived == st.maxReceived
  {
  }

  lemma FinishKeepsStores(st: State, key: Key, msg: WireMessage)
    requires StoresOk(st)
    ensures var r := Finish(st, key, msg);
            && StoresOk(r.state) && r.state == st.(received := r.state.received) && r.key == Some(key)
            && (r.outcome.Accepted? ==> MsgId(msg.header.dh, msg.header.n) in r.state.received)
            && (r.outcome.Accepted? || (r.outcome.Rejected? && r.state == st))
  {
    RememberKeepsShape(st.received, st.maxReceived, MsgId(msg.header.dh, msg.header.n));
  }

  lemma TakeSkippedKeepsStores(st: State, msg: WireMessage)
    requires StoresOk(st) && Has(st.skipped, MsgId(msg.header.dh, msg.header.n))
    ensures var r := TakeSkipped(st, msg);
            && StoresOk(r.state) && r.state == st.(received := r.state.received, skipped := r.state.skipped)
            && (r.outcome.Accepted? ==> MsgId(msg.header.dh, msg.header.n) in r.state.received)
  {
    var id := MsgId(msg.header.dh, msg.header.n);
    RemoveKeepsShape(st.skipped, id);
    FinishKeepsStores(st.(skipped := Remove(st.skipped, id)), st.skipped[Find(st.skipped, id)].key, msg);
  }

  /** A stored key that fits opens the message and is gone. */
  lemma TakeSkippedOpens(st: State, msg: WireMessage, e: Entry, text: bytes, r: ReceiveStep)
    requires StoresOk(st) && e in st.skipped && e.id == MsgId(msg.header.dh, msg.header.n)
    requires Open(e.key, msg) == Some(text) && Has(st.skipped, e.id) && r == TakeSkipped(st, msg)
    ensures r.outcome == Accepted(text) && r.key == Some(e.key)
    ensures r.state == st.(skipped := Remove(st.skipped, e.id), received := Remember(st.received, st.maxReceived, e.id))
  {
    EntryIsUnique(st.skipped, e, st.skipped[Find(st.skipped, e.id)]);
  }

  lemma TakeNextUnfolds(st: State, msg: WireMessage, s: State)
    requires st.receivingChain.Some? && st.dhr.Some? && st.maxSkipped >= 1 && st.maxReceived >= 1
    requires s == SkipUntil(st, msg.header.n) && st.nr <= msg.header.n
    ensures s.receivingChain.Some? && s.maxReceived >= 1 && s.nr == msg.header.n
    ensures var c := s.receivingChain.value;
            TakeNext(st, msg) ==
            Finish(s.(receivingChain := Some(ChainNext(c)), nr := msg.header.n + 1), MessageKey(c), msg)
    ensures s == st.(receivingChain := s.receivingChain, nr := s.nr, skipped := s.skipped)
  {
    SkipUntilKeepsChain(st, msg.header.n);
    assert KdfChain(s.receivingChain.value) == (ChainNext(s.receivingChain.value), MessageKey(s.receivingChain.value));
  }

  lemma TakeNextAdvances(st: State, msg: WireMessage)
    requires StoresOk(st) && st.receivingChain.Some? && st.dhr.Some? && st.nr <= msg.header.n
    ensures var r := TakeNext(st, msg);
            && StoresOk(r.state) && r.state.receivingChain.Some? && r.state.nr == msg.header.n + 1
            && r.state.receivingChain.value == Iterate(st.receivingChain.value, r.state.nr - st.nr)
            && r.state == st.(receivingChain := r.state.receivingChain, nr := r.state.nr,
                              skipped := SkipUntil(st, msg.header.n).skipped, received := r.state.received)
            && r.key == Some(MessageKey(Iterate(st.receivingChain.value, msg.header.n - st.nr)))
            && (r.outcome.Accepted? ==> MsgId(msg.header.dh, msg.header.n) in r.state.received)
  {
    var n := msg.header.n;
    var s := SkipUntil(st, n);
    SkipUntilKeepsChain(st, n);
    SkipUntilKeepsStores(st, n);
    var c := s.receivingChain.value;
    var next := s.(receivingChain := Some(ChainNext(c)), nr := n + 1);
    assert StoresOk(next);
    assert TakeNext(st, msg) == Finish(next, MessageKey(c), msg);
    FinishKeepsStores(next, MessageKey(c), msg);
    assert Iterate(st.receivingChain.value, n + 1 - st.nr) == ChainNext(c);
  }

  /** A text comes out of the receiving chain only for a ciphertext sealed under the key of its number. */
  lemma TakeNextOpens(st: State, msg: WireMessage, r: ReceiveStep)
    requires StoresOk(st) && st.receivingChain.Some? && st.dhr.Some? && st.nr <= msg.header.n
    requires r == TakeNext(st, msg)
    ensures r.outcome.Accepted? <==> Open(MessageKey(Iterate(st.receivingChain.value, msg.header.n - st.nr)), msg).Some?
  {
    SkipUntilKeepsChain(st, msg.header.n);
  }

  /** The next expected message, with room in the replay window. */
  lemma ReceiveHead(st: State, msg: WireMessage, newLocal: KeyId, s: State, text: bytes)
    requires st.maxSkipped >= 1 && st.maxReceived >= 1 && WireValid(msg.header) && Dispatched(st, msg.header)
    requires s == Prepare(st, msg.header.dh, newLocal) && s.nr == msg.header.n && s.receivingChain.Some?
    requires Open(MessageKey(s.receivingChain.value), msg) == Some(text)
    requires |s.received| < s.maxReceived
    ensures var c := s.receivingChain.value;
            Decrypt(st, msg, newLocal) ==
            ReceiveStep(s.(receivingChain := Some(ChainNext(c)), nr := s.nr + 1,
                           received := s.received + [MsgId(msg.header.dh, msg.header.n)]),
                        Accepted(text), Some(MessageKey(c)))
  {
    PrepareReady(st, msg.header.dh, newLocal);
    assert Decrypt(st, msg, newLocal) == TakeNext(s, msg);
    TakeNextUnfolds(s, msg, s);
  }

  /**
   * A receive step from any state: at most 5001 chain keys are derived after the dispatch, both
   * stores stay within capacity, and an accepted message is remembered.
   */
  lemma ReceiveIsBounded(st: State, msg: WireMessage, newLocal: KeyId)
    requires StoresOk(st) && WireValid(msg.header)
    ensures Bounded(st, msg, newLocal, Decrypt(st, msg, newLocal))
  {
    var h := msg.header;
    var r := Decrypt(st, msg, newLocal);
    if Dispatched(st, h) {
      PrepareReady(st, h.dh, newLocal);
      DispatchedIsBounded(st, msg, newLocal, Prepare(st, h.dh, newLocal), r);
    } else if Has(st.skipped, MsgId(h.dh, h.n)) {
      TakeSkippedKeepsStores(st, msg);
    }
  }

  ghost predicate Bounded(st: State, msg: WireMessage, newLocal: KeyId, r: ReceiveStep) {
    && StoresOk(r.state)
    && (r.outcome.Accepted? ==> MsgId(msg.header.dh, msg.header.n) in r.state.received)
    && (!Dispatched(st, msg.header) ==>
          r.state.receivingChain == st.receivingChain && r.state.rootKey == st.rootKey)
    && (Dispatched(st, msg.header) ==> Advanced(Prepare(st, msg.header.dh, newLocal), msg, r.state))
  }

  /** From the dispatched state s: the header's key is current, and at most 5001 chain keys are derived. */
  ghost predicate Advanced(s: State, msg: WireMessage, after: State) {
    && s.dhr == Some(msg.header.dh) && s.receivingChain.Some?
    && after.receivingChain.Some? && after.rootKey == s.rootKey
    && s.nr <= after.nr <= s.nr + MAX_SKIP_DISTANCE + 1
    && after.receivingChain.value == Iterate(s.receivingChain.value, after.nr - s.nr)
  }

  lemma DispatchedIsBounded(st: State, msg: WireMessage, newLocal: KeyId, s: State, r: ReceiveStep)
    requires StoresOk(s) && WireValid(msg.header) && Dispatched(st, msg.header)
    requires st.maxSkipped >= 1 && st.maxReceived >= 1
    requires s == Prepare(st, msg.header.dh, newLocal) && s.dhr == Some(msg.header.dh) && s.receivingChain.Some?
    requires r == Decrypt(st, msg, newLocal)
    ensures StoresOk(r.state) && Advanced(s, msg, r.state)
    ensures r.outcome.Accepted? ==> MsgId(msg.header.dh, msg.header.n) in r.state.received
  {
    if s.nr <= msg.header.n <= s.nr + MAX_SKIP_DISTANCE {
      assert r == TakeNext(s, msg);
      TakeNextAdvances(s, msg);
    }
  }

  /**
   * A duplicate report leaves the session unchanged as long as a session without a remote key has
   * received nothing, which every reachable session satisfies.
   */
  lemma DuplicateChangesNothing(st: State, msg: WireMessage, newLocal: KeyId)
    requires st.maxSkipped >= 1 && st.maxReceived >= 1 && WireValid(msg.header)
    requires st.dhr.None? ==> st.nr == 0
    requires Decrypt(st, msg, newLocal).outcome.Duplicate?
    ensures Decrypt(st, msg, newLocal).state == st
  {
  }

  // The engine object -----------------------------------------------------------------------------

  class DoubleRatchetEngine {
    var rootKey: Key
    var sendingChain: Option<Key>
    var receivingChain: Option<Key>
    var dhs: KeyId
    var dhr: Option<KeyId>
    var ns: nat
    var nr: nat
    var pn: nat
    const skipped: SkippedMessageKeys
    const received: ReceivedIdsStore

    ghost predicate Valid()
      reads this, skipped, received
    {
      StoresOk(View())
    }

    ghost function View(): State
      reads this, skipped, received
    {
      State(rootKey, sendingChain, receivingChain, dhs, dhr, ns, nr, pn,
            skipped.store, received.order, skipped.maxKeys, received.maxSize)
    }

    constructor (seed: Key, isInitiator: bool, remote: Option<KeyId>, local: KeyId, maxSkipped: nat)
      requires maxSkipped >= 1
      ensures Valid() && fresh(skipped) && fresh(received)
      ensures View() == InitialState(seed, isInitiator, remote, local, maxSkipped)
    {
      var root, chain := seed, InitChain(seed);
      if remote.Some? {
        var p := KdfRoot(seed, SharedSecret(local, remote.value));
        root, chain := p.0, p.1;
      }
      rootKey := root;
      sendingChain := if isInitiator then Some(chain) else None;
      receivingChain := if isInitiator then None else Some(chain);
      dhs, dhr := local, remote;
      ns, nr, pn := 0, 0, 0;
      skipped := new SkippedMessageKeys(maxSkipped);
      received := new ReceivedIdsStore(2000);
    }

    method StepSendChain()
      modifies this
      ensures View() == StepSend(old(View()))
    {
      if dhr.None? {
        return;
      }
      var p := KdfRoot(rootKey, SharedSecret(dhs, dhr.value));
      rootKey := p.0;
      sendingChain := Some(p.1);
      ns := 0;
    }

    /** ratchet_encrypt */
    method RatchetEncrypt(text: bytes) returns (r: SendOutcome)
      requires Valid()
      modifies this
      ensures Valid()
      ensures View() == Encrypt(old(View()), text).state
      ensures r == Encrypt(old(View()), text).outcome
    {
      if sendingChain.None? {
        StepSendChain();
      }
      if sendingChain.None? {
        return NoSendingChain;
      }
      var p := KdfChain(sendingChain.value);
      sendingChain := Some(p.0);
      var msg := Seal(p.1, Header(dhs, ns, pn), text);
      ns := ns + 1;
      return Sent(msg);
    }

    method TurnToRemote(dh: KeyId, newLocal: KeyId)
      modifies this
      ensures View() == TurnReceive(old(View()), dh, newLocal)
    {
      pn := ns;
      ns := 0;
      nr := 0;
      dhr := Some(dh);
      var p := KdfRoot(rootKey, SharedSecret(dhs, dh));
      rootKey := p.0;
      receivingChain := Some(p.1);
      dhs := newLocal;
      sendingChain := None;
    }

    /** One round of the skip loop. */
    method SkipReceivingOne()
      requires Valid() && receivingChain.Some? && dhr.Some? && nr < U32_LIMIT
      modifies this, skipped
      ensures Valid() && View() == SkipOne(old(View()))
      ensures receivingChain.Some? && dhr.Some? && nr == old(nr) + 1
    {
      SkipOneKeepsStores(View());
      var p := KdfChain(receivingChain.value);
      receivingChain := Some(p.0);
      var stored := skipped.Add(MsgId(dhr.value, nr), p.1);
      nr := nr + 1;
    }

    /** _skip_receiving_until */
    method SkipReceivingUntil(until: nat)
      requires Valid() && (until <= nr || until <= U32_LIMIT)
      modifies this, skipped
      ensures Valid()
      ensures var st := old(View());
              if st.receivingChain.Some? && st.dhr.Some?
              then View() == SkipUntil(st, until)
              else View() == st
    {
      ghost var st := View();
      if receivingChain.None? || dhr.None? {
        return;
      }
      while nr < until
        invariant receivingChain.Some? && dhr.Some? && Valid() && (until <= nr || until <= U32_LIMIT)
        invariant SkipUntil(View(), until) == SkipUntil(st, until)
      {
        ghost var before := View();
        SkipReceivingOne();
        assert SkipUntil(before, until) == SkipUntil(View(), until);
      }
    }

    method MakeCurrent(dh: KeyId, newLocal: KeyId)
      requires Valid()
      modifies this, skipped
      ensures Valid()
      ensures View() == Prepare(old(View()), dh, newLocal)
    {
      if dhr.None? && receivingChain.Some? && sendingChain.None? {
        dhr := Some(dh);
      } else if dhr.None? && sendingChain.Some? {
        SkipReceivingUntil(nr);
        TurnToRemote(dh, newLocal);
      } else if receivingChain.None? && dhr.None? {
        SkipReceivingUntil(nr);
        dhr := Some(dh);
        receivingChain := Some(InitChain(rootKey));
      } else if receivingChain.None? && dhr == Some(dh) {
        var p := KdfRoot(rootKey, SharedSecret(dhs, dh));
        rootKey := p.0;
        receivingChain := Some(p.1);
      }
      if dhr != Some(dh) {
        SkipReceivingUntil(nr);
        TurnToRemote(dh, newLocal);
      }
    }

    method Accept(key: Key, msg: WireMessage) returns (r: Outcome)
      requires Valid() && WireValid(msg.header)
      modifies received
      ensures Valid()
      ensures View() == Finish(old(View()), key, msg).state
      ensures r == Finish(old(View()), key, msg).outcome
    {
      FinishKeepsStores(View(), key, msg);
      var text := Open(key, msg);
      if text.None? {
        return Rejected;
      }
      var added := received.Add(MsgId(msg.header.dh, msg.header.n));
      return Accepted(text.value);
    }

    method DecryptNext(msg: WireMessage) returns (r: Outcome)
      requires Valid() && WireValid(msg.header) && receivingChain.Some? && dhr.Some? && nr <= msg.header.n
      modifies this, skipped, received
      ensures Valid()
      ensures View() == TakeNext(old(View()), msg).state
      ensures r == TakeNext(old(View()), msg).outcome
    {
      SkipUntilKeepsChain(View(), msg.header.n);
      SkipReceivingUntil(msg.header.n);
      var p := KdfChain(receivingChain.value);
      receivingChain := Some(p.0);
      nr := nr + 1;
      r := Accept(p.1, msg);
    }

    /** ratchet_decrypt; newLocal is the key pair that a DH turn would generate. */
    method RatchetDecrypt(msg: WireMessage, newLocal: KeyId) returns (r: Outcome)
      requires Valid() && WireValid(msg.header)
      modifies this, skipped, received
      ensures Valid()
      ensures View() == Decrypt(old(View()), msg, newLocal).state
      ensures r == Decrypt(old(View()), msg, newLocal).outcome
    {
      ghost var st := View();
      var h := msg.header;
      var id := MsgId(h.dh, h.n);
      var seen := received.Contains(id);
      if seen {
        return Duplicate;
      }
      if Has(skipped.store, id) {
        RemoveKeepsShape(skipped.store, id);
        var stored := skipped.Pop(id);
        r := Accept(stored.value, msg);
        return;
      }
      if dhr == Some(h.dh) && h.n < nr {
        return Duplicate;
      }
      MakeCurrent(h.dh, newLocal);
      PrepareReady(st, h.dh, newLocal);
      if h.n < nr {
        return Duplicate;
      }
      if receivingChain.Some? && h.n - nr > MAX_SKIP_DISTANCE {
        return SkipTooFar;
      }
      r := DecryptNext(msg);
    }
  }
}

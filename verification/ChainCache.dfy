/**
 * What the receiving chain and the skipped keys of one engine stand for, over every sequence of calls
 * in which a remote key once left does not come back (client/crypto/double_ratchet.py).
 *
 * A history next to the session records the first chain key seen under each remote key, how far that
 * chain was taken, which numbers were attempted and which stored keys were evicted.
 */
module ChainCache {
  import opened Common
  import opened Kdf
  import opened Stores
  import opened Ratchet
  import S = SingleUse

  datatype History = History(starts: map<KeyId, Key>, reached: map<KeyId, nat>, attempted: set<MsgId>, evicted: set<MsgId>)

  /** The chain of the id's remote key has been taken past its number. */
  predicate Covered(h: History, id: MsgId) {
    id.dh in h.starts && id.dh in h.reached && id.n < h.reached[id.dh]
  }

  function KeyNumber(h: History, id: MsgId): Key
    requires id.dh in h.starts
  {
    MessageKey(Iterate(h.starts[id.dh], id.n))
  }

  /** Covered numbers split into attempted, evicted and stored ones. */
  ghost predicate Splits(h: History, store: seq<Entry>) {
    && (forall id: MsgId :: Covered(h, id) <==> id in h.attempted || id in h.evicted || Has(store, id))
    && h.attempted !! h.evicted
    && (forall e :: e in store ==> e.id !in h.attempted && e.id !in h.evicted)
  }

  ghost predicate StoredKeysFit(h: History, store: seq<Entry>) {
    forall e :: e in store ==> e.id.dh in h.starts && e.key == KeyNumber(h, e.id)
  }

  /** The current chain is the recorded one, nr steps on; before there is one, the history is empty. */
  predicate ChainFits(h: History, st: State) {
    if st.dhr.Some? && st.receivingChain.Some? then
      && st.dhr.value in h.starts && st.dhr.value in h.reached
      && h.reached[st.dhr.value] == st.nr
      && st.receivingChain.value == Iterate(h.starts[st.dhr.value], st.nr)
    else
      h == EMPTY && st.nr == 0 && st.skipped == []
  }

  const EMPTY := History(map[], map[], {}, {})

  ghost predicate Fits(h: History, st: State) {
    && StoresOk(st)
    && h.starts.Keys == h.reached.Keys
    && ChainFits(h, st)
    && StoredKeysFit(h, st.skipped)
    && Splits(h, st.skipped)
  }

  // How the history grows ---------------------------------------------------------------------------

  function IdsOf(s: seq<Entry>): set<MsgId> {
    set e | e in s :: e.id
  }

  /** The ids that an insertion pushes out of the store. */
  function PushedOut(st: State): set<MsgId>
    requires st.maxSkipped >= 1
  {
    IdsOf(st.skipped[..|st.skipped| - |Evict(st.skipped, st.maxSkipped)|])
  }

  function AfterSkipOne(h: History, st: State): History
    requires st.dhr.Some? && st.maxSkipped >= 1
  {
    h.(reached := h.reached[st.dhr.value := st.nr + 1], evicted := h.evicted + PushedOut(st))
  }

  function AfterSkips(h: History, st: State, until: nat): History
    requires st.receivingChain.Some? && st.dhr.Some? && st.maxSkipped >= 1
    decreases until - st.nr
  {
    if st.nr >= until then h else AfterSkips(AfterSkipOne(h, st), SkipOne(st), until)
  }

  function AfterPrepare(h: History, s: State): History
    requires s.receivingChain.Some? && s.dhr.Some?
  {
    if s.dhr.value in h.starts then h
    else h.(starts := h.starts[s.dhr.value := s.receivingChain.value], reached := h.reached[s.dhr.value := 0])
  }

  function AfterReceive(h: History, st: State, msg: WireMessage, newLocal: KeyId): History
    requires st.maxSkipped >= 1 && st.maxReceived >= 1
  {
    var id := MsgId(msg.header.dh, msg.header.n);
    if Dispatched(st, msg.header) then
      PrepareReady(st, msg.header.dh, newLocal);
      var s := Prepare(st, msg.header.dh, newLocal);
      var h' := AfterPrepare(h, s);
      if id.n < s.nr || id.n - s.nr > MAX_SKIP_DISTANCE then h'
      else
        var k := AfterSkips(h', s, id.n);
        k.(reached := k.reached[id.dh := id.n + 1], attempted := k.attempted + {id})
    else if id !in st.received && Has(st.skipped, id) then h.(attempted := h.attempted + {id})
    else h
  }

  /** A turn goes to a remote key that has had no chain yet. */
  predicate NoReturn(h: History, st: State, msg: WireMessage) {
    Dispatched(st, msg.header) && st.dhr != Some(msg.header.dh) ==> msg.header.dh !in h.starts
  }

  // Preservation ------------------------------------------------------------------------------------

  lemma InitialFits(seed: nat, isInitiator: bool, dhr: Option<KeyId>, dhs: KeyId, maxSkipped: nat)
    requires maxSkipped >= 1
    ensures var st := InitialState(Seed(seed), isInitiator, dhr, dhs, maxSkipped);
            var h := if st.dhr.Some? && st.receivingChain.Some? then AfterPrepare(EMPTY, st) else EMPTY;
            Fits(h, st)
  {
  }

  lemma SendFits(h: History, st: State, text: bytes)
    requires Fits(h, st)
    ensures Fits(h, Encrypt(st, text).state)
  {
  }

  lemma PrepareFits(h: History, st: State, dh: KeyId, newLocal: KeyId, s: State)
    requires Fits(h, st) && (st.dhr != Some(dh) ==> dh !in h.starts) && s == Prepare(st, dh, newLocal)
    ensures s.dhr == Some(dh) && s.receivingChain.Some? && Fits(AfterPrepare(h, s), s)
  {
    PrepareReady(st, dh, newLocal);
    var h' := AfterPrepare(h, s);
    if dh !in h.starts {
      assert forall id: MsgId :: Covered(h', id) <==> Covered(h, id);
    }
  }

  /** Eviction splits the store into what is pushed out and what stays. */
  lemma EvictionSplits(s: seq<Entry>, cap: nat, j: MsgId)
    requires cap >= 1 && UniqueEntries(s)
    ensures var v := Evict(s, cap);
            var out := IdsOf(s[..|s| - |v|]);
            && (Has(s, j) <==> j in out || Has(v, j))
            && !(j in out && Has(v, j))
  {
    var v := Evict(s, cap);
    var gone := s[..|s| - |v|];
    assert s == gone + v;
    HasMember(s, j);
    HasMember(v, j);
    forall a, b | 0 <= a < |gone| && 0 <= b < |v|
      ensures gone[a].id != v[b].id
    {
      assert EntriesDiffer(s, a, |gone| + b);
    }
  }

  lemma StoreOfNew(s: seq<Entry>, cap: nat, id: MsgId, key: Key, j: MsgId)
    requires cap >= 1 && UniqueEntries(s) && !Has(s, id)
    ensures var out := IdsOf(s[..|s| - |Evict(s, cap)|]);
            Has(Store(s, cap, id, key), j) <==> j == id || (Has(s, j) && j !in out)
  {
    var v := Evict(s, cap);
    EvictionSplits(s, cap, id);
    EvictionSplits(s, cap, j);
    HasMember(v, j);
    HasMember(v + [Entry(id, key)], j);
    assert Store(s, cap, id, key) == v + [Entry(id, key)];
    assert Entry(id, key) in v + [Entry(id, key)];
  }

  lemma PushedOutWasStored(s: seq<Entry>, cap: nat, j: MsgId)
    requires cap >= 1 && UniqueEntries(s) && j in IdsOf(s[..|s| - |Evict(s, cap)|])
    ensures Has(s, j)
  {
    EvictionSplits(s, cap, j);
  }

  lemma SplitsAfterStore(h: History, st: State, h': History, id: MsgId, key: Key, store: seq<Entry>)
    requires StoresOk(st) && Splits(h, st.skipped) && !Covered(h, id) && store == Store(st.skipped, st.maxSkipped, id, key)
    requires h'.attempted == h.attempted && h'.evicted == h.evicted + PushedOut(st)
    requires forall j: MsgId :: Covered(h', j) <==> Covered(h, j) || j == id
    ensures Splits(h', store)
  {
    assert !Has(st.skipped, id) && id !in h.attempted && id !in h.evicted;
    forall j: MsgId
      ensures Covered(h', j) <==> j in h'.attempted || j in h'.evicted || Has(store, j)
    {
      StoreOfNew(st.skipped, st.maxSkipped, id, key, j);
      EvictionSplits(st.skipped, st.maxSkipped, j);
      assert Covered(h, j) <==> j in h.attempted || j in h.evicted || Has(st.skipped, j);
    }
    forall j | j in PushedOut(st)
      ensures j !in h.attempted && Covered(h, j)
    {
      PushedOutWasStored(st.skipped, st.maxSkipped, j);
      HasMember(st.skipped, j);
    }
    forall e | e in store
      ensures e.id !in h'.attempted && e.id !in h'.evicted
    {
      HasMember(store, e.id);
      StoreOfNew(st.skipped, st.maxSkipped, id, key, e.id);
      HasMember(st.skipped, e.id);
    }
  }

  lemma SkipOneFits(h: History, st: State, h': History, s: State)
    requires Fits(h, st) && st.dhr.Some? && st.receivingChain.Some?
    requires h' == AfterSkipOne(h, st) && s == SkipOne(st)
    ensures Fits(h', s) && s.dhr == st.dhr && s.receivingChain.Some? && s.nr == st.nr + 1
  {
    var id := MsgId(st.dhr.value, st.nr);
    var key := MessageKey(st.receivingChain.value);
    assert !Covered(h, id);
    StoreKeepsShape(st.skipped, st.maxSkipped, id, key);
    SplitsAfterStore(h, st, h', id, key, s.skipped);
    assert key == KeyNumber(h', id);
  }

  lemma {:induction false} SkipsFit(h: History, st: State, until: nat)
    requires Fits(h, st) && st.dhr.Some? && st.receivingChain.Some?
    ensures Fits(AfterSkips(h, st, until), SkipUntil(st, until))
    ensures AfterSkips(h, st, until).starts == h.starts
    decreases until - st.nr
  {
    if st.nr < until {
      var h', s := AfterSkipOne(h, st), SkipOne(st);
      SkipOneFits(h, st, h', s);
      SkipsFit(h', s, until);
    }
  }

  /** Taking the head of the chain, whatever becomes of the message. */
  lemma HeadFits(h: History, st: State, id: MsgId, s: State)
    requires Fits(h, st) && st.receivingChain.Some? && st.dhr == Some(id.dh) && id.n == st.nr
    requires s == st.(receivingChain := Some(ChainNext(st.receivingChain.value)), nr := st.nr + 1, received := s.received)
    requires StoresOk(s)
    ensures Fits(h.(reached := h.reached[id.dh := id.n + 1], attempted := h.attempted + {id}), s)
  {
    var h' := h.(reached := h.reached[id.dh := id.n + 1], attempted := h.attempted + {id});
    assert !Covered(h, id);
    HasMember(st.skipped, id);
    assert forall j: MsgId :: Covered(h', j) <==> Covered(h, j) || j == id;
  }

  lemma TakeNextFits(h: History, st: State, msg: WireMessage, h': History, s: State, r: ReceiveStep)
    requires Fits(h, st) && st.receivingChain.Some? && st.dhr == Some(msg.header.dh) && st.nr <= msg.header.n
    requires s == SkipUntil(st, msg.header.n) && h' == AfterSkips(h, st, msg.header.n)
    requires r == TakeNext(st, msg)
    ensures var id := MsgId(msg.header.dh, msg.header.n);
            Fits(h'.(reached := h'.reached[id.dh := id.n + 1], attempted := h'.attempted + {id}), r.state)
  {
    SkipsFit(h, st, msg.header.n);
    TakeNextUnfolds(st, msg, s);
    var c := s.receivingChain.value;
    var next := s.(receivingChain := Some(ChainNext(c)), nr := msg.header.n + 1);
    FinishKeepsStores(next, MessageKey(c), msg);
    HeadFits(h', s, MsgId(msg.header.dh, msg.header.n), r.state);
  }

  lemma TakeSkippedFits(h: History, st: State, id: MsgId, s: State)
    requires Fits(h, st) && Has(st.skipped, id)
    requires s == st.(skipped := Remove(st.skipped, id), received := s.received) && StoresOk(s)
    ensures Fits(h.(attempted := h.attempted + {id}), s)
  {
    var h' := h.(attempted := h.attempted + {id});
    RemoveKeepsShape(st.skipped, id);
    HasMember(st.skipped, id);
    forall j: MsgId
      ensures Covered(h', j) <==> j in h'.attempted || j in h'.evicted || Has(s.skipped, j)
    {
      HasMember(st.skipped, j);
      HasMember(s.skipped, j);
      assert Covered(h', j) <==> Covered(h, j);
    }
  }

  lemma DispatchFits(h: History, st: State, msg: WireMessage, newLocal: KeyId, s: State, r: ReceiveStep)
    requires Fits(h, st) && WireValid(msg.header) && NoReturn(h, st, msg) && Dispatched(st, msg.header)
    requires s == Prepare(st, msg.header.dh, newLocal) && r == Decrypt(st, msg, newLocal)
    ensures Fits(AfterReceive(h, st, msg, newLocal), r.state)
  {
    var n := msg.header.n;
    PrepareFits(h, st, msg.header.dh, newLocal, s);
    if s.nr <= n <= s.nr + MAX_SKIP_DISTANCE {
      var h' := AfterPrepare(h, s);
      assert r == TakeNext(s, msg);
      TakeNextFits(h', s, msg, AfterSkips(h', s, n), SkipUntil(s, n), r);
    }
  }

  lemma ReceiveFits(h: History, st: State, msg: WireMessage, newLocal: KeyId, r: ReceiveStep)
    requires Fits(h, st) && WireValid(msg.header) && NoReturn(h, st, msg)
    requires r == Decrypt(st, msg, newLocal)
    ensures Fits(AfterReceive(h, st, msg, newLocal), r.state)
  {
    var id := MsgId(msg.header.dh, msg.header.n);
    if Dispatched(st, msg.header) {
      DispatchFits(h, st, msg, newLocal, Prepare(st, id.dh, newLocal), r);
    } else if id !in st.received && Has(st.skipped, id) {
      assert r == TakeSkipped(st, msg);
      TakeSkippedKeepsStores(st, msg);
      TakeSkippedState(st, msg, r);
      TakeSkippedFits(h, st, id, r.state);
    }
  }

  lemma TakeSkippedState(st: State, msg: WireMessage, r: ReceiveStep)
    requires StoresOk(st) && Has(st.skipped, MsgId(msg.header.dh, msg.header.n)) && r == TakeSkipped(st, msg)
    ensures r.state == st.(skipped := Remove(st.skipped, MsgId(msg.header.dh, msg.header.n)), received := r.state.received)
  {
  }

  // Runs --------------------------------------------------------------------------------------------

  datatype Point = Point(st: State, h: History)

  ghost predicate IsStep(p: Point, c: S.Call, q: Point) {
    && StoresOk(p.st) && S.CallOk(c) && q.st == S.After(p.st, c)
    && match c
       case Send(_) => q.h == p.h
       case Receive(msg, newLocal) => NoReturn(p.h, p.st, msg) && q.h == AfterReceive(p.h, p.st, msg, newLocal)
  }

  ghost predicate IsRun(run: seq<Point>, calls: seq<S.Call>) {
    |run| == |calls| + 1 && forall i :: 0 <= i < |calls| ==> IsStep(run[i], calls[i], run[i + 1])
  }

  lemma StepFits(p: Point, c: S.Call, q: Point)
    requires Fits(p.h, p.st) && IsStep(p, c, q)
    ensures Fits(q.h, q.st)
  {
    match c {
      case Send(text) => SendFits(p.h, p.st, text);
      case Receive(msg, newLocal) => ReceiveFits(p.h, p.st, msg, newLocal, Decrypt(p.st, msg, newLocal));
    }
  }

  /**
   * In every run without a returning remote key, at every point: the receiving chain key is the nr-th
   * iterate of its recorded start, every stored key is its chain's key of that number, and on every
   * chain the numbers taken split into attempted, evicted and stored.
   */
  lemma {:induction false} RunFits(seed: nat, isInitiator: bool, dhr: Option<KeyId>, dhs: KeyId, maxSkipped: nat,
                                   run: seq<Point>, calls: seq<S.Call>, k: nat)
    requires maxSkipped >= 1 && IsRun(run, calls) && k < |run|
    requires run[0].st == InitialState(Seed(seed), isInitiator, dhr, dhs, maxSkipped)
    requires run[0].h == if dhr.Some? && !isInitiator then AfterPrepare(EMPTY, run[0].st) else EMPTY
    ensures Fits(run[k].h, run[k].st)
  {
    if k == 0 {
      InitialFits(seed, isInitiator, dhr, dhs, maxSkipped);
    } else {
      RunFits(seed, isInitiator, dhr, dhs, maxSkipped, run, calls, k - 1);
      assert IsStep(run[k - 1], calls[k - 1], run[k]);
      StepFits(run[k - 1], calls[k - 1], run[k]);
    }
  }
}

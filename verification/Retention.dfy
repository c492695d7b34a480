/**
 * What the two bounded stores of the client ratchet still hold after a while
 * (client/crypto/double_ratchet.py): a full store drops its oldest element and nothing else, so the
 * last skipped keys and the last accepted ids are always there.
 */
module Retention {
  import opened Common
  import opened Kdf
  import opened Stores
  import opened Ratchet
  import S = SingleUse
  import C = ChainCache

  // Skipped keys ------------------------------------------------------------------------------------------

  /** No number that the current chain has still to reach is stored. */
  ghost predicate NothingAhead(st: State) {
    st.dhr.Some? ==> forall k: nat :: k >= st.nr ==> !Has(st.skipped, MsgId(st.dhr.value, k))
  }

  /** The key of number k of the current receiving chain. */
  function KeyAt(st: State, k: nat): Key
    requires st.receivingChain.Some? && st.nr <= k
  {
    MessageKey(Iterate(st.receivingChain.value, k - st.nr))
  }

  /** The keys that a chain passes on its way from number lo to number hi, in order. */
  function NewKeys(dh: KeyId, c: Key, lo: nat, hi: nat): seq<Entry>
    decreases hi - lo
  {
    if lo >= hi then [] else [Entry(MsgId(dh, lo), MessageKey(c))] + NewKeys(dh, ChainNext(c), lo + 1, hi)
  }

  /** Number k's key is k - lo steps along, and is in its place. */
  lemma {:induction false} NewKeyAt(dh: KeyId, c: Key, lo: nat, hi: nat, k: nat)
    requires lo <= k < hi
    ensures |NewKeys(dh, c, lo, hi)| == hi - lo
    ensures NewKeys(dh, c, lo, hi)[k - lo] == Entry(MsgId(dh, k), MessageKey(Iterate(c, k - lo)))
    decreases hi - lo
  {
    assert Iterate(c, 0) == c && Iterate(c, 1) == ChainNext(Iterate(c, 0));
    if lo + 1 < hi {
      NewKeyAt(dh, ChainNext(c), lo + 1, hi, if k == lo then k + 1 else k);
      if k > lo {
        IterateAdds(c, 1, k - lo - 1);
      }
    }
  }

  lemma SkipOneKeepsLast(st: State, next: State)
    requires StoresOk(st) && NothingAhead(st) && st.receivingChain.Some? && st.dhr.Some? && next == SkipOne(st)
    ensures StoresOk(next) && NothingAhead(next)
    ensures next.skipped ==
            Last(st.skipped + [Entry(MsgId(st.dhr.value, st.nr), MessageKey(st.receivingChain.value))], st.maxSkipped)
  {
    var id, key := MsgId(st.dhr.value, st.nr), MessageKey(st.receivingChain.value);
    SkipOneKeepsStores(st);
    StoreKeepsLast(st.skipped, st.maxSkipped, id, key);
    StoreKeepsShape(st.skipped, st.maxSkipped, id, key);
    forall k: nat | k >= next.nr
      ensures !Has(next.skipped, MsgId(id.dh, k))
    {
      HasMember(st.skipped, MsgId(id.dh, k));
      HasMember(next.skipped, MsgId(id.dh, k));
    }
  }

  /** After a skip of any length the store is the last maxSkipped of what it held followed by the new keys. */
  lemma {:induction false} SkipKeepsLast(st: State, until: nat)
    requires StoresOk(st) && NothingAhead(st) && st.receivingChain.Some? && st.dhr.Some?
    ensures SkipUntil(st, until).skipped ==
            Last(st.skipped + NewKeys(st.dhr.value, st.receivingChain.value, st.nr, until), st.maxSkipped)
    decreases until - st.nr
  {
    var dh, c := st.dhr.value, st.receivingChain.value;
    if st.nr < until {
      var next := SkipOne(st);
      SkipOneKeepsLast(st, next);
      SkipKeepsLast(next, until);
      NextKeys(st.skipped, next.skipped, dh, c, st.nr, until, st.maxSkipped);
    } else {
      assert st.skipped + [] == st.skipped;
    }
  }

  lemma NextKeys(s: seq<Entry>, next: seq<Entry>, dh: KeyId, c: Key, lo: nat, hi: nat, cap: nat)
    requires lo < hi && next == Last(s + [Entry(MsgId(dh, lo), MessageKey(c))], cap)
    ensures Last(next + NewKeys(dh, ChainNext(c), lo + 1, hi), cap) == Last(s + NewKeys(dh, c, lo, hi), cap)
  {
    LastAppends(s, Entry(MsgId(dh, lo), MessageKey(c)), NewKeys(dh, ChainNext(c), lo + 1, hi), cap);
  }

  lemma LastAppends(s: seq<Entry>, e: Entry, more: seq<Entry>, cap: nat)
    ensures Last(Last(s + [e], cap) + more, cap) == Last(s + ([e] + more), cap)
  {
    LastOfLast(s + [e], more, cap);
    assert s + [e] + more == s + ([e] + more);
  }

  lemma InLast(s: seq<Entry>, more: seq<Entry>, i: nat, cap: nat)
    requires i < |more| <= i + cap
    ensures more[i] in Last(s + more, cap)
  {
    var all := s + more;
    assert all[|s| + i] == more[i];
    assert |all| > cap ==> Last(all, cap)[|s| + i - (|all| - cap)] == more[i];
  }

  /** So each of the last maxSkipped numbers before the new one has its own key in the store. */
  lemma LastSkippedStored(st: State, until: nat, k: nat)
    requires StoresOk(st) && NothingAhead(st) && st.receivingChain.Some? && st.dhr.Some?
    requires st.nr <= k < until <= k + st.maxSkipped
    ensures Entry(MsgId(st.dhr.value, k), KeyAt(st, k)) in SkipUntil(st, until).skipped
  {
    var dh, c := st.dhr.value, st.receivingChain.value;
    SkipKeepsLast(st, until);
    NewKeyAt(dh, c, st.nr, until, k);
    InLast(st.skipped, NewKeys(dh, c, st.nr, until), k - st.nr, st.maxSkipped);
  }

  lemma TakeNextStores(st: State, msg: WireMessage, k: nat, r: ReceiveStep)
    requires StoresOk(st) && NothingAhead(st) && st.receivingChain.Some? && st.dhr == Some(msg.header.dh)
    requires st.nr <= k < msg.header.n <= k + st.maxSkipped && r == TakeNext(st, msg)
    ensures StoresOk(r.state) && Entry(MsgId(msg.header.dh, k), KeyAt(st, k)) in r.state.skipped
  {
    LastSkippedStored(st, msg.header.n, k);
    TakeNextAdvances(st, msg);
  }

  lemma StoredOpens(st: State, msg: WireMessage, newLocal: KeyId, key: Key, text: bytes)
    requires StoresOk(st) && WireValid(msg.header) && MsgId(msg.header.dh, msg.header.n) !in st.received
    requires Entry(MsgId(msg.header.dh, msg.header.n), key) in st.skipped && msg == Seal(key, msg.header, text)
    ensures Decrypt(st, msg, newLocal).outcome == Accepted(text)
    ensures !Has(Decrypt(st, msg, newLocal).state.skipped, MsgId(msg.header.dh, msg.header.n))
  {
    var e := Entry(MsgId(msg.header.dh, msg.header.n), key);
    HasMember(st.skipped, e.id);
    TakeSkippedOpens(st, msg, e, text, TakeSkipped(st, msg));
    RemoveKeepsShape(st.skipped, e.id);
  }

  /**
   * A receive that skips, whatever becomes of its message, leaves each of the last maxSkipped numbers
   * it passed ready to be received: the message sealed under that number's key yields its text.
   */
  lemma LastSkippedStillOpen(st: State, msg: WireMessage, newLocal: KeyId, s: State, late: WireMessage, text: bytes,
                             other: KeyId)
    requires StoresOk(st) && WireValid(msg.header) && Dispatched(st, msg.header)
    requires s == Prepare(st, msg.header.dh, newLocal) && s.receivingChain.Some? && NothingAhead(s)
    requires var k := late.header.n;
             s.nr <= k < msg.header.n <= s.nr + MAX_SKIP_DISTANCE && msg.header.n <= k + st.maxSkipped
    requires late.header.dh == msg.header.dh && WireValid(late.header)
    requires late == Seal(KeyAt(s, late.header.n), late.header, text)
    requires MsgId(late.header.dh, late.header.n) !in Decrypt(st, msg, newLocal).state.received
    ensures var r := Decrypt(st, msg, newLocal);
            StoresOk(r.state) && Decrypt(r.state, late, other).outcome == Accepted(text)
  {
    PrepareReady(st, msg.header.dh, newLocal);
    var r := TakeNext(s, msg);
    assert Decrypt(st, msg, newLocal) == r;
    TakeNextStores(s, msg, late.header.n, r);
    StoredOpens(r.state, late, other, KeyAt(s, late.header.n), text);
  }

  /** In every run in which no remote key returns, a receive starts with nothing stored ahead. */
  lemma RunsHaveNothingAhead(seed: nat, isInitiator: bool, dhr: Option<KeyId>, dhs: KeyId, maxSkipped: nat,
                             run: seq<C.Point>, calls: seq<S.Call>, k: nat, msg: WireMessage, newLocal: KeyId)
    requires maxSkipped >= 1 && C.IsRun(run, calls) && k < |run|
    requires run[0].st == InitialState(Seed(seed), isInitiator, dhr, dhs, maxSkipped)
    requires run[0].h == if dhr.Some? && !isInitiator then C.AfterPrepare(C.EMPTY, run[0].st) else C.EMPTY
    requires Dispatched(run[k].st, msg.header) && C.NoReturn(run[k].h, run[k].st, msg)
    ensures StoresOk(run[k].st) && NothingAhead(Prepare(run[k].st, msg.header.dh, newLocal))
  {
    C.RunFits(seed, isInitiator, dhr, dhs, maxSkipped, run, calls, k);
    var s := Prepare(run[k].st, msg.header.dh, newLocal);
    C.PrepareFits(run[k].h, run[k].st, msg.header.dh, newLocal, s);
    FitsMeansNothingAhead(C.AfterPrepare(run[k].h, s), s);
  }

  lemma FitsMeansNothingAhead(h: C.History, st: State)
    requires C.Fits(h, st) && st.receivingChain.Some?
    ensures NothingAhead(st)
  {
    if st.dhr.Some? {
      forall k: nat | k >= st.nr
        ensures !Has(st.skipped, MsgId(st.dhr.value, k))
      {
        assert !C.Covered(h, MsgId(st.dhr.value, k));
      }
    }
  }

  // The replay window ---------------------------------------------------------------------------------------

  /** The ids of the messages that the calls get accepted, in order. */
  function AcceptedIds(st: State, calls: seq<S.Call>): seq<MsgId>
    requires StoresOk(st) && forall c :: c in calls ==> S.CallOk(c)
    decreases |calls|
  {
    if calls == [] then [] else
      S.CallKeepsStores(st, calls[0]);
      AcceptedOf(st, calls[0]) + AcceptedIds(S.After(st, calls[0]), calls[1..])
  }

  function AcceptedOf(st: State, c: S.Call): seq<MsgId>
    requires StoresOk(st) && S.CallOk(c)
  {
    if c.Receive? && Decrypt(st, c.msg, c.newLocal).outcome.Accepted? then [MsgId(c.msg.header.dh, c.msg.header.n)] else []
  }

  lemma FinishRemembers(st: State, key: Key, msg: WireMessage, r: ReceiveStep)
    requires StoresOk(st) && MsgId(msg.header.dh, msg.header.n) !in st.received && r == Finish(st, key, msg)
    ensures r.state.maxReceived == st.maxReceived
    ensures r.state.received ==
            if r.outcome.Accepted? then Last(st.received + [MsgId(msg.header.dh, msg.header.n)], st.maxReceived)
            else st.received
  {
    RememberKeepsLast(st.received, st.maxReceived, MsgId(msg.header.dh, msg.header.n));
  }

  lemma TakeNextWindow(st: State, msg: WireMessage, r: ReceiveStep)
    requires StoresOk(st) && st.receivingChain.Some? && st.dhr.Some? && st.nr <= msg.header.n
    requires MsgId(msg.header.dh, msg.header.n) !in st.received && r == TakeNext(st, msg)
    ensures r.state.maxReceived == st.maxReceived
    ensures r.state.received ==
            if r.outcome.Accepted? then Last(st.received + [MsgId(msg.header.dh, msg.header.n)], st.maxReceived)
            else st.received
  {
    var s := SkipUntil(st, msg.header.n);
    TakeNextUnfolds(st, msg, s);
    SkipUntilKeepsStores(st, msg.header.n);
    var c := s.receivingChain.value;
    FinishRemembers(s.(receivingChain := Some(ChainNext(c)), nr := msg.header.n + 1), MessageKey(c), msg, r);
  }

  lemma ReceiveWindow(st: State, msg: WireMessage, newLocal: KeyId, r: ReceiveStep)
    requires StoresOk(st) && WireValid(msg.header) && r == Decrypt(st, msg, newLocal)
    ensures r.state.maxReceived == st.maxReceived
    ensures r.state.received ==
            if r.outcome.Accepted? then Last(st.received + [MsgId(msg.header.dh, msg.header.n)], st.maxReceived)
            else st.received
  {
    var h := msg.header;
    var id := MsgId(h.dh, h.n);
    if Dispatched(st, h) {
      var s := Prepare(st, h.dh, newLocal);
      PrepareReady(st, h.dh, newLocal);
      if s.nr <= h.n <= s.nr + MAX_SKIP_DISTANCE {
        TakeNextWindow(s, msg, r);
      }
    } else if id !in st.received && Has(st.skipped, id) {
      RemoveKeepsShape(st.skipped, id);
      FinishRemembers(st.(skipped := Remove(st.skipped, id)), st.skipped[Find(st.skipped, id)].key, msg, r);
    }
  }

  lemma CallWindow(st: State, c: S.Call)
    requires StoresOk(st) && S.CallOk(c)
    ensures S.After(st, c).maxReceived == st.maxReceived
    ensures S.After(st, c).received == Last(st.received + AcceptedOf(st, c), st.maxReceived)
  {
    assert st.received + [] == st.received;
    if c.Receive? {
      ReceiveWindow(st, c.msg, c.newLocal, Decrypt(st, c.msg, c.newLocal));
    }
  }

  /** Over every sequence of calls the window is the last maxReceived accepted ids, in order of acceptance. */
  lemma {:induction false} WindowIsLastAccepted(st: State, calls: seq<S.Call>)
    requires StoresOk(st) && forall c :: c in calls ==> S.CallOk(c)
    ensures S.StateAfter(st, calls).maxReceived == st.maxReceived
    ensures S.StateAfter(st, calls).received == Last(st.received + AcceptedIds(st, calls), st.maxReceived)
    decreases |calls|
  {
    if calls == [] {
      assert st.received + [] == st.received;
    } else {
      var c := calls[0];
      assert S.CallOk(c);
      S.CallKeepsStores(st, c);
      CallWindow(st, c);
      var next := S.After(st, c);
      WindowIsLastAccepted(next, calls[1..]);
      LastOfLast(st.received + AcceptedOf(st, c), AcceptedIds(next, calls[1..]), st.maxReceived);
      assert st.received + (AcceptedOf(st, c) + AcceptedIds(next, calls[1..])) ==
             st.received + AcceptedOf(st, c) + AcceptedIds(next, calls[1..]);
    }
  }

  /** In every run of a new session each of the last 2000 accepted messages is answered as a duplicate. */
  lemma LastAcceptedAreDuplicates(seed: nat, isInitiator: bool, dhr: Option<KeyId>, dhs: KeyId, maxSkipped: nat,
                                  calls: seq<S.Call>, i: nat, msg: WireMessage, newLocal: KeyId)
    requires maxSkipped >= 1 && (forall c :: c in calls ==> S.CallOk(c)) && WireValid(msg.header)
    requires var ids := AcceptedIds(InitialState(Seed(seed), isInitiator, dhr, dhs, maxSkipped), calls);
             i < |ids| <= i + 2000 && ids[i] == MsgId(msg.header.dh, msg.header.n)
    ensures var st := S.StateAfter(InitialState(Seed(seed), isInitiator, dhr, dhs, maxSkipped), calls);
            StoresOk(st) && Decrypt(st, msg, newLocal) == ReceiveStep(st, Duplicate, None)
  {
    var start := InitialState(Seed(seed), isInitiator, dhr, dhs, maxSkipped);
    S.InitialInv(seed, isInitiator, dhr, dhs, maxSkipped);
    S.RunSound(start, seed, {}, calls);
    WindowIsLastAccepted(start, calls);
    var ids := AcceptedIds(start, calls);
    assert [] + ids == ids;
    assert Last(ids, 2000)[i - (|ids| - |Last(ids, 2000)|)] == ids[i];
  }
}

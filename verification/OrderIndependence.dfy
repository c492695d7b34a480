/**
 * Messages of one receiving chain may arrive in any order (client/crypto/double_ratchet.py): what a
 * session has become after some of them depends on which ones have arrived, not on the order.
 */
module OrderIndependence {
  import opened Common
  import opened Kdf
  import opened Stores
  import opened Ratchet
  import opened Retention

  /** The messages of one chain: the sender's key, and a text and a pn for every number. */
  datatype Chain = Chain(dh: KeyId, start: Key, base: nat, texts: nat -> bytes, pns: nat -> nat)

  function KeyOf(ch: Chain, n: nat): Key
    requires n >= ch.base
  {
    MessageKey(Iterate(ch.start, n - ch.base))
  }

  function MessageOf(ch: Chain, n: nat): WireMessage
    requires n >= ch.base
  {
    Seal(KeyOf(ch, n), Header(ch.dh, n, ch.pns(n)), ch.texts(n))
  }

  /** The session st is at the beginning of the chain and nothing of it has been stored or seen. */
  ghost predicate AtStart(st: State, ch: Chain) {
    && StoresOk(st)
    && st.dhr == Some(ch.dh) && st.receivingChain == Some(ch.start) && st.nr == ch.base
    && (forall k: nat :: k >= ch.base ==> MsgId(ch.dh, k) !in st.received && !Has(st.skipped, MsgId(ch.dh, k)))
  }

  /** The chain is the one that st turns to, with this new local key, on the first message it gets of it. */
  ghost predicate Opens(st: State, ch: Chain, newLocal: KeyId) {
    AtStart(Prepare(st, ch.dh, newLocal), ch)
  }

  ghost predicate NoRepeats(order: seq<nat>) {
    forall i, j :: 0 <= i < j < |order| ==> order[i] != order[j]
  }

  predicate NumberOk(ch: Chain, n: nat) {
    ch.base <= n < U32_LIMIT && ch.pns(n) < U32_LIMIT
  }

  function Numbers(order: seq<nat>): set<nat> {
    set n | n in order
  }

  /** One past the largest number so far. */
  function Reached(ch: Chain, order: seq<nat>): nat {
    if order == [] then ch.base else
      var hi, n := Reached(ch, order[..|order| - 1]), order[|order| - 1];
      if n >= hi then n + 1 else hi
  }

  /** A number ahead is within the gap limit, and the store has room for the keys in between. */
  predicate Fits(st: State, ch: Chain, order: seq<nat>, k: nat)
    requires k < |order|
  {
    var hi := Reached(ch, order[..k]);
    NumberOk(ch, order[k]) &&
    (order[k] >= hi ==>
       && order[k] - hi <= MAX_SKIP_DISTANCE
       && |st.skipped| + |Missing(ch, ch.base, hi, Numbers(order[..k]))| + (order[k] - hi) <= st.maxSkipped)
  }

  /** Numbers to deliver: no repetition, every gap within the limit and the store's room. */
  ghost predicate Deliverable(st: State, ch: Chain, order: seq<nat>) {
    && NoRepeats(order)
    && forall k :: 0 <= k < |order| ==> Fits(st, ch, order, k)
  }

  /** One delivery. */
  ghost predicate Took(s: State, ch: Chain, n: nat, newLocal: KeyId, t: State, o: Outcome) {
    && StoresOk(s) && NumberOk(ch, n)
    && var r := Decrypt(s, MessageOf(ch, n), newLocal);
       t == r.state && o == r.outcome
  }

  /**
   * Delivering the messages of the chain in this order, with the sessions in between and the outcomes.
   * Each delivery has a key pair at hand, in case it makes a turn.
   */
  ghost predicate IsDelivery(run: seq<State>, outs: seq<Outcome>, ch: Chain, order: seq<nat>, pairs: seq<KeyId>) {
    && |run| == |order| + 1 && |outs| == |order| == |pairs|
    && forall i :: 0 <= i < |order| ==> Took(run[i], ch, order[i], pairs[i], run[i + 1], outs[i])
  }

  /** The keys of the numbers lo..hi-1 that have not arrived, oldest first. */
  function Missing(ch: Chain, lo: nat, hi: nat, seen: set<nat>): seq<Entry>
    requires ch.base <= lo
    decreases hi
  {
    if hi <= lo then []
    else if hi - 1 in seen then Missing(ch, lo, hi - 1, seen)
    else Missing(ch, lo, hi - 1, seen) + [Entry(MsgId(ch.dh, hi - 1), KeyOf(ch, hi - 1))]
  }

  /** What st has become after exactly the messages in seen. */
  ghost predicate Shape(st: State, s: State, ch: Chain, seen: set<nat>) {
    && ch.base <= s.nr
    && (forall k :: k in seen ==> ch.base <= k < s.nr)
    && (s.nr > ch.base ==> s.nr - 1 in seen)
    && s == st.(receivingChain := Some(Iterate(ch.start, s.nr - ch.base)), nr := s.nr,
                skipped := st.skipped + Missing(ch, ch.base, s.nr, seen), received := s.received)
    && (forall k: nat :: k >= ch.base && MsgId(ch.dh, k) in s.received ==> k in seen)
  }

  // Missing keys ------------------------------------------------------------------------------------

  lemma {:induction false} MissingMembers(ch: Chain, lo: nat, hi: nat, seen: set<nat>)
    requires ch.base <= lo
    ensures |Missing(ch, lo, hi, seen)| <= (if hi <= lo then 0 else hi - lo)
    ensures forall e :: e in Missing(ch, lo, hi, seen) <==>
                        lo <= e.id.n < hi && e.id.n !in seen && e == Entry(MsgId(ch.dh, e.id.n), KeyOf(ch, e.id.n))
    decreases hi
  {
    if hi > lo {
      MissingMembers(ch, lo, hi - 1, seen);
    }
  }

  /** Numbers from mid on are all missing, so the lists join. */
  lemma {:induction false} MissingJoins(ch: Chain, lo: nat, mid: nat, hi: nat, seen: set<nat>, n: nat)
    requires ch.base <= lo <= mid <= hi && n >= hi && forall k :: k in seen ==> k < mid
    ensures Missing(ch, lo, hi, seen + {n}) == Missing(ch, lo, mid, seen) + Missing(ch, mid, hi, {})
    decreases hi
  {
    if hi > mid {
      MissingJoins(ch, lo, mid, hi - 1, seen, n);
    } else {
      MissingIgnores(ch, lo, hi, seen, n);
    }
  }

  lemma {:induction false} MissingIgnores(ch: Chain, lo: nat, hi: nat, seen: set<nat>, n: nat)
    requires ch.base <= lo && (n >= hi || n < lo)
    ensures Missing(ch, lo, hi, seen + {n}) == Missing(ch, lo, hi, seen)
    decreases hi
  {
    if hi > lo {
      MissingIgnores(ch, lo, hi - 1, seen, n);
    }
  }

  /** Taking number n out of the missing keys is having seen it. */
  lemma {:induction false} MissingRemove(ch: Chain, lo: nat, hi: nat, seen: set<nat>, n: nat)
    requires ch.base <= lo
    ensures Remove(Missing(ch, lo, hi, seen), MsgId(ch.dh, n)) == Missing(ch, lo, hi, seen + {n})
    decreases hi
  {
    if hi > lo {
      var e := Entry(MsgId(ch.dh, hi - 1), KeyOf(ch, hi - 1));
      var id := MsgId(ch.dh, n);
      MissingRemove(ch, lo, hi - 1, seen, n);
      if hi - 1 !in seen {
        RemoveConcat(Missing(ch, lo, hi - 1, seen), [e], id);
        RemoveSingle(e, id);
      }
    }
  }

  /** The keys that a skip passes are the missing ones. */
  lemma {:induction false} PassedAreMissing(ch: Chain, lo: nat, hi: nat)
    requires ch.base <= lo <= hi
    ensures NewKeys(ch.dh, Iterate(ch.start, lo - ch.base), lo, hi) == Missing(ch, lo, hi, {})
    decreases hi - lo
  {
    if lo < hi {
      assert Iterate(ch.start, lo + 1 - ch.base) == ChainNext(Iterate(ch.start, lo - ch.base));
      PassedAreMissing(ch, lo + 1, hi);
      MissingHead(ch, lo, hi);
    }
  }

  /** With room in the store, skipping appends the keys it passes. */
  lemma SkipAppends(s: State, ch: Chain, until: nat)
    requires StoresOk(s) && s.dhr == Some(ch.dh) && ch.base <= s.nr <= until && NothingAhead(s)
    requires s.receivingChain == Some(Iterate(ch.start, s.nr - ch.base))
    requires |s.skipped| + (until - s.nr) <= s.maxSkipped
    ensures SkipUntil(s, until).skipped == s.skipped + Missing(ch, s.nr, until, {})
  {
    SkipKeepsLast(s, until);
    PassedAreMissing(ch, s.nr, until);
    MissingMembers(ch, s.nr, until, {});
  }

  lemma {:induction false} MissingHead(ch: Chain, lo: nat, hi: nat)
    requires ch.base <= lo < hi
    ensures Missing(ch, lo, hi, {}) == [Entry(MsgId(ch.dh, lo), KeyOf(ch, lo))] + Missing(ch, lo + 1, hi, {})
    decreases hi
  {
    if hi > lo + 1 {
      MissingHead(ch, lo, hi - 1);
    }
  }

  // Deliveries --------------------------------------------------------------------------------------

  lemma StoredKey(st: State, s: State, ch: Chain, seen: set<nat>, n: nat)
    requires AtStart(st, ch) && Shape(st, s, ch, seen) && NumberOk(ch, n) && n < s.nr && n !in seen
    ensures var id := MsgId(ch.dh, n);
            && Entry(id, KeyOf(ch, n)) in s.skipped && Has(s.skipped, id)
            && Remove(s.skipped, id) == st.skipped + Missing(ch, ch.base, s.nr, seen + {n})
  {
    var id := MsgId(ch.dh, n);
    var m := Missing(ch, ch.base, s.nr, seen);
    MissingMembers(ch, ch.base, s.nr, seen);
    assert Entry(id, KeyOf(ch, n)) in m;
    HasMember(s.skipped, id);
    MissingRemove(ch, ch.base, s.nr, seen, n);
    RemoveConcat(st.skipped, m, id);
    RemoveAbsent(st.skipped, id);
  }

  lemma ShapeAfterStored(st: State, s: State, ch: Chain, seen: set<nat>, n: nat, received: seq<MsgId>)
    requires Shape(st, s, ch, seen) && ch.base <= n < s.nr
    requires forall id :: id in received ==> id in s.received || id == MsgId(ch.dh, n)
    ensures Shape(st, s.(skipped := st.skipped + Missing(ch, ch.base, s.nr, seen + {n}), received := received), ch, seen + {n})
  {
  }

  lemma DecryptStored(s: State, msg: WireMessage, e: Entry, text: bytes, newLocal: KeyId, t: State,
                      o: Outcome)
    requires StoresOk(s) && WireValid(msg.header) && e in s.skipped && e.id == MsgId(msg.header.dh, msg.header.n)
    requires e.id !in s.received && Open(e.key, msg) == Some(text)
    requires t == Decrypt(s, msg, newLocal).state && o == Decrypt(s, msg, newLocal).outcome
    ensures o == Accepted(text) && Has(s.skipped, e.id)
    ensures t == s.(skipped := Remove(s.skipped, e.id), received := t.received)
    ensures forall id :: id in t.received ==> id in s.received || id == e.id
  {
    HasMember(s.skipped, e.id);
    TakeSkippedOpens(s, msg, e, text, TakeSkipped(s, msg));
    RememberKeepsShape(s.received, s.maxReceived, e.id);
  }

  /** An overtaken message is opened with its stored key. */
  lemma TakesStored(st: State, s: State, ch: Chain, seen: set<nat>, n: nat, newLocal: KeyId, t: State, o: Outcome)
    requires AtStart(st, ch) && Shape(st, s, ch, seen) && Took(s, ch, n, newLocal, t, o)
    requires n < s.nr && n !in seen
    ensures o == Accepted(ch.texts(n)) && Shape(st, t, ch, seen + {n})
  {
    var msg := MessageOf(ch, n);
    var e := Entry(MsgId(ch.dh, n), KeyOf(ch, n));
    StoredKey(st, s, ch, seen, n);
    DecryptStored(s, msg, e, ch.texts(n), newLocal, t, o);
    ShapeAfterStored(st, s, ch, seen, n, t.received);
  }

  lemma AheadOfShape(st: State, s: State, ch: Chain, seen: set<nat>)
    requires AtStart(st, ch) && Shape(st, s, ch, seen)
    ensures NothingAhead(s)
  {
    forall k: nat | s.nr <= k
      ensures !Has(s.skipped, MsgId(ch.dh, k))
    {
      HasMember(st.skipped, MsgId(ch.dh, k));
      HasMember(s.skipped, MsgId(ch.dh, k));
      MissingMembers(ch, ch.base, s.nr, seen);
    }
  }

  lemma JoinAhead(before: seq<Entry>, ch: Chain, nr: nat, seen: set<nat>, n: nat)
    requires ch.base <= nr <= n && forall k :: k in seen ==> k < nr
    ensures (before + Missing(ch, ch.base, nr, seen)) + Missing(ch, nr, n, {}) ==
            before + Missing(ch, ch.base, n + 1, seen + {n})
  {
    MissingJoins(ch, ch.base, nr, n, seen, n);
  }

  lemma SkippedAhead(st: State, s: State, ch: Chain, seen: set<nat>, n: nat, sk: seq<Entry>)
    requires AtStart(st, ch) && StoresOk(s) && Shape(st, s, ch, seen) && s.nr <= n
    requires |s.skipped| + (n - s.nr) <= s.maxSkipped && sk == SkipUntil(s, n).skipped
    ensures sk == st.skipped + Missing(ch, ch.base, n + 1, seen + {n})
  {
    AheadOfShape(st, s, ch, seen);
    MissingMembers(ch, ch.base, s.nr, seen);
    SkipAppends(s, ch, n);
    JoinAhead(st.skipped, ch, s.nr, seen, n);
  }

  lemma TakeNextRemembers(s: State, msg: WireMessage, r: ReceiveStep)
    requires StoresOk(s) && s.receivingChain.Some? && s.dhr.Some? && s.nr <= msg.header.n && r == TakeNext(s, msg)
    ensures r.outcome.Accepted? ==> msg.cipher.Sealed? && r.outcome.text == msg.cipher.text
    ensures forall id :: id in r.state.received ==> id in s.received || id == MsgId(msg.header.dh, msg.header.n)
  {
    TakeNextUnfolds(s, msg, SkipUntil(s, msg.header.n));
    RememberKeepsShape(s.received, s.maxReceived, MsgId(msg.header.dh, msg.header.n));
  }

  lemma DecryptAhead(s: State, msg: WireMessage, text: bytes, newLocal: KeyId, t: State, o: Outcome)
    requires StoresOk(s) && WireValid(msg.header) && s.dhr == Some(msg.header.dh) && s.receivingChain.Some?
    requires s.nr <= msg.header.n <= s.nr + MAX_SKIP_DISTANCE && Dispatched(s, msg.header)
    requires msg == Seal(MessageKey(Iterate(s.receivingChain.value, msg.header.n - s.nr)), msg.header, text)
    requires t == Decrypt(s, msg, newLocal).state && o == Decrypt(s, msg, newLocal).outcome
    ensures o == Accepted(text)
    ensures t == s.(receivingChain := Some(Iterate(s.receivingChain.value, msg.header.n + 1 - s.nr)), nr := msg.header.n + 1,
                    skipped := t.skipped, received := t.received)
    ensures t.skipped == SkipUntil(s, msg.header.n).skipped
    ensures forall id :: id in t.received ==> id in s.received || id == MsgId(msg.header.dh, msg.header.n)
  {
    assert Prepare(s, msg.header.dh, newLocal) == s;
    var r := TakeNext(s, msg);
    assert Decrypt(s, msg, newLocal) == r;
    TakeNextAdvances(s, msg);
    TakeNextOpens(s, msg, r);
    TakeNextRemembers(s, msg, r);
  }

  lemma ShapeAfterAhead(st: State, s: State, ch: Chain, seen: set<nat>, n: nat, t: State)
    requires Shape(st, s, ch, seen) && s.nr <= n
    requires t == s.(receivingChain := Some(Iterate(s.receivingChain.value, n + 1 - s.nr)), nr := n + 1,
                     skipped := t.skipped, received := t.received)
    requires t.skipped == st.skipped + Missing(ch, ch.base, n + 1, seen + {n})
    requires forall id :: id in t.received ==> id in s.received || id == MsgId(ch.dh, n)
    ensures Shape(st, t, ch, seen + {n})
  {
    IterateAdds(ch.start, s.nr - ch.base, n + 1 - s.nr);
  }

  lemma ShapeDispatches(st: State, s: State, ch: Chain, seen: set<nat>, n: nat)
    requires AtStart(st, ch) && Shape(st, s, ch, seen) && NumberOk(ch, n) && s.nr <= n
    ensures Dispatched(s, MessageOf(ch, n).header)
    ensures s.dhr == Some(ch.dh) && s.receivingChain.Some?
    ensures MessageOf(ch, n) ==
            Seal(MessageKey(Iterate(s.receivingChain.value, n - s.nr)), MessageOf(ch, n).header, ch.texts(n))
  {
    AheadOfShape(st, s, ch, seen);
    IterateAdds(ch.start, s.nr - ch.base, n - s.nr);
  }

  /** A message at or ahead of the chain stores the keys in between. */
  lemma TakesAhead(st: State, s: State, ch: Chain, seen: set<nat>, n: nat, newLocal: KeyId, t: State, o: Outcome)
    requires AtStart(st, ch) && Shape(st, s, ch, seen) && Took(s, ch, n, newLocal, t, o)
    requires s.nr <= n <= s.nr + MAX_SKIP_DISTANCE && |s.skipped| + (n - s.nr) <= s.maxSkipped
    ensures o == Accepted(ch.texts(n)) && Shape(st, t, ch, seen + {n})
  {
    ShapeDispatches(st, s, ch, seen, n);
    DecryptAhead(s, MessageOf(ch, n), ch.texts(n), newLocal, t, o);
    SkippedAhead(st, s, ch, seen, n, t.skipped);
    ShapeAfterAhead(st, s, ch, seen, n, t);
  }

  lemma {:induction false} ReachedIsLargest(ch: Chain, order: seq<nat>)
    requires forall n :: n in order ==> ch.base <= n
    ensures ch.base <= Reached(ch, order) && forall n :: n in order ==> n < Reached(ch, order)
    ensures Reached(ch, order) > ch.base ==> Reached(ch, order) - 1 in order
  {
    if order != [] {
      var init := order[..|order| - 1];
      assert order == init + [order[|order| - 1]] && forall n :: n in init ==> n in order;
      ReachedIsLargest(ch, init);
    }
  }

  lemma ShapeReached(st: State, s: State, ch: Chain, order: seq<nat>)
    requires Shape(st, s, ch, Numbers(order))
    ensures s.nr == Reached(ch, order)
  {
    assert forall n :: n in order ==> n in Numbers(order);
    ReachedIsLargest(ch, order);
  }

  /** From the start of the chain, the session is what the set of numbers so far determines. */
  lemma {:induction false} CurrentShape(st: State, ch: Chain, order: seq<nat>, pairs: seq<KeyId>, run: seq<State>,
                                        outs: seq<Outcome>, k: nat)
    requires AtStart(st, ch) && Deliverable(st, ch, order)
    requires IsDelivery(run, outs, ch, order, pairs) && run[0] == st && k < |run|
    ensures Shape(st, run[k], ch, Numbers(order[..k]))
    ensures k > 0 ==> outs[k - 1] == Accepted(ch.texts(order[k - 1]))
  {
    if k == 0 {
      assert st.skipped + [] == st.skipped;
    } else {
      CurrentShape(st, ch, order, pairs, run, outs, k - 1);
      assert Took(run[k - 1], ch, order[k - 1], pairs[k - 1], run[k], outs[k - 1]);
      DeliveryNext(st, ch, order, run[k - 1], pairs[k - 1], run[k], outs[k - 1], k - 1);
    }
  }

  lemma DeliveryNext(st: State, ch: Chain, order: seq<nat>, s: State, newLocal: KeyId, t: State, o: Outcome, k: nat)
    requires AtStart(st, ch) && Deliverable(st, ch, order) && k < |order|
    requires Shape(st, s, ch, Numbers(order[..k])) && Took(s, ch, order[k], newLocal, t, o)
    ensures o == Accepted(ch.texts(order[k])) && Shape(st, t, ch, Numbers(order[..k + 1]))
  {
    var n, seen := order[k], Numbers(order[..k]);
    assert Fits(st, ch, order, k);
    NextNumber(order, k);
    ShapeReached(st, s, ch, order[..k]);
    if n < s.nr {
      TakesStored(st, s, ch, seen, n, newLocal, t, o);
    } else {
      TakesAhead(st, s, ch, seen, n, newLocal, t, o);
    }
  }

  lemma NextNumber(order: seq<nat>, k: nat)
    requires NoRepeats(order) && k < |order|
    ensures order[k] !in Numbers(order[..k])
    ensures Numbers(order[..k + 1]) == Numbers(order[..k]) + {order[k]}
  {
    assert order[..k + 1] == order[..k] + [order[k]];
  }

  // From before the chain is current ----------------------------------------------------------------

  /** A message that gets past the first checks is handled as if its key had been current already. */
  lemma DispatchFirst(st: State, msg: WireMessage, newLocal: KeyId, other: KeyId)
    requires StoresOk(st) && WireValid(msg.header) && Dispatched(st, msg.header)
    ensures var s := Prepare(st, msg.header.dh, newLocal);
            StoresOk(s) && Decrypt(st, msg, newLocal) == Decrypt(s, msg, other)
  {
    PrepareReady(st, msg.header.dh, newLocal);
    var s := Prepare(st, msg.header.dh, newLocal);
    assert Prepare(s, msg.header.dh, other) == s;
  }

  /** So the first delivery may as well start from the turned session. */
  lemma TurnFirst(st: State, ch: Chain, n: nat, newLocal: KeyId, t: State, o: Outcome)
    requires Opens(st, ch, newLocal) && Took(st, ch, n, newLocal, t, o)
    ensures Took(Prepare(st, ch.dh, newLocal), ch, n, newLocal, t, o)
  {
    PrepareReady(st, ch.dh, newLocal);
    DispatchFirst(st, MessageOf(ch, n), newLocal, newLocal);
  }

  /** Which chain a session opens: the next one of the DH ratchet, or the one a new session waits on. */
  lemma OpensWhich(st: State, ch: Chain, newLocal: KeyId)
    requires StoresOk(st) && st.dhr != Some(ch.dh)
    requires forall k: nat :: MsgId(ch.dh, k) !in st.received && !Has(st.skipped, MsgId(ch.dh, k))
    ensures st.dhr.Some? || st.sendingChain.Some? ==>
              (Opens(st, ch, newLocal) <==> ch.base == 0 && ch.start == ChainStart(st.rootKey, SharedSecret(st.dhs, ch.dh)))
    ensures st.dhr.None? && st.sendingChain.None? && st.receivingChain.Some? ==>
              (Opens(st, ch, newLocal) <==> ch.base == st.nr && ch.start == st.receivingChain.value)
  {
    PrepareReady(st, ch.dh, newLocal);
  }

  /**
   * At every point of a deliverable order the session is what the set of numbers so far determines,
   * whichever of them came first and made the turn.
   */
  lemma DeliveryShape(st: State, ch: Chain, order: seq<nat>, pairs: seq<KeyId>, run: seq<State>, outs: seq<Outcome>, k: nat)
    requires IsDelivery(run, outs, ch, order, pairs) && run[0] == st && 0 < k < |run|
    requires Opens(st, ch, pairs[0]) && Deliverable(st, ch, order)
    ensures Shape(Prepare(st, ch.dh, pairs[0]), run[k], ch, Numbers(order[..k]))
    ensures outs[k - 1] == Accepted(ch.texts(order[k - 1]))
  {
    var s := Prepare(st, ch.dh, pairs[0]);
    PrepareReady(st, ch.dh, pairs[0]);
    assert Took(run[0], ch, order[0], pairs[0], run[1], outs[0]);
    TurnFirst(st, ch, order[0], pairs[0], run[1], outs[0]);
    var turned := [s] + run[1..];
    forall i | 0 <= i < |order|
      ensures Took(turned[i], ch, order[i], pairs[i], turned[i + 1], outs[i])
    {
      assert Took(run[i], ch, order[i], pairs[i], run[i + 1], outs[i]);
    }
    forall i | 0 <= i < |order|
      ensures Fits(s, ch, order, i)
    {
      assert Fits(st, ch, order, i);
    }
    CurrentShape(s, ch, order, pairs, turned, outs, k);
  }

  /** All of the session but the replay window, whose order is the order of arrival. */
  function ButReceived(s: State): State {
    s.(received := [])
  }

  lemma ShapeDetermines(st: State, s: State, t: State, ch: Chain, seen: set<nat>)
    requires Shape(st, s, ch, seen) && Shape(st, t, ch, seen)
    ensures ButReceived(s) == ButReceived(t)
  {
    assert s.nr == t.nr;
  }

  /**
   * Order independence. From any session that has seen nothing of a chain, current or not, two
   * deliverable orders of the same messages end in the same root key, chain keys, local key, counters
   * and skipped keys, and every message yields its text on the way. The key pair at hand for the
   * first delivery is the same, since that is the one a turn takes.
   */
  lemma SameMessagesSameSession(st: State, ch: Chain,
                                order: seq<nat>, pairs: seq<KeyId>, run: seq<State>, outs: seq<Outcome>,
                                order': seq<nat>, pairs': seq<KeyId>, run': seq<State>, outs': seq<Outcome>)
    requires IsDelivery(run, outs, ch, order, pairs) && IsDelivery(run', outs', ch, order', pairs')
    requires run[0] == run'[0] == st && multiset(order) == multiset(order')
    requires Deliverable(st, ch, order) && Deliverable(st, ch, order')
    requires order != [] && order' != [] ==> pairs[0] == pairs'[0] && Opens(st, ch, pairs[0])
    ensures ButReceived(run[|order|]) == ButReceived(run'[|order'|])
    ensures forall k :: 0 <= k < |order| ==> outs[k] == Accepted(ch.texts(order[k]))
  {
    SameNumbers(order, order');
    if order != [] {
      DeliveryShape(st, ch, order, pairs, run, outs, |order|);
      DeliveryShape(st, ch, order', pairs', run', outs', |order'|);
      assert order[..|order|] == order && order'[..|order'|] == order';
      ShapeDetermines(Prepare(st, ch.dh, pairs[0]), run[|order|], run'[|order'|], ch, Numbers(order));
      forall k | 0 <= k < |order|
        ensures outs[k] == Accepted(ch.texts(order[k]))
      {
        DeliveryShape(st, ch, order, pairs, run, outs, k + 1);
      }
    }
  }

  lemma SameNumbers(order: seq<nat>, order': seq<nat>)
    requires multiset(order) == multiset(order')
    ensures Numbers(order) == Numbers(order') && |order| == |order'|
  {
    assert |order| == |multiset(order)| && |order'| == |multiset(order')|;
    assert forall n :: n in order <==> n in multiset(order);
    assert forall n :: n in order' <==> n in multiset(order');
  }

  /** With room for all but one of the numbers up to top, every order of distinct numbers is deliverable. */
  lemma AnyOrderFits(st: State, ch: Chain, order: seq<nat>, top: nat)
    requires NoRepeats(order) && ch.base <= top <= ch.base + MAX_SKIP_DISTANCE
    requires |st.skipped| + (top - ch.base) <= st.maxSkipped
    requires forall k :: 0 <= k < |order| ==> NumberOk(ch, order[k]) && order[k] <= top
    ensures Deliverable(st, ch, order)
  {
    forall k | 0 <= k < |order|
      ensures Fits(st, ch, order, k)
    {
      assert forall n :: n in order[..k] ==> n in order;
      ReachedIsLargest(ch, order[..k]);
      MissingMembers(ch, ch.base, Reached(ch, order[..k]), Numbers(order[..k]));
    }
  }

  /** When every number up to the last has arrived, the skipped keys are back to what they were. */
  lemma CompleteDeliveryLeavesNoKeys(st: State, ch: Chain, order: seq<nat>, pairs: seq<KeyId>, top: nat, run: seq<State>,
                                     outs: seq<Outcome>)
    requires IsDelivery(run, outs, ch, order, pairs) && run[0] == st && order != []
    requires Opens(st, ch, pairs[0]) && Deliverable(st, ch, order)
    requires ch.base <= top && forall n :: n in order <==> ch.base <= n <= top
    ensures var s := run[|order|];
            && s.skipped == st.skipped && s.nr == top + 1 && s.rootKey == Prepare(st, ch.dh, pairs[0]).rootKey
            && s.receivingChain == Some(Iterate(ch.start, top + 1 - ch.base))
  {
    DeliveryShape(st, ch, order, pairs, run, outs, |order|);
    assert order[..|order|] == order;
    PrepareReady(st, ch.dh, pairs[0]);
    var s := run[|order|];
    assert top in Numbers(order) && s.nr - 1 in Numbers(order);
    NothingMissing(ch, ch.base, s.nr, Numbers(order));
    assert st.skipped + [] == st.skipped;
  }

  lemma {:induction false} NothingMissing(ch: Chain, lo: nat, hi: nat, seen: set<nat>)
    requires ch.base <= lo && forall k :: lo <= k < hi ==> k in seen
    ensures Missing(ch, lo, hi, seen) == []
    decreases hi
  {
    if hi > lo {
      NothingMissing(ch, lo, hi - 1, seen);
    }
  }
}

/**
 * The numbers in the headers of two engines talking to each other (client/crypto/double_ratchet.py):
 * a message's n counts the messages before it on its chain, and its pn the messages of its sender's
 * previous chain.
 */
module ChainLengths {
  import opened Common
  import opened Kdf
  import opened Stores
  import opened Ratchet
  import opened Delivery

  /** How many letters are on chain c; there are none on a negative one. */
  function Count(sent: seq<Letter>, c: int): nat {
    if sent == [] then 0 else Count(sent[..|sent| - 1], c) + if sent[|sent| - 1].chain == c then 1 else 0
  }

  predicate NumbersRight(sent: seq<Letter>, i: int)
    requires 0 <= i < |sent|
  {
    var l := sent[i];
    l.msg.header.n == Count(sent[..i], l.chain) && l.msg.header.pn == Count(sent, l.chain - 2)
  }

  /** The counters of a side on this level count its letters. */
  predicate SideCounts(sent: seq<Letter>, level: int, st: State) {
    st.ns == Count(sent, level + 1) && st.pn == Count(sent, level - 1)
  }

  ghost predicate Counted(d: Duo) {
    && |d.engines| == |d.levels| == 2
    && SideCounts(d.sent, d.levels[0], d.engines[0]) && SideCounts(d.sent, d.levels[1], d.engines[1])
    && forall i :: 0 <= i < |d.sent| ==> NumbersRight(d.sent, i)
  }

  lemma {:induction false} NoneCounted(sent: seq<Letter>, c: int)
    requires forall l :: l in sent ==> l.chain != c
    ensures Count(sent, c) == 0
  {
    if sent != [] {
      NoneCounted(sent[..|sent| - 1], c);
    }
  }

  lemma CountMore(sent: seq<Letter>, l: Letter, c: int)
    ensures Count(sent + [l], c) == Count(sent, c) + if l.chain == c then 1 else 0
  {
    assert (sent + [l])[..|sent|] == sent;
  }

  /** A receive leaves the sending counters alone unless it turns, and a turn hands ns on as pn. */
  lemma ReceiveCounts(st: State, msg: WireMessage, newLocal: KeyId, r: ReceiveStep)
    requires StoresOk(st) && WireValid(msg.header) && st.dhs != newLocal && r == Decrypt(st, msg, newLocal)
    ensures r.state.dhs == newLocal ==> r.state.ns == 0 && r.state.pn == st.ns
    ensures r.state.dhs != newLocal ==> r.state.ns == st.ns && r.state.pn == st.pn
  {
    var h := msg.header;
    if Dispatched(st, h) {
      var s := Prepare(st, h.dh, newLocal);
      PrepareReady(st, h.dh, newLocal);
      if s.nr <= h.n <= s.nr + MAX_SKIP_DISTANCE {
        TakeNextAdvances(s, msg);
      }
    } else if Has(st.skipped, MsgId(h.dh, h.n)) {
      TakeSkippedKeepsStores(st, msg);
    }
  }

  // Sending -----------------------------------------------------------------------------------------------

  /** Side p has sent nothing beyond its own chain, and on that only if it is open; the other sends elsewhere. */
  ghost predicate OwnOk(d: Duo, p: Side) {
    && |d.engines| == |d.levels| == 2
    && (d.levels[p] + 1) % 2 == p && (d.levels[1 - p] + 1) % 2 == 1 - p
    && forall l :: l in d.sent && l.chain % 2 == p ==>
                     l.chain <= d.levels[p] + 1 && (l.chain == d.levels[p] + 1 ==> d.engines[p].sendingChain.Some?)
  }

  lemma OwnLetters(seed: nat, d: Duo, p: Side)
    requires DuoInv(seed, d)
    ensures OwnOk(d, p)
  {
    forall l | l in d.sent && l.chain % 2 == p
      ensures l.chain <= d.levels[p] + 1 && (l.chain == d.levels[p] + 1 ==> d.engines[p].sendingChain.Some?)
    {
      var i :| 0 <= i < |d.sent| && d.sent[i] == l;
      assert LetterOk(d, d.sent[i]);
    }
    assert SideInv(d.engines[p], d.line, p, d.levels[p]);
    var q: Side := 1 - p;
    assert SideInv(d.engines[q], d.line, q, d.levels[q]);
  }

  lemma SendCounts(st: State, text: bytes, count: nat, r: SendStep)
    requires r == Encrypt(st, text) && st.ns == count && (st.sendingChain.None? ==> count == 0)
    ensures r.state.pn == st.pn
    ensures if r.outcome.Sent? then
              r.state.ns == count + 1 && r.outcome.msg.header.n == count && r.outcome.msg.header.pn == st.pn
            else r.state.ns == count
  {
  }

  lemma LetterCounted(sent: seq<Letter>, l: Letter, own: int)
    requires forall i :: 0 <= i < |sent| ==> NumbersRight(sent, i)
    requires l.chain == own && l.msg.header.n == Count(sent, own) && l.msg.header.pn == Count(sent, own - 2)
    requires forall x :: x in sent && x.chain % 2 == own % 2 ==> x.chain <= own
    ensures forall i :: 0 <= i < |sent| + 1 ==> NumbersRight(sent + [l], i)
  {
    var more := sent + [l];
    forall i | 0 <= i < |more|
      ensures NumbersRight(more, i)
    {
      CountMore(sent, l, more[i].chain - 2);
      if i < |sent| {
        assert NumbersRight(sent, i) && sent[i] in sent && more[..i] == sent[..i];
      } else {
        assert more[..i] == sent;
      }
    }
  }

  lemma OneMoreCounted(sent: seq<Letter>, l: Letter, level: int, st: State, next: State)
    requires SideCounts(sent, level, st)
    requires next.pn == st.pn && next.ns == st.ns + (if l.chain == level + 1 then 1 else 0) && l.chain != level - 1
    ensures SideCounts(sent + [l], level, next)
  {
    CountMore(sent, l, level + 1);
    CountMore(sent, l, level - 1);
  }

  lemma SendKeepsCounts(d: Duo, p: Side, text: bytes, st: State, own: nat, r: SendStep, next: Duo)
    requires OwnOk(d, p) && Counted(d) && st == d.engines[p] && own == d.levels[p] + 1 && r == Encrypt(st, text)
    requires next.levels == d.levels && next.engines == d.engines[p := r.state]
    requires next.sent == if r.outcome.Sent? then d.sent + [Letter(own, r.outcome.msg, text)] else d.sent
    ensures Counted(next)
  {
    var q := d.engines[1 - p];
    assert SideCounts(d.sent, d.levels[p], st) && SideCounts(d.sent, d.levels[1 - p], q);
    if st.sendingChain.None? {
      NoneCounted(d.sent, own);
    }
    SendCounts(st, text, Count(d.sent, own), r);
    if r.outcome.Sent? {
      var l := Letter(own, r.outcome.msg, text);
      LetterCounted(d.sent, l, own);
      OneMoreCounted(d.sent, l, d.levels[p], st, r.state);
      OneMoreCounted(d.sent, l, d.levels[1 - p], q, q);
    }
    assert SideCounts(next.sent, next.levels[p], r.state) && SideCounts(next.sent, next.levels[1 - p], q);
  }

  // Receiving ---------------------------------------------------------------------------------------------

  lemma DeliverCounts(seed: nat, d: Duo, p: Side, l: Letter, newLocal: KeyId, st: State, r: ReceiveStep)
    requires DuoInv(seed, d) && NewKey(d.line, newLocal) && st == d.engines[p]
    requires LetterOk(d, l) && l.chain % 2 != p && !Lost(st, d.levels[p], l) && WireValid(l.msg.header)
    requires r == Decrypt(st, l.msg, newLocal)
    ensures if r.state.dhs == newLocal then l.chain == d.levels[p] + 2 && r.state.ns == 0 && r.state.pn == st.ns
            else r.state.ns == st.ns && r.state.pn == st.pn
  {
    LetterFits(seed, d, p, l);
    SideReceives(seed, st, d.line, p, d.levels[p], l, newLocal, r);
    LocalKey(st, d.line, p, d.levels[p]);
    ReceiveCounts(st, l.msg, newLocal, r);
  }

  lemma ReceiptKeepsCounts(d: Duo, p: Side, c: nat, newLocal: KeyId, st: State, next: Duo)
    requires OwnOk(d, p) && Counted(d) && c < |d.line| && next == Receipt(d, p, c, newLocal, st)
    requires if st.dhs == newLocal then c == d.levels[p] + 2 && st.ns == 0 && st.pn == d.engines[p].ns
             else st.ns == d.engines[p].ns && st.pn == d.engines[p].pn
    ensures Counted(next)
  {
    assert SideCounts(d.sent, d.levels[p], d.engines[p]) && SideCounts(d.sent, d.levels[1 - p], d.engines[1 - p]);
    if st.dhs == newLocal {
      NoneCounted(d.sent, c + 1);
    }
    assert SideCounts(next.sent, next.levels[p], next.engines[p]);
    assert SideCounts(next.sent, next.levels[1 - p], next.engines[1 - p]);
  }

  lemma SendStepKeepsCounts(seed: nat, d: Duo, p: Side, text: bytes, next: Duo)
    requires DuoInv(seed, d) && Counted(d) && IsStep(d, Send(p, text), next)
    ensures Counted(next)
  {
    OwnLetters(seed, d, p);
    assert SideInv(d.engines[p], d.line, p, d.levels[p]);
    SendKeepsCounts(d, p, text, d.engines[p], d.levels[p] + 1, Encrypt(d.engines[p], text), next);
  }

  lemma DeliverStepKeepsCounts(seed: nat, d: Duo, p: Side, i: nat, newLocal: KeyId, next: Duo)
    requires DuoInv(seed, d) && Counted(d) && IsStep(d, Deliver(p, i, newLocal), next)
    ensures Counted(next)
  {
    var l, st := d.sent[i], d.engines[p];
    assert LetterOk(d, l);
    var r := Decrypt(st, l.msg, newLocal);
    DeliverCounts(seed, d, p, l, newLocal, st, r);
    OwnLetters(seed, d, p);
    ReceiptKeepsCounts(d, p, l.chain, newLocal, r.state, next);
  }

  lemma StepKeepsCounts(seed: nat, d: Duo, a: Action, next: Duo)
    requires DuoInv(seed, d) && Counted(d) && IsStep(d, a, next)
    ensures Counted(next)
  {
    match a {
      case Send(p, text) => SendStepKeepsCounts(seed, d, p, text, next);
      case Deliver(p, i, newLocal) => DeliverStepKeepsCounts(seed, d, p, i, newLocal, next);
    }
  }

  /**
   * In every run of two parties in which no lost message is delivered, at every point: each letter's n
   * is the number of letters before it on its chain, and its pn the number of letters its sender has
   * sent on its previous chain, 0 on its first.
   */
  lemma {:induction false} HeadersCount(seed: nat, a: KeyId, b: KeyId, capA: nat, capB: nat, run: seq<Duo>,
                                        actions: seq<Action>, k: nat)
    requires a != b && capA >= 1 && capB >= 1
    requires IsRun(run, actions) && run[0] == Begin(seed, a, b, capA, capB) && k < |run|
    ensures Counted(run[k])
    ensures forall i :: 0 <= i < |run[k].sent| ==> NumbersRight(run[k].sent, i)
  {
    if k > 0 {
      HeadersCount(seed, a, b, capA, capB, run, actions, k - 1);
      BeginInv(seed, a, b, capA, capB);
      RunKeepsInv(seed, run, actions, k - 1);
      StepKeepsCounts(seed, run[k - 1], actions[k - 1], run[k]);
    }
  }
}

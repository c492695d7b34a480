/**
 * Two client engines talking over a network that delivers what was sent, late, repeatedly or not at
 * all (client/crypto/double_ratchet.py).
 *
 * The conversation is a list of chains. Chain 0 is the initiator's first sending chain; a party opens
 * chain c + 1 after receiving from chain c, so side 0 sends the even chains and side 1 the odd ones.
 */
module Delivery {
  import opened Common
  import opened Kdf
  import opened Stores
  import opened Ratchet

  type Side = p: nat | p < 2

  /** The key a chain is sent under, the root key once it is open, and its first chain key. */
  datatype Link = Link(pub: KeyId, root: Key, start: Key)

  datatype Letter = Letter(chain: nat, msg: WireMessage, text: bytes)

  /** level is the chain a side currently receives from; -1 for the initiator before the first reply. */
  datatype Duo = Duo(engines: seq<State>, levels: seq<int>, line: seq<Link>, sent: seq<Letter>)

  // The chains ------------------------------------------------------------------------------------

  ghost predicate LineOk(seed: nat, line: seq<Link>) {
    && |line| > 0 && line[0].root == Seed(seed) && line[0].start == InitChain(Seed(seed))
    && (forall c :: 0 < c < |line| ==> Linked(line, c))
    && (forall c, d :: 0 <= c < d < |line| ==> PubsDiffer(line, c, d))
  }

  predicate PubsDiffer(line: seq<Link>, c: int, d: int)
    requires 0 <= c < d < |line|
  {
    line[c].pub != line[d].pub
  }

  /** A public key belongs to one chain only. */
  lemma PubIsUnique(seed: nat, line: seq<Link>, c: nat, d: nat)
    requires LineOk(seed, line) && c < |line| && d < |line| && line[c].pub == line[d].pub
    ensures c == d
  {
    assert (c < d ==> PubsDiffer(line, c, d)) && (d < c ==> PubsDiffer(line, d, c));
  }

  predicate Linked(line: seq<Link>, c: int)
    requires 0 < c < |line|
  {
    line[c] == NextLink(line[c - 1], line[c].pub)
  }

  function NextLink(l: Link, pub: KeyId): Link {
    var (root, chain) := KdfRoot(l.root, SharedSecret(pub, l.pub));
    Link(pub, root, chain)
  }

  ghost predicate NewKey(line: seq<Link>, x: KeyId) {
    forall c :: 0 <= c < |line| ==> line[c].pub != x
  }

  function KeyAt(l: Link, n: nat): Key {
    MessageKey(Iterate(l.start, n))
  }

  // One side --------------------------------------------------------------------------------------

  /** Message id belongs to chain c, which is the current one below nr or an earlier one. */
  predicate PastAt(line: seq<Link>, level: int, nr: nat, id: MsgId, c: int) {
    0 <= c < |line| && line[c].pub == id.dh && c <= level && (c == level ==> id.n < nr)
  }

  ghost predicate SeenOk(line: seq<Link>, level: int, nr: nat, id: MsgId) {
    exists c :: PastAt(line, level, nr, id, c)
  }

  ghost predicate StoredOk(line: seq<Link>, level: int, nr: nat, e: Entry) {
    exists c :: PastAt(line, level, nr, e.id, c) && e.key == KeyAt(line[c], e.id.n)
  }

  predicate Untouched(st: State) {
    st.dhr.None? && st.nr == 0 && st.skipped == [] && st.received == []
  }

  predicate KeysAt(st: State, line: seq<Link>, p: Side, level: int) {
    && -1 <= level && level + 2 <= |line| && (level + 1) % 2 == p
    && st.dhs == line[level + 1].pub
    && (match st.sendingChain
        case Some(ck) => ck == Iterate(line[level + 1].start, st.ns) && st.rootKey == line[level + 1].root
        case None => level >= 0 && st.rootKey == line[level].root)
    && (if level == -1 then st.receivingChain.None? && Untouched(st)
        else && st.receivingChain == Some(Iterate(line[level].start, st.nr))
             && (|| st.dhr == Some(line[level].pub)
                 || (level == 0 && st.sendingChain.None? && Untouched(st))))
  }

  ghost predicate StoredAllOk(line: seq<Link>, level: int, nr: nat, skipped: seq<Entry>) {
    forall e :: e in skipped ==> StoredOk(line, level, nr, e)
  }

  ghost predicate SeenAllOk(line: seq<Link>, level: int, nr: nat, received: seq<MsgId>) {
    forall id :: id in received ==> SeenOk(line, level, nr, id)
  }

  ghost predicate Apart(skipped: seq<Entry>, received: seq<MsgId>) {
    forall e :: e in skipped ==> e.id !in received
  }

  ghost predicate SideInv(st: State, line: seq<Link>, p: Side, level: int) {
    && StoresOk(st)
    && KeysAt(st, line, p, level)
    && StoredAllOk(line, level, st.nr, st.skipped)
    && SeenAllOk(line, level, st.nr, st.received)
    && Apart(st.skipped, st.received)
  }

  /** Ids stay in the past when the list of chains grows, the level rises or nr moves on. */
  lemma PastGrows(line: seq<Link>, more: seq<Link>, level: int, nr: nat, level': int, nr': nat,
                  skipped: seq<Entry>, received: seq<MsgId>)
    requires line <= more && (level < level' || (level == level' && nr <= nr'))
    requires StoredAllOk(line, level, nr, skipped) && SeenAllOk(line, level, nr, received)
    ensures StoredAllOk(more, level', nr', skipped) && SeenAllOk(more, level', nr', received)
  {
    forall e | e in skipped
      ensures StoredOk(more, level', nr', e)
    {
      var c :| PastAt(line, level, nr, e.id, c) && e.key == KeyAt(line[c], e.id.n);
      assert PastAt(more, level', nr', e.id, c);
    }
    forall id | id in received
      ensures SeenOk(more, level', nr', id)
    {
      var c :| PastAt(line, level, nr, id, c);
      assert PastAt(more, level', nr', id, c);
    }
  }

  lemma SideExtends(st: State, line: seq<Link>, p: Side, level: int, l: Link)
    requires SideInv(st, line, p, level)
    ensures SideInv(st, line + [l], p, level)
  {
    PastGrows(line, line + [l], level, st.nr, level, st.nr, st.skipped, st.received);
  }

  /** The number the chain has reached is not in the past yet. */
  lemma NextIsNew(seed: nat, st: State, line: seq<Link>, p: Side, level: nat)
    requires LineOk(seed, line) && SideInv(st, line, p, level)
    ensures MsgId(line[level].pub, st.nr) !in st.received
    ensures forall e :: e in st.skipped ==> e.id != MsgId(line[level].pub, st.nr)
  {
    var id := MsgId(line[level].pub, st.nr);
    forall c
      ensures !PastAt(line, level, st.nr, id, c)
    {
      if PastAt(line, level, st.nr, id, c) {
        PubIsUnique(seed, line, c, level);
      }
    }
    assert !SeenOk(line, level, st.nr, id);
  }

  lemma SideKeyStored(seed: nat, st: State, line: seq<Link>, p: Side, level: nat, store: seq<Entry>)
    requires LineOk(seed, line) && SideInv(st, line, p, level) && st.dhr.Some?
    requires StoresOk(st.(skipped := store))
    requires var e := Entry(MsgId(line[level].pub, st.nr), MessageKey(st.receivingChain.value));
             forall f :: f in store ==> f == e || f in st.skipped
    ensures SideInv(st.(receivingChain := Some(ChainNext(st.receivingChain.value)), skipped := store, nr := st.nr + 1),
                    line, p, level)
  {
    var id := MsgId(line[level].pub, st.nr);
    NextIsNew(seed, st, line, p, level);
    PastGrows(line, line, level, st.nr, level, st.nr + 1, st.skipped, st.received);
    assert PastAt(line, level, st.nr + 1, id, level);
  }

  lemma SideSkipsOne(seed: nat, st: State, line: seq<Link>, p: Side, level: nat, s: State)
    requires LineOk(seed, line) && SideInv(st, line, p, level) && st.dhr.Some? && s == SkipOne(st)
    ensures SideInv(s, line, p, level) && s.dhr.Some?
  {
    var key := MessageKey(st.receivingChain.value);
    var id := MsgId(line[level].pub, st.nr);
    StoreKeepsShape(st.skipped, st.maxSkipped, id, key);
    assert s == st.(receivingChain := Some(ChainNext(st.receivingChain.value)), skipped := s.skipped, nr := st.nr + 1);
    SideKeyStored(seed, st, line, p, level, s.skipped);
  }

  lemma {:induction false} SideSkips(seed: nat, st: State, line: seq<Link>, p: Side, level: nat, until: nat)
    requires LineOk(seed, line) && SideInv(st, line, p, level) && st.dhr.Some?
    ensures SideInv(SkipUntil(st, until), line, p, level)
    decreases until - st.nr
  {
    if st.nr < until {
      var s := SkipOne(st);
      SideSkipsOne(seed, st, line, p, level, s);
      SideSkips(seed, s, line, p, level, until);
    }
  }

  /** Remembering a message of the past whose key is not stored. */
  lemma SideRemembers(st: State, line: seq<Link>, p: Side, level: int, id: MsgId, seen: seq<MsgId>)
    requires SideInv(st, line, p, level) && SeenOk(line, level, st.nr, id)
    requires StoresOk(st.(received := seen)) && forall x :: x in seen ==> x == id || x in st.received
    requires forall e :: e in st.skipped ==> e.id != id
    requires level >= 0 && st.dhr.Some?
    ensures SideInv(st.(received := seen), line, p, level)
  {
  }

  lemma SideFinishes(st: State, line: seq<Link>, p: Side, level: int, key: Key, h: Header, text: bytes)
    requires SideInv(st, line, p, level) && SeenOk(line, level, st.nr, MsgId(h.dh, h.n))
    requires forall e :: e in st.skipped ==> e.id != MsgId(h.dh, h.n)
    requires level >= 0 && st.dhr.Some?
    ensures var r := Finish(st, key, Seal(key, h, text));
            r.outcome == Accepted(text) && SideInv(r.state, line, p, level)
            && r.state == st.(received := r.state.received)
  {
    var msg := Seal(key, h, text);
    var id := MsgId(h.dh, h.n);
    FinishKeepsStores(st, key, msg);
    assert Open(key, msg) == Some(text);
    RememberKeepsShape(st.received, st.maxReceived, id);
    SideRemembers(st, line, p, level, id, Remember(st.received, st.maxReceived, id));
  }

  /** A message arrived: its text comes out, and the side keeps its place and its sending chain. */
  ghost predicate Arrived(r: ReceiveStep, st: State, line: seq<Link>, p: Side, level: int, text: bytes) {
    && r.outcome == Accepted(text) && SideInv(r.state, line, p, level)
    && r.state.sendingChain == st.sendingChain && r.state.ns == st.ns
  }

  /** Delivery out of the skipped keys. */
  lemma SideTakesSkipped(seed: nat, st: State, line: seq<Link>, p: Side, level: int, c: nat, h: Header, text: bytes)
    requires LineOk(seed, line) && SideInv(st, line, p, level)
    requires c < |line| && h.dh == line[c].pub && Has(st.skipped, MsgId(h.dh, h.n))
    ensures Arrived(TakeSkipped(st, Seal(KeyAt(line[c], h.n), h, text)), st, line, p, level, text)
  {
    var id := MsgId(h.dh, h.n);
    var e := st.skipped[Find(st.skipped, id)];
    assert StoredOk(line, level, st.nr, e);
    var d :| PastAt(line, level, st.nr, e.id, d) && e.key == KeyAt(line[d], e.id.n);
    PubIsUnique(seed, line, c, d);
    assert SeenOk(line, level, st.nr, id);
    RemoveKeepsShape(st.skipped, id);
    var s := st.(skipped := Remove(st.skipped, id));
    assert SideInv(s, line, p, level);
    SideFinishes(s, line, p, level, e.key, h, text);
  }

  /** The head of the receiving chain is used for the message with its number. */
  lemma SideTakesHead(seed: nat, st: State, line: seq<Link>, p: Side, level: nat, h: Header, text: bytes, r: ReceiveStep)
    requires LineOk(seed, line) && SideInv(st, line, p, level) && st.dhr.Some?
    requires h.dh == line[level].pub && st.nr == h.n
    requires var c := st.receivingChain.value;
             r == Finish(st.(receivingChain := Some(ChainNext(c)), nr := h.n + 1), MessageKey(c),
                         Seal(KeyAt(line[level], h.n), h, text))
    ensures Arrived(r, st, line, p, level, text)
  {
    var c := st.receivingChain.value;
    var next := st.(receivingChain := Some(ChainNext(c)), nr := h.n + 1);
    SideKeyStored(seed, st, line, p, level, st.skipped);
    NextIsNew(seed, st, line, p, level);
    assert PastAt(line, level, next.nr, MsgId(h.dh, h.n), level);
    SideFinishes(next, line, p, level, MessageKey(c), h, text);
  }

  lemma SideReaches(seed: nat, st: State, line: seq<Link>, p: Side, level: nat, msg: WireMessage, r: ReceiveStep)
    returns (s: State)
    requires LineOk(seed, line) && SideInv(st, line, p, level) && st.dhr.Some? && st.nr <= msg.header.n
    requires r == TakeNext(st, msg)
    ensures SideInv(s, line, p, level) && s.dhr.Some? && s.nr == msg.header.n
    ensures s.sendingChain == st.sendingChain && s.ns == st.ns
    ensures s.receivingChain.Some? && s.maxReceived >= 1
    ensures var c := s.receivingChain.value;
            r == Finish(s.(receivingChain := Some(ChainNext(c)), nr := msg.header.n + 1), MessageKey(c), msg)
  {
    s := SkipUntil(st, msg.header.n);
    SideSkips(seed, st, line, p, level, msg.header.n);
    TakeNextUnfolds(st, msg, s);
  }

  /** Delivery from the current receiving chain. */
  lemma SideTakesNext(seed: nat, st: State, line: seq<Link>, p: Side, level: nat, h: Header, text: bytes, r: ReceiveStep)
    requires LineOk(seed, line) && SideInv(st, line, p, level) && st.dhr.Some?
    requires h.dh == line[level].pub && st.nr <= h.n
    requires r == TakeNext(st, Seal(KeyAt(line[level], h.n), h, text))
    ensures Arrived(r, st, line, p, level, text)
  {
    var s := SideReaches(seed, st, line, p, level, Seal(KeyAt(line[level], h.n), h, text), r);
    SideTakesHead(seed, s, line, p, level, h, text, r);
  }

  /** A turn to the peer's next chain, when this side's own chain is open. */
  lemma SideTurns(seed: nat, st: State, line: seq<Link>, p: Side, level: int, newLocal: KeyId)
    requires LineOk(seed, line) && SideInv(st, line, p, level) && st.sendingChain.Some?
    requires level + 3 == |line|
    ensures var more := line + [NextLink(line[level + 2], newLocal)];
            SideInv(TurnReceive(st, line[level + 2].pub, newLocal), more, p, level + 2)
  {
    var more := line + [NextLink(line[level + 2], newLocal)];
    var s := TurnReceive(st, line[level + 2].pub, newLocal);
    assert Linked(line, level + 2);
    PastGrows(line, more, level, st.nr, level + 2, 0, st.skipped, st.received);
  }

  /** A message of an earlier chain whose key was not kept and whose id is no longer remembered. */
  predicate Lost(st: State, level: int, l: Letter) {
    var id := MsgId(l.msg.header.dh, l.msg.header.n);
    l.chain < level && id !in st.received && !Has(st.skipped, id)
  }

  /** A message is in reach when its key is stored, or it lies at most 5000 ahead on a chain not yet left. */
  predicate InReach(st: State, level: int, l: Letter) {
    var h := l.msg.header;
    || Has(st.skipped, MsgId(h.dh, h.n))
    || (l.chain == level && st.nr <= h.n <= st.nr + MAX_SKIP_DISTANCE)
    || (l.chain > level && h.n <= MAX_SKIP_DISTANCE)
  }

  predicate IsLetter(line: seq<Link>, l: Letter) {
    && l.chain < |line| && l.msg.header.dh == line[l.chain].pub
    && l.msg == Seal(KeyAt(line[l.chain], l.msg.header.n), l.msg.header, l.text)
  }

  ghost predicate Handled(r: ReceiveStep, st: State, level: int, l: Letter) {
    && (r.outcome == Accepted(l.text) <==> InReach(st, level, l))
    && (r.outcome.Accepted? ==> r.outcome.text == l.text)
    && (r.outcome.Duplicate? ==> r.state == st)
    && !r.outcome.Rejected?
  }

  lemma SideReceivesOld(seed: nat, st: State, line: seq<Link>, p: Side, level: int, l: Letter, newLocal: KeyId,
                        r: ReceiveStep)
    requires LineOk(seed, line) && SideInv(st, line, p, level) && IsLetter(line, l)
    requires l.chain < level && !Lost(st, level, l) && WireValid(l.msg.header)
    requires r == Decrypt(st, l.msg, newLocal)
    ensures Handled(r, st, level, l) && SideInv(r.state, line, p, level)
    ensures r.state.sendingChain == st.sendingChain && r.state.dhs == st.dhs
  {
    var h := l.msg.header;
    var id := MsgId(h.dh, h.n);
    HasMember(st.skipped, id);
    if id !in st.received {
      SideTakesSkipped(seed, st, line, p, level, l.chain, h, l.text);
      assert r == TakeSkipped(st, l.msg);
      assert Arrived(r, st, line, p, level, l.text);
    }
  }

  lemma SideReceivesCurrent(seed: nat, st: State, line: seq<Link>, p: Side, level: int, l: Letter, newLocal: KeyId,
                            r: ReceiveStep)
    requires LineOk(seed, line) && SideInv(st, line, p, level) && IsLetter(line, l)
    requires l.chain == level && WireValid(l.msg.header)
    requires r == Decrypt(st, l.msg, newLocal)
    ensures Handled(r, st, level, l) && SideInv(r.state, line, p, level)
    ensures r.state.sendingChain == st.sendingChain && r.state.dhs == st.dhs
  {
    var h := l.msg.header;
    var id := MsgId(h.dh, h.n);
    HasMember(st.skipped, id);
    if id in st.received {
      var c :| PastAt(line, level, st.nr, id, c);
      PubIsUnique(seed, line, c, level);
    } else if Has(st.skipped, id) {
      SideTakesSkipped(seed, st, line, p, level, level, h, l.text);
      assert r == TakeSkipped(st, l.msg);
      assert Arrived(r, st, line, p, level, l.text);
    } else if h.n >= st.nr {
      var s := st.(dhr := Some(h.dh));
      assert Prepare(st, h.dh, newLocal) == s;
      assert SideInv(s, line, p, level);
      if h.n - s.nr <= MAX_SKIP_DISTANCE {
        assert r == TakeNext(s, l.msg);
        SideTakesNext(seed, s, line, p, level, h, l.text, r);
      }
    }
  }

  lemma LineGrows(seed: nat, line: seq<Link>, newLocal: KeyId)
    requires LineOk(seed, line) && NewKey(line, newLocal)
    ensures LineOk(seed, line + [NextLink(line[|line| - 1], newLocal)])
  {
    var more := line + [NextLink(line[|line| - 1], newLocal)];
    forall c | 0 < c < |more|
      ensures Linked(more, c)
    {
      if c < |line| {
        assert Linked(line, c);
      }
    }
    forall c, d | 0 <= c < d < |more|
      ensures PubsDiffer(more, c, d)
    {
      if d < |line| {
        assert PubsDiffer(line, c, d);
      }
    }
  }

  /** Nothing of a chain above the level is stored or remembered. */
  lemma FutureIsNew(seed: nat, st: State, line: seq<Link>, p: Side, level: int, c: nat, n: nat)
    requires LineOk(seed, line) && SideInv(st, line, p, level) && level < c < |line|
    ensures MsgId(line[c].pub, n) !in st.received && !Has(st.skipped, MsgId(line[c].pub, n))
  {
    var id := MsgId(line[c].pub, n);
    forall d
      ensures !PastAt(line, level, st.nr, id, d)
    {
      if PastAt(line, level, st.nr, id, d) {
        PubIsUnique(seed, line, c, d);
      }
    }
    assert forall e: Entry :: e.id == id ==> !StoredOk(line, level, st.nr, e);
    HasMember(st.skipped, id);
  }

  lemma NewDispatch(seed: nat, st: State, line: seq<Link>, p: Side, level: int, l: Letter, newLocal: KeyId)
    requires LineOk(seed, line) && SideInv(st, line, p, level) && IsLetter(line, l)
    requires level < l.chain && st.sendingChain.Some?
    ensures Dispatched(st, l.msg.header)
    ensures Prepare(st, l.msg.header.dh, newLocal) == TurnReceive(st, l.msg.header.dh, newLocal)
  {
    FutureIsNew(seed, st, line, p, level, l.chain, l.msg.header.n);
    assert level >= 0 ==> PubsDiffer(line, level, l.chain);
  }

  lemma TurnedReceives(seed: nat, st: State, s: State, line: seq<Link>, p: Side, level: nat, l: Letter, newLocal: KeyId,
                       r: ReceiveStep)
    requires LineOk(seed, line) && SideInv(s, line, p, level) && IsLetter(line, l) && l.chain == level
    requires st.maxSkipped >= 1 && st.maxReceived >= 1 && Dispatched(st, l.msg.header) && WireValid(l.msg.header)
    requires s == Prepare(st, l.msg.header.dh, newLocal) && s.nr == 0 && s.dhr.Some? && s.dhs == newLocal
    requires r == Decrypt(st, l.msg, newLocal)
    ensures SideInv(r.state, line, p, level) && r.state.dhs == newLocal
    ensures r.outcome == if l.msg.header.n <= MAX_SKIP_DISTANCE then Accepted(l.text) else SkipTooFar
  {
    var h := l.msg.header;
    if h.n <= MAX_SKIP_DISTANCE {
      assert r == TakeNext(s, l.msg);
      SideTakesNext(seed, s, line, p, level, h, l.text, r);
      RootOfSide(r.state, line, p, level);
      RootOfSide(s, line, p, level);
    }
  }

  lemma SideReceivesNew(seed: nat, st: State, line: seq<Link>, p: Side, level: int, l: Letter, newLocal: KeyId,
                        r: ReceiveStep)
    requires LineOk(seed, line) && SideInv(st, line, p, level) && IsLetter(line, l)
    requires l.chain == level + 2 && level + 3 == |line| && st.sendingChain.Some? && NewKey(line, newLocal)
    requires WireValid(l.msg.header) && r == Decrypt(st, l.msg, newLocal)
    ensures Handled(r, st, level, l)
    ensures SideInv(r.state, line + [NextLink(line[l.chain], newLocal)], p, level + 2)
    ensures r.state.dhs == newLocal
  {
    var more := line + [NextLink(line[l.chain], newLocal)];
    NewDispatch(seed, st, line, p, level, l, newLocal);
    SideTurns(seed, st, line, p, level, newLocal);
    LineGrows(seed, line, newLocal);
    assert IsLetter(more, l);
    TurnedReceives(seed, st, TurnReceive(st, l.msg.header.dh, newLocal), more, p, level + 2, l, newLocal, r);
  }

  /** Any delivery that is not lost, for one side. */
  lemma SideReceives(seed: nat, st: State, line: seq<Link>, p: Side, level: int, l: Letter, newLocal: KeyId, r: ReceiveStep)
    requires LineOk(seed, line) && SideInv(st, line, p, level) && IsLetter(line, l)
    requires l.chain <= level || (l.chain == level + 2 && level + 3 == |line| && st.sendingChain.Some?)
    requires NewKey(line, newLocal) && !Lost(st, level, l) && WireValid(l.msg.header)
    requires r == Decrypt(st, l.msg, newLocal)
    ensures Handled(r, st, level, l)
    ensures l.chain <= level ==>
              SideInv(r.state, line, p, level) && r.state.sendingChain == st.sendingChain && r.state.dhs == st.dhs
    ensures l.chain > level ==>
              SideInv(r.state, line + [NextLink(line[l.chain], newLocal)], p, level + 2) && r.state.dhs == newLocal
  {
    if l.chain < level {
      SideReceivesOld(seed, st, line, p, level, l, newLocal, r);
    } else if l.chain == level {
      SideReceivesCurrent(seed, st, line, p, level, l, newLocal, r);
    } else {
      SideReceivesNew(seed, st, line, p, level, l, newLocal, r);
    }
  }

  // Both sides ------------------------------------------------------------------------------------

  ghost predicate LetterOk(d: Duo, l: Letter)
    requires |d.engines| == |d.levels| == 2
  {
    var p := l.chain % 2;
    && IsLetter(d.line, l)
    && l.chain <= d.levels[p] + 1
    && (l.chain == d.levels[p] + 1 ==> d.engines[p].sendingChain.Some?)
  }

  ghost predicate SidesOk(d: Duo)
    requires |d.engines| == |d.levels| == 2
  {
    forall p: Side :: SideInv(d.engines[p], d.line, p, d.levels[p])
  }

  /** Side q has received last; the other side's sending chain is the one q receives from. */
  predicate Leads(d: Duo, q: Side)
    requires |d.engines| == |d.levels| == 2
  {
    && d.levels[q] == d.levels[1 - q] + 1
    && |d.line| == d.levels[q] + 2
    && d.engines[1 - q].sendingChain.Some?
  }

  ghost predicate LettersOk(d: Duo)
    requires |d.engines| == |d.levels| == 2
  {
    forall i :: 0 <= i < |d.sent| ==> LetterOk(d, d.sent[i])
  }

  ghost predicate DuoInv(seed: nat, d: Duo) {
    && |d.engines| == |d.levels| == 2
    && LineOk(seed, d.line)
    && SidesOk(d)
    && (Leads(d, 0) || Leads(d, 1))
    && LettersOk(d)
  }

  datatype Action = Send(p: Side, text: bytes) | Deliver(p: Side, i: nat, newLocal: KeyId)

  /** A delivery hands a message of the other side to p; a generated key pair is new. */
  ghost predicate Enabled(d: Duo, a: Action) {
    a.Deliver? ==>
      && a.i < |d.sent| && d.sent[a.i].chain % 2 != a.p
      && WireValid(d.sent[a.i].msg.header)
      && NewKey(d.line, a.newLocal)
  }

  ghost predicate Careful(d: Duo, a: Action)
    requires |d.engines| == |d.levels| == 2 && Enabled(d, a)
  {
    a.Deliver? ==> !Lost(d.engines[a.p], d.levels[a.p], d.sent[a.i])
  }

  /** Side p is now in state st; if it made a turn, it is on chain c and its new key extends the list. */
  function Receipt(d: Duo, p: Side, c: nat, newLocal: KeyId, st: State): Duo
    requires |d.engines| == |d.levels| == 2 && c < |d.line|
  {
    var next := d.(engines := d.engines[p := st]);
    if st.dhs == newLocal
    then next.(levels := d.levels[p := c], line := d.line + [NextLink(d.line[c], newLocal)])
    else next
  }

  function DuoStep(d: Duo, a: Action): Duo
    requires |d.engines| == |d.levels| == 2 && d.levels[a.p] >= -1
    requires d.engines[a.p].maxSkipped >= 1 && d.engines[a.p].maxReceived >= 1
    requires a.Deliver? ==> a.i < |d.sent| && WireValid(d.sent[a.i].msg.header) && d.sent[a.i].chain < |d.line|
  {
    match a
    case Send(p, text) =>
      var r := Encrypt(d.engines[p], text);
      var next := d.(engines := d.engines[p := r.state]);
      if r.outcome.Sent? then next.(sent := d.sent + [Letter(d.levels[p] + 1, r.outcome.msg, text)]) else next
    case Deliver(p, i, newLocal) =>
      Receipt(d, p, d.sent[i].chain, newLocal, Decrypt(d.engines[p], d.sent[i].msg, newLocal).state)
  }

  ghost predicate CanStep(d: Duo, a: Action) {
    && |d.engines| == |d.levels| == 2 && d.levels[a.p] >= -1
    && d.engines[a.p].maxSkipped >= 1 && d.engines[a.p].maxReceived >= 1
    && Enabled(d, a)
    && (a.Deliver? ==> d.sent[a.i].chain < |d.line|)
  }

  /** Root keys agree, or one side is ahead by the kdf_root step between the two current local keys. */
  predicate InStep(a: State, b: State) {
    || a.rootKey == b.rootKey
    || a.rootKey == RootNext(b.rootKey, SharedSecret(a.dhs, b.dhs))
    || b.rootKey == RootNext(a.rootKey, SharedSecret(a.dhs, b.dhs))
  }

  predicate Lockstep(d: Duo)
    requires |d.engines| == 2
  {
    InStep(d.engines[0], d.engines[1])
  }

  lemma InStepSymmetric(a: State, b: State)
    ensures InStep(a, b) == InStep(b, a)
  {
  }

  /** What a side in step knows about its root key. */
  lemma RootOfSide(st: State, line: seq<Link>, p: Side, level: int)
    requires SideInv(st, line, p, level)
    ensures st.dhs == line[level + 1].pub
    ensures st.rootKey == line[if st.sendingChain.Some? then level + 1 else level].root
  {
  }

  lemma InvIsLockstep(seed: nat, d: Duo)
    requires DuoInv(seed, d)
    ensures Lockstep(d)
  {
    var low: Side := if Leads(d, 1) then 0 else 1;
    var j := d.levels[1 - low];
    RootOfSide(d.engines[low], d.line, low, d.levels[low]);
    RootOfSide(d.engines[1 - low], d.line, 1 - low, j);
    assert Linked(d.line, j + 1);
  }

  lemma SideSends(st: State, line: seq<Link>, seed: nat, p: Side, level: int, text: bytes, r: SendStep)
    requires LineOk(seed, line) && SideInv(st, line, p, level) && r == Encrypt(st, text)
    ensures SideInv(r.state, line, p, level)
    ensures r.outcome.NoSendingChain? ==> r.state == st && st.sendingChain.None?
    ensures r.outcome.Sent? ==>
              r.state.sendingChain.Some? && IsLetter(line, Letter(level + 1, r.outcome.msg, text))
    ensures r.state.dhs == st.dhs
  {
    var s := if st.sendingChain.None? then StepSend(st) else st;
    if st.sendingChain.None? && st.dhr.Some? {
      assert Linked(line, level + 1);
    }
    assert SideInv(s, line, p, level);
  }

  lemma SidesAssemble(d: Duo, p: Side)
    requires |d.engines| == |d.levels| == 2
    requires SideInv(d.engines[p], d.line, p, d.levels[p]) && SideInv(d.engines[1 - p], d.line, 1 - p, d.levels[1 - p])
    ensures SidesOk(d)
  {
    forall q: Side
      ensures SideInv(d.engines[q], d.line, q, d.levels[q])
    {
      assert q == p || q == 1 - p;
    }
  }

  lemma LettersAfterMove(d: Duo, p: Side, next: Duo)
    requires |d.engines| == |d.levels| == |next.engines| == |next.levels| == 2 && LettersOk(d)
    requires next.levels == d.levels && next.line == d.line && next.engines[1 - p] == d.engines[1 - p]
    requires d.engines[p].sendingChain.Some? ==> next.engines[p].sendingChain.Some?
    requires d.sent <= next.sent && (d.levels[p] + 1) % 2 == p
    requires forall i :: |d.sent| <= i < |next.sent| ==>
                           && IsLetter(d.line, next.sent[i]) && next.sent[i].chain == d.levels[p] + 1
                           && next.engines[p].sendingChain.Some?
    ensures LettersOk(next)
  {
    forall i | 0 <= i < |next.sent|
      ensures LetterOk(next, next.sent[i])
    {
      if i < |d.sent| {
        assert LetterOk(d, d.sent[i]);
        var q: Side := d.sent[i].chain % 2;
        assert q == p || q == 1 - p;
      }
    }
  }

  /** One side moves without a turn: its sending chain stays or opens, and letters may be added. */
  lemma MoveSide(seed: nat, d: Duo, p: Side, st: State, next: Duo)
    requires DuoInv(seed, d) && SideInv(st, d.line, p, d.levels[p])
    requires d.engines[p].sendingChain.Some? ==> st.sendingChain.Some?
    requires d.sent <= next.sent && next == d.(engines := d.engines[p := st], sent := next.sent)
    requires forall i :: |d.sent| <= i < |next.sent| ==>
                           && IsLetter(d.line, next.sent[i]) && next.sent[i].chain == d.levels[p] + 1
                           && st.sendingChain.Some?
    ensures DuoInv(seed, next)
  {
    var q: Side := 1 - p;
    assert SideInv(d.engines[q], d.line, q, d.levels[q]);
    SidesAssemble(next, p);
    LevelParity(st, d.line, p, d.levels[p]);
    LettersAfterMove(d, p, next);
    assert Leads(d, 0) ==> Leads(next, 0);
    assert Leads(d, 1) ==> Leads(next, 1);
  }

  lemma LevelParity(st: State, line: seq<Link>, p: Side, level: int)
    requires SideInv(st, line, p, level)
    ensures (level + 1) % 2 == p && -1 <= level && level + 2 <= |line|
  {
  }

  lemma SendKeepsInv(seed: nat, d: Duo, p: Side, text: bytes, next: Duo)
    requires DuoInv(seed, d) && CanStep(d, Send(p, text)) && next == DuoStep(d, Send(p, text))
    ensures DuoInv(seed, next)
  {
    var r := Encrypt(d.engines[p], text);
    SideSends(d.engines[p], d.line, seed, p, d.levels[p], text, r);
    MoveSide(seed, d, p, r.state, next);
  }

  lemma ChainOfOtherSide(c: nat, mine: int, theirs: int, p: Side)
    requires c % 2 != p && (mine + 1) % 2 == p && (theirs == mine + 1 || mine == theirs + 1) && c <= theirs + 1
    ensures c <= mine || (c == mine + 2 && theirs == mine + 1)
  {
  }

  /** The chain of a letter for p is one p has been on, or the one right after its own open chain. */
  lemma LetterForSide(d: Duo, p: Side, l: Letter)
    requires |d.engines| == |d.levels| == 2 && (Leads(d, 0) || Leads(d, 1))
    requires LetterOk(d, l) && l.chain % 2 != p && (d.levels[p] + 1) % 2 == p
    ensures l.chain <= d.levels[p] ||
            (l.chain == d.levels[p] + 2 && Leads(d, 1 - p) && d.engines[1 - p].sendingChain.Some?)
  {
    var q: Side := l.chain % 2;
    assert q == 1 - p;
    ChainOfOtherSide(l.chain, d.levels[p], d.levels[q], p);
  }

  lemma LettersAfterTurn(d: Duo, p: Side, next: Duo)
    requires |d.engines| == |d.levels| == |next.engines| == |next.levels| == 2 && LettersOk(d)
    requires next.levels[p] > d.levels[p] + 1 && next.levels[1 - p] == d.levels[1 - p]
    requires next.engines[1 - p] == d.engines[1 - p] && d.line <= next.line && next.sent == d.sent
    ensures LettersOk(next)
  {
    forall i | 0 <= i < |next.sent|
      ensures LetterOk(next, next.sent[i])
    {
      assert LetterOk(d, d.sent[i]);
      var q: Side := d.sent[i].chain % 2;
      assert q == p || q == 1 - p;
    }
  }

  /** A side turns to the chain after its own; the other side only sees the list of chains grow. */
  lemma TurnSide(seed: nat, d: Duo, p: Side, st: State, newLocal: KeyId, next: Duo)
    requires DuoInv(seed, d) && NewKey(d.line, newLocal)
    requires Leads(d, 1 - p) && d.engines[1 - p].sendingChain.Some?
    requires next == d.(engines := d.engines[p := st], levels := d.levels[p := d.levels[p] + 2],
                        line := d.line + [NextLink(d.line[|d.line| - 1], newLocal)])
    requires SideInv(st, next.line, p, d.levels[p] + 2)
    ensures DuoInv(seed, next)
  {
    LineGrows(seed, d.line, newLocal);
    LettersAfterTurn(d, p, next);
    SideExtends(d.engines[1 - p], d.line, 1 - p, d.levels[1 - p], NextLink(d.line[|d.line| - 1], newLocal));
    SidesAssemble(next, p);
    assert Leads(next, p);
  }

  lemma ReceiptKeepsInv(seed: nat, d: Duo, p: Side, c: nat, newLocal: KeyId, st: State, next: Duo)
    requires DuoInv(seed, d) && NewKey(d.line, newLocal) && c < |d.line|
    requires next == Receipt(d, p, c, newLocal, st)
    requires || (c <= d.levels[p] && SideInv(st, d.line, p, d.levels[p])
                 && st.sendingChain == d.engines[p].sendingChain && st.dhs == d.engines[p].dhs)
             || (c == d.levels[p] + 2 && Leads(d, 1 - p) && d.engines[1 - p].sendingChain.Some?
                 && SideInv(st, d.line + [NextLink(d.line[c], newLocal)], p, c) && st.dhs == newLocal)
    ensures DuoInv(seed, next)
  {
    LocalKey(d.engines[p], d.line, p, d.levels[p]);
    if c <= d.levels[p] {
      MoveSide(seed, d, p, st, next);
    } else {
      TurnSide(seed, d, p, st, newLocal, next);
    }
  }

  /** What a letter for p means to p. */
  lemma LetterFits(seed: nat, d: Duo, p: Side, l: Letter)
    requires DuoInv(seed, d) && LetterOk(d, l) && l.chain % 2 != p
    ensures SideInv(d.engines[p], d.line, p, d.levels[p])
    ensures l.chain <= d.levels[p] ||
            (l.chain == d.levels[p] + 2 && Leads(d, 1 - p) && d.engines[1 - p].sendingChain.Some?)
  {
    LevelParity(d.engines[p], d.line, p, d.levels[p]);
    LetterForSide(d, p, l);
  }

  /**
   * One delivery in step: the sent text comes out exactly when the message is in reach, a duplicate
   * report changes nothing, and the two sides stay in step.
   */
  lemma DeliverKeepsInv(seed: nat, d: Duo, p: Side, l: Letter, newLocal: KeyId, st: State, level: int, r: ReceiveStep,
                        next: Duo)
    requires DuoInv(seed, d) && NewKey(d.line, newLocal) && st == d.engines[p] && level == d.levels[p]
    requires SideInv(st, d.line, p, level) && LetterOk(d, l) && l.chain % 2 != p
    requires !Lost(st, level, l) && WireValid(l.msg.header)
    requires r == Decrypt(st, l.msg, newLocal)
    requires next == Receipt(d, p, l.chain, newLocal, r.state)
    ensures DuoInv(seed, next)
    ensures Handled(r, st, level, l)
  {
    LetterFits(seed, d, p, l);
    SideReceives(seed, st, d.line, p, level, l, newLocal, r);
    ReceiptKeepsInv(seed, d, p, l.chain, newLocal, r.state, next);
  }

  lemma LocalKey(st: State, line: seq<Link>, p: Side, level: int)
    requires SideInv(st, line, p, level)
    ensures exists c :: 0 <= c < |line| && st.dhs == line[c].pub
  {
    assert st.dhs == line[level + 1].pub;
  }

  // Runs ------------------------------------------------------------------------------------------

  ghost predicate IsRun(run: seq<Duo>, actions: seq<Action>) {
    && |run| == |actions| + 1
    && forall i :: 0 <= i < |actions| ==>
                     IsStep(run[i], actions[i], run[i + 1])
  }

  ghost predicate IsStep(d: Duo, a: Action, next: Duo) {
    CanStep(d, a) && Careful(d, a) && next == DuoStep(d, a)
  }

  function Begin(seed: nat, a: KeyId, b: KeyId, capA: nat, capB: nat): Duo {
    var start := Link(a, Seed(seed), InitChain(Seed(seed)));
    Duo([InitialState(Seed(seed), true, None, a, capA), InitialState(Seed(seed), false, None, b, capB)],
        [-1, 0], [start, NextLink(start, b)], [])
  }

  lemma BeginInv(seed: nat, a: KeyId, b: KeyId, capA: nat, capB: nat)
    requires a != b && capA >= 1 && capB >= 1
    ensures DuoInv(seed, Begin(seed, a, b, capA, capB))
  {
  }

  lemma DeliverStep(seed: nat, d: Duo, p: Side, i: nat, newLocal: KeyId)
    requires DuoInv(seed, d) && CanStep(d, Deliver(p, i, newLocal)) && Careful(d, Deliver(p, i, newLocal))
    ensures DuoInv(seed, DuoStep(d, Deliver(p, i, newLocal)))
    ensures Handled(Decrypt(d.engines[p], d.sent[i].msg, newLocal), d.engines[p], d.levels[p], d.sent[i])
  {
    var l, st := d.sent[i], d.engines[p];
    assert LetterOk(d, l);
    LetterFits(seed, d, p, l);
    var r := Decrypt(st, l.msg, newLocal);
    DeliverKeepsInv(seed, d, p, l, newLocal, st, d.levels[p], r, Receipt(d, p, l.chain, newLocal, r.state));
  }

  lemma StepKeepsInv(seed: nat, d: Duo, a: Action)
    requires DuoInv(seed, d) && CanStep(d, a) && Careful(d, a)
    ensures DuoInv(seed, DuoStep(d, a))
  {
    match a {
      case Send(p, text) => SendKeepsInv(seed, d, p, text, DuoStep(d, a));
      case Deliver(p, i, newLocal) => DeliverStep(seed, d, p, i, newLocal);
    }
  }

  lemma {:induction false} RunKeepsInv(seed: nat, run: seq<Duo>, actions: seq<Action>, k: nat)
    requires IsRun(run, actions) && DuoInv(seed, run[0]) && k < |run|
    ensures DuoInv(seed, run[k])
  {
    if k > 0 {
      RunKeepsInv(seed, run, actions, k - 1);
      StepKeepsInv(seed, run[k - 1], actions[k - 1]);
    }
  }

  /**
   * Two-party delivery. In every run of sends and deliveries from paired initial states in which no
   * lost message is delivered, and at every point of it, the root keys are equal or one step apart
   * and each delivery yields the sent text exactly when the message is in reach.
   */
  lemma TwoPartyDelivery(seed: nat, a: KeyId, b: KeyId, capA: nat, capB: nat, run: seq<Duo>, actions: seq<Action>, k: nat)
    requires a != b && capA >= 1 && capB >= 1
    requires IsRun(run, actions) && run[0] == Begin(seed, a, b, capA, capB) && k < |run|
    ensures |run[k].engines| == 2 && Lockstep(run[k])
    ensures k < |actions| ==> IsStep(run[k], actions[k], run[k + 1])
    ensures k < |actions| && actions[k].Deliver? ==>
              var d, p, l := run[k], actions[k].p, run[k].sent[actions[k].i];
              Handled(Decrypt(d.engines[p], l.msg, actions[k].newLocal), d.engines[p], d.levels[p], l)
  {
    BeginInv(seed, a, b, capA, capB);
    RunKeepsInv(seed, run, actions, k);
    InvIsLockstep(seed, run[k]);
    assert k < |actions| ==> IsStep(run[k], actions[k], run[k + 1]);
    if k < |actions| && actions[k].Deliver? {
      DeliverStep(seed, run[k], actions[k].p, actions[k].i, actions[k].newLocal);
    }
  }

  // Lost messages -----------------------------------------------------------------------------------

  lemma {:induction false} LineMeasures(seed: nat, line: seq<Link>, c: nat)
    requires LineOk(seed, line) && c < |line|
    ensures Depth(line[c].root) == c && Level(line[c].start) == c
  {
    if c > 0 {
      LineMeasures(seed, line, c - 1);
      assert Linked(line, c);
    }
  }

  /** A chain started after a link does not produce the message keys of an earlier link. */
  lemma LaterChainDiffers(chain: Key, link: Link, n: nat)
    requires Level(link.start) < Level(chain)
    ensures MessageKey(Iterate(chain, n)) != KeyAt(link, n)
  {
    IterateMeasures(chain, n);
    IterateMeasures(link.start, n);
  }

  lemma LostDispatch(seed: nat, st: State, line: seq<Link>, p: Side, level: int, l: Letter, newLocal: KeyId)
    requires LineOk(seed, line) && SideInv(st, line, p, level) && IsLetter(line, l)
    requires Lost(st, level, l)
    ensures StoresOk(st) && Dispatched(st, l.msg.header)
    ensures Prepare(st, l.msg.header.dh, newLocal) == TurnReceive(st, l.msg.header.dh, newLocal)
    ensures Depth(st.rootKey) >= level
  {
    LineMeasures(seed, line, level);
    LineMeasures(seed, line, level + 1);
    assert PubsDiffer(line, l.chain, level);
  }

  /** A chain started after a link opens nothing that was sealed on that link. */
  lemma LaterChainRejects(s: State, link: Link, l: Letter, r: ReceiveStep)
    requires StoresOk(s) && s.receivingChain.Some? && s.dhr.Some? && s.nr == 0
    requires Level(link.start) < Level(s.receivingChain.value)
    requires l.msg == Seal(KeyAt(link, l.msg.header.n), l.msg.header, l.text)
    requires r == TakeNext(s, l.msg)
    ensures r.state.rootKey == s.rootKey && r.state.dhs == s.dhs && !r.outcome.Accepted?
  {
    TakeNextAdvances(s, l.msg);
    TakeNextOpens(s, l.msg, r);
    LaterChainDiffers(s.receivingChain.value, link, l.msg.header.n);
  }

  lemma AfterTurn(st: State, msg: WireMessage, newLocal: KeyId, s: State)
    requires StoresOk(st) && Dispatched(st, msg.header) && WireValid(msg.header)
    requires s == Prepare(st, msg.header.dh, newLocal) && s.nr == 0 && s.receivingChain.Some? && s.dhr.Some?
    requires s.maxSkipped >= 1 && s.maxReceived >= 1
    ensures Decrypt(st, msg, newLocal) ==
            if msg.header.n <= MAX_SKIP_DISTANCE then TakeNext(s, msg) else ReceiveStep(s, SkipTooFar, None)
  {
  }

  /** What the turn on a lost message does to the receiver, whatever comes after it. */
  lemma LostTurns(st: State, link: Link, level: nat, l: Letter, newLocal: KeyId, s: State, r: ReceiveStep)
    requires StoresOk(st) && Dispatched(st, l.msg.header) && WireValid(l.msg.header)
    requires s == Prepare(st, l.msg.header.dh, newLocal) == TurnReceive(st, l.msg.header.dh, newLocal)
    requires l.msg == Seal(KeyAt(link, l.msg.header.n), l.msg.header, l.text)
    requires Level(link.start) < level <= Depth(st.rootKey)
    requires r == Decrypt(st, l.msg, newLocal)
    ensures r.state.rootKey == RootNext(st.rootKey, SharedSecret(st.dhs, l.msg.header.dh))
    ensures r.state.dhs == newLocal && !r.outcome.Accepted?
  {
    AfterTurn(st, l.msg, newLocal, s);
    if l.msg.header.n <= MAX_SKIP_DISTANCE {
      LaterChainRejects(s, link, l, r);
    }
  }

  /** The root key after a turn onto an earlier key is on no link, nor one step from one by a new key. */
  lemma OffTheLine(seed: nat, line: seq<Link>, c: nat, i: nat, newLocal: KeyId, root: Key, k: nat, x: KeyId)
    requires LineOk(seed, line) && NewKey(line, newLocal) && c + 2 <= i < |line| && k < |line|
    requires root.RootNext? && root.dh == SharedSecret(line[i].pub, line[c].pub)
    ensures line[k].root != root
    ensures line[k].root != RootNext(root, SharedSecret(newLocal, x))
    ensures root != RootNext(line[k].root, SharedSecret(newLocal, x))
  {
    assert PubsDiffer(line, c, i);
    if k > 0 {
      assert Linked(line, k);
      assert PubsDiffer(line, k - 1, k);
      if line[k].root.dh == root.dh {
        PubIsUnique(seed, line, i, if line[i].pub == line[k].pub then k else k - 1);
        PubIsUnique(seed, line, c, if line[c].pub == line[k].pub then k else k - 1);
      }
    }
  }

  /** The shared secret a side at this level computes from the key of an earlier chain. */
  function StrayShare(line: seq<Link>, level: int, c: int): Shared
    requires 0 <= c < |line| && 0 <= level + 1 < |line|
  {
    SharedSecret(line[level + 1].pub, line[c].pub)
  }

  lemma LostSide(seed: nat, st: State, line: seq<Link>, p: Side, level: nat, l: Letter, newLocal: KeyId, r: ReceiveStep)
    requires LineOk(seed, line) && SideInv(st, line, p, level) && IsLetter(line, l)
    requires Lost(st, level, l) && WireValid(l.msg.header) && r == Decrypt(st, l.msg, newLocal)
    ensures r.state.dhs == newLocal && !r.outcome.Accepted?
    ensures r.state.rootKey == RootNext(st.rootKey, StrayShare(line, level, l.chain))
  {
    LostDispatch(seed, st, line, p, level, l, newLocal);
    LineMeasures(seed, line, l.chain);
    LostTurns(st, line[l.chain], level, l, newLocal, Prepare(st, l.msg.header.dh, newLocal), r);
    RootOfSide(st, line, p, level);
  }

  lemma OutOfStep(seed: nat, line: seq<Link>, c: nat, i: nat, a: State, b: State, k: nat)
    requires LineOk(seed, line) && NewKey(line, a.dhs) && c + 2 <= i < |line| && k < |line|
    requires a.rootKey.RootNext? && a.rootKey.dh == SharedSecret(line[i].pub, line[c].pub)
    requires b.rootKey == line[k].root
    ensures !InStep(a, b)
  {
    OffTheLine(seed, line, c, i, a.dhs, a.rootKey, k, b.dhs);
  }

  lemma LostReceipt(seed: nat, d: Duo, p: Side, c: nat, newLocal: KeyId, st: State, root: Key, next: Duo)
    requires DuoInv(seed, d) && NewKey(d.line, newLocal) && c + 1 <= d.levels[p] && c % 2 != p
    requires st.dhs == newLocal && next == Receipt(d, p, c, newLocal, st)
    requires st.rootKey == RootNext(root, StrayShare(d.line, d.levels[p], c))
    ensures !Lockstep(next)
  {
    var q, lq := d.engines[1 - p], d.levels[1 - p];
    LevelParity(d.engines[p], d.line, p, d.levels[p]);
    RootOfSide(q, d.line, 1 - p, lq);
    LevelParity(q, d.line, 1 - p, lq);
    OutOfStep(seed, d.line, c, d.levels[p] + 1, st, q, if q.sendingChain.Some? then lq + 1 else lq);
    InStepSymmetric(st, q);
  }

  /** A lost message turns the receiver onto a root key out of step with the peer. */
  lemma LostBreaksLockstep(seed: nat, d: Duo, p: Side, l: Letter, newLocal: KeyId, st: State, level: nat, r: ReceiveStep,
                           next: Duo)
    requires DuoInv(seed, d) && NewKey(d.line, newLocal) && st == d.engines[p] && level == d.levels[p]
    requires SideInv(st, d.line, p, level) && IsLetter(d.line, l) && l.chain % 2 != p
    requires Lost(st, level, l) && WireValid(l.msg.header)
    requires r == Decrypt(st, l.msg, newLocal)
    requires next == Receipt(d, p, l.chain, newLocal, r.state)
    ensures !Lockstep(next)
  {
    LostSide(seed, st, d.line, p, level, l, newLocal, r);
    LostReceipt(seed, d, p, l.chain, newLocal, r.state, st.rootKey, next);
  }

  /** A delivery keeps the two sides in step if and only if the message is not lost. */
  lemma InStepIffNotLost(seed: nat, d: Duo, p: Side, i: nat, newLocal: KeyId)
    requires DuoInv(seed, d) && CanStep(d, Deliver(p, i, newLocal))
    ensures var next := DuoStep(d, Deliver(p, i, newLocal));
            |next.engines| == 2 && (Lockstep(next) <==> !Lost(d.engines[p], d.levels[p], d.sent[i]))
  {
    var l, st, level := d.sent[i], d.engines[p], d.levels[p];
    assert LetterOk(d, l);
    LetterFits(seed, d, p, l);
    var r := Decrypt(st, l.msg, newLocal);
    var next := Receipt(d, p, l.chain, newLocal, r.state);
    if Lost(st, level, l) {
      LostBreaksLockstep(seed, d, p, l, newLocal, st, level, r, next);
    } else {
      DeliverKeepsInv(seed, d, p, l, newLocal, st, level, r, next);
      InvIsLockstep(seed, next);
    }
  }

  // An ordinary talk in which one message is slow: A sends two, B answers the first, A answers back.

  const CHAIN0 := InitChain(Seed(0))
  const LINK1 := KdfRoot(Seed(0), Dh(1, 2))
  const LINK2 := KdfRoot(LINK1.0, Dh(2, 3))
  const FIRST := Letter(0, Seal(MessageKey(CHAIN0), Header(1, 0, 0), [1]), [1])
  const SLOW := Letter(0, Seal(MessageKey(ChainNext(CHAIN0)), Header(1, 1, 0), [2]), [2])
  const REPLY := Letter(1, Seal(MessageKey(LINK1.1), Header(2, 0, 0), [3]), [3])
  const ANSWER := Letter(2, Seal(MessageKey(LINK2.1), Header(3, 0, 2), [4]), [4])

  const BEGIN := Begin(0, 1, 2, 10, 10)
  const A_SENT2 := BEGIN.engines[0].(sendingChain := Some(ChainNext(ChainNext(CHAIN0))), ns := 2)
  const B_GOT1 := BEGIN.engines[1].(dhr := Some(1), receivingChain := Some(ChainNext(CHAIN0)), nr := 1,
                                    received := [MsgId(1, 0)])
  const B_SENT1 := B_GOT1.(rootKey := LINK1.0, sendingChain := Some(ChainNext(LINK1.1)), ns := 1)
  const A_GOT1 := TurnReceive(A_SENT2, 2, 3).(receivingChain := Some(ChainNext(LINK1.1)), nr := 1,
                                              received := [MsgId(2, 0)])
  const A_SENT3 := A_GOT1.(rootKey := LINK2.0, sendingChain := Some(ChainNext(LINK2.1)), ns := 1)
  const B_GOT2 := TurnReceive(B_SENT1, 3, 4).(receivingChain := Some(ChainNext(LINK2.1)), nr := 1,
                                              received := [MsgId(1, 0), MsgId(3, 0)])
  const LINE3 := BEGIN.line + [NextLink(BEGIN.line[1], 3)]

  /** The point of the talk where the slow message is the only one missing. */
  const LATE := Duo([A_SENT3, B_GOT2], [1, 2], LINE3 + [NextLink(LINE3[2], 4)], [FIRST, SLOW, REPLY, ANSWER])

  lemma TalkSends()
    ensures Encrypt(BEGIN.engines[0], [1]).outcome == Sent(FIRST.msg)
    ensures Encrypt(Encrypt(BEGIN.engines[0], [1]).state, [2]) == SendStep(A_SENT2, Sent(SLOW.msg), Some(SLOW.msg.cipher.key))
    ensures Encrypt(B_GOT1, [3]) == SendStep(B_SENT1, Sent(REPLY.msg), Some(REPLY.msg.cipher.key))
    ensures Encrypt(A_GOT1, [4]) == SendStep(A_SENT3, Sent(ANSWER.msg), Some(ANSWER.msg.cipher.key))
  {
  }

  lemma BGetsFirst()
    ensures Decrypt(BEGIN.engines[1], FIRST.msg, 5) == ReceiveStep(B_GOT1, Accepted([1]), Some(FIRST.msg.cipher.key))
  {
    ReceiveHead(BEGIN.engines[1], FIRST.msg, 5, BEGIN.engines[1].(dhr := Some(1)), FIRST.text);
  }

  lemma AGetsReply()
    ensures Decrypt(A_SENT2, REPLY.msg, 3) == ReceiveStep(A_GOT1, Accepted([3]), Some(REPLY.msg.cipher.key))
  {
    ReceiveHead(A_SENT2, REPLY.msg, 3, TurnReceive(A_SENT2, 2, 3), REPLY.text);
  }

  lemma BGetsAnswer()
    ensures Decrypt(B_SENT1, ANSWER.msg, 4) == ReceiveStep(B_GOT2, Accepted([4]), Some(ANSWER.msg.cipher.key))
  {
    ReceiveHead(B_SENT1, ANSWER.msg, 4, TurnReceive(B_SENT1, 3, 4), ANSWER.text);
  }

  const TALK1 := BEGIN.(engines := [Encrypt(BEGIN.engines[0], [1]).state, BEGIN.engines[1]], sent := [FIRST])
  const TALK2 := BEGIN.(engines := [A_SENT2, BEGIN.engines[1]], sent := [FIRST, SLOW])
  const TALK3 := BEGIN.(engines := [A_SENT2, B_GOT1], sent := [FIRST, SLOW])
  const TALK4 := BEGIN.(engines := [A_SENT2, B_SENT1], sent := [FIRST, SLOW, REPLY])
  const TALK5 := Duo([A_GOT1, B_SENT1], [1, 0], LINE3, [FIRST, SLOW, REPLY])
  const TALK6 := Duo([A_SENT3, B_SENT1], [1, 0], LINE3, [FIRST, SLOW, REPLY, ANSWER])

  lemma TalkStep(d: Duo, a: Action, next: Duo)
    requires IsStep(d, a, next)
    ensures DuoInv(0, d) ==> DuoInv(0, next)
  {
    if DuoInv(0, d) {
      StepKeepsInv(0, d, a);
    }
  }

  lemma TalkFirstSteps()
    ensures IsStep(BEGIN, Send(0, [1]), TALK1) && IsStep(TALK1, Send(0, [2]), TALK2)
  {
    TalkSends();
  }

  lemma TalkLaterSteps()
    ensures IsStep(TALK3, Send(1, [3]), TALK4) && IsStep(TALK5, Send(0, [4]), TALK6)
  {
    TalkSends();
  }

  lemma TalkFirstStep()
    ensures IsStep(TALK2, Deliver(1, 0, 5), TALK3)
  {
    BGetsFirst();
  }

  lemma TalkReplyStep()
    ensures IsStep(TALK4, Deliver(0, 2, 3), TALK5)
  {
    AGetsReply();
  }

  lemma TalkAnswerStep()
    ensures IsStep(TALK6, Deliver(1, 3, 4), LATE)
  {
    BGetsAnswer();
  }

  lemma LateIsReached()
    ensures DuoInv(0, LATE)
  {
    BeginInv(0, 1, 2, 10, 10);
    TalkFirstSteps();
    TalkLaterSteps();
    TalkFirstStep();
    TalkReplyStep();
    TalkAnswerStep();
    TalkStep(BEGIN, Send(0, [1]), TALK1);
    TalkStep(TALK1, Send(0, [2]), TALK2);
    TalkStep(TALK2, Deliver(1, 0, 5), TALK3);
    TalkStep(TALK3, Send(1, [3]), TALK4);
    TalkStep(TALK4, Deliver(0, 2, 3), TALK5);
    TalkStep(TALK5, Send(0, [4]), TALK6);
    TalkStep(TALK6, Deliver(1, 3, 4), LATE);
  }

  /**
   * The steps above lead to a point where handing over the slow message, unchanged, puts the two
   * parties out of step.
   */
  lemma LateMessageBreaksTheSession()
    ensures CanStep(LATE, Deliver(1, 1, 6)) && LATE.sent[1] == SLOW
    ensures !Lockstep(DuoStep(LATE, Deliver(1, 1, 6)))
  {
    LateIsReached();
    assert Lost(LATE.engines[1], LATE.levels[1], SLOW);
    InStepIffNotLost(0, LATE, 1, 1, 6);
  }
}

/**
 * Two session managers talking over a network that may lose letters but keeps the order of each
 * direction, when the responder's ratchet starts without the initiator's key, so that the parties take turns with new
 * ratchet keys (client/session_manager.py, ratchet/double_ratchet.py).
 *
 * Chain c is sent by side c % 2; a party opens chain c + 1 after receiving from chain c.
 */
module ManagedTurns {
  import opened Common
  import opened Kdf
  import opened Stores
  import R = PairRatchet
  import opened SessionManager

  // The chains ------------------------------------------------------------------------------------------

  /** The key a chain is sent under, the root key once it is open, and its first chain key. */
  datatype Link = Link(pub: KeyId, root: Key, start: Key)

  function LinkFrom(root: Key, mine: KeyId, theirs: KeyId): Link {
    var (next, chain) := KdfRoot(root, SharedSecret(mine, theirs));
    Link(mine, next, chain)
  }

  predicate Linked(line: seq<Link>, c: int)
    requires 0 < c < |line|
  {
    line[c] == LinkFrom(line[c - 1].root, line[c].pub, line[c - 1].pub)
  }

  predicate PubsDiffer(line: seq<Link>, c: int, d: int)
    requires 0 <= c < d < |line|
  {
    line[c].pub != line[d].pub
  }

  ghost predicate NewKey(u: Setup, line: seq<Link>, x: KeyId) {
    x != u.b && forall c :: 0 <= c < |line| ==> line[c].pub != x
  }

  ghost predicate LineOk(u: Setup, line: seq<Link>) {
    && |line| > 0 && line[0] == LinkFrom(u.seed, u.a, u.b)
    && (forall c :: 0 < c < |line| ==> Linked(line, c))
    && (forall c, d :: 0 <= c < d < |line| ==> PubsDiffer(line, c, d))
    && (forall c :: 0 <= c < |line| ==> line[c].pub != u.b)
  }

  lemma PubIsUnique(u: Setup, line: seq<Link>, c: nat, d: nat)
    requires LineOk(u, line) && c < |line| && d < |line| && line[c].pub == line[d].pub
    ensures c == d
  {
    assert (c < d ==> PubsDiffer(line, c, d)) && (d < c ==> PubsDiffer(line, d, c));
  }

  lemma LineGrows(u: Setup, line: seq<Link>, x: KeyId)
    requires LineOk(u, line) && NewKey(u, line, x)
    ensures LineOk(u, line + [LinkFrom(line[|line| - 1].root, x, line[|line| - 1].pub)])
  {
    var more := line + [LinkFrom(line[|line| - 1].root, x, line[|line| - 1].pub)];
    forall c | 0 < c < |more|
      ensures Linked(more, c)
    {
      assert c < |line| ==> Linked(line, c);
    }
    forall c, d | 0 <= c < d < |more|
      ensures PubsDiffer(more, c, d)
    {
      assert d < |line| ==> PubsDiffer(line, c, d);
    }
  }

  // The talk --------------------------------------------------------------------------------------------

  datatype Letter = Letter(chain: nat, env: Envelope, text: bytes)

  /**
   * A side: its session, the chain it receives from (-1 and -2 for initiator and responder before the
   * first), what it has sent, where it is in the other's letters, how many of those it has been
   * given, and which one last (-1 for none).
   */
  datatype Party = Party(ctx: Context, level: int, sent: seq<Letter>, at: nat, heard: nat, last: int)

  datatype Talk = Talk(first: Party, second: Party, line: seq<Link>)

  datatype Action = Say(p: Side, text: bytes) | Hand(p: Side, newLocal: KeyId) | Lose(p: Side)

  function PartyOf(t: Talk, p: Side): Party {
    if p == 0 then t.first else t.second
  }

  function WithParty(t: Talk, p: Side, m: Party): Talk {
    if p == 0 then t.(first := m) else t.(second := m)
  }

  function Begin(u: Setup): Talk {
    Talk(Party(NewContext(R.Initial(u.seed, u.a, Some(u.b), true, 1000)), -1, [], 0, 0, -1),
         Party(NewContext(R.Initial(u.seed, u.b, None, false, 1000)), -2, [], 0, 0, -1), [LinkFrom(u.seed, u.a, u.b)])
  }

  /** The chain a side sends on, or will. */
  function OwnChain(level: int): nat {
    if level < -1 then 1 else level + 1
  }

  /** encrypt_for */
  function Spoken(u: Setup, p: Side, m: Party, text: bytes): Party {
    var (pair, r) := R.Encrypt(m.ctx.ratchet, text);
    var next := m.(ctx := m.ctx.(ratchet := pair));
    if r.Sent? then
      var env := Envelope(IdOfSide(u, p), r.msg.header.dh, r.msg.header.n, r.msg.header.pn, r.msg.cipher);
      next.(sent := m.sent + [Letter(OwnChain(m.level), env, text)])
    else next
  }

  /** decrypt_from; a turn puts the side on the letter's chain. */
  function Given(m: Party, l: Letter, newLocal: KeyId): Party {
    var c := Receive(m.ctx, l.env, newLocal).ctx;
    m.(ctx := c, at := m.at + 1, heard := m.heard + 1, last := m.at, level := if c.ratchet.dhs == newLocal then l.chain else m.level)
  }

  /** A letter that is lost is passed over. */
  function Missed(m: Party): Party {
    m.(at := m.at + 1)
  }

  /** The key generated in a turn is the one of the side's next chain. */
  function Extended(line: seq<Link>, m: Party, newLocal: KeyId): seq<Link>
    requires line != []
  {
    if m.ctx.ratchet.dhs == newLocal
    then line + [LinkFrom(line[|line| - 1].root, newLocal, line[|line| - 1].pub)]
    else line
  }

  predicate HasNext(t: Talk, p: Side) {
    PartyOf(t, p).at < |PartyOf(t, 1 - p).sent|
  }

  /** The next letter for p is the oldest one that has neither been handed over nor lost. */
  function NextLetter(t: Talk, p: Side): Letter
    requires HasNext(t, p)
  {
    PartyOf(t, 1 - p).sent[PartyOf(t, p).at]
  }

  /** There is a letter to hand over, and a key pair generated on the way is new. */
  ghost predicate Enabled(u: Setup, t: Talk, a: Action) {
    t.line != [] && (!a.Say? ==> HasNext(t, a.p)) && (a.Hand? ==> NewKey(u, t.line, a.newLocal))
  }

  function TalkStep(u: Setup, t: Talk, a: Action): Talk
    requires t.line != [] && (!a.Say? ==> HasNext(t, a.p))
  {
    match a
    case Say(p, text) => WithParty(t, p, Spoken(u, p, PartyOf(t, p), text))
    case Hand(p, newLocal) =>
      var m := Given(PartyOf(t, p), NextLetter(t, p), newLocal);
      WithParty(t, p, m).(line := Extended(t.line, m, newLocal))
    case Lose(p) => WithParty(t, p, Missed(PartyOf(t, p)))
  }

  // Letters ---------------------------------------------------------------------------------------------

  predicate IsLetter(u: Setup, line: seq<Link>, p: Side, l: Letter) {
    && l.chain < |line| && l.chain % 2 == p
    && l.env.session == IdOfSide(u, p) && l.env.dh == line[l.chain].pub
    && l.env.cipher == R.Sealed(MessageKey(Iterate(line[l.chain].start, l.env.n)), R.NonceNumber(l.env.n), l.text)
  }

  /** After l, the next place is the next number of its chain, or the beginning of the sender's next chain. */
  predicate Follows(l: Letter, chain: nat, n: nat, pn: nat) {
    || (chain == l.chain && n == l.env.n + 1 && pn == l.env.pn)
    || (chain == l.chain + 2 && n == 0 && pn == l.env.n + 1)
  }

  /** The place after the first k letters of side p. */
  predicate Place(letters: seq<Letter>, p: Side, k: nat, chain: nat, n: nat, pn: nat) {
    if k == 0 then chain == p && n == 0 && pn == 0
    else k <= |letters| && Follows(letters[k - 1], chain, n, pn)
  }

  predicate InPlace(letters: seq<Letter>, p: Side, k: nat)
    requires k < |letters|
  {
    Place(letters, p, k, letters[k].chain, letters[k].env.n, letters[k].env.pn)
  }

  ghost predicate LettersOk(u: Setup, line: seq<Link>, p: Side, letters: seq<Letter>) {
    && (forall l :: l in letters ==> IsLetter(u, line, p, l))
    && (forall k :: 0 <= k < |letters| ==> InPlace(letters, p, k))
  }

  // One side --------------------------------------------------------------------------------------------

  /** Room for skipped keys. */
  const ROOM: nat := 1000

  predicate RatchetOk(u: Setup, line: seq<Link>, p: Side, level: int, pair: R.Pair) {
    && pair.maxKeys == ROOM
    && if level == -2 then
         && p == 1 && pair.rootKey == u.seed && pair.dhs == u.b && pair.dhr.None?
         && pair.sending.None? && pair.receiving.None? && pair.ns == 0 && pair.nr == 0 && pair.pn == 0
       else
         && -1 <= level && level + 2 <= |line| && (level + 1) % 2 == p
         && pair.dhs == line[level + 1].pub
         && (if pair.sending.Some?
             then pair.sending == Some(Iterate(line[level + 1].start, pair.ns)) && pair.rootKey == line[level + 1].root
             else level >= 0 && pair.ns == 0 && pair.rootKey == line[level].root)
         && (if level == -1 then pair.receiving.None? && pair.dhr == Some(u.b) && pair.nr == 0
             else pair.receiving == Some(Iterate(line[level].start, pair.nr)) && pair.dhr == Some(line[level].pub))
  }

  /** What a side has sent: its place is next, and its own chain is open once something was sent on it. */
  ghost predicate SentOk(letters: seq<Letter>, p: Side, level: int, pair: R.Pair) {
    && Place(letters, p, |letters|, OwnChain(level), pair.ns, pair.pn)
    && (forall l :: l in letters ==> l.chain <= OwnChain(level))
    && (forall l :: l in letters && l.chain == OwnChain(level) ==> pair.ns > 0)
  }

  /** What a side has got: it stands right after the last letter given to it. */
  predicate GotOk(letters: seq<Letter>, p: Side, m: Party) {
    if m.last == -1 then m.level == (if p == 0 then -1 else -2) && m.ctx.fork == Fork(-1, -1, None)
    else
      && 0 <= m.last < m.at <= |letters|
      && var d := letters[m.last];
         && m.level == d.chain && m.ctx.ratchet.nr == d.env.n + 1
         && m.ctx.fork == Fork(d.env.n, d.env.pn, Some(d.env.dh))
  }

  /** Number n under key dh belongs to an earlier chain, or to the current one below nr. */
  predicate PastAt(line: seq<Link>, level: int, nr: nat, dh: KeyId, n: nat, c: int) {
    0 <= c < |line| && line[c].pub == dh && c <= level && (c == level ==> n < nr)
  }

  ghost predicate Past(line: seq<Link>, level: int, nr: nat, dh: KeyId, n: nat) {
    exists c :: PastAt(line, level, nr, dh, n, c)
  }

  ghost predicate CacheOk(line: seq<Link>, level: int, nr: nat, heard: nat, cache: Replay) {
    && cache.maxEntries == CACHE && |cache.seen| == heard
    && (forall x :: x in cache.seen ==> Past(line, level, nr, x.dh, x.n))
    && (forall dh :: dh in cache.highest ==> Past(line, level, nr, dh, cache.highest[dh]))
  }

  /** Every stored key belongs to the past. */
  ghost predicate StoreOk(line: seq<Link>, level: int, nr: nat, skipped: map<MsgId, Key>) {
    forall id :: id in skipped ==> Past(line, level, nr, id.dh, id.n)
  }

  /** A side is in order, given the letters of the other. */
  ghost predicate SideOk(u: Setup, line: seq<Link>, p: Side, m: Party, theirs: seq<Letter>) {
    && LettersOk(u, line, p, m.sent)
    && RatchetOk(u, line, p, m.level, m.ctx.ratchet)
    && SentOk(m.sent, p, m.level, m.ctx.ratchet)
    && GotOk(theirs, p, m)
    && CacheOk(line, m.level, m.ctx.ratchet.nr, m.heard, m.ctx.replay)
    && StoreOk(line, m.level, m.ctx.ratchet.nr, m.ctx.ratchet.skipped)
  }

  /** The side on x has received last; the other side's chain is the one it receives from. */
  predicate Leads(line: seq<Link>, x: int, y: int) {
    x == y + 1 && |line| == x + 2
  }

  /** Everything that was handed over has got through. */
  ghost predicate TalkOk(u: Setup, t: Talk) {
    && LineOk(u, t.line)
    && (Leads(t.line, t.first.level, t.second.level) || Leads(t.line, t.second.level, t.first.level))
    && SideOk(u, t.line, 0, t.first, t.second.sent) && SideOk(u, t.line, 1, t.second, t.first.sent)
  }

  lemma BeginOk(u: Setup)
    requires u.a != u.b
    ensures TalkOk(u, Begin(u))
  {
    assert Iterate(LinkFrom(u.seed, u.a, u.b).start, 0) == LinkFrom(u.seed, u.a, u.b).start;
  }

  // Sending ---------------------------------------------------------------------------------------------

  lemma SideSays(u: Setup, line: seq<Link>, p: Side, level: int, pair: R.Pair, text: bytes)
    requires LineOk(u, line) && RatchetOk(u, line, p, level, pair)
    ensures var (next, r) := R.Encrypt(pair, text);
            if level == -2 then next == pair && r.NoChain?
            else
              && RatchetOk(u, line, p, level, next)
              && next.ns == pair.ns + 1 && next.nr == pair.nr && next.pn == pair.pn && next.skipped == pair.skipped
              && r.Sent? && r.msg.header == R.Header(line[level + 1].pub, pair.pn, pair.ns)
              && r.msg.cipher ==
                 R.Sealed(MessageKey(Iterate(line[level + 1].start, pair.ns)), R.NonceNumber(pair.ns), text)
  {
    if level != -2 {
      assert Iterate(line[level + 1].start, 0) == line[level + 1].start;
      assert Iterate(line[level + 1].start, pair.ns + 1) == ChainNext(Iterate(line[level + 1].start, pair.ns));
      if pair.sending.None? {
        assert Linked(line, level + 1);
      }
    }
  }

  lemma OneMoreLetter(u: Setup, line: seq<Link>, p: Side, level: int, mine: seq<Letter>, pair: R.Pair, l: Letter, next: R.Pair)
    requires LettersOk(u, line, p, mine) && SentOk(mine, p, level, pair) && IsLetter(u, line, p, l)
    requires l.chain == OwnChain(level) && l.env.n == pair.ns && l.env.pn == pair.pn == next.pn && next.ns == pair.ns + 1
    ensures LettersOk(u, line, p, mine + [l]) && SentOk(mine + [l], p, level, next)
  {
    forall k | 0 <= k < |mine| + 1
      ensures InPlace(mine + [l], p, k)
    {
      assert k < |mine| ==> InPlace(mine, p, k);
    }
  }

  lemma MoreLettersSameGot(theirs: seq<Letter>, more: seq<Letter>, p: Side, m: Party)
    requires GotOk(theirs, p, m) && more != [] && more[..|more| - 1] == theirs
    ensures GotOk(more, p, m)
  {
    assert m.last >= 0 ==> more[m.last] == more[..|more| - 1][m.last];
  }

  /** A responder that has received nothing cannot send. */
  lemma SpeakerOk(u: Setup, line: seq<Link>, p: Side, m: Party, theirs: seq<Letter>, text: bytes, next: Party)
    requires LineOk(u, line) && SideOk(u, line, p, m, theirs) && next == Spoken(u, p, m, text)
    ensures SideOk(u, line, p, next, theirs) && next.level == m.level && next.at == m.at
    ensures if m.level == -2 then next == m else next.sent != [] && next.sent[..|next.sent| - 1] == m.sent
  {
    SideSays(u, line, p, m.level, m.ctx.ratchet, text);
    if m.level != -2 {
      var l := next.sent[|m.sent|];
      OneMoreLetter(u, line, p, m.level, m.sent, m.ctx.ratchet, l, next.ctx.ratchet);
      assert next.sent == m.sent + [l];
    }
  }

  lemma ListenerOk(u: Setup, line: seq<Link>, q: Side, m: Party, theirs: seq<Letter>, more: seq<Letter>)
    requires SideOk(u, line, q, m, theirs) && more != [] && more[..|more| - 1] == theirs
    ensures SideOk(u, line, q, m, more)
  {
    MoreLettersSameGot(theirs, more, q, m);
  }

  lemma MovedOk(u: Setup, t: Talk, p: Side, m: Party)
    requires TalkOk(u, t) && SideOk(u, t.line, p, m, PartyOf(t, 1 - p).sent) && m.level == PartyOf(t, p).level
    requires SideOk(u, t.line, 1 - p, PartyOf(t, 1 - p), m.sent)
    ensures TalkOk(u, WithParty(t, p, m))
  {
  }

  lemma BothOk(u: Setup, line: seq<Link>, p: Side, m: Party, q: Party, text: bytes, next: Party)
    requires LineOk(u, line) && SideOk(u, line, p, m, q.sent) && SideOk(u, line, 1 - p, q, m.sent)
    requires next == Spoken(u, p, m, text)
    ensures SideOk(u, line, p, next, q.sent) && SideOk(u, line, 1 - p, q, next.sent) && next.level == m.level
  {
    SpeakerOk(u, line, p, m, q.sent, text, next);
    if m.level != -2 {
      ListenerOk(u, line, 1 - p, q, m.sent, next.sent);
    }
  }

  lemma SayOk(u: Setup, t: Talk, p: Side, text: bytes, m: Party)
    requires TalkOk(u, t) && m == Spoken(u, p, PartyOf(t, p), text)
    ensures TalkOk(u, WithParty(t, p, m))
  {
    BothOk(u, t.line, p, PartyOf(t, p), PartyOf(t, 1 - p), text, m);
    MovedOk(u, t, p, m);
  }

  // Receiving -------------------------------------------------------------------------------------------

  /** The letter does not belong to the past. */
  lemma NextIsNew(u: Setup, line: seq<Link>, level: int, nr: nat, l: Letter, n: nat)
    requires LineOk(u, line) && l.chain < |line| && l.env.dh == line[l.chain].pub
    requires l.chain == level + 2 || (l.chain == level && nr <= n)
    ensures !Past(line, level, nr, l.env.dh, n)
  {
    forall c | PastAt(line, level, nr, l.env.dh, n, c)
      ensures false
    {
      PubIsUnique(u, line, c, l.chain);
    }
  }

  /** A later letter is on a later chain, or has a higher number on the same chain and the same pn. */
  predicate Later(d: Letter, l: Letter) {
    (l.chain == d.chain && l.env.n > d.env.n && l.env.pn == d.env.pn) || l.chain >= d.chain + 2
  }

  lemma {:induction false} LaterLetter(u: Setup, line: seq<Link>, p: Side, letters: seq<Letter>, i: nat, j: nat)
    requires LettersOk(u, line, p, letters) && i < j < |letters|
    ensures Later(letters[i], letters[j])
  {
    assert InPlace(letters, p, j);
    if i < j - 1 {
      LaterLetter(u, line, p, letters, i, j - 1);
    }
  }

  /** Neither number of the letter is below those of the last one taken. */
  predicate Unhurt(m: Party, l: Letter) {
    m.last == -1 || (m.ctx.ratchet.nr <= l.env.n + 1 && m.ctx.fork.lastChainLength <= l.env.pn)
  }

  /** How many numbers the letter skips on its chain. */
  function Gap(m: Party, l: Letter): int {
    if l.chain == m.level then l.env.n - m.ctx.ratchet.nr else l.env.n
  }

  predicate HasRoom(m: Party, l: Letter) {
    Gap(m, l) > 0 ==> |m.ctx.ratchet.skipped| + Gap(m, l) <= ROOM
  }

  /** What becomes of a letter. */
  function Fate(m: Party, l: Letter): SessionManager.Outcome {
    if m.heard >= CACHE || !Unhurt(m, l) then Refused
    else if HasRoom(m, l) then Ratchet(R.Accepted(l.text))
    else Ratchet(R.StoreFull)
  }

  lemma HighestIsPast(u: Setup, line: seq<Link>, level: int, nr: nat, heard: nat, cache: Replay, l: Letter)
    requires LineOk(u, line) && CacheOk(line, level, nr, heard, cache) && l.chain < |line| && l.env.dh == line[l.chain].pub
    requires l.chain == level + 2 || (l.chain == level && nr <= l.env.n)
    ensures KeyOf(l.env) !in cache.seen
    ensures l.env.dh in cache.highest ==> cache.highest[l.env.dh] < l.env.n
  {
    NextIsNew(u, line, level, nr, l, l.env.n);
    if l.env.dh in cache.highest && cache.highest[l.env.dh] >= l.env.n {
      NextIsNew(u, line, level, nr, l, cache.highest[l.env.dh]);
    }
  }

  /** The letter stands on the current chain, at or ahead of the counter, or on the next one. */
  predicate Ahead(m: Party, l: Letter) {
    (m.last >= 0 && l.chain == m.level && l.env.n >= m.ctx.ratchet.nr) || l.chain == m.level + 2
  }

  lemma SideDetects(u: Setup, line: seq<Link>, p: Side, m: Party, theirs: seq<Letter>, l: Letter)
    requires LineOk(u, line) && GotOk(theirs, p, m) && CacheOk(line, m.level, m.ctx.ratchet.nr, m.heard, m.ctx.replay)
    requires Ahead(m, l) && l.chain < |line| && l.env.dh == line[l.chain].pub
    ensures Reaches(m.ctx, l.env) <==> m.heard < CACHE && Unhurt(m, l)
  {
    HighestIsPast(u, line, m.level, m.ctx.ratchet.nr, m.heard, m.ctx.replay, l);
  }

  /** Nothing of the letter's chain from a number on is stored. */
  lemma NothingStored(u: Setup, line: seq<Link>, level: int, nr: nat, skipped: map<MsgId, Key>, l: Letter, from: nat)
    requires LineOk(u, line) && StoreOk(line, level, nr, skipped) && l.chain < |line| && l.env.dh == line[l.chain].pub
    requires l.chain == level + 2 || (l.chain == level && nr <= from)
    ensures R.NothingAhead(skipped, l.env.dh, from)
  {
    forall id | id in skipped && id.dh == l.env.dh
      ensures id.n < from
    {
      if id.n >= from {
        NextIsNew(u, line, level, nr, l, id.n);
      }
    }
  }

  lemma StoreGrows(line: seq<Link>, more: seq<Link>, level: int, nr: nat, level': int, nr': nat, before: map<MsgId, Key>,
                   after: map<MsgId, Key>, c: nat, lo: nat)
    requires StoreOk(line, level, nr, before) && line <= more && (level < level' || (level == level' && nr <= nr'))
    requires c == level' && c < |more| && R.GrownBy(before, after, more[c].pub, lo, nr')
    ensures StoreOk(more, level', nr', after)
  {
    forall id | id in after
      ensures Past(more, level', nr', id.dh, id.n)
    {
      if id in before {
        PastGrows(line, more, level, nr, level', nr', id.dh, id.n);
      } else {
        assert PastAt(more, level', nr', id.dh, id.n, c);
      }
    }
  }

  lemma IsHonest(u: Setup, line: seq<Link>, p: Side, l: Letter)
    requires IsLetter(u, line, p, l)
    ensures MessageOf(l.env) == R.Honest(l.env.dh, l.env.pn, l.env.n, line[l.chain].start, l.text)
  {
  }

  /** A letter of the current chain, after a gap or none. */
  lemma RatchetTakes(u: Setup, line: seq<Link>, p: Side, m: Party, l: Letter, newLocal: KeyId, r: R.Received)
    requires var pair := m.ctx.ratchet;
             && LineOk(u, line) && RatchetOk(u, line, p, m.level, pair) && IsLetter(u, line, 1 - p, l)
             && StoreOk(line, m.level, pair.nr, pair.skipped)
             && l.chain == m.level && l.env.n >= pair.nr && HasRoom(m, l)
             && r == R.Decrypt(pair, MessageOf(l.env), newLocal)
    ensures RatchetOk(u, line, p, m.level, r.pair) && r.outcome == R.Accepted(l.text)
    ensures r.pair == m.ctx.ratchet.(receiving := r.pair.receiving, nr := l.env.n + 1, skipped := r.pair.skipped)
    ensures StoreOk(line, m.level, r.pair.nr, r.pair.skipped)
  {
    var pair := m.ctx.ratchet;
    NothingStored(u, line, m.level, pair.nr, pair.skipped, l, pair.nr);
    IsHonest(u, line, 1 - p, l);
    assert r == R.TakeNext(pair, MessageOf(l.env));
    R.GapOpens(pair, MessageOf(l.env), line[l.chain].start, l.text, r);
    StoreGrows(line, line, m.level, pair.nr, m.level, r.pair.nr, pair.skipped, r.pair.skipped, l.chain, pair.nr);
  }

  /** The turn that a letter of the next chain makes, when this side's own chain is open or it has none yet. */
  lemma RatchetPrepares(u: Setup, line: seq<Link>, p: Side, level: int, pair: R.Pair, l: Letter, newLocal: KeyId, s: R.Pair)
    requires LineOk(u, line) && RatchetOk(u, line, p, level, pair) && IsLetter(u, line, 1 - p, l)
    requires l.chain == level + 2 < |line| && (level == -2 || pair.sending.Some?)
    requires s == R.TurnReceive(pair, l.env.dh, newLocal)
    ensures R.Prepare(pair, l.env.dh, newLocal) == s
    ensures s.rootKey == line[l.chain].root && s.receiving == Some(line[l.chain].start)
  {
    if level >= 0 {
      assert PubsDiffer(line, level, level + 2);
    }
    assert pair.dhr != Some(l.env.dh);
    if level >= -1 {
      assert Linked(line, level + 2);
    }
  }

  lemma RatchetTurns(u: Setup, line: seq<Link>, more: seq<Link>, p: Side, m: Party, l: Letter, newLocal: KeyId, r: R.Received)
    requires var pair := m.ctx.ratchet;
             && LineOk(u, line) && RatchetOk(u, line, p, m.level, pair) && IsLetter(u, line, 1 - p, l)
             && StoreOk(line, m.level, pair.nr, pair.skipped)
             && l.chain == m.level + 2 && |line| == m.level + 3 && (m.level == -2 || pair.sending.Some?) && HasRoom(m, l)
             && r == R.Decrypt(pair, MessageOf(l.env), newLocal)
    requires more == line + [LinkFrom(line[l.chain].root, newLocal, line[l.chain].pub)]
    ensures RatchetOk(u, more, p, m.level + 2, r.pair) && r.outcome == R.Accepted(l.text)
    ensures r.pair.nr == l.env.n + 1 && r.pair.ns == 0 && r.pair.pn == m.ctx.ratchet.ns && r.pair.dhs == newLocal
    ensures StoreOk(more, m.level + 2, r.pair.nr, r.pair.skipped)
  {
    var pair := m.ctx.ratchet;
    var s := R.TurnReceive(pair, l.env.dh, newLocal);
    RatchetPrepares(u, line, p, m.level, pair, l, newLocal, s);
    NothingStored(u, line, m.level, pair.nr, pair.skipped, l, 0);
    IsHonest(u, line, 1 - p, l);
    assert r == R.TakeNext(s, MessageOf(l.env));
    TurnOpens(s, MessageOf(l.env), line[l.chain].start, l.text, r);
    StoreGrows(line, more, m.level, pair.nr, m.level + 2, r.pair.nr, pair.skipped, r.pair.skipped, l.chain, 0);
    assert r.pair.dhs == more[m.level + 3].pub;
  }

  lemma TurnOpens(s: R.Pair, msg: R.Message, c: Key, text: bytes, r: R.Received)
    requires s.receiving == Some(c) && s.nr == 0 && s.dhr == Some(msg.header.dh)
    requires R.NothingAhead(s.skipped, msg.header.dh, 0)
    requires msg.header.n > 0 ==> |s.skipped| + msg.header.n <= s.maxKeys
    requires msg == R.Honest(msg.header.dh, msg.header.pn, msg.header.n, c, text) && r == R.TakeNext(s, msg)
    ensures r.outcome == R.Accepted(text)
    ensures r.pair ==
            s.(receiving := Some(Iterate(c, msg.header.n + 1)), nr := msg.header.n + 1, skipped := r.pair.skipped)
    ensures R.GrownBy(s.skipped, r.pair.skipped, msg.header.dh, 0, msg.header.n)
  {
    assert Iterate(c, 0) == c;
    R.GapOpens(s, msg, c, text, r);
  }

  /** A letter whose gap does not fit into the store is refused by the ratchet. */
  lemma RatchetRefuses(u: Setup, line: seq<Link>, p: Side, m: Party, l: Letter, newLocal: KeyId, r: R.Received)
    requires var pair := m.ctx.ratchet;
             && LineOk(u, line) && RatchetOk(u, line, p, m.level, pair) && IsLetter(u, line, 1 - p, l)
             && StoreOk(line, m.level, pair.nr, pair.skipped) && Ahead(m, l)
             && (l.chain == m.level + 2 ==> m.level == -2 || pair.sending.Some?) && !HasRoom(m, l)
             && r == R.Decrypt(pair, MessageOf(l.env), newLocal)
    ensures r.outcome == R.StoreFull
  {
    var pair := m.ctx.ratchet;
    var from := if l.chain == m.level then pair.nr else 0;
    NothingStored(u, line, m.level, pair.nr, pair.skipped, l, from);
    var s := R.Prepare(pair, l.env.dh, newLocal);
    if l.chain == m.level + 2 {
      RatchetPrepares(u, line, p, m.level, pair, l, newLocal, R.TurnReceive(pair, l.env.dh, newLocal));
    }
    assert r == R.TakeNext(s, MessageOf(l.env));
    R.GapOverfills(s, l.env.dh, l.env.n);
    R.GapOverflows(s, MessageOf(l.env), r);
  }

  lemma PastGrows(line: seq<Link>, more: seq<Link>, level: int, nr: nat, level': int, nr': nat, dh: KeyId, n: nat)
    requires Past(line, level, nr, dh, n) && line <= more && (level < level' || (level == level' && nr <= nr'))
    ensures Past(more, level', nr', dh, n)
  {
    var c :| PastAt(line, level, nr, dh, n, c);
    assert PastAt(more, level', nr', dh, n, c);
  }

  lemma CacheTakesOn(line: seq<Link>, more: seq<Link>, level: int, nr: nat, heard: nat, cache: Replay, l: Letter, level': int,
                   nr': nat)
    requires CacheOk(line, level, nr, heard, cache) && Accept(cache, l.env).Some?
    requires line <= more && (level < level' || (level == level' && nr <= nr'))
    requires PastAt(more, level', nr', l.env.dh, l.env.n, l.chain)
    ensures CacheOk(more, level', nr', heard + 1, Accept(cache, l.env).value)
  {
    var next := Accept(cache, l.env).value;
    forall x | x in next.seen
      ensures Past(more, level', nr', x.dh, x.n)
    {
      if x in cache.seen {
        PastGrows(line, more, level, nr, level', nr', x.dh, x.n);
      }
    }
    forall dh | dh in next.highest
      ensures Past(more, level', nr', dh, next.highest[dh])
    {
      if dh in cache.highest && next.highest[dh] == cache.highest[dh] {
        PastGrows(line, more, level, nr, level', nr', dh, next.highest[dh]);
      }
    }
  }

  lemma SentTurns(u: Setup, line: seq<Link>, mine: seq<Letter>, p: Side, level: int, pair: R.Pair, next: R.Pair)
    requires LettersOk(u, line, p, mine) && SentOk(mine, p, level, pair) && RatchetOk(u, line, p, level, pair)
    requires level == -2 || pair.ns > 0
    requires next.ns == 0 && next.pn == pair.ns
    ensures SentOk(mine, p, level + 2, next)
  {
    assert mine != [] ==> mine[0] in mine;
  }

  lemma GivenStays(u: Setup, line: seq<Link>, p: Side, m: Party, theirs: seq<Letter>, l: Letter, newLocal: KeyId, next: Party)
    requires LineOk(u, line) && SideOk(u, line, p, m, theirs) && m.at < |theirs| && l == theirs[m.at]
    requires IsLetter(u, line, 1 - p, l) && Ahead(m, l) && l.chain == m.level && HasRoom(m, l)
    requires Reaches(m.ctx, l.env) && NewKey(u, line, newLocal) && next == Given(m, l, newLocal)
    ensures SideOk(u, line, p, next, theirs) && next.level == m.level && next.ctx.ratchet.dhs != newLocal
    ensures Receive(m.ctx, l.env, newLocal).outcome == Ratchet(R.Accepted(l.text))
  {
    var r := R.Decrypt(m.ctx.ratchet, MessageOf(l.env), newLocal);
    RatchetTakes(u, line, p, m, l, newLocal, r);
    assert PastAt(line, m.level, r.pair.nr, l.env.dh, l.env.n, l.chain);
    CacheTakesOn(line, line, m.level, m.ctx.ratchet.nr, m.heard, m.ctx.replay, l, m.level, r.pair.nr);
  }

  lemma LettersStay(u: Setup, line: seq<Link>, more: seq<Link>, p: Side, letters: seq<Letter>)
    requires LettersOk(u, line, p, letters) && line <= more
    ensures LettersOk(u, more, p, letters)
  {
  }

  lemma GivenTurns(u: Setup, line: seq<Link>, p: Side, m: Party, theirs: seq<Letter>, l: Letter, newLocal: KeyId, next: Party,
                   more: seq<Link>)
    requires LineOk(u, line) && SideOk(u, line, p, m, theirs) && m.at < |theirs| && l == theirs[m.at]
    requires IsLetter(u, line, 1 - p, l) && l.chain == m.level + 2 && HasRoom(m, l)
    requires |line| == m.level + 3 && (m.level == -2 || m.ctx.ratchet.ns > 0)
    requires Reaches(m.ctx, l.env) && NewKey(u, line, newLocal) && next == Given(m, l, newLocal)
    requires more == line + [LinkFrom(line[l.chain].root, newLocal, line[l.chain].pub)]
    ensures SideOk(u, more, p, next, theirs) && next.level == m.level + 2 && next.ctx.ratchet.dhs == newLocal
    ensures Receive(m.ctx, l.env, newLocal).outcome == Ratchet(R.Accepted(l.text)) && next.ctx.ratchet.ns == 0
  {
    var r := R.Decrypt(m.ctx.ratchet, MessageOf(l.env), newLocal);
    RatchetTurns(u, line, more, p, m, l, newLocal, r);
    TurnedSide(u, line, p, m, theirs, l, r.pair, next, more);
  }

  lemma TurnedSide(u: Setup, line: seq<Link>, p: Side, m: Party, theirs: seq<Letter>, l: Letter, pair: R.Pair, next: Party,
                   more: seq<Link>)
    requires SideOk(u, line, p, m, theirs) && m.at < |theirs| && l == theirs[m.at] && line < more
    requires l.chain == m.level + 2 < |line| && l.env.dh == line[l.chain].pub
    requires (m.level == -2 || m.ctx.ratchet.ns > 0) && Accept(m.ctx.replay, l.env).Some?
    requires RatchetOk(u, more, p, m.level + 2, pair) && StoreOk(more, m.level + 2, pair.nr, pair.skipped)
    requires pair.nr == l.env.n + 1 && pair.ns == 0 && pair.pn == m.ctx.ratchet.ns
    requires next == Party(Context(pair, Accept(m.ctx.replay, l.env).value, Fork(l.env.n, l.env.pn, Some(l.env.dh)), m.ctx.reset),
                           m.level + 2, m.sent, m.at + 1, m.heard + 1, m.at)
    ensures SideOk(u, more, p, next, theirs)
  {
    LettersStay(u, line, more, p, m.sent);
    SentTurns(u, line, m.sent, p, m.level, m.ctx.ratchet, pair);
    assert PastAt(more, m.level + 2, pair.nr, l.env.dh, l.env.n, l.chain);
    CacheTakesOn(line, more, m.level, m.ctx.ratchet.nr, m.heard, m.ctx.replay, l, m.level + 2, pair.nr);
  }

  // Both sides ------------------------------------------------------------------------------------------

  /** A letter of a chain beyond the current one was sent in answer to the receiver's own open chain. */
  lemma LetterFits(u: Setup, line: seq<Link>, p: Side, m: Party, q: Party, l: Letter)
    requires SideOk(u, line, p, m, q.sent) && SideOk(u, line, 1 - p, q, m.sent)
    requires Leads(line, m.level, q.level) || Leads(line, q.level, m.level)
    requires m.at < |q.sent| && l == q.sent[m.at]
    ensures IsLetter(u, line, 1 - p, l) && Ahead(m, l)
    ensures l.chain == m.level + 2 ==> Leads(line, q.level, m.level) && (m.level == -2 || m.ctx.ratchet.ns > 0)
  {
    assert l in q.sent;
    if m.last >= 0 {
      LaterLetter(u, line, 1 - p, q.sent, m.last, m.at);
    }
    if q.last >= 0 {
      assert m.sent[q.last] in m.sent;
    }
  }

  lemma LineStays(u: Setup, line: seq<Link>, more: seq<Link>, p: Side, m: Party, theirs: seq<Letter>)
    requires SideOk(u, line, p, m, theirs) && line <= more
    ensures SideOk(u, more, p, m, theirs)
  {
    LettersStay(u, line, more, p, m.sent);
    var cache, nr, skipped := m.ctx.replay, m.ctx.ratchet.nr, m.ctx.ratchet.skipped;
    forall id | id in skipped
      ensures Past(more, m.level, nr, id.dh, id.n)
    {
      PastGrows(line, more, m.level, nr, m.level, nr, id.dh, id.n);
    }
    forall x | x in cache.seen
      ensures Past(more, m.level, nr, x.dh, x.n)
    {
      PastGrows(line, more, m.level, nr, m.level, nr, x.dh, x.n);
    }
    forall dh | dh in cache.highest
      ensures Past(more, m.level, nr, dh, cache.highest[dh])
    {
      PastGrows(line, more, m.level, nr, m.level, nr, dh, cache.highest[dh]);
    }
  }

  lemma TurnedOk(u: Setup, t: Talk, p: Side, m: Party, more: seq<Link>)
    requires TalkOk(u, t) && LineOk(u, more) && t.line <= more && |more| == |t.line| + 1
    requires Leads(t.line, PartyOf(t, 1 - p).level, PartyOf(t, p).level) && m.level == PartyOf(t, p).level + 2
    requires SideOk(u, more, p, m, PartyOf(t, 1 - p).sent) && m.sent == PartyOf(t, p).sent
    ensures TalkOk(u, WithParty(t, p, m).(line := more))
  {
    LineStays(u, t.line, more, 1 - p, PartyOf(t, 1 - p), m.sent);
  }

  /** Whether the next letter for p gets through. */
  predicate GetsThrough(t: Talk, p: Side)
    requires HasNext(t, p)
  {
    var m, l := PartyOf(t, p), NextLetter(t, p);
    m.heard < CACHE && Unhurt(m, l) && HasRoom(m, l)
  }

  function OutcomeOf(t: Talk, p: Side, newLocal: KeyId): SessionManager.Outcome
    requires HasNext(t, p)
  {
    Receive(PartyOf(t, p).ctx, NextLetter(t, p).env, newLocal).outcome
  }

  lemma ReachesIff(u: Setup, line: seq<Link>, p: Side, m: Party, q: Party, l: Letter)
    requires LineOk(u, line) && SideOk(u, line, p, m, q.sent) && SideOk(u, line, 1 - p, q, m.sent)
    requires Leads(line, m.level, q.level) || Leads(line, q.level, m.level)
    requires m.at < |q.sent| && l == q.sent[m.at]
    ensures Reaches(m.ctx, l.env) <==> m.heard < CACHE && Unhurt(m, l)
  {
    LetterFits(u, line, p, m, q, l);
    SideDetects(u, line, p, m, q.sent, l);
  }

  /** The side goes on from m to next, on its chain or with a turn to the other's new chain. */
  ghost predicate Moves(u: Setup, line: seq<Link>, p: Side, m: Party, q: Party, next: Party, more: seq<Link>) {
    && LineOk(u, more) && line <= more && SideOk(u, more, p, next, q.sent) && next.sent == m.sent
    && (|| (more == line && next.level == m.level)
        || (Leads(line, q.level, m.level) && |more| == |line| + 1 && next.level == m.level + 2))
  }

  /** One letter that gets through, with what it does to the receiver and to the list of chains. */
  lemma PartyGiven(u: Setup, line: seq<Link>, p: Side, m: Party, q: Party, l: Letter, newLocal: KeyId, next: Party,
                   more: seq<Link>)
    requires LineOk(u, line) && SideOk(u, line, p, m, q.sent) && SideOk(u, line, 1 - p, q, m.sent)
    requires Leads(line, m.level, q.level) || Leads(line, q.level, m.level)
    requires m.at < |q.sent| && l == q.sent[m.at] && Reaches(m.ctx, l.env)
    requires HasRoom(m, l) && NewKey(u, line, newLocal)
    requires next == Given(m, l, newLocal) && more == Extended(line, next, newLocal)
    ensures Moves(u, line, p, m, q, next, more)
    ensures Receive(m.ctx, l.env, newLocal).outcome == Ratchet(R.Accepted(l.text))
  {
    LetterFits(u, line, p, m, q, l);
    if l.chain == m.level {
      StayMoves(u, line, p, m, q, l, newLocal, next, more);
    } else {
      TurnMoves(u, line, p, m, q, l, newLocal, next, more);
    }
  }

  lemma StayMoves(u: Setup, line: seq<Link>, p: Side, m: Party, q: Party, l: Letter, newLocal: KeyId, next: Party,
                  more: seq<Link>)
    requires LineOk(u, line) && SideOk(u, line, p, m, q.sent) && IsLetter(u, line, 1 - p, l) && Ahead(m, l)
    requires m.at < |q.sent| && l == q.sent[m.at] && Reaches(m.ctx, l.env) && l.chain == m.level
    requires HasRoom(m, l) && NewKey(u, line, newLocal)
    requires next == Given(m, l, newLocal) && more == Extended(line, next, newLocal)
    ensures Moves(u, line, p, m, q, next, more)
    ensures Receive(m.ctx, l.env, newLocal).outcome == Ratchet(R.Accepted(l.text))
  {
    GivenStays(u, line, p, m, q.sent, l, newLocal, next);
  }

  lemma TurnMoves(u: Setup, line: seq<Link>, p: Side, m: Party, q: Party, l: Letter, newLocal: KeyId, next: Party,
                  more: seq<Link>)
    requires LineOk(u, line) && SideOk(u, line, p, m, q.sent) && IsLetter(u, line, 1 - p, l)
    requires m.at < |q.sent| && l == q.sent[m.at] && Reaches(m.ctx, l.env) && l.chain == m.level + 2
    requires Leads(line, q.level, m.level) && (m.level == -2 || m.ctx.ratchet.ns > 0)
    requires HasRoom(m, l) && NewKey(u, line, newLocal)
    requires next == Given(m, l, newLocal) && more == Extended(line, next, newLocal)
    ensures Moves(u, line, p, m, q, next, more)
    ensures Receive(m.ctx, l.env, newLocal).outcome == Ratchet(R.Accepted(l.text))
  {
    LineGrows(u, line, newLocal);
    GivenTurns(u, line, p, m, q.sent, l, newLocal, next,
               line + [LinkFrom(line[l.chain].root, newLocal, line[l.chain].pub)]);
  }

  lemma PartyOutcome(u: Setup, line: seq<Link>, p: Side, m: Party, q: Party, l: Letter, newLocal: KeyId, next: Party,
                     more: seq<Link>)
    requires LineOk(u, line) && SideOk(u, line, p, m, q.sent) && SideOk(u, line, 1 - p, q, m.sent)
    requires Leads(line, m.level, q.level) || Leads(line, q.level, m.level)
    requires m.at < |q.sent| && l == q.sent[m.at] && NewKey(u, line, newLocal)
    requires next == Given(m, l, newLocal) && more == Extended(line, next, newLocal)
    ensures Receive(m.ctx, l.env, newLocal).outcome == Fate(m, l)
    ensures m.heard < CACHE && Unhurt(m, l) && HasRoom(m, l) ==> Moves(u, line, p, m, q, next, more)
  {
    ReachesIff(u, line, p, m, q, l);
    if Reaches(m.ctx, l.env) {
      if HasRoom(m, l) {
        PartyGiven(u, line, p, m, q, l, newLocal, next, more);
      } else {
        LetterFits(u, line, p, m, q, l);
        RatchetRefuses(u, line, p, m, l, newLocal, R.Decrypt(m.ctx.ratchet, MessageOf(l.env), newLocal));
      }
    }
  }

  lemma GivenOk(u: Setup, t: Talk, p: Side, next: Party, more: seq<Link>)
    requires TalkOk(u, t) && Moves(u, t.line, p, PartyOf(t, p), PartyOf(t, 1 - p), next, more)
    ensures TalkOk(u, WithParty(t, p, next).(line := more))
  {
    if more == t.line {
      MovedOk(u, t, p, next);
    } else {
      TurnedOk(u, t, p, next, more);
    }
  }

  lemma HandFrame(u: Setup, t: Talk, p: Side, newLocal: KeyId, m: Party, l: Letter, next: Talk)
    requires t.line != [] && HasNext(t, p) && next == TalkStep(u, t, Hand(p, newLocal))
    requires m == PartyOf(t, p) && l == NextLetter(t, p)
    ensures PartyOf(next, p) == Given(m, l, newLocal) && next.line == Extended(t.line, PartyOf(next, p), newLocal)
    ensures next == WithParty(t, p, PartyOf(next, p)).(line := next.line)
    ensures OutcomeOf(t, p, newLocal) == Receive(m.ctx, l.env, newLocal).outcome
  {
  }

  /** What a talk in order says about one side and the other. */
  lemma TalkSides(u: Setup, t: Talk, p: Side, m: Party, q: Party)
    requires TalkOk(u, t) && m == PartyOf(t, p) && q == PartyOf(t, 1 - p)
    ensures LineOk(u, t.line) && SideOk(u, t.line, p, m, q.sent) && SideOk(u, t.line, 1 - p, q, m.sent)
    ensures Leads(t.line, m.level, q.level) || Leads(t.line, q.level, m.level)
  {
  }

  lemma HandOk(u: Setup, t: Talk, p: Side, newLocal: KeyId, m: Party, q: Party, l: Letter, next: Talk)
    requires LineOk(u, t.line) && SideOk(u, t.line, p, m, q.sent) && SideOk(u, t.line, 1 - p, q, m.sent)
    requires Leads(t.line, m.level, q.level) || Leads(t.line, q.level, m.level)
    requires HasNext(t, p) && NewKey(u, t.line, newLocal) && next == TalkStep(u, t, Hand(p, newLocal))
    requires m == PartyOf(t, p) && q == PartyOf(t, 1 - p) && l == NextLetter(t, p)
    ensures OutcomeOf(t, p, newLocal) == Fate(m, l)
    ensures GetsThrough(t, p) ==> Moves(u, t.line, p, m, q, PartyOf(next, p), next.line)
    ensures next == WithParty(t, p, PartyOf(next, p)).(line := next.line)
  {
    HandFrame(u, t, p, newLocal, m, l, next);
    PartyOutcome(u, t.line, p, m, q, l, newLocal, PartyOf(next, p), next.line);
  }

  lemma HandStep(u: Setup, t: Talk, p: Side, newLocal: KeyId, next: Talk)
    requires TalkOk(u, t) && HasNext(t, p) && NewKey(u, t.line, newLocal) && next == TalkStep(u, t, Hand(p, newLocal))
    ensures OutcomeOf(t, p, newLocal) == Fate(PartyOf(t, p), NextLetter(t, p))
    ensures GetsThrough(t, p) ==> TalkOk(u, next)
  {
    var m, q := PartyOf(t, p), PartyOf(t, 1 - p);
    TalkSides(u, t, p, m, q);
    HandOk(u, t, p, newLocal, m, q, NextLetter(t, p), next);
    if GetsThrough(t, p) {
      GivenOk(u, t, p, PartyOf(next, p), next.line);
    }
  }

  lemma LoseOk(u: Setup, t: Talk, p: Side)
    requires TalkOk(u, t) && HasNext(t, p)
    ensures TalkOk(u, WithParty(t, p, Missed(PartyOf(t, p))))
  {
    MovedOk(u, t, p, Missed(PartyOf(t, p)));
  }

  // Runs ------------------------------------------------------------------------------------------------

  ghost predicate IsTalkStep(u: Setup, t: Talk, a: Action, next: Talk) {
    Enabled(u, t, a) && next == TalkStep(u, t, a)
  }

  ghost predicate IsTalk(u: Setup, run: seq<Talk>, actions: seq<Action>) {
    && |run| == |actions| + 1 && run[0] == Begin(u)
    && forall i :: 0 <= i < |actions| ==> IsTalkStep(u, run[i], actions[i], run[i + 1])
  }

  /** The letter handed over in this step, if it is one, comes out as it was said. */
  ghost predicate Delivered(t: Talk, a: Action) {
    a.Hand? ==> HasNext(t, a.p) && OutcomeOf(t, a.p, a.newLocal) == Ratchet(R.Accepted(NextLetter(t, a.p).text))
  }

  ghost predicate Fits(t: Talk, a: Action) {
    a.Hand? ==> HasNext(t, a.p) && GetsThrough(t, a.p)
  }

  lemma SayStep(u: Setup, t: Talk, p: Side, text: bytes, next: Talk)
    requires TalkOk(u, t) && next == TalkStep(u, t, Say(p, text))
    ensures TalkOk(u, next)
  {
    SayOk(u, t, p, text, Spoken(u, p, PartyOf(t, p), text));
  }

  lemma StepIff(u: Setup, t: Talk, a: Action, next: Talk)
    requires TalkOk(u, t) && IsTalkStep(u, t, a, next)
    ensures Delivered(t, a) <==> Fits(t, a)
  {
    if a.Hand? {
      HandStep(u, t, a.p, a.newLocal, next);
    }
  }

  lemma StepKeepsOk(u: Setup, t: Talk, a: Action, next: Talk)
    requires TalkOk(u, t) && IsTalkStep(u, t, a, next) && Fits(t, a)
    ensures TalkOk(u, next)
  {
    match a {
      case Say(p, text) => SayStep(u, t, p, text, next);
      case Hand(p, newLocal) => HandStep(u, t, p, newLocal, next);
      case Lose(p) => LoseOk(u, t, p);
    }
  }

  lemma {:induction false} RunOk(u: Setup, run: seq<Talk>, actions: seq<Action>, k: nat)
    requires u.a != u.b && IsTalk(u, run, actions) && k < |run|
    requires forall i :: 0 <= i < k ==> Delivered(run[i], actions[i])
    ensures TalkOk(u, run[k])
  {
    if k == 0 {
      BeginOk(u);
    } else {
      RunOk(u, run, actions, k - 1);
      StepIff(u, run[k - 1], actions[k - 1], run[k]);
      assert Delivered(run[k - 1], actions[k - 1]);
      StepKeepsOk(u, run[k - 1], actions[k - 1], run[k]);
    }
  }

  /**
   * As long as every letter that was handed over has got through, the next one gets through if and
   * only if the cache has room, neither of its numbers is below those of the last letter taken, and
   * the store has room for the numbers it skips.
   */
  lemma NextGetsThroughIff(u: Setup, run: seq<Talk>, actions: seq<Action>, k: nat)
    requires u.a != u.b && IsTalk(u, run, actions) && k < |actions|
    requires forall i :: 0 <= i < k ==> Delivered(run[i], actions[i])
    ensures Delivered(run[k], actions[k]) <==> Fits(run[k], actions[k])
  {
    RunOk(u, run, actions, k);
    StepIff(u, run[k], actions[k], run[k + 1]);
  }

  lemma {:induction false} FitsUntil(u: Setup, run: seq<Talk>, actions: seq<Action>, k: nat)
    requires u.a != u.b && IsTalk(u, run, actions) && k <= |actions|
    requires forall i :: 0 <= i < |actions| ==> Fits(run[i], actions[i])
    ensures forall i :: 0 <= i < k ==> Delivered(run[i], actions[i])
  {
    if k > 0 {
      FitsUntil(u, run, actions, k - 1);
      NextGetsThroughIff(u, run, actions, k - 1);
      assert Fits(run[k - 1], actions[k - 1]);
    }
  }

  /** So in a whole talk all letters get through if and only if every delivery meets that condition. */
  lemma AllGetThroughIff(u: Setup, run: seq<Talk>, actions: seq<Action>)
    requires u.a != u.b && IsTalk(u, run, actions)
    ensures (forall i :: 0 <= i < |actions| ==> Delivered(run[i], actions[i])) <==>
            (forall i :: 0 <= i < |actions| ==> Fits(run[i], actions[i]))
  {
    if forall i :: 0 <= i < |actions| ==> Delivered(run[i], actions[i]) {
      forall i | 0 <= i < |actions|
        ensures Fits(run[i], actions[i])
      {
        assert Delivered(run[i], actions[i]);
        NextGetsThroughIff(u, run, actions, i);
      }
    }
    if forall i :: 0 <= i < |actions| ==> Fits(run[i], actions[i]) {
      FitsUntil(u, run, actions, |actions|);
    }
  }

  // An ordinary talk: two messages, a reply, and an answer ------------------------------------------------

  lemma SayFacts(u: Setup, t: Talk, p: Side, text: bytes, next: Talk)
    requires TalkOk(u, t) && PartyOf(t, p).level != -2 && next == TalkStep(u, t, Say(p, text))
    ensures TalkOk(u, next) && next.line == t.line && PartyOf(next, 1 - p) == PartyOf(t, 1 - p)
    ensures var m, s := PartyOf(t, p), PartyOf(next, p);
            && s == m.(ctx := m.ctx.(ratchet := s.ctx.ratchet), sent := s.sent)
            && s.ctx.ratchet.nr == m.ctx.ratchet.nr && s.ctx.ratchet.ns == m.ctx.ratchet.ns + 1
            && |s.sent| == |m.sent| + 1 && s.sent[..|m.sent|] == m.sent
            && s.sent[|m.sent|].chain == OwnChain(m.level) && s.sent[|m.sent|].env.n == m.ctx.ratchet.ns
  {
    var m := PartyOf(t, p);
    TalkSides(u, t, p, m, PartyOf(t, 1 - p));
    SideSays(u, t.line, p, m.level, m.ctx.ratchet, text);
    SayOk(u, t, p, text, Spoken(u, p, m, text));
  }

  lemma GivenFacts(u: Setup, line: seq<Link>, p: Side, m: Party, theirs: seq<Letter>, l: Letter, newLocal: KeyId, next: Party)
    requires next == Given(m, l, newLocal) && m.at < |theirs| && l == theirs[m.at] && SideOk(u, line, p, next, theirs)
    ensures next.at == next.last + 1 == m.at + 1 && next.heard == m.heard + 1 && next.sent == m.sent
    ensures next.level == l.chain && next.ctx.ratchet.nr == l.env.n + 1 && next.ctx.fork.lastChainLength == l.env.pn
  {
  }

  ghost predicate AllNew(u: Setup, line: seq<Link>, ks: set<KeyId>) {
    forall k :: k in ks ==> NewKey(u, line, k)
  }

  lemma KeysStayNew(u: Setup, line: seq<Link>, m: Party, newLocal: KeyId, ks: set<KeyId>)
    requires line != [] && AllNew(u, line, ks) && newLocal !in ks
    ensures AllNew(u, Extended(line, m, newLocal), ks)
  {
  }

  lemma HandFacts(u: Setup, t: Talk, p: Side, newLocal: KeyId, next: Talk, ks: set<KeyId>)
    requires TalkOk(u, t) && HasNext(t, p) && NewKey(u, t.line, newLocal) && next == TalkStep(u, t, Hand(p, newLocal))
    requires GetsThrough(t, p) && AllNew(u, t.line, ks) && newLocal !in ks
    ensures TalkOk(u, next) && PartyOf(next, 1 - p) == PartyOf(t, 1 - p) && AllNew(u, next.line, ks)
    ensures var m, s, l := PartyOf(t, p), PartyOf(next, p), NextLetter(t, p);
            && s.at == s.last + 1 == m.at + 1 && s.heard == m.heard + 1 && s.sent == m.sent
            && s.level == l.chain && s.ctx.ratchet.nr == l.env.n + 1 && s.ctx.fork.lastChainLength == l.env.pn
  {
    var m, q, l := PartyOf(t, p), PartyOf(t, 1 - p), NextLetter(t, p);
    TalkSides(u, t, p, m, q);
    HandFrame(u, t, p, newLocal, m, l, next);
    HandOk(u, t, p, newLocal, m, q, l, next);
    GivenOk(u, t, p, PartyOf(next, p), next.line);
    GivenFacts(u, next.line, p, m, q.sent, l, newLocal, PartyOf(next, p));
    KeysStayNew(u, t.line, PartyOf(next, p), newLocal, ks);
  }

  function Last(run: seq<Talk>): Talk
    requires run != []
  {
    run[|run| - 1]
  }

  /** A talk in which everything that was handed over got through. */
  ghost predicate Smooth(u: Setup, run: seq<Talk>, actions: seq<Action>) {
    u.a != u.b && IsTalk(u, run, actions) && forall i :: 0 <= i < |actions| ==> Delivered(run[i], actions[i])
  }

  lemma Grow(u: Setup, run: seq<Talk>, actions: seq<Action>, a: Action, next: Talk)
    requires IsTalk(u, run, actions) && IsTalkStep(u, Last(run), a, next)
    ensures IsTalk(u, run + [next], actions + [a])
  {
    var more, all := run + [next], actions + [a];
    forall i | 0 <= i < |all|
      ensures IsTalkStep(u, more[i], all[i], more[i + 1])
    {
      assert i < |actions| ==> IsTalkStep(u, run[i], actions[i], run[i + 1]);
    }
  }

  lemma GrowSmooth(u: Setup, run: seq<Talk>, actions: seq<Action>, a: Action, next: Talk)
    requires Smooth(u, run, actions) && IsTalkStep(u, Last(run), a, next) && Delivered(Last(run), a)
    ensures Smooth(u, run + [next], actions + [a])
  {
    Grow(u, run, actions, a, next);
    var more, all := run + [next], actions + [a];
    forall i | 0 <= i < |all|
      ensures Delivered(more[i], all[i])
    {
      assert i < |actions| ==> Delivered(run[i], actions[i]);
    }
  }

  /** After p has spoken: one more letter on its own chain. */
  predicate HasSpoken(t: Talk, p: Side, next: Talk) {
    var m, s := PartyOf(t, p), PartyOf(next, p);
    && next.line == t.line && PartyOf(next, 1 - p) == PartyOf(t, 1 - p)
    && s == m.(ctx := m.ctx.(ratchet := s.ctx.ratchet), sent := s.sent)
    && s.ctx.ratchet.nr == m.ctx.ratchet.nr && s.ctx.ratchet.ns == m.ctx.ratchet.ns + 1
    && |s.sent| == |m.sent| + 1 && s.sent[..|m.sent|] == m.sent
    && s.sent[|m.sent|].chain == OwnChain(m.level) && s.sent[|m.sent|].env.n == m.ctx.ratchet.ns
  }

  /** After p has heard l. */
  predicate HasHeard(t: Talk, p: Side, l: Letter, next: Talk) {
    var m, s := PartyOf(t, p), PartyOf(next, p);
    && PartyOf(next, 1 - p) == PartyOf(t, 1 - p)
    && s.at == s.last + 1 == m.at + 1 && s.heard == m.heard + 1 && s.sent == m.sent
    && s.level == l.chain && s.ctx.ratchet.nr == l.env.n + 1 && s.ctx.fork.lastChainLength == l.env.pn
  }

  lemma GrowSay(u: Setup, run: seq<Talk>, actions: seq<Action>, p: Side, text: bytes) returns (next: Talk)
    requires Smooth(u, run, actions) && PartyOf(Last(run), p).level != -2
    ensures Smooth(u, run + [next], actions + [Say(p, text)]) && HasSpoken(Last(run), p, next)
    ensures PartyOf(next, p).sent[|PartyOf(next, p).sent| - 1].text == text
  {
    RunOk(u, run, actions, |actions|);
    next := TalkStep(u, Last(run), Say(p, text));
    SayFacts(u, Last(run), p, text, next);
    GrowSmooth(u, run, actions, Say(p, text), next);
  }

  lemma GrowHand(u: Setup, run: seq<Talk>, actions: seq<Action>, p: Side, k: KeyId, ks: set<KeyId>) returns (next: Talk)
    requires Smooth(u, run, actions) && HasNext(Last(run), p) && GetsThrough(Last(run), p)
    requires NewKey(u, Last(run).line, k) && AllNew(u, Last(run).line, ks) && k !in ks
    ensures Smooth(u, run + [next], actions + [Hand(p, k)])
    ensures HasHeard(Last(run), p, NextLetter(Last(run), p), next) && AllNew(u, next.line, ks)
  {
    RunOk(u, run, actions, |actions|);
    next := TalkStep(u, Last(run), Hand(p, k));
    HandFacts(u, Last(run), p, k, next, ks);
    HandStep(u, Last(run), p, k, next);
    GrowSmooth(u, run, actions, Hand(p, k), next);
  }

  /** p's next letter comes right after everything the other side has heard. */
  predicate CaughtUp(t: Talk, p: Side) {
    var m, q := PartyOf(t, p), PartyOf(t, 1 - p);
    && m.level != -2 && q.at == |m.sent| && q.heard < CACHE
    && (if q.last == -1 then q.level < OwnChain(m.level) && m.ctx.ratchet.ns == 0
        else q.level == OwnChain(m.level) && m.ctx.ratchet.ns == q.ctx.ratchet.nr)
  }

  /** A letter of the current chain never stands below the last one taken. */
  lemma SameChainUnhurt(u: Setup, run: seq<Talk>, actions: seq<Action>, p: Side)
    requires Smooth(u, run, actions) && HasNext(Last(run), p)
    requires NextLetter(Last(run), p).chain == PartyOf(Last(run), p).level
    ensures Unhurt(PartyOf(Last(run), p), NextLetter(Last(run), p))
  {
    RunOk(u, run, actions, |actions|);
    var t := Last(run);
    var m, q := PartyOf(t, p), PartyOf(t, 1 - p);
    TalkSides(u, t, p, m, q);
    if m.last >= 0 {
      LaterLetter(u, t.line, 1 - p, q.sent, m.last, m.at);
    }
  }

  lemma SpokenGetsThrough(u: Setup, run: seq<Talk>, actions: seq<Action>, t: Talk, p: Side)
    requires Smooth(u, run, actions) && CaughtUp(t, p) && HasSpoken(t, p, Last(run))
    ensures HasNext(Last(run), 1 - p) && GetsThrough(Last(run), 1 - p)
    ensures NextLetter(Last(run), 1 - p) == PartyOf(Last(run), p).sent[|PartyOf(t, p).sent|]
  {
    var m, q := PartyOf(t, p), PartyOf(t, 1 - p);
    var l := NextLetter(Last(run), 1 - p);
    assert l == PartyOf(Last(run), p).sent[|m.sent|] && q == PartyOf(Last(run), 1 - p) && Gap(q, l) == 0;
    if q.last != -1 {
      SameChainUnhurt(u, run, actions, 1 - p);
    }
  }

  /** What a side's counter says about its letters. */
  lemma OwnNumber(u: Setup, run: seq<Talk>, actions: seq<Action>, p: Side)
    requires Smooth(u, run, actions)
    ensures var m := PartyOf(Last(run), p);
            if m.sent == [] then m.ctx.ratchet.ns == 0
            else
              var l := m.sent[|m.sent| - 1];
              m.ctx.ratchet.ns == if l.chain == OwnChain(m.level) then l.env.n + 1 else 0
  {
    RunOk(u, run, actions, |actions|);
    TalkSides(u, Last(run), p, PartyOf(Last(run), p), PartyOf(Last(run), 1 - p));
  }

  /** p says something to a listener that has heard everything so far, and is heard. */
  lemma Exchange(u: Setup, run: seq<Talk>, actions: seq<Action>, p: Side, text: bytes, k: KeyId, ks: set<KeyId>)
    returns (said: Talk, heard: Talk)
    requires Smooth(u, run, actions) && CaughtUp(Last(run), p)
    requires NewKey(u, Last(run).line, k) && AllNew(u, Last(run).line, ks) && k !in ks
    ensures Smooth(u, run + [said] + [heard], actions + [Say(p, text)] + [Hand(1 - p, k)])
    ensures AllNew(u, heard.line, ks) && HasSpoken(Last(run), p, said)
    ensures HasHeard(said, 1 - p, PartyOf(said, p).sent[|PartyOf(Last(run), p).sent|], heard)
  {
    said := GrowSay(u, run, actions, p, text);
    SpokenGetsThrough(u, run + [said], actions + [Say(p, text)], Last(run), p);
    heard := GrowHand(u, run + [said], actions + [Say(p, text)], 1 - p, k, ks);
  }

  /** The initiator says its first thing and is heard. */
  lemma OneIsHeard(u: Setup, x: bytes, k: KeyId, ks: set<KeyId>) returns (run: seq<Talk>, actions: seq<Action>)
    requires u.a != u.b && AllNew(u, Begin(u).line, ks + {k}) && k !in ks
    ensures Smooth(u, run, actions) && actions == [Say(0, x), Hand(1, k)] && AllNew(u, Last(run).line, ks)
    ensures var m, q := Last(run).first, Last(run).second;
            && m.at == 0 && m.heard == 0 && m.last == -1 && m.level == -1 && |m.sent| == 1 && m.ctx.ratchet.ns == 1
            && q.sent == [] && q.at == 1 && q.heard == 1 && q.last == 0 && q.level == 0 && q.ctx.ratchet.nr == 1
  {
    assert k in ks + {k} && forall x :: x in ks ==> x in ks + {k};
    var t1, t2 := Exchange(u, [Begin(u)], [], 0, x, k, ks);
    run, actions := [Begin(u)] + [t1] + [t2], [] + [Say(0, x)] + [Hand(1, k)];
    assert Last(run) == t2;
  }

  /** The initiator says two things and both are heard. */
  lemma TwoAreHeard(u: Setup, x: bytes, y: bytes, k1: KeyId, k2: KeyId, ks: set<KeyId>)
    returns (run: seq<Talk>, actions: seq<Action>)
    requires u.a != u.b && AllNew(u, Begin(u).line, ks + {k1, k2}) && k1 != k2 && k1 !in ks && k2 !in ks
    ensures Smooth(u, run, actions) && actions == [Say(0, x), Hand(1, k1), Say(0, y), Hand(1, k2)]
    ensures AllNew(u, Last(run).line, ks)
    ensures var m, q := Last(run).first, Last(run).second;
            && m.at == 0 && m.heard == 0 && m.last == -1 && m.level == -1 && |m.sent| == 2 && m.sent[1].chain == 0
            && q.sent == [] && q.at == 2 && q.heard == 2 && q.last == 1 && q.level == 0 && q.ctx.ratchet.nr == 2
            && q.ctx.ratchet.ns == 0
  {
    run, actions := OneIsHeard(u, x, k1, ks + {k2});
    assert k2 in ks + {k2} && forall k :: k in ks ==> k in ks + {k2};
    var t3, t4 := Exchange(u, run, actions, 0, y, k2, ks);
    run, actions := run + [t3] + [t4], actions + [Say(0, y)] + [Hand(1, k2)];
    assert Last(run) == t4;
    OwnNumber(u, run, actions, 1);
  }

  /**
   * The initiator says two things, the responder replies, and the initiator answers on its next chain:
   * the answer is refused as a fork, although everything was delivered in order.
   */
  lemma SecondLetterStopsTheTalk(u: Setup, x: bytes, y: bytes, z: bytes, w: bytes, k1: KeyId, k2: KeyId, k3: KeyId, k4: KeyId)
    returns (run: seq<Talk>, actions: seq<Action>)
    requires u.a != u.b && AllNew(u, Begin(u).line, {k1, k2, k3, k4})
    requires k1 != k2 && k1 != k3 && k1 != k4 && k2 != k3 && k2 != k4 && k3 != k4
    ensures Smooth(u, run, actions) && actions == [Say(0, x), Hand(1, k1), Say(0, y), Hand(1, k2), Say(1, z), Hand(0, k3), Say(0, w)]
    ensures Enabled(u, Last(run), Hand(1, k4)) && NextLetter(Last(run), 1).text == w
    ensures OutcomeOf(Last(run), 1, k4) == Refused
  {
    run, actions := TwoAreHeard(u, x, y, k1, k2, {k3, k4});
    var t5, t6 := Exchange(u, run, actions, 1, z, k3, {k4});
    run, actions := run + [t5] + [t6], actions + [Say(1, z)] + [Hand(0, k3)];
    assert Last(run) == t6 && k4 in {k4};
    OwnNumber(u, run, actions, 0);
    var t7 := GrowSay(u, run, actions, 0, w);
    run, actions := run + [t7], actions + [Say(0, w)];
    assert Last(run) == t7;
    Stuck(u, run, actions, k4);
  }

  lemma Stuck(u: Setup, run: seq<Talk>, actions: seq<Action>, k: KeyId)
    requires Smooth(u, run, actions) && HasNext(Last(run), 1)
    requires !Unhurt(PartyOf(Last(run), 1), NextLetter(Last(run), 1)) && NewKey(u, Last(run).line, k)
    ensures Enabled(u, Last(run), Hand(1, k)) && OutcomeOf(Last(run), 1, k) == Refused
  {
    RunOk(u, run, actions, |actions|);
    HandStep(u, Last(run), 1, k, TalkStep(u, Last(run), Hand(1, k)));
  }
}
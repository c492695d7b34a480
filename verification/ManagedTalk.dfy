/**
 * Two session managers talking over a network that may lose letters but keeps the order of each
 * direction (client/session_manager.py). The sessions are the ones create_symmetric_session makes: both
 * parties start with the same root key and know each other's ratchet key.
 */
module ManagedTalk {
  import opened Common
  import opened Kdf
  import opened Stores
  import R = PairRatchet
  import opened SessionManager

  function KeyOfSide(u: Setup, p: Side): KeyId {
    if p == 0 then u.a else u.b
  }

  /** The root key both start with, and the first key of the chain each of them sends on. */
  function FirstRoot(u: Setup): Key {
    RootNext(u.seed, SharedSecret(u.a, u.b))
  }

  function StartOf(u: Setup, p: Side): Key {
    ChainStart(if p == 0 then u.seed else FirstRoot(u), SharedSecret(u.a, u.b))
  }

  datatype Letter = Letter(env: Envelope, text: bytes)

  /** A side: its session, what it has sent, where it is in the other's letters, and how many of those it was given. */
  datatype Party = Party(ctx: Context, sent: seq<Letter>, at: nat, heard: nat)

  datatype Talk = Talk(first: Party, second: Party)

  datatype Action = Say(p: Side, text: bytes) | Hand(p: Side, newLocal: KeyId) | Lose(p: Side)

  function PartyOf(t: Talk, p: Side): Party {
    if p == 0 then t.first else t.second
  }

  function WithParty(t: Talk, p: Side, m: Party): Talk {
    if p == 0 then t.(first := m) else t.(second := m)
  }

  function Begin(u: Setup): Talk {
    Talk(Party(NewContext(R.Initial(u.seed, u.a, Some(u.b), true, 1000)), [], 0, 0),
         Party(NewContext(R.Initial(u.seed, u.b, Some(u.a), false, 1000)), [], 0, 0))
  }

  /** encrypt_for */
  function Spoken(u: Setup, p: Side, m: Party, text: bytes): Party {
    var (pair, r) := R.Encrypt(m.ctx.ratchet, text);
    var next := m.(ctx := m.ctx.(ratchet := pair));
    if r.Sent? then next.(sent := m.sent + [Letter(EnvelopeOf(IdOfSide(u, p), r.msg), text)]) else next
  }

  function EnvelopeOf(id: SessionId, msg: R.Message): Envelope {
    Envelope(id, msg.header.dh, msg.header.n, msg.header.pn, msg.cipher)
  }

  /** decrypt_from */
  function Given(m: Party, l: Letter, newLocal: KeyId): Party {
    m.(ctx := Receive(m.ctx, l.env, newLocal).ctx, at := m.at + 1, heard := m.heard + 1)
  }

  /** A letter that is lost is passed over. */
  function Missed(m: Party): Party {
    m.(at := m.at + 1)
  }

  predicate HasNext(t: Talk, p: Side) {
    PartyOf(t, p).at < |PartyOf(t, 1 - p).sent|
  }

  /** The next letter for p is the oldest one that has neither been handed over nor lost. */
  function NextLetter(t: Talk, p: Side): Letter
    requires HasNext(t, p)
  {
    PartyOf(t, 1 - p).sent[PartyOf(t, p).at]
  }

  function OutcomeOf(t: Talk, p: Side, newLocal: KeyId): SessionManager.Outcome
    requires HasNext(t, p)
  {
    Receive(PartyOf(t, p).ctx, NextLetter(t, p).env, newLocal).outcome
  }

  predicate Enabled(t: Talk, a: Action) {
    !a.Say? ==> HasNext(t, a.p)
  }

  function TalkStep(u: Setup, t: Talk, a: Action): Talk
    requires Enabled(t, a)
  {
    match a
    case Say(p, text) => WithParty(t, p, Spoken(u, p, PartyOf(t, p), text))
    case Hand(p, newLocal) => WithParty(t, p, Given(PartyOf(t, p), NextLetter(t, p), newLocal))
    case Lose(p) => WithParty(t, p, Missed(PartyOf(t, p)))
  }

  // One side ------------------------------------------------------------------------------------------

  /** The i-th letter of a side. */
  predicate IsLetter(u: Setup, p: Side, i: nat, l: Letter) {
    l.env == Envelope(IdOfSide(u, p), KeyOfSide(u, p), i, 0,
                      R.Sealed(MessageKey(Iterate(StartOf(u, p), i)), R.NonceNumber(i), l.text))
  }

  ghost predicate LettersOk(u: Setup, p: Side, letters: seq<Letter>) {
    forall i :: 0 <= i < |letters| ==> IsLetter(u, p, i, letters[i])
  }

  /** Room for skipped keys in a session of create_symmetric_session. */
  const ROOM: nat := 1000

  /** How many of the letters handed over the cache has taken. */
  function Taken(heard: nat): nat {
    if heard < CACHE then heard else CACHE
  }

  /** The ratchet keeps both keys for ever, and its sending chain counts what was sent. */
  predicate KeysKept(u: Setup, p: Side, pair: R.Pair, sent: nat) {
    && pair.dhs == KeyOfSide(u, p) && pair.dhr == Some(KeyOfSide(u, 1 - p))
    && pair.ns == sent && pair.pn == 0 && pair.maxKeys == ROOM
    && (if pair.sending.None? then p == 1 && sent == 0 && pair.rootKey == FirstRoot(u)
        else pair.sending == Some(Iterate(StartOf(u, p), sent)))
  }

  /** The receiving chain is at its counter, and every number passed over has its key in the store. */
  ghost predicate InSync(u: Setup, p: Side, pair: R.Pair, at: nat, taken: nat) {
    && taken <= pair.nr <= at && |pair.skipped| == pair.nr - taken <= ROOM
    && (forall id :: id in pair.skipped ==> id.n < pair.nr)
    && (if pair.receiving.None? then p == 0 && pair.nr == 0 && pair.rootKey == FirstRoot(u)
        else pair.receiving == Some(Iterate(StartOf(u, 1 - p), pair.nr)))
  }

  /** The store has refused a key; it is full for good, and more letters were lost than it has room for. */
  ghost predicate Stuck(pair: R.Pair, at: nat, taken: nat) {
    && pair.receiving.Some? && pair.nr < at && |pair.skipped| >= ROOM && at - taken > ROOM
    && forall id :: id in pair.skipped ==> id.n < at
  }

  /** Everything the detectors have seen lies before this place. */
  ghost predicate DetectorsOk(u: Setup, p: Side, c: Context, at: nat, taken: nat) {
    var k := KeyOfSide(u, 1 - p);
    && c.replay.maxEntries == CACHE && |c.replay.seen| == taken
    && (forall x :: x in c.replay.seen ==> x.n < at)
    && (k in c.replay.highest ==> c.replay.highest[k] < at)
    && c.fork.lastNumber < at && c.fork.lastChainLength <= 0
  }

  ghost predicate SideOk(u: Setup, p: Side, m: Party) {
    && LettersOk(u, p, m.sent) && m.heard <= m.at
    && KeysKept(u, p, m.ctx.ratchet, |m.sent|)
    && (InSync(u, p, m.ctx.ratchet, m.at, Taken(m.heard)) || Stuck(m.ctx.ratchet, m.at, Taken(m.heard)))
    && DetectorsOk(u, p, m.ctx, m.at, Taken(m.heard))
  }

  ghost predicate TalkOk(u: Setup, t: Talk) {
    SideOk(u, 0, t.first) && SideOk(u, 1, t.second)
  }

  lemma FirstOfChain(c: Key)
    ensures Iterate(c, 0) == c && forall n: nat :: Iterate(c, n + 1) == ChainNext(Iterate(c, n))
  {
  }

  lemma SideSends(u: Setup, p: Side, pair: R.Pair, sent: nat, at: nat, taken: nat, text: bytes)
    requires KeysKept(u, p, pair, sent) && (InSync(u, p, pair, at, taken) || Stuck(pair, at, taken))
    ensures var (next, r) := R.Encrypt(pair, text);
            && KeysKept(u, p, next, sent + 1)
            && (InSync(u, p, next, at, taken) || Stuck(next, at, taken))
            && r.Sent? && IsLetter(u, p, sent, Letter(EnvelopeOf(IdOfSide(u, p), r.msg), text))
  {
    FirstOfChain(StartOf(u, p));
  }

  /** With the key current the next letter leads to a skip from the counter. */
  lemma SidePrepares(u: Setup, p: Side, pair: R.Pair, sent: nat, at: nat, taken: nat, l: Letter, newLocal: KeyId, s: R.Pair)
    requires KeysKept(u, p, pair, sent) && IsLetter(u, 1 - p, at, l)
    requires InSync(u, p, pair, at, taken) || Stuck(pair, at, taken)
    requires s == R.Prepare(pair, l.env.dh, newLocal)
    ensures KeysKept(u, p, s, sent) && s.receiving.Some? && s.nr == pair.nr && s.skipped == pair.skipped
    ensures InSync(u, p, pair, at, taken) ==> s.receiving == Some(Iterate(StartOf(u, 1 - p), s.nr))
    ensures Stuck(pair, at, taken) ==> s == pair
    ensures R.Decrypt(pair, MessageOf(l.env), newLocal) == R.TakeNext(s, MessageOf(l.env))
  {
    FirstOfChain(StartOf(u, 1 - p));
  }

  lemma SideOpens(u: Setup, p: Side, s: R.Pair, sent: nat, at: nat, taken: nat, l: Letter, r: R.Received)
    requires KeysKept(u, p, s, sent) && InSync(u, p, s, at, taken) && s.receiving.Some? && IsLetter(u, 1 - p, at, l)
    requires at - taken <= ROOM && r == R.TakeNext(s, MessageOf(l.env))
    ensures KeysKept(u, p, r.pair, sent) && InSync(u, p, r.pair, at + 1, taken + 1) && r.outcome == R.Accepted(l.text)
  {
    R.GapOpens(s, MessageOf(l.env), StartOf(u, 1 - p), l.text, r);
  }

  /** More letters lost than there is room for: the skip is refused. */
  lemma SideOverflows(u: Setup, p: Side, s: R.Pair, sent: nat, at: nat, taken: nat, l: Letter, r: R.Received)
    requires KeysKept(u, p, s, sent) && s.receiving.Some? && IsLetter(u, 1 - p, at, l)
    requires InSync(u, p, s, at, taken) || Stuck(s, at, taken)
    requires at - taken > ROOM && r == R.TakeNext(s, MessageOf(l.env))
    ensures KeysKept(u, p, r.pair, sent) && Stuck(r.pair, at + 1, taken + 1) && r.outcome == R.StoreFull
  {
    R.GapOverfills(s, l.env.dh, at);
    R.GapOverflows(s, MessageOf(l.env), r);
  }

  lemma SideDetects(u: Setup, p: Side, c: Context, at: nat, taken: nat, l: Letter, newLocal: KeyId)
    requires DetectorsOk(u, p, c, at, taken) && taken < CACHE && IsLetter(u, 1 - p, at, l)
    ensures Reaches(c, l.env) && DetectorsOk(u, p, Receive(c, l.env, newLocal).ctx, at + 1, taken + 1)
  {
    assert KeyOf(l.env) !in c.replay.seen;
  }

  /** What becomes of the next letter when it is handed over. */
  function Fate(at: nat, heard: nat, text: bytes): SessionManager.Outcome {
    if heard >= 1024 then Refused
    else if at <= heard + 1000 then Ratchet(R.Accepted(text))
    else Ratchet(R.StoreFull)
  }

  lemma RatchetReceives(u: Setup, p: Side, pair: R.Pair, sent: nat, at: nat, taken: nat, l: Letter, newLocal: KeyId,
                        r: R.Received)
    requires KeysKept(u, p, pair, sent) && (InSync(u, p, pair, at, taken) || Stuck(pair, at, taken))
    requires IsLetter(u, 1 - p, at, l) && r == R.Decrypt(pair, MessageOf(l.env), newLocal)
    ensures KeysKept(u, p, r.pair, sent)
    ensures InSync(u, p, r.pair, at + 1, taken + 1) || Stuck(r.pair, at + 1, taken + 1)
    ensures r.outcome == if at <= taken + ROOM then R.Accepted(l.text) else R.StoreFull
  {
    var s := R.Prepare(pair, l.env.dh, newLocal);
    SidePrepares(u, p, pair, sent, at, taken, l, newLocal, s);
    if at <= taken + ROOM {
      SideOpens(u, p, s, sent, at, taken, l, r);
    } else {
      SideOverflows(u, p, s, sent, at, taken, l, r);
    }
  }

  lemma SideReceives(u: Setup, p: Side, m: Party, l: Letter, newLocal: KeyId, next: Party)
    requires SideOk(u, p, m) && IsLetter(u, 1 - p, m.at, l) && next == Given(m, l, newLocal)
    ensures SideOk(u, p, next) && Receive(m.ctx, l.env, newLocal).outcome == Fate(m.at, m.heard, l.text)
  {
    if m.heard < CACHE {
      SideDetects(u, p, m.ctx, m.at, m.heard, l, newLocal);
      RatchetReceives(u, p, m.ctx.ratchet, |m.sent|, m.at, m.heard, l, newLocal,
                      R.Decrypt(m.ctx.ratchet, MessageOf(l.env), newLocal));
    }
  }

  lemma SideSpeaks(u: Setup, p: Side, m: Party, text: bytes, next: Party)
    requires SideOk(u, p, m) && next == Spoken(u, p, m, text)
    ensures SideOk(u, p, next)
  {
    SideSends(u, p, m.ctx.ratchet, |m.sent|, m.at, Taken(m.heard), text);
  }

  // Both sides ----------------------------------------------------------------------------------------

  predicate IsTalkStep(u: Setup, t: Talk, a: Action, next: Talk) {
    Enabled(t, a) && next == TalkStep(u, t, a)
  }

  ghost predicate IsTalk(u: Setup, run: seq<Talk>, actions: seq<Action>) {
    && |run| == |actions| + 1 && run[0] == Begin(u)
    && forall i :: 0 <= i < |actions| ==> IsTalkStep(u, run[i], actions[i], run[i + 1])
  }

  lemma BeginOk(u: Setup)
    ensures TalkOk(u, Begin(u))
  {
    FirstOfChain(StartOf(u, 0));
    FirstOfChain(StartOf(u, 1));
  }

  lemma HandOk(u: Setup, t: Talk, p: Side, newLocal: KeyId)
    requires TalkOk(u, t) && HasNext(t, p)
    ensures SideOk(u, p, Given(PartyOf(t, p), NextLetter(t, p), newLocal))
    ensures OutcomeOf(t, p, newLocal) == Fate(PartyOf(t, p).at, PartyOf(t, p).heard, NextLetter(t, p).text)
  {
    var m, l := PartyOf(t, p), NextLetter(t, p);
    assert SideOk(u, 1 - p, PartyOf(t, 1 - p));
    SideReceives(u, p, m, l, newLocal, Given(m, l, newLocal));
  }

  lemma StepOk(u: Setup, t: Talk, a: Action, next: Talk)
    requires TalkOk(u, t) && IsTalkStep(u, t, a, next)
    ensures TalkOk(u, next)
  {
    match a {
      case Say(p, text) => SideSpeaks(u, p, PartyOf(t, p), text, PartyOf(next, p));
      case Hand(p, newLocal) => HandOk(u, t, p, newLocal);
      case Lose(p) => assert SideOk(u, p, PartyOf(next, p));
    }
  }

  lemma {:induction false} TalkKeepsOk(u: Setup, run: seq<Talk>, actions: seq<Action>, k: nat)
    requires IsTalk(u, run, actions) && k < |run|
    ensures TalkOk(u, run[k])
  {
    if k == 0 {
      BeginOk(u);
    } else {
      TalkKeepsOk(u, run, actions, k - 1);
      assert IsTalkStep(u, run[k - 1], actions[k - 1], run[k]);
      StepOk(u, run[k - 1], actions[k - 1], run[k]);
    }
  }

  /** Side p still has the ratchet keys it started with. */
  predicate SameKeys(u: Setup, t: Talk, p: Side) {
    var pair := PartyOf(t, p).ctx.ratchet;
    pair.dhs == KeyOfSide(u, p) && pair.dhr == Some(KeyOfSide(u, 1 - p))
  }

  /**
   * In-order delivery with losses. In every interleaving of sends, losses and in-order deliveries, a
   * letter that is handed over yields its text if and only if fewer than 1024 were handed over before
   * it and at most 1000 were lost before it; past the first limit every letter is refused, past the
   * second the store is full for good. Neither side ever changes a ratchet key.
   */
  lemma InOrderTalk(u: Setup, run: seq<Talk>, actions: seq<Action>, k: nat)
    requires IsTalk(u, run, actions) && k < |run|
    ensures SameKeys(u, run[k], 0) && SameKeys(u, run[k], 1)
    ensures k < |actions| && actions[k].Hand? ==>
              var t, p := run[k], actions[k].p;
              && HasNext(t, p)
              && OutcomeOf(t, p, actions[k].newLocal) ==
                 Fate(PartyOf(t, p).at, PartyOf(t, p).heard, NextLetter(t, p).text)
  {
    TalkKeepsOk(u, run, actions, k);
    if k < |actions| {
      assert IsTalkStep(u, run[k], actions[k], run[k + 1]);
      if actions[k].Hand? {
        HandOk(u, run[k], actions[k].p, actions[k].newLocal);
      }
    }
  }
}

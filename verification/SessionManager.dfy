/**
 * The session manager's receive path (client/session_manager.py): replay cache
 * (protocol/replay_protection.py), fork detection (protocol/fork_detection.py) and ratchet, one after
 * the other. What decrypt_sealed does after unsealing is the same path with the inner package's fields.
 */
module SessionManager {
  import opened Common
  import opened Kdf
  import opened Stores
  import R = PairRatchet

  type SessionId = nat

  datatype Envelope = Envelope(session: SessionId, dh: KeyId, n: nat, pn: nat, cipher: R.Cipher)

  datatype CacheKey = CacheKey(session: SessionId, dh: KeyId, n: nat)

  function KeyOf(env: Envelope): CacheKey {
    CacheKey(env.session, env.dh, env.n)
  }

  /** How many envelopes a replay cache takes in its life. */
  const CACHE: nat := 1024

  datatype Replay = Replay(seen: set<CacheKey>, highest: map<KeyId, nat>, maxEntries: nat)

  /** accept returns the updated cache when the envelope is taken as fresh. */
  function Accept(c: Replay, env: Envelope): Option<Replay> {
    var last := if env.dh in c.highest then Some(c.highest[env.dh]) else None;
    if KeyOf(env) in c.seen then None
    else if last.Some? && env.n < last.value then None
    else if |c.seen| >= c.maxEntries then None
    else
      Some(c.(seen := c.seen + {KeyOf(env)},
           highest := if last.None? || env.n > last.value then c.highest[env.dh := env.n] else c.highest))
  }

  datatype Fork = Fork(lastNumber: int, lastChainLength: int, lastKey: Option<KeyId>)

  /** detect_fork returns the updated record when nothing regresses. */
  function Progress(f: Fork, env: Envelope): Option<Fork> {
    if f.lastKey.Some? && env.n < f.lastNumber then None
    else if env.pn < f.lastChainLength then None
    else Some(Fork(env.n, env.pn, Some(env.dh)))
  }

  datatype Reset = NotNeeded | ReplayDetected | ForkDetected

  datatype Context = Context(ratchet: R.Pair, replay: Replay, fork: Fork, reset: Reset)

  datatype Outcome = Refused | Ratchet(outcome: R.Outcome)

  datatype Received = Received(ctx: Context, outcome: Outcome)

  function MessageOf(env: Envelope): R.Message {
    R.Message(R.Header(env.dh, env.pn, env.n), env.cipher)
  }

  /** decrypt_from, for the context of the peer. */
  function Receive(ctx: Context, env: Envelope, newLocal: KeyId): Received {
    match Accept(ctx.replay, env)
    case None => Received(ctx.(reset := ReplayDetected), Refused)
    case Some(replay) =>
      var c := ctx.(replay := replay);
      match Progress(ctx.fork, env)
      case None => Received(c.(reset := ForkDetected), Refused)
      case Some(fork) =>
        var r := R.Decrypt(ctx.ratchet, MessageOf(env), newLocal);
        Received(c.(fork := fork, ratchet := r.pair), Ratchet(r.outcome))
  }

  function NewContext(ratchet: R.Pair): Context {
    Context(ratchet, Replay({}, map[], CACHE), Fork(-1, -1, None), NotNeeded)
  }

  /** Two sessions made for each other: side 0 is the initiator, with key a and session id idA. */
  datatype Setup = Setup(seed: Key, a: KeyId, b: KeyId, idA: SessionId, idB: SessionId)

  type Side = p: nat | p < 2

  function IdOfSide(u: Setup, p: Side): SessionId {
    if p == 0 then u.idA else u.idB
  }

  // What the layers guarantee together ------------------------------------------------------------------

  /** Every stored key lies below the highest number the replay cache has seen for its ratchet key. */
  ghost predicate StoredBelowHighest(ctx: Context) {
    forall id :: id in ctx.ratchet.skipped ==>
                   id.dh in ctx.replay.highest && id.n < ctx.replay.highest[id.dh]
  }

  /** Whether an envelope gets past the replay cache and the fork detector. */
  predicate Reaches(ctx: Context, env: Envelope) {
    Accept(ctx.replay, env).Some? && Progress(ctx.fork, env).Some?
  }

  /** A message that reaches the ratchet never finds its key among the skipped ones. */
  lemma ReachingMissesStore(ctx: Context, env: Envelope)
    requires StoredBelowHighest(ctx) && Reaches(ctx, env)
    ensures MsgId(env.dh, env.n) !in ctx.ratchet.skipped
  {
  }

  lemma PrepareKeepsSkipped(p: R.Pair, dh: KeyId, newLocal: KeyId)
    ensures var s := R.Prepare(p, dh, newLocal);
            s.skipped == p.skipped && s.dhr == Some(dh) && s.receiving.Some? && s.maxKeys == p.maxKeys
  {
  }

  /** A ratchet step stores only numbers of the message's own key, below the message's number. */
  lemma DecryptStores(p: R.Pair, msg: R.Message, newLocal: KeyId)
    requires p.receiving.Some? ==> p.dhr.Some?
    ensures forall id :: id in R.Decrypt(p, msg, newLocal).pair.skipped ==>
                           id in p.skipped || (id.dh == msg.header.dh && id.n < msg.header.n)
  {
    var h := msg.header;
    if MsgId(h.dh, h.n) !in p.skipped {
      var s := R.Prepare(p, h.dh, newLocal);
      PrepareKeepsSkipped(p, h.dh, newLocal);
      R.SkipShape(s, h.n);
    }
  }

  lemma ReceiveKeepsStoredBelow(ctx: Context, env: Envelope, newLocal: KeyId)
    requires StoredBelowHighest(ctx) && (ctx.ratchet.receiving.Some? ==> ctx.ratchet.dhr.Some?)
    ensures StoredBelowHighest(Receive(ctx, env, newLocal).ctx)
  {
    DecryptStores(ctx.ratchet, MessageOf(env), newLocal);
  }

  // Runs ------------------------------------------------------------------------------------------------

  datatype Call = Send(text: bytes) | Incoming(env: Envelope, newLocal: KeyId)

  /** A session together with the envelopes its cache has taken and those that have reached its ratchet, oldest first. */
  datatype Point = Point(ctx: Context, taken: seq<Envelope>, passed: seq<Envelope>)

  function Step(p: Point, c: Call): Point {
    match c
    case Send(text) => p.(ctx := p.ctx.(ratchet := R.Encrypt(p.ctx.ratchet, text).0))
    case Incoming(env, newLocal) =>
      Point(Receive(p.ctx, env, newLocal).ctx,
            if Accept(p.ctx.replay, env).Some? then p.taken + [env] else p.taken,
            if Reaches(p.ctx, env) then p.passed + [env] else p.passed)
  }

  ghost predicate IsRun(run: seq<Point>, calls: seq<Call>) {
    && |run| == |calls| + 1
    && forall i :: 0 <= i < |calls| ==> IsStep(run[i], calls[i], run[i + 1])
  }

  predicate IsStep(p: Point, c: Call, q: Point) {
    q == Step(p, c)
  }

  /** An envelope that has passed is on record in both detectors. */
  predicate OnRecord(ctx: Context, env: Envelope) {
    && KeyOf(env) in ctx.replay.seen
    && env.dh in ctx.replay.highest && env.n <= ctx.replay.highest[env.dh]
    && env.n <= ctx.fork.lastNumber && env.pn <= ctx.fork.lastChainLength
  }

  /** e passed before f. */
  predicate Ordered(e: Envelope, f: Envelope) {
    && e.n <= f.n && e.pn <= f.pn
    && (e.session == f.session && e.dh == f.dh ==> e.n < f.n)
  }

  ghost predicate AllOnRecord(p: Point) {
    forall i :: 0 <= i < |p.passed| ==> OnRecord(p.ctx, p.passed[i])
  }

  ghost predicate AllOrdered(passed: seq<Envelope>) {
    forall i, j :: 0 <= i < j < |passed| ==> Ordered(passed[i], passed[j])
  }

  ghost predicate Inv(p: Point) {
    && (p.ctx.ratchet.receiving.Some? ==> p.ctx.ratchet.dhr.Some?)
    && StoredBelowHighest(p.ctx)
    && (p.ctx.fork.lastKey.None? ==> p.passed == [])
    && AllOnRecord(p) && AllOrdered(p.passed)
  }

  lemma DecryptKeepsPeerKey(p: R.Pair, msg: R.Message, newLocal: KeyId)
    requires p.receiving.Some? ==> p.dhr.Some?
    ensures var q := R.Decrypt(p, msg, newLocal).pair; q.receiving.Some? ==> q.dhr.Some?
  {
    var h := msg.header;
    if MsgId(h.dh, h.n) !in p.skipped {
      var s := R.Prepare(p, h.dh, newLocal);
      PrepareKeepsSkipped(p, h.dh, newLocal);
      R.SkipShape(s, h.n);
    }
  }

  /** An envelope that reaches the ratchet comes after everything that has passed. */
  lemma NextIsOrdered(ctx: Context, e: Envelope, env: Envelope)
    requires OnRecord(ctx, e) && Reaches(ctx, env) && ctx.fork.lastKey.Some?
    ensures Ordered(e, env)
  {
  }

  lemma RecordsStay(ctx: Context, e: Envelope, env: Envelope, newLocal: KeyId)
    requires OnRecord(ctx, e) && ctx.fork.lastKey.Some?
    ensures OnRecord(Receive(ctx, env, newLocal).ctx, e)
    ensures Reaches(ctx, env) ==> OnRecord(Receive(ctx, env, newLocal).ctx, env)
  {
  }

  lemma FirstOnRecord(ctx: Context, env: Envelope, newLocal: KeyId)
    requires Reaches(ctx, env)
    ensures OnRecord(Receive(ctx, env, newLocal).ctx, env) && Receive(ctx, env, newLocal).ctx.fork.lastKey.Some?
  {
  }

  lemma IncomingKeepsInv(p: Point, env: Envelope, newLocal: KeyId, q: Point)
    requires Inv(p) && q == Step(p, Incoming(env, newLocal))
    ensures Inv(q)
  {
    ReceiveKeepsStoredBelow(p.ctx, env, newLocal);
    DecryptKeepsPeerKey(p.ctx.ratchet, MessageOf(env), newLocal);
    if Reaches(p.ctx, env) {
      FirstOnRecord(p.ctx, env, newLocal);
    }
    forall i | 0 <= i < |q.passed|
      ensures OnRecord(q.ctx, q.passed[i])
    {
      if i < |p.passed| {
        RecordsStay(p.ctx, p.passed[i], env, newLocal);
      }
    }
    forall i, j | 0 <= i < j < |q.passed|
      ensures Ordered(q.passed[i], q.passed[j])
    {
      if j < |p.passed| {
        assert Ordered(p.passed[i], p.passed[j]);
      } else {
        NextIsOrdered(p.ctx, p.passed[i], env);
      }
    }
  }

  lemma SendKeepsInv(p: Point, text: bytes, q: Point)
    requires Inv(p) && q == Step(p, Send(text))
    ensures Inv(q)
  {
    assert forall i :: 0 <= i < |p.passed| ==> OnRecord(p.ctx, p.passed[i]) && OnRecord(q.ctx, q.passed[i]);
  }

  lemma {:induction false} RunKeepsInv(ratchet: R.Pair, run: seq<Point>, calls: seq<Call>, k: nat)
    requires IsRun(run, calls) && k < |run| && run[0] == Point(NewContext(ratchet), [], [])
    requires ratchet.skipped == map[] && (ratchet.receiving.Some? ==> ratchet.dhr.Some?)
    ensures Inv(run[k])
  {
    if k > 0 {
      RunKeepsInv(ratchet, run, calls, k - 1);
      assert IsStep(run[k - 1], calls[k - 1], run[k]);
      match calls[k - 1] {
        case Send(text) => SendKeepsInv(run[k - 1], text, run[k]);
        case Incoming(env, newLocal) => IncomingKeepsInv(run[k - 1], env, newLocal, run[k]);
      }
    }
  }

  /**
   * Layered receive. In every run of sends and incoming envelopes on a new session, at every point: the
   * envelopes that reached the ratchet are ordered by number and chain length, strictly by number per
   * session id and ratchet key, and whatever reaches the ratchet next misses the skipped keys.
   */
  lemma LayeredReceive(seed: Key, dhs: KeyId, dhr: Option<KeyId>, isInitiator: bool, maxKeys: nat,
                       run: seq<Point>, calls: seq<Call>, k: nat, env: Envelope)
    requires IsRun(run, calls) && k < |run|
    requires run[0] == Point(NewContext(R.Initial(seed, dhs, dhr, isInitiator, maxKeys)), [], [])
    ensures AllOrdered(run[k].passed)
    ensures Reaches(run[k].ctx, env) ==>
              && MsgId(env.dh, env.n) !in run[k].ctx.ratchet.skipped
              && forall e :: e in run[k].passed ==> Ordered(e, env)
  {
    RunKeepsInv(R.Initial(seed, dhs, dhr, isInitiator, maxKeys), run, calls, k);
    if Reaches(run[k].ctx, env) {
      ReachingMissesStore(run[k].ctx, env);
      forall e | e in run[k].passed
        ensures Ordered(e, env)
      {
        var i :| 0 <= i < |run[k].passed| && run[k].passed[i] == e;
        NextIsOrdered(run[k].ctx, e, env);
      }
    }
  }

  /** So a message overtaken by a later one of its chain is refused, although its key was stored for it. */
  lemma OvertakenIsRefused(seed: Key, dhs: KeyId, dhr: Option<KeyId>, isInitiator: bool, maxKeys: nat,
                           run: seq<Point>, calls: seq<Call>, k: nat, env: Envelope, newLocal: KeyId)
    requires IsRun(run, calls) && k < |run|
    requires run[0] == Point(NewContext(R.Initial(seed, dhs, dhr, isInitiator, maxKeys)), [], [])
    requires exists e :: e in run[k].passed && e.dh == env.dh && env.n < e.n
    ensures Receive(run[k].ctx, env, newLocal).outcome == Refused
    ensures Receive(run[k].ctx, env, newLocal).ctx.ratchet == run[k].ctx.ratchet
  {
    LayeredReceive(seed, dhs, dhr, isInitiator, maxKeys, run, calls, k, env);
    var e :| e in run[k].passed && e.dh == env.dh && env.n < e.n;
    assert !Ordered(e, env);
  }

  // What reaches the ratchet ----------------------------------------------------------------------------

  /** x is the cache key of an envelope that was taken. */
  ghost predicate IsKeyOf(taken: seq<Envelope>, x: CacheKey) {
    exists e :: e in taken && KeyOf(e) == x
  }

  ghost predicate IsHighest(taken: seq<Envelope>, dh: KeyId, n: nat) {
    exists e :: e in taken && e.dh == dh && e.n == n
  }

  ghost predicate KeysRecorded(seen: set<CacheKey>, taken: seq<Envelope>) {
    (forall e :: e in taken ==> KeyOf(e) in seen) && forall x :: x in seen ==> IsKeyOf(taken, x)
  }

  ghost predicate HighestRecorded(highest: map<KeyId, nat>, taken: seq<Envelope>) {
    && (forall e :: e in taken ==> e.dh in highest && e.n <= highest[e.dh])
    && (forall dh :: dh in highest ==> IsHighest(taken, dh, highest[dh]))
  }

  /** The cache is what it has taken: the keys, how many, and the highest number of each ratchet key. */
  ghost predicate CacheRecords(cache: Replay, taken: seq<Envelope>) {
    && cache.maxEntries == CACHE && |cache.seen| == |taken|
    && KeysRecorded(cache.seen, taken) && HighestRecorded(cache.highest, taken)
  }

  /** The fork record is the last envelope that passed. */
  predicate ForkRecords(fork: Fork, passed: seq<Envelope>) {
    if passed == [] then fork == Fork(-1, -1, None)
    else
      var e := passed[|passed| - 1];
      fork == Fork(e.n, e.pn, Some(e.dh))
  }

  ghost predicate Recorded(p: Point) {
    CacheRecords(p.ctx.replay, p.taken) && ForkRecords(p.ctx.fork, p.passed)
  }

  /** New to the cache, not below the highest number taken for its ratchet key, and the cache is not full. */
  ghost predicate CacheTakes(taken: seq<Envelope>, env: Envelope) {
    && |taken| < CACHE
    && forall e :: e in taken ==> KeyOf(e) != KeyOf(env) && (e.dh == env.dh ==> e.n <= env.n)
  }

  /** Neither number lies below one that passed. */
  ghost predicate NotBehind(passed: seq<Envelope>, env: Envelope) {
    forall e :: e in passed ==> e.n <= env.n && e.pn <= env.pn
  }

  lemma AcceptIff(cache: Replay, taken: seq<Envelope>, env: Envelope)
    requires CacheRecords(cache, taken)
    ensures Accept(cache, env).Some? <==> CacheTakes(taken, env)
  {
    if KeyOf(env) in cache.seen {
      assert IsKeyOf(taken, KeyOf(env));
    }
    if env.dh in cache.highest {
      assert IsHighest(taken, env.dh, cache.highest[env.dh]);
    }
  }

  lemma OneMoreKey(seen: set<CacheKey>, taken: seq<Envelope>, env: Envelope)
    requires KeysRecorded(seen, taken)
    ensures KeysRecorded(seen + {KeyOf(env)}, taken + [env])
  {
    var more := taken + [env];
    assert env in more && forall e :: e in taken ==> e in more;
    forall x | x in seen
      ensures IsKeyOf(more, x)
    {
      assert IsKeyOf(taken, x);
    }
  }

  lemma OneMoreHighest(highest: map<KeyId, nat>, taken: seq<Envelope>, env: Envelope, next: map<KeyId, nat>)
    requires HighestRecorded(highest, taken) && (env.dh in highest ==> highest[env.dh] <= env.n)
    requires next == highest || (next == highest[env.dh := env.n])
    requires next == highest ==> env.dh in highest && highest[env.dh] == env.n
    ensures HighestRecorded(next, taken + [env])
  {
    var more := taken + [env];
    assert env in more && forall e :: e in taken ==> e in more;
    forall dh | dh in next
      ensures IsHighest(more, dh, next[dh])
    {
      assert dh in highest ==> IsHighest(taken, dh, highest[dh]);
    }
  }

  lemma AcceptRecords(cache: Replay, taken: seq<Envelope>, env: Envelope, next: Replay)
    requires CacheRecords(cache, taken) && Accept(cache, env) == Some(next)
    ensures CacheRecords(next, taken + [env])
  {
    OneMoreKey(cache.seen, taken, env);
    OneMoreHighest(cache.highest, taken, env, next.highest);
  }

  lemma ProgressIff(fork: Fork, passed: seq<Envelope>, env: Envelope)
    requires ForkRecords(fork, passed) && AllOrdered(passed)
    ensures Progress(fork, env).Some? <==> NotBehind(passed, env)
    ensures Progress(fork, env).Some? ==> ForkRecords(Progress(fork, env).value, passed + [env])
  {
    if passed != [] {
      forall e | e in passed
        ensures e.n <= fork.lastNumber && e.pn <= fork.lastChainLength
      {
        var i :| 0 <= i < |passed| && passed[i] == e;
        assert i < |passed| - 1 ==> Ordered(passed[i], passed[|passed| - 1]);
      }
      assert passed[|passed| - 1] in passed;
    }
  }

  lemma StepRecords(p: Point, c: Call, q: Point)
    requires Recorded(p) && AllOrdered(p.passed) && IsStep(p, c, q)
    ensures Recorded(q)
  {
    if c.Incoming? {
      var cache := Accept(p.ctx.replay, c.env);
      if cache.Some? {
        AcceptRecords(p.ctx.replay, p.taken, c.env, cache.value);
      }
      ProgressIff(p.ctx.fork, p.passed, c.env);
    }
  }

  lemma {:induction false} RunRecords(ratchet: R.Pair, run: seq<Point>, calls: seq<Call>, k: nat)
    requires IsRun(run, calls) && k < |run| && run[0] == Point(NewContext(ratchet), [], [])
    requires ratchet.skipped == map[] && (ratchet.receiving.Some? ==> ratchet.dhr.Some?)
    ensures Recorded(run[k]) && AllOrdered(run[k].passed)
  {
    RunKeepsInv(ratchet, run, calls, k);
    if k > 0 {
      RunRecords(ratchet, run, calls, k - 1);
      assert IsStep(run[k - 1], calls[k - 1], run[k]);
      StepRecords(run[k - 1], calls[k - 1], run[k]);
    }
  }

  /**
   * The converse of the layered receive. In every run an envelope reaches the ratchet if and only if it
   * is new to the cache, the cache has room, its number is not below the highest taken for its key, and
   * neither of its numbers is below one that passed; and the reason recorded on a refusal is the first
   * of these that failed.
   */
  lemma ReachesIff(seed: Key, dhs: KeyId, dhr: Option<KeyId>, isInitiator: bool, maxKeys: nat,
                   run: seq<Point>, calls: seq<Call>, k: nat, env: Envelope, newLocal: KeyId)
    requires IsRun(run, calls) && k < |run|
    requires run[0] == Point(NewContext(R.Initial(seed, dhs, dhr, isInitiator, maxKeys)), [], [])
    ensures var p := run[k];
            && (Reaches(p.ctx, env) <==> CacheTakes(p.taken, env) && NotBehind(p.passed, env))
            && (Receive(p.ctx, env, newLocal).outcome.Ratchet? <==> Reaches(p.ctx, env))
            && Receive(p.ctx, env, newLocal).ctx.reset ==
               if !CacheTakes(p.taken, env) then ReplayDetected
               else if !NotBehind(p.passed, env) then ForkDetected
               else p.ctx.reset
  {
    RunRecords(R.Initial(seed, dhs, dhr, isInitiator, maxKeys), run, calls, k);
    AcceptIff(run[k].ctx.replay, run[k].taken, env);
    ProgressIff(run[k].ctx.fork, run[k].passed, env);
  }

  // Message 1 before message 0: a new responder with key 1, a sender with key 2, and chain FIRST_CHAIN.

  const FIRST_CHAIN := ChainStart(Seed(0), Dh(1, 2))

  const RESPONDER := NewContext(R.Initial(Seed(0), 1, Some(2), false, 1000))

  function MessageZero(text: bytes): Envelope {
    Envelope(9, 2, 0, 0, R.Sealed(MessageKey(FIRST_CHAIN), R.NonceNumber(0), text))
  }

  lemma OneIsAhead(other: R.Cipher)
    ensures var next := Receive(RESPONDER, Envelope(9, 2, 1, 0, other), 3).ctx;
            && next.ratchet.skipped == map[MsgId(2, 0) := MessageKey(FIRST_CHAIN)]
            && next.replay.highest == map[2 := 1]
  {
    var st := RESPONDER.ratchet;
    var one := R.SkipOne(st);
    assert R.SkipUntil(st, 1) == R.SkipUntil(one, 1) == (one, true);
  }

  lemma ZeroIsGood(text: bytes)
    ensures Receive(RESPONDER, MessageZero(text), 3).outcome == Ratchet(R.Accepted(text))
  {
    assert R.SkipUntil(RESPONDER.ratchet, 0) == (RESPONDER.ratchet, true);
  }

  /**
   * When message 1 comes first, the key of message 0 is stored; message 0, which would have been
   * accepted before, is refused when it comes.
   */
  lemma StoredKeyIsNeverUsed(text: bytes, other: R.Cipher)
    ensures var next := Receive(RESPONDER, Envelope(9, 2, 1, 0, other), 3).ctx;
            && MsgId(2, 0) in next.ratchet.skipped && next.ratchet.skipped[MsgId(2, 0)] == MessageKey(FIRST_CHAIN)
            && Receive(RESPONDER, MessageZero(text), 3).outcome == Ratchet(R.Accepted(text))
            && Receive(next, MessageZero(text), 3).outcome == Refused
  {
    OneIsAhead(other);
    ZeroIsGood(text);
  }

  // The objects -----------------------------------------------------------------------------------------

  class ReplayCache {
    var seen: set<CacheKey>
    var highest: map<KeyId, nat>
    const maxEntries: nat

    constructor ()
      ensures View() == Replay({}, map[], CACHE)
    {
      seen, highest, maxEntries := {}, map[], CACHE;
    }

    ghost function View(): Replay
      reads this
    {
      Replay(seen, highest, maxEntries)
    }

    /** accept */
    method AcceptEnvelope(env: Envelope) returns (taken: bool)
      modifies this
      ensures taken <==> Accept(old(View()), env).Some?
      ensures View() == if taken then Accept(old(View()), env).value else old(View())
    {
      var key := KeyOf(env);
      if key in seen {
        return false;
      }
      var last := if env.dh in highest then Some(highest[env.dh]) else None;
      if last.Some? && env.n < last.value {
        return false;
      }
      if |seen| >= maxEntries {
        return false;
      }
      seen := seen + {key};
      if last.None? || env.n > last.value {
        highest := highest[env.dh := env.n];
      }
      return true;
    }
  }

  class ForkState {
    var lastNumber: int
    var lastChainLength: int
    var lastKey: Option<KeyId>

    constructor ()
      ensures View() == Fork(-1, -1, None)
    {
      lastNumber, lastChainLength, lastKey := -1, -1, None;
    }

    ghost function View(): Fork
      reads this
    {
      Fork(lastNumber, lastChainLength, lastKey)
    }

    /** detect_fork */
    method DetectFork(env: Envelope) returns (fork: bool)
      modifies this
      ensures fork <==> Progress(old(View()), env).None?
      ensures View() == if fork then old(View()) else Progress(old(View()), env).value
    {
      if lastKey.Some? && Some(env.dh) == lastKey {
        if env.n < lastNumber {
          return true;
        }
      }
      if lastKey.Some? && Some(env.dh) != lastKey {
        if env.n < lastNumber {
          return true;
        }
      }
      if env.pn < lastChainLength {
        return true;
      }
      lastNumber, lastChainLength, lastKey := env.n, env.pn, Some(env.dh);
      return false;
    }
  }

  class SessionContext {
    const ratchet: R.DoubleRatchet
    const replay: ReplayCache
    const fork: ForkState
    var reset: Reset

    ghost predicate Valid()
      reads this, ratchet
    {
      ratchet.receiving.Some? ==> ratchet.dhr.Some?
    }

    ghost function View(): Context
      reads this, ratchet, replay, fork
    {
      Context(ratchet.View(), replay.View(), fork.View(), reset)
    }

    /** create_symmetric_session */
    constructor (seed: Key, dhs: KeyId, dhr: KeyId, isInitiator: bool)
      ensures Valid() && fresh(ratchet) && fresh(replay) && fresh(fork)
      ensures View() == NewContext(R.Initial(seed, dhs, Some(dhr), isInitiator, 1000))
    {
      ratchet := new R.DoubleRatchet(seed, dhs, Some(dhr), isInitiator, 1000);
      replay := new ReplayCache();
      fork := new ForkState();
      reset := NotNeeded;
    }

    /** decrypt_from */
    method DecryptFrom(env: Envelope, newLocal: KeyId) returns (r: Outcome)
      requires Valid()
      modifies this, ratchet, replay, fork
      ensures Valid()
      ensures Received(View(), r) == Receive(old(View()), env, newLocal)
    {
      var accepted := replay.AcceptEnvelope(env);
      if !accepted {
        reset := ReplayDetected;
        return Refused;
      }
      var forked := fork.DetectFork(env);
      if forked {
        reset := ForkDetected;
        return Refused;
      }
      var outcome := ratchet.DecryptMessage(MessageOf(env), newLocal);
      return Ratchet(outcome);
    }
  }
}

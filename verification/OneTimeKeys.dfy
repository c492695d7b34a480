/**
 * One-time prekeys over whole runs of a responder: handshakes with any requests, completed or
 * refused, mixed with saving the bundle to its file and restoring it
 * (client/crypto/prekey.py, client/crypto/x3dh.py).
 */
module OneTimeKeys {
  import opened Common
  import opened PreKeys
  import opened X3dh

  datatype Action = Handshake(q: Request, kem: Option<Kem>) | SaveAndRestore

  /** The bundle, and the one-time keys that have entered a key derivation, oldest first. */
  datatype Desk = Desk(bundle: Bundle, taken: seq<OneTimePreKey>)

  /** The key a request makes the responder use, if it gets that far. */
  function Taken(c: Crypto, b: Bundle, q: Request): seq<OneTimePreKey> {
    if Refusal(c, b, q).None? && q.opkId.Some? && Available(b, q.opkId.value) then [b.oneTime[q.opkId.value]] else []
  }

  function Next(c: Crypto, d: Desk, a: Action): Desk {
    match a
    case Handshake(q, kem) => Desk(Respond(c, d.bundle, q, kem).bundle, d.taken + Taken(c, d.bundle, q))
    case SaveAndRestore =>
      match Restore(Serialize(d.bundle), d.bundle.identity)
      case None => d
      case Some(b) => d.(bundle := b)
  }

  predicate IsStep(c: Crypto, d: Desk, a: Action, next: Desk) {
    next == Next(c, d, a)
  }

  ghost predicate IsRun(c: Crypto, start: Bundle, run: seq<Desk>, actions: seq<Action>) {
    && |run| == |actions| + 1 && run[0] == Desk(start, [])
    && forall k :: 0 <= k < |actions| ==> IsStep(c, run[k], actions[k], run[k + 1])
  }

  function IdsOf(s: seq<OneTimePreKey>): seq<int> {
    seq(|s|, i requires 0 <= i < |s| => s[i].id)
  }

  predicate FromPool(start: Bundle, k: OneTimePreKey) {
    k.id in start.oneTime && start.oneTime[k.id] == k
  }

  /** Available and used ids are disjoint and together the original ones, and every key is accounted for. */
  ghost predicate Conserved(start: Bundle, d: Desk) {
    && PoolOk(d.bundle) && Storable(d.bundle)
    && AllIds(d.bundle) == AllIds(start)
    && d.bundle.used == start.used + IdsOf(d.taken)
    && (forall id :: id in d.bundle.oneTime ==> FromPool(start, d.bundle.oneTime[id]))
    && (forall i :: 0 <= i < |d.taken| ==> FromPool(start, d.taken[i]))
  }

  lemma RestoreIsNeutral(b: Bundle)
    requires PoolOk(b) && Storable(b)
    ensures Restore(Serialize(b), b.identity) == Some(b)
  {
    RestoreSavedIff(b);
  }

  lemma TakeConserves(start: Bundle, d: Desk, id: int, next: Desk)
    requires Conserved(start, d) && Available(d.bundle, id)
    requires next == Desk(Consumed(d.bundle, id), d.taken + [d.bundle.oneTime[id]])
    ensures Conserved(start, next)
  {
    ConsumeConserves(d.bundle, id);
    assert IdsOf(next.taken) == IdsOf(d.taken) + [id];
    assert next.bundle.used == start.used + IdsOf(next.taken);
  }

  lemma StepConserves(c: Crypto, start: Bundle, d: Desk, a: Action, next: Desk)
    requires Conserved(start, d) && IsStep(c, d, a, next)
    ensures Conserved(start, next)
  {
    match a {
      case Handshake(q, kem) =>
        if Taken(c, d.bundle, q) == [] {
          assert next == d;
        } else {
          TakeConserves(start, d, q.opkId.value, next);
        }
      case SaveAndRestore => RestoreIsNeutral(d.bundle);
    }
  }

  lemma {:induction false} RunConserves(c: Crypto, start: Bundle, run: seq<Desk>, actions: seq<Action>, k: nat)
    requires PoolOk(start) && Storable(start) && IsRun(c, start, run, actions) && k <= |actions|
    ensures Conserved(start, run[k])
  {
    if k == 0 {
      assert start.used + IdsOf([]) == start.used;
    } else {
      RunConserves(c, start, run, actions, k - 1);
      StepConserves(c, start, run[k - 1], actions[k - 1], run[k]);
    }
  }

  /** A key that has entered a derivation enters no other, is not on offer, and was not used before the run. */
  lemma NoKeyTwice(c: Crypto, start: Bundle, run: seq<Desk>, actions: seq<Action>, k: nat, i: nat)
    requires PoolOk(start) && Storable(start) && IsRun(c, start, run, actions) && k <= |actions|
    requires i < |run[k].taken|
    ensures forall j :: 0 <= j < |run[k].taken| && j != i ==> run[k].taken[j].id != run[k].taken[i].id
    ensures run[k].taken[i].id !in run[k].bundle.oneTime && run[k].taken[i].id !in start.used
  {
    RunConserves(c, start, run, actions, k);
    var d, n := run[k], |start.used|;
    forall j | 0 <= j < |d.taken|
      ensures d.bundle.used[n + j] == d.taken[j].id
    {
    }
    forall m | 0 <= m < n
      ensures start.used[m] != d.taken[i].id
    {
      assert d.bundle.used[m] == start.used[m];
    }
  }
}

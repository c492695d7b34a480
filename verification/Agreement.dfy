/**
 * Injective agreement between two client engines over an adversarial network
 * (client/crypto/double_ratchet.py). The network may drop, replay, reorder, reflect and rewrite
 * headers and nonces, and may seal ciphertexts of its own under keys that do not come from the
 * session's seed.
 */
module Agreement {
  import opened Common
  import opened Kdf
  import opened Stores
  import opened Ratchet
  import S = SingleUse

  datatype Party = Initiator | Responder

  function Other(p: Party): Party {
    if p.Initiator? then Responder else Initiator
  }

  datatype Record = Record(party: Party, msg: WireMessage, text: bytes)

  datatype Net = Net(initiator: State, responder: State, sent: seq<Record>, accepted: seq<Record>)

  datatype Action = Send(p: Party, text: bytes) | Deliver(p: Party, msg: WireMessage, newLocal: KeyId)

  function Engine(net: Net, p: Party): State {
    if p.Initiator? then net.initiator else net.responder
  }

  function WithEngine(net: Net, p: Party, st: State): Net {
    if p.Initiator? then net.(initiator := st) else net.(responder := st)
  }

  /** What the network can put in front of a party. */
  ghost predicate Possible(net: Net, seed: nat, a: Action) {
    a.Deliver? ==>
      && WireValid(a.msg.header)
      && (|| a.msg.cipher.Junk?
          || Origin(a.msg.cipher.key) != seed
          || exists i :: 0 <= i < |net.sent| && net.sent[i].msg.cipher == a.msg.cipher)
  }

  ghost predicate CapacitiesOk(net: Net) {
    StoresOk(net.initiator) && StoresOk(net.responder)
  }

  function Step(net: Net, a: Action): Net
    requires CapacitiesOk(net) && (a.Deliver? ==> WireValid(a.msg.header))
  {
    match a
    case Send(p, text) =>
      var r := Encrypt(Engine(net, p), text);
      var next := WithEngine(net, p, r.state);
      if r.outcome.Sent? then next.(sent := net.sent + [Record(p, r.outcome.msg, text)]) else next
    case Deliver(p, msg, newLocal) =>
      var r := Decrypt(Engine(net, p), msg, newLocal);
      var next := WithEngine(net, p, r.state);
      if r.outcome.Accepted? then next.(accepted := net.accepted + [Record(p, msg, r.outcome.text)]) else next
  }

  ghost predicate IsStep(net: Net, seed: nat, a: Action, next: Net) {
    CapacitiesOk(net) && Possible(net, seed, a) && next == Step(net, a)
  }

  /** A run is the list of networks it goes through. */
  ghost predicate IsRun(run: seq<Net>, actions: seq<Action>, seed: nat) {
    && |run| == |actions| + 1
    && forall i :: 0 <= i < |actions| ==> IsStep(run[i], seed, actions[i], run[i + 1])
  }

  /** The accepted message is the sent one: other party, same text, same key, numbers and ciphertext. */
  predicate Matches(s: Record, a: Record) {
    && s.party == Other(a.party)
    && s.text == a.text
    && s.msg.cipher == a.msg.cipher
    && s.msg.header.dh == a.msg.header.dh
    && s.msg.header.n == a.msg.header.n
    && s.msg.header.pn % U32_LIMIT == a.msg.header.pn
  }

  ghost predicate WasSent(sent: seq<Record>, a: Record) {
    exists i :: 0 <= i < |sent| && Matches(sent[i], a)
  }

  ghost predicate Agreed(net: Net) {
    && (forall j :: 0 <= j < |net.accepted| ==> WasSent(net.sent, net.accepted[j]))
    && (forall i, j, k :: 0 <= i < |net.sent| && 0 <= j < k < |net.accepted| ==>
                            !(Matches(net.sent[i], net.accepted[j]) && Matches(net.sent[i], net.accepted[k])))
  }

  // The invariant -----------------------------------------------------------------------------------

  datatype Log = Log(initiator: set<Key>, responder: set<Key>)

  function Used(log: Log, p: Party): set<Key> {
    if p.Initiator? then log.initiator else log.responder
  }

  function Add(log: Log, p: Party, key: Option<Key>): Log {
    if key.None? then log
    else if p.Initiator? then log.(initiator := log.initiator + {key.value})
    else log.(responder := log.responder + {key.value})
  }

  predicate SentOk(log: Log, r: Record) {
    && r.msg.cipher.Sealed? && r.msg.cipher.key in Used(log, r.party)
    && r.msg.cipher.text == r.text
    && r.msg.cipher.aad == HeaderAad(r.msg.header)
    && Position(r.msg.cipher.key) == r.msg.header.n
  }

  predicate AcceptedOk(log: Log, r: Record) {
    r.msg.cipher.Sealed? && r.msg.cipher.key in Used(log, r.party)
  }

  ghost predicate Inv(net: Net, seed: nat, log: Log) {
    && S.Inv(net.initiator, seed, log.initiator)
    && S.Inv(net.responder, seed, log.responder)
    && (forall i :: 0 <= i < |net.sent| ==> SentOk(log, net.sent[i]))
    && (forall j :: 0 <= j < |net.accepted| ==> AcceptedOk(log, net.accepted[j]))
    && (forall j, k :: 0 <= j < k < |net.accepted| && net.accepted[j].party == net.accepted[k].party ==>
                         net.accepted[j].msg.cipher != net.accepted[k].msg.cipher)
    && (forall j :: 0 <= j < |net.accepted| ==> WasSent(net.sent, net.accepted[j]))
  }

  lemma EngineMovesInv(net: Net, seed: nat, log: Log, p: Party, st: State, key: Option<Key>)
    requires Inv(net, seed, log)
    requires S.Inv(st, seed, Used(Add(log, p, key), p))
    ensures Inv(WithEngine(net, p, st), seed, Add(log, p, key))
  {
  }

  lemma RecordKeepsInv(net: Net, seed: nat, log: Log, rec: Record)
    requires Inv(net, seed, log) && SentOk(log, rec)
    ensures Inv(net.(sent := net.sent + [rec]), seed, log)
  {
    var sent := net.sent + [rec];
    forall j | 0 <= j < |net.accepted|
      ensures WasSent(sent, net.accepted[j])
    {
      assert WasSent(net.sent, net.accepted[j]);
      var i :| 0 <= i < |net.sent| && Matches(net.sent[i], net.accepted[j]);
      assert Matches(sent[i], net.accepted[j]);
    }
  }

  lemma SendKeepsInv(net: Net, seed: nat, log: Log, p: Party, text: bytes)
    requires Inv(net, seed, log)
    ensures Inv(Step(net, Send(p, text)), seed, Add(log, p, Encrypt(Engine(net, p), text).key))
  {
    var st := Engine(net, p);
    var r := Encrypt(st, text);
    S.SendInv(st, seed, Used(log, p), text);
    EngineMovesInv(net, seed, log, p, r.state, r.key);
    if r.key.Some? {
      RecordKeepsInv(WithEngine(net, p, r.state), seed, Add(log, p, r.key), Record(p, r.outcome.msg, text));
    }
  }

  /** A text opened under an unused key of the session was sealed by the other party under this header. */
  lemma OpenedWasSent(net: Net, seed: nat, log: Log, p: Party, msg: WireMessage, key: Key, text: bytes)
    requires Inv(net, seed, log) && Possible(net, seed, Deliver(p, msg, 0))
    requires key !in Used(log, p) && Origin(key) == seed && Position(key) == msg.header.n
    requires Open(key, msg) == Some(text)
    ensures WasSent(net.sent, Record(p, msg, text))
  {
    var i :| 0 <= i < |net.sent| && net.sent[i].msg.cipher == msg.cipher;
    assert SentOk(log, net.sent[i]);
    assert Matches(net.sent[i], Record(p, msg, text));
  }

  lemma AcceptKeepsInv(net: Net, seed: nat, log: Log, p: Party, msg: WireMessage, st: State, key: Key, text: bytes)
    requires Inv(net, seed, log) && Possible(net, seed, Deliver(p, msg, 0))
    requires key !in Used(log, p) && Position(key) == msg.header.n && Open(key, msg) == Some(text)
    requires S.Inv(st, seed, Used(log, p) + {key})
    ensures Inv(WithEngine(net, p, st).(accepted := net.accepted + [Record(p, msg, text)]), seed, Add(log, p, Some(key)))
  {
    assert S.Behind(st, seed, key);
    OpenedWasSent(net, seed, log, p, msg, key, text);
    EngineMovesInv(net, seed, log, p, st, Some(key));
    var moved := WithEngine(net, p, st);
    var next := moved.(accepted := net.accepted + [Record(p, msg, text)]);
    forall j | 0 <= j < |net.accepted| && net.accepted[j].party == p
      ensures net.accepted[j].msg.cipher != msg.cipher
    {
      assert AcceptedOk(log, net.accepted[j]);
    }
  }

  lemma DeliverKeepsInv(net: Net, seed: nat, log: Log, p: Party, msg: WireMessage, newLocal: KeyId)
    requires Inv(net, seed, log) && Possible(net, seed, Deliver(p, msg, newLocal))
    ensures Inv(Step(net, Deliver(p, msg, newLocal)), seed, Add(log, p, Decrypt(Engine(net, p), msg, newLocal).key))
  {
    var st := Engine(net, p);
    var r := Decrypt(st, msg, newLocal);
    S.ReceiveInv(st, seed, Used(log, p), msg, newLocal);
    if r.outcome.Accepted? {
      AcceptKeepsInv(net, seed, log, p, msg, r.state, r.key.value, r.outcome.text);
    } else {
      EngineMovesInv(net, seed, log, p, r.state, r.key);
    }
  }

  lemma StepKeepsInv(net: Net, seed: nat, log: Log, a: Action, next: Net) returns (l: Log)
    requires Inv(net, seed, log) && IsStep(net, seed, a, next)
    ensures Inv(next, seed, l)
  {
    match a {
      case Send(p, text) =>
        SendKeepsInv(net, seed, log, p, text);
        l := Add(log, p, Encrypt(Engine(net, p), text).key);
      case Deliver(p, msg, newLocal) =>
        DeliverKeepsInv(net, seed, log, p, msg, newLocal);
        l := Add(log, p, Decrypt(Engine(net, p), msg, newLocal).key);
    }
  }

  lemma {:induction false} RunKeepsInv(run: seq<Net>, actions: seq<Action>, seed: nat, log: Log, k: nat) returns (l: Log)
    requires IsRun(run, actions, seed) && Inv(run[0], seed, log) && k <= |actions|
    ensures Inv(run[k], seed, l)
  {
    l := log;
    if k > 0 {
      l := RunKeepsInv(run, actions, seed, log, k - 1);
      l := StepKeepsInv(run[k - 1], seed, l, actions[k - 1], run[k]);
    }
  }

  lemma AgreedFromInv(net: Net, seed: nat, log: Log)
    requires Inv(net, seed, log)
    ensures Agreed(net)
  {
    assert forall i, j, k :: 0 <= i < |net.sent| && 0 <= j < k < |net.accepted| ==>
                               !(Matches(net.sent[i], net.accepted[j]) && Matches(net.sent[i], net.accepted[k]));
  }

  /**
   * In every run from two states created for the same seed, each accepted text was sent by the other
   * party under exactly that key and numbers, and no sent message is accepted twice.
   */
  lemma InjectiveAgreement(seed: nat, dhrI: Option<KeyId>, dhrR: Option<KeyId>, dhsI: KeyId, dhsR: KeyId,
                           capI: nat, capR: nat, run: seq<Net>, actions: seq<Action>)
    requires capI >= 1 && capR >= 1
    requires IsRun(run, actions, seed)
    requires run[0] == Net(InitialState(Seed(seed), true, dhrI, dhsI, capI),
                           InitialState(Seed(seed), false, dhrR, dhsR, capR), [], [])
    ensures Agreed(run[|run| - 1])
  {
    S.InitialInv(seed, true, dhrI, dhsI, capI);
    S.InitialInv(seed, false, dhrR, dhsR, capR);
    var l := RunKeepsInv(run, actions, seed, Log({}, {}), |actions|);
    AgreedFromInv(run[|run| - 1], seed, l);
  }
}

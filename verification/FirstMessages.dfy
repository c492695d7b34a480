/**
 * The ways into a session other than the usual one (client/crypto/double_ratchet.py): two parties
 * that know each other's ratchet key when they start, and a state without any chain.
 */
module FirstMessages {
  import opened Common
  import opened Kdf
  import opened Stores
  import opened Ratchet

  /** A new session with a remote key. */
  function Known(seed: nat, isInitiator: bool, local: KeyId, remote: KeyId, cap: nat): State {
    InitialState(Seed(seed), isInitiator, Some(remote), local, cap)
  }

  lemma SharedBothWays(a: KeyId, b: KeyId)
    ensures SharedSecret(a, b) == SharedSecret(b, a)
  {
  }

  /** The initiator's first message comes out at the responder. */
  lemma InitiatorIsHeard(seed: nat, a: KeyId, b: KeyId, capA: nat, capB: nat, text: bytes, newLocal: KeyId)
    requires capA >= 1 && capB >= 1
    ensures var s := Encrypt(Known(seed, true, a, b, capA), text);
            s.outcome.Sent? && Decrypt(Known(seed, false, b, a, capB), s.outcome.msg, newLocal).outcome == Accepted(text)
  {
    SharedBothWays(a, b);
    var bob := Known(seed, false, b, a, capB);
    ReceiveHead(bob, Encrypt(Known(seed, true, a, b, capA), text).outcome.msg, newLocal, bob, text);
  }

  /** So does the responder's at the initiator, even if it speaks first, and both end with the same root key. */
  lemma ResponderIsHeard(seed: nat, a: KeyId, b: KeyId, capA: nat, capB: nat, text: bytes, newLocal: KeyId)
    requires capA >= 1 && capB >= 1
    ensures var s := Encrypt(Known(seed, false, b, a, capB), text);
            s.outcome.Sent?
            && var r := Decrypt(Known(seed, true, a, b, capA), s.outcome.msg, newLocal);
               r.outcome == Accepted(text) && r.state.rootKey == s.state.rootKey && r.state.dhs == a
  {
    SharedBothWays(a, b);
    var alice := Known(seed, true, a, b, capA);
    var msg := Encrypt(Known(seed, false, b, a, capB), text).outcome.msg;
    ReceiveHead(alice, msg, newLocal, Prepare(alice, b, newLocal), text);
  }

  /** A state without remote key and chains, which no created session reaches, starts from its root key. */
  lemma EmptyStateReceives(st: State, dh: KeyId, pn: nat, text: bytes, newLocal: KeyId)
    requires StoresOk(st) && st.dhr.None? && st.sendingChain.None? && st.receivingChain.None? && st.nr == 0
    requires st.skipped == [] && st.received == [] && pn < U32_LIMIT
    ensures Decrypt(st, Seal(MessageKey(InitChain(st.rootKey)), Header(dh, 0, pn), text), newLocal).outcome == Accepted(text)
  {
    ReceiveHead(st, Seal(MessageKey(InitChain(st.rootKey)), Header(dh, 0, pn), text), newLocal, Prepare(st, dh, newLocal), text);
  }
}

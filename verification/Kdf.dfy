/**
 * Symbolic key material of the client double ratchet (client/crypto/kdf.py).
 *
 * HKDF with distinct salts and infos is a free constructor per use. A DH key pair is named by its
 * public key, and a shared secret is the unordered pair of the two ends, so that both sides compute
 * the same term.
 */
module Kdf {
  type KeyId = nat

  datatype Shared = Dh(low: KeyId, high: KeyId)

  datatype Key =
    | Seed(id: nat)                          // root key handed over by X3DH
    | RootNext(root: Key, dh: Shared)        // first half of kdf_root
    | ChainStart(root: Key, dh: Shared)      // second half of kdf_root
    | InitChain(root: Key)                   // kdf_initial_chain
    | ChainNext(chain: Key)                  // first half of kdf_chain
    | MessageKey(chain: Key)                 // second half of kdf_chain

  function SharedSecret(local: KeyId, remote: KeyId): Shared {
    if local <= remote then Dh(local, remote) else Dh(remote, local)
  }

  function KdfRoot(root: Key, dh: Shared): (Key, Key) {
    (RootNext(root, dh), ChainStart(root, dh))
  }

  function KdfChain(chain: Key): (Key, Key) {
    (ChainNext(chain), MessageKey(chain))
  }

  /** The chain key after n uses of the chain. */
  function Iterate(chain: Key, n: nat): Key {
    if n == 0 then chain else ChainNext(Iterate(chain, n - 1))
  }

  /** The seed a key was derived from. */
  function Origin(k: Key): nat {
    match k
    case Seed(id) => id
    case RootNext(r, _) => Origin(r)
    case ChainStart(r, _) => Origin(r)
    case InitChain(r) => Origin(r)
    case ChainNext(c) => Origin(c)
    case MessageKey(c) => Origin(c)
  }

  /** Number of kdf_root steps behind a root key. */
  function Depth(k: Key): nat {
    match k
    case RootNext(r, _) => Depth(r) + 1
    case _ => 0
  }

  /** Number of kdf_root steps behind the chain a chain key or message key belongs to. */
  function Level(k: Key): nat {
    match k
    case InitChain(r) => Depth(r)
    case ChainStart(r, _) => Depth(r) + 1
    case ChainNext(c) => Level(c)
    case MessageKey(c) => Level(c)
    case _ => 0
  }

  /** Position of a chain key or message key inside its chain. */
  function Position(k: Key): nat {
    match k
    case ChainNext(c) => Position(c) + 1
    case MessageKey(c) => Position(c)
    case _ => 0
  }

  lemma {:induction false} IterateAdds(chain: Key, m: nat, n: nat)
    ensures Iterate(Iterate(chain, m), n) == Iterate(chain, m + n)
  {
    if n > 0 {
      IterateAdds(chain, m, n - 1);
    }
  }

  /** Iterating keeps the chain and its seed, and moves the position by the number of steps. */
  lemma {:induction false} IterateMeasures(chain: Key, n: nat)
    ensures Level(Iterate(chain, n)) == Level(chain)
    ensures Position(Iterate(chain, n)) == Position(chain) + n
    ensures Origin(Iterate(chain, n)) == Origin(chain)
  {
    if n > 0 {
      IterateMeasures(chain, n - 1);
    }
  }

  lemma IterateInjective(chain: Key, m: nat, n: nat)
    requires Iterate(chain, m) == Iterate(chain, n)
    ensures m == n
  {
    IterateMeasures(chain, m);
    IterateMeasures(chain, n);
  }
}

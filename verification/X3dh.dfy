/**
 * The X3DH handshake, classical and hybrid (client/crypto/x3dh.py, client/crypto/hybrid.py).
 *
 * A shared secret is the unordered pair of the two public keys; HKDF and SHA-256 are free
 * constructors. What the handshake needs from outside is a parameter: the public key of a private
 * one, signature verification and the KEM.
 */
module X3dh {
  import opened Common
  import opened BigEndian
  import opened PreKeys

  const SIGNATURE_LENGTH: nat := 64

  const NO_OPK: nat := 0xFFFF_FFFF

  datatype Shared = Dh(ends: set<bytes>)

  datatype Secret =
    | Agreement(dhs: seq<Shared>)                    // HKDF of the concatenated DH results
    | Combined(classical: Secret, pq: bytes)         // HKDF of the classical and the KEM secret

  datatype Digest = Sha256(transcript: bytes)

  /** HKDF over the secret, with the digest and the suite (empty when classical) as info. */
  datatype RootKey = Root(secret: Secret, digest: Digest, suite: bytes)

  datatype Crypto = Crypto(publicOf: bytes -> bytes, verifies: (bytes, bytes, bytes) -> bool)

  datatype Kem = Kem(encapsulate: bytes -> (bytes, bytes), decapsulate: (bytes, bytes) -> bytes)

  datatype Error = BadInput | BadSignature | SuiteMismatch | KeyReuse | BadValue

  datatype Peer = Peer(
    identity: bytes,
    identityDh: bytes,
    spkPub: bytes,
    spkSig: bytes,
    opks: seq<(int, bytes)>,
    pqPub: Option<bytes>,
    suite: bytes)

  datatype Outcome =
    | Agreed(root: RootKey, opkId: Option<int>, digest: Digest, pqCiphertext: Option<bytes>, suite: bytes)
    | Refused(error: Error)

  predicate IsHybrid(suite: bytes) {
    suite == HYBRID
  }

  function SharedSecret(c: Crypto, priv: bytes, pub: bytes): Shared {
    Dh({c.publicOf(priv), pub})
  }

  // The transcript ----------------------------------------------------------------------------------

  /** What the two sides agree on besides secrets. */
  datatype Terms = Terms(ikA: bytes, ikB: bytes, spkB: bytes, eph: bytes, opkId: Option<int>, suite: bytes)

  predicate KeysOk(t: Terms) {
    |t.ikA| == KEY_LENGTH && |t.ikB| == KEY_LENGTH && |t.spkB| == KEY_LENGTH && |t.eph| == KEY_LENGTH
  }

  /** The OPK id must fit 32 bits; no OPK is written as the largest number. */
  predicate IdFits(id: Option<int>) {
    id.Some? ==> 0 <= id.value < U32_LIMIT
  }

  function IdNumber(id: Option<int>): nat
    requires IdFits(id)
  {
    if id.None? then NO_OPK else id.value
  }

  function SuiteSuffix(suite: bytes): bytes {
    if suite == CLASSICAL then [] else suite
  }

  function Transcript(t: Terms): bytes
    requires IdFits(t.opkId)
  {
    t.ikA + (t.ikB + (t.spkB + (t.eph + (U32(IdNumber(t.opkId)) + SuiteSuffix(t.suite)))))
  }

  function IdBytes(id: Option<int>): bytes
    requires IdFits(id)
  {
    if id.None? then [255, 255, 255, 255] else U32(id.value)
  }

  /** The bytes in order: four keys, four bytes for the id, and the suite unless classical. */
  lemma TranscriptLayout(t: Terms)
    requires IdFits(t.opkId)
    ensures Transcript(t) ==
            t.ikA + t.ikB + t.spkB + t.eph + IdBytes(t.opkId) + (if t.suite == CLASSICAL then [] else t.suite)
  {
    Layouts();
    var id, suffix := U32(IdNumber(t.opkId)), SuiteSuffix(t.suite);
    assert id == IdBytes(t.opkId);
    Associates(t.ikA, t.ikB, t.spkB + (t.eph + (id + suffix)));
    Associates(t.ikA + t.ikB, t.spkB, t.eph + (id + suffix));
    Associates(t.ikA + t.ikB + t.spkB, t.eph, id + suffix);
    Associates(t.ikA + t.ikB + t.spkB + t.eph, id, suffix);
  }

  lemma Associates(a: bytes, b: bytes, c: bytes)
    ensures a + (b + c) == a + b + c
  {
  }

  // Root keys ---------------------------------------------------------------------------------------

  /** combine_shared_secrets for a suite that is not classical: there must be a KEM secret. */
  function Combine(shared: Secret, pq: Option<bytes>): Option<Secret> {
    if pq.None? || pq.value == [] then None else Some(Combined(shared, pq.value))
  }

  /** The common end of both sides: transcript, digest and root key. */
  function Conclude(t: Terms, dhs: seq<Shared>, pq: Option<bytes>, pqCiphertext: Option<bytes>): Outcome {
    if !IdFits(t.opkId) then Refused(BadValue) else
      var digest := Sha256(Transcript(t));
      if t.suite == CLASSICAL then
        Agreed(Root(Agreement(dhs), digest, []), t.opkId, digest, pqCiphertext, t.suite)
      else
        match Combine(Agreement(dhs), pq)
        case None => Refused(BadValue)
        case Some(secret) => Agreed(Root(secret, digest, t.suite), t.opkId, digest, pqCiphertext, t.suite)
  }

  predicate PeerOk(p: Peer) {
    && |p.identity| == KEY_LENGTH && |p.identityDh| == KEY_LENGTH && |p.spkPub| == KEY_LENGTH
    && |p.spkSig| == SIGNATURE_LENGTH
    && forall i :: 0 <= i < |p.opks| ==> |p.opks[i].1| == KEY_LENGTH && p.opks[i].0 >= 0
  }

  predicate OffersKem(p: Peer) {
    p.pqPub.Some? && IsHybrid(p.suite)
  }

  /** x3dh_initiator */
  function Initiate(c: Crypto, identityDh: bytes, ephemeral: bytes, p: Peer, opk: Option<(int, bytes)>, kem: Option<Kem>): Outcome {
    if !PeerOk(p) then Refused(BadInput)
    else if !c.verifies(p.identity, p.spkPub, p.spkSig) then Refused(BadSignature)
    else if |identityDh| != KEY_LENGTH then Refused(BadInput)
    else if OffersKem(p) && kem.None? then Refused(SuiteMismatch)
    else if opk.Some? && |opk.value.1| != KEY_LENGTH then Refused(BadInput)
    else
      var dhs := AllDhs(c, identityDh, ephemeral, p, opk);
      var terms := InitiatorTerms(c, identityDh, ephemeral, p, opk);
      if OffersKem(p) then
        var (ct, secret) := kem.value.encapsulate(p.pqPub.value);
        Conclude(terms, dhs, Some(secret), Some(ct))
      else
        Conclude(terms, dhs, None, None)
  }

  function FirstDhs(c: Crypto, identityDh: bytes, ephemeral: bytes, p: Peer): seq<Shared> {
    [SharedSecret(c, identityDh, p.spkPub), SharedSecret(c, ephemeral, p.identityDh),
     SharedSecret(c, ephemeral, p.spkPub)]
  }

  function AllDhs(c: Crypto, identityDh: bytes, ephemeral: bytes, p: Peer, opk: Option<(int, bytes)>): seq<Shared> {
    FirstDhs(c, identityDh, ephemeral, p)
    + (if opk.Some? then [SharedSecret(c, ephemeral, opk.value.1)] else [])
  }

  function InitiatorTerms(c: Crypto, identityDh: bytes, ephemeral: bytes, p: Peer, opk: Option<(int, bytes)>): Terms {
    Terms(c.publicOf(identityDh), p.identityDh, p.spkPub, c.publicOf(ephemeral),
          if opk.Some? then Some(opk.value.0) else None, if OffersKem(p) then p.suite else CLASSICAL)
  }

  // The responder -----------------------------------------------------------------------------------

  datatype Request = Request(
    identityDh: bytes,
    ephemeral: bytes,
    opkId: Option<int>,
    pqCiphertext: Option<bytes>,
    suite: Option<bytes>)

  datatype Step = Step(bundle: Bundle, outcome: Outcome)

  predicate BundleIsHybrid(b: Bundle) {
    b.pqSecret.Some? && b.pqPublic.Some? && IsHybrid(b.suite)
  }

  function SuiteOf(q: Request): bytes {
    if q.suite.Some? then q.suite.value else CLASSICAL
  }

  predicate SuitesMatch(b: Bundle, q: Request) {
    if BundleIsHybrid(b) then q.pqCiphertext.Some? && IsHybrid(SuiteOf(q))
    else q.pqCiphertext.None? && !IsHybrid(SuiteOf(q))
  }

  /** Everything that is checked before a one-time prekey is touched. */
  function Refusal(c: Crypto, b: Bundle, q: Request): Option<Error> {
    if |q.identityDh| != KEY_LENGTH || |q.ephemeral| != KEY_LENGTH then Some(BadInput)
    else if !SuitesMatch(b, q) then Some(SuiteMismatch)
    else if !c.verifies(b.identity, b.spk.pub, b.spk.sig) then Some(BadSignature)
    else None
  }

  function TermsOf(c: Crypto, b: Bundle, q: Request): Terms {
    Terms(q.identityDh, c.publicOf(b.identityDhPrivate), b.spk.pub, q.ephemeral, q.opkId, SuiteOf(q))
  }

  function ThreeDhs(c: Crypto, b: Bundle, q: Request): seq<Shared> {
    [SharedSecret(c, b.spk.priv, q.identityDh), SharedSecret(c, b.identityDhPrivate, q.ephemeral),
     SharedSecret(c, b.spk.priv, q.ephemeral)]
  }

  function FourDhs(c: Crypto, b: Bundle, q: Request): seq<Shared>
    requires q.opkId.Some? && q.opkId.value in b.oneTime
  {
    ThreeDhs(c, b, q) + [SharedSecret(c, b.oneTime[q.opkId.value].priv, q.ephemeral)]
  }

  /** After the DH computations: the KEM secret, then the transcript and the root key. */
  function Complete(c: Crypto, b: Bundle, q: Request, dhs: seq<Shared>, kem: Option<Kem>): Outcome {
    if BundleIsHybrid(b) && q.pqCiphertext.Some? then
      if kem.None? then Refused(SuiteMismatch)
      else if q.pqCiphertext.value == [] then Refused(BadInput)
      else
        Conclude(TermsOf(c, b, q), dhs, Some(kem.value.decapsulate(q.pqCiphertext.value, b.pqSecret.value)), None)
    else
      Conclude(TermsOf(c, b, q), dhs, None, None)
  }

  /** x3dh_responder */
  function Respond(c: Crypto, b: Bundle, q: Request, kem: Option<Kem>): Step {
    var refusal := Refusal(c, b, q);
    if refusal.Some? then Step(b, Refused(refusal.value))
    else if q.opkId.None? then Step(b, Complete(c, b, q, ThreeDhs(c, b, q), kem))
    else if !Available(b, q.opkId.value) then Step(b, Refused(KeyReuse))
    else Step(Consumed(b, q.opkId.value), Complete(c, b, q, FourDhs(c, b, q), kem))
  }

  method RespondTo(c: Crypto, bundle: ClientPreKeyBundle, q: Request, kem: Option<Kem>) returns (r: Outcome)
    modifies bundle
    ensures Step(bundle.View(), r) == Respond(c, old(bundle.View()), q, kem)
  {
    ghost var before := bundle.View();
    var refusal := Refusal(c, bundle.View(), q);
    if refusal.Some? {
      return Refused(refusal.value);
    }
    var dhs := ThreeDhs(c, bundle.View(), q);
    if q.opkId.Some? {
      var opk := bundle.ConsumeOneTimePreKey(q.opkId.value);
      if opk.None? {
        return Refused(KeyReuse);
      }
      dhs := dhs + [SharedSecret(c, opk.value.priv, q.ephemeral)];
    }
    assert Complete(c, bundle.View(), q, dhs, kem) == Complete(c, before, q, dhs, kem);
    return Complete(c, bundle.View(), q, dhs, kem);
  }

  // Both sides agree --------------------------------------------------------------------------------

  /** The peer bundle is the public half of the responder's, and the chosen OPK is one of its available keys. */
  predicate Matching(c: Crypto, b: Bundle, p: Peer, opk: Option<(int, bytes)>) {
    && p.identity == b.identity && p.identityDh == c.publicOf(b.identityDhPrivate)
    && p.spkPub == b.spk.pub == c.publicOf(b.spk.priv) && p.spkSig == b.spk.sig
    && p.pqPub == b.pqPublic && p.suite == b.suite && (b.pqPublic.Some? <==> b.pqSecret.Some?)
    && (opk.Some? ==> Available(b, opk.value.0) && opk.value.1 == c.publicOf(b.oneTime[opk.value.0].priv))
  }

  predicate KemCorrect(kem: Kem, pub: bytes, secret: bytes) {
    var (ct, shared) := kem.encapsulate(pub);
    ct != [] && kem.decapsulate(ct, secret) == shared
  }

  lemma SharedBothWays(c: Crypto, a: bytes, b: bytes)
    ensures SharedSecret(c, a, c.publicOf(b)) == SharedSecret(c, b, c.publicOf(a))
  {
    assert {c.publicOf(a), c.publicOf(b)} == {c.publicOf(b), c.publicOf(a)};
  }

  /** The first message as the initiator sends it. */
  function RequestFor(c: Crypto, identityDh: bytes, ephemeral: bytes, o: Outcome): Request
    requires o.Agreed?
  {
    Request(c.publicOf(identityDh), c.publicOf(ephemeral), o.opkId, o.pqCiphertext, Some(o.suite))
  }

  /**
   * Whenever the initiator completes against the responder's own bundle, the responder completes
   * with the same root key and transcript, and the chosen OPK is used up.
   */
  lemma RootAgreement(c: Crypto, b: Bundle, p: Peer, opk: Option<(int, bytes)>, identityDh: bytes, ephemeral: bytes,
                      kem: Option<Kem>, o: Outcome)
    requires Matching(c, b, p, opk)
    requires |c.publicOf(identityDh)| == KEY_LENGTH && |c.publicOf(ephemeral)| == KEY_LENGTH
    requires kem.Some? && BundleIsHybrid(b) ==> KemCorrect(kem.value, b.pqPublic.value, b.pqSecret.value)
    requires o == Initiate(c, identityDh, ephemeral, p, opk, kem) && o.Agreed?
    ensures Respond(c, b, RequestFor(c, identityDh, ephemeral, o), kem) ==
            Step(if opk.Some? then Consumed(b, opk.value.0) else b, o.(pqCiphertext := None))
  {
    var q := RequestFor(c, identityDh, ephemeral, o);
    SuitesDiffer();
    SameSecrets(c, b, p, opk, identityDh, ephemeral, q);
    assert TermsOf(c, b, q) == InitiatorTerms(c, identityDh, ephemeral, p, opk);
    assert Refusal(c, b, q).None?;
  }

  lemma SameSecrets(c: Crypto, b: Bundle, p: Peer, opk: Option<(int, bytes)>, identityDh: bytes, ephemeral: bytes,
                    q: Request)
    requires Matching(c, b, p, opk) && q.identityDh == c.publicOf(identityDh) && q.ephemeral == c.publicOf(ephemeral)
    requires q.opkId == if opk.Some? then Some(opk.value.0) else None
    ensures AllDhs(c, identityDh, ephemeral, p, opk) ==
            if opk.Some? then FourDhs(c, b, q) else ThreeDhs(c, b, q)
  {
    SharedBothWays(c, identityDh, b.spk.priv);
    SharedBothWays(c, ephemeral, b.identityDhPrivate);
    SharedBothWays(c, ephemeral, b.spk.priv);
    assert ThreeDhs(c, b, q) == FirstDhs(c, identityDh, ephemeral, p);
    if opk.Some? {
      SharedBothWays(c, ephemeral, b.oneTime[opk.value.0].priv);
    }
  }

  // Binding -----------------------------------------------------------------------------------------

  lemma SameHalves(a: bytes, b: bytes, x: bytes, y: bytes)
    requires |a| == |b| && a + x == b + y
    ensures a == b && x == y
  {
    assert a == (a + x)[..|a|] && x == (a + x)[|a|..];
    assert b == (b + y)[..|a|] && y == (b + y)[|a|..];
  }

  /** Two transcripts are equal exactly when their terms are, with no OPK the same as the largest id. */
  lemma TranscriptIff(t: Terms, u: Terms)
    requires KeysOk(t) && KeysOk(u) && IdFits(t.opkId) && IdFits(u.opkId)
    ensures Transcript(t) == Transcript(u) <==>
            && t.ikA == u.ikA && t.ikB == u.ikB && t.spkB == u.spkB && t.eph == u.eph
            && IdNumber(t.opkId) == IdNumber(u.opkId) && SuiteSuffix(t.suite) == SuiteSuffix(u.suite)
  {
    if Transcript(t) == Transcript(u) {
      var t4, u4 := U32(IdNumber(t.opkId)) + SuiteSuffix(t.suite), U32(IdNumber(u.opkId)) + SuiteSuffix(u.suite);
      var t3, u3 := t.eph + t4, u.eph + u4;
      var t2, u2 := t.spkB + t3, u.spkB + u3;
      SameHalves(t.ikA, u.ikA, t.ikB + t2, u.ikB + u2);
      SameHalves(t.ikB, u.ikB, t2, u2);
      SameHalves(t.spkB, u.spkB, t3, u3);
      SameHalves(t.eph, u.eph, t4, u4);
      SameHalves(U32(IdNumber(t.opkId)), U32(IdNumber(u.opkId)), SuiteSuffix(t.suite), SuiteSuffix(u.suite));
      Limits();
      BigInjective(IdNumber(t.opkId), IdNumber(u.opkId), 4);
    }
  }

  /** How many DH results go into the secret tells whether an OPK was used. */
  predicate CountsOpk(t: Terms, dhs: seq<Shared>) {
    |dhs| == if t.opkId.Some? then 4 else 3
  }

  function DhsOf(s: Secret): seq<Shared> {
    match s
    case Agreement(dhs) => dhs
    case Combined(classical, _) => DhsOf(classical)
  }

  lemma ConcludedRoot(t: Terms, dhs: seq<Shared>, pq: Option<bytes>, ct: Option<bytes>)
    requires Conclude(t, dhs, pq, ct).Agreed?
    ensures var r := Conclude(t, dhs, pq, ct).root;
            && IdFits(t.opkId) && DhsOf(r.secret) == dhs
            && r.digest == Sha256(Transcript(t)) && r.suite == SuiteSuffix(t.suite)
            && r.secret == if t.suite == CLASSICAL then Agreement(dhs) else Combined(Agreement(dhs), pq.value)
  {
  }

  /** Equal root keys come from equal terms and equal secrets, whatever the OPK id. */
  lemma RootBinds(t: Terms, dhs: seq<Shared>, pq: Option<bytes>, ct: Option<bytes>, u: Terms, dhsU: seq<Shared>,
                  pqU: Option<bytes>, ctU: Option<bytes>)
    requires KeysOk(t) && KeysOk(u) && CountsOpk(t, dhs) && CountsOpk(u, dhsU) && t.suite != [] && u.suite != []
    requires Conclude(t, dhs, pq, ct).Agreed? && Conclude(u, dhsU, pqU, ctU).Agreed?
    requires Conclude(t, dhs, pq, ct).root == Conclude(u, dhsU, pqU, ctU).root
    ensures t == u && dhs == dhsU && (t.suite != CLASSICAL ==> pq == pqU)
  {
    ConcludedRoot(t, dhs, pq, ct);
    ConcludedRoot(u, dhsU, pqU, ctU);
    TranscriptIff(t, u);
  }

  lemma SuitesDiffer()
    ensures CLASSICAL != HYBRID && CLASSICAL != [] && HYBRID != []
  {
    assert |CLASSICAL| == 24 && |HYBRID| == 28;
  }

  /** The keys of a bundle as the library makes them. */
  predicate KeyLengthsOk(c: Crypto, b: Bundle) {
    |b.spk.pub| == KEY_LENGTH && |c.publicOf(b.identityDhPrivate)| == KEY_LENGTH
  }

  lemma InitiatorConcludes(c: Crypto, identityDh: bytes, ephemeral: bytes, p: Peer, opk: Option<(int, bytes)>,
                           kem: Option<Kem>, o: Outcome) returns (pq: Option<bytes>)
    requires |c.publicOf(identityDh)| == KEY_LENGTH && |c.publicOf(ephemeral)| == KEY_LENGTH
    requires o == Initiate(c, identityDh, ephemeral, p, opk, kem) && o.Agreed?
    ensures var t := InitiatorTerms(c, identityDh, ephemeral, p, opk);
            && o == Conclude(t, AllDhs(c, identityDh, ephemeral, p, opk), pq, o.pqCiphertext)
            && KeysOk(t) && CountsOpk(t, AllDhs(c, identityDh, ephemeral, p, opk)) && t.suite != []
  {
    SuitesDiffer();
    pq := if OffersKem(p) then Some(kem.value.encapsulate(p.pqPub.value).1) else None;
  }

  /** A completed response is classical or hybrid as the bundle is; a hybrid bundle is never downgraded. */
  lemma ResponderConcludes(c: Crypto, b: Bundle, q: Request, kem: Option<Kem>, o: Outcome) returns (pq: Option<bytes>)
    requires KeyLengthsOk(c, b) && o == Respond(c, b, q, kem).outcome && o.Agreed?
    ensures q.opkId.Some? ==> Available(b, q.opkId.value)
    ensures var t, dhs := TermsOf(c, b, q), if q.opkId.Some? then FourDhs(c, b, q) else ThreeDhs(c, b, q);
            o == Conclude(t, dhs, pq, None) && KeysOk(t) && CountsOpk(t, dhs)
    ensures SuiteOf(q) == if BundleIsHybrid(b) then HYBRID else CLASSICAL
    ensures BundleIsHybrid(b) ==>
              kem.Some? && q.pqCiphertext.Some? && pq == Some(kem.value.decapsulate(q.pqCiphertext.value, b.pqSecret.value))
  {
    pq := if BundleIsHybrid(b) then Some(kem.value.decapsulate(q.pqCiphertext.value, b.pqSecret.value)) else None;
  }

  /**
   * Any initiator and any responder that end with the same root key have the same identities, signed
   * prekey, ephemeral key, OPK id and suite, and the responder holds the private halves of both prekeys.
   */
  lemma EqualRootsBind(c: Crypto, identityDh: bytes, ephemeral: bytes, p: Peer, opk: Option<(int, bytes)>,
                       b: Bundle, q: Request, kemA: Option<Kem>, kemB: Option<Kem>, oA: Outcome, oB: Outcome)
    requires |c.publicOf(identityDh)| == KEY_LENGTH && |c.publicOf(ephemeral)| == KEY_LENGTH && KeyLengthsOk(c, b)
    requires oA == Initiate(c, identityDh, ephemeral, p, opk, kemA) && oA.Agreed?
    requires oB == Respond(c, b, q, kemB).outcome && oB.Agreed?
    requires oA.root == oB.root
    ensures q.identityDh == c.publicOf(identityDh) && q.ephemeral == c.publicOf(ephemeral)
    ensures p.identityDh == c.publicOf(b.identityDhPrivate) && p.spkPub == b.spk.pub
    ensures q.opkId == oA.opkId && SuiteOf(q) == oA.suite && oA.digest == oB.digest
    ensures p.spkPub == c.publicOf(b.spk.priv)
    ensures opk.Some? ==> Available(b, opk.value.0) && opk.value.1 == c.publicOf(b.oneTime[opk.value.0].priv)
  {
    var pqA := InitiatorConcludes(c, identityDh, ephemeral, p, opk, kemA, oA);
    var pqB := ResponderConcludes(c, b, q, kemB, oB);
    SuitesDiffer();
    var dhs := if q.opkId.Some? then FourDhs(c, b, q) else ThreeDhs(c, b, q);
    RootBinds(InitiatorTerms(c, identityDh, ephemeral, p, opk), AllDhs(c, identityDh, ephemeral, p, opk), pqA,
              oA.pqCiphertext, TermsOf(c, b, q), dhs, pqB, None);
    var dhsA := AllDhs(c, identityDh, ephemeral, p, opk);
    assert dhsA[0] == dhs[0];
    OtherEnd(c.publicOf(identityDh), p.spkPub, c.publicOf(b.spk.priv));
    if opk.Some? {
      assert dhsA[3] == dhs[3];
      OtherEnd(c.publicOf(ephemeral), opk.value.1, c.publicOf(b.oneTime[opk.value.0].priv));
    }
  }

  /** A shared secret and one of its ends determine the other. */
  lemma OtherEnd(a: bytes, x: bytes, y: bytes)
    requires {a, x} == {y, a}
    ensures x == y
  {
    assert x in {y, a} && y in {a, x};
  }

  // Refusals ----------------------------------------------------------------------------------------

  /** The checks that come only after the one-time prekey has been taken. */
  predicate FailsLate(b: Bundle, q: Request, kem: Option<Kem>) {
    || !IdFits(q.opkId)
    || (if BundleIsHybrid(b)
        then kem.None? || q.pqCiphertext == Some([])
             || (q.pqCiphertext.Some? && kem.value.decapsulate(q.pqCiphertext.value, b.pqSecret.value) == [])
        else SuiteOf(q) != CLASSICAL)
  }

  /**
   * A refused handshake is not always without effect: it has used up the named OPK exactly when the
   * early checks passed, the key was there, and one of the late checks failed.
   */
  lemma RefusalConsumesIff(c: Crypto, b: Bundle, q: Request, kem: Option<Kem>)
    requires PoolOk(b)
    ensures var s := Respond(c, b, q, kem);
            s.outcome.Refused? && s.bundle != b <==>
            && Refusal(c, b, q).None? && q.opkId.Some? && Available(b, q.opkId.value)
            && FailsLate(b, q, kem)
  {
    SuitesDiffer();
    if q.opkId.Some? && Available(b, q.opkId.value) {
      assert q.opkId.value !in Consumed(b, q.opkId.value).oneTime;
    }
  }

  /** The handshake completes exactly when no check, early or late, fails and a named OPK is there. */
  lemma RespondCompletesIff(c: Crypto, b: Bundle, q: Request, kem: Option<Kem>)
    ensures Respond(c, b, q, kem).outcome.Agreed? <==>
            && Refusal(c, b, q).None? && (q.opkId.Some? ==> Available(b, q.opkId.value))
            && !FailsLate(b, q, kem)
  {
    SuitesDiffer();
  }

  const ANY_CRYPTO := Crypto((priv: bytes) => priv, (pub: bytes, text: bytes, sig: bytes) => true)

  const KEY: bytes := seq(KEY_LENGTH, _ => 7)

  const HYBRID_BUNDLE :=
    Bundle(KEY, KEY, SignedPreKey(1, KEY, KEY, [1]), map[1000 := OneTimePreKey(1000, KEY, KEY)], [], Some([1]), Some([2]), HYBRID)

  /** A hybrid responder without a KEM at hand: the handshake is refused and OPK 1000 is gone. */
  lemma LateRefusalConsumes()
    ensures var q := Request(KEY, KEY, Some(1000), Some([3]), Some(HYBRID));
            var s := Respond(ANY_CRYPTO, HYBRID_BUNDLE, q, None);
            s.outcome == Refused(SuiteMismatch) && !Available(s.bundle, 1000) && s.bundle.used == [1000]
  {
    assert Available(HYBRID_BUNDLE, 1000);
  }

  /** The initiator completes exactly when the bundle, its own key and the chosen OPK are in order, and a KEM is at hand if needed. */
  lemma InitiateCompletesIff(c: Crypto, identityDh: bytes, ephemeral: bytes, p: Peer, opk: Option<(int, bytes)>, kem: Option<Kem>)
    ensures Initiate(c, identityDh, ephemeral, p, opk, kem).Agreed? <==>
            && PeerOk(p) && c.verifies(p.identity, p.spkPub, p.spkSig) && |identityDh| == KEY_LENGTH
            && (opk.Some? ==> |opk.value.1| == KEY_LENGTH && 0 <= opk.value.0 < U32_LIMIT)
            && (OffersKem(p) ==> kem.Some? && kem.value.encapsulate(p.pqPub.value).1 != [])
  {
    SuitesDiffer();
  }

  // What goes into a root key -------------------------------------------------------------------------

  /** The DH results of the handshake by their public keys: identity with SPK, ephemeral with identity, with SPK, and with the OPK. */
  function Exchanged(ikA: bytes, ikB: bytes, spkB: bytes, eph: bytes, opkB: Option<bytes>): seq<Shared> {
    [Dh({ikA, spkB}), Dh({eph, ikB}), Dh({eph, spkB})] + (if opkB.Some? then [Dh({eph, opkB.value})] else [])
  }

  /** Both sides put exactly these into the root key, and the KEM secret beside them if hybrid. */
  lemma InitiatorExchanges(c: Crypto, identityDh: bytes, ephemeral: bytes, p: Peer, opk: Option<(int, bytes)>,
                           kem: Option<Kem>, o: Outcome)
    requires o == Initiate(c, identityDh, ephemeral, p, opk, kem) && o.Agreed?
    ensures var dhs := Exchanged(c.publicOf(identityDh), p.identityDh, p.spkPub, c.publicOf(ephemeral),
                                 if opk.Some? then Some(opk.value.1) else None);
            o.root.secret ==
            if OffersKem(p) then Combined(Agreement(dhs), kem.value.encapsulate(p.pqPub.value).1) else Agreement(dhs)
  {
    SuitesDiffer();
  }

  lemma ResponderExchanges(c: Crypto, b: Bundle, q: Request, kem: Option<Kem>, o: Outcome)
    requires o == Respond(c, b, q, kem).outcome && o.Agreed?
    ensures q.opkId.Some? ==> q.opkId.value in b.oneTime
    ensures var dhs := Exchanged(q.identityDh, c.publicOf(b.identityDhPrivate), c.publicOf(b.spk.priv), q.ephemeral,
                                 if q.opkId.Some? then Some(c.publicOf(b.oneTime[q.opkId.value].priv)) else None);
            o.root.secret ==
            if BundleIsHybrid(b) then Combined(Agreement(dhs), kem.value.decapsulate(q.pqCiphertext.value, b.pqSecret.value))
            else Agreement(dhs)
  {
    SuitesDiffer();
    var dhs := Exchanged(q.identityDh, c.publicOf(b.identityDhPrivate), c.publicOf(b.spk.priv), q.ephemeral,
                         if q.opkId.Some? then Some(c.publicOf(b.oneTime[q.opkId.value].priv)) else None);
    Unordered(c.publicOf(b.spk.priv), q.identityDh);
    Unordered(c.publicOf(b.identityDhPrivate), q.ephemeral);
    Unordered(c.publicOf(b.spk.priv), q.ephemeral);
    if q.opkId.Some? {
      Unordered(c.publicOf(b.oneTime[q.opkId.value].priv), q.ephemeral);
      assert dhs == FourDhs(c, b, q);
    } else {
      assert dhs == ThreeDhs(c, b, q);
    }
  }

  lemma Unordered(x: bytes, y: bytes)
    ensures Dh({x, y}) == Dh({y, x})
  {
    assert {x, y} == {y, x};
  }

  /** Why a response is refused, in the order of the checks. */
  lemma RefusedBecause(c: Crypto, b: Bundle, q: Request, kem: Option<Kem>)
    ensures var o := Respond(c, b, q, kem).outcome;
            var early := |q.identityDh| == KEY_LENGTH && |q.ephemeral| == KEY_LENGTH;
            && (!early ==> o == Refused(BadInput))
            && (early && !SuitesMatch(b, q) ==> o == Refused(SuiteMismatch))
            && (early && SuitesMatch(b, q) && !c.verifies(b.identity, b.spk.pub, b.spk.sig) ==> o == Refused(BadSignature))
            && (o == Refused(KeyReuse) <==>
                Refusal(c, b, q).None? && q.opkId.Some? && (q.opkId.value in b.used || q.opkId.value !in b.oneTime))
  {
    SuitesDiffer();
  }
}

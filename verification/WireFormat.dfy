/** Ratchet messages as JSON dictionaries (client/crypto/message.py). */
module WireFormat {
  import opened Common
  import B = Base64Url

  const MAX_CIPHERTEXT: nat := 1024 * 1024

  const NONCE_LENGTH: nat := 12

  const TAG_LENGTH: nat := 16

  datatype Header = Header(dh: bytes, n: int, pn: int)

  datatype Message = Message(header: Header, ciphertext: bytes, nonce: bytes)

  /** An absent field is None. */
  datatype HeaderDict = HeaderDict(dh: Option<string>, n: Option<int>, pn: Option<int>)

  datatype MessageDict = MessageDict(header: Option<HeaderDict>, ciphertext: Option<string>, nonce: Option<string>)

  function ToDict(m: Message): MessageDict {
    MessageDict(Some(HeaderDict(Some(B.Encode(m.header.dh)), Some(m.header.n), Some(m.header.pn))),
                Some(B.Encode(m.ciphertext)), Some(B.Encode(m.nonce)))
  }

  predicate Int32(n: Option<int>) {
    n.Some? && 0 <= n.value < U32_LIMIT
  }

  function ParseHeader(h: HeaderDict): Option<Header> {
    if h.dh.None? || h.dh.value == "" then None
    else
      var dh := B.Decode(h.dh.value);
      if dh.None? || |dh.value| != KEY_LENGTH || !Int32(h.n) || !Int32(h.pn) then None
      else Some(Header(dh.value, h.n.value, h.pn.value))
  }

  function FromDict(d: MessageDict): Result<Message> {
    if d.header.None? then Err
    else
      var h := ParseHeader(d.header.value);
      if h.None? || d.ciphertext.None? || d.nonce.None? || d.nonce.value == "" then Err
      else
        var ct, nonce := B.Decode(d.ciphertext.value), B.Decode(d.nonce.value);
        if ct.None? || nonce.None? || |nonce.value| != NONCE_LENGTH then Err
        else if |ct.value| < TAG_LENGTH || |ct.value| > MAX_CIPHERTEXT then Err
        else Ok(Message(h.value, ct.value, nonce.value))
  }

  /** What a receiver lets through. */
  predicate InRange(m: Message) {
    && |m.header.dh| == KEY_LENGTH && |m.nonce| == NONCE_LENGTH
    && 0 <= m.header.n < U32_LIMIT && 0 <= m.header.pn < U32_LIMIT
    && TAG_LENGTH <= |m.ciphertext| <= MAX_CIPHERTEXT
  }

  lemma FieldRoundTrip(b: bytes)
    ensures B.Decode(B.Encode(b)) == Some(b)
    ensures B.Encode(b) == "" <==> b == []
  {
    B.RoundTrip(b);
    B.EncodeNonEmpty(b);
  }

  /** A printed message is read back unchanged if it is in range, and refused otherwise. */
  lemma PrintedIsReadIffInRange(m: Message)
    ensures FromDict(ToDict(m)) == if InRange(m) then Ok(m) else Err
  {
    FieldRoundTrip(m.header.dh);
    FieldRoundTrip(m.ciphertext);
    FieldRoundTrip(m.nonce);
  }

  /** Whatever arrives, only messages in range get through, and they survive being sent on. */
  lemma ReadIsInRange(d: MessageDict)
    requires FromDict(d).Ok?
    ensures InRange(FromDict(d).value)
    ensures FromDict(ToDict(FromDict(d).value)) == FromDict(d)
  {
    PrintedIsReadIffInRange(FromDict(d).value);
  }

  /** A text field that must be there and decode to b; an empty one counts as missing unless b may be empty. */
  predicate Decodes(s: Option<string>, b: bytes) {
    s.Some? && B.Decode(s.value) == Some(b)
  }

  /** A dictionary is read as m exactly when its fields decode to m's, in whatever spelling, and m is in range. */
  lemma ReadIff(d: MessageDict, m: Message)
    ensures FromDict(d) == Ok(m) <==>
            && |m.header.dh| == 32 && |m.nonce| == 12 && 16 <= |m.ciphertext| <= 0x10_0000
            && 0 <= m.header.n <= 0xFFFF_FFFF && 0 <= m.header.pn <= 0xFFFF_FFFF && d.header.Some?
            && Decodes(d.header.value.dh, m.header.dh)
            && d.header.value.n == Some(m.header.n) && d.header.value.pn == Some(m.header.pn)
            && Decodes(d.ciphertext, m.ciphertext) && Decodes(d.nonce, m.nonce)
  {
    B.RoundTrip([]);
    B.EncodeNonEmpty([]);
  }
}

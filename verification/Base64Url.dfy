/**
 * URL-safe base64 without padding, as sessions, wire messages and bundles store byte strings
 * (client/session_store.py, client/crypto/message.py, crypto/serialization.py; section 5 of RFC 4648).
 * Encoding strips the padding; decoding puts it back and reads leniently, the way the standard
 * library's decoder does: characters outside the alphabet are skipped and padding ends the input.
 */
module Base64Url {
  import opened Common

  type sextet = x: int | 0 <= x < 64

  function Digit(v: sextet): (c: char)
    ensures c != '='
  {
    if v < 26 then 'A' + v as char
    else if v < 52 then 'a' + (v - 26) as char
    else if v < 62 then '0' + (v - 52) as char
    else if v == 62 then '-' else '_'
  }

  /** The value of a digit; the plus and slash of the standard alphabet count as well. */
  function Value(c: char): Option<sextet> {
    if 'A' <= c <= 'Z' then Some(c as int - 'A' as int)
    else if 'a' <= c <= 'z' then Some(c as int - 'a' as int + 26)
    else if '0' <= c <= '9' then Some(c as int - '0' as int + 52)
    else if c == '-' || c == '+' then Some(62)
    else if c == '_' || c == '/' then Some(63)
    else None
  }

  lemma DigitValue(v: sextet)
    ensures Value(Digit(v)) == Some(v)
    ensures Digit(v) < 128 as char
  {
  }

  // Encoding --------------------------------------------------------------------------------------------

  /** The digits of a byte string, without padding. */
  function Digits(b: bytes): string {
    if |b| == 0 then ""
    else if |b| == 1 then [Digit(b[0] / 4), Digit(b[0] % 4 * 16)]
    else if |b| == 2 then [Digit(b[0] / 4), Digit(b[0] % 4 * 16 + b[1] / 16), Digit(b[1] % 16 * 4)]
    else
      [Digit(b[0] / 4), Digit(b[0] % 4 * 16 + b[1] / 16), Digit(b[1] % 16 * 4 + b[2] / 64), Digit(b[2] % 64)]
      + Digits(b[3..])
  }

  function Pads(n: nat): string {
    seq(n, _ => '=')
  }

  /** urlsafe_b64encode */
  function EncodePadded(b: bytes): string {
    Digits(b) + Pads((3 - |b| % 3) % 3)
  }

  /** rstrip("=") */
  function StripPads(s: string): string {
    if s != "" && s[|s| - 1] == '=' then StripPads(s[..|s| - 1]) else s
  }

  function Encode(b: bytes): string {
    StripPads(EncodePadded(b))
  }

  lemma {:induction false} StripUndoesPads(s: string, n: nat)
    requires s == "" || s[|s| - 1] != '='
    ensures StripPads(s + Pads(n)) == s
  {
    if n == 0 {
      assert s + Pads(0) == s;
    } else {
      var t := s + Pads(n);
      assert t[..|t| - 1] == s + Pads(n - 1);
      StripUndoesPads(s, n - 1);
    }
  }

  lemma {:induction false} DigitsShape(b: bytes)
    ensures |Digits(b)| == (4 * |b| + 2) / 3
    ensures forall i :: 0 <= i < |Digits(b)| ==> Digits(b)[i] != '=' && Digits(b)[i] < 128 as char
    decreases |b|
  {
    if |b| >= 3 {
      DigitsShape(b[3..]);
    }
    assert forall v: sextet :: Digit(v) != '=' && Digit(v) < 128 as char;
  }

  /** The alphabet of section 5 of RFC 4648. */
  predicate UrlSafe(c: char) {
    'A' <= c <= 'Z' || 'a' <= c <= 'z' || '0' <= c <= '9' || c == '-' || c == '_'
  }

  lemma {:induction false} DigitsUrlSafe(b: bytes)
    ensures forall c :: c in Digits(b) ==> UrlSafe(c)
    decreases |b|
  {
    assert forall v: sextet :: UrlSafe(Digit(v));
    if |b| >= 3 {
      DigitsUrlSafe(b[3..]);
    }
  }

  /** Encoded text needs no escaping in URLs and file names, and carries no padding. */
  lemma EncodeIsUrlSafe(b: bytes)
    ensures forall c :: c in Encode(b) ==> UrlSafe(c)
    ensures |Encode(b)| == (4 * |b| + 2) / 3
  {
    EncodeIsDigits(b);
    DigitsShape(b);
    DigitsUrlSafe(b);
  }

  /** The alphabet in order. */
  lemma Alphabet()
    ensures Digit(0) == 'A' && Digit(25) == 'Z' && Digit(26) == 'a' && Digit(51) == 'z' && Digit(52) == '0'
    ensures Digit(61) == '9' && Digit(62) == '-' && Digit(63) == '_'
    ensures forall v: sextet :: v + 1 < 64 && v !in {25, 51, 61, 62} ==> Digit(v + 1) as int == Digit(v) as int + 1
  {
  }

  lemma EncodeIsDigits(b: bytes)
    ensures Encode(b) == Digits(b)
  {
    DigitsShape(b);
    StripUndoesPads(Digits(b), (3 - |b| % 3) % 3);
  }

  // Decoding --------------------------------------------------------------------------------------------

  /** What the decoder sees of a character: a digit, a pad, or nothing. */
  datatype Token = Bits(v: sextet) | Pad

  function Tokens(s: string): seq<Token> {
    if s == "" then []
    else if s[0] == '=' then [Pad] + Tokens(s[1..])
    else match Value(s[0])
         case Some(v) => [Bits(v)] + Tokens(s[1..])
         case None => Tokens(s[1..])
  }

  function Cons(x: byte, r: Option<bytes>): Option<bytes> {
    if r.None? then None else Some([x] + r.value)
  }

  /** The decoder: quad digits of the current group read, left their unused bits, pads the pads in a row. */
  function Read(ts: seq<Token>, quad: nat, left: sextet, pads: nat): Option<bytes>
    requires quad < 4 && (quad == 2 ==> left < 16) && (quad == 3 ==> left < 4)
    decreases |ts|
  {
    if ts == [] then (if quad == 0 then Some([]) else None)
    else match ts[0]
         case Pad =>
           if quad >= 2 && quad + pads + 1 >= 4 then Some([])
           else Read(ts[1..], quad, left, if quad >= 2 then pads + 1 else pads)
         case Bits(v) =>
           if quad == 0 then Read(ts[1..], 1, v, 0)
           else if quad == 1 then Cons(left * 4 + v / 16, Read(ts[1..], 2, v % 16, 0))
           else if quad == 2 then Cons(left * 16 + v / 4, Read(ts[1..], 3, v % 4, 0))
           else Cons(left * 64 + v, Read(ts[1..], 0, 0, 0))
  }

  /** Repad and decode; a character outside ASCII is an error. */
  function Decode(s: string): Option<bytes> {
    if exists i :: 0 <= i < |s| && s[i] >= 128 as char then None
    else Read(Tokens(s + Pads((4 - |s| % 4) % 4)), 0, 0, 0)
  }

  function AllBits(vs: seq<sextet>): seq<Token> {
    seq(|vs|, i requires 0 <= i < |vs| => Bits(vs[i]))
  }

  function AllPads(n: nat): seq<Token> {
    seq(n, _ => Pad)
  }

  /** The digit values of a byte string. */
  function Sextets(b: bytes): seq<sextet> {
    if |b| == 0 then []
    else if |b| == 1 then [b[0] / 4, b[0] % 4 * 16]
    else if |b| == 2 then [b[0] / 4, b[0] % 4 * 16 + b[1] / 16, b[1] % 16 * 4]
    else [b[0] / 4, b[0] % 4 * 16 + b[1] / 16, b[1] % 16 * 4 + b[2] / 64, b[2] % 64] + Sextets(b[3..])
  }

  function DigitsOf(vs: seq<sextet>): string {
    seq(|vs|, i requires 0 <= i < |vs| => Digit(vs[i]))
  }

  lemma {:induction false} DigitsAreSextets(b: bytes)
    ensures Digits(b) == DigitsOf(Sextets(b))
    decreases |b|
  {
    if |b| >= 3 {
      DigitsAreSextets(b[3..]);
    }
  }

  lemma {:induction false} TokensOfPads(n: nat)
    ensures Tokens(Pads(n)) == AllPads(n)
  {
    if n > 0 {
      assert Pads(n)[1..] == Pads(n - 1);
      TokensOfPads(n - 1);
      assert AllPads(n) == [Pad] + AllPads(n - 1);
    }
  }

  lemma {:induction false} TokensOfDigits(vs: seq<sextet>, rest: string)
    ensures Tokens(DigitsOf(vs) + rest) == AllBits(vs) + Tokens(rest)
  {
    if vs == [] {
      assert DigitsOf(vs) + rest == rest;
      assert AllBits(vs) + Tokens(rest) == Tokens(rest);
    } else {
      var s := DigitsOf(vs) + rest;
      assert s[1..] == DigitsOf(vs[1..]) + rest;
      DigitValue(vs[0]);
      TokensOfDigits(vs[1..], rest);
      assert AllBits(vs) + Tokens(rest) == [Bits(vs[0])] + (AllBits(vs[1..]) + Tokens(rest));
    }
  }

  /** A whole group of four digits gives its three bytes. */
  lemma ReadGroup(v0: sextet, v1: sextet, v2: sextet, v3: sextet, rest: seq<Token>)
    ensures Read([Bits(v0), Bits(v1), Bits(v2), Bits(v3)] + rest, 0, 0, 0) ==
            Cons(v0 as int * 4 + v1 / 16, Cons(v1 as int % 16 * 16 + v2 / 4, Cons(v2 as int % 4 * 64 + v3, Read(rest, 0, 0, 0))))
  {
    var ts := [Bits(v0), Bits(v1), Bits(v2), Bits(v3)] + rest;
    assert Read(ts, 0, 0, 0) == Read(ts[1..], 1, v0, 0);
    assert ts[1..][1..] == ts[2..] && ts[2..][1..] == ts[3..] && ts[3..][1..] == rest;
    assert Read(ts[1..], 1, v0, 0) == Cons(v0 as int * 4 + v1 / 16, Read(ts[2..], 2, v1 % 16, 0));
    assert Read(ts[2..], 2, v1 % 16, 0) == Cons(v1 as int % 16 * 16 + v2 / 4, Read(ts[3..], 3, v2 % 4, 0));
  }

  lemma ReadOne(v0: sextet, v1: sextet)
    ensures Read([Bits(v0), Bits(v1)] + AllPads(2), 0, 0, 0) == Some([v0 as int * 4 + v1 / 16])
  {
    var ts := [Bits(v0), Bits(v1)] + AllPads(2);
    assert ts[1..][1..] == AllPads(2) && AllPads(2)[1..] == AllPads(1);
    assert Read(AllPads(1), 2, v1 % 16, 1) == Some([]);
    assert Read(AllPads(2), 2, v1 % 16, 0) == Some([]);
    assert Read(ts, 0, 0, 0) == Read(ts[1..], 1, v0, 0) == Cons(v0 as int * 4 + v1 / 16, Some([]));
    ConsSingle(v0 as int * 4 + v1 / 16);
  }

  lemma ConsSingle(x: byte)
    ensures Cons(x, Some([])) == Some([x])
  {
    assert [x] + [] == [x];
  }

  lemma ReadTwo(v0: sextet, v1: sextet, v2: sextet)
    ensures Read([Bits(v0), Bits(v1), Bits(v2)] + AllPads(1), 0, 0, 0) ==
            Some([v0 as int * 4 + v1 / 16, v1 as int % 16 * 16 + v2 / 4])
  {
    var ts := [Bits(v0), Bits(v1), Bits(v2)] + AllPads(1);
    assert ts[1..][1..] == ts[2..] && ts[2..][1..] == AllPads(1);
    assert Read(AllPads(1), 3, v2 % 4, 0) == Some([]);
    assert Read(ts[2..], 2, v1 % 16, 0) == Cons(v1 as int % 16 * 16 + v2 / 4, Some([]));
    assert Read(ts, 0, 0, 0) == Read(ts[1..], 1, v0, 0) == Cons(v0 as int * 4 + v1 / 16, Read(ts[2..], 2, v1 % 16, 0));
    var x: byte, y: byte := v0 as int * 4 + v1 / 16, v1 as int % 16 * 16 + v2 / 4;
    ConsSingle(y);
    assert [x] + [y] == [x, y];
  }

  /** Splitting three bytes into four digits loses nothing. */
  lemma GroupArithmetic(a: byte, b: byte, c: byte)
    ensures (a / 4) as int * 4 + (a % 4 * 16 + b / 16) / 16 == a
    ensures (a % 4 * 16 + b / 16) % 16 * 16 + (b % 16 * 4 + c / 64) / 4 == b
    ensures (b % 16 * 4 + c / 64) % 4 * 64 + c % 64 == c
  {
  }

  lemma {:induction false} ReadSextets(b: bytes)
    ensures Read(AllBits(Sextets(b)) + AllPads((3 - |b| % 3) % 3), 0, 0, 0) == Some(b)
    decreases |b|
  {
    var ts := AllBits(Sextets(b));
    if |b| == 0 {
      assert ts + AllPads(0) == [];
    } else if |b| == 1 {
      GroupArithmetic(b[0], 0, 0);
      ReadOne(b[0] / 4, b[0] % 4 * 16);
      assert ts == [Bits(b[0] / 4), Bits(b[0] % 4 * 16)];
      assert b == [b[0]];
    } else if |b| == 2 {
      GroupArithmetic(b[0], b[1], 0);
      ReadTwo(b[0] / 4, b[0] % 4 * 16 + b[1] / 16, b[1] % 16 * 4);
      assert ts == [Bits(b[0] / 4), Bits(b[0] % 4 * 16 + b[1] / 16), Bits(b[1] % 16 * 4)];
      assert b == [b[0], b[1]];
    } else {
      ReadSextetsGroup(b);
    }
  }

  lemma BitsConcat(a: seq<sextet>, b: seq<sextet>)
    ensures AllBits(a + b) == AllBits(a) + AllBits(b)
  {
  }

  lemma SextetsGroup(b: bytes, v0: sextet, v1: sextet, v2: sextet, v3: sextet)
    requires |b| >= 3
    requires v0 == b[0] / 4 && v1 == b[0] % 4 * 16 + b[1] / 16 && v2 == b[1] % 16 * 4 + b[2] / 64 && v3 == b[2] % 64
    ensures AllBits(Sextets(b)) == [Bits(v0), Bits(v1), Bits(v2), Bits(v3)] + AllBits(Sextets(b[3..]))
  {
    BitsConcat([v0, v1, v2, v3], Sextets(b[3..]));
    assert AllBits([v0, v1, v2, v3]) == [Bits(v0), Bits(v1), Bits(v2), Bits(v3)];
  }

  lemma ConsGroup(b: bytes)
    requires |b| >= 3
    ensures Cons(b[0], Cons(b[1], Cons(b[2], Some(b[3..])))) == Some(b)
  {
    assert b == [b[0]] + ([b[1]] + ([b[2]] + b[3..]));
  }

  lemma {:induction false} ReadSextetsGroup(b: bytes)
    requires |b| >= 3
    ensures Read(AllBits(Sextets(b)) + AllPads((3 - |b| % 3) % 3), 0, 0, 0) == Some(b)
    decreases |b|, 0
  {
    var pads := AllPads((3 - |b| % 3) % 3);
    ReadSextets(b[3..]);
    assert |b[3..]| % 3 == |b| % 3;
    ReadGroupOf(b, b[0] / 4, b[0] % 4 * 16 + b[1] / 16, b[1] % 16 * 4 + b[2] / 64, b[2] % 64, pads);
  }

  lemma ReadGroupOf(b: bytes, v0: sextet, v1: sextet, v2: sextet, v3: sextet, pads: seq<Token>)
    requires |b| >= 3
    requires v0 == b[0] / 4 && v1 == b[0] % 4 * 16 + b[1] / 16 && v2 == b[1] % 16 * 4 + b[2] / 64 && v3 == b[2] % 64
    requires Read(AllBits(Sextets(b[3..])) + pads, 0, 0, 0) == Some(b[3..])
    ensures Read(AllBits(Sextets(b)) + pads, 0, 0, 0) == Some(b)
  {
    var head, tail := [Bits(v0), Bits(v1), Bits(v2), Bits(v3)], AllBits(Sextets(b[3..]));
    SextetsGroup(b, v0, v1, v2, v3);
    assert (head + tail) + pads == head + (tail + pads);
    ReadGroup(v0, v1, v2, v3, tail + pads);
    GroupArithmetic(b[0], b[1], b[2]);
    ConsGroup(b);
  }

  lemma PadCount(n: nat)
    ensures (4 - (4 * n + 2) / 3 % 4) % 4 == (3 - n % 3) % 3
  {
    var k, r := n / 3, n % 3;
    assert n == 3 * k + r;
    assert (4 * n + 2) / 3 == 4 * k + (4 * r + 2) / 3;
    assert r == 0 || r == 1 || r == 2;
  }

  lemma DecodeDigits(b: bytes, s: string, n: nat)
    requires s == Digits(b) && n == (3 - |b| % 3) % 3
    ensures Read(Tokens(s + Pads(n)), 0, 0, 0) == Some(b)
  {
    DigitsAreSextets(b);
    TokensOfDigits(Sextets(b), Pads(n));
    TokensOfPads(n);
    ReadSextets(b);
  }

  /** Decoding undoes encoding, through stripped and restored padding. */
  lemma RoundTrip(b: bytes)
    ensures Decode(Encode(b)) == Some(b)
  {
    EncodeIsDigits(b);
    DigitsShape(b);
    PadCount(|b|);
    DigitsRoundTrip(b, Digits(b), (3 - |b| % 3) % 3);
  }

  lemma DigitsRoundTrip(b: bytes, s: string, n: nat)
    requires s == Digits(b) && n == (3 - |b| % 3) % 3 == (4 - |s| % 4) % 4
    requires forall i :: 0 <= i < |s| ==> s[i] < 128 as char
    ensures Decode(s) == Some(b)
  {
    DecodeDigits(b, s, n);
    DecodeIsRead(s, n);
  }

  lemma DecodeIsRead(s: string, n: nat)
    requires n == (4 - |s| % 4) % 4 && forall i :: 0 <= i < |s| ==> s[i] < 128 as char
    ensures Decode(s) == Read(Tokens(s + Pads(n)), 0, 0, 0)
  {
  }

  lemma EncodeInjective(a: bytes, b: bytes)
    requires Encode(a) == Encode(b)
    ensures a == b
  {
    RoundTrip(a);
    RoundTrip(b);
  }

  lemma EncodeNonEmpty(b: bytes)
    ensures Encode(b) == "" <==> b == []
  {
    EncodeIsDigits(b);
    DigitsShape(b);
  }
}

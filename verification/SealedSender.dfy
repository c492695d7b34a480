/** The inner package of a sealed envelope: length-prefixed fields (protocol/sealed_sender.py). */
module SealedSender {
  import opened Common
  import opened BigEndian

  datatype Inner = Inner(senderId: bytes, sessionId: bytes, dhPub: bytes, pn: int, n: int, ciphertext: bytes)

  /** A field after its 16-bit length. */
  function Field(b: bytes): bytes {
    U16(|b|) + b
  }

  /** _serialize_inner: a length that does not fit its prefix is an error, the counters are cut to 32 bits. */
  function Serialize(p: Inner): Option<bytes> {
    if |p.senderId| >= U16_LIMIT || |p.sessionId| >= U16_LIMIT || |p.dhPub| >= U16_LIMIT
       || |p.ciphertext| >= U32_LIMIT then None
    else
      Some(PrintMany(Field, Ids(p), PrintMany(U32, Counters(p), p.ciphertext)))
  }

  function Ids(p: Inner): seq<bytes> {
    [p.senderId, p.sessionId, p.dhPub]
  }

  function Counters(p: Inner): seq<nat> {
    [p.pn % U32_LIMIT, p.n % U32_LIMIT, |p.ciphertext|]
  }

  function PrintMany<T>(show: T -> bytes, items: seq<T>, rest: bytes): bytes {
    if items == [] then rest else show(items[0]) + PrintMany(show, items[1..], rest)
  }

  // Parsing, as a function of what is left of the input ----------------------------------------------

  datatype Split<T> = Split(value: T, rest: bytes)

  function TakeBytes(b: bytes, n: nat): Option<Split<bytes>> {
    if |b| < n then None else Some(Split(b[..n], b[n..]))
  }

  function TakeU16(b: bytes): Option<Split<nat>> {
    if |b| < 2 then None else Some(Split(Read(b[..2]), b[2..]))
  }

  function TakeU32(b: bytes): Option<Split<nat>> {
    if |b| < 4 then None else Some(Split(Read(b[..4]), b[4..]))
  }

  function TakeField(b: bytes): Option<Split<bytes>> {
    var len := TakeU16(b);
    if len.None? then None else TakeBytes(len.value.rest, len.value.value)
  }

  datatype Many<T> = Many(items: seq<T>, rest: bytes)

  /** k fields, or k numbers, one after the other. */
  function TakeMany<T>(take: bytes -> Option<Split<T>>, b: bytes, k: nat): (r: Option<Many<T>>)
    ensures r.Some? ==> |r.value.items| == k
    decreases k, b
  {
    if k == 0 then Some(Many([], b)) else
    var x := take(b);
    if x.None? then None else
    var m := TakeMany(take, x.value.rest, k - 1);
    if m.None? then None else Some(Many([x.value.value] + m.value.items, m.value.rest))
  }

  /** The ciphertext is all that is left, neither more nor less. */
  function Assemble(ids: seq<bytes>, counters: seq<nat>, rest: bytes): Option<Inner>
    requires |ids| == 3 && |counters| == 3
  {
    if |rest| != counters[2] then None
    else Some(Inner(ids[0], ids[1], ids[2], counters[0], counters[1], rest))
  }

  function ParseAll(b: bytes): Option<Inner> {
    var ids := TakeMany(TakeField, b, 3);
    if ids.None? then None else
    var counters := TakeMany(TakeU32, ids.value.rest, 3);
    if counters.None? then None else Assemble(ids.value.items, counters.value.items, counters.value.rest)
  }

  predicate Named(p: Inner) {
    p.senderId != [] && p.sessionId != [] && p.dhPub != []
  }

  /** _parse_inner: no trailing bytes, and no empty id or key. */
  function Parse(b: bytes): Option<Inner> {
    var p := ParseAll(b);
    if p.Some? && Named(p.value) then p else None
  }

  // Printing and parsing undo each other --------------------------------------------------------------

  predicate InRange(p: Inner) {
    && 0 <= p.pn < U32_LIMIT && 0 <= p.n < U32_LIMIT
    && |p.senderId| < U16_LIMIT && |p.sessionId| < U16_LIMIT && |p.dhPub| < U16_LIMIT
    && |p.ciphertext| < U32_LIMIT
  }

  function Reduced(p: Inner): Inner {
    p.(pn := p.pn % U32_LIMIT, n := p.n % U32_LIMIT)
  }

  lemma {:induction false} TakePrintedMany<T>(take: bytes -> Option<Split<T>>, show: T -> bytes, items: seq<T>,
                                              rest: bytes)
    requires forall x, r :: x in items ==> take(show(x) + r) == Some(Split(x, r))
    ensures TakeMany(take, PrintMany(show, items, rest), |items|) == Some(Many(items, rest))
  {
    if items != [] {
      TakePrintedMany(take, show, items[1..], rest);
      assert [items[0]] + items[1..] == items;
    }
  }

  lemma {:induction false} PrintTakenMany<T>(take: bytes -> Option<Split<T>>, show: T -> bytes, ok: T -> bool, b: bytes,
                                             k: nat, m: Many<T>)
    requires forall x :: take(x).Some? ==>
                           ok(take(x).value.value) && show(take(x).value.value) + take(x).value.rest == x
    requires TakeMany(take, b, k) == Some(m)
    ensures PrintMany(show, m.items, m.rest) == b && forall i :: 0 <= i < k ==> ok(m.items[i])
    decreases k
  {
    if k > 0 {
      var x := take(b).value;
      PrintTakenMany(take, show, ok, x.rest, k - 1, Many(m.items[1..], m.rest));
    }
  }

  lemma TakePrintedField(f: bytes, rest: bytes)
    requires |f| < U16_LIMIT
    ensures TakeField(Field(f) + rest) == Some(Split(f, rest))
  {
    var b := Field(f) + rest;
    assert b[..2] == U16(|f|) && b[2..] == f + rest;
    Limits();
    ReadBig(|f|, 2);
    assert (f + rest)[..|f|] == f && (f + rest)[|f|..] == rest;
  }

  lemma TakePrintedU32(n: nat, rest: bytes)
    requires n < U32_LIMIT
    ensures TakeU32(U32(n) + rest) == Some(Split(n, rest))
  {
    var b := U32(n) + rest;
    assert b[..4] == U32(n) && b[4..] == rest;
    Limits();
    ReadBig(n, 4);
  }

  lemma PrintTakenField(b: bytes)
    ensures TakeField(b).Some? ==>
              var s := TakeField(b).value; |s.value| < U16_LIMIT && Field(s.value) + s.rest == b
  {
    if TakeField(b).Some? {
      Limits();
      BigRead(b[..2]);
      assert b == b[..2] + b[2..];
      var len := Read(b[..2]);
      assert b[2..] == b[2..][..len] + b[2..][len..];
    }
  }

  lemma PrintTakenU32(b: bytes)
    ensures TakeU32(b).Some? ==>
              var s := TakeU32(b).value; s.value < U32_LIMIT && U32(s.value) + s.rest == b
  {
    if TakeU32(b).Some? {
      Limits();
      BigRead(b[..4]);
      assert b == b[..4] + b[4..];
    }
  }

  lemma TakePrintedIds(ids: seq<bytes>, rest: bytes)
    requires forall f :: f in ids ==> |f| < U16_LIMIT
    ensures TakeMany(TakeField, PrintMany(Field, ids, rest), |ids|) == Some(Many(ids, rest))
  {
    forall f: bytes, r: bytes | f in ids
      ensures TakeField(Field(f) + r) == Some(Split(f, r))
    {
      TakePrintedField(f, r);
    }
    TakePrintedMany(TakeField, Field, ids, rest);
  }

  lemma TakePrintedCounters(counters: seq<nat>, rest: bytes)
    requires forall n :: n in counters ==> n < U32_LIMIT
    ensures TakeMany(TakeU32, PrintMany(U32, counters, rest), |counters|) == Some(Many(counters, rest))
  {
    forall n: nat, r: bytes | n in counters
      ensures TakeU32(U32(n) + r) == Some(Split(n, r))
    {
      TakePrintedU32(n, r);
    }
    TakePrintedMany(TakeU32, U32, counters, rest);
  }

  lemma ParseSteps(b: bytes, ids: Many<bytes>, counters: Many<nat>)
    requires TakeMany(TakeField, b, 3) == Some(ids) && TakeMany(TakeU32, ids.rest, 3) == Some(counters)
    ensures |ids.items| == 3 && |counters.items| == 3
    ensures Parse(b) ==
            var p := Assemble(ids.items, counters.items, counters.rest);
            if p.Some? && Named(p.value) then p else None
  {
  }

  /** Parsing what was printed gives the package back, its counters modulo 2^32, unless an id or the key is empty. */
  lemma ParsePrinted(p: Inner)
    requires Serialize(p).Some?
    ensures Parse(Serialize(p).value) == if Named(p) then Some(Reduced(p)) else None
  {
    var tail := PrintMany(U32, Counters(p), p.ciphertext);
    TakePrintedIds(Ids(p), tail);
    TakePrintedCounters(Counters(p), p.ciphertext);
    ParseTaken(Serialize(p).value, tail, p);
  }

  lemma ParseTaken(b: bytes, tail: bytes, p: Inner)
    requires TakeMany(TakeField, b, 3) == Some(Many(Ids(p), tail))
    requires TakeMany(TakeU32, tail, 3) == Some(Many(Counters(p), p.ciphertext))
    ensures Parse(b) == if Named(p) then Some(Reduced(p)) else None
  {
    ParseSteps(b, Many(Ids(p), tail), Many(Counters(p), p.ciphertext));
  }

  lemma PrintTakenIds(b: bytes, k: nat, m: Many<bytes>)
    requires TakeMany(TakeField, b, k) == Some(m)
    ensures PrintMany(Field, m.items, m.rest) == b && forall i :: 0 <= i < k ==> |m.items[i]| < U16_LIMIT
  {
    forall x
      ensures TakeField(x).Some? ==>
                && |TakeField(x).value.value| < U16_LIMIT
                && Field(TakeField(x).value.value) + TakeField(x).value.rest == x
    {
      PrintTakenField(x);
    }
    PrintTakenMany(TakeField, Field, (f: bytes) => |f| < U16_LIMIT, b, k, m);
  }

  lemma PrintTakenCounters(b: bytes, k: nat, m: Many<nat>)
    requires TakeMany(TakeU32, b, k) == Some(m)
    ensures PrintMany(U32, m.items, m.rest) == b && forall i :: 0 <= i < k ==> m.items[i] < U32_LIMIT
  {
    forall x
      ensures TakeU32(x).Some? ==>
                && TakeU32(x).value.value < U32_LIMIT
                && U32(TakeU32(x).value.value) + TakeU32(x).value.rest == x
    {
      PrintTakenU32(x);
    }
    PrintTakenMany(TakeU32, U32, (n: nat) => n < U32_LIMIT, b, k, m);
  }

  /** Printing what was parsed gives the bytes back. */
  lemma PrintParsed(b: bytes)
    requires Parse(b).Some?
    ensures InRange(Parse(b).value) && Named(Parse(b).value)
    ensures Serialize(Parse(b).value) == Some(b)
  {
    var ids := TakeMany(TakeField, b, 3).value;
    var counters := TakeMany(TakeU32, ids.rest, 3).value;
    PrintTakenIds(b, 3, ids);
    PrintTakenCounters(ids.rest, 3, counters);
    PrintAssembled(ids.items, counters.items, counters.rest, Parse(b).value);
  }

  lemma PrintAssembled(ids: seq<bytes>, counters: seq<nat>, rest: bytes, p: Inner)
    requires |ids| == 3 && |counters| == 3 && Assemble(ids, counters, rest) == Some(p)
    requires forall i :: 0 <= i < 3 ==> |ids[i]| < U16_LIMIT && counters[i] < U32_LIMIT
    ensures InRange(p) && Serialize(p) == Some(PrintMany(Field, ids, PrintMany(U32, counters, rest)))
  {
    assert Ids(p) == ids && Counters(p) == counters;
  }

  /** So printing is a bijection from the packages in range onto the accepted byte strings. */
  lemma AcceptedIffPrinted(b: bytes, p: Inner)
    ensures Parse(b) == Some(p) <==> InRange(p) && Named(p) && Serialize(p) == Some(b)
  {
    if Parse(b) == Some(p) {
      PrintParsed(b);
    }
    if InRange(p) && Named(p) && Serialize(p) == Some(b) {
      ParsePrinted(p);
    }
  }

  lemma TakeHead<T>(take: bytes -> Option<Split<T>>, b: bytes, k: nat)
    requires k > 0
    ensures TakeMany(take, b, k) ==
            if take(b).None? || TakeMany(take, take(b).value.rest, k - 1).None? then None
            else
              var m := TakeMany(take, take(b).value.rest, k - 1).value;
              Some(Many([take(b).value.value] + m.items, m.rest))
  {
  }

  lemma TakeThree<T>(take: bytes -> Option<Split<T>>, b: bytes, b1: bytes, b2: bytes, b3: bytes, x: T, y: T, z: T)
    requires take(b) == Some(Split(x, b1)) && take(b1) == Some(Split(y, b2)) && take(b2) == Some(Split(z, b3))
    ensures TakeMany(take, b, 3) == Some(Many([x, y, z], b3))
  {
    TakeHead(take, b, 3);
    TakeHead(take, b1, 2);
    TakeHead(take, b2, 1);
    assert TakeMany(take, b3, 0) == Some(Many([], b3));
    assert [x] + ([y] + ([z] + [])) == [x, y, z];
  }

  // The parser as it runs -----------------------------------------------------------------------------

  class Reader {
    const data: bytes
    var offset: nat

    constructor (data: bytes)
      ensures this.data == data && offset == 0
    {
      this.data := data;
      offset := 0;
    }

    ghost predicate Valid()
      reads this
    {
      offset <= |data|
    }

    ghost function Rest(): bytes
      requires Valid()
      reads this
    {
      data[offset..]
    }

    method ReadNumber16() returns (r: Option<nat>)
      requires Valid()
      modifies this
      ensures Valid()
      ensures r.None? <==> TakeU16(old(Rest())).None?
      ensures r.Some? ==> TakeU16(old(Rest())) == Some(Split(r.value, Rest()))
    {
      if offset + 2 > |data| {
        return None;
      }
      assert Rest()[..2] == data[offset..offset + 2];
      r := Some(Read(data[offset..offset + 2]));
      offset := offset + 2;
    }

    method ReadNumber32() returns (r: Option<nat>)
      requires Valid()
      modifies this
      ensures Valid()
      ensures r.None? <==> TakeU32(old(Rest())).None?
      ensures r.Some? ==> TakeU32(old(Rest())) == Some(Split(r.value, Rest()))
    {
      if offset + 4 > |data| {
        return None;
      }
      assert Rest()[..4] == data[offset..offset + 4];
      r := Some(Read(data[offset..offset + 4]));
      offset := offset + 4;
    }

    method ReadBytes(n: nat) returns (r: Option<bytes>)
      requires Valid()
      modifies this
      ensures Valid()
      ensures r.None? <==> TakeBytes(old(Rest()), n).None?
      ensures r.Some? ==> TakeBytes(old(Rest()), n) == Some(Split(r.value, Rest()))
      ensures r.Some? ==> |old(Rest())| == n + |Rest()| && (Rest() == [] ==> r.value == old(Rest()))
    {
      if offset + n > |data| {
        return None;
      }
      assert Rest()[..n] == data[offset..offset + n];
      r := Some(data[offset..offset + n]);
      offset := offset + n;
    }

    method ReadField() returns (r: Option<bytes>)
      requires Valid()
      modifies this
      ensures Valid()
      ensures r.None? <==> TakeField(old(Rest())).None?
      ensures r.Some? ==> TakeField(old(Rest())) == Some(Split(r.value, Rest()))
    {
      var len := ReadNumber16();
      if len.None? {
        return None;
      }
      r := ReadBytes(len.value);
    }

    /** The sender id, the session id and the ratchet key. */
    method ReadIds() returns (r: Option<seq<bytes>>)
      requires Valid()
      modifies this
      ensures Valid()
      ensures r.None? <==> TakeMany(TakeField, old(Rest()), 3).None?
      ensures r.Some? ==> TakeMany(TakeField, old(Rest()), 3) == Some(Many(r.value, Rest()))
    {
      ghost var start := Rest();
      var sender := ReadField();
      TakeHead(TakeField, start, 3);
      if sender.None? { return None; }
      ghost var second := Rest();
      var session := ReadField();
      TakeHead(TakeField, second, 2);
      if session.None? { return None; }
      ghost var third := Rest();
      var dh := ReadField();
      TakeHead(TakeField, third, 1);
      if dh.None? { return None; }
      r := Some([sender.value, session.value, dh.value]);
      TakeThree(TakeField, start, second, third, Rest(), sender.value, session.value, dh.value);
    }

    /** The two counters and the length of the ciphertext. */
    method ReadCounters() returns (r: Option<seq<nat>>)
      requires Valid()
      modifies this
      ensures Valid()
      ensures r.None? <==> TakeMany(TakeU32, old(Rest()), 3).None?
      ensures r.Some? ==> TakeMany(TakeU32, old(Rest()), 3) == Some(Many(r.value, Rest()))
    {
      ghost var start := Rest();
      var pn := ReadNumber32();
      TakeHead(TakeU32, start, 3);
      if pn.None? { return None; }
      ghost var second := Rest();
      var n := ReadNumber32();
      TakeHead(TakeU32, second, 2);
      if n.None? { return None; }
      ghost var third := Rest();
      var len := ReadNumber32();
      TakeHead(TakeU32, third, 1);
      if len.None? { return None; }
      r := Some([pn.value, n.value, len.value]);
      TakeThree<nat>(TakeU32, start, second, third, Rest(), pn.value, n.value, len.value);
    }
  }

  /** The readers one after the other; the result is the function's. */
  method ReadInner(data: bytes) returns (r: Option<Inner>)
    ensures r == Parse(data)
  {
    var reader := new Reader(data);
    assert reader.Rest() == data;
    var ids := reader.ReadIds();
    if ids.None? { return None; }
    ghost var m := Many(ids.value, reader.Rest());
    var counters := reader.ReadCounters();
    if counters.None? { return None; }
    ghost var rest := reader.Rest();
    var ct := reader.ReadBytes(counters.value[2]);
    ParseSteps(data, m, Many(counters.value, rest));
    assert ct.None? || reader.offset != |data| <==> |rest| != counters.value[2];
    if ct.None? || reader.offset != |data| { return None; }
    var p := Inner(ids.value[0], ids.value[1], ids.value[2], counters.value[0], counters.value[1], ct.value);
    return if Named(p) then Some(p) else None;
  }

  /** _parse_inner: accepts exactly the printed packages, and returns the one that was printed. */
  method ParseInner(data: bytes) returns (r: Option<Inner>)
    ensures r.Some? ==> InRange(r.value) && Named(r.value) && Serialize(r.value) == Some(data)
    ensures r.None? ==> forall p :: InRange(p) && Named(p) ==> Serialize(p) != Some(data)
  {
    r := ReadInner(data);
    forall p | InRange(p) && Named(p)
      ensures Serialize(p) == Some(data) <==> r == Some(p)
    {
      AcceptedIffPrinted(data, p);
    }
    if r.Some? {
      AcceptedIffPrinted(data, r.value);
    }
  }

  /** The layout: three fields behind their 16-bit lengths, pn, n and the ciphertext's length in 32 bits, the ciphertext. */
  lemma Layout(p: Inner)
    requires InRange(p)
    ensures Serialize(p) ==
            Some((U16(|p.senderId|) + p.senderId)
                 + ((U16(|p.sessionId|) + p.sessionId)
                    + ((U16(|p.dhPub|) + p.dhPub)
                       + (U32(p.pn) + (U32(p.n) + (U32(|p.ciphertext|) + p.ciphertext))))))
  {
    PrintThree<nat>(U32, p.pn, p.n, |p.ciphertext|, p.ciphertext);
    PrintThree(Field, p.senderId, p.sessionId, p.dhPub, PrintMany(U32, Counters(p), p.ciphertext));
    assert Counters(p) == [p.pn, p.n, |p.ciphertext|];
  }

  lemma PrintThree<T>(show: T -> bytes, a: T, b: T, c: T, rest: bytes)
    ensures PrintMany(show, [a, b, c], rest) == show(a) + (show(b) + (show(c) + rest))
  {
    var one: seq<T>, two: seq<T>, three: seq<T> := [c], [b, c], [a, b, c];
    assert one == [c] + [] && two == [b] + one && three == [a] + two;
    PrintHead(show, c, [], rest);
    assert PrintMany(show, one, rest) == show(c) + rest;
    PrintHead(show, b, one, rest);
    assert PrintMany(show, two, rest) == show(b) + (show(c) + rest);
    PrintHead(show, a, two, rest);
    assert PrintMany(show, three, rest) == show(a) + PrintMany(show, two, rest);
  }

  lemma PrintHead<T>(show: T -> bytes, x: T, items: seq<T>, rest: bytes)
    ensures PrintMany(show, [x] + items, rest) == show(x) + PrintMany(show, items, rest)
    ensures items == [] ==> PrintMany(show, items, rest) == rest
  {
    assert ([x] + items)[1..] == items;
  }
}

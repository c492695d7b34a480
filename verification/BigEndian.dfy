/** Fixed-width big-endian integers, as the wire and storage formats use them. */
module BigEndian {
  import opened Common

  /** The low w bytes of a number, most significant first. */
  function Big(n: nat, w: nat): (b: bytes)
    ensures |b| == w
    decreases n, w
  {
    if w == 0 then [] else Big(n / 256, w - 1) + [n % 256]
  }

  function Read(b: bytes): nat {
    if b == [] then 0 else Read(b[..|b| - 1]) * 256 + b[|b| - 1]
  }

  /** 256 to the power w. */
  function Limit(w: nat): (l: nat)
    ensures l >= 1
  {
    if w == 0 then 1 else 256 * Limit(w - 1)
  }

  function U16(n: nat): (b: bytes)
    ensures |b| == 2
  {
    Big(n, 2)
  }

  function U32(n: nat): (b: bytes)
    ensures |b| == 4
  {
    Big(n, 4)
  }

  lemma Limits()
    ensures Limit(2) == U16_LIMIT && Limit(4) == U32_LIMIT
  {
  }

  lemma {:induction false} ReadBig(n: nat, w: nat)
    requires n < Limit(w)
    ensures Read(Big(n, w)) == n
    decreases w
  {
    if w > 0 {
      ReadBig(n / 256, w - 1);
      assert Big(n, w)[..w - 1] == Big(n / 256, w - 1);
    }
  }

  lemma {:induction false} BigRead(b: bytes)
    ensures Read(b) < Limit(|b|) && Big(Read(b), |b|) == b
    decreases |b|
  {
    if b != [] {
      var init := b[..|b| - 1];
      BigRead(init);
      assert Read(b) / 256 == Read(init) && Read(b) % 256 == b[|b| - 1];
      assert b == init + [b[|b| - 1]];
    }
  }

  /** Numbers below the limit that print alike are equal. */
  lemma BigInjective(m: nat, n: nat, w: nat)
    requires m < Limit(w) && n < Limit(w) && Big(m, w) == Big(n, w)
    ensures m == n
  {
    ReadBig(m, w);
    ReadBig(n, w);
  }

  lemma Layouts()
    ensures U16(0x0102) == [1, 2] && U32(0x0102_0304) == [1, 2, 3, 4]
    ensures U32(0xFFFF_FFFF) == [255, 255, 255, 255]
  {
  }
}

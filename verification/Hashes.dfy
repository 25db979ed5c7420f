// iot/hashes.go: the 24-byte topic hash, its big-endian byte form, and the shard index.
module Hashes {
  import opened Common

  const TWO_TO_THE_64: nat := 0x1_0000_0000_0000_0000
  const HASH_LEN := 24

  type Word = w: nat | w < 0x1_0000_0000_0000_0000

  // Three 64-bit words; the source keeps them as int64 and converts at every use.
  datatype Hash = Hash(h0: Word, h1: Word, h2: Word)

  /** The number that `bytes`, most significant first, stand for. */
  function BigEndian(bytes: seq<byte>): nat
  {
    if bytes == [] then 0 else 256 * BigEndian(bytes[..|bytes| - 1]) + bytes[|bytes| - 1]
  }

  lemma {:induction false} BigEndianBound(bytes: seq<byte>)
    ensures BigEndian(bytes) < Pow2(8 * |bytes|)
  {
    if bytes != [] {
      BigEndianBound(bytes[..|bytes| - 1]);
      Pow2Add(8, 8 * (|bytes| - 1));
      assert Pow2(8) == 256;
    }
  }

  lemma {:induction false} BigEndianInjective(x: seq<byte>, y: seq<byte>)
    requires |x| == |y| && BigEndian(x) == BigEndian(y)
    ensures x == y
  {
    if x != [] {
      BigEndianInjective(x[..|x| - 1], y[..|y| - 1]);
      assert x == x[..|x| - 1] + [x[|x| - 1]];
      assert y == y[..|y| - 1] + [y[|y| - 1]];
    }
  }

  lemma Pow64()
    ensures Pow2(64) == TWO_TO_THE_64
  {
    assert Pow2(8) == 0x100;
    Pow2Add(8, 8);
    Pow2Add(16, 16);
    Pow2Add(32, 32);
  }

  // The first byte is the most significant.
  lemma EightBytes(b: seq<byte>)
    requires |b| == 8
    ensures BigEndian(b) ==
            0x1_0000_0000 * BigEndian(b[..4]) +
            0x100_0000 * b[4] as nat + 0x1_0000 * b[5] as nat + 0x100 * b[6] as nat + b[7] as nat
    ensures BigEndian(b[..4]) == 0x100_0000 * b[0] as nat + 0x1_0000 * b[1] as nat + 0x100 * b[2] as nat + b[3] as nat
  {
    hide BigEndian;
    BigEndianStep(b, 0);
    BigEndianStep(b, 1);
    BigEndianStep(b, 2);
    BigEndianStep(b, 3);
    BigEndianStep(b, 4);
    BigEndianStep(b, 5);
    BigEndianStep(b, 6);
    BigEndianStep(b, 7);
    assert b[..8] == b;
    assert BigEndian(b[..0]) == 0 by { BigEndianNone(); }
  }

  lemma BigEndianNone()
    ensures BigEndian([]) == 0
  {
  }

  lemma BigEndianStep(b: seq<byte>, k: nat)
    requires k < |b|
    ensures BigEndian(b[..k + 1]) == 256 * BigEndian(b[..k]) + b[k]
  {
    assert b[..k + 1][..k] == b[..k];
  }

  ghost predicate HashBytes(bytes: seq<byte>, h: Hash) {
    && |bytes| == HASH_LEN
    && BigEndian(bytes[0..8]) == h.h0
    && BigEndian(bytes[8..16]) == h.h1
    && BigEndian(bytes[16..24]) == h.h2
  }

  /** binary.BigEndian.Uint64: shift the bytes in, most significant first. */
  method Uint64(b: array<byte>, from: nat) returns (w: Word)
    requires from + 8 <= b.Length
    ensures w == BigEndian(b[from..from + 8])
  {
    var acc: nat := 0;
    for k := 0 to 8
      invariant acc == BigEndian(b[from..from + k])
    {
      assert b[from..from + k + 1][..k] == b[from..from + k];
      acc := 256 * acc + b[from + k];
    }
    BigEndianBound(b[from..from + 8]);
    Pow64();
    w := acc;
  }

  function ToBytes(w: nat, k: nat): (bytes: seq<byte>)
    ensures |bytes| == k
  {
    if k == 0 then [] else ToBytes(w / 256, k - 1) + [w % 256]
  }

  lemma {:induction false} BigEndianToBytes(w: nat, k: nat)
    requires w < Pow2(8 * k)
    ensures BigEndian(ToBytes(w, k)) == w
  {
    if k > 0 {
      Pow2Add(8, 8 * (k - 1));
      assert Pow2(8) == 256;
      BigEndianToBytes(w / 256, k - 1);
      assert ToBytes(w, k)[..k - 1] == ToBytes(w / 256, k - 1);
    }
  }

  /** binary.BigEndian.PutUint64: fill the eight bytes in place. */
  method PutUint64(b: array<byte>, from: nat, w: Word)
    requires from + 8 <= b.Length
    modifies b
    ensures BigEndian(b[from..from + 8]) == w
    ensures forall k :: 0 <= k < b.Length && !(from <= k < from + 8) ==> b[k] == old(b[k])
  {
    var rest: nat := w;
    var k := 8;
    while k > 0
      invariant 0 <= k <= 8
      invariant ToBytes(w, 8) == ToBytes(rest, k) + b[from + k..from + 8]
      invariant forall j :: 0 <= j < b.Length && !(from + k <= j < from + 8) ==> b[j] == old(b[j])
    {
      k := k - 1;
      ghost var tail := b[from + k + 1..from + 8];
      b[from + k] := rest % 256;
      rest := rest / 256;
      assert b[from + k..from + 8] == [b[from + k]] + tail;
    }
    assert b[from..from + 8] == ToBytes(w, 8);
    Pow64();
    BigEndianToBytes(w, 8);
  }

  /** HashType.InitFromBytes. The length check is the source's panic. */
  method InitFromBytes(bytes: array<byte>) returns (h: Hash)
    requires bytes.Length == HASH_LEN
    ensures HashBytes(bytes[..], h)
  {
    var a := Uint64(bytes, 0);
    var b := Uint64(bytes, 8);
    var c := Uint64(bytes, 16);
    h := Hash(a, b, c);
    assert bytes[..][0..8] == bytes[0..8] && bytes[..][8..16] == bytes[8..16] && bytes[..][16..24] == bytes[16..24];
  }

  /** HashType.GetBytes: a buffer that is too short is left alone. */
  method GetBytes(h: Hash, b: array<byte>)
    modifies b
    ensures b.Length < HASH_LEN ==> b[..] == old(b[..])
    ensures b.Length >= HASH_LEN ==> HashBytes(b[..HASH_LEN], h) && b[HASH_LEN..] == old(b[HASH_LEN..])
  {
    if b.Length < HASH_LEN {
      return;
    }
    ghost var tail := b[24..];
    PutUint64(b, 0, h.h0);
    assert b[24..] == tail;
    ghost var first := b[0..8];
    PutUint64(b, 8, h.h1);
    assert b[24..] == tail && b[0..8] == first;
    ghost var second := b[8..16];
    PutUint64(b, 16, h.h2);
    assert b[24..] == tail && b[0..8] == first && b[8..16] == second;
    Words(b[..]);
    assert b[..][..24] == b[..24] && b[..][0..8] == b[0..8] && b[..][8..16] == b[8..16] && b[..][16..24] == b[16..24];
  }

  lemma Words(bytes: seq<byte>)
    requires |bytes| >= 24
    ensures bytes[..24][0..8] == bytes[0..8] && bytes[..24][8..16] == bytes[8..16]
    ensures bytes[..24][16..24] == bytes[16..24]
  {
  }

  // The byte form determines the hash and the hash determines the byte form.
  lemma HashBytesUnique(x: seq<byte>, y: seq<byte>, h: Hash, k: Hash)
    requires HashBytes(x, h) && HashBytes(y, k)
    ensures x == y <==> h == k
  {
    if h == k {
      BigEndianInjective(x[0..8], y[0..8]);
      BigEndianInjective(x[8..16], y[8..16]);
      BigEndianInjective(x[16..24], y[16..24]);
      assert x == x[0..8] + x[8..16] + x[16..24];
      assert y == y[0..8] + y[8..16] + y[16..24];
    }
  }

  function ShiftRight(w: nat, bits: nat): nat
    decreases bits
  {
    if bits == 0 then w else ShiftRight(w / 2, bits - 1)
  }

  /** HashType.GetFractionalBits: the top `n` bits of the first word. */
  function FractionalBits(h: Hash, n: nat): nat
  {
    if n < 64 then ShiftRight(h.h0, 64 - n) else 0
  }

  lemma {:induction false} ShiftRightBounds(w: nat, bits: nat)
    ensures ShiftRight(w, bits) * Pow2(bits) <= w < (ShiftRight(w, bits) + 1) * Pow2(bits)
    decreases bits
  {
    if bits > 0 {
      var q, p := ShiftRight(w, bits), Pow2(bits - 1);
      ShiftRightBounds(w / 2, bits - 1);
      Double(q, p);
      Double(q + 1, p);
    }
  }

  lemma Double(x: nat, p: nat)
    ensures x * (2 * p) == 2 * (x * p)
  {
  }

  // The shard index made of `n` bits is the leading n bits of the hash, so it always
  // names one of the 2^n buckets.
  lemma ShardInRange(h: Hash, n: nat)
    requires n < 64
    ensures FractionalBits(h, n) < Pow2(n)
    ensures FractionalBits(h, n) * Pow2(64 - n) <= h.h0 < (FractionalBits(h, n) + 1) * Pow2(64 - n)
  {
    var q, p := FractionalBits(h, n), Pow2(64 - n);
    ShiftRightBounds(h.h0, 64 - n);
    Pow64();
    Pow2Add(n, 64 - n);
    if q >= Pow2(n) {
      Monotone(Pow2(n), q, p);
      assert false;
    }
  }

  /** The 4 or 64 buckets that a node has go by the top two or six bits of a hash's first byte. */
  lemma FirstByteShards(bytes: seq<byte>, h: Hash)
    requires HashBytes(bytes, h)
    ensures FractionalBits(h, 2) == bytes[0] / 64 && FractionalBits(h, 6) == bytes[0] / 4
  {
    hide BigEndian, FractionalBits;
    var first := bytes[0];
    EightBytes(bytes[0..8]);
    assert bytes[0..8][0] == first;
    SomePowers();
    ShardInRange(h, 2);
    ShardInRange(h, 6);
  }

  lemma SomePowers()
    ensures Pow2(58) == 0x400_0000_0000_0000 && Pow2(62) == 0x4000_0000_0000_0000
  {
    Pow64();
    assert Pow2(2) == 4 && Pow2(6) == 64;
    Pow2Add(2, 62);
    Pow2Add(6, 58);
  }

  lemma Monotone(x: nat, y: nat, z: nat)
    requires x <= y
    ensures x * z <= y * z
  {
  }
}

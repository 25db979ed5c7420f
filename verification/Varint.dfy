// The variable-length integers of the wire format (packets/packets.go:918-966): base 128, most
// significant group first, every byte but the last with its high bit set.
module Varint {
  import opened Common

  const LIMIT: nat := 0x1000_0000 // 2^28
  const UINT32: nat := 0x1_0000_0000

  /** WriteVarLenInt; `mask` is 0x80 for all groups but the last. */
  function Encode(v: nat, mask: nat): (bytes: seq<byte>)
    requires mask == 0 || mask == 128
    ensures bytes != []
  {
    (if v > 127 then Encode(v / 128, 128) else []) + [v % 128 + mask]
  }

  /** The loop of ReadVarLenInt: the byte in hand, how many more groups may follow, the value so far. */
  function ReadLoop(aval: nat, remaining: nat, cur: byte, rest: seq<byte>): (r: Option<(nat, seq<byte>)>)
    ensures r.Some? ==> |r.value.1| <= |rest|
    decreases remaining
  {
    if remaining == 0 then Some((aval, rest))
    else if cur >= 128 then
      if rest == [] then None else ReadLoop(aval * 128 + (cur - 128), remaining - 1, rest[0], rest[1..])
    else Some((aval * 128 + cur, rest))
  }

  /** ReadVarLenInt on the bytes ahead: the value and what is left, or None at the end of input. */
  function Read(s: seq<byte>): (r: Option<(nat, seq<byte>)>)
    ensures r.Some? ==> |r.value.1| < |s|
  {
    if s == [] then None else ReadLoop(0, 4, s[0], s[1..])
  }

  // ----- what an encoding is

  ghost predicate Framed(bytes: seq<byte>) {
    bytes != [] && bytes[|bytes| - 1] < 128 && forall i :: 0 <= i < |bytes| - 1 ==> bytes[i] >= 128
  }

  function Value(bytes: seq<byte>): nat
  {
    if bytes == [] then 0 else 128 * Value(bytes[..|bytes| - 1]) + bytes[|bytes| - 1] % 128
  }

  function Pow128(n: nat): nat {
    if n == 0 then 1 else 128 * Pow128(n - 1)
  }

  lemma Group(v: nat, mask: nat)
    requires mask == 0 || mask == 128
    ensures (v % 128 + mask) % 128 == v % 128 && 128 * (v / 128) + v % 128 == v
  {
  }

  lemma ValueSnoc(init: seq<byte>, last: byte)
    ensures Value(init + [last]) == 128 * Value(init) + last % 128
  {
    assert (init + [last])[..|init|] == init;
  }

  lemma {:induction false} EncodeValue(v: nat, mask: nat)
    requires mask == 0 || mask == 128
    ensures Value(Encode(v, mask)) == v
  {
    hide Value;
    Group(v, mask);
    var init := if v > 127 then Encode(v / 128, 128) else [];
    ValueSnoc(init, v % 128 + mask);
    if v > 127 {
      EncodeValue(v / 128, 128);
    } else {
      ValueNone();
    }
  }

  lemma ValueNone()
    ensures Value([]) == 0
  {
  }

  lemma {:induction false} EncodeHigh(v: nat)
    ensures forall i :: 0 <= i < |Encode(v, 128)| ==> Encode(v, 128)[i] >= 128
  {
    if v > 127 {
      EncodeHigh(v / 128);
    }
  }

  lemma {:induction false} EncodeMinimal(v: nat, mask: nat)
    requires mask == 0 || mask == 128
    ensures |Encode(v, mask)| > 1 ==> v >= Pow128(|Encode(v, mask)| - 1)
  {
    if v > 127 {
      EncodeMinimal(v / 128, 128);
      var n := |Encode(v / 128, 128)|;
      assert Pow128(n) == 128 * Pow128(n - 1) && Pow128(0) == 1;
      assert v >= 128 * (v / 128);
    }
  }

  lemma EncodeShape(v: nat)
    ensures var b := Encode(v, 0); Value(b) == v && Framed(b) && (|b| > 1 ==> v >= Pow128(|b| - 1))
  {
    EncodeValue(v, 0);
    EncodeMinimal(v, 0);
    if v > 127 {
      EncodeHigh(v / 128);
    }
  }

  lemma {:induction false} ValueBound(bytes: seq<byte>)
    ensures Value(bytes) < Pow128(|bytes|)
  {
    if bytes != [] {
      ValueBound(bytes[..|bytes| - 1]);
    }
  }

  lemma {:induction false} Pow128Monotone(m: nat, n: nat)
    requires m <= n
    ensures Pow128(m) <= Pow128(n)
  {
    if m < n {
      Pow128Monotone(m, n - 1);
    }
  }

  /**
   * Encodings are injective, minimal among the framed byte strings of the same value, and
   * prefix-free: none is the start of another.
   */
  lemma EncodingsAreCanonical(v: nat, w: nat, b: seq<byte>)
    ensures Encode(v, 0) == Encode(w, 0) ==> v == w
    ensures Encode(v, 0) <= Encode(w, 0) ==> v == w
    ensures Framed(b) && Value(b) == v ==> |Encode(v, 0)| <= |b|
  {
    hide Encode, Value;
    EncodeShape(v);
    EncodeShape(w);
    var x, y := Encode(v, 0), Encode(w, 0);
    if x <= y {
      assert y[|x| - 1] == x[|x| - 1] < 128;
      assert |x| == |y|;
    }
    if Framed(b) && Value(b) == v && |b| < |x| {
      ValueBound(b);
      Pow128Monotone(|b|, |x| - 1);
    }
  }

  lemma ThreeGroups(v: nat)
    requires 16384 <= v < 2097152
    ensures Encode(v, 0) == [128 + v / 16384, 128 + v / 128 % 128, v % 128]
  {
    hide Encode;
    var w := v / 128;
    assert w / 128 == v / 16384 && 128 <= w < 16384 && 0 < w / 128 < 128;
    assert Encode(w / 128, 128) == [w / 128 + 128] by { OneGroup(w / 128, 128); }
    OneMore(w, 128);
    OneMore(v, 0);
  }

  lemma OneGroup(v: nat, mask: nat)
    requires v < 128 && (mask == 0 || mask == 128)
    ensures Encode(v, mask) == [v + mask]
  {
  }

  lemma OneMore(v: nat, mask: nat)
    requires v > 127 && (mask == 0 || mask == 128)
    ensures Encode(v, mask) == Encode(v / 128, 128) + [v % 128 + mask]
  {
  }

  /** Base 128, most significant first: the first byte is high, the second low. */
  lemma ShortEncodings(v: nat)
    ensures v < 128 ==> Encode(v, 0) == [v]
    ensures 128 <= v < 16384 ==> Encode(v, 0) == [128 + v / 128, v % 128]
    ensures 16384 <= v < 2097152 ==> Encode(v, 0) == [128 + v / 16384, 128 + v / 128 % 128, v % 128]
  {
    hide Encode;
    if v < 128 {
      OneGroup(v, 0);
    } else if v < 16384 {
      OneGroup(v / 128, 128);
      OneMore(v, 0);
    } else if 16384 <= v < 2097152 {
      ThreeGroups(v);
    }
  }

  /** How many bytes: five exactly from 2^28 on. */
  lemma EncodeLength(v: nat)
    requires v < UINT32
    ensures |Encode(v, 0)| <= 5 && (|Encode(v, 0)| == 5 <==> v >= 0x1000_0000)
  {
    hide Encode, Value;
    EncodeShape(v);
    ValueBound(Encode(v, 0));
    assert Pow128(2) == 0x4000;
    assert Pow128(4) == LIMIT;
    assert Pow128(5) == 128 * LIMIT;
    if |Encode(v, 0)| > 5 {
      Pow128Monotone(5, |Encode(v, 0)| - 1);
    } else if |Encode(v, 0)| < 5 {
      Pow128Monotone(|Encode(v, 0)|, 4);
    }
  }

  /**
   * Reading what was written consumes exactly the written bytes. It gives the value back up to
   * 2^28; of a longer one the reader takes all five bytes but drops the last group.
   */
  lemma ReadBack(v: nat, more: seq<byte>)
    requires v < UINT32
    ensures Read(Encode(v, 0) + more) == Some((if v < 0x1000_0000 then v else v / 128, more))
  {
    hide Encode;
    EncodeShape(v);
    EncodeLength(v);
    var e := Encode(v, 0);
    var s := e + more;
    assert s[|e|..] == more && s[..|e|] == e;
    assert s[..0] == [];
    LoopValue(s, 0, 4, |e|);
    if |e| == 5 {
      assert s[..4] == e[..4];
      Group(v, 0);
    }
  }

  /** Any framed bytes, minimal or not, read as the value of their first four groups. */
  lemma ReadFramed(b: seq<byte>, more: seq<byte>)
    requires Framed(b) && |b| <= 5
    ensures Read(b + more) == Some((Value(b[..if |b| == 5 then 4 else |b|]), more))
  {
    hide Value;
    var s := b + more;
    assert s[|b|..] == more && s[..|b|] == b && s[..0] == [];
    assert s[..if |b| == 5 then 4 else |b|] == b[..if |b| == 5 then 4 else |b|];
    assert Value([]) == 0 by { ValueNone(); }
    LoopValue(s, 0, 4, |b|);
  }

  lemma ValueStep(s: seq<byte>, i: nat)
    requires i < |s|
    ensures Value(s[..i + 1]) == 128 * Value(s[..i]) + s[i] % 128
    ensures s[i] % 128 == if s[i] >= 128 then s[i] - 128 else s[i]
  {
    assert s[..i + 1][..i] == s[..i];
  }

  // The reader's loop over `n` framed bytes at the start of `s`: after i groups it holds the
  // value of the first i bytes.
  lemma {:induction false} LoopValue(s: seq<byte>, i: nat, remaining: nat, n: nat)
    requires i < n <= 5 && n <= |s| && remaining == 4 - i
    requires s[n - 1] < 128 && forall j :: 0 <= j < n - 1 ==> s[j] >= 128
    ensures ReadLoop(Value(s[..i]), remaining, s[i], s[i + 1..]) == Some((Value(s[..if n == 5 then 4 else n]), s[n..]))
    decreases n - i
  {
    hide Value;
    ValueStep(s, i);
    if remaining > 0 && i < n - 1 {
      assert s[i] >= 128;
      assert s[i + 1..][0] == s[i + 1] && s[i + 1..][1..] == s[i + 2..];
      LoopValue(s, i + 1, remaining - 1, n);
    }
  }

  /** Reading takes at least one byte and never looks past what it takes. */
  lemma {:induction false} ReadLocal(s: seq<byte>, more: seq<byte>)
    requires Read(s).Some?
    ensures Read(s + more) == Some((Read(s).value.0, Read(s).value.1 + more))
  {
    assert (s + more)[1..] == s[1..] + more;
    LoopLocal(0, 4, s[0], s[1..], more);
  }

  lemma {:induction false} LoopLocal(aval: nat, remaining: nat, cur: byte, rest: seq<byte>, more: seq<byte>)
    requires ReadLoop(aval, remaining, cur, rest).Some?
    ensures var r := ReadLoop(aval, remaining, cur, rest).value;
            ReadLoop(aval, remaining, cur, rest + more) == Some((r.0, r.1 + more))
    decreases remaining
  {
    if remaining > 0 && cur >= 128 {
      assert (rest + more)[1..] == rest[1..] + more;
      LoopLocal(aval * 128 + (cur - 128), remaining - 1, rest[0], rest[1..], more);
    }
  }

  // No value read is 2^28 or more.
  lemma ReadBound(s: seq<byte>)
    ensures Read(s).Some? ==> Read(s).value.0 < 0x1000_0000
  {
    assert Pow128(2) == 0x4000;
    assert Pow128(4) == LIMIT;
    if s != [] {
      LoopBound(0, 4, s[0], s[1..]);
    }
  }

  lemma {:induction false} LoopBound(aval: nat, remaining: nat, cur: byte, rest: seq<byte>)
    requires remaining <= 4 && aval < Pow128(4 - remaining)
    ensures var r := ReadLoop(aval, remaining, cur, rest); r.Some? ==> r.value.0 < Pow128(4)
    decreases remaining
  {
    if remaining > 0 {
      assert Pow128(4 - remaining + 1) == 128 * Pow128(4 - remaining);
      if cur >= 128 && rest != [] {
        LoopBound(aval * 128 + (cur - 128), remaining - 1, rest[0], rest[1..]);
      } else if cur < 128 {
        Pow128Monotone(5 - remaining, 4);
      }
    }
  }
}

// The wire format of a packet (packets/packets.go:776-916): a command byte, a count, the
// lengths of the arguments, and then all their bytes.
module Wire {
  import opened Common
  import V = Varint

  const MAX_ARGS := 128
  const MAX_BYTES := 8000000

  // `Universal`: the command byte and the arguments.
  datatype Universal = Universal(cmd: byte, args: seq<seq<byte>>)

  function Lens(args: seq<seq<byte>>): seq<byte>
  {
    if args == [] then [] else V.Encode(|args[0]|, 0) + Lens(args[1..])
  }

  function Flat(args: seq<seq<byte>>): seq<byte>
  {
    if args == [] then [] else args[0] + Flat(args[1..])
  }

  // The packets that Write accepts and ReadUniversal takes back.
  predicate Fits(u: Universal) {
    |u.args| < 128 && |Flat(u.args)| < 8000000
  }

  /** Universal.Write, for fewer than 128 arguments. */
  function Encode(u: Universal): seq<byte>
    requires |u.args| < MAX_ARGS
  {
    [u.cmd, |u.args|] + Lens(u.args) + Flat(u.args)
  }

  /** The lengths that ReadArrayOfByteArray reads first. */
  function ReadLens(s: seq<byte>, n: nat): (r: Option<(seq<nat>, seq<byte>)>)
    ensures r.Some? ==> |r.value.0| == n && |r.value.1| <= |s|
    decreases n
  {
    if n == 0 then Some(([], s))
    else
      match V.Read(s)
      case None => None
      case Some((len, rest)) =>
        match ReadLens(rest, n - 1)
        case None => None
        case Some((lens, left)) => Some(([len] + lens, left))
  }

  function Sum(lens: seq<nat>): nat
  {
    if lens == [] then 0 else lens[0] + Sum(lens[1..])
  }

  /** Slice consecutive arguments of the given lengths out of `bytes`. */
  function Slices(lens: seq<nat>, bytes: seq<byte>): (args: seq<seq<byte>>)
    requires Sum(lens) <= |bytes|
    ensures |args| == |lens|
  {
    if lens == [] then [] else [bytes[..lens[0]]] + Slices(lens[1..], bytes[lens[0]..])
  }

  /** ReadArrayOfByteArray. */
  function DecodeArgs(s: seq<byte>): (r: Option<(seq<seq<byte>>, seq<byte>)>)
    ensures r.Some? ==> |r.value.1| < |s|
  {
    if s == [] || s[0] >= 128 then None
    else
      match ReadLens(s[1..], s[0])
      case None => None
      case Some((lens, rest)) =>
        if Sum(lens) >= MAX_BYTES || |rest| < Sum(lens) then None
        else Some((Slices(lens, rest), rest[Sum(lens)..]))
  }

  /** ReadUniversal: the packet and the bytes after it, or None for any of its errors. */
  function Decode(s: seq<byte>): (r: Option<(Universal, seq<byte>)>)
    ensures r.Some? ==> |r.value.1| < |s|
  {
    if s == [] then None
    else
      match DecodeArgs(s[1..])
      case None => None
      case Some((args, rest)) => Some((Universal(s[0], args), rest))
  }

  // ----- round trip of one packet

  lemma {:induction false} FlatLens(args: seq<seq<byte>>)
    ensures Sum(LenList(args)) == |Flat(args)|
  {
    if args != [] {
      FlatLens(args[1..]);
      assert LenList(args)[1..] == LenList(args[1..]);
    }
  }

  function LenList(args: seq<seq<byte>>): (lens: seq<nat>)
    ensures |lens| == |args|
  {
    if args == [] then [] else [|args[0]|] + LenList(args[1..])
  }

  lemma {:induction false} LensBack(args: seq<seq<byte>>, more: seq<byte>)
    requires |Flat(args)| < MAX_BYTES
    ensures ReadLens(Lens(args) + more, |args|) == Some((LenList(args), more))
    decreases |args|
  {
    if args == [] {
      assert Lens(args) + more == more;
    } else {
      var rest := Lens(args[1..]) + more;
      assert Lens(args) + more == V.Encode(|args[0]|, 0) + rest;
      V.ReadBack(|args[0]|, rest);
      LensBack(args[1..], more);
    }
  }

  lemma {:induction false} SlicesBack(args: seq<seq<byte>>, more: seq<byte>)
    ensures Sum(LenList(args)) == |Flat(args)|
    ensures Slices(LenList(args), Flat(args) + more) == args
  {
    FlatLens(args);
    if args != [] {
      var s := Flat(args) + more;
      SlicesBack(args[1..], more);
      assert s[..|args[0]|] == args[0];
      assert s[|args[0]|..] == Flat(args[1..]) + more;
      assert LenList(args)[1..] == LenList(args[1..]);
    }
  }

  /** The layout: command, count, the lengths in order, then the arguments in order. */
  lemma {:induction false} Layout(cmd: byte, args: seq<seq<byte>>, last: seq<byte>)
    requires |args| < 127
    ensures Encode(Universal(cmd, [])) == [cmd, 0]
    ensures var head, e := Encode(Universal(cmd, args)), Encode(Universal(cmd, args + [last]));
            && e[0] == cmd && e[1] == |args| + 1
            && e[2..] == head[2..|head| - |Flat(args)|] + V.Encode(|last|, 0) + Flat(args) + last
  {
    LensSnoc(args, last);
    var e := Encode(Universal(cmd, args + [last]));
    var head := Encode(Universal(cmd, args));
    assert head[2..|head| - |Flat(args)|] == Lens(args);
    assert e[2..] == Lens(args + [last]) + Flat(args + [last]);
  }

  lemma {:induction false} LensSnoc(args: seq<seq<byte>>, last: seq<byte>)
    ensures Lens(args + [last]) == Lens(args) + V.Encode(|last|, 0)
    ensures Flat(args + [last]) == Flat(args) + last
  {
    if args == [] {
      assert [] + [last] == [last] && [last][1..] == [];
    } else {
      LensSnoc(args[1..], last);
      assert (args + [last])[1..] == args[1..] + [last];
    }
  }

  /** One packet is read back from the front of any stream, and nothing after it is touched. */
  lemma PacketBack(u: Universal, more: seq<byte>)
    requires Fits(u)
    ensures Decode(Encode(u) + more) == Some((u, more))
  {
    var body := Flat(u.args) + more;
    var s := Encode(u) + more;
    assert s[1..][1..] == Lens(u.args) + body;
    LensBack(u.args, body);
    SlicesBack(u.args, more);
    assert body[|Flat(u.args)|..] == more;
  }

  // ----- reading looks at nothing beyond the packet

  lemma {:induction false} LensLocal(s: seq<byte>, n: nat, more: seq<byte>)
    requires ReadLens(s, n).Some?
    ensures ReadLens(s + more, n) == Some((ReadLens(s, n).value.0, ReadLens(s, n).value.1 + more))
    decreases n
  {
    if n > 0 {
      V.ReadLocal(s, more);
      LensLocal(V.Read(s).value.1, n - 1, more);
    }
  }

  lemma {:induction false} SlicesLocal(lens: seq<nat>, bytes: seq<byte>, more: seq<byte>)
    requires Sum(lens) <= |bytes|
    ensures Slices(lens, bytes + more) == Slices(lens, bytes)
  {
    if lens != [] {
      SlicesLocal(lens[1..], bytes[lens[0]..], more);
      assert (bytes + more)[..lens[0]] == bytes[..lens[0]];
      assert (bytes + more)[lens[0]..] == bytes[lens[0]..] + more;
    }
  }

  lemma DecodeLocal(s: seq<byte>, more: seq<byte>)
    requires Decode(s).Some?
    ensures Decode(s + more) == Some((Decode(s).value.0, Decode(s).value.1 + more))
  {
    assert (s + more)[1..][1..] == s[1..][1..] + more;
    LensLocal(s[1..][1..], s[1], more);
    var r := ReadLens(s[1..][1..], s[1]).value;
    SlicesLocal(r.0, r.1, more);
    assert (r.1 + more)[Sum(r.0)..] == r.1[Sum(r.0)..] + more;
  }

  /** No strict prefix of a written packet decodes to anything. */
  lemma NoPrefixDecodes(u: Universal, n: nat)
    requires Fits(u) && n < |Encode(u)|
    ensures Decode(Encode(u)[..n]).None?
  {
    var e := Encode(u);
    assert e == e[..n] + e[n..] && e + [] == e;
    PacketBack(u, []);
    if Decode(e[..n]).Some? {
      DecodeLocal(e[..n], e[n..]);
    }
  }

  // ----- whatever decodes survives

  lemma {:induction false} SlicesFlat(lens: seq<nat>, bytes: seq<byte>)
    requires Sum(lens) <= |bytes|
    ensures Flat(Slices(lens, bytes)) == bytes[..Sum(lens)]
  {
    if lens != [] {
      SlicesFlat(lens[1..], bytes[lens[0]..]);
      assert bytes[..Sum(lens)] == bytes[..lens[0]] + bytes[lens[0]..][..Sum(lens[1..])];
    }
  }

  /** What any bytes decode to fits, and so survives being written and read again. */
  lemma DecodedSurvives(s: seq<byte>, more: seq<byte>)
    requires Decode(s).Some?
    ensures var u := Decode(s).value.0; Fits(u) && Decode(Encode(u) + more) == Some((u, more))
  {
    var r := ReadLens(s[1..][1..], s[1]).value;
    SlicesFlat(r.0, r.1);
    PacketBack(Decode(s).value.0, more);
  }

  // ----- streams

  predicate AllFit(us: seq<Universal>) {
    forall i :: 0 <= i < |us| ==> Fits(us[i])
  }

  function EncodeAll(us: seq<Universal>): seq<byte>
    requires AllFit(us)
  {
    if us == [] then [] else Encode(us[0]) + EncodeAll(us[1..])
  }

  /** Read packets until the stream ends or one fails: the packets and what was left. */
  function DecodeAll(s: seq<byte>): (seq<Universal>, seq<byte>)
    decreases |s|
  {
    var r := Decode(s);
    if r.None? then ([], s)
    else
      var (us, left) := DecodeAll(r.value.1);
      ([r.value.0] + us, left)
  }

  lemma {:induction false} StreamBack(us: seq<Universal>, tail: seq<byte>)
    requires AllFit(us) && Decode(tail).None?
    ensures DecodeAll(EncodeAll(us) + tail) == (us, tail)
  {
    hide Encode, Decode;
    if us == [] {
      assert EncodeAll(us) + tail == tail;
    } else {
      var rest := EncodeAll(us[1..]) + tail;
      assert EncodeAll(us) + tail == Encode(us[0]) + rest;
      PacketBack(us[0], rest);
      StreamBack(us[1..], tail);
      assert us == [us[0]] + us[1..];
    }
  }

  /**
   * Any sequence of packets written back to back reads back as the same sequence with nothing
   * left over; cut short anywhere inside a packet, it reads back as the packets before the cut.
   */
  lemma StreamRoundTrip(us: seq<Universal>, last: Universal, n: nat)
    requires AllFit(us) && Fits(last) && n < |Encode(last)|
    ensures DecodeAll(EncodeAll(us)) == (us, [])
    ensures DecodeAll(EncodeAll(us) + Encode(last)[..n]) == (us, Encode(last)[..n])
  {
    NoPrefixDecodes(last, n);
    StreamBack(us, Encode(last)[..n]);
    StreamBack(us, []);
    assert EncodeAll(us) + [] == EncodeAll(us);
  }
}

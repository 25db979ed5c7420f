// The readers and writers of packets/packets.go as they run, on a stream that moves under them.
// Each is proved to do to the stream what the functions of Varint.dfy and Wire.dfy say.
module WireStream {
  import opened Common
  import opened Wire

  // An io.Writer that never fails.
  class Writer {
    var bytes: seq<byte>

    constructor ()
      ensures bytes == []
    {
      bytes := [];
    }

    method Write(b: seq<byte>)
      modifies this
      ensures bytes == old(bytes) + b
    {
      bytes := bytes + b;
    }

    method WriteVarLenInt(v: nat, mask: nat)
      requires mask == 0 || mask == 128
      modifies this
      ensures bytes == old(bytes) + V.Encode(v, mask)
      decreases v
    {
      if v > 127 {
        WriteVarLenInt(v / 128, 128);
      }
      Write([v % 128 + mask]);
    }

    /** WriteArrayOfByteArray: nothing is written of 128 arguments or more. */
    method WriteArrayOfByteArray(args: seq<seq<byte>>) returns (ok: bool)
      modifies this
      ensures ok == (|args| < MAX_ARGS)
      ensures bytes == old(bytes) + if ok then [|args|] + Lens(args) + Flat(args) else []
    {
      if |args| >= MAX_ARGS {
        return false;
      }
      Write([|args|]);
      WriteLengths(args);
      WriteBytes(args);
      ok := true;
    }

    method WriteLengths(args: seq<seq<byte>>)
      modifies this
      ensures bytes == old(bytes) + Lens(args)
    {
      hide V.Encode;
      assert args[0..] == args;
      for i := 0 to |args|
        invariant old(bytes) + Lens(args) == bytes + Lens(args[i..])
      {
        assert args[i..][1..] == args[i + 1..];
        assert bytes + Lens(args[i..]) == (bytes + V.Encode(|args[i]|, 0)) + Lens(args[i + 1..]);
        WriteVarLenInt(|args[i]|, 0);
      }
    }

    method WriteBytes(args: seq<seq<byte>>)
      modifies this
      ensures bytes == old(bytes) + Flat(args)
    {
      assert args[0..] == args;
      for i := 0 to |args|
        invariant old(bytes) + Flat(args) == bytes + Flat(args[i..])
      {
        assert args[i..][1..] == args[i + 1..];
        assert bytes + Flat(args[i..]) == (bytes + args[i]) + Flat(args[i + 1..]);
        Write(args[i]);
      }
    }

    /** Universal.Write: the command byte goes out even when the arguments are refused. */
    method WriteUniversal(u: Universal) returns (ok: bool)
      modifies this
      ensures ok == (|u.args| < MAX_ARGS)
      ensures bytes == old(bytes) + if ok then Encode(u) else [u.cmd]
    {
      hide Lens, Flat, Encode;
      Write([u.cmd]);
      ok := WriteArrayOfByteArray(u.args);
      if ok {
        EncodeParts(u, old(bytes));
      }
    }
  }

  lemma EncodeParts(u: Universal, before: seq<byte>)
    requires |u.args| < MAX_ARGS
    ensures before + [u.cmd] + ([|u.args|] + Lens(u.args) + Flat(u.args)) == before + Encode(u)
  {
    hide Lens, Flat;
    Regroup(before, [u.cmd], [|u.args|], Lens(u.args), Flat(u.args));
    assert [u.cmd] + [|u.args|] == [u.cmd, |u.args|];
  }

  lemma Regroup(a: seq<byte>, b: seq<byte>, c: seq<byte>, d: seq<byte>, e: seq<byte>)
    ensures a + b + (c + d + e) == a + (b + c + d + e)
  {
  }

  // An io.Reader over the bytes that are still to come.
  class Reader {
    var rest: seq<byte>

    constructor (s: seq<byte>)
      ensures rest == s
    {
      rest := s;
    }

    method ReadByte() returns (b: Option<byte>)
      modifies this
      ensures old(rest) == [] ==> b == None && rest == []
      ensures old(rest) != [] ==> b == Some(old(rest)[0]) && rest == old(rest)[1..]
    {
      if rest == [] {
        return None;
      }
      b := Some(rest[0]);
      rest := rest[1..];
    }

    method ReadVarLenInt() returns (v: Option<nat>)
      modifies this
      ensures var r := V.Read(old(rest));
              && v.Some? == r.Some?
              && (r.Some? ==> v == Some(r.value.0) && rest == r.value.1)
    {
      var oneByte := ReadByte();
      if oneByte.None? {
        return None;
      }
      var aval: nat, remaining: nat, cur: byte := 0, 4, oneByte.value;
      while remaining != 0
        invariant 0 <= remaining <= 4
        invariant V.Read(old(rest)) == V.ReadLoop(aval, remaining, cur, rest)
        decreases remaining
      {
        if cur >= 128 {
          aval := aval * 128 + (cur - 128);
          remaining := remaining - 1;
          oneByte := ReadByte();
          if oneByte.None? {
            return None;
          }
          cur := oneByte.value;
        } else {
          return Some(aval * 128 + cur);
        }
      }
      return Some(aval);
    }

    /** ReadArrayOfByteArray: first the lengths, into a buffer, then all bytes at once. */
    method ReadArrayOfByteArray() returns (args: Option<seq<seq<byte>>>)
      modifies this
      ensures var r := DecodeArgs(old(rest));
              && args.Some? == r.Some?
              && (r.Some? ==> args == Some(r.value.0) && rest == r.value.1)
    {
      var argsLen := ReadByte();
      if argsLen.None? || argsLen.value >= 128 {
        return None;
      }
      var lengths := new nat[128];
      var ok, total := ReadLengths(lengths, argsLen.value);
      if !ok || total >= MAX_BYTES || |rest| < total {
        return None;
      }
      var bytes := rest[..total];
      ghost var was := rest;
      rest := rest[total..];
      SlicesLocal(lengths[..argsLen.value], bytes, rest);
      assert was == bytes + rest;
      var list := CutArgs(lengths, argsLen.value, bytes);
      args := Some(list);
    }

    method ReadLengths(lengths: array<nat>, n: nat) returns (ok: bool, total: nat)
      requires n <= lengths.Length
      modifies this, lengths
      ensures var r := ReadLens(old(rest), n);
              && ok == r.Some?
              && (ok ==> lengths[..n] == r.value.0 && total == Sum(r.value.0) && rest == r.value.1)
    {
      ok, total := true, 0;
      assert lengths[..0] == [];
      for i := 0 to n
        invariant ok
        invariant total == Sum(lengths[..i])
        invariant Onward(old(rest), n, lengths[..i], rest)
      {
        ghost var left, before := rest, lengths[..i];
        var aval := ReadVarLenInt();
        OnwardStep(old(rest), n, before, left);
        if aval.None? {
          return false, total;
        }
        lengths[i] := aval.value;
        total := total + aval.value;
        assert lengths[..i + 1] == before + [aval.value];
        SumAppend(before, aval.value);
      }
    }

    /** ReadUniversal. */
    method ReadUniversal() returns (u: Option<Universal>)
      modifies this
      ensures var r := Decode(old(rest));
              && u.Some? == r.Some?
              && (r.Some? ==> u == Some(r.value.0) && rest == r.value.1)
    {
      var cmd := ReadByte();
      if cmd.None? {
        return None;
      }
      var args := ReadArrayOfByteArray();
      if args.None? {
        return None;
      }
      u := Some(Universal(cmd.value, args.value));
    }
  }

  /** Slice the arguments out of the bytes read. */
  method CutArgs(lengths: array<nat>, n: nat, bytes: seq<byte>) returns (args: seq<seq<byte>>)
    requires n <= lengths.Length && Sum(lengths[..n]) == |bytes|
    ensures args == Slices(lengths[..n], bytes)
  {
    args := [];
    var position := 0;
    ghost var lens := lengths[..n];
    for i := 0 to n
      invariant 0 <= position <= |bytes| && Sum(lens[i..]) == |bytes| - position
      invariant args + Slices(lens[i..], bytes[position..]) == Slices(lens, bytes)
    {
      assert lens[i..][1..] == lens[i + 1..] && lens[i..][0] == lengths[i];
      assert bytes[position..][..lengths[i]] == bytes[position..position + lengths[i]];
      assert bytes[position..][lengths[i]..] == bytes[position + lengths[i]..];
      args := args + [bytes[position..position + lengths[i]]];
      position := position + lengths[i];
    }
  }

  lemma {:induction false} SumAppend(lens: seq<nat>, last: nat)
    ensures Sum(lens + [last]) == Sum(lens) + last
  {
    if lens != [] {
      SumAppend(lens[1..], last);
      assert (lens + [last])[1..] == lens[1..] + [last];
    }
  }

  // Reading `n` lengths from `s` comes to reading the remaining ones from `left`.
  ghost predicate Onward(s: seq<byte>, n: nat, got: seq<nat>, left: seq<byte>)
    requires |got| <= n
  {
    var all, more := ReadLens(s, n), ReadLens(left, n - |got|);
    && all.Some? == more.Some?
    && (all.Some? ==> all.value.0 == got + more.value.0 && all.value.1 == more.value.1)
  }

  lemma OnwardStep(s: seq<byte>, n: nat, got: seq<nat>, left: seq<byte>)
    requires |got| < n && Onward(s, n, got, left)
    ensures var r := V.Read(left);
            if r.None? then ReadLens(s, n).None? else Onward(s, n, got + [r.value.0], r.value.1)
  {
    hide V.Read;
    var r := V.Read(left);
    if r.Some? {
      OnwardMore(ReadLens(s, n), got, r.value.0, ReadLens(r.value.1, n - |got| - 1));
    }
  }

  lemma OnwardMore(all: Option<(seq<nat>, seq<byte>)>, got: seq<nat>, len: nat, more: Option<(seq<nat>, seq<byte>)>)
    ensures more.Some? ==> got + ([len] + more.value.0) == got + [len] + more.value.0
  {
  }
}

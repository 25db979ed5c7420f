// The typed packets (packets/packets.go:64-155, 318-491, 683-774): addresses, options, and the
// way each kind is laid out in the arguments of a Universal.
module Packets {
  import opened Common
  import opened Lex
  import opened Wire

  // ----- addresses

  const BINARY: byte := 0
  const HEX: byte := 36    // '$'
  const BASE64: byte := 61 // '='
  const UTF8: byte := 32   // ' '

  datatype Address = Address(kind: byte, bytes: seq<byte>)

  /** AddressUnion.ToBytes: UTF-8 addresses get no leading space. */
  function ToBytes(a: Address): seq<byte> {
    if a.kind == UTF8 then a.bytes else [a.kind] + a.bytes
  }

  /** AddressUnion.FromBytes. */
  function FromBytes(b: seq<byte>): Address {
    if b == [] then Address(UTF8, b)
    else
      var first, more := b[0], b[1..];
      if first == BINARY && |more| == 24 then Address(BINARY, more)
      else if first == HEX && |more| == 48 then Address(HEX, more)
      else if first == BASE64 && |more| == 32 then Address(BASE64, more)
      else if first == UTF8 then Address(UTF8, more)
      else Address(UTF8, b)
  }

  // A coded address of the right length, or a text that cannot be taken for one.
  predicate Canonical(a: Address) {
    || (a.kind == BINARY && |a.bytes| == 24)
    || (a.kind == HEX && |a.bytes| == 48)
    || (a.kind == BASE64 && |a.bytes| == 32)
    || (a.kind == UTF8 && !LooksCoded(a.bytes))
  }

  predicate LooksCoded(b: seq<byte>) {
    b != [] && (|| b[0] == UTF8
                || (b[0] == BINARY && |b| == 25)
                || (b[0] == HEX && |b| == 49)
                || (b[0] == BASE64 && |b| == 33))
  }

  /** Exactly the canonical addresses survive the wire. */
  lemma AddressRoundTrip(a: Address)
    ensures FromBytes(ToBytes(a)) == a <==> Canonical(a)
  {
    if a.kind != UTF8 {
      assert ToBytes(a)[1..] == a.bytes;
      assert |ToBytes(a)| == |a.bytes| + 1;
    } else if a.bytes != [] {
      assert |a.bytes[1..]| < |a.bytes|;
    }
  }

  // ----- options

  datatype Pair = Pair(key: seq<byte>, value: seq<byte>)

  // The red-black tree of options, as the sequence its iterator visits.
  type Tree = seq<Pair>

  ghost predicate Sorted(t: Tree) {
    forall i, j :: 0 <= i < j < |t| ==> Less(t[i].key, t[j].key)
  }

  /** Put: insert in key order, or replace. */
  function Put(t: Tree, key: seq<byte>, value: seq<byte>): Tree
  {
    if t == [] || Less(key, t[0].key) then [Pair(key, value)] + t
    else if t[0].key == key then [Pair(key, value)] + t[1..]
    else [t[0]] + Put(t[1..], key, value)
  }

  lemma {:induction false} PutSorted(t: Tree, key: seq<byte>, value: seq<byte>)
    requires Sorted(t)
    ensures Sorted(Put(t, key, value))
    ensures forall p :: p in Put(t, key, value) <==> p == Pair(key, value) || (p in t && p.key != key)
  {
    if t != [] {
      var tail := t[1..];
      assert t == [t[0]] + tail;
      assert forall j :: 0 <= j < |tail| ==> Less(t[0].key, tail[j].key);
      Total(key, t[0].key);
      forall j | 0 <= j < |tail| ensures tail[j].key != t[0].key && (Less(key, t[0].key) ==> Less(key, tail[j].key)) {
        Irreflexive(t[0].key);
        Transitive(key, t[0].key, tail[j].key);
      }
      if !Less(key, t[0].key) && t[0].key != key {
        PutSorted(tail, key, value);
        var rest := Put(tail, key, value);
        forall j | 0 <= j < |rest| ensures Less(t[0].key, rest[j].key) {
          assert rest[j] in rest;
        }
      } else if Less(key, t[0].key) {
        forall p | p in t ensures p.key != key {
          Irreflexive(key);
        }
      }
    }
  }

  // A key above all others goes to the end.
  lemma {:induction false} PutLast(t: Tree, key: seq<byte>, value: seq<byte>)
    requires forall i :: 0 <= i < |t| ==> Less(t[i].key, key)
    ensures Put(t, key, value) == t + [Pair(key, value)]
  {
    if t != [] {
      Total(t[0].key, key);
      PutLast(t[1..], key, value);
    }
  }

  /** packOptions. */
  function Pack(t: Tree): seq<seq<byte>>
  {
    if t == [] then [] else [t[0].key, t[0].value] + Pack(t[1..])
  }

  /** unpackOptions: key and value in turn, empty keys skipped, an odd one at the end ignored. */
  function Unpack(t: Tree, args: seq<seq<byte>>): Tree
    decreases |args|
  {
    if |args| < 2 then t
    else Unpack(if args[0] == [] then t else Put(t, args[0], args[1]), args[2..])
  }

  ghost predicate NoEmptyKey(t: Tree) {
    forall i :: 0 <= i < |t| ==> t[i].key != []
  }

  lemma {:induction false} UnpackPack(done: Tree, t: Tree)
    requires Sorted(done + t) && NoEmptyKey(t)
    ensures Unpack(done, Pack(t)) == done + t
    decreases |t|
  {
    if t == [] {
      assert done + t == done;
    } else {
      var more := done + [t[0]];
      forall i | 0 <= i < |done| ensures Less(done[i].key, t[0].key) {
        assert (done + t)[i] == done[i] && (done + t)[|done|] == t[0];
      }
      PutLast(done, t[0].key, t[0].value);
      assert done + t == more + t[1..];
      assert Pack(t)[2..] == Pack(t[1..]);
      UnpackPack(more, t[1..]);
    }
  }

  lemma {:induction false} UnpackKeys(t: Tree, args: seq<seq<byte>>)
    requires Sorted(t) && NoEmptyKey(t)
    ensures Sorted(Unpack(t, args)) && NoEmptyKey(Unpack(t, args))
    decreases |args|
  {
    if |args| >= 2 {
      if args[0] != [] {
        PutSorted(t, args[0], args[1]);
        var u := Put(t, args[0], args[1]);
        forall i | 0 <= i < |u| ensures u[i].key != [] {
          assert u[i] in u;
        }
        UnpackKeys(u, args[2..]);
      } else {
        UnpackKeys(t, args[2..]);
      }
    }
  }

  /** Options survive the wire exactly when no key is empty. */
  lemma OptionsRoundTrip(t: Tree)
    requires Sorted(t)
    ensures Unpack([], Pack(t)) == t <==> NoEmptyKey(t)
  {
    if NoEmptyKey(t) {
      assert [] + t == t;
      UnpackPack([], t);
    }
    UnpackKeys([], Pack(t));
  }

  lemma {:induction false} PackAt(t: Tree, i: nat)
    requires i < |t|
    ensures |Pack(t)| == 2 * |t| && Pack(t)[2 * i] == t[i].key && Pack(t)[2 * i + 1] == t[i].value
  {
    if i > 0 {
      PackAt(t[1..], i - 1);
    } else if |t| > 1 {
      PackAt(t[1..], 0);
    }
  }

  // The pair of arguments 2j and 2j + 1 is the last whole pair with this key.
  ghost predicate LastPair(args: seq<seq<byte>>, j: nat, key: seq<byte>) {
    && 2 * j + 1 < |args| && args[2 * j] == key
    && forall k :: j < k && 2 * k + 1 < |args| ==> args[2 * k] != key
  }

  ghost predicate Names(args: seq<seq<byte>>, key: seq<byte>) {
    exists j: nat :: LastPair(args, j, key)
  }

  ghost predicate Gives(args: seq<seq<byte>>, key: seq<byte>, value: seq<byte>) {
    exists j: nat :: LastPair(args, j, key) && args[2 * j + 1] == value
  }

  /** An option read from the wire has the value of the last pair with its key, unless that is empty. */
  lemma {:induction false} UnpackMeans(t: Tree, args: seq<seq<byte>>, key: seq<byte>, value: seq<byte>)
    requires Sorted(t)
    ensures Pair(key, value) in Unpack(t, args) <==>
            if key != [] && Names(args, key) then Gives(args, key, value) else Pair(key, value) in t
    decreases |args|
  {
    hide Names, Gives, Sorted, Put;
    if |args| >= 2 {
      PutSorted(t, args[0], args[1]);
      UnpackMeans(if args[0] == [] then t else Put(t, args[0], args[1]), args[2..], key, value);
      NamesStep(args, key);
      GivesStep(args, key, value);
    } else {
      assert !Names(args, key) by { NoPairs(args, key); }
    }
  }

  lemma NoPairs(args: seq<seq<byte>>, key: seq<byte>)
    requires |args| < 2
    ensures !Names(args, key)
  {
  }

  lemma NamesStep(args: seq<seq<byte>>, key: seq<byte>)
    requires |args| >= 2
    ensures Names(args, key) <==> args[0] == key || Names(args[2..], key)
  {
    hide LastPair;
    if args[0] == key {
      FindLast(args, 0, key);
    }
    if Names(args, key) {
      var j: nat :| LastPair(args, j, key);
      if j > 0 {
        PairLater(args, j - 1, key);
      } else {
        assert args[0] == key by { PairKey(args, 0, key); }
      }
    }
    if Names(args[2..], key) {
      var j: nat :| LastPair(args[2..], j, key);
      PairLater(args, j, key);
    }
  }

  lemma GivesStep(args: seq<seq<byte>>, key: seq<byte>, value: seq<byte>)
    requires |args| >= 2
    ensures Gives(args, key, value) <==>
            || Gives(args[2..], key, value)
            || (args[0] == key && args[1] == value && !Names(args[2..], key))
    ensures Gives(args[2..], key, value) ==> Names(args[2..], key)
  {
    var more := args[2..];
    if Gives(args, key, value) {
      var j: nat :| LastPair(args, j, key) && args[2 * j + 1] == value;
      PairKey(args, j, key);
      if j > 0 {
        PairLater(args, j - 1, key);
        assert more[2 * (j - 1) + 1] == value;
      } else {
        PairFirst(args, key);
      }
    }
    if Gives(more, key, value) {
      var j: nat :| LastPair(more, j, key) && more[2 * j + 1] == value;
      PairLater(args, j, key);
      PairKey(more, j, key);
      assert args[2 * (j + 1) + 1] == value;
    }
    if args[0] == key && args[1] == value && !Names(more, key) {
      PairFirst(args, key);
      assert LastPair(args, 0, key) && args[2 * 0 + 1] == value;
    }
  }

  lemma PairKey(args: seq<seq<byte>>, j: nat, key: seq<byte>)
    requires LastPair(args, j, key)
    ensures 2 * j + 1 < |args| && args[2 * j] == key
  {
  }

  lemma PairFirst(args: seq<seq<byte>>, key: seq<byte>)
    requires |args| >= 2
    ensures LastPair(args, 0, key) <==> args[0] == key && !Names(args[2..], key)
  {
    if Names(args[2..], key) {
      var j: nat :| LastPair(args[2..], j, key);
      assert args[2 * (j + 1)] == key;
    }
    if args[0] == key && !LastPair(args, 0, key) {
      var k :| 0 < k && 2 * k + 1 < |args| && args[2 * k] == key;
      assert args[2..][2 * (k - 1)] == key;
      FindLast(args[2..], k - 1, key);
    }
  }

  lemma PairLater(args: seq<seq<byte>>, j: nat, key: seq<byte>)
    requires |args| >= 2
    ensures LastPair(args[2..], j, key) <==> LastPair(args, j + 1, key)
  {
    var more := args[2..];
    assert forall k: nat :: 2 * k + 1 < |more| ==> more[2 * k] == args[2 * (k + 1)];
    if LastPair(more, j, key) {
      forall k | j + 1 < k && 2 * k + 1 < |args| ensures args[2 * k] != key {
        assert more[2 * (k - 1)] == args[2 * k];
      }
    }
  }

  lemma {:induction false} FindLast(args: seq<seq<byte>>, k: nat, key: seq<byte>)
    requires 2 * k + 1 < |args| && args[2 * k] == key
    ensures Names(args, key)
    decreases |args| - k
  {
    if !LastPair(args, k, key) {
      var m :| k < m && 2 * m + 1 < |args| && args[2 * m] == key;
      FindLast(args, m, key);
    }
  }

  lemma UnpackTwo(t: Tree, args: seq<seq<byte>>, i: nat)
    requires 0 < i < |args|
    ensures Unpack(t, args[i - 1..]) ==
            Unpack(if args[i - 1] == [] then t else Put(t, args[i - 1], args[i]), args[i + 1..])
  {
    hide Put;
    assert args[i - 1..][2..] == args[i + 1..];
  }

  lemma UnpackEnd(t: Tree, args: seq<seq<byte>>)
    requires |args| < 2
    ensures Unpack(t, args) == t
  {
  }

  // The options of a packet, changed in place.
  class Options {
    var tree: Tree

    constructor ()
      ensures tree == []
    {
      tree := [];
    }

    method SetOption(key: seq<byte>, value: seq<byte>)
      modifies this
      ensures tree == Put(old(tree), key, value)
    {
      tree := Put(tree, key, value);
    }

    method UnpackOptions(args: seq<seq<byte>>)
      modifies this
      ensures tree == Unpack(old(tree), args)
    {
      hide Put, Unpack;
      var key := [110, 111, 110, 101]; // "none"
      var i := 0;
      assert args[0..] == args;
      while i < |args|
        invariant 0 <= i <= |args|
        invariant i % 2 == 0 ==> Unpack(old(tree), args) == Unpack(tree, args[i..])
        invariant i % 2 == 1 ==> key == args[i - 1] && Unpack(old(tree), args) == Unpack(tree, args[i - 1..])
      {
        if i % 2 == 1 {
          UnpackTwo(tree, args, i);
          if key != [] {
            SetOption(key, args[i]);
          }
        }
        key := args[i];
        i := i + 1;
      }
      UnpackEnd(tree, args[i - i % 2..]);
    }

    method PackOptions(args: seq<seq<byte>>) returns (more: seq<seq<byte>>)
      ensures more == args + Pack(tree)
    {
      more := args;
      for i := 0 to |tree|
        invariant args + Pack(tree) == more + Pack(tree[i..])
      {
        assert tree[i..][1..] == tree[i + 1..];
        more := more + [tree[i].key];
        more := more + [tree[i].value];
      }
    }
  }

  // ----- the seven kinds

  datatype Packet =
    | Send(address: Address, source: Address, payload: seq<byte>, options: Tree)
    | Subscribe(address: Address, options: Tree)
    | Unsubscribe(address: Address, options: Tree)
    | Lookup(address: Address, source: Address, options: Tree)
    | Connect(options: Tree)
    | Disconnect(options: Tree)
    | Ping(options: Tree)

  /** The Universal that each kind's Write builds. */
  function ToUniversal(p: Packet): Universal {
    match p
    case Send(a, s, payload, o) => Universal(80, [ToBytes(a), ToBytes(s), payload] + Pack(o))
    case Subscribe(a, o) => Universal(83, [ToBytes(a)] + Pack(o))
    case Unsubscribe(a, o) => Universal(85, [ToBytes(a)] + Pack(o))
    case Lookup(a, s, o) => Universal(76, [ToBytes(a), ToBytes(s)] + Pack(o))
    case Connect(o) => Universal(67, Pack(o))
    case Disconnect(o) => Universal(68, Pack(o))
    case Ping(o) => Universal(72, Pack(o))
  }

  /** FillPacket. */
  function Fill(u: Universal): Result<Packet> {
    var n := |u.args|;
    if u.cmd == 80 then
      if n < 3 then Err("too few args for Send")
      else Ok(Send(FromBytes(u.args[0]), FromBytes(u.args[1]), u.args[2], Unpack([], u.args[3..])))
    else if u.cmd == 83 then
      if n < 1 then Err("too few args for Subscribe")
      else Ok(Subscribe(FromBytes(u.args[0]), Unpack([], u.args[1..])))
    else if u.cmd == 85 then
      if n < 1 then Err("too few args for Unsubscribe")
      else Ok(Unsubscribe(FromBytes(u.args[0]), Unpack([], u.args[1..])))
    else if u.cmd == 76 then
      if n < 2 then Err("too few args for Lookup")
      else Ok(Lookup(FromBytes(u.args[0]), FromBytes(u.args[1]), Unpack([], u.args[2..])))
    else if u.cmd == 67 then Ok(Connect(Unpack([], u.args)))
    else if u.cmd == 68 then Ok(Disconnect(Unpack([], u.args)))
    else if u.cmd == 72 then Ok(Ping(Unpack([], u.args)))
    else Err("unknown command")
  }

  // Its addresses are canonical and its options have no empty key.
  ghost predicate Exact(p: Packet) {
    && NoEmptyKey(p.options)
    && (p.Send? || p.Subscribe? || p.Unsubscribe? || p.Lookup? ==> Canonical(p.address))
    && (p.Send? || p.Lookup? ==> Canonical(p.source))
  }

  /** The letters, and where addresses and payload stand; a text address stands as it is. */
  lemma Layouts(p: Packet)
    ensures var u := ToUniversal(p);
            && u.cmd as char == (match p
                                 case Send(_, _, _, _) => 'P'
                                 case Subscribe(_, _) => 'S'
                                 case Unsubscribe(_, _) => 'U'
                                 case Lookup(_, _, _) => 'L'
                                 case Connect(_) => 'C'
                                 case Disconnect(_) => 'D'
                                 case Ping(_) => 'H')
            && (p.Send? ==> u.args[2] == p.payload)
            && (p.Send? || p.Subscribe? || p.Unsubscribe? || p.Lookup? ==>
                  u.args[0] == if p.address.kind == 32 then p.address.bytes else [p.address.kind] + p.address.bytes)
            && (p.Send? || p.Lookup? ==>
                  u.args[1] == if p.source.kind == 32 then p.source.bytes else [p.source.kind] + p.source.bytes)
  {
  }

  /** Which packets are refused: unknown letters, and those with too few arguments. */
  lemma FillAccepts(u: Universal)
    ensures Fill(u).Ok? <==>
            match u.cmd as char
            case 'P' => |u.args| >= 3
            case 'L' => |u.args| >= 2
            case 'S' => |u.args| >= 1
            case 'U' => |u.args| >= 1
            case 'C' => true
            case 'D' => true
            case 'H' => true
            case _ => false
  {
  }

  /**
   * Writing and then reading a packet of any kind gives it back - addresses, payload and
   * options - if and only if its addresses are canonical and no option key is empty.
   */
  lemma TypedRoundTrip(p: Packet)
    requires Sorted(p.options)
    ensures Fill(ToUniversal(p)) == Ok(p) <==> Exact(p)
  {
    hide FromBytes, ToBytes, Canonical, Unpack, Pack;
    OptionsRoundTrip(p.options);
    var o := Pack(p.options);
    match p
    case Send(a, s, payload, _) =>
      AddressRoundTrip(a);
      AddressRoundTrip(s);
      assert ([ToBytes(a), ToBytes(s), payload] + o)[3..] == o;
    case Subscribe(a, _) =>
      AddressRoundTrip(a);
      assert ([ToBytes(a)] + o)[1..] == o;
    case Unsubscribe(a, _) =>
      AddressRoundTrip(a);
      assert ([ToBytes(a)] + o)[1..] == o;
    case Lookup(a, s, _) =>
      AddressRoundTrip(a);
      AddressRoundTrip(s);
      assert ([ToBytes(a), ToBytes(s)] + o)[2..] == o;
    case _ =>
  }

  /** ReadPacket. */
  function ReadPacket(s: seq<byte>): Option<(Packet, seq<byte>)> {
    match Decode(s)
    case None => None
    case Some((u, rest)) =>
      match Fill(u)
      case Err(_) => None
      case Ok(p) => Some((p, rest))
  }

  /** The same through the byte stream, for packets that fit the format. */
  lemma PacketOnTheWire(p: Packet, more: seq<byte>)
    requires Sorted(p.options) && Fits(ToUniversal(p))
    ensures ReadPacket(Encode(ToUniversal(p)) + more) == Some((p, more)) <==> Exact(p)
  {
    hide Decode, Fill, Exact, Encode;
    PacketBack(ToUniversal(p), more);
    TypedRoundTrip(p);
  }
}

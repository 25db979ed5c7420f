// Finding MQTT packets in a websocket stream (iot/mqtt-protocol.go:525-614).
module Mqtt {
  import opened Common

  /** The loop over the length field, from byte `i` on: the packet's size, or None. */
  function ScanLength(data: seq<byte>, i: nat, unit: nat, length: nat): Option<nat>
    requires i < |data|
    decreases |data| - i
  {
    if i + 1 >= |data| then None
    else
      var more := length + data[i] % 128 * unit;
      if data[i] >= 128 then ScanLength(data, i + 1, unit * 128, more)
      else if |data| < i + 1 + more then None
      else Some(i + 1 + more)
  }

  function WholePacket(data: seq<byte>): Option<nat> {
    if |data| < 2 then None else ScanLength(data, 1, 1, 0)
  }

  /** IsWholeMqttPacket. */
  method IsWholeMqttPacket(data: seq<byte>) returns (whole: bool, used: nat)
    ensures WholePacket(data) == if whole then Some(used) else None
  {
    var i := 0;
    if |data| < 2 {
      return false, 0;
    }
    i := i + 1;
    var length: nat, unit: nat := 0, 1;
    while true
      invariant 0 < i < |data| && length >= 0 && unit >= 0
      invariant WholePacket(data) == ScanLength(data, i, unit, length)
      decreases |data| - i
    {
      var tmp := data[i];
      i := i + 1;
      if i >= |data| {
        return false, 0;
      }
      length := length + tmp % 128 * unit;
      unit := unit * 128;
      if tmp < 128 {
        break;
      }
    }
    i := i + length;
    if |data| < i {
      return false, 0;
    }
    return true, i;
  }

  // ----- the packet format

  // The value of a length field, least significant group first.
  function LengthOf(field: seq<byte>): nat
  {
    if field == [] then 0 else field[0] % 128 + 128 * LengthOf(field[1..])
  }

  function Low(b: byte): nat {
    b % 128
  }

  // Up to four groups of seven bits.
  lemma LengthGroups(f: seq<byte>)
    ensures |f| == 1 ==> LengthOf(f) == Low(f[0])
    ensures |f| == 2 ==> LengthOf(f) == Low(f[0]) + 128 * Low(f[1])
    ensures |f| == 3 ==> LengthOf(f) == Low(f[0]) + 128 * Low(f[1]) + 16384 * Low(f[2])
    ensures |f| == 4 ==> LengthOf(f) == Low(f[0]) + 128 * Low(f[1]) + 16384 * Low(f[2]) + 2097152 * Low(f[3])
  {
    if 1 <= |f| <= 4 {
      var g := f[1..];
      assert |f| == 1 ==> g == [];
      if |f| > 1 {
        LengthGroups(g);
      }
    }
  }

  // The data begin with a fixed header whose length field has k bytes, as section 2.2.3 of
  // MQTT Version 3.1.1 lays it out, and stands for `remaining`.
  ghost predicate Header(data: seq<byte>, k: nat, remaining: nat) {
    && 1 <= k <= 4 && k < |data|
    && (forall j :: 1 <= j < k ==> data[j] >= 128) && data[k] < 128
    && remaining == LengthOf(data[1..k + 1])
  }

  lemma Distribute(unit: nat, low: nat, rest: nat)
    ensures low * unit + (unit * 128) * rest == unit * (low + 128 * rest)
  {
  }

  lemma {:induction false} ScanHeader(data: seq<byte>, i: nat, k: nat, unit: nat, length: nat)
    requires 1 <= i <= k < |data| && (forall j :: i <= j < k ==> data[j] >= 128) && data[k] < 128
    ensures var total := length + unit * LengthOf(data[i..k + 1]);
            ScanLength(data, i, unit, length) ==
            if |data| > k + 1 && |data| >= k + 1 + total then Some(k + 1 + total) else None
    decreases k - i
  {
    var field := data[i..k + 1];
    assert field[1..] == data[i + 1..k + 1];
    Distribute(unit, data[i] % 128, LengthOf(field[1..]));
    if i < k {
      ScanHeader(data, i + 1, k, unit * 128, length + data[i] % 128 * unit);
    } else {
      assert field[1..] == [];
    }
  }

  /**
   * A buffer is reported whole, with length n, exactly when it holds the n-byte packet - and,
   * for a packet with nothing after its header, one byte more. So the two-byte packets
   * (PINGREQ, DISCONNECT) wait for the next one.
   */
  lemma WholeIffHeld(data: seq<byte>, k: nat, remaining: nat)
    requires Header(data, k, remaining)
    ensures var n := 1 + k + remaining;
            && (WholePacket(data) == Some(n) <==> |data| >= n + if remaining == 0 then 1 else 0)
            && (WholePacket(data) == Some(n) || WholePacket(data) == None)
  {
    ScanHeader(data, 1, k, 1, 0);
  }

  /** PINGREQ on its own is never seen. */
  lemma PingAloneIsNotSeen()
    ensures Header([0xC0, 0], 1, 0) && WholePacket([0xC0, 0]) == None
    ensures WholePacket([0xC0, 0, 0xC0]) == Some(2)
  {
    var ping: seq<byte> := [0xC0, 0];
    assert ping[1..2] == [0] && LengthOf([0]) == 0 + 128 * LengthOf([]);
  }

  /** Bytes that arrive later do not change an answer. */
  lemma {:induction false} ScanMore(data: seq<byte>, i: nat, unit: nat, length: nat, more: seq<byte>)
    requires i < |data| && ScanLength(data, i, unit, length).Some?
    ensures ScanLength(data + more, i, unit, length) == ScanLength(data, i, unit, length)
    decreases |data| - i
  {
    if data[i] >= 128 {
      ScanMore(data, i + 1, unit * 128, length + data[i] % 128 * unit, more);
    }
  }

  lemma WholeMore(data: seq<byte>, more: seq<byte>)
    requires WholePacket(data).Some?
    ensures WholePacket(data + more) == WholePacket(data) && WholePacket(data).value <= |data|
  {
    ScanMore(data, 1, 1, 0, more);
    ScanFits(data, 1, 1, 0);
  }

  lemma {:induction false} ScanFits(data: seq<byte>, i: nat, unit: nat, length: nat)
    requires i < |data|
    ensures var n := ScanLength(data, i, unit, length); n.Some? ==> i < n.value <= |data|
    decreases |data| - i
  {
    if i + 1 < |data| && data[i] >= 128 {
      ScanFits(data, i + 1, unit * 128, length + data[i] % 128 * unit);
    }
  }

  // ----- the stream

  function Concat(parts: seq<seq<byte>>): seq<byte>
  {
    if parts == [] then [] else Concat(parts[..|parts| - 1]) + parts[|parts| - 1]
  }

  lemma ConcatOne(parts: seq<seq<byte>>, last: seq<byte>)
    ensures Concat(parts + [last]) == Concat(parts) + last
  {
    assert (parts + [last])[..|parts|] == parts;
  }

  /** What one websocket message does: at most one packet comes out, the rest stays buffered. */
  function Receive(emitted: seq<seq<byte>>, buffer: seq<byte>, message: seq<byte>): (r: (seq<seq<byte>>, seq<byte>))
  {
    var current := buffer + message;
    var n := WholePacket(current);
    if n.Some? && n.value <= |current| then (emitted + [current[..n.value]], current[n.value..]) else (emitted, current)
  }

  function ReceiveAll(messages: seq<seq<byte>>): (seq<seq<byte>>, seq<byte>)
  {
    if messages == [] then ([], [])
    else
      var (emitted, buffer) := ReceiveAll(messages[..|messages| - 1]);
      Receive(emitted, buffer, messages[|messages| - 1])
  }

  // The state of WebSocketLoop between messages.
  class Socket {
    var wsBuffer: seq<byte>
    var emitted: seq<seq<byte>>
    ghost var messages: seq<seq<byte>>

    ghost predicate Valid()
      reads this
    {
      (emitted, wsBuffer) == ReceiveAll(messages)
    }

    constructor ()
      ensures Valid() && messages == []
    {
      wsBuffer, emitted, messages := [], [], [];
    }

    method OnMessage(message: seq<byte>)
      requires Valid()
      modifies this
      ensures Valid() && messages == old(messages) + [message]
    {
      messages := messages + [message];
      assert messages[..|messages| - 1] == old(messages);
      wsBuffer := wsBuffer + message;
      var ok, plen := IsWholeMqttPacket(wsBuffer);
      if !ok {
        return;
      }
      ScanFits(wsBuffer, 1, 1, 0);
      var extra := wsBuffer[plen..];
      var packetData := wsBuffer[..plen];
      emitted := emitted + [packetData];
      wsBuffer := extra;
    }
  }

  // Every packet emitted has exactly the size its header says.
  ghost predicate AllWhole(emitted: seq<seq<byte>>) {
    forall i, k: nat, len: nat :: 0 <= i < |emitted| && Header(emitted[i], k, len) ==> |emitted[i]| == 1 + k + len
  }

  lemma PacketCut(current: seq<byte>, n: nat, k: nat, len: nat)
    requires WholePacket(current) == Some(n) && n <= |current| && Header(current[..n], k, len)
    ensures n == 1 + k + len
  {
    var p := current[..n];
    assert current[1..k + 1] == p[1..k + 1];
    assert forall j :: 0 <= j < n ==> current[j] == p[j];
    WholeIffHeld(current, k, len);
  }

  lemma OneMoreWhole(emitted: seq<seq<byte>>, p: seq<byte>)
    requires AllWhole(emitted) && forall k: nat, len: nat :: Header(p, k, len) ==> |p| == 1 + k + len
    ensures AllWhole(emitted + [p])
  {
    hide Header;
  }

  lemma Regroup(x: seq<byte>, buffer: seq<byte>, message: seq<byte>, n: nat)
    requires n <= |buffer + message|
    ensures var current := buffer + message; x + current[..n] + current[n..] == x + buffer + message
    ensures x + (buffer + message) == x + buffer + message
  {
    var current := buffer + message;
    assert current == current[..n] + current[n..];
  }

  lemma ReceiveOk(emitted: seq<seq<byte>>, buffer: seq<byte>, message: seq<byte>)
    requires AllWhole(emitted)
    ensures var (more, left) := Receive(emitted, buffer, message);
            && Concat(more) + left == Concat(emitted) + buffer + message
            && |more| <= |emitted| + 1 && AllWhole(more)
  {
    hide Header, AllWhole, Concat, WholePacket;
    var current := buffer + message;
    var n := WholePacket(current);
    if n.Some? && n.value <= |current| {
      var p := current[..n.value];
      ConcatOne(emitted, p);
      Regroup(Concat(emitted), buffer, message, n.value);
      forall k: nat, len: nat | Header(p, k, len) ensures |p| == 1 + k + len {
        PacketCut(current, n.value, k, len);
      }
      OneMoreWhole(emitted, p);
    } else {
      Regroup(Concat(emitted), buffer, message, 0);
    }
  }

  /**
   * However the bytes are chunked, what was emitted followed by what is buffered is what was
   * received; every packet emitted is one whole packet, and at most one comes out per message.
   */
  lemma {:induction false} NothingLost(messages: seq<seq<byte>>)
    ensures var (emitted, buffer) := ReceiveAll(messages);
            Concat(emitted) + buffer == Concat(messages) && |emitted| <= |messages| && AllWhole(emitted)
  {
    hide Receive, AllWhole;
    if messages != [] {
      var init, last := messages[..|messages| - 1], messages[|messages| - 1];
      NothingLost(init);
      var (emitted, buffer) := ReceiveAll(init);
      ReceiveOk(emitted, buffer, last);
      assert Concat(init) + last == Concat(emitted) + buffer + last;
    } else {
      NoneWhole();
    }
  }

  lemma NoneWhole()
    ensures AllWhole([])
  {
  }

  // ----- what comes out, and when

  lemma WholeFits(s: seq<byte>)
    ensures WholePacket(s).Some? ==> 1 < WholePacket(s).value <= |s|
  {
    if |s| >= 2 {
      ScanFits(s, 1, 1, 0);
    }
  }

  /** The whole packets at the front of `s`. */
  function Frames(s: seq<byte>): seq<seq<byte>>
    decreases |s|
  {
    var n := WholePacket(s);
    if n.Some? then
      WholeFits(s);
      [s[..n.value]] + Frames(s[n.value..])
    else []
  }

  // `s` is `parts`, each whole where it stands, and then `rest`.
  ghost predicate Peels(s: seq<byte>, parts: seq<seq<byte>>, rest: seq<byte>)
    decreases |parts|
  {
    if parts == [] then s == rest
    else
      var n := |parts[0]|;
      n <= |s| && s[..n] == parts[0] && WholePacket(s) == Some(n) && Peels(s[n..], parts[1..], rest)
  }

  lemma {:induction false} PeelsMore(s: seq<byte>, parts: seq<seq<byte>>, rest: seq<byte>, more: seq<byte>)
    requires Peels(s, parts, rest)
    ensures Peels(s + more, parts, rest + more)
    decreases |parts|
  {
    hide WholePacket;
    if parts != [] {
      var n := |parts[0]|;
      WholeMore(s, more);
      PeelsMore(s[n..], parts[1..], rest, more);
      assert (s + more)[..n] == s[..n] && (s + more)[n..] == s[n..] + more;
    }
  }

  lemma {:induction false} PeelsOne(s: seq<byte>, parts: seq<seq<byte>>, rest: seq<byte>, n: nat)
    requires Peels(s, parts, rest) && WholePacket(rest) == Some(n) && n <= |rest|
    ensures Peels(s, parts + [rest[..n]], rest[n..])
    decreases |parts|
  {
    hide WholePacket;
    var all := parts + [rest[..n]];
    if parts == [] {
      assert all[1..] == [] && all[0] == rest[..n];
    } else {
      PeelsOne(s[|parts[0]|..], parts[1..], rest, n);
      assert all[1..] == parts[1..] + [rest[..n]];
    }
  }

  lemma FramesStep(s: seq<byte>, n: nat)
    requires WholePacket(s) == Some(n) && n <= |s|
    ensures Frames(s) == [s[..n]] + Frames(s[n..])
  {
    hide WholePacket;
  }

  lemma {:induction false} PeelsFrames(s: seq<byte>, parts: seq<seq<byte>>, rest: seq<byte>)
    requires Peels(s, parts, rest)
    ensures Frames(s) == parts + Frames(rest)
    decreases |parts|
  {
    hide WholePacket, Frames;
    if parts == [] {
      assert parts + Frames(rest) == Frames(rest);
    } else {
      var n := |parts[0]|;
      FramesStep(s, n);
      PeelsFrames(s[n..], parts[1..], rest);
      assert [parts[0]] + (parts[1..] + Frames(rest)) == parts + Frames(rest);
    }
  }

  // What was emitted is the front of what was received, packet by packet.
  lemma {:induction false} EmittedPeels(messages: seq<seq<byte>>)
    ensures var (emitted, buffer) := ReceiveAll(messages); Peels(Concat(messages), emitted, buffer)
  {
    hide WholePacket, Peels;
    if messages == [] {
      assert Peels([], [], []) by { NothingPeels(); }
    } else {
      var init, last := messages[..|messages| - 1], messages[|messages| - 1];
      EmittedPeels(init);
      var (emitted, buffer) := ReceiveAll(init);
      PeelsMore(Concat(init), emitted, buffer, last);
      var n := WholePacket(buffer + last);
      if n.Some? && n.value <= |buffer + last| {
        PeelsOne(Concat(messages), emitted, buffer + last, n.value);
      }
    }
  }

  lemma NothingPeels()
    ensures Peels([], [], [])
  {
  }

  lemma NoFrames(s: seq<byte>)
    ensures Frames(s) == [] <==> WholePacket(s).None?
  {
  }

  function FrameCount(messages: seq<seq<byte>>): nat {
    |Frames(Concat(messages))|
  }

  function EmittedCount(messages: seq<seq<byte>>): nat {
    |ReceiveAll(messages).0|
  }

  /**
   * Which packets come out does not depend on how the bytes are chunked, only how many: they are
   * always the first of the whole packets received.
   */
  lemma EmittedInOrder(messages: seq<seq<byte>>)
    ensures ReceiveAll(messages).0 <= Frames(Concat(messages))
    ensures EmittedCount(messages) <= FrameCount(messages)
  {
    EmittedPeels(messages);
    PeelsFrames(Concat(messages), ReceiveAll(messages).0, ReceiveAll(messages).1);
  }

  // One message lets out one more packet, if there is one.
  lemma EmittedStep(init: seq<seq<byte>>, last: seq<byte>)
    ensures var more := FrameCount(init + [last]);
            && FrameCount(init) <= more
            && EmittedCount(init + [last]) == EmittedCount(init) + if EmittedCount(init) < more then 1 else 0
  {
    hide WholePacket, Peels, Frames;
    var messages := init + [last];
    assert messages[..|init|] == init && messages[|init|] == last;
    var (emitted, buffer) := ReceiveAll(init);
    EmittedPeels(init);
    PeelsFrames(Concat(init), emitted, buffer);
    PeelsMore(Concat(init), emitted, buffer, last);
    PeelsFrames(Concat(messages), emitted, buffer + last);
    NoFrames(buffer + last);
    FramesGrow(buffer, last);
    WholeFits(buffer + last);
    ConcatOne(init, last);
    assert |Frames(Concat(messages))| == |emitted| + |Frames(buffer + last)|;
  }

  lemma {:induction false} FramesGrow(s: seq<byte>, more: seq<byte>)
    ensures |Frames(s)| <= |Frames(s + more)|
    decreases |s|
  {
    hide WholePacket;
    var n := WholePacket(s);
    WholeFits(s);
    if n.Some? {
      WholeMore(s, more);
      FramesGrow(s[n.value..], more);
      assert (s + more)[n.value..] == s[n.value..] + more;
    }
  }

  /**
   * How many have come out: the least, over all points, of the packets complete by then and the
   * messages after it.
   */
  lemma {:induction false} EmittedExactly(messages: seq<seq<byte>>) returns (from: nat)
    ensures from <= |messages| && EmittedCount(messages) == FrameCount(messages[..from]) + (|messages| - from)
    ensures forall j :: 0 <= j <= |messages| ==> EmittedCount(messages) <= FrameCount(messages[..j]) + (|messages| - j)
  {
    hide Frames, Concat, ReceiveAll;
    if messages == [] {
      from := 0;
      EmittedInOrder([]);
      assert messages[..0] == [];
      assert EmittedCount([]) == 0 && FrameCount([]) == 0 by { NothingEmitted(); }
    } else {
      var init, last := messages[..|messages| - 1], messages[|messages| - 1];
      from := EmittedExactly(init);
      assert messages == init + [last] && messages[..|messages|] == messages;
      EmittedStep(init, last);
      EmittedInOrder(messages);
      EmittedInOrder(init);
      forall j | 0 <= j < |messages| ensures messages[..j] == init[..j] {
      }
      if EmittedCount(init) == FrameCount(messages) {
        from := |messages|;
      }
    }
  }

  lemma NothingEmitted()
    ensures EmittedCount([]) == 0 && FrameCount([]) == 0
  {
  }

  /**
   * Exactly when every whole packet received has come out: if and only if from no point on more
   * packets were completed than messages still came.
   */
  lemma AllEmitted(messages: seq<seq<byte>>)
    ensures EmittedCount(messages) == FrameCount(messages) <==>
            forall j :: 0 <= j <= |messages| ==> FrameCount(messages) <= FrameCount(messages[..j]) + (|messages| - j)
  {
    hide EmittedCount, FrameCount;
    EmittedInOrder(messages);
    var from := EmittedExactly(messages);
  }

  /** Two packets in one message: the second stays in the buffer. */
  lemma TwoInOne()
    ensures var m: seq<byte> := [0x40, 1, 7, 0x40, 1, 8];
            && Frames(m) == [[0x40, 1, 7], [0x40, 1, 8]]
            && ReceiveAll([m]) == ([[0x40, 1, 7]], [0x40, 1, 8])
  {
    var m: seq<byte> := [0x40, 1, 7, 0x40, 1, 8];
    var rest: seq<byte> := [0x40, 1, 8];
    assert m[..3] == [0x40, 1, 7] && m[3..] == rest && rest[..3] == rest && rest[3..] == [];
    assert WholePacket(m) == Some(3) && WholePacket(rest) == Some(3) && WholePacket([]) == None;
    assert Frames([]) == [] && Frames(rest) == [rest];
    assert [m][..0] == [] && ReceiveAll([]) == ([], []) && [] + m == m;
    assert [] + [m[..3]] == [[0x40, 1, 7]];
  }
}

// Byte strings in dictionary order, the order of Go's strings.
module Lex {
  import opened Common

  predicate Less(a: seq<byte>, b: seq<byte>)
  {
    b != [] && (a == [] || a[0] < b[0] || (a[0] == b[0] && Less(a[1..], b[1..])))
  }

  predicate AtMost(a: seq<byte>, b: seq<byte>) {
    !Less(b, a)
  }

  lemma {:induction false} Total(a: seq<byte>, b: seq<byte>)
    ensures Less(a, b) || a == b || Less(b, a)
    ensures !(Less(a, b) && Less(b, a)) && !Less(a, a)
  {
    if a != [] && b != [] && a[0] == b[0] {
      Total(a[1..], b[1..]);
      assert a == [a[0]] + a[1..] && b == [b[0]] + b[1..];
    }
    if a != [] {
      Irreflexive(a);
    }
  }

  lemma {:induction false} Irreflexive(a: seq<byte>)
    ensures !Less(a, a)
  {
    if a != [] {
      Irreflexive(a[1..]);
    }
  }

  lemma {:induction false} Transitive(a: seq<byte>, b: seq<byte>, c: seq<byte>)
    ensures Less(a, b) && Less(b, c) ==> Less(a, c)
    ensures AtMost(a, b) && AtMost(b, c) ==> AtMost(a, c)
  {
    if a != [] && b != [] && c != [] {
      Transitive(a[1..], b[1..], c[1..]);
    }
  }

  /** What the order is: at the first byte where they differ, or where one ends. */
  lemma {:induction false} LessMeans(a: seq<byte>, b: seq<byte>)
    ensures Less(a, b) <==>
            exists i :: 0 <= i <= |a| && i < |b| && a[..i] == b[..i] && (i == |a| || a[i] < b[i])
  {
    if a != [] && b != [] {
      LessMeans(a[1..], b[1..]);
      if a[0] == b[0] && Less(a[1..], b[1..]) {
        var x, y := a[1..], b[1..];
        var i :| 0 <= i <= |x| && i < |y| && x[..i] == y[..i] && (i == |x| || x[i] < y[i]);
        assert a[..i + 1] == [a[0]] + x[..i] && b[..i + 1] == [b[0]] + y[..i];
      }
      if a[0] < b[0] {
        assert a[..0] == b[..0];
      }
      forall i | 0 < i <= |a| && i < |b| && a[..i] == b[..i] && (i == |a| || a[i] < b[i])
        ensures a[0] == b[0] && a[1..][..i - 1] == b[1..][..i - 1]
      {
        assert a[..i][0] == b[..i][0] && a[..i][1..] == b[..i][1..];
        assert a[..i][1..] == a[1..][..i - 1] && b[..i][1..] == b[1..][..i - 1];
      }
    } else if a == [] && b != [] {
      assert a[..0] == b[..0];
    }
  }

  /** Cutting strings to the same length keeps their order. */
  lemma {:induction false} TruncationMonotone(a: seq<byte>, b: seq<byte>, n: nat)
    requires n <= |a| && n <= |b| && AtMost(a, b)
    ensures AtMost(a[..n], b[..n])
  {
    if n > 0 && a[0] == b[0] {
      TruncationMonotone(a[1..], b[1..], n - 1);
      assert a[..n][1..] == a[1..][..n - 1] && b[..n][1..] == b[1..][..n - 1];
    }
  }
}

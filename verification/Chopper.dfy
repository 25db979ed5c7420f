// chop as the source runs it: one index moving over the text, and a list that grows at its
// tail. Each method is proved against the function of BadJson.dfy that it computes.
module Chopper {
  import opened Common
  import opened BadJson

  lemma {:induction false} HasSpecialAppend(s: string, t: string)
    ensures HasSpecial(s + t) <==> HasSpecial(s) || HasSpecial(t)
  {
    if s == "" {
      assert s + t == t;
    } else {
      HasSpecialAppend(s[1..], t);
      assert (s + t)[1..] == s[1..] + t;
    }
  }

  method PassSpaces(text: string, start: nat) returns (i: nat)
    requires start <= |text|
    ensures i == start + Spaces(text[start..])
  {
    i := start;
    while i < |text| && text[i] == ' '
      invariant start <= i <= |text|
      invariant start + Spaces(text[start..]) == i + Spaces(text[i..])
    {
      assert text[i..][1..] == text[i + 1..];
      i := i + 1;
    }
  }

  method PassDelimiters(text: string, start: nat) returns (i: nat)
    requires start <= |text|
    ensures i == start + Delims(text[start..])
  {
    i := PassSpaces(text, start);
    if i < |text| && IsDelim(text[i]) {
      assert text[start..][i - start + 1..] == text[i + 1..];
      i := PassSpaces(text, i + 1);
    }
  }

  method PassHex(text: string, start: nat) returns (i: nat)
    requires start <= |text|
    ensures i == start + HexRun(text[start..])
  {
    i := start;
    while i < |text| && IsHex(text[i])
      invariant start <= i <= |text|
      invariant start + HexRun(text[start..]) == i + HexRun(text[i..])
    {
      assert text[i..][1..] == text[i + 1..];
      i := i + 1;
    }
  }

  method PassB64(text: string, start: nat) returns (i: nat)
    requires start <= |text|
    ensures i == start + B64Run(text[start..])
  {
    i := start;
    while i < |text| && IsB64(text[i])
      invariant start <= i <= |text|
      invariant start + B64Run(text[start..]) == i + B64Run(text[i..])
    {
      assert text[i..][1..] == text[i + 1..];
      i := i + 1;
    }
  }

  method PassEquals(text: string, start: nat) returns (i: nat)
    requires start <= |text|
    ensures i == start + EqualsRun(text[start..])
  {
    i := start;
    while i < |text| && text[i] == '='
      invariant start <= i <= |text|
      invariant start + EqualsRun(text[start..]) == i + EqualsRun(text[i..])
    {
      assert text[i..][1..] == text[i + 1..];
      i := i + 1;
    }
  }

  method PassWord(text: string, start: nat, closer: Option<char>) returns (i: nat, special: bool)
    requires start <= |text|
    ensures i == start + WordRun(text[start..], closer)
    ensures special == HasSpecial(text[start..i])
  {
    i, special := start, false;
    while i < |text| && !EndsWord(text[i], closer)
      invariant start <= i <= |text|
      invariant start + WordRun(text[start..], closer) == i + WordRun(text[i..], closer)
      invariant special == HasSpecial(text[start..i])
    {
      assert text[i..][1..] == text[i + 1..];
      HasSpecialAppend(text[start..i], [text[i]]);
      assert text[start..i + 1] == text[start..i] + [text[i]];
      if Special(text[i]) {
        special := true;
      }
      i := i + 1;
    }
  }

  method PassQuoted(text: string, start: nat, quote: char) returns (i: nat, special: bool)
    requires start <= |text|
    ensures i == start + QuotedRun(text[start..], quote)
    ensures i <= |text| && special == HasSpecial(text[start..i])
  {
    hide HasSpecial, QuotedRun;
    i, special := start, false;
    HasSpecialNone();
    QuotedStops(text[start..], quote);
    assert text[start..start] == "";
    while i < |text| && text[i] != quote
      invariant start <= i <= |text|
      invariant start + QuotedRun(text[start..], quote) == i + QuotedRun(text[i..], quote)
      invariant special == HasSpecial(text[start..i])
    {
      if text[i] == '\\' {
        special := true;
        var step := if i + 1 == |text| then 1 else 2;
        PassMore(text, start, i, step);
        QuotedStep(text[i..], quote);
        i := i + step;
      } else {
        if text[i] == '"' {
          special := true;
        }
        PassMore(text, start, i, 1);
        QuotedStep(text[i..], quote);
        i := i + 1;
      }
    }
    QuotedStops(text[i..], quote);
  }

  lemma QuotedStops(t: string, quote: char)
    ensures t == "" || t[0] == quote ==> QuotedRun(t, quote) == 0
  {
  }

  lemma QuotedStep(t: string, quote: char)
    requires t != "" && t[0] != quote
    ensures var step := if t[0] == '\\' && |t| > 1 then 2 else 1;
            QuotedRun(t, quote) == step + QuotedRun(t[step..], quote)
  {
  }

  lemma HasSpecialNone()
    ensures !HasSpecial("")
  {
  }

  // One step of the loop over a quoted string: one character, or a backslash and the next.
  lemma PassMore(text: string, start: nat, i: nat, step: nat)
    requires start <= i && 1 <= step <= 2 && i + step <= |text| && (step == 2 ==> text[i] == '\\')
    ensures HasSpecial(text[start..i + step]) <==> HasSpecial(text[start..i]) || Special(text[i])
    ensures text[i..][step..] == text[i + step..]
  {
    var more := text[i..i + step];
    HasSpecialAppend(text[start..i], more);
    assert text[start..i + step] == text[start..i] + more;
    assert HasSpecial(more) == Special(text[i]) by { assert more[0] == text[i]; }
  }

  // Positions in the text after `i`, seen from the text that starts there.
  lemma Shift(text: string, i: nat, n: nat)
    requires i <= |text|
    ensures Drop(text[i..], n) == Drop(text, i + n)
    ensures n <= |text| - i ==> text[i..][..n] == text[i..i + n] && text[i..][n..] == text[i + n..]
  {
  }

  lemma PrependAppend(x: seq<Seg>, y: seq<Seg>, c: Chopped)
    ensures Prepend(x, Prepend(y, c)) == Prepend(x + y, c)
  {
    if c.Done? {
      assert x + (y + c.segs) == (x + y) + c.segs;
    }
  }

  // The segment that the text between `from` and `to` makes, and the text from `next` on.
  function Cut(seg: Seg, text: string, next: nat): Chopped {
    Done([seg], Drop(text, next))
  }

  lemma OneQuoted(text: string, i: nat, next: nat, closer: Option<char>, depth: nat)
    requires i + 1 < |text| && (text[i] == '"' || text[i] == '\'')
    requires next == i + 1 + QuotedRun(text[i + 1..], text[i])
    ensures next <= |text|
    ensures One(text[i..], closer, depth) ==
            Cut(Word(text[i + 1..next], if text[i] == '"' then Double else Single, HasSpecial(text[i + 1..next])),
                text, next + 1)
  {
    hide Scan, QuotedRun, HasSpecial;
    assert text[i..][1..] == text[i + 1..];
    Shift(text, i + 1, next - i - 1);
    Shift(text, i + 1, next - i);
  }

  lemma OneHex(text: string, i: nat, next: nat, closer: Option<char>, depth: nat)
    requires i < |text| && text[i] == '$' && next == i + 1 + HexRun(text[i + 1..])
    ensures next <= |text| && One(text[i..], closer, depth) == Cut(Hex(text[i + 1..next]), text, next)
  {
    hide Scan, HexRun;
    assert text[i..][1..] == text[i + 1..];
    Shift(text, i + 1, next - i - 1);
  }

  lemma OneB64(text: string, i: nat, mid: nat, next: nat, closer: Option<char>, depth: nat)
    requires i + 1 < |text| && text[i] == '='
    requires mid == i + 1 + B64Run(text[i + 1..]) && next == mid + EqualsRun(text[mid..])
    ensures next <= |text| && One(text[i..], closer, depth) == Cut(B64(text[i + 1..next]), text, next)
  {
    hide Scan, B64Run, EqualsRun;
    assert text[i..][1..] == text[i + 1..];
    Shift(text, i + 1, mid - i - 1);
    Shift(text, i + 1, next - i - 1);
  }

  lemma OneBracket(text: string, i: nat, closer: Option<char>, depth: nat, inner: Chopped, used: nat)
    requires i + 1 < |text| && (text[i] == '{' || text[i] == '[')
    requires inner == Chop0(text[i + 1..], Some(Closer(text[i])), depth + 1)
    requires inner.Done? ==> inner.rest == Drop(text[i + 1..], used)
    ensures One(text[i..], closer, depth) ==
            if inner.Fail? then inner else Cut(Parent(inner.segs, text[i] == '['), text, i + 1 + used + 1)
  {
    hide Scan;
    assert text[i..][1..] == text[i + 1..];
    Shift(text, i + 1, used);
    Shift(text, i + 1, used + 1);
  }

  lemma WordRunStep(t: string, closer: Option<char>)
    requires t != ""
    ensures !EndsWord(t[0], closer) ==> WordRun(t, closer) > 0
  {
  }

  lemma OneBare(text: string, i: nat, next: nat, closer: Option<char>, depth: nat)
    requires i < |text| && text[i] !in "$\"'={["
    requires next == i + WordRun(text[i..], closer)
    ensures next <= |text|
    ensures One(text[i..], closer, depth) == Cut(Word(text[i..next], Bare, HasSpecial(text[i..next])), text, next)
    ensures !EndsWord(text[i], closer) ==> i < next
  {
    hide Scan, Chop0, HasSpecial, QuotedRun, HexRun, B64Run, EqualsRun, WordRun;
    WordRunStep(text[i..], closer);
    Shift(text, i, next - i);
  }

  lemma OneAlone(text: string, i: nat, closer: Option<char>, depth: nat)
    requires i + 1 == |text|
    ensures Drop(text, i + 1) == ""
    ensures text[i] in "\"'{[" ==> One(text[i..], closer, depth) == Done([], "")
    ensures text[i] == '=' ==> One(text[i..], closer, depth) == Done([B64("=")], "")
  {
    hide Scan;
    assert text[i..][1..] == "";
  }

  /** One turn of the switch at `i`: at most one segment, and where to go on. */
  method ChopOne(text: string, i: nat, closer: Option<char>, depth: nat) returns (c: Chopped, next: nat)
    requires i < |text| <= MAX_TEXT && depth <= MAX_DEPTH
    ensures c == One(text[i..], closer, depth)
    ensures c.Done? ==> i <= next && c.rest == Drop(text, next) && (!EndsWord(text[i], closer) ==> i < next)
    decreases MAX_DEPTH + 1 - depth, 0
  {
    hide One, Scan, HexRun, B64Run, EqualsRun, WordRun, QuotedRun, HasSpecial, Chop0, Drop;
    var r := text[i];
    next := i + 1;
    if r in "\"'={[" && next == |text| {
      OneAlone(text, i, closer, depth);
      c := Done(if r == '=' then [B64("=")] else [], "");
    } else if r == '$' {
      next := PassHex(text, i + 1);
      OneHex(text, i, next, closer, depth);
      c := Cut(Hex(text[i + 1..next]), text, next);
    } else if r == '"' || r == '\'' {
      var special;
      next, special := PassQuoted(text, i + 1, r);
      OneQuoted(text, i, next, closer, depth);
      c := Cut(Word(text[i + 1..next], if r == '"' then Double else Single, special), text, next + 1);
      next := next + 1;
    } else if r == '=' {
      var mid := PassB64(text, i + 1);
      next := PassEquals(text, mid);
      OneB64(text, i, mid, next, closer, depth);
      c := Cut(B64(text[i + 1..next]), text, next);
    } else if r == '{' || r == '[' {
      var inner, used := ChopAt(text[i + 1..], Some(Closer(r)), depth + 1);
      OneBracket(text, i, closer, depth, inner, used);
      if inner.Fail? {
        c := inner;
      } else {
        next := i + 1 + used + 1;
        c := Cut(Parent(inner.segs, r == '['), text, next);
      }
    } else {
      var special;
      next, special := PassWord(text, i, closer);
      OneBare(text, i, next, closer, depth);
      c := Cut(Word(text[i..next], Bare, special), text, next);
    }
  }

  /**
   * chop. The depth bounds the recursion, and every pass of the loop moves the index, also
   * over runs of commas and colons that make empty segments.
   */
  method ChopAt(text: string, closer: Option<char>, depth: nat) returns (c: Chopped, used: nat)
    requires depth <= MAX_DEPTH + 1
    ensures c == Chop0(text, closer, depth)
    ensures c.Done? ==> c.rest == Drop(text, used)
    decreases MAX_DEPTH + 1 - depth, 1
  {
    hide One, Delims;
    used := 0;
    if |text| > MAX_TEXT {
      c := Fail(TooLong);
      return;
    }
    if depth > MAX_DEPTH {
      c := Fail(TooDeep);
      return;
    }
    var front := [];
    var i := 0;
    assert Drop(text, 0) == text;
    assert Scan(text, closer, depth) == Prepend([], Scan(text, closer, depth)) by {
      assert Scan(text, closer, depth).Done? ==> [] + Scan(text, closer, depth).segs == Scan(text, closer, depth).segs;
    }
    while true
      invariant Scan(text, closer, depth) == Prepend(front, Scan(Drop(text, i), closer, depth))
      decreases |text| - i
    {
      if i > |text| {
        assert Delims("") == 0;
        return Done(front + [], ""), i;
      }
      ghost var start := i;
      i := PassDelimiters(text, i);
      assert text[start..][Delims(text[start..])..] == text[i..];
      if i == |text| || Some(text[i]) == closer {
        assert front + [] == front;
        return Done(front, text[i..]), i;
      }
      var one;
      ghost var at := i;
      one, i := ChopOne(text, i, closer, depth);
      if one.Fail? {
        return one, 0;
      }
      assert start < i by {
        Progress(text, start, at, i, closer);
      }
      PrependAppend(front, one.segs, Scan(one.rest, closer, depth));
      front := front + one.segs;
    }
  }

  // A pass that stopped at a comma or colon had already passed one before it.
  lemma Progress(text: string, start: nat, at: nat, next: nat, closer: Option<char>)
    requires start <= at < |text| && at <= next && at == start + Delims(text[start..])
    requires Some(text[at]) != closer && (!EndsWord(text[at], closer) ==> at < next)
    ensures start < next
  {
    hide Delims;
    assert text[start..][at - start] == text[at];
  }
}

// What each kind of segment takes, character by character (badjson/parse.go:68-215).
module Segments {
  import opened Common
  import opened BadJson

  const HEX_CHARS := "0123456789:abcdefgABCDEFG"

  predicate AllIn(s: string, chars: string) {
    forall i :: 0 <= i < |s| ==> s[i] in chars
  }

  lemma HexChars(c: char)
    ensures IsHex(c) <==> c in HEX_CHARS
  {
    if IsHex(c) {
      var i := if c <= ':' then c as int - '0' as int
               else if c <= 'G' then 18 + c as int - 'A' as int else 11 + c as int - 'a' as int;
      assert c == HEX_CHARS[i];
    }
  }

  lemma {:induction false} HexRunIs(s: string, more: string)
    requires AllIn(s, HEX_CHARS) && (more != "" ==> more[0] !in HEX_CHARS)
    ensures HexRun(s + more) == |s|
  {
    if s == "" {
      assert s + more == more;
      if more != "" {
        HexChars(more[0]);
      }
    } else {
      HexChars(s[0]);
      assert (s + more)[1..] == s[1..] + more;
      HexRunIs(s[1..], more);
    }
  }

  lemma {:induction false} B64RunIs(s: string, more: string)
    requires (forall i :: 0 <= i < |s| ==> IsB64(s[i])) && (more != "" ==> !IsB64(more[0]))
    ensures B64Run(s + more) == |s|
  {
    if s == "" {
      assert s + more == more;
    } else {
      assert (s + more)[1..] == s[1..] + more;
      B64RunIs(s[1..], more);
    }
  }

  lemma {:induction false} EqualsRunIs(s: string, more: string)
    requires AllIn(s, "=") && (more != "" ==> more[0] != '=')
    ensures EqualsRun(s + more) == |s|
  {
    if s == "" {
      assert s + more == more;
    } else {
      assert s[0] == '=';
      assert (s + more)[1..] == s[1..] + more;
      EqualsRunIs(s[1..], more);
    }
  }

  lemma {:induction false} WordRunIs(s: string, more: string, closer: Option<char>)
    requires forall i :: 0 <= i < |s| ==> s[i] !in " ,:" && Some(s[i]) != closer
    requires more != "" ==> more[0] in " ,:" || Some(more[0]) == closer
    ensures WordRun(s + more, closer) == |s|
  {
    if s == "" {
      assert s + more == more;
    } else {
      assert (s + more)[1..] == s[1..] + more;
      WordRunIs(s[1..], more, closer);
    }
  }

  lemma {:induction false} SpecialMeans(s: string)
    ensures HasSpecial(s) <==> '"' in s || '\\' in s
  {
    if s != "" {
      SpecialMeans(s[1..]);
      assert s == [s[0]] + s[1..];
    }
  }

  lemma {:induction false} SpacesAre(n: nat, t: string)
    requires t == "" || t[0] != ' '
    ensures Spaces(Blank(n) + t) == n
  {
    if n == 0 {
      assert Blank(0) + t == t;
    } else {
      assert (Blank(n) + t)[1..] == Blank(n - 1) + t;
      SpacesAre(n - 1, t);
    }
  }

  function Blank(n: nat): string {
    seq(n, _ => ' ')
  }

  lemma OneHex(s: string, closer: Option<char>, depth: nat)
    ensures One("$" + s, closer, depth) == Done([Hex(s[..HexRun(s)])], s[HexRun(s)..])
  {
    hide Chop0, HexRun;
    assert ("$" + s)[1..] == s;
  }

  lemma OneB64(s: string, closer: Option<char>, depth: nat)
    ensures var n := B64Run(s) + EqualsRun(s[B64Run(s)..]);
            One("=" + s, closer, depth) == if s == "" then Done([B64("=")], "") else Done([B64(s[..n])], s[n..])
  {
    hide Chop0, B64Run, EqualsRun;
    assert ("=" + s)[1..] == s;
  }

  // `$` and the hex digits behind it; the source's table also has ':', 'g' and 'G'.
  lemma HexSegment(s: string, more: string, closer: Option<char>, depth: nat)
    requires AllIn(s, "0123456789:abcdefgABCDEFG")
    requires more != "" ==> more[0] !in "0123456789:abcdefgABCDEFG"
    ensures One("$" + s + more, closer, depth) == Done([Hex(s)], more)
  {
    HexRunIs(s, more);
    hide One, HexRun, AllIn;
    assert "$" + s + more == "$" + (s + more);
    OneHex(s + more, closer, depth);
    assert (s + more)[..|s|] == s && (s + more)[|s|..] == more;
  }

  // `=` and the base 64 characters behind it, either alphabet, with the padding.
  lemma B64Segment(s: string, pad: string, more: string, closer: Option<char>, depth: nat)
    requires forall i :: 0 <= i < |s| ==>
               'A' <= s[i] <= 'Z' || 'a' <= s[i] <= 'z' || '0' <= s[i] <= '9' || s[i] in "+/-_"
    requires AllIn(pad, "=") && (more != "" ==> more[0] != '=')
    requires more != "" && pad == "" ==>
               !('A' <= more[0] <= 'Z' || 'a' <= more[0] <= 'z' || '0' <= more[0] <= '9' || more[0] in "+/-_")
    ensures One("=" + s + pad + more, closer, depth) ==
            if s + pad + more == "" then Done([B64("=")], "") else Done([B64(s + pad)], more)
  {
    hide One, B64Run, EqualsRun;
    var t, end := s + pad + more, pad + more;
    assert "=" + s + pad + more == "=" + t;
    assert t == s + end && t[|s|..] == end;
    assert end != "" ==> end[0] == if pad != "" then pad[0] else more[0];
    assert !IsB64('=');
    B64RunIs(s, end);
    EqualsRunIs(pad, more);
    OneB64(t, closer, depth);
    assert t[..|s| + |pad|] == s + pad && t[|s| + |pad|..] == more;
  }

  /**
   * A bare word runs to the next space, comma, colon or closer, whatever else is in it; and at
   * one of those where nothing stands it is empty and takes nothing.
   */
  lemma BareSegment(s: string, more: string, closer: Option<char>, depth: nat)
    requires s + more != "" && (s + more)[0] !in "$=\"'[{"
    requires forall i :: 0 <= i < |s| ==> s[i] !in " ,:" && Some(s[i]) != closer
    requires more != "" ==> more[0] in " ,:" || Some(more[0]) == closer
    ensures One(s + more, closer, depth) == Done([Word(s, Bare, '"' in s || '\\' in s)], more)
  {
    WordRunIs(s, more, closer);
    SpecialMeans(s);
    assert (s + more)[..|s|] == s && (s + more)[|s|..] == more;
  }

  /** Between two segments chop passes spaces and at most one comma or colon. */
  lemma Between(before: nat, delim: string, after: nat, t: string)
    requires delim in ["", ",", ":"] && (t != "" ==> t[0] != ' ')
    requires delim == "" ==> after == 0 && (t != "" ==> t[0] !in ",:")
    ensures Delims(Blank(before) + delim + Blank(after) + t) == before + |delim| + after
  {
    hide Spaces;
    var rest := delim + (Blank(after) + t);
    var s := Blank(before) + rest;
    assert Blank(before) + delim + Blank(after) + t == s;
    assert delim == "" ==> rest == t by { assert Blank(0) + t == t; }
    assert delim != "" ==> rest[0] == delim[0];
    SpacesAre(before, rest);
    assert s[before..] == rest && |s| == before + |rest|;
    if delim != "" {
      assert s[before] == rest[0] && s[before + 1..] == Blank(after) + t;
      SpacesAre(after, t);
    } else if t != "" {
      assert s[before] == t[0];
    }
  }

  /** A text of spaces with at most one delimiter is one empty word. */
  lemma Nothing(before: nat, delim: string, after: nat)
    requires delim in ["", ",", ":"] && (delim == "" ==> after == 0) && before + after < 16384
    ensures Chop(Blank(before) + delim + Blank(after)) == Ok([Word("", Bare, false)])
  {
    var s := Blank(before) + delim + Blank(after);
    Between(before, delim, after, "");
    assert s + "" == s;
    assert s[Delims(s)..] == "";
    assert Scan(s, None, 0) == Done([], "");
  }
}

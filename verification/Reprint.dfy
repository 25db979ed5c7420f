// A text that chop has read, printed and read again: when nothing changes the second time.
module Reprint {
  import opened Common
  import opened BadJson
  import opened Printing

  // A text that cannot leave a lone backslash behind in a quote that is never closed.
  predicate Tidy(s: string) {
    s == "" || s[|s| - 1] != '\\'
  }

  // What is kept of a double-quoted text that ended on a lone backslash: a quote mark put
  // behind it is escaped by it.
  predicate OpenText(q: string) {
    QuotedRun(q + ['"'], '"') == |q| + 1
  }

  predicate OpenSeg(seg: Seg)
    decreases seg, 0
  {
    match seg
    case Word(input, quote, special) => quote == Double && special && OpenText(input)
    case Parent(children, _) => LastOpen(children)
    case _ => false
  }

  // All plain but for the very last word, which was left open.
  predicate LastOpen(segs: seq<Seg>)
    decreases segs, 0
  {
    segs != [] && if |segs| == 1 then OpenSeg(segs[0]) else Plain(segs[0]) && LastOpen(segs[1..])
  }

  // ----- what chop can make of a text

  lemma {:induction false} RunEnds(s: string)
    ensures var q := s[..QuotedRun(s, '"')];
            Closed(q) || (OpenText(q) && HasSpecial(q) && q == s && !Tidy(s))
  {
    if s != "" && s[0] != '"' {
      var n := QuotedRun(s, '"');
      if s == "\\" {
        assert s[..n] == s && (s + ['"'])[2..] == "";
      } else {
        var step := if s[0] == '\\' then 2 else 1;
        RunEnds(s[step..]);
        assert s[..n][step..] == s[step..][..n - step];
        assert (s[..n] + ['"'])[step..] == s[step..][..n - step] + ['"'];
        if s[step..][..n - step] == s[step..] {
          assert s[..n] == s;
          SpecialLater(s, step);
        }
      }
    }
  }

  lemma SpecialLater(s: string, n: nat)
    requires 0 < n <= 2 && n <= |s|
    ensures HasSpecial(s[n..]) ==> HasSpecial(s)
  {
    assert n == 2 ==> s[1..][1..] == s[2..];
  }

  lemma {:induction false} PlainAppend(x: seq<Seg>, y: seq<Seg>)
    requires AllPlain(x)
    ensures AllPlain(y) ==> AllPlain(x + y)
    ensures LastOpen(y) ==> LastOpen(x + y)
  {
    hide Plain, OpenSeg;
    if x == [] {
      assert x + y == y;
    } else {
      PlainAppend(x[1..], y);
      assert (x + y)[1..] == x[1..] + y;
    }
  }

  lemma SuffixTidy(s: string, rest: string)
    requires Suffix(s, rest) && !Tidy(rest)
    ensures !Tidy(s)
  {
  }

  // Plain, or open at the very end of a text that ends in a backslash.
  ghost predicate Kept(s: string, c: Chopped) {
    c.Done? && AllTextual(c.segs) ==> AllPlain(c.segs) || (LastOpen(c.segs) && c.rest == "" && !Tidy(s))
  }

  lemma KeptOne(s: string, seg: Seg, rest: string)
    requires Textual(seg) ==> Plain(seg) || (OpenSeg(seg) && rest == "" && !Tidy(s))
    ensures Kept(s, Done([seg], rest))
  {
    hide Plain, OpenSeg, Textual;
    var c := Done([seg], rest);
    assert c.segs == [seg] && seg in [seg];
    assert Plain(seg) ==> AllPlain([seg]) by { assert [seg][1..] == []; }
    assert OpenSeg(seg) ==> LastOpen([seg]);
  }

  lemma KeptNone(s: string, c: Chopped)
    requires c.Fail? || c.segs == []
    ensures Kept(s, c)
  {
  }

  lemma OneQuotedKept(t: string, closer: Option<char>, depth: nat)
    requires t != "" && (t[0] == '"' || t[0] == '\'')
    ensures Kept(t, One(t, closer, depth))
  {
    hide Scan, QuotedRun, HasSpecial, Closed, OpenText, Kept;
    var s := t[1..];
    if s == "" {
      KeptNone(t, Done([], ""));
    } else {
      RunEnds(s);
      var n := QuotedRun(s, t[0]);
      var seg := Word(s[..n], if t[0] == '"' then Double else Single, HasSpecial(s[..n]));
      KeptOne(t, seg, Drop(s, n + 1));
    }
  }

  lemma {:induction false} OneKept(t: string, closer: Option<char>, depth: nat)
    requires t != ""
    ensures Kept(t, One(t, closer, depth))
    decreases |t|, 0
  {
    hide Scan, HexRun, B64Run, EqualsRun, QuotedRun, WordRun, HasSpecial, Closed, OpenText, Kept;
    var c := One(t, closer, depth);
    if t[0] == '"' || t[0] == '\'' {
      OneQuotedKept(t, closer, depth);
    } else if c.Fail? || c.segs == [] {
      KeptNone(t, c);
    } else {
      var seg := c.segs[0];
      assert c == Done([seg], c.rest);
      if t[0] == '{' || t[0] == '[' {
        ScanKept(t[1..], Some(Closer(t[0])), depth + 1);
        assert Chop0(t[1..], Some(Closer(t[0])), depth + 1).Done?;
        ParentKept(t, Scan(t[1..], Some(Closer(t[0])), depth + 1), t[0] == '[');
      } else {
        KeptOne(t, seg, c.rest);
      }
    }
  }

  lemma ParentKept(t: string, inner: Chopped, wasArray: bool)
    requires t != "" && inner.Done? && Kept(t[1..], inner)
    ensures Kept(t, Done([Parent(inner.segs, wasArray)], Drop(inner.rest, 1)))
  {
    var seg := Parent(inner.segs, wasArray);
    if Textual(seg) && !AllPlain(inner.segs) {
      SuffixTidy(t, t[1..]);
    }
    KeptOne(t, seg, Drop(inner.rest, 1));
  }

  lemma {:induction false} ScanKept(s: string, closer: Option<char>, depth: nat)
    ensures Kept(s, Scan(s, closer, depth))
    decreases |s|, 1
  {
    hide One, Delims, Textual, Plain, OpenSeg;
    var t := s[Delims(s)..];
    if t != "" && Some(t[0]) != closer {
      OneKept(t, closer, depth);
      OneStops(t, closer, depth);
      var one := One(t, closer, depth);
      if one.Done? {
        ScanKept(one.rest, closer, depth);
        var more := Scan(one.rest, closer, depth);
        if more.Done? && AllTextual(one.segs + more.segs) {
          assert forall x :: x in one.segs || x in more.segs ==> x in one.segs + more.segs;
          if AllPlain(one.segs) {
            PlainAppend(one.segs, more.segs);
          } else {
            EmptyScan();
            assert one.segs + [] == one.segs;
          }
          if !Tidy(one.rest) {
            SuffixTidy(t, one.rest);
          }
          if !Tidy(t) {
            SuffixTidy(s, t);
          }
        }
      }
    }
  }

  /**
   * What chop makes of a text, if it is only words and brackets, is plain; or its very last
   * word was left open, and that only when the text ends in a backslash.
   */
  lemma ChopIsPlain(text: string)
    requires Chop(text).Ok? && AllTextual(Chop(text).value)
    ensures var segs := Chop(text).value;
            segs != [] && (AllPlain(segs) || (LastOpen(segs) && !Tidy(text)))
  {
    hide Scan, HasSpecial;
    var c := Chop0(text, None, 0);
    if c.segs == [] {
      PlainWords("");
      assert [Word("", Bare, false)][1..] == [] && !HasSpecial("") by { EmptyNotSpecial(); }
    } else {
      ScanKept(text, None, 0);
      if Chop(text).value != c.segs {
        var p := c.segs[0];
        assert c.segs == [p] && Textual(p) && AllTextual(c.segs);
        assert AllPlain(c.segs) ==> Plain(p);
        assert LastOpen(c.segs) ==> OpenSeg(p);
      }
    }
  }

  lemma EmptyNotSpecial()
    ensures !HasSpecial("")
  {
  }

  lemma {:induction false} OpenIsNotPlain(segs: seq<Seg>)
    requires LastOpen(segs)
    ensures !AllPlain(segs)
    decreases segs
  {
    if |segs| > 1 {
      OpenIsNotPlain(segs[1..]);
    } else if segs[0].Parent? {
      OpenIsNotPlain(segs[0].children);
    }
  }

  // ----- an open word runs on to the end of the print

  predicate NoMarks(s: string) {
    forall i :: 0 <= i < |s| ==> !Special(s[i])
  }

  lemma {:induction false} RunsOut(s: string)
    requires NoMarks(s)
    ensures QuotedRun(s, '"') == |s|
  {
    if s != "" {
      assert !Special(s[0]);
      RunsOut(s[1..]);
    }
  }

  lemma {:induction false} OpenRunsOn(q: string, more: string)
    requires OpenText(q) && NoMarks(more)
    ensures QuotedRun(q + ['"'] + more, '"') == |q| + 1 + |more| && HasSpecial(q + ['"'] + more)
  {
    var s := q + ['"'] + more;
    if q == "\\" {
      RunsOut(more);
      assert s[2..] == more;
    } else if q != "" {
      var step := if q[0] == '\\' then 2 else 1;
      assert (q + ['"'])[step..] == q[step..] + ['"'];
      assert s[step..] == q[step..] + ['"'] + more;
      OpenRunsOn(q[step..], more);
      SpecialLater(s, step);
    }
  }

  lemma {:induction false} OpenSaysMore(q: string, more: string)
    requires OpenText(q)
    ensures |Unescape(q + ['"'] + more, '"', false)| > |Unescape(q, '"', false)|
  {
    hide Unescape;
    var s := q + ['"'] + more;
    if q == "\\" {
      LoneSlash(s, more);
    } else if q != "" {
      var step := if q[0] == '\\' then 2 else 1;
      assert (q + ['"'])[step..] == q[step..] + ['"'];
      assert s[step..] == q[step..] + ['"'] + more;
      OpenSaysMore(q[step..], more);
      assert step == 2 ==> s[1] == q[1];
      UnescapeTwo(q, step);
      UnescapeTwo(s, step);
    }
  }

  lemma LoneSlash(s: string, more: string)
    requires s == "\\" + ['"'] + more
    ensures |Unescape(s, '"', false)| > |Unescape("\\", '"', false)|
  {
    assert "\\"[1..] == "" && Unescape("", '"', true) == "";
  }

  // What the first character, or a backslash and the next, contribute depends on nothing else.
  lemma UnescapeTwo(s: string, step: nat)
    requires 0 < step <= |s| && step == (if s[0] == '\\' then 2 else 1)
    ensures |Unescape(s, '"', false)| ==
            (if step == 2 && s[1] != '\\' && s[1] != '"' then 2 else 1) + |Unescape(s[step..], '"', false)|
  {
    assert step == 2 ==> s[1..][1..] == s[2..];
  }

  ghost predicate SameShapes(again: seq<Seg>, segs: seq<Seg>)
    requires AllTextual(segs)
  {
    AllTextual(again) && Shapes(again) == Shapes(segs)
  }

  // Everything was read, and not as the same list.
  ghost predicate Spoilt(c: Chopped, segs: seq<Seg>)
    requires AllTextual(segs)
  {
    c.Done? ==> c.rest == "" && c.segs != [] && !SameShapes(c.segs, segs)
  }

  lemma OneWordSpoilt(input: string, rest: string, closer: Option<char>, depth: nat)
    requires OpenText(input) && NoMarks(rest)
    ensures var seg := Word(input, Double, true); Spoilt(One(Quoted(seg) + rest, closer, depth), [seg])
  {
    hide Scan;
    var seg := Word(input, Double, true);
    var s := input + ['"'] + rest;
    assert Quoted(seg) + rest == ['"'] + s;
    assert (['"'] + s)[1..] == s;
    OpenRunsOn(input, rest);
    OpenSaysMore(input, rest);
    assert s[..|s|] == s;
    var again := Word(s, Double, true);
    assert One(['"'] + s, closer, depth) == Done([again], "");
    assert Shapes([again])[0] != Shapes([seg])[0];
  }

  lemma {:induction false} OneSpoilt(seg: Seg, rest: string, closer: Option<char>, depth: nat)
    requires OpenSeg(seg) && Textual(seg) && NoMarks(rest) && depth <= MAX_DEPTH && |Quoted(seg) + rest| <= MAX_TEXT
    ensures AllTextual([seg]) && Spoilt(One(Quoted(seg) + rest, closer, depth), [seg])
    decreases seg, 1
  {
    hide One, QuotedWord, RawWord, Separator, Delims, Items, OpenText, NoMarks, Spoilt;
    assert AllTextual([seg]);
    match seg
    case Word(input, _, _) =>
      OneWordSpoilt(input, rest, closer, depth);
    case Parent(children, wasArray) =>
      var tail := [if wasArray then ']' else '}'] + rest;
      var inner := Items(children, wasArray, 0) + tail;
      assert Quoted(seg) + rest == [if wasArray then '[' else '{'] + inner;
      assert NoMarks(tail) by { MarksNone(wasArray, rest); }
      if depth < MAX_DEPTH {
        ScanSpoilt(children, wasArray, 0, tail, depth + 1);
      }
      ParentSpoilt(inner, wasArray, children, closer, depth);
  }

  lemma MarksNone(wasArray: bool, rest: string)
    requires NoMarks(rest)
    ensures NoMarks([if wasArray then ']' else '}'] + rest)
  {
  }

  lemma ParentSpoilt(inner: string, wasArray: bool, children: seq<Seg>, closer: Option<char>, depth: nat)
    requires AllTextual(children) && 0 < |inner| <= MAX_TEXT
    requires var close := if wasArray then ']' else '}';
             depth < MAX_DEPTH ==> Spoilt(Scan(inner, Some(close), depth + 1), children)
    ensures AllTextual([Parent(children, wasArray)])
    ensures Spoilt(One([if wasArray then '[' else '{'] + inner, closer, depth), [Parent(children, wasArray)])
  {
    hide Scan;
    var open := if wasArray then '[' else '{';
    assert ([open] + inner)[1..] == inner;
    var c := One([open] + inner, closer, depth);
    if c.Done? {
      var again := Chop0(inner, Some(Closer(open)), depth + 1).segs;
      assert c == Done([Parent(again, wasArray)], "");
      if AllTextual(c.segs) {
        assert Textual(c.segs[0]) && AllTextual(again);
        assert Shapes(c.segs)[0] == List(Shapes(again), wasArray);
        assert Shapes([Parent(children, wasArray)])[0] == List(Shapes(children), wasArray);
      }
    }
  }

  lemma {:induction false} ScanSpoilt(segs: seq<Seg>, wasArray: bool, i: nat, tail: string, depth: nat)
    requires LastOpen(segs) && AllTextual(segs) && NoMarks(tail) && depth <= MAX_DEPTH
    requires tail != "" && tail[0] == if wasArray then ']' else '}'
    requires |Items(segs, wasArray, i) + tail| <= MAX_TEXT
    ensures Spoilt(Scan(Items(segs, wasArray, i) + tail, Some(tail[0]), depth), segs)
    decreases segs, 0
  {
    hide One, Delims, Separator, QuotedWord, RawWord, NoMarks, Plain, OpenSeg, Spoilt;
    assert Textual(segs[0]);
    var closer := Some(tail[0]);
    var rest := Items(segs[1..], wasArray, i + 1) + tail;
    var first := Quoted(segs[0]) + rest;
    assert Items(segs, wasArray, i) + tail == Separator(wasArray, i) + first;
    assert first[0] == Quoted(segs[0])[0];
    DelimsSeparator(wasArray, i, first);
    if |segs| == 1 {
      assert rest == tail && segs == [segs[0]];
      OneSpoilt(segs[0], tail, closer, depth);
      LastSpoilt(One(first, closer, depth), closer, depth, segs);
    } else {
      OneItem(segs[0], rest, closer, depth);
      ScanSpoilt(segs[1..], wasArray, i + 1, tail, depth);
      if depth + NestOne(segs[0]) <= MAX_DEPTH {
        ConsSpoilt(Reread(segs[0]), Scan(rest, closer, depth), segs);
      } else {
        assert Spoilt(Fail(TooDeep), segs) by { FailSpoilt(segs); }
      }
    }
  }

  lemma FailSpoilt(segs: seq<Seg>)
    requires AllTextual(segs)
    ensures Spoilt(Fail(TooDeep), segs)
  {
  }

  lemma LastSpoilt(one: Chopped, closer: Option<char>, depth: nat, segs: seq<Seg>)
    requires AllTextual(segs) && Spoilt(one, segs)
    ensures Spoilt(if one.Fail? then one else Prepend(one.segs, Scan(one.rest, closer, depth)), segs)
  {
    hide Scan, SameShapes;
    EmptyScan();
    if one.Done? {
      assert one.segs + [] == one.segs;
    }
  }

  lemma SameTail(x: Seg, xs: seq<Seg>, segs: seq<Seg>)
    requires AllTextual(segs) && segs != [] && AllTextual(segs[1..])
    ensures SameShapes([x] + xs, segs) ==> SameShapes(xs, segs[1..])
  {
    if SameShapes([x] + xs, segs) {
      assert ([x] + xs)[1..] == xs;
      assert forall y :: y in xs ==> y in [x] + xs;
      assert Shapes([x] + xs)[1..] == Shapes(xs) && Shapes(segs)[1..] == Shapes(segs[1..]);
    }
  }

  lemma ConsSpoilt(x: Seg, c: Chopped, segs: seq<Seg>)
    requires AllTextual(segs) && segs != [] && AllTextual(segs[1..]) && Spoilt(c, segs[1..])
    ensures Spoilt(Prepend([x], c), segs)
  {
    hide SameShapes;
    if c.Done? {
      SameTail(x, c.segs, segs);
    }
  }

  // Chop on a bracket that is never closed gives its content.
  lemma Bracketed(inner: string)
    requires 0 < |inner| < MAX_TEXT
    requires var c := Scan(inner, Some(']'), 1); c.Done? ==> c.rest == "" && c.segs != []
    ensures var c := Scan(inner, Some(']'), 1); var r := Chop(['['] + inner); r.Ok? ==> c.Done? && r.value == c.segs
  {
    hide Scan, Delims;
    var text := ['['] + inner;
    assert text[1..] == inner;
    DelimsNone(text);
    var c := Scan(inner, Some(']'), 1);
    assert One(text, None, 0) == if c.Fail? then c else Done([Parent(c.segs, true)], "");
    TopScans(text);
  }

  lemma TopScans(text: string)
    requires Delims(text) == 0 && text != ""
    ensures var one := One(text, None, 0);
            && (one.Fail? ==> Scan(text, None, 0) == one)
            && (one.Done? && one.rest == "" ==> Scan(text, None, 0) == Done(one.segs, ""))
  {
    hide One, Delims;
    assert text[0..] == text;
    EmptyScan();
    var one := One(text, None, 0);
    if one.Done? {
      assert one.segs + [] == one.segs;
    }
  }

  /** The print of a list whose last word is open is never read back as the same list. */
  lemma OpenIsSpoilt(segs: seq<Seg>)
    requires LastOpen(segs) && AllTextual(segs)
    ensures var r := Chop(ToString(segs)); r.Ok? ==> !SameShapes(r.value, segs)
  {
    hide Scan, Items, LastOpen, SameShapes;
    var inner := Items(segs, true, 0) + "]";
    assert ToString(segs) == ['['] + inner;
    if |ToString(segs)| <= MAX_TEXT {
      assert NoMarks("]");
      ScanSpoilt(segs, true, 0, "]", 1);
      Bracketed(inner);
    }
  }

  // ----- which texts leave a word open

  /**
   * Whether `s`, read inside brackets that end on `closers`, ends inside a double-quoted text on
   * a backslash with nothing to escape. No segments are made.
   */
  predicate LeftOpen(s: string, closers: seq<char>)
    decreases |s|
  {
    s != "" && (
      if s[0] == ' ' || IsDelim(s[0]) then LeftOpen(s[1..], closers)
      else if Some(s[0]) == Innermost(closers) then LeftOpen(s[1..], closers[..|closers| - 1])
      else if s[0] == '"' || s[0] == '\'' then
        var n := QuotedRun(s[1..], s[0]);
        if n == |s| - 1 then s[0] == '"' && OpenText(s[1..]) else LeftOpen(s[n + 2..], closers)
      else if s[0] == '{' || s[0] == '[' then LeftOpen(s[1..], closers + [Closer(s[0])])
      else LeftOpen(s[WordRun(s, Innermost(closers))..], closers))
  }

  function Innermost(closers: seq<char>): Option<char> {
    if closers == [] then None else Some(closers[|closers| - 1])
  }

  lemma {:induction false} LastOpenAppend(x: seq<Seg>, y: seq<Seg>)
    requires AllPlain(x)
    ensures LastOpen(x + y) <==> LastOpen(y)
  {
    hide Plain, OpenSeg;
    if x == [] {
      assert x + y == y;
    } else {
      LastOpenAppend(x[1..], y);
      assert (x + y)[1..] == x[1..] + y;
      if |x + y| == 1 {
        assert x == [x[0]] && y == [];
        PlainNotOpen(x[0]);
      }
    }
  }

  lemma PlainNotOpen(seg: Seg)
    requires Plain(seg)
    ensures !OpenSeg(seg)
  {
    if seg.Parent? && LastOpen(seg.children) {
      OpenIsNotPlain(seg.children);
    }
  }

  lemma SingleOpen(seg: Seg)
    ensures LastOpen([seg]) == OpenSeg(seg)
  {
  }

  lemma LeftOpenNone(closers: seq<char>)
    ensures !LeftOpen("", closers)
  {
  }

  // Behind a bracket the list around it goes on.
  lemma LeftOpenCloses(rest: string, closers: seq<char>, open: char)
    requires open == '{' || open == '['
    requires rest == "" || rest[0] == Closer(open)
    ensures LeftOpen(rest, closers + [Closer(open)]) == LeftOpen(Drop(rest, 1), closers)
  {
    if rest != "" {
      assert (closers + [Closer(open)])[..|closers|] == closers;
    }
  }

  lemma OneQuotedLeft(t: string, closers: seq<char>, depth: nat)
    requires t != "" && (t[0] == '"' || t[0] == '\'') && Some(t[0]) != Innermost(closers)
    ensures var c := One(t, Innermost(closers), depth);
            LeftOpen(t, closers) == (LastOpen(c.segs) || LeftOpen(c.rest, closers))
  {
    hide HasSpecial, Scan;
    var s := t[1..];
    var n := QuotedRun(s, t[0]);
    LeftOpenNone(closers);
    if s != "" {
      var w := Word(s[..n], if t[0] == '"' then Double else Single, HasSpecial(s[..n]));
      assert One(t, Innermost(closers), depth) == Done([w], Drop(s, n + 1));
      SingleOpen(w);
      if t[0] == '"' {
        RunEnds(s);
      }
      if n == |s| {
        assert s[..n] == s;
        if OpenText(s) && t[0] == '"' {
          assert !Closed(s);
        }
      } else {
        assert t[n + 2..] == Drop(s, n + 1);
      }
    }
  }

  lemma OneWordLeft(t: string, closers: seq<char>, depth: nat)
    requires t != "" && Some(t[0]) != Innermost(closers) && t[0] !in "\"'{[$="
    ensures var c := One(t, Innermost(closers), depth);
            LeftOpen(t, closers) == (LastOpen(c.segs) || LeftOpen(c.rest, closers))
  {
    hide HasSpecial, Scan, OpenText, QuotedRun;
    var n := WordRun(t, Innermost(closers));
    var w := Word(t[..n], Bare, HasSpecial(t[..n]));
    assert One(t, Innermost(closers), depth) == Done([w], t[n..]);
    SingleOpen(w);
    if t[0] == ' ' || IsDelim(t[0]) {
      assert n == 0 && t[0..] == t;
    }
  }

  lemma BracketLeft(t: string, closers: seq<char>)
    requires t != "" && Some(t[0]) != Innermost(closers) && (t[0] == '{' || t[0] == '[')
    ensures LeftOpen(t, closers) == LeftOpen(t[1..], closers + [Closer(t[0])])
    ensures Innermost(closers + [Closer(t[0])]) == Some(Closer(t[0]))
  {
  }

  lemma {:induction false} OneLeft(t: string, closers: seq<char>, depth: nat)
    requires t != "" && Some(t[0]) != Innermost(closers)
    requires var c := One(t, Innermost(closers), depth); c.Done? && AllTextual(c.segs)
    ensures var c := One(t, Innermost(closers), depth);
            LeftOpen(t, closers) == (LastOpen(c.segs) || LeftOpen(c.rest, closers))
    decreases |t|, 0
  {
    hide Scan, QuotedRun, HasSpecial, OpenText, HexRun, B64Run, EqualsRun, WordRun, LeftOpen, LastOpen, OpenSeg;
    var c := One(t, Innermost(closers), depth);
    if t[0] == '"' || t[0] == '\'' {
      OneQuotedLeft(t, closers, depth);
    } else if t[0] == '{' || t[0] == '[' {
      LeftOpenNone(closers);
      BracketLeft(t, closers);
      var stack := closers + [Closer(t[0])];
      if t[1..] == "" {
        LeftOpenNone(stack);
        NoneOpen();
      } else {
        var inner := Chop0(t[1..], Innermost(stack), depth + 1);
        assert inner.Done? && c == Done([Parent(inner.segs, t[0] == '[')], Drop(inner.rest, 1));
        assert Textual(c.segs[0]);
        ScanLeft(t[1..], stack, depth + 1);
        ScanStops(t[1..], Innermost(stack), depth + 1);
        LeftOpenCloses(inner.rest, closers, t[0]);
        SingleOpen(c.segs[0]);
        ParentOpen(inner.segs, t[0] == '[');
      }
    } else {
      assert t[0] == '$' || t[0] == '=' ==> c.segs != [] && !Textual(c.segs[0]);
      OneWordLeft(t, closers, depth);
    }
  }

  lemma NoneOpen()
    ensures !LastOpen([])
  {
  }

  lemma ParentOpen(segs: seq<Seg>, wasArray: bool)
    ensures OpenSeg(Parent(segs, wasArray)) == LastOpen(segs)
  {
  }

  lemma {:induction false} ScanLeft(s: string, closers: seq<char>, depth: nat)
    requires var c := Scan(s, Innermost(closers), depth); c.Done? && AllTextual(c.segs)
    ensures var c := Scan(s, Innermost(closers), depth);
            LeftOpen(s, closers) == (LastOpen(c.segs) || LeftOpen(c.rest, closers))
    decreases |s|, 1
  {
    hide One, Delims, Textual, Plain, OpenSeg, LeftOpen;
    var closer := Innermost(closers);
    var t := s[Delims(s)..];
    LeftOpenSkips(s, closers);
    if t != "" && Some(t[0]) != closer {
      var one := One(t, closer, depth);
      var more := Scan(one.rest, closer, depth);
      assert forall x :: x in one.segs || x in more.segs ==> x in one.segs + more.segs;
      OneLeft(t, closers, depth);
      OneKept(t, closer, depth);
      ScanLeft(one.rest, closers, depth);
      if AllPlain(one.segs) {
        LastOpenAppend(one.segs, more.segs);
        LastOpenAppend(one.segs, []);
        assert one.segs + [] == one.segs;
      } else {
        EmptyScan();
        assert one.segs + [] == one.segs;
        LeftOpenNone(closers);
      }
    }
  }

  lemma {:induction false} SpacesLeft(s: string, closers: seq<char>)
    ensures LeftOpen(s, closers) == LeftOpen(s[Spaces(s)..], closers)
  {
    hide QuotedRun, WordRun, OpenText;
    if s != "" && s[0] == ' ' {
      SpacesLeft(s[1..], closers);
      assert s[1..][Spaces(s[1..])..] == s[Spaces(s)..];
    } else {
      assert s[0..] == s;
    }
  }

  lemma LeftOpenSkips(s: string, closers: seq<char>)
    ensures LeftOpen(s, closers) == LeftOpen(s[Delims(s)..], closers)
  {
    hide Spaces, LeftOpen;
    SpacesLeft(s, closers);
    var n := Spaces(s);
    if n < |s| && IsDelim(s[n]) {
      DelimLeft(s[n..], closers);
      SpacesLeft(s[n + 1..], closers);
      assert s[n..][1..] == s[n + 1..];
      assert s[n + 1..][Spaces(s[n + 1..])..] == s[Delims(s)..];
    }
  }

  lemma DelimLeft(s: string, closers: seq<char>)
    requires s != "" && IsDelim(s[0])
    ensures LeftOpen(s, closers) == LeftOpen(s[1..], closers)
  {
  }

  // ----- and so

  ghost predicate SameAgain(r: Result<seq<Seg>>, segs: seq<Seg>)
    requires AllTextual(segs)
  {
    r.Ok? && SameShapes(r.value, segs) && ToString(r.value) == ToString(segs)
  }

  /** What chop made of a text ends in an open word if and only if the text leaves one open. */
  lemma OpenInText(text: string)
    requires Chop(text).Ok? && AllTextual(Chop(text).value)
    ensures LastOpen(Chop(text).value) <==> LeftOpen(text, [])
  {
    hide Scan, HasSpecial, OpenText, LastOpen, OpenSeg, LeftOpen;
    var c := Chop0(text, None, 0);
    if c.segs != [] && Chop(text).value != c.segs {
      var p := c.segs[0];
      assert c.segs == [p] && Textual(p);
      SingleOpen(p);
      ParentOpen(p.children, true);
    }
    if c.segs == [] {
      NoneOpen();
      SingleOpen(Word("", Bare, false));
      assert !OpenSeg(Word("", Bare, false)) by { BareNotOpen(); }
    }
    ScanLeft(text, [], 0);
    ScanStops(text, None, 0);
    LeftOpenNone([]);
  }

  lemma BareNotOpen()
    ensures !OpenSeg(Word("", Bare, false))
  {
  }

  /**
   * Printing what chop read and reading it again changes nothing - same shape, same bracket
   * kinds, same raw texts, same printed form - if and only if the print is within the limits
   * (it can be longer than the text, and a bracket deeper) and the text does not end inside a
   * double-quoted word on a lone backslash. A text that does not end in a backslash does not.
   */
  lemma ReprintIsStable(text: string)
    requires Chop(text).Ok? && AllTextual(Chop(text).value)
    ensures var segs := Chop(text).value;
            SameAgain(Chop(ToString(segs)), segs) <==>
            |ToString(segs)| <= 16384 && Nest(segs) + 1 <= 16 && !LeftOpen(text, [])
    ensures Tidy(text) ==> !LeftOpen(text, [])
  {
    hide Chop, Nest, Shapes, ToString, AllPlain, LastOpen, LeftOpen;
    var segs := Chop(text).value;
    ChopIsPlain(text);
    OpenInText(text);
    if LastOpen(segs) {
      OpenIsNotPlain(segs);
      OpenIsSpoilt(segs);
    } else {
      RoundTrip(segs);
    }
  }

  const OPEN := "\"\\" // a double quote mark and a backslash

  lemma OpenRead()
    ensures Chop(OPEN) == Ok([Word("\\", Double, true)])
  {
    var w := Word("\\", Double, true);
    OpenOne();
    assert Scan(OPEN, None, 0) == Done([w], "") by {
      hide One;
      assert OPEN[0..] == OPEN && Delims(OPEN) == 0;
      assert Scan("", None, 0) == Done([], "") by { assert Delims("") == 0; }
      assert [w] + [] == [w];
    }
  }

  lemma OpenOne()
    ensures One(OPEN, None, 0) == Done([Word("\\", Double, true)], "")
  {
    var s := "\\";
    assert OPEN[1..] == s && s[1..] == "";
    assert QuotedRun(s, '"') == 1 && s[..1] == s && HasSpecial(s);
  }

  /**
   * The smallest such text: the quote is never closed and keeps the slash, and in print that
   * slash takes the closing quote mark with it.
   */
  lemma LoneSlashChanges()
    ensures Chop(OPEN).Ok? && AllTextual(Chop(OPEN).value) && LeftOpen(OPEN, [])
    ensures !SameAgain(Chop(ToString(Chop(OPEN).value)), Chop(OPEN).value)
  {
    hide Chop, SameAgain, ToString;
    OpenRead();
    assert OPEN[1..] == "\\" && "\\" + ['"'] == "\\\"" && "\\\""[2..] == "" && "\\"[1..] == "";
    assert QuotedRun("\\", '"') == 1 && OpenText("\\");
    ReprintIsStable(OPEN);
  }
}

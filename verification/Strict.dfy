// A reader with none of chop's tolerance, for what the printer writes (badjson/parse.go:266-300):
// every text in double quotes, a colon after each item of `{}` with an even index, and a comma
// between all others. It shares nothing with chop or with the printer.
module Strict {
  import opened Common
  import opened BadJson
  import opened Printing
  import opened TextForm

  datatype Read<T> = Got(value: T, rest: string) | Bad

  /** The text up to `quote`; a backslash stays unless it is before `quote` or another one. */
  function ReadText(s: string, quote: char): (r: Read<string>)
    ensures r.Got? ==> |r.rest| < |s|
  {
    if s == "" then Bad
    else if s[0] == quote then Got("", s[1..])
    else
      var step := if s[0] == '\\' then 2 else 1;
      if |s| < step then Bad
      else
        match ReadText(s[step..], quote)
        case Bad => Bad
        case Got(text, rest) =>
          Got((if step == 2 && (s[1] == quote || s[1] == '\\') then [s[1]] else s[..step]) + text, rest)
  }

  function ReadValue(s: string): (r: Read<Shape>)
    ensures r.Got? ==> |r.rest| < |s|
    decreases |s|, 0
  {
    if s == "" then Bad
    else if s[0] == '"' then
      match ReadText(s[1..], '"')
      case Bad => Bad
      case Got(text, rest) => Got(Text(text), rest)
    else if s[0] == '[' || s[0] == '{' then
      match ReadItems(s[1..], s[0] == '[', 0)
      case Bad => Bad
      case Got(items, rest) => Got(List(items, s[0] == '['), rest)
    else Bad
  }

  /** The items from index `i` on, and the bracket that closes them. */
  function ReadItems(s: string, wasArray: bool, i: nat): (r: Read<seq<Shape>>)
    ensures r.Got? ==> |r.rest| < |s|
    decreases |s|, 2
  {
    if s == "" then Bad
    else if s[0] == (if wasArray then ']' else '}') then Got([], s[1..])
    else if i == 0 then ReadOn(s, wasArray, i)
    else if s[0] == (if i % 2 == 1 && !wasArray then ':' else ',') then ReadOn(s[1..], wasArray, i)
    else Bad
  }

  function ReadOn(s: string, wasArray: bool, i: nat): (r: Read<seq<Shape>>)
    ensures r.Got? ==> |r.rest| < |s|
    decreases |s|, 1
  {
    match ReadValue(s)
    case Bad => Bad
    case Got(item, rest) =>
      match ReadItems(rest, wasArray, i + 1)
      case Bad => Bad
      case Got(items, after) => Got([item] + items, after)
  }

  // ----- what is printed

  lemma {:induction false} ClosedReads(q: string, tail: string)
    requires Closed(q)
    ensures ReadText(q + ['"'] + tail, '"') == Got(Unescape(q, '"', false), tail)
  {
    var s := q + ['"'] + tail;
    if q != "" {
      var step := if q[0] == '\\' then 2 else 1;
      assert (q + ['"'])[step..] == q[step..] + ['"'];
      assert s[step..] == q[step..] + ['"'] + tail;
      ClosedReads(q[step..], tail);
      assert s[..step] == q[..step];
      UnescapeUnit(q, '"');
    }
  }

  // A backslash and what follows it, or another character alone.
  lemma UnescapeUnit(s: string, quote: char)
    requires s != "" && (s[0] == '\\' ==> |s| > 1)
    ensures var step := if s[0] == '\\' then 2 else 1;
            Unescape(s, quote, false) ==
               (if step == 2 && (s[1] == quote || s[1] == '\\') then [s[1]] else s[..step]) +
               Unescape(s[step..], quote, false)
  {
    if s[0] == '\\' {
      assert s[1..][1..] == s[2..] && s[..2] == ['\\', s[1]];
    }
  }

  lemma WordReads(input: string, quote: Quote, special: bool, tail: string)
    requires PlainWord(input, quote, special)
    ensures var q := QuotedWord(input, quote, special);
            ReadText(q + ['"'] + tail, '"') == Got(RawWord(input, quote, special), tail)
  {
    var q := QuotedWord(input, quote, special);
    RereadWord(input, quote, special);
    ClosedReads(q, tail);
    if !HasSpecial(q) {
      UnescapeNothing(q, '"');
    }
  }

  lemma {:induction false} PrintedValue(seg: Seg, tail: string)
    requires Plain(seg) && Textual(seg)
    ensures ReadValue(Quoted(seg) + tail) == Got(ShapeOf(seg), tail)
    decreases seg, 1
  {
    hide RawWord, QuotedWord, PlainWord, ReadText, ReadItems, Items;
    var s := Quoted(seg) + tail;
    match seg
    case Word(input, quote, special) =>
      var q := QuotedWord(input, quote, special);
      WordReads(input, quote, special, tail) by { assert PlainWord(input, quote, special); }
      assert s == ['"'] + (q + ['"'] + tail);
      assert s[1..] == q + ['"'] + tail;
    case Parent(children, wasArray) =>
      var open, close := if wasArray then '[' else '{', if wasArray then ']' else '}';
      PrintedItems(children, wasArray, 0, tail);
      assert Quoted(seg) == Print(children, wasArray) == [open] + Items(children, wasArray, 0) + [close];
      assert s == [open] + (Items(children, wasArray, 0) + [close] + tail);
      assert s[1..] == Items(children, wasArray, 0) + [close] + tail;
  }

  lemma {:induction false} PrintedItems(segs: seq<Seg>, wasArray: bool, i: nat, tail: string)
    requires AllPlain(segs) && AllTextual(segs)
    ensures ReadItems(Items(segs, wasArray, i) + [if wasArray then ']' else '}'] + tail, wasArray, i)
            == Got(Shapes(segs), tail)
    decreases segs, 0
  {
    hide ReadValue, ReadItems, Plain, Textual, ShapeOf, Quoted, Separator;
    var end := [if wasArray then ']' else '}'] + tail;
    var s := Items(segs, wasArray, i) + [if wasArray then ']' else '}'] + tail;
    if segs == [] {
      assert s == end && s[1..] == tail;
      ReadEnd(s, wasArray, i);
    } else {
      var more := Items(segs[1..], wasArray, i + 1) + [if wasArray then ']' else '}'] + tail;
      var first := Quoted(segs[0]) + more;
      assert Textual(segs[0]);
      PrintedValue(segs[0], more);
      PrintedItems(segs[1..], wasArray, i + 1, tail);
      assert s == Separator(wasArray, i) + first;
      assert first[0] == Quoted(segs[0])[0];
      ReadNext(first, wasArray, i);
    }
  }

  lemma ReadEnd(s: string, wasArray: bool, i: nat)
    requires s != "" && s[0] == if wasArray then ']' else '}'
    ensures ReadItems(s, wasArray, i) == Got([], s[1..])
  {
  }

  lemma ReadNext(first: string, wasArray: bool, i: nat)
    requires first != "" && first[0] != ']' && first[0] != '}'
    ensures ReadItems(Separator(wasArray, i) + first, wasArray, i) == ReadOn(first, wasArray, i)
  {
    hide ReadOn;
    var s := Separator(wasArray, i) + first;
    if i == 0 {
      assert s == first;
    } else {
      assert s[1..] == first;
    }
  }

  /** What the printer writes is strictly well formed, and says exactly what was printed. */
  lemma PrintIsStrict(segs: seq<Seg>, wasArray: bool)
    requires AllPlain(segs) && AllTextual(segs)
    ensures ReadValue(Print(segs, wasArray)) == Got(List(Shapes(segs), wasArray), "")
  {
    hide ReadValue, Shapes, Items;
    var whole := Parent(segs, wasArray);
    assert Plain(whole) && Textual(whole);
    PrintedValue(whole, "");
    assert Quoted(whole) + "" == Print(segs, wasArray);
  }

  // ----- chop reads what is strictly well formed

  function Depth(shape: Shape): nat
    decreases shape, 0
  {
    if shape.List? then 1 + DepthAll(shape.items) else 0
  }

  function DepthAll(shapes: seq<Shape>): nat
    decreases shapes, 0
  {
    if shapes == [] then 0 else Max(Depth(shapes[0]), DepthAll(shapes[1..]))
  }

  // Where the strict reader finds a text, so does the loop over a quoted run.
  lemma {:induction false} RunIsText(s: string, quote: char)
    requires quote == '"' || quote == '\''
    ensures ReadText(s, quote) == UpTo(s, QuotedRun(s, quote), quote)
  {
    hide Unescape;
    if s == "" || s[0] == quote {
      assert Unescape("", quote, false) == "" by { UnescapeNothing("", quote); }
      assert s[..0] == "";
    } else {
      var step := if s[0] == '\\' then 2 else 1;
      if step <= |s| {
        RunIsText(s[step..], quote);
        UpToStep(s, QuotedRun(s[step..], quote), quote);
      }
    }
  }

  function UpTo(s: string, n: nat, quote: char): Read<string> {
    if n < |s| then Got(Unescape(s[..n], quote, false), s[n + 1..]) else Bad
  }

  lemma UpToStep(s: string, m: nat, quote: char)
    requires s != "" && (s[0] == '\\' ==> |s| > 1)
    requires m <= |s| - if s[0] == '\\' then 2 else 1
    ensures var step := if s[0] == '\\' then 2 else 1;
            UpTo(s, step + m, quote) ==
              match UpTo(s[step..], m, quote)
              case Bad => Bad
              case Got(text, rest) =>
                Got((if step == 2 && (s[1] == quote || s[1] == '\\') then [s[1]] else s[..step]) + text, rest)
  {
    hide Unescape;
    var step := if s[0] == '\\' then 2 else 1;
    var n := step + m;
    if n < |s| {
      var q := s[..n];
      assert q[step..] == s[step..][..m] && q[..step] == s[..step] && s[n + 1..] == s[step..][m + 1..];
      UnescapeUnit(q, quote);
    }
  }

  /**
   * A text in either kind of quotes, followed by anything, is one word whose raw text is what
   * the strict reader gets; without its closing quote it runs on to the end.
   */
  lemma QuotedWordRead(s: string, quote: char, closer: Option<char>, depth: nat)
    requires s != "" && (quote == '"' || quote == '\'')
    ensures var c := One([quote] + s, closer, depth);
            && c.Done? && |c.segs| == 1 && c.segs[0].Word?
            && c.segs[0].quote == (if quote == '"' then Double else Single)
            && match ReadText(s, quote)
               case Bad => c.rest == ""
               case Got(text, rest) => c.rest == rest && ShapeOf(c.segs[0]) == Text(text)
  {
    hide Chop0, QuotedRun, HasSpecial, ReadText, Unescape;
    RunIsText(s, quote);
    assert ([quote] + s)[1..] == s;
    var n := QuotedRun(s, quote);
    if !HasSpecial(s[..n]) {
      UnescapeNothing(s[..n], quote);
    }
  }

  // What chop makes of one strictly read value.
  ghost predicate Agrees(c: Chopped, shape: Shape, rest: string, depth: nat) {
    if depth + Depth(shape) <= 16
    then c.Done? && |c.segs| == 1 && c.rest == rest && Textual(c.segs[0]) && ShapeOf(c.segs[0]) == shape
    else c == Fail(TooDeep)
  }

  ghost predicate AllAgree(c: Chopped, shapes: seq<Shape>, rest: string, depth: nat) {
    if depth + DepthAll(shapes) <= 16
    then c.Done? && c.rest == rest && AllTextual(c.segs) && Shapes(c.segs) == shapes
    else c == Fail(TooDeep)
  }

  lemma {:induction false} ChopValue(s: string, closer: Option<char>, depth: nat)
    requires ReadValue(s).Got? && |s| <= 16384 && depth <= 16
    ensures Agrees(One(s, closer, depth), ReadValue(s).value, ReadValue(s).rest, depth)
    decreases |s|, 0
  {
    hide ReadText, ReadItems, QuotedRun, HasSpecial, Scan, Shapes, DepthAll, RawWord, One;
    var t := s[1..];
    assert s == [s[0]] + t;
    if s[0] == '"' {
      QuotedWordRead(t, '"', closer, depth);
    } else {
      if depth < 16 {
        ChopItems(t, s[0] == '[', 0, depth + 1);
      }
      ChopList(t, s[0], closer, depth, ReadItems(t, s[0] == '[', 0));
    }
  }

  lemma ChopList(t: string, open: char, closer: Option<char>, depth: nat, r: Read<seq<Shape>>)
    requires 0 < |t| <= 16384 && (open == '[' || open == '{') && r.Got? && depth <= 16
    requires var close := if open == '[' then ']' else '}';
             depth < 16 ==> AllAgree(Scan(t, Some(close), depth + 1), r.value, [close] + r.rest, depth + 1)
    ensures Agrees(One([open] + t, closer, depth), List(r.value, open == '['), r.rest, depth)
  {
    hide Scan, Shapes, DepthAll, Textual, HexRun, B64Run, EqualsRun, QuotedRun, WordRun, HasSpecial;
    var close := if open == '[' then ']' else '}';
    assert ([open] + t)[1..] == t;
    assert Drop([close] + r.rest, 1) == r.rest;
    var c := Scan(t, Some(close), depth + 1);
    if depth < 16 && c.Done? {
      assert Textual(Parent(c.segs, open == '[')) <==> AllTextual(c.segs) by { TextualParent(c.segs, open == '['); }
    }
  }

  lemma TextualParent(segs: seq<Seg>, wasArray: bool)
    ensures Textual(Parent(segs, wasArray)) <==> AllTextual(segs)
  {
  }

  lemma {:induction false} ChopItems(s: string, wasArray: bool, i: nat, depth: nat)
    requires ReadItems(s, wasArray, i).Got? && |s| <= 16384 && depth <= 16
    ensures var close := if wasArray then ']' else '}';
            var r := ReadItems(s, wasArray, i);
            AllAgree(Scan(s, Some(close), depth), r.value, [close] + r.rest, depth)
    decreases |s|, 1
  {
    hide ReadValue, One, Delims, Shapes, DepthAll, Textual;
    var close := if wasArray then ']' else '}';
    var r := ReadItems(s, wasArray, i);
    if s[0] == close {
      DelimsNone(s);
      assert s == [close] + s[1..];
      assert AllAgree(Done([], s), [], s, depth) by { NoShapes(); }
    } else {
      var t := if i == 0 then s else s[1..];
      var one := ReadValue(t);
      assert t != "" && (t[0] == '"' || t[0] == '[' || t[0] == '{') by { StartsValue(t); }
      DelimsOne(s, t);
      ChopValue(t, Some(close), depth);
      ChopItems(one.rest, wasArray, i + 1, depth);
      var c := One(t, Some(close), depth);
      assert Scan(s, Some(close), depth) ==
             if c.Fail? then c else Prepend(c.segs, Scan(c.rest, Some(close), depth));
      AgreeOn(c, one.value, one.rest, Scan(one.rest, Some(close), depth),
              ReadItems(one.rest, wasArray, i + 1).value, [close] + r.rest, depth);
    }
  }

  lemma NoShapes()
    ensures Shapes([]) == [] && DepthAll([]) == 0
  {
  }

  lemma StartsValue(t: string)
    requires ReadValue(t).Got?
    ensures t != "" && (t[0] == '"' || t[0] == '[' || t[0] == '{')
  {
  }

  lemma DelimsOne(s: string, t: string)
    requires t != "" && t[0] != ' ' && !IsDelim(t[0])
    requires s == t || (s != "" && IsDelim(s[0]) && s[1..] == t)
    ensures s[Delims(s)..] == t
  {
    assert Spaces(t) == 0;
  }

  lemma AgreeOn(one: Chopped, shape: Shape, rest: string, c: Chopped, shapes: seq<Shape>, end: string, depth: nat)
    requires Agrees(one, shape, rest, depth) && AllAgree(c, shapes, end, depth)
    ensures AllAgree(if one.Fail? then one else Prepend(one.segs, c), [shape] + shapes, end, depth)
  {
    hide Textual, ShapeOf, Depth;
    assert ([shape] + shapes)[1..] == shapes;
    if one.Done? && c.Done? {
      var seg := one.segs[0];
      assert one.segs == [seg] && ([seg] + c.segs)[1..] == c.segs;
    }
  }

  // A lone `[...]` with something in it stands for its items.
  function Unwrapped(shape: Shape): seq<Shape> {
    if shape.List? && shape.wasArray && shape.items != [] then shape.items else [shape]
  }

  /** Chop reads every strictly well-formed list, to the depth it allows, as the list it says. */
  lemma ChopReadsStrict(s: string)
    requires ReadValue(s).Got? && ReadValue(s).rest == "" && ReadValue(s).value.List?
    requires |s| <= 16384
    ensures var shape := ReadValue(s).value;
            && (Chop(s).Ok? <==> Depth(shape) <= 16)
            && (Chop(s).Ok? ==> AllTextual(Chop(s).value))
            && (Chop(s).Ok? ==> Shapes(Chop(s).value) == Unwrapped(shape))
  {
    hide Chop0, ReadValue, Textual, DepthAll, Shapes, AllTextual;
    ChopWhole(s);
    var c := Chop0(s, None, 0);
    if c.Done? {
      var seg := c.segs[0];
      assert c.segs == [seg];
      LoneList(seg);
    }
  }

  lemma ChopWhole(s: string)
    requires ReadValue(s).Got? && ReadValue(s).rest == "" && |s| <= 16384
    ensures Agrees(Chop0(s, None, 0), ReadValue(s).value, "", 0)
  {
    hide Chop0, One, ReadValue, Delims, Textual, ShapeOf, Depth;
    StartsValue(s);
    DelimsOne(s, s);
    ChopValue(s, None, 0);
    ChopIsOne(s);
  }

  lemma ChopIsOne(s: string)
    requires s != "" && s[Delims(s)..] == s && |s| <= 16384
    requires One(s, None, 0).Done? ==> One(s, None, 0).rest == ""
    ensures Chop0(s, None, 0) == One(s, None, 0)
  {
    hide *;
    NotTooLong(s);
    ScanUnfold(s, 0);
    GoNoFurther(One(s, None, 0));
  }

  lemma NotTooLong(s: string)
    requires |s| <= 16384
    ensures Chop0(s, None, 0) == Scan(s, None, 0)
  {
    hide Scan;
  }

  lemma GoNoFurther(c: Chopped)
    requires c.Done? ==> c.rest == ""
    ensures GoOn(c, 0) == c
  {
    hide Scan;
    NothingMore();
    if c.Done? {
      AppendNone(c.segs);
    }
  }

  lemma NothingMore()
    ensures Scan("", None, 0) == Done([], "")
  {
    assert Delims("") == 0;
  }

  lemma AppendNone(segs: seq<Seg>)
    ensures segs + [] == segs
  {
  }

  lemma LoneList(seg: Seg)
    requires Textual(seg) && ShapeOf(seg).List?
    ensures AllTextual([seg]) && Shapes([seg]) == [ShapeOf(seg)]
    ensures seg.Parent? && AllTextual(seg.children) && ShapeOf(seg) == List(Shapes(seg.children), seg.wasArray)
    ensures seg.children == [] <==> Shapes(seg.children) == []
  {
    hide RawWord;
    assert [seg][1..] == [];
    TextualParent(seg.children, seg.wasArray);
  }

  // ----- the printable form of a packet

  /** The arguments of a packet's text: each after its comma, in quotes or up to a comma or `]`. */
  function ReadList(s: string): (r: Read<seq<string>>)
    ensures r.Got? ==> |r.rest| < |s|
    decreases |s|
  {
    if s == "" then Bad
    else if s[0] == ']' then Got([], s[1..])
    else if s[0] != ',' then Bad
    else
      var one := ReadArg(s[1..]);
      match one
      case Bad => Bad
      case Got(arg, rest) =>
        match ReadList(rest)
        case Bad => Bad
        case Got(args, after) => Got([arg] + args, after)
  }

  function ReadArg(s: string): (r: Read<string>)
    ensures r.Got? ==> |r.rest| <= |s|
  {
    if s != "" && s[0] == '"' then ReadText(s[1..], '"') else ReadBare(s)
  }

  function ReadBare(s: string): (r: Read<string>)
    ensures r.Got? ==> |r.rest| <= |s|
  {
    if s == "" || s[0] == ',' || s[0] == ']' then Got("", s)
    else
      match ReadBare(s[1..])
      case Bad => Bad
      case Got(arg, rest) => Got([s[0]] + arg, rest)
  }

  lemma {:induction false} BareRead(arg: string, more: string)
    requires ',' !in arg && ']' !in arg && more != "" && (more[0] == ',' || more[0] == ']')
    ensures ReadBare(arg + more) == Got(arg, more)
  {
    if arg == "" {
      assert arg + more == more;
    } else {
      assert arg[0] in arg;
      assert (arg + more)[1..] == arg[1..] + more;
      BareRead(arg[1..], more);
      assert arg == [arg[0]] + arg[1..];
    }
  }

  lemma ArgRead(arg: string, more: string)
    requires InQuotes(arg) || ']' !in arg
    requires more != "" && (more[0] == ',' || more[0] == ']')
    ensures ReadArg(ArgText(arg) + more) == Got(arg, more)
  {
    hide Escape, ReadText;
    var s := ArgText(arg) + more;
    if arg != "" && InQuotes(arg) {
      assert s[1..] == Escape(arg) + ['"'] + more;
      QuotedRunEscaped(arg, "");
      assert Escape(arg) + ['"'] + "" == Escape(arg) + ['"'];
      ClosedReads(Escape(arg), more);
      UnescapeEscape(arg, '"');
    } else {
      BareRead(arg, more);
      assert arg != "" ==> s[0] == arg[0] && !OddStart(arg[0]);
      assert ',' !in arg by { forall i | 0 <= i < |arg| ensures arg[i] != ',' { assert !Breaks(arg[i]); } }
    }
  }

  /** The text of a packet says exactly its arguments, unless a bare one has a `]` in it. */
  lemma {:induction false} ArgsAreStrict(args: seq<string>)
    requires forall a :: a in args ==> InQuotes(a) || ']' !in a
    ensures ReadList(ArgsText(args)) == Got(args, "")
  {
    hide ArgText, ReadArg;
    if args != [] {
      ArgsStart(args[1..]);
      assert args[0] in args;
      var s := ArgsText(args);
      assert s[1..] == ArgText(args[0]) + ArgsText(args[1..]);
      ArgRead(args[0], ArgsText(args[1..]));
      ArgsAreStrict(args[1..]);
      assert args == [args[0]] + args[1..];
    }
  }
}
